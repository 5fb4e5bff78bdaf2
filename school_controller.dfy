/**
 * The school handlers that serve the built-in sample catalogue
 * (`USE_SAMPLE_DATA` is fixed to true): a paged listing, a lookup by id and
 * a case-insensitive search on name and location. Each is a function of the
 * request's parameters and the sample list, which is passed in.
 */
module SchoolController {
  import opened Common
  import opened Listing

  /** A sample school, with the fields the handlers read; the contact, approval, fee and facility records travel along unread. */
  datatype School = School(id: string, name: string, location: string, kind: string, affiliation: string)

  /** The page size when `limit` is absent, zero or not a number. */
  const PageLimit := 20

  const MissingId := "School ID is required"
  const NotFound := "School not found"
  const MissingQuery := "Search query is required"

  /** `GET /api/schools?page&limit`: one page of the sample schools with the total count. */
  function GetAllSchools(schools: seq<School>, page: Option<int>, limit: Option<int>): (r: Reply<ListPage<School>>)
    ensures r.Success? && r.status == 200
    ensures r.data.count == |schools|
    ensures r.data.page == IntOr(page, 1)
    ensures r.data.totalPages == CeilDiv(|schools|, IntOr(limit, PageLimit))
    ensures r.data.data == PageData(schools, IntOr(page, 1), IntOr(limit, PageLimit))
  {
    Success(200, Paginate(schools, page, limit, PageLimit))
  }

  /** For a page and a limit of at least one, the listing holds the run of at most `limit` schools
      starting at `(page - 1) * limit`, in catalogue order, and the page count covers every school. */
  lemma SchoolPageIsRun(schools: seq<School>, page: int, limit: int)
    requires page >= 1 && limit >= 1
    ensures var d := GetAllSchools(schools, Some(page), Some(limit)).data;
            var start := (page - 1) * limit;
            && |d.data| <= limit
            && (forall i :: 0 <= i < |d.data| ==> start + i < |schools| && d.data[i] == schools[start + i])
            && (|d.data| == limit || start + |d.data| == |schools| || start >= |schools|)
            && limit * (d.totalPages - 1) < |schools| <= limit * d.totalPages
  {
    PageIsContiguousRun(schools, page, limit, PageLimit);
    TotalPagesCoverItems(|schools|, limit);
  }

  /** Every school is listed on page `i / limit + 1`, at position `i % limit`. */
  lemma EverySchoolIsListed(schools: seq<School>, i: int, limit: int)
    requires 0 <= i < |schools| && limit >= 1
    ensures var d := GetAllSchools(schools, Some(i / limit + 1), Some(limit)).data.data;
            i % limit < |d| && d[i % limit] == schools[i]
  {
    ItemOnItsPage(schools, i, limit, PageLimit);
  }

  /** `GET /api/schools/:id`: the first school whose id is exactly `id`. */
  function GetSchoolById(schools: seq<School>, id: Option<string>): (r: Reply<School>)
    ensures !Truthy(id) ==> r == Failure(400, MissingId, None)
    ensures Truthy(id) && r.Failure? <==> Truthy(id) && forall i :: 0 <= i < |schools| ==> schools[i].id != id.value
    ensures Truthy(id) && r.Failure? ==> r == Failure(404, NotFound, None)
    ensures r.Success? ==> r.status == 200 && r.data.id == id.value
    ensures r.Success? ==> exists k :: 0 <= k < |schools| && schools[k] == r.data &&
                                       forall j :: 0 <= j < k ==> schools[j].id != id.value
  {
    if !Truthy(id) then Failure(400, MissingId, None)
    else match Find(schools, (s: School) => s.id == id.value)
      case None => Failure(404, NotFound, None)
      case Some(s) => Success(200, s)
  }

  /** The lowercased name or the lowercased location includes the (already lowercased) search term. */
  predicate NameOrLocationHas(s: School, searchTerm: string)
  {
    Contains(Lower(s.name), searchTerm) || Contains(Lower(s.location), searchTerm)
  }

  /** `GET /api/schools/search?query`: the schools whose name or location contains the query, ignoring ASCII case. */
  function SearchSchools(schools: seq<School>, query: Option<string>): (r: Reply<Found<School>>)
    ensures !Truthy(query) ==> r == Failure(400, MissingQuery, None)
    ensures Truthy(query) ==> r.Success? && r.status == 200 && r.data.count == |r.data.data|
    ensures r.Success? ==> forall i :: 0 <= i < |r.data.data| ==>
                             r.data.data[i] in schools && NameOrLocationHas(r.data.data[i], Lower(query.value))
    ensures r.Success? ==> forall i :: 0 <= i < |schools| && NameOrLocationHas(schools[i], Lower(query.value)) ==>
                             schools[i] in r.data.data
    ensures r.Success? ==> Subsequence(r.data.data, schools)
    ensures r.Success? ==> forall x :: multiset(r.data.data)[x] ==
                             if NameOrLocationHas(x, Lower(query.value)) then multiset(schools)[x] else 0
  {
    if !Truthy(query) then Failure(400, MissingQuery, None)
    else
      var searchTerm := Lower(query.value);
      var results := Filter(schools, (s: School) => NameOrLocationHas(s, searchTerm));
      FilterIsSubsequence(schools, (s: School) => NameOrLocationHas(s, searchTerm));
      FilterKeepsMultiplicity(schools, (s: School) => NameOrLocationHas(s, searchTerm));
      Success(200, Found(|results|, results))
  }

  /** The search ignores the case of the query: asking in capitals or in lower case gives the same reply. */
  lemma SearchIgnoresQueryCase(schools: seq<School>, query: string)
    ensures SearchSchools(schools, Some(Lower(query))) == SearchSchools(schools, Some(query))
  {
    LowerIdempotent(query);
  }
}
