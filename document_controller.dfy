/**
 * The document handlers that serve the built-in sample documents
 * (`USE_SAMPLE_DATA` is fixed to true): a paged listing, a lookup by id, a
 * listing by category and a case-insensitive search on title, content and
 * summary. Each is a function of the request's parameters and the sample
 * list, which is passed in.
 */
module DocumentController {
  import opened Common
  import opened Listing

  /** A sample document, with the fields the handlers read; issue date, issuer and download link travel along unread. */
  datatype Document = Document(id: string, title: string, category: string, summary: string, content: string)

  /** The page size when `limit` is absent, zero or not a number. */
  const PageLimit := 20

  const MissingId := "Document ID is required"
  const NotFound := "Document not found"
  const MissingCategory := "Document category is required"
  const MissingQuery := "Search query is required"

  /** `GET /api/documents?page&limit`: one page of the sample documents with the total count. */
  function GetAllDocuments(documents: seq<Document>, page: Option<int>, limit: Option<int>): (r: Reply<ListPage<Document>>)
    ensures r.Success? && r.status == 200
    ensures r.data.count == |documents|
    ensures r.data.page == IntOr(page, 1)
    ensures r.data.totalPages == CeilDiv(|documents|, IntOr(limit, PageLimit))
    ensures r.data.data == PageData(documents, IntOr(page, 1), IntOr(limit, PageLimit))
  {
    Success(200, Paginate(documents, page, limit, PageLimit))
  }

  /** For a page and a limit of at least one, the listing holds the run of at most `limit` documents
      starting at `(page - 1) * limit`, in order, and the page count covers every document. */
  lemma DocumentPageIsRun(documents: seq<Document>, page: int, limit: int)
    requires page >= 1 && limit >= 1
    ensures var d := GetAllDocuments(documents, Some(page), Some(limit)).data;
            var start := (page - 1) * limit;
            && |d.data| <= limit
            && (forall i :: 0 <= i < |d.data| ==> start + i < |documents| && d.data[i] == documents[start + i])
            && (|d.data| == limit || start + |d.data| == |documents| || start >= |documents|)
            && limit * (d.totalPages - 1) < |documents| <= limit * d.totalPages
  {
    PageIsContiguousRun(documents, page, limit, PageLimit);
    TotalPagesCoverItems(|documents|, limit);
  }

  /** `GET /api/documents/:id`: the first document whose id is exactly `id`. */
  function GetDocumentById(documents: seq<Document>, id: Option<string>): (r: Reply<Document>)
    ensures !Truthy(id) ==> r == Failure(400, MissingId, None)
    ensures Truthy(id) && r.Failure? <==> Truthy(id) && forall i :: 0 <= i < |documents| ==> documents[i].id != id.value
    ensures Truthy(id) && r.Failure? ==> r == Failure(404, NotFound, None)
    ensures r.Success? ==> r.status == 200 && r.data.id == id.value
    ensures r.Success? ==> exists k :: 0 <= k < |documents| && documents[k] == r.data &&
                                       forall j :: 0 <= j < k ==> documents[j].id != id.value
  {
    if !Truthy(id) then Failure(400, MissingId, None)
    else match Find(documents, (d: Document) => d.id == id.value)
      case None => Failure(404, NotFound, None)
      case Some(d) => Success(200, d)
  }

  /** `GET /api/documents/category/:category`: the documents whose category is exactly the parameter, case included. */
  function GetDocumentsByCategory(documents: seq<Document>, category: Option<string>): (r: Reply<Found<Document>>)
    ensures !Truthy(category) ==> r == Failure(400, MissingCategory, None)
    ensures Truthy(category) ==> r.Success? && r.status == 200 && r.data.count == |r.data.data|
    ensures r.Success? ==> forall i :: 0 <= i < |r.data.data| ==>
                             r.data.data[i] in documents && r.data.data[i].category == category.value
    ensures r.Success? ==> forall i :: 0 <= i < |documents| && documents[i].category == category.value ==>
                             documents[i] in r.data.data
    ensures r.Success? ==> Subsequence(r.data.data, documents)
    ensures r.Success? ==> forall x :: multiset(r.data.data)[x] ==
                             if x.category == category.value then multiset(documents)[x] else 0
  {
    if !Truthy(category) then Failure(400, MissingCategory, None)
    else
      var filtered := Filter(documents, (d: Document) => d.category == category.value);
      FilterIsSubsequence(documents, (d: Document) => d.category == category.value);
      FilterKeepsMultiplicity(documents, (d: Document) => d.category == category.value);
      Success(200, Found(|filtered|, filtered))
  }

  /** A document with a category is listed under that category and under no other. */
  lemma ListedUnderOwnCategoryOnly(documents: seq<Document>, i: int, other: string)
    requires 0 <= i < |documents| && documents[i].category != ""
    ensures documents[i] in GetDocumentsByCategory(documents, Some(documents[i].category)).data.data
    ensures other != documents[i].category && other != "" ==>
              documents[i] !in GetDocumentsByCategory(documents, Some(other)).data.data
  {
  }

  /** `title`, `content` or `summary`, lowercased, includes the search term. */
  predicate TextHas(d: Document, searchTerm: string)
  {
    Contains(Lower(d.title), searchTerm) || Contains(Lower(d.content), searchTerm) || Contains(Lower(d.summary), searchTerm)
  }

  /** `GET /api/documents/search?query`: the documents whose title, content or summary contains the query, ignoring ASCII case. */
  function SearchDocuments(documents: seq<Document>, query: Option<string>): (r: Reply<Found<Document>>)
    ensures !Truthy(query) ==> r == Failure(400, MissingQuery, None)
    ensures Truthy(query) ==> r.Success? && r.status == 200 && r.data.count == |r.data.data|
    ensures r.Success? ==> forall i :: 0 <= i < |r.data.data| ==>
                             r.data.data[i] in documents && TextHas(r.data.data[i], Lower(query.value))
    ensures r.Success? ==> forall i :: 0 <= i < |documents| && TextHas(documents[i], Lower(query.value)) ==>
                             documents[i] in r.data.data
    ensures r.Success? ==> Subsequence(r.data.data, documents)
    ensures r.Success? ==> forall x :: multiset(r.data.data)[x] ==
                             if TextHas(x, Lower(query.value)) then multiset(documents)[x] else 0
  {
    if !Truthy(query) then Failure(400, MissingQuery, None)
    else
      var searchTerm := Lower(query.value);
      var results := Filter(documents, (d: Document) => TextHas(d, searchTerm));
      FilterIsSubsequence(documents, (d: Document) => TextHas(d, searchTerm));
      FilterKeepsMultiplicity(documents, (d: Document) => TextHas(d, searchTerm));
      Success(200, Found(|results|, results))
  }

  /** The search ignores the case of the query. */
  lemma SearchIgnoresQueryCase(documents: seq<Document>, query: string)
    ensures SearchDocuments(documents, Some(Lower(query))) == SearchDocuments(documents, Some(query))
  {
    LowerIdempotent(query);
  }

  /** A document whose title holds the query, in any case, is among the results. */
  lemma TitleMatchIsFound(documents: seq<Document>, i: int, query: string, at: int)
    requires 0 <= i < |documents| && query != ""
    requires OccursAt(Lower(documents[i].title), Lower(query), at)
    ensures documents[i] in SearchDocuments(documents, Some(query)).data.data
  {
    assert TextHas(documents[i], Lower(query));
  }
}
