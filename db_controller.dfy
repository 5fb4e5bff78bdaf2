/**
 * The handlers in front of the PostgreSQL storage: they read and default the
 * query parameters, validate the required fields, delegate to the storage
 * layer and wrap what it returns. The storage layer never throws (a failing
 * statement gives `[]`, `undefined` or `null`), so the 500 replies of these
 * handlers cannot be produced and are not modelled.
 *
 * A catalogue handler is a function of the tables and of `reachable`, whether
 * the database carries out the query; the chat handlers call the
 * `DatabaseStorage` object.
 */
module DbController {
  import opened Common
  import opened Listing
  import Storage

  /** The page size of the school and document listings when `limit` is absent, zero or not a number. */
  const PageLimit := 10
  /** The chat history length when `limit` is absent, zero or not a number. */
  const HistoryLimit := 50

  const SchoolNotFound := "School not found"
  const DocumentNotFound := "Document not found"
  const MissingQuery := "Search query is required"
  const MissingFields := "Missing required fields"

  // ---------------------------------------------------------------------------
  // Schools

  /** `GET /api/db/schools?page&limit`: a page of schools with their fee structures; `count` is the page size. */
  function GetSchools(db: Storage.Database, reachable: bool, page: Option<int>, limit: Option<int>)
    : (r: Reply<Found<Storage.SchoolWithFees>>)
    ensures r.Success? && r.status == 200 && r.data.count == |r.data.data|
    ensures r.data.data == Storage.GetSchools(db, reachable, Some(IntOr(page, 1)), Some(IntOr(limit, PageLimit)))
  {
    var schools := Storage.GetSchools(db, reachable, Some(IntOr(page, 1)), Some(IntOr(limit, PageLimit)));
    Success(200, Found(|schools|, schools))
  }

  /** Without `page` and `limit` the listing is the first ten schools (or all of them when there are
      fewer), each with its fee structure: the storage layer's own default of 20 never applies. */
  lemma {:induction false} DefaultSchoolPage(db: Storage.Database)
    ensures var d := GetSchools(db, true, None, None).data.data;
            && |d| == (if |db.schools| < PageLimit then |db.schools| else PageLimit)
            && forall i :: 0 <= i < |d| ==> d[i] == Storage.WithFees(db, db.schools[i])
  {
    var rows := Storage.LimitOffset(db.schools, PageLimit, Storage.Offset(1, PageLimit));
    assert rows.Some?;
  }

  /** `GET /api/db/schools/:id`; `id` is the integer the path segment spells, None when it is not one
      (the query then fails and storage answers `undefined`). */
  function GetSchoolById(db: Storage.Database, reachable: bool, id: Option<int>)
    : (r: Reply<Storage.SchoolWithFees>)
    ensures r.Failure? <==> !(reachable && id.Some?) || Storage.GetSchoolById(db, true, id.value).None?
    ensures r.Failure? ==> r == Failure(404, SchoolNotFound, None)
    ensures r.Success? ==> && r.status == 200 && r.data.school in db.schools && r.data.school.id == id.value
                           && r.data.feeStructure == Storage.FirstFee(db.fees, id.value)
  {
    var school := if id.Some? then Storage.GetSchoolById(db, reachable, id.value) else None;
    match school
    case None => Failure(404, SchoolNotFound, None)
    case Some(s) => Success(200, s)
  }

  /** A school the database holds is found by its id, with its first fee structure. */
  lemma {:induction false} StoredSchoolIsFound(db: Storage.Database, i: int)
    requires 0 <= i < |db.schools|
    ensures var r := GetSchoolById(db, true, Some(db.schools[i].id));
            r.Success? && r.data.school.id == db.schools[i].id
  {
    var id := db.schools[i].id;
    assert db.schools[i].id == id;
    assert Storage.GetSchoolById(db, true, id).Some?;
  }

  /** The search term: `query` when it is truthy, otherwise `q`. */
  function SearchTerm(query: Option<string>, q: Option<string>): (t: Option<string>)
    ensures Truthy(t) <==> Truthy(query) || Truthy(q)
    ensures Truthy(query) ==> t == query
    ensures !Truthy(query) ==> t == q
  {
    if Truthy(query) then query else q
  }

  /** `GET /api/db/schools/search?query|q`: the schools whose name or location contains the term, ignoring ASCII case. */
  function SearchSchools(db: Storage.Database, reachable: bool, query: Option<string>, q: Option<string>)
    : (r: Reply<Found<Storage.SchoolWithFees>>)
    ensures r.Failure? <==> !Truthy(query) && !Truthy(q)
    ensures r.Failure? ==> r == Failure(400, MissingQuery, None)
    ensures r.Success? ==> r.status == 200 && r.data.count == |r.data.data|
    ensures r.Success? ==> r.data.data == Storage.SearchSchools(db, reachable, SearchTerm(query, q).value)
    ensures r.Success? ==> forall i :: 0 <= i < |r.data.data| ==>
                             && r.data.data[i].school in db.schools
                             && Storage.SchoolMatches(r.data.data[i].school, SearchTerm(query, q).value)
    ensures r.Success? && reachable ==>
              forall i :: 0 <= i < |db.schools| && Storage.SchoolMatches(db.schools[i], SearchTerm(query, q).value) ==>
                exists j :: 0 <= j < |r.data.data| && r.data.data[j].school == db.schools[i]
  {
    var term := SearchTerm(query, q);
    if !Truthy(term) then Failure(400, MissingQuery, None)
    else
      var schools := Storage.SearchSchools(db, reachable, term.value);
      Success(200, Found(|schools|, schools))
  }

  /** `query` wins over `q`, and `q` alone is searched for as if it had been given as `query`. */
  lemma QueryBeforeQ(db: Storage.Database, reachable: bool, a: string, b: Option<string>)
    ensures a != "" ==> SearchSchools(db, reachable, Some(a), b) == SearchSchools(db, reachable, Some(a), None)
    ensures SearchSchools(db, reachable, None, Some(a)) == SearchSchools(db, reachable, Some(a), None)
    ensures SearchSchools(db, reachable, Some(""), Some(a)) == SearchSchools(db, reachable, Some(a), None)
  {
  }

  // ---------------------------------------------------------------------------
  // Documents

  /** `GET /api/db/documents?page&limit&category`; a falsy category becomes `null`, which lists every category. */
  function GetDocuments(db: Storage.Database, reachable: bool, page: Option<int>, limit: Option<int>,
                        category: Option<string>): (r: Reply<Found<Storage.DocumentRow>>)
    ensures r.Success? && r.status == 200 && r.data.count == |r.data.data|
    ensures r.data.data == Storage.GetDocuments(db, reachable, Some(IntOr(page, 1)), Some(IntOr(limit, PageLimit)),
                                                if Truthy(category) then category else None)
    ensures |r.data.data| <= if IntOr(limit, PageLimit) < 0 then 0 else IntOr(limit, PageLimit)
    ensures Truthy(category) ==> forall i :: 0 <= i < |r.data.data| ==> r.data.data[i].category == category.value
  {
    var documents := Storage.GetDocuments(db, reachable, Some(IntOr(page, 1)), Some(IntOr(limit, PageLimit)),
                                          if Truthy(category) then category else None);
    Success(200, Found(|documents|, documents))
  }

  /** An empty `category` parameter lists the same documents as no parameter at all. */
  lemma EmptyCategoryListsAll(db: Storage.Database, reachable: bool, page: Option<int>, limit: Option<int>)
    ensures GetDocuments(db, reachable, page, limit, Some("")) == GetDocuments(db, reachable, page, limit, None)
  {
  }

  /** `GET /api/db/documents/:id`; `id` as for schools. */
  function GetDocumentById(db: Storage.Database, reachable: bool, id: Option<int>)
    : (r: Reply<Storage.DocumentRow>)
    ensures r.Failure? <==> !(reachable && id.Some?) || Storage.GetDocumentById(db, true, id.value).None?
    ensures r.Failure? ==> r == Failure(404, DocumentNotFound, None)
    ensures r.Success? ==> r.status == 200 && r.data in db.documents && r.data.id == id.value
  {
    var document := if id.Some? then Storage.GetDocumentById(db, reachable, id.value) else None;
    match document
    case None => Failure(404, DocumentNotFound, None)
    case Some(d) => Success(200, d)
  }

  /** `GET /api/db/documents/search?query|q`: documents whose title or content contains the term, ignoring ASCII case. */
  function SearchDocuments(db: Storage.Database, reachable: bool, query: Option<string>, q: Option<string>)
    : (r: Reply<Found<Storage.DocumentRow>>)
    ensures r.Failure? <==> !Truthy(query) && !Truthy(q)
    ensures r.Failure? ==> r == Failure(400, MissingQuery, None)
    ensures r.Success? ==> r.status == 200 && r.data.count == |r.data.data|
    ensures r.Success? ==> r.data.data == Storage.SearchDocuments(db, reachable, SearchTerm(query, q).value)
    ensures r.Success? ==> forall i :: 0 <= i < |r.data.data| ==>
                             r.data.data[i] in db.documents && Storage.DocumentMatches(r.data.data[i], SearchTerm(query, q).value)
    ensures r.Success? && reachable ==>
              forall i :: 0 <= i < |db.documents| && Storage.DocumentMatches(db.documents[i], SearchTerm(query, q).value) ==>
                db.documents[i] in r.data.data
  {
    var term := SearchTerm(query, q);
    if !Truthy(term) then Failure(400, MissingQuery, None)
    else
      var documents := Storage.SearchDocuments(db, reachable, term.value);
      Success(200, Found(|documents|, documents))
  }

  // ---------------------------------------------------------------------------
  // Chat

  /** The fields `saveChatMessage` demands: a truthy `userId` and `message`, and an `isUser` that is present, even if false. */
  predicate HasRequiredFields(userId: Option<int>, message: Option<string>, isUser: Option<bool>)
  {
    TruthyInt(userId) && Truthy(message) && isUser.Some?
  }

  /** `POST /api/db/chat`: 400 without the required fields; otherwise 201 with the stored row, or with `null`
      when the insert fails. */
  method SaveChatMessage(store: Storage.DatabaseStorage, userId: Option<int>, message: Option<string>,
                         isUser: Option<bool>, language: Option<string>) returns (r: Reply<Option<Storage.ChatRow>>)
    requires store.Valid()
    modifies store
    ensures store.Valid()
    ensures r.Failure? <==> !HasRequiredFields(userId, message, isUser)
    ensures r.Failure? ==> r == Failure(400, MissingFields, None) && unchanged(store)
    ensures r.Success? ==> r.status == 201 && store.statements == old(store.statements) + 1
    ensures r.Success? && store.accepts(old(store.statements)) ==>
              && r.data == Some(Storage.ChatRow(old(store.nextId), userId.value, message.value, isUser.value,
                                                StringOr(language, Storage.DefaultLanguage), old(store.statements)))
              && store.chat == old(store.chat) + [r.data.value]
              && store.nextId == old(store.nextId) + 1
    ensures r.Success? && !store.accepts(old(store.statements)) ==>
              && r.data == None && store.chat == old(store.chat)
              && store.nextId == if store.burns(old(store.statements)) then old(store.nextId) + 1 else old(store.nextId)
  {
    if !HasRequiredFields(userId, message, isUser) {
      return Failure(400, MissingFields, None);
    }
    var saved := store.SaveChatMessage(userId.value, message.value, isUser.value,
                                       Some(StringOr(language, Storage.DefaultLanguage)));
    r := Success(201, saved);
  }

  /** `isUser: false` is a valid bot turn: only an absent `isUser` is refused. */
  lemma BotTurnIsAccepted(userId: int, message: string)
    requires userId != 0 && message != ""
    ensures HasRequiredFields(Some(userId), Some(message), Some(false))
    ensures !HasRequiredFields(Some(userId), Some(message), None)
  {
  }

  /** `GET /api/db/chat/:userId?limit`: the user's oldest `limit` turns, 50 by default, oldest first. */
  method GetChatHistory(store: Storage.DatabaseStorage, userId: int, limit: Option<int>)
    returns (r: Reply<Found<Storage.ChatRow>>)
    requires store.Valid()
    modifies store`statements
    ensures store.Valid()
    ensures store.statements == old(store.statements) + 1
    ensures r.Success? && r.status == 200 && r.data.count == |r.data.data|
    ensures var n := IntOr(limit, HistoryLimit);
            r.data.data == if store.accepts(old(store.statements)) && n >= 0
                           then Storage.OldestTurns(store.chat, userId, n) else []
  {
    var history := store.GetChatHistory(userId, Some(IntOr(limit, HistoryLimit)));
    r := Success(200, Found(|history|, history));
  }
}
