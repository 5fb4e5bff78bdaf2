/**
 * The PostgreSQL storage layer (`DatabaseStorage`): the append-only
 * `chat_history` table as a class whose rows the chat operations extend,
 * and the read-only catalogue tables (documents, schools, fee structures)
 * as values queried by pure functions.
 *
 * Every statement may fail (connection lost, a value the SQL text cannot
 * parse, a foreign key that does not hold). The class asks the oracle
 * `accepts` whether its k-th statement is carried out; the pure queries
 * take that answer as `reachable`. Failures never escape: reads give `[]`
 * or None (`undefined`), writes give None (`null`).
 */
module Storage {
  import opened Common

  datatype ChatRow = ChatRow(id: nat, userId: int, message: string, isUser: bool, language: string, createdAt: nat)

  datatype DocumentRow = DocumentRow(id: int, title: string, content: string, category: string)

  datatype SchoolRow = SchoolRow(id: int, name: string, location: string)

  datatype FeeRow = FeeRow(id: int, schoolId: int)

  /** `{ ...school, feeStructure }`: a school joined with its first fee row, or null. */
  datatype SchoolWithFees = SchoolWithFees(school: SchoolRow, feeStructure: Option<FeeRow>)

  /** The catalogue tables, in the order the database returns them. */
  datatype Database = Database(documents: seq<DocumentRow>, schools: seq<SchoolRow>, fees: seq<FeeRow>)

  const DefaultPage := 1
  const DefaultLimit := 20
  const DefaultHistoryLimit := 50
  const DefaultLanguage := "english"

  // ---------------------------------------------------------------------------
  // Quoting of string values interpolated into SQL text

  function Quotes(s: string): nat
  {
    if s == [] then 0 else (if s[0] == '\'' then 1 else 0) + Quotes(s[1..])
  }

  /** `s.replace(/'/g, "''")`. */
  function Escape(s: string): string
  {
    if s == [] then [] else (if s[0] == '\'' then "''" else [s[0]]) + Escape(s[1..])
  }

  /** The value the database reads from the body of a quoted literal: each `''` stands for one quote. */
  function Unescape(t: string): string
  {
    if t == [] then []
    else if |t| >= 2 && t[0] == '\'' && t[1] == '\'' then "'" + Unescape(t[2..])
    else [t[0]] + Unescape(t[1..])
  }

  /** Every quote of `t` is half of a doubled pair, so the literal cannot end early. */
  predicate WellQuoted(t: string)
  {
    if t == [] then true
    else if t[0] == '\'' then |t| >= 2 && t[1] == '\'' && WellQuoted(t[2..])
    else WellQuoted(t[1..])
  }

  lemma {:induction false} EscapeLength(s: string)
    ensures |Escape(s)| == |s| + Quotes(s)
  {
    if s != [] {
      EscapeLength(s[1..]);
    }
  }

  lemma {:induction false} EscapeRoundTrip(s: string)
    ensures Unescape(Escape(s)) == s
  {
    if s != [] {
      EscapeRoundTrip(s[1..]);
      var rest := Escape(s[1..]);
      if s[0] == '\'' {
        assert Escape(s) == "''" + rest;
        assert ("''" + rest)[2..] == rest;
      } else {
        assert Escape(s) == [s[0]] + rest;
        assert ([s[0]] + rest)[1..] == rest;
      }
      assert s == [s[0]] + s[1..];
    }
  }

  lemma {:induction false} EscapeWellQuoted(s: string)
    ensures WellQuoted(Escape(s))
  {
    if s != [] {
      EscapeWellQuoted(s[1..]);
      var rest := Escape(s[1..]);
      if s[0] == '\'' {
        assert ("''" + rest)[2..] == rest;
      } else {
        assert ([s[0]] + rest)[1..] == rest;
      }
    }
  }

  // ---------------------------------------------------------------------------
  // Paging

  /** The rows skipped before a page: `page - 1` pages of `limit` rows. */
  function Offset(page: int, limit: int): (offset: int)
    ensures page >= 1 && limit >= 0 ==> offset >= 0
    ensures page == 1 ==> offset == 0
  {
    (page - 1) * limit
  }

  /** Consecutive pages adjoin: a page of `limit` rows ends where the next one starts. */
  lemma PagesAdjoin(page: int, limit: int)
    ensures Offset(page, limit) + limit == Offset(page + 1, limit)
  {
  }

  /** `LIMIT limit OFFSET offset`; PostgreSQL refuses a negative limit or offset. */
  function LimitOffset<T>(rows: seq<T>, limit: int, offset: int): (r: Option<seq<T>>)
    ensures r.None? <==> limit < 0 || offset < 0
    ensures r.Some? ==> |r.value| <= limit
    ensures r.Some? ==> forall i :: 0 <= i < |r.value| ==> offset + i < |rows| && r.value[i] == rows[offset + i]
    ensures r.Some? ==> |r.value| == limit || offset + |r.value| >= |rows|
  {
    if limit < 0 || offset < 0 then None
    else
      var lo := if offset < |rows| then offset else |rows|;
      var hi := if offset + limit < |rows| then offset + limit else |rows|;
      Some(rows[lo..hi])
  }

  // ---------------------------------------------------------------------------
  // Catalogue queries

  /** The documents `WHERE category = '…'` selects; no filter when the category is falsy. */
  function CategoryRows(db: Database, category: Option<string>): (rows: seq<DocumentRow>)
    ensures forall i :: 0 <= i < |rows| ==> rows[i] in db.documents
    ensures Truthy(category) ==> forall i :: 0 <= i < |rows| ==> rows[i].category == category.value
    ensures Truthy(category) ==> forall i :: 0 <= i < |db.documents| && db.documents[i].category == category.value ==>
                                   db.documents[i] in rows
    ensures !Truthy(category) ==> rows == db.documents
  {
    if Truthy(category) then Filter(db.documents, (d: DocumentRow) => d.category == category.value)
    else db.documents
  }

  /** `getDocuments(page = 1, limit = 20, category = null)`. */
  function GetDocuments(db: Database, reachable: bool, page: Option<int>, limit: Option<int>,
                        category: Option<string>): (r: seq<DocumentRow>)
    ensures !reachable ==> r == []
    ensures forall i :: 0 <= i < |r| ==> r[i] in db.documents
    ensures Truthy(category) ==> forall i :: 0 <= i < |r| ==> r[i].category == category.value
    ensures |r| <= if Defaulted(limit, DefaultLimit) < 0 then 0 else Defaulted(limit, DefaultLimit)
    ensures var p, l := Defaulted(page, DefaultPage), Defaulted(limit, DefaultLimit);
            p >= 1 && l >= 0 && reachable ==>
              forall i :: 0 <= i < |r| ==>
                Offset(p, l) + i < |CategoryRows(db, category)| && r[i] == CategoryRows(db, category)[Offset(p, l) + i]
    ensures var p, l := Defaulted(page, DefaultPage), Defaulted(limit, DefaultLimit);
            p >= 1 && l >= 0 && reachable ==> |r| == l || Offset(p, l) + |r| >= |CategoryRows(db, category)|
  {
    var p, l := Defaulted(page, DefaultPage), Defaulted(limit, DefaultLimit);
    if !reachable then []
    else match LimitOffset(CategoryRows(db, category), l, Offset(p, l))
      case None => []
      case Some(rows) => rows
  }

  /** `SELECT * FROM documents WHERE id = …`, first row or `undefined`. */
  function GetDocumentById(db: Database, reachable: bool, id: int): (r: Option<DocumentRow>)
    ensures r.Some? ==> reachable && r.value in db.documents && r.value.id == id
    ensures reachable && r.None? ==> forall i :: 0 <= i < |db.documents| ==> db.documents[i].id != id
  {
    if reachable then Find(db.documents, (d: DocumentRow) => d.id == id) else None
  }

  /** The title or the content contains the query, ignoring case (`ILIKE` with `%` on both sides). */
  predicate DocumentMatches(d: DocumentRow, query: string)
  {
    Contains(Lower(d.title), Lower(query)) || Contains(Lower(d.content), Lower(query))
  }

  function SearchDocuments(db: Database, reachable: bool, query: string): (r: seq<DocumentRow>)
    ensures !reachable ==> r == []
    ensures forall i :: 0 <= i < |r| ==> r[i] in db.documents && DocumentMatches(r[i], query)
    ensures reachable ==> forall i :: 0 <= i < |db.documents| && DocumentMatches(db.documents[i], query) ==> db.documents[i] in r
  {
    if reachable then Filter(db.documents, (d: DocumentRow) => DocumentMatches(d, query)) else []
  }

  /** The first fee structure row of a school, or null when it has none. */
  function FirstFee(fees: seq<FeeRow>, schoolId: int): (r: Option<FeeRow>)
    ensures r.Some? ==> r.value in fees && r.value.schoolId == schoolId
    ensures r.None? <==> forall i :: 0 <= i < |fees| ==> fees[i].schoolId != schoolId
  {
    Find(fees, (f: FeeRow) => f.schoolId == schoolId)
  }

  function WithFees(db: Database, s: SchoolRow): SchoolWithFees
  {
    SchoolWithFees(s, FirstFee(db.fees, s.id))
  }

  function JoinFees(db: Database, schools: seq<SchoolRow>): (r: seq<SchoolWithFees>)
    ensures |r| == |schools|
    ensures forall i :: 0 <= i < |r| ==> r[i] == WithFees(db, schools[i])
  {
    seq(|schools|, i requires 0 <= i < |schools| => WithFees(db, schools[i]))
  }

  /** `getSchools(page = 1, limit = 20)`: a page of schools, each with its fee structure. */
  function GetSchools(db: Database, reachable: bool, page: Option<int>, limit: Option<int>): (r: seq<SchoolWithFees>)
    ensures !reachable ==> r == []
    ensures |r| <= if Defaulted(limit, DefaultLimit) < 0 then 0 else Defaulted(limit, DefaultLimit)
    ensures forall i :: 0 <= i < |r| ==> r[i].school in db.schools && r[i].feeStructure == FirstFee(db.fees, r[i].school.id)
    ensures var p, l := Defaulted(page, DefaultPage), Defaulted(limit, DefaultLimit);
            p >= 1 && l >= 0 && reachable ==>
              forall i :: 0 <= i < |r| ==> Offset(p, l) + i < |db.schools| && r[i].school == db.schools[Offset(p, l) + i]
    ensures var p, l := Defaulted(page, DefaultPage), Defaulted(limit, DefaultLimit);
            p >= 1 && l >= 0 && reachable ==> |r| == l || Offset(p, l) + |r| >= |db.schools|
  {
    var p, l := Defaulted(page, DefaultPage), Defaulted(limit, DefaultLimit);
    if !reachable then []
    else match LimitOffset(db.schools, l, Offset(p, l))
      case None => []
      case Some(rows) => JoinFees(db, rows)
  }

  /** `getSchoolById`: `undefined` when no school has the id, else the school with its fee structure. */
  function GetSchoolById(db: Database, reachable: bool, id: int): (r: Option<SchoolWithFees>)
    ensures r.Some? ==> reachable && r.value.school in db.schools && r.value.school.id == id
    ensures r.Some? ==> r.value.feeStructure == FirstFee(db.fees, id)
    ensures reachable ==> (r.None? <==> forall i :: 0 <= i < |db.schools| ==> db.schools[i].id != id)
  {
    if !reachable then None
    else match Find(db.schools, (s: SchoolRow) => s.id == id)
      case None => None
      case Some(s) => Some(WithFees(db, s))
  }

  /** The name or the location contains the query, ignoring case. */
  predicate SchoolMatches(s: SchoolRow, query: string)
  {
    Contains(Lower(s.name), Lower(query)) || Contains(Lower(s.location), Lower(query))
  }

  function SearchSchools(db: Database, reachable: bool, query: string): (r: seq<SchoolWithFees>)
    ensures !reachable ==> r == []
    ensures forall i :: 0 <= i < |r| ==> r[i].school in db.schools && SchoolMatches(r[i].school, query)
    ensures forall i :: 0 <= i < |r| ==> r[i].feeStructure == FirstFee(db.fees, r[i].school.id)
    ensures reachable ==> forall i :: 0 <= i < |db.schools| && SchoolMatches(db.schools[i], query) ==>
                            exists j :: 0 <= j < |r| && r[j].school == db.schools[i]
  {
    if reachable then JoinFees(db, Filter(db.schools, (s: SchoolRow) => SchoolMatches(s, query))) else []
  }

  // ---------------------------------------------------------------------------
  // The chat log

  /** Rows in ascending `created_at`. */
  ghost predicate Chronological(rows: seq<ChatRow>)
  {
    forall i, j :: 0 <= i < j < |rows| ==> rows[i].createdAt < rows[j].createdAt
  }

  function UserTurns(chat: seq<ChatRow>, userId: int): seq<ChatRow>
  {
    Filter(chat, (r: ChatRow) => r.userId == userId)
  }

  /** A user's first `n` turns in ascending creation time, over a log kept in insertion order. */
  function OldestTurns(chat: seq<ChatRow>, userId: int, n: nat): seq<ChatRow>
  {
    Take(UserTurns(chat, userId), n)
  }

  /** Every turn of a user in `rows` is newer than `c` when every row is. */
  lemma TurnsAfter(rows: seq<ChatRow>, userId: int, c: nat)
    requires forall i :: 0 <= i < |rows| ==> c < rows[i].createdAt
    ensures forall k :: 0 <= k < |UserTurns(rows, userId)| ==> c < UserTurns(rows, userId)[k].createdAt
  {
    var u := UserTurns(rows, userId);
    forall k | 0 <= k < |u|
      ensures c < u[k].createdAt
    {
      assert u[k] in rows;
    }
  }

  /** A row older than every row of a chronological list can be put in front of it. */
  lemma ChronologicalCons(x: ChatRow, rows: seq<ChatRow>)
    requires Chronological(rows)
    requires forall k :: 0 <= k < |rows| ==> x.createdAt < rows[k].createdAt
    ensures Chronological([x] + rows)
  {
    var r := [x] + rows;
    forall i, j | 0 <= i < j < |r|
      ensures r[i].createdAt < r[j].createdAt
    {
      assert r[j] == rows[j - 1];
      if i > 0 {
        assert r[i] == rows[i - 1];
      }
    }
  }

  /** Selecting one user's turns keeps the log's creation order. */
  lemma {:induction false} UserTurnsChronological(chat: seq<ChatRow>, userId: int)
    requires Chronological(chat)
    ensures Chronological(UserTurns(chat, userId))
  {
    if chat != [] {
      var rest := chat[1..];
      UserTurnsChronological(rest, userId);
      forall i | 0 <= i < |rest|
        ensures chat[0].createdAt < rest[i].createdAt
      {
        assert rest[i] == chat[i + 1];
      }
      TurnsAfter(rest, userId, chat[0].createdAt);
      var tail := UserTurns(rest, userId);
      if chat[0].userId == userId {
        assert UserTurns(chat, userId) == [chat[0]] + tail;
        ChronologicalCons(chat[0], tail);
      } else {
        assert UserTurns(chat, userId) == tail;
      }
    }
  }

  /** The history read returns that user's turns, oldest first, at most `n` of them, and
      every turn of the user it leaves out is newer than every turn it returns. */
  lemma HistoryIsOldestFirst(chat: seq<ChatRow>, userId: int, n: nat)
    requires Chronological(chat)
    ensures var h := OldestTurns(chat, userId, n);
            && |h| <= n
            && (forall i :: 0 <= i < |h| ==> h[i] in chat && h[i].userId == userId)
            && Chronological(h)
            && |h| == (if n < |UserTurns(chat, userId)| then n else |UserTurns(chat, userId)|)
            && (forall i, j :: 0 <= i < |h| <= j < |UserTurns(chat, userId)| ==>
                  h[i].createdAt < UserTurns(chat, userId)[j].createdAt)
  {
    UserTurnsChronological(chat, userId);
  }

  /** Once a user has `n` turns, appending more never changes what a read of `n` returns:
      the window is the oldest turns, so new turns stay out of it. */
  lemma FullWindowHidesNewTurns(chat: seq<ChatRow>, more: seq<ChatRow>, userId: int, n: nat)
    requires |UserTurns(chat, userId)| >= n
    ensures OldestTurns(chat + more, userId, n) == OldestTurns(chat, userId, n)
  {
    FilterAppend(chat, more, (r: ChatRow) => r.userId == userId);
    var a := UserTurns(chat, userId);
    var b := UserTurns(more, userId);
    assert UserTurns(chat + more, userId) == a + b;
    assert (a + b)[..n] == a[..n];
  }

  class DatabaseStorage {
    /** The read-only catalogue tables. */
    const catalogue: Database
    /** Whether the database carries out the k-th statement it is sent. */
    const accepts: nat -> bool
    /** Whether the k-th statement, when refused, had already drawn the next `id` value: a row that breaks
        a constraint (an unknown `user_id`, a `language` over ten characters) uses one up; a statement
        that never reaches the table does not. */
    const burns: nat -> bool
    /** The `chat_history` table in insertion order. */
    var chat: seq<ChatRow>
    /** The next value of the `id` serial. */
    var nextId: nat
    /** Statements sent so far; also the clock that `NOW()` reads. */
    var statements: nat

    ghost predicate Valid()
      reads this
    {
      && nextId >= 1
      && Chronological(chat)
      && (forall i :: 0 <= i < |chat| ==> chat[i].id < nextId && chat[i].createdAt < statements)
      && (forall i, j :: 0 <= i < j < |chat| ==> chat[i].id < chat[j].id)
    }

    constructor (catalogue: Database, accepts: nat -> bool, burns: nat -> bool)
      ensures Valid()
      ensures this.catalogue == catalogue && this.accepts == accepts && this.burns == burns
      ensures chat == [] && nextId == 1 && statements == 0
    {
      this.catalogue := catalogue;
      this.accepts := accepts;
      this.burns := burns;
      chat := [];
      nextId := 1;
      statements := 0;
    }

    /** `saveChatMessage(userId, message, isUser, language = 'english')`: the inserted row, or null. */
    method SaveChatMessage(userId: int, message: string, isUser: bool, language: Option<string>)
      returns (saved: Option<ChatRow>)
      requires Valid()
      modifies this
      ensures Valid()
      ensures statements == old(statements) + 1
      ensures accepts(old(statements)) ==>
                && saved == Some(ChatRow(old(nextId), userId, message, isUser,
                                         Defaulted(language, DefaultLanguage), old(statements)))
                && chat == old(chat) + [saved.value]
                && nextId == old(nextId) + 1
      ensures !accepts(old(statements)) ==>
                && saved == None && chat == old(chat)
                && nextId == if burns(old(statements)) then old(nextId) + 1 else old(nextId)
    {
      var literal := Escape(message);
      if accepts(statements) {
        EscapeRoundTrip(message);
        var row := ChatRow(nextId, userId, Unescape(literal), isUser, Defaulted(language, DefaultLanguage), statements);
        chat := chat + [row];
        nextId := nextId + 1;
        saved := Some(row);
      } else {
        if burns(statements) {
          nextId := nextId + 1;
        }
        saved := None;
      }
      statements := statements + 1;
    }

    /** `getChatHistory(userId, limit = 50)`; a negative limit is refused by the database. */
    method GetChatHistory(userId: int, limit: Option<int>) returns (history: seq<ChatRow>)
      requires Valid()
      modifies this`statements
      ensures Valid()
      ensures statements == old(statements) + 1
      ensures var n := Defaulted(limit, DefaultHistoryLimit);
              history == if accepts(old(statements)) && n >= 0 then OldestTurns(chat, userId, n) else []
    {
      var n := Defaulted(limit, DefaultHistoryLimit);
      if accepts(statements) && n >= 0 {
        history := OldestTurns(chat, userId, n);
      } else {
        history := [];
      }
      statements := statements + 1;
    }

    /** `getDocumentById(id)` as one statement sent to the database. */
    method LoadDocument(id: int) returns (d: Option<DocumentRow>)
      requires Valid()
      modifies this`statements
      ensures Valid()
      ensures statements == old(statements) + 1
      ensures d == GetDocumentById(catalogue, accepts(old(statements)), id)
    {
      d := GetDocumentById(catalogue, accepts(statements), id);
      statements := statements + 1;
    }
  }
}
