/** The hosted table store as the lists use it: a request that selects the
    rows of one table whose owner column equals a value, ordered by creation
    time, newest first; the `{ data, error }` pair it answers with; and a
    reference definition of a correct answer. */
module TableQuery {
  import opened Common

  /** `supabase.from(table).select('*').eq(column, value).order(orderBy, { ascending })`. */
  datatype Request = Request(table: string, column: string, value: string, orderBy: string, ascending: bool)

  /** The `{ data, error }` object an awaited query resolves to. */
  datatype Response<T> = Response(data: Option<seq<T>>, error: Option<string>)

  /** The list a component keeps after a query answered `resp`:
      `if (error) throw error; setRows(data || [])`, where the throw skips the update. */
  function Received<T(!new)>(current: seq<T>, resp: Response<T>): (r: seq<T>)
    ensures resp.error.Some? ==> r == current
    ensures resp.error.None? && resp.data.Some? ==> r == resp.data.value
    ensures resp.error.None? && resp.data.None? ==> r == []
  {
    if resp.error.Some? then current else resp.data.GetOr([])
  }

  /** What a list page shows: the spinner, the empty-state panel, or one card per row. */
  datatype ListScreen<T> = Loading | NothingYet | Cards(rows: seq<T>)

  /** The spinner while `loading`, whatever the rows; then the empty state
      for no rows, otherwise every row in order. */
  function ScreenOf<T(!new)>(loading: bool, rows: seq<T>): (r: ListScreen<T>)
    ensures loading <==> r.Loading?
    ensures r.NothingYet? <==> !loading && rows == []
    ensures r.Cards? ==> r.rows == rows && rows != []
  {
    if loading then Loading else if rows == [] then NothingYet else Cards(rows)
  }

  /** Newest first: creation times never increase along the sequence. */
  ghost predicate NewestFirst<T(!new)>(s: seq<T>, createdAt: T -> int) {
    forall i, j :: 0 <= i < j < |s| ==> createdAt(s[i]) >= createdAt(s[j])
  }

  /** The rows of `rows` owned by `uid`, in their original order. */
  function OwnedBy<T(!new)>(rows: seq<T>, owner: T -> string, uid: string): (r: seq<T>)
    ensures forall x :: x in r ==> owner(x) == uid
    ensures forall x :: multiset(r)[x] == if owner(x) == uid then multiset(rows)[x] else 0
  {
    if rows == [] then []
    else
      var rest := OwnedBy(rows[1..], owner, uid);
      assert rows == [rows[0]] + rows[1..];
      if owner(rows[0]) == uid then [rows[0]] + rest else rest
  }

  /** What the store may answer to the query for `uid`: exactly the rows
      owned by `uid` (with their multiplicities), newest first. Rows with equal
      creation times may come in any order. */
  ghost predicate IsAnswer<T(!new)>(rows: seq<T>, owner: T -> string, createdAt: T -> int, uid: string, answer: seq<T>) {
    multiset(answer) == multiset(OwnedBy(rows, owner, uid)) && NewestFirst(answer, createdAt)
  }

  /** The sort key a request orders by: the timestamp itself for descending
      order, its negation for ascending order, so that `NewestFirst` under the
      key is the requested order. */
  function SortKey<T>(time: T -> int, ascending: bool): T -> int {
    if ascending then x => -time(x) else time
  }

  /** `resp` is a successful, correct answer to `req` from `store`, the tables
      by name: `req.table` exists, `column` and `time` resolve the request's
      column names to a row's string field and timestamp, and the data holds
      exactly the rows whose `req.column` equals `req.value`, in the order
      `req.orderBy` and `req.ascending` ask for. */
  ghost predicate Answers<T(!new)>(store: map<string, seq<T>>, column: string -> Option<T -> string>,
                                   time: string -> Option<T -> int>, req: Request, resp: Response<T>) {
    && resp.error.None? && resp.data.Some? && req.table in store
    && column(req.column).Some? && time(req.orderBy).Some?
    && IsAnswer(store[req.table], column(req.column).value, SortKey(time(req.orderBy).value, req.ascending),
                req.value, resp.data.value)
  }

  /** Every request on an existing table with known columns has a correct answer. */
  lemma AnswersExist<T(!new)>(store: map<string, seq<T>>, column: string -> Option<T -> string>,
                              time: string -> Option<T -> int>, req: Request)
    requires req.table in store && column(req.column).Some? && time(req.orderBy).Some?
    ensures exists resp :: Answers(store, column, time, req, resp)
  {
    var key := SortKey(time(req.orderBy).value, req.ascending);
    var rows := Select(store[req.table], column(req.column).value, key, req.value);
    SelectIsAnswer(store[req.table], column(req.column).value, key, req.value);
    assert Answers(store, column, time, req, Response(Some(rows), None));
  }

  /** Inserts `x` before the first element that is not newer than it. */
  function Insert<T(!new)>(x: T, s: seq<T>, createdAt: T -> int): seq<T> {
    if s == [] || createdAt(x) >= createdAt(s[0]) then [x] + s
    else [s[0]] + Insert(x, s[1..], createdAt)
  }

  /** Insertion sort, newest first. */
  function SortNewestFirst<T(!new)>(s: seq<T>, createdAt: T -> int): seq<T> {
    if s == [] then [] else Insert(s[0], SortNewestFirst(s[1..], createdAt), createdAt)
  }

  /** One answer the store can give: the owned rows, sorted. */
  function Select<T(!new)>(rows: seq<T>, owner: T -> string, createdAt: T -> int, uid: string): seq<T> {
    SortNewestFirst(OwnedBy(rows, owner, uid), createdAt)
  }

  lemma {:induction false} InsertPermutes<T(!new)>(x: T, s: seq<T>, createdAt: T -> int)
    ensures multiset(Insert(x, s, createdAt)) == multiset(s) + multiset{x}
  {
    if s == [] || createdAt(x) >= createdAt(s[0]) {
    } else {
      InsertPermutes(x, s[1..], createdAt);
      assert s == [s[0]] + s[1..];
    }
  }

  /** Inserting a row no newer than `bound` into rows no newer than `bound`
      gives rows no newer than `bound`. */
  lemma InsertBounded<T(!new)>(x: T, s: seq<T>, createdAt: T -> int, bound: int)
    requires createdAt(x) <= bound
    requires forall y :: y in s ==> createdAt(y) <= bound
    ensures forall y :: y in Insert(x, s, createdAt) ==> createdAt(y) <= bound
  {
    InsertPermutes(x, s, createdAt);
    forall y | y in Insert(x, s, createdAt)
      ensures createdAt(y) <= bound
    {
      assert y in multiset(Insert(x, s, createdAt));
    }
  }

  /** A row followed by newest-first rows none newer than it is newest first. */
  lemma ConsKeepsOrder<T(!new)>(a: T, r: seq<T>, createdAt: T -> int)
    requires NewestFirst(r, createdAt)
    requires forall y :: y in r ==> createdAt(y) <= createdAt(a)
    ensures NewestFirst([a] + r, createdAt)
  {
    var u := [a] + r;
    forall i, j | 0 <= i < j < |u|
      ensures createdAt(u[i]) >= createdAt(u[j])
    {
      assert u[j] == r[j - 1] && u[j] in r;
      if i > 0 {
        assert u[i] == r[i - 1];
      }
    }
  }

  lemma {:induction false} InsertKeepsOrder<T(!new)>(x: T, s: seq<T>, createdAt: T -> int)
    requires NewestFirst(s, createdAt)
    ensures NewestFirst(Insert(x, s, createdAt), createdAt)
  {
    if s == [] || createdAt(x) >= createdAt(s[0]) {
      forall y | y in s
        ensures createdAt(y) <= createdAt(x)
      {
        var j :| 0 <= j < |s| && s[j] == y;
        assert createdAt(s[0]) >= createdAt(s[j]);
      }
      ConsKeepsOrder(x, s, createdAt);
    } else {
      var t := s[1..];
      assert NewestFirst(t, createdAt);
      InsertKeepsOrder(x, t, createdAt);
      forall y | y in t
        ensures createdAt(y) <= createdAt(s[0])
      {
        var j :| 0 <= j < |t| && t[j] == y;
        assert s[j + 1] == y;
      }
      InsertBounded(x, t, createdAt, createdAt(s[0]));
      ConsKeepsOrder(s[0], Insert(x, t, createdAt), createdAt);
    }
  }

  lemma {:induction false} SortPermutes<T(!new)>(s: seq<T>, createdAt: T -> int)
    ensures multiset(SortNewestFirst(s, createdAt)) == multiset(s)
  {
    if s != [] {
      SortPermutes(s[1..], createdAt);
      InsertPermutes(s[0], SortNewestFirst(s[1..], createdAt), createdAt);
      assert s == [s[0]] + s[1..];
    }
  }

  lemma {:induction false} SortOrders<T(!new)>(s: seq<T>, createdAt: T -> int)
    ensures NewestFirst(SortNewestFirst(s, createdAt), createdAt)
  {
    if s != [] {
      SortOrders(s[1..], createdAt);
      InsertKeepsOrder(s[0], SortNewestFirst(s[1..], createdAt), createdAt);
    }
  }

  /** The reference query is a correct answer, so `IsAnswer` can always be met. */
  lemma SelectIsAnswer<T(!new)>(rows: seq<T>, owner: T -> string, createdAt: T -> int, uid: string)
    ensures IsAnswer(rows, owner, createdAt, uid, Select(rows, owner, createdAt, uid))
  {
    SortPermutes(OwnedBy(rows, owner, uid), createdAt);
    SortOrders(OwnedBy(rows, owner, uid), createdAt);
  }

  /** Every row of an answer belongs to `uid`, and every row of `uid` appears in it. */
  lemma AnswerHoldsExactlyOwnRows<T(!new)>(rows: seq<T>, owner: T -> string, createdAt: T -> int, uid: string, answer: seq<T>)
    requires IsAnswer(rows, owner, createdAt, uid, answer)
    ensures forall x :: x in answer ==> owner(x) == uid && x in rows
    ensures forall x :: x in rows && owner(x) == uid ==> x in answer
  {
    forall x | x in answer
      ensures owner(x) == uid && x in rows
    {
      assert x in multiset(answer);
      assert multiset(OwnedBy(rows, owner, uid))[x] > 0;
    }
    forall x | x in rows && owner(x) == uid
      ensures x in answer
    {
      assert x in multiset(rows);
      assert multiset(answer)[x] > 0;
    }
  }

  /** A user who owns no row gets the empty list, not an error. */
  lemma NoRowsGivesEmptyAnswer<T(!new)>(rows: seq<T>, owner: T -> string, createdAt: T -> int, uid: string, answer: seq<T>)
    requires forall x :: x in rows ==> owner(x) != uid
    requires IsAnswer(rows, owner, createdAt, uid, answer)
    ensures answer == []
  {
    forall x
      ensures multiset(answer)[x] == 0
    {
      assert x !in rows ==> multiset(rows)[x] == 0;
    }
    assert multiset(answer) == multiset{};
  }
}
