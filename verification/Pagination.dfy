/** runForUsersWithNotificationsOnForEmailType of emails/send.go: all users are visited page by page behind a
    cursor, while users may come and go. */
module Pagination {
  import opened Options
  import opened Strings

  /** The columns that order the pages. */
  datatype User = User(createdAt: int, id: string)

  predicate Less(u: User, v: User) {
    u.createdAt < v.createdAt || (u.createdAt == v.createdAt && Before(u.id, v.id))
  }

  lemma LessIsTotal(u: User, v: User)
    ensures u == v || Less(u, v) || Less(v, u)
    ensures !(Less(u, v) && Less(v, u)) && !(u == v && Less(u, v))
    ensures u.createdAt < v.createdAt ==> Less(u, v)
    ensures u.createdAt == v.createdAt && Less(u, v) ==> Before(u.id, v.id)
  {
    BeforeIsTotal(u.id, v.id);
  }

  lemma LessIsTransitive(u: User, v: User, w: User)
    requires Less(u, v) && Less(v, w)
    ensures Less(u, w)
  {
    if u.createdAt == v.createdAt == w.createdAt {
      BeforeIsTransitive(u.id, v.id, w.id);
    }
  }

  /** time.Time's zero value, with which the cursor starts. */
  const START: User := User(0, "")

  predicate Ascending(users: seq<User>) {
    forall i, j :: 0 <= i < j < |users| ==> Less(users[i], users[j])
  }

  /** The rows a query looks at: those between the cursor and the end time, both excluded. */
  predicate Between(u: User, after: User, end: int) {
    Less(after, u) && Less(u, User(end, ""))
  }

  /** A run's window: users created before its end, and not at the zero time unless with an ID. */
  lemma InWindowIff(u: User, end: int)
    ensures
      Between(u, START, end) <==> (u.createdAt > 0 || (u.createdAt == 0 && u.id != "")) && u.createdAt < end
  {
    if u.createdAt == end {
      assert !Before(u.id, "");
    }
  }

  /** What the query answers: the first `limit` rows of `table` behind `after`, in order. */
  ghost predicate IsPage(page: seq<User>, table: set<User>, after: User, end: int, limit: nat) {
    && |page| <= limit && Ascending(page)
    && (forall u :: u in page ==> u in table && Between(u, after, end))
    && (forall u :: u in table && Between(u, after, end) && u !in page ==>
          |page| == limit && forall p :: p in page ==> Less(p, u))
  }

  datatype Outcome = Done | QueryFailed | VisitFailed

  /** The `k`-th query sees `tables(k)`; `universe` holds every user there is during the run. */
  ghost predicate Answers(
    query: (nat, User) -> Option<seq<User>>, universe: set<User>, tables: nat -> set<User>, end: int, limit: nat)
  {
    && (forall k :: 0 <= k ==> tables(k) <= universe)
    && (forall k, after :: 0 <= k && query(k, after).Some? ==>
          IsPage(query(k, after).value, tables(k), after, end, limit))
  }

  /** The user is in every table, and in the window of the run. */
  ghost predicate Stays(u: User, tables: nat -> set<User>, end: int) {
    Between(u, START, end) && forall k :: 0 <= k ==> u in tables(k)
  }

  /** What has been visited when the cursor stands at `last`: only users of the window, in order, up to `last`,
      and all of those who stay. */
  ghost predicate Visited(calls: seq<User>, last: User, tables: nat -> set<User>, end: int) {
    && Ascending(calls)
    && (if calls == [] then last == START else last == calls[|calls| - 1])
    && (forall u :: u in calls ==> Between(u, START, end) && exists k :: 0 <= k && u in tables(k))
    && (forall u :: Stays(u, tables, end) && !Less(last, u) ==> u in calls)
  }

  lemma UpToLast(users: seq<User>, u: User)
    requires Ascending(users) && u in users
    ensures u == users[|users| - 1] || Less(u, users[|users| - 1])
  {
  }

  /** A page goes on in order where the visited users end. */
  lemma PageFollows(calls: seq<User>, last: User, tables: nat -> set<User>, end: int, page: seq<User>, k: nat,
      limit: nat)
    requires Visited(calls, last, tables, end) && IsPage(page, tables(k), last, end, limit)
    ensures Ascending(calls + page)
    ensures forall u :: u in page ==> Between(u, START, end) && u !in calls
  {
    forall u | u in page ensures Between(u, START, end) && u !in calls {
      assert Less(last, u);
      if calls != [] {
        assert calls[|calls| - 1] in calls && Less(START, last);
        LessIsTransitive(START, last, u);
        if u in calls {
          UpToLast(calls, u);
          LessIsTotal(u, last);
        }
      }
    }
    forall i, j | 0 <= i < |calls| && 0 <= j < |page| ensures Less(calls[i], page[j]) {
      assert calls[i] in calls && page[j] in page;
      UpToLast(calls, calls[i]);
      if calls[i] != last {
        LessIsTransitive(calls[i], last, page[j]);
      }
    }
  }

  /** After a page the cursor may move to its last user. */
  lemma PageKeepsVisited(
    calls: seq<User>, last: User, tables: nat -> set<User>, end: int, page: seq<User>, k: nat, limit: nat)
    requires Visited(calls, last, tables, end) && IsPage(page, tables(k), last, end, limit)
    requires page != []
    ensures Visited(calls + page, page[|page| - 1], tables, end)
  {
    PageFollows(calls, last, tables, end, page, k, limit);
    var next := page[|page| - 1];
    assert next in page;
    forall u | Stays(u, tables, end) && !Less(next, u) ensures u in calls + page {
      LessIsTotal(last, u);
      if Less(last, u) {
        assert Between(u, last, end) && u in tables(k);
      }
    }
  }

  /** A page that is not full leaves nobody behind. */
  lemma ShortPageEnds(
    calls: seq<User>, last: User, tables: nat -> set<User>, end: int, page: seq<User>, k: nat, limit: nat)
    requires Visited(calls, last, tables, end) && IsPage(page, tables(k), last, end, limit) && |page| < limit
    ensures forall u :: Stays(u, tables, end) ==> u in calls + page
  {
    forall u | Stays(u, tables, end) ensures u in calls + page {
      LessIsTotal(last, u);
      if Less(last, u) {
        assert Between(u, last, end) && u in tables(k);
      }
    }
  }

  ghost function Left(universe: set<User>, calls: seq<User>): set<User> {
    set u | u in universe && u !in calls
  }

  lemma FewerLeft(universe: set<User>, calls: seq<User>, page: seq<User>)
    requires page != [] && forall u :: u in page ==> u in universe && u !in calls
    ensures Left(universe, calls + page) < Left(universe, calls)
  {
    assert page[0] in page && page[0] in calls + page;
    assert page[0] in Left(universe, calls) && page[0] !in Left(universe, calls + page);
  }

  /** Nobody is visited twice, only users of the window are visited, and in order; and a run whose queries all
      answer visits everybody who stays.  It ends, whatever the page limit. */
  method RunForUsers(
    limit: nat, end: int, query: (nat, User) -> Option<seq<User>>, visit: User -> bool,
    ghost universe: set<User>, ghost tables: nat -> set<User>)
    returns (calls: seq<User>, r: Outcome)
    requires limit >= 1 && Answers(query, universe, tables, end, limit)
    ensures Ascending(calls)
    ensures forall u :: u in calls ==> Between(u, START, end) && exists k :: 0 <= k && u in tables(k)
    ensures !r.QueryFailed? ==> forall u :: Stays(u, tables, end) ==> u in calls
    ensures r.QueryFailed? ==>
              && (exists k, after :: 0 <= k && query(k, after).None?)
              && (calls != [] ==> forall u :: Stays(u, tables, end) && Less(u, calls[|calls| - 1]) ==> u in calls)
    ensures !r.QueryFailed? ==> (r.Done? <==> forall u :: u in calls ==> visit(u))
  {
    calls := [];
    var last, k, ok := START, 0, true;
    StartIsFirst(tables, end);
    while true
      invariant 0 <= k && Visited(calls, last, tables, end)
      invariant ok <==> forall u :: u in calls ==> visit(u)
      decreases Left(universe, calls)
    {
      var answer := query(k, last);
      if answer.None? {
        if calls != [] {
          NotBehind(calls[|calls| - 1]);
        }
        return calls, QueryFailed;
      }
      var users := answer.value;
      PageFollows(calls, last, tables, end, users, k, limit);
      if |users| < limit {
        ShortPageEnds(calls, last, tables, end, users, k, limit);
        ok := VisitAll(users, visit, ok);
        return calls + users, if ok then Done else VisitFailed;
      }
      ok := VisitAll(users, visit, ok);
      PageKeepsVisited(calls, last, tables, end, users, k, limit);
      FewerLeft(universe, calls, users);
      calls := calls + users;
      last := users[|users| - 1];
      k := k + 1;
    }
  }

  lemma StartIsFirst(tables: nat -> set<User>, end: int)
    ensures Visited([], START, tables, end)
  {
  }

  lemma NotBehind(last: User)
    ensures forall u :: Less(u, last) ==> !Less(last, u)
  {
    forall u | Less(u, last) ensures !Less(last, u) {
      LessIsTotal(u, last);
    }
  }

  method VisitAll(users: seq<User>, visit: User -> bool, before: bool) returns (ok: bool)
    ensures ok <==> before && forall u :: u in users ==> visit(u)
  {
    ok := before;
    for i := 0 to |users|
      invariant ok <==> before && forall j :: 0 <= j < i ==> visit(users[j])
    {
      var visited := visit(users[i]);
      ok := ok && visited;
    }
  }

  lemma {:induction false} OnceEach(calls: seq<User>, u: User)
    requires Ascending(calls)
    ensures multiset(calls)[u] == if u in calls then 1 else 0
  {
    if calls != [] {
      var front, last := calls[..|calls| - 1], calls[|calls| - 1];
      assert calls == front + [last];
      OnceEach(front, u);
      forall i | 0 <= i < |front| ensures front[i] != last {
        LessIsTotal(front[i], last);
      }
    }
  }

  /** While the table does not change, a run whose queries all answer visits exactly the users of the window, each once;
      a run with a query that fails has visited no one twice and nobody else. */
  method RunForFixedTable(
    limit: nat, end: int, query: (nat, User) -> Option<seq<User>>, visit: User -> bool, ghost table: set<User>)
    returns (calls: seq<User>, r: Outcome)
    requires limit >= 1 && Answers(query, table, (k: nat) => table, end, limit)
    ensures forall u :: multiset(calls)[u] <= if u in table && Between(u, START, end) then 1 else 0
    ensures !r.QueryFailed? ==>
              forall u :: multiset(calls)[u] == if u in table && Between(u, START, end) then 1 else 0
    ensures r.QueryFailed? ==> exists k, after :: 0 <= k && query(k, after).None?
  {
    calls, r := RunForUsers(limit, end, query, visit, table, (k: nat) => table);
    forall u ensures multiset(calls)[u] == if u in calls then 1 else 0 {
      OnceEach(calls, u);
    }
    if !r.QueryFailed? {
      forall u | u in table && Between(u, START, end) ensures u in calls {
        assert Stays(u, (k: nat) => table, end);
      }
    }
  }
}
