/** A run in which more connections are subscribed than the manager's limit: the reason why the bound of
    OpenseaSystem.SubscriptionBound has its second term. */
module OpenseaOvershoot {
  import opened OpenseaManager
  import opened OpenseaSystem

  /** What the run needs to know about a state of two connections. */
  datatype View = View(conns: seq<Connection>, remote: PerState<set<nat>>, pending: set<nat>,
                       queues: seq<seq<ConnectionState>>)

  ghost predicate Seen(s: System, v: View) {
    && Shape(s) && s.m.maxSubscribers == 1 && |s.conns| == 2
    && v == View(s.conns, s.m.remoteStates, s.m.pendingRemoteStates.subscribed.Keys, s.m.connections)
  }

  ghost predicate At(s: System, v: View) {
    Seen(s, v) && Reachable(2, 1, s)
  }

  lemma ExtendRun(states: seq<System>, steps: seq<Step>, step: Step)
    requires IsRun(states, steps) && Shape(states[|steps|]) && Enabled(states[|steps|], step)
    ensures IsRun(states + [Do(states[|steps|], step)], steps + [step])
  {
    var all, more := states + [Do(states[|steps|], step)], steps + [step];
    forall i | 0 <= i < |more| ensures Shape(all[i]) && Enabled(all[i], more[i]) && all[i + 1] == Do(all[i], more[i]) {
      if i < |steps| {
        assert steps[i] == more[i];
      }
    }
  }

  lemma ReachableStep(s: System, step: Step)
    requires Reachable(2, 1, s) && Shape(s) && Enabled(s, step)
    ensures Reachable(2, 1, Do(s, step))
  {
    var states, steps :| IsRun(states, steps) && states[0] == Init(2, 1) && states[|steps|] == s;
    ExtendRun(states, steps, step);
  }

  /** `q` are the sets `r` after a report of `st` by `c`. */
  ghost predicate Moved(r: PerState<set<nat>>, c: nat, st: ConnectionState, q: PerState<set<nat>>) {
    && q.connecting == (if st == Connecting then r.connecting + {c} else r.connecting - {c})
    && q.connected == (if st == Connected then r.connected + {c} else r.connected - {c})
    && q.subscribed == (if st == Subscribed then r.subscribed + {c} else r.subscribed - {c})
  }

  /** `w` is `v` after a report by `c` that the manager expected and that left `pending` pending. */
  ghost predicate AfterReport(v: View, c: nat, w: View)
    requires c < |v.conns|
  {
    var st := v.conns[c].state;
    && v.conns[c].pc == Reporting
    && (st == Connected ==> c in v.remote.connecting)
    && (st == Subscribed ==> c in v.remote.connected)
    && w.conns == v.conns[c := v.conns[c].(pc := if st == Connecting then Dialing else Loop)]
    && Moved(v.remote, c, st, w.remote)
  }

  lemma ReportSets(s: System, v: View, c: nat, w: View)
    requires Seen(s, v) && c < 2 && AfterReport(v, c, w)
    ensures SetRemoteState(s.m, c, s.conns[c].state).remoteStates == w.remote
    ensures SetRemoteState(s.m, c, s.conns[c].state).pendingRemoteStates.subscribed.Keys == v.pending - {c}
    ensures |SetRemoteState(s.m, c, s.conns[c].state).pendingRemoteStates.subscribed| == |v.pending - {c}|
    ensures !Unexpected(s.m, c, s.conns[c].state)
  {
    ReportMoves(s.m, v.remote, c, s.conns[c].state, w.remote);
    MapMinus(s.m.pendingRemoteStates.subscribed, c);
    var p := SetRemoteState(s.m, c, s.conns[c].state).pendingRemoteStates.subscribed;
    assert p.Keys == v.pending - {c};
    assert |p| == |p.Keys|;
  }

  lemma ReportMoves(m: Manager, r: PerState<set<nat>>, c: nat, st: ConnectionState, q: PerState<set<nat>>)
    requires Shaped(m) && c < Size(m) && m.remoteStates == r && Moved(r, c, st, q)
    ensures SetRemoteState(m, c, st).remoteStates == q
  {
    var t := SetRemoteState(m, c, st).remoteStates;
    assert t.connecting == q.connecting && t.connected == q.connected && t.subscribed == q.subscribed;
  }

  lemma NoChoice(u: Manager, pending: set<nat>)
    requires u.maxSubscribers == 1 && u.pendingRemoteStates.subscribed.Keys == pending
    requires Load(u) >= 1 || u.remoteStates.connected <= pending
    ensures Choice(u, [])
  {
    assert Available(u) == u.remoteStates.connected - pending;
    if Load(u) < 1 {
      assert Available(u) == {};
    }
  }

  /** A report that makes the manager promote nobody. */
  lemma ReportQuietly(s: System, v: View, c: nat, w: View) returns (t: System)
    requires At(s, v) && c < 2 && AfterReport(v, c, w)
    requires w.pending == v.pending - {c} && w.queues == v.queues
    requires |w.remote.subscribed| + |w.pending| >= 1 || w.remote.connected <= w.pending
    ensures At(t, w)
  {
    ReportSets(s, v, c, w);
    NoChoice(SetRemoteState(s.m, c, s.conns[c].state), w.pending);
    ReachableStep(s, Report(c, []));
    t := Do(s, Report(c, []));
    assert Seen(t, w);
  }

  lemma PromoteAllSingle(u: Manager, d: nat)
    requires Shaped(u) && d < Size(u)
    ensures PromoteAll(u, [d]) == Promote(u, d)
  {
    assert [d][..0] == [];
  }

  lemma PromotingChoice(s: System, v: View, c: nat, d: nat, w: View)
    requires Seen(s, v) && c < 2 && d < 2 && AfterReport(v, c, w)
    requires v.pending <= {c} && w.remote.subscribed == {} && w.remote.connected == {d}
    ensures
      var u := SetRemoteState(s.m, c, s.conns[c].state);
      && Choice(u, [d]) && PromoteAll(u, [d]) == Promote(u, d)
      && Promote(u, d).pendingRemoteStates.subscribed.Keys == {d}
      && Promote(u, d).connections == v.queues[d := v.queues[d] + [Subscribed]]
      && Promote(u, d).remoteStates == w.remote
      && !Unexpected(s.m, c, s.conns[c].state)
  {
    ReportSets(s, v, c, w);
    var u := SetRemoteState(s.m, c, s.conns[c].state);
    assert v.pending - {c} == {};
    OneChoice(u, d);
    PromoteAllSingle(u, d);
    OnlyPending(u, d);
  }

  lemma OneChoice(u: Manager, d: nat)
    requires u.maxSubscribers == 1 && d < Size(u) && u.remoteStates.connected == {d}
    requires |u.remoteStates.subscribed| + |u.pendingRemoteStates.subscribed| == 0
    requires u.pendingRemoteStates.subscribed.Keys == {}
    ensures Choice(u, [d])
  {
    assert Available(u) == {d};
  }

  lemma OnlyPending(u: Manager, d: nat)
    requires Shaped(u) && d < Size(u) && u.pendingRemoteStates.subscribed.Keys == {}
    ensures Promote(u, d).pendingRemoteStates.subscribed.Keys == {d}
  {
  }

  /** A report that makes the manager promote connection `d`. */
  lemma ReportPromoting(s: System, v: View, c: nat, d: nat, w: View) returns (t: System)
    requires At(s, v) && c < 2 && d < 2 && AfterReport(v, c, w)
    requires v.pending <= {c} && w.pending == {d} && w.queues == v.queues[d := v.queues[d] + [Subscribed]]
    requires w.remote.subscribed == {} && w.remote.connected == {d}
    ensures At(t, w)
  {
    PromotingChoice(s, v, c, d, w);
    ReachableStep(s, Report(c, [d]));
    t := Do(s, Report(c, [d]));
    assert t.m == Promote(SetRemoteState(s.m, c, s.conns[c].state), d);
    assert Seen(t, w);
  }

  /** A step of connection `c` alone. */
  lemma Locally(s: System, v: View, step: Step, c: nat, conn: Connection) returns (t: System)
    requires At(s, v) && c < 2
    requires || (step == DialSucceeds(c) && v.conns[c].pc == Dialing && conn == Connection(Reporting, Connected))
             || (step == ListenerFails(c) && v.conns[c].pc == Loop && conn == Connection(Reporting, Connecting))
             || (step == ListenerSubscribed(c) && v.conns[c].pc == Loop && conn == Connection(Reporting, Subscribed))
    ensures At(t, v.(conns := v.conns[c := conn]))
  {
    ReachableStep(s, step);
    t := Do(s, step);
    assert Seen(t, v.(conns := v.conns[c := conn]));
  }

  /** A connected connection takes a subscribe request. */
  lemma TakeRequest(s: System, v: View, c: nat) returns (t: System)
    requires At(s, v) && c < 2 && v.conns[c] == Connection(Loop, Connected) && v.queues[c] == [Subscribed]
    ensures At(t, v.(queues := v.queues[c := []]))
  {
    ReachableStep(s, Dequeue(c, true));
    t := Do(s, Dequeue(c, true));
    assert s.m.connections[c][1..] == [];
    assert s.conns[c := s.conns[c]] == s.conns;
    assert t == System(s.m.(connections := s.m.connections[c := []]), s.conns);
    assert Seen(t, v.(queues := v.queues[c := []]));
  }

  const IDLE: Connection := Connection(Loop, Connected)
  const START: Connection := Connection(Reporting, Connecting)
  const DIALING: Connection := Connection(Dialing, Connecting)
  const DIALED: Connection := Connection(Reporting, Connected)
  const ANSWERED: Connection := Connection(Reporting, Subscribed)
  const ACTIVE: Connection := Connection(Loop, Subscribed)

  lemma BothDial() returns (s: System)
    ensures At(s, View([DIALING, DIALING], PerState({0, 1}, {}, {}), {}, [[], []]))
  {
    s := Init(2, 1);
    var none: seq<Step> := [];
    assert IsRun([s], none);
    assert Below(2) == {0, 1};
    var v := View([START, START], PerState({0, 1}, {}, {}), {}, [[], []]);
    assert Seen(s, v);
    s := ReportQuietly(s, v, 0, v.(conns := [DIALING, START]));
    s := ReportQuietly(s, v.(conns := [DIALING, START]), 1, v.(conns := [DIALING, DIALING]));
  }

  lemma NothingBefore()
    ensures [] + [Subscribed] == [Subscribed]
  {
  }

  lemma FirstAskedViews()
    ensures
      var u := View([DIALED, DIALING], PerState({0, 1}, {}, {}), {}, [[], []]);
      var w := View([IDLE, DIALING], PerState({1}, {0}, {}), {0}, [[Subscribed], []]);
      AfterReport(u, 0, w) && w.queues == u.queues[0 := u.queues[0] + [Subscribed]]
  {
    NothingBefore();
  }

  lemma FirstAsked() returns (s: System)
    ensures At(s, View([IDLE, DIALING], PerState({1}, {0}, {}), {0}, [[Subscribed], []]))
  {
    s := BothDial();
    var v := View([DIALING, DIALING], PerState({0, 1}, {}, {}), {}, [[], []]);
    s := Locally(s, v, DialSucceeds(0), 0, DIALED);
    var u := View([DIALED, DIALING], PerState({0, 1}, {}, {}), {}, [[], []]);
    assert v.(conns := v.conns[0 := DIALED]) == u;
    FirstAskedViews();
    s := ReportPromoting(s, u, 0, 0, View([IDLE, DIALING], PerState({1}, {0}, {}), {0}, [[Subscribed], []]));
  }

  /** Both connections connect; the first is asked to subscribe. */
  lemma BothConnect() returns (s: System)
    ensures At(s, View([IDLE, IDLE], PerState({}, {0, 1}, {}), {0}, [[Subscribed], []]))
  {
    s := FirstAsked();
    var w := View([IDLE, DIALING], PerState({1}, {0}, {}), {0}, [[Subscribed], []]);
    s := Locally(s, w, DialSucceeds(1), 1, DIALED);
    var x := View([IDLE, IDLE], PerState({}, {0, 1}, {}), {0}, [[Subscribed], []]);
    assert w.conns[1 := DIALED] == [IDLE, DIALED];
    s := ReportQuietly(s, w.(conns := [IDLE, DIALED]), 1, x);
  }

  lemma SecondAskedViews()
    ensures
      var u := View([START, IDLE], PerState({}, {0, 1}, {}), {0}, [[Subscribed], []]);
      var w := View([DIALING, IDLE], PerState({0}, {1}, {}), {1}, [[Subscribed], [Subscribed]]);
      AfterReport(u, 0, w) && w.queues == u.queues[1 := u.queues[1] + [Subscribed]]
  {
    NothingBefore();
  }

  /** The first loses its socket before it sees the request, so the second is asked instead. */
  lemma SecondAsked() returns (s: System)
    ensures At(s, View([DIALING, IDLE], PerState({0}, {1}, {}), {1}, [[Subscribed], [Subscribed]]))
  {
    s := BothConnect();
    var v := View([IDLE, IDLE], PerState({}, {0, 1}, {}), {0}, [[Subscribed], []]);
    s := Locally(s, v, ListenerFails(0), 0, START);
    var u := View([START, IDLE], PerState({}, {0, 1}, {}), {0}, [[Subscribed], []]);
    assert v.(conns := v.conns[0 := START]) == u;
    SecondAskedViews();
    s := ReportPromoting(s, u, 0, 1, View([DIALING, IDLE], PerState({0}, {1}, {}), {1}, [[Subscribed], [Subscribed]]));
  }

  lemma FirstReconnects() returns (s: System)
    ensures At(s, View([IDLE, IDLE], PerState({}, {0, 1}, {}), {1}, [[Subscribed], [Subscribed]]))
  {
    s := SecondAsked();
    var w := View([DIALING, IDLE], PerState({0}, {1}, {}), {1}, [[Subscribed], [Subscribed]]);
    s := Locally(s, w, DialSucceeds(0), 0, DIALED);
    var x := View([IDLE, IDLE], PerState({}, {0, 1}, {}), {1}, [[Subscribed], [Subscribed]]);
    s := ReportQuietly(s, w.(conns := [DIALED, IDLE]), 0, x);
  }

  /** The first takes its old request. */
  lemma FirstTakes() returns (s: System)
    ensures At(s, View([ANSWERED, IDLE], PerState({}, {0, 1}, {}), {1}, [[], [Subscribed]]))
  {
    s := FirstReconnects();
    var v := View([IDLE, IDLE], PerState({}, {0, 1}, {}), {1}, [[Subscribed], [Subscribed]]);
    s := TakeRequest(s, v, 0);
    var w := View([IDLE, IDLE], PerState({}, {0, 1}, {}), {1}, [[], [Subscribed]]);
    assert v.queues[0 := []] == w.queues;
    s := Locally(s, w, ListenerSubscribed(0), 0, ANSWERED);
    assert w.conns[0 := ANSWERED] == [ANSWERED, IDLE];
  }

  /** And acts on it. */
  lemma FirstSubscribes() returns (s: System)
    ensures At(s, View([ACTIVE, IDLE], PerState({}, {1}, {0}), {1}, [[], [Subscribed]]))
  {
    s := FirstTakes();
    var w := View([ANSWERED, IDLE], PerState({}, {0, 1}, {}), {1}, [[], [Subscribed]]);
    var x := View([ACTIVE, IDLE], PerState({}, {1}, {0}), {1}, [[], [Subscribed]]);
    FirstSubscribesViews(w, x);
    s := ReportQuietly(s, w, 0, x);
  }

  lemma FirstSubscribesViews(w: View, x: View)
    requires w == View([ANSWERED, IDLE], PerState({}, {0, 1}, {}), {1}, [[], [Subscribed]])
    requires x == View([ACTIVE, IDLE], PerState({}, {1}, {0}), {1}, [[], [Subscribed]])
    ensures AfterReport(w, 0, x) && x.pending == w.pending - {0} && |x.remote.subscribed| >= 1
  {
    assert {0, 1} - {0} == {1};
  }

  lemma SecondTakes() returns (s: System)
    ensures At(s, View([ACTIVE, ANSWERED], PerState({}, {1}, {0}), {1}, [[], []]))
  {
    s := FirstSubscribes();
    var v := View([ACTIVE, IDLE], PerState({}, {1}, {0}), {1}, [[], [Subscribed]]);
    s := TakeRequest(s, v, 1);
    var w := View([ACTIVE, IDLE], PerState({}, {1}, {0}), {1}, [[], []]);
    assert v.queues[1 := []] == w.queues;
    s := Locally(s, w, ListenerSubscribed(1), 1, ANSWERED);
    assert w.conns[1 := ANSWERED] == [ACTIVE, ANSWERED];
  }

  lemma SecondSubscribesViews(w: View, x: View)
    requires w == View([ACTIVE, ANSWERED], PerState({}, {1}, {0}), {1}, [[], []])
    requires x == View([ACTIVE, ACTIVE], PerState({}, {}, {0, 1}), {}, [[], []])
    ensures AfterReport(w, 1, x) && x.pending == w.pending - {1} && |x.remote.subscribed| == 2
  {
    assert {0} + {1} == {0, 1};
  }

  /** With a limit of one, two connections end up subscribed: the first acts on its old request after it has
      reconnected, the second on its new one. */
  lemma LimitCanBeExceeded()
    ensures exists s :: Reachable(2, 1, s) && |s.m.remoteStates.subscribed| > s.m.maxSubscribers
  {
    var s := SecondTakes();
    var w := View([ACTIVE, ANSWERED], PerState({}, {1}, {0}), {1}, [[], []]);
    var x := View([ACTIVE, ACTIVE], PerState({}, {}, {0, 1}), {}, [[], []]);
    SecondSubscribesViews(w, x);
    s := ReportQuietly(s, w, 1, x);
  }
}
