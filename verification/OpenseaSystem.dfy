/** The connection manager together with its connections (opensea-streamer/main.go).  A report is a
    rendezvous on an unbuffered channel, so a connection's report and the manager's handler are one step. */
module OpenseaSystem {
  import opened OpenseaManager

  /** Where a connection is: in its select loop, about to report a state, or dialing. */
  datatype Pc = Loop | Reporting | Dialing

  datatype Connection = Connection(pc: Pc, state: ConnectionState)

  datatype System = System(m: Manager, conns: seq<Connection>)

  datatype Step =
    | Report(c: nat, choice: seq<nat>)
    | DialSucceeds(c: nat)
    | Dequeue(c: nat, subscribeOk: bool)
    | ListenerFails(c: nat)
    | ListenerSubscribed(c: nat)
    | NoRecentEvents(c: nat)
    | TimerFires(c: nat, id: nat)
    | DisconnectRandom(c: nat)

  /** Every connection begins by reporting that it is connecting. */
  function Init(n: nat, maxSubscribers: nat): System {
    System(New(n, maxSubscribers), seq(n, _ => Connection(Reporting, Connecting)))
  }

  /** A connection in startNewListener, up to its first report. */
  const NEW_LISTENER: Connection := Connection(Reporting, Connecting)

  predicate Shape(s: System) {
    Shaped(s.m) && |s.conns| == Size(s.m)
  }

  predicate Enabled(s: System, step: Step)
    requires Shape(s)
  {
    match step
    case Report(c, choice) =>
      c < |s.conns| && s.conns[c].pc == Reporting && ReportChoice(s.m, c, s.conns[c].state, choice)
    case DialSucceeds(c) => c < |s.conns| && s.conns[c].pc == Dialing
    case Dequeue(c, _) => c < |s.conns| && s.conns[c].pc == Loop && s.m.connections[c] != []
    case ListenerFails(c) => c < |s.conns| && s.conns[c].pc == Loop
    case ListenerSubscribed(c) => c < |s.conns| && s.conns[c].pc == Loop
    case NoRecentEvents(c) => c < |s.conns| && s.conns[c].pc == Loop && s.conns[c].state in {Connected, Subscribed}
    case TimerFires(c, id) => c < |s.conns| && (c, id) in s.m.timers
    case DisconnectRandom(c) => c < |s.conns| && c in s.m.remoteStates.connected
  }

  /** A connection acts on a request it took from its queue. */
  function Handle(conn: Connection, request: ConnectionState, subscribeOk: bool): Connection {
    match request
    case Connecting => if conn.state == Connecting then conn else NEW_LISTENER
    case Subscribed => if conn.state != Connected || subscribeOk then conn else NEW_LISTENER
    case Connected => conn
  }

  function Do(s: System, step: Step): System
    requires Shape(s) && Enabled(s, step)
  {
    match step
    case Report(c, choice) =>
      System(OnReport(s.m, c, s.conns[c].state, choice),
             s.conns[c := s.conns[c].(pc := if s.conns[c].state == Connecting then Dialing else Loop)])
    case DialSucceeds(c) => s.(conns := s.conns[c := Connection(Reporting, Connected)])
    case Dequeue(c, subscribeOk) =>
      System(s.m.(connections := s.m.connections[c := s.m.connections[c][1..]]),
             s.conns[c := Handle(s.conns[c], s.m.connections[c][0], subscribeOk)])
    case ListenerFails(c) => s.(conns := s.conns[c := NEW_LISTENER])
    case ListenerSubscribed(c) => s.(conns := s.conns[c := Connection(Reporting, Subscribed)])
    case NoRecentEvents(c) => s.(conns := s.conns[c := NEW_LISTENER])
    case TimerFires(c, id) => s.(m := OnTimeout(s.m, c, id))
    case DisconnectRandom(c) => s.(m := OnRandomDisconnect(s.m, c))
  }

  // ----- The invariant

  /** The three sets partition the connections, and each is in the set of the state it last reported. */
  ghost predicate Agreement(m: Manager)
    requires Shaped(m)
  {
    var r := m.remoteStates;
    && r.connecting !! r.connected !! r.subscribed
    && (forall c :: c in r.connecting + r.connected + r.subscribed ==> c < Size(m))
    && (forall c :: 0 <= c < Size(m) ==> c in r.Get(m.last[c]))
  }

  /** Which state a connection last reported, by where it is. */
  ghost predicate LastReport(conn: Connection, last: ConnectionState) {
    match conn.pc
    case Loop => last == conn.state && last != Connecting
    case Dialing => last == Connecting && conn.state == Connecting
    case Reporting =>
      match conn.state
      case Connecting => true
      case Connected => last == Connecting
      case Subscribed => last == Connected || last == Subscribed
  }

  function Count(sent: seq<Request>, cause: Cause): nat {
    if sent == [] then 0
    else Count(sent[..|sent| - 1], cause) + (if sent[|sent| - 1].cause == cause then 1 else 0)
  }

  /** The requests to `c` since its last report: what is pending is the one subscribe request among them,
      and its timeout has fired at most once. */
  ghost predicate SentOk(m: Manager, c: nat)
    requires Shaped(m) && c < Size(m)
  {
    var pending := m.pendingRemoteStates.subscribed;
    && (forall q :: q in m.sent[c] ==> q.id < m.nextId && (q.cause == Promotion <==> q.state == Subscribed))
    && (c in pending ==> Request(Subscribed, pending[c], Promotion) in m.sent[c])
    && (forall q :: q in m.sent[c] && q.state == Subscribed ==> c in pending && pending[c] == q.id)
    && Count(m.sent[c], Promotion) == (if c in pending then 1 else 0)
    && Count(m.sent[c], Timeout) <= (if c in pending && (c, pending[c]) !in m.timers then 1 else 0)
    && Count(m.sent[c], UnexpectedReport) <= 1
  }

  ghost predicate Bounded(m: Manager) {
    && m.pendingRemoteStates.subscribed.Keys <= m.remoteStates.connected
    && m.strays <= m.remoteStates.subscribed
    && Load(m) <= m.maxSubscribers + |m.strays|
  }

  ghost predicate Inv(s: System) {
    && Shape(s)
    && Agreement(s.m)
    && Bounded(s.m)
    && (forall t :: t in s.m.timers ==> t.1 < s.m.nextId)
    && (forall c :: 0 <= c < |s.conns| ==> LastReport(s.conns[c], s.m.last[c]) && SentOk(s.m, c))
  }

  // ----- Each building block keeps its part

  lemma {:induction false} CountAppend(sent: seq<Request>, q: Request, cause: Cause)
    ensures Count(sent + [q], cause) == Count(sent, cause) + (if q.cause == cause then 1 else 0)
  {
    assert (sent + [q])[..|sent|] == sent;
  }

  lemma SetKeepsAgreement(m: Manager, c: nat, st: ConnectionState)
    requires Shaped(m) && c < Size(m) && Agreement(m)
    ensures Agreement(SetRemoteState(m, c, st))
  {
    var t := SetRemoteState(m, c, st);
    var r, q := m.remoteStates, t.remoteStates;
    assert q.connecting + q.connected + q.subscribed <= r.connecting + r.connected + r.subscribed + {c};
    forall d | 0 <= d < Size(m) ensures d in t.remoteStates.Get(t.last[d]) {
      assert d in m.remoteStates.Get(m.last[d]);
    }
  }

  lemma SetKeepsBound(m: Manager, c: nat, st: ConnectionState)
    requires Shaped(m) && c < Size(m) && Agreement(m) && Bounded(m)
    ensures Bounded(SetRemoteState(m, c, st))
  {
    if st.Subscribed? {
      SetSubscribedLoad(m, c);
    } else {
      SetOtherLoad(m, c, st);
    }
  }

  lemma SetKeepsSent(m: Manager, c: nat, st: ConnectionState, d: nat)
    requires Shaped(m) && c < Size(m) && d < Size(m) && SentOk(m, d)
    ensures SentOk(SetRemoteState(m, c, st), d)
  {
  }

  lemma PromoteAllKeepsBound(m: Manager, cs: seq<nat>)
    requires Shaped(m) && Agreement(m) && Bounded(m) && Choice(m, cs)
    ensures Agreement(PromoteAll(m, cs)) && Bounded(PromoteAll(m, cs))
  {
    PromoteAllEffect(m, cs);
  }

  lemma PromotedIsSent(m: Manager, cs: set<nat>, r: Manager, d: nat)
    requires Shaped(m) && Shaped(r) && Size(m) == Size(r) && d < Size(m) && SentOk(m, d)
    requires PromotedOne(m, cs, r, d) && PromotedTimers(m, cs, r) && d in cs && d !in m.pendingRemoteStates.subscribed
    ensures SentOk(r, d)
  {
    var q := Request(Subscribed, r.pendingRemoteStates.subscribed[d], Promotion);
    CountAppend(m.sent[d], q, Promotion);
    CountAppend(m.sent[d], q, Timeout);
    CountAppend(m.sent[d], q, UnexpectedReport);
    assert q in r.sent[d];
    assert forall p :: p in r.sent[d] ==> p in m.sent[d] || p == q;
  }

  lemma OthersKeepSent(m: Manager, cs: set<nat>, r: Manager, d: nat)
    requires Shaped(m) && Shaped(r) && Size(m) == Size(r) && d < Size(m) && SentOk(m, d)
    requires PromotedOne(m, cs, r, d) && PromotedTimers(m, cs, r) && r.nextId >= m.nextId && d !in cs
    ensures SentOk(r, d)
  {
  }

  lemma PromoteAllKeepsSent(m: Manager, cs: seq<nat>, d: nat)
    requires Shaped(m) && d < Size(m) && SentOk(m, d) && Choice(m, cs)
    ensures SentOk(PromoteAll(m, cs), d)
  {
    PromoteAllEffect(m, cs);
    var r := PromoteAll(m, cs);
    assert PromotedOne(m, Elements(cs), r, d);
    if d in Elements(cs) {
      assert d in Available(m);
      PromotedIsSent(m, Elements(cs), r, d);
    } else {
      OthersKeepSent(m, Elements(cs), r, d);
    }
  }

  /** A request to reconnect changes what was sent to its connection and nothing the rest depends on. */
  lemma ReconnectKeepsSent(m: Manager, c: nat, cause: Cause, d: nat)
    requires Shaped(m) && c < Size(m) && d < Size(m) && SentOk(m, d) && cause != Promotion
    requires cause == UnexpectedReport && c == d ==> m.sent[c] == []
    requires cause == Timeout && c == d ==>
               Count(m.sent[c], Timeout) == 0 && c in m.pendingRemoteStates.subscribed
               && (c, m.pendingRemoteStates.subscribed[c]) !in m.timers
    ensures SentOk(RequestStateChange(m, c, Connecting, cause), d)
  {
    if c == d {
      var q := Request(Connecting, m.nextId, cause);
      CountAppend(m.sent[d], q, Promotion);
      CountAppend(m.sent[d], q, Timeout);
      CountAppend(m.sent[d], q, UnexpectedReport);
    }
  }

  // ----- Every step keeps it

  lemma ReportKeepsSets(m: Manager, c: nat, st: ConnectionState, choice: seq<nat>)
    requires Shaped(m) && c < Size(m) && ReportChoice(m, c, st, choice) && Agreement(m) && Bounded(m)
    ensures
      var u := OnReport(m, c, st, choice);
      Shaped(u) && Size(u) == Size(m) && Agreement(u) && Bounded(u) && u.last == m.last[c := st]
  {
    var t := SetRemoteState(m, c, st);
    SetKeepsAgreement(m, c, st);
    SetKeepsBound(m, c, st);
    if !Unexpected(m, c, st) {
      PromoteAllKeepsBound(t, choice);
      PromoteAllEffect(t, choice);
    }
  }

  lemma ReportKeepsSent(m: Manager, c: nat, st: ConnectionState, choice: seq<nat>, d: nat)
    requires Shaped(m) && c < Size(m) && ReportChoice(m, c, st, choice) && d < Size(m) && SentOk(m, d)
    ensures Shaped(OnReport(m, c, st, choice)) && d < Size(OnReport(m, c, st, choice))
    ensures SentOk(OnReport(m, c, st, choice), d)
  {
    var t := SetRemoteState(m, c, st);
    SetKeepsSent(m, c, st, d);
    if Unexpected(m, c, st) {
      ReconnectKeepsSent(t, c, UnexpectedReport, d);
    } else {
      PromoteAllKeepsSent(t, choice, d);
    }
  }

  lemma ReportKeepsInv(s: System, c: nat, choice: seq<nat>)
    requires Inv(s) && Enabled(s, Report(c, choice))
    ensures Inv(Do(s, Report(c, choice)))
  {
    var st := s.conns[c].state;
    var u, conns := OnReport(s.m, c, st, choice), Do(s, Report(c, choice)).conns;
    ReportKeepsSets(s.m, c, st, choice);
    NewTimers(s.m, c, st, choice);
    forall d | 0 <= d < |conns| ensures LastReport(conns[d], u.last[d]) && SentOk(u, d) {
      assert LastReport(s.conns[d], s.m.last[d]);
      ReportKeepsSent(s.m, c, st, choice, d);
    }
  }

  lemma PromotedTimersAreOld(m: Manager, cs: set<nat>, r: Manager)
    requires Promoted(m, cs, r) && (forall t :: t in m.timers ==> t.1 < m.nextId) && forall c :: c in cs ==> c < Size(m)
    ensures forall t :: t in r.timers ==> t.1 < r.nextId
  {
    forall t | t in r.timers ensures t.1 < r.nextId {
      if t !in m.timers {
        assert PromotedOne(m, cs, r, t.0);
      }
    }
  }

  lemma NewTimers(m: Manager, c: nat, st: ConnectionState, choice: seq<nat>)
    requires Shaped(m) && c < Size(m) && ReportChoice(m, c, st, choice)
    requires forall t :: t in m.timers ==> t.1 < m.nextId
    ensures forall t :: t in OnReport(m, c, st, choice).timers ==> t.1 < OnReport(m, c, st, choice).nextId
  {
    if !Unexpected(m, c, st) {
      var t := SetRemoteState(m, c, st);
      PromoteAllEffect(t, choice);
      PromotedTimersAreOld(t, Elements(choice), PromoteAll(t, choice));
    }
  }

  lemma TimerKeepsInv(s: System, c: nat, id: nat)
    requires Inv(s) && Enabled(s, TimerFires(c, id))
    ensures Inv(Do(s, TimerFires(c, id)))
  {
    var m := s.m;
    var t := m.(timers := m.timers - {(c, id)});
    forall d | 0 <= d < Size(m) ensures SentOk(OnTimeout(m, c, id), d) {
      assert SentOk(m, d);
      assert SentOk(t, d);
      if c in m.pendingRemoteStates.subscribed && m.pendingRemoteStates.subscribed[c] == id {
        assert SentOk(m, c);
        ReconnectKeepsSent(t, c, Timeout, d);
      }
    }
  }

  lemma RandomDisconnectKeepsInv(s: System, c: nat)
    requires Inv(s) && Enabled(s, DisconnectRandom(c))
    ensures Inv(Do(s, DisconnectRandom(c)))
  {
    forall d | 0 <= d < Size(s.m) ensures SentOk(OnRandomDisconnect(s.m, c), d) {
      ReconnectKeepsSent(s.m, c, RandomDisconnect, d);
    }
  }

  lemma DequeueKeepsInv(s: System, c: nat, subscribeOk: bool)
    requires Inv(s) && Enabled(s, Dequeue(c, subscribeOk))
    ensures Inv(Do(s, Dequeue(c, subscribeOk)))
  {
    var t := Do(s, Dequeue(c, subscribeOk));
    forall d | 0 <= d < Size(s.m) ensures LastReport(t.conns[d], t.m.last[d]) && SentOk(t.m, d) {
      assert LastReport(s.conns[d], s.m.last[d]) && SentOk(s.m, d);
    }
  }

  lemma StepKeepsInv(s: System, step: Step)
    requires Inv(s) && Enabled(s, step)
    ensures Inv(Do(s, step))
  {
    match step
    case Report(c, choice) => ReportKeepsInv(s, c, choice);
    case TimerFires(c, id) => TimerKeepsInv(s, c, id);
    case DisconnectRandom(c) => RandomDisconnectKeepsInv(s, c);
    case Dequeue(c, subscribeOk) => DequeueKeepsInv(s, c, subscribeOk);
    case DialSucceeds(_) =>
    case ListenerFails(_) =>
    case ListenerSubscribed(_) =>
    case NoRecentEvents(_) =>
  }

  lemma InitInv(n: nat, maxSubscribers: nat)
    ensures Inv(Init(n, maxSubscribers))
  {
  }

  // ----- Runs

  /** `states` are the states between which the steps lead. */
  ghost predicate IsRun(states: seq<System>, steps: seq<Step>) {
    && |states| == |steps| + 1
    && forall i {:trigger steps[i]} :: 0 <= i < |steps| ==>
         Shape(states[i]) && Enabled(states[i], steps[i]) && states[i + 1] == Do(states[i], steps[i])
  }

  /** Inv under a name of its own. */
  ghost predicate Sound(s: System) {
    Inv(s)
  }

  lemma RunStep(states: seq<System>, steps: seq<Step>, k: nat)
    requires IsRun(states, steps) && k < |steps| && Sound(states[k])
    ensures Sound(states[k + 1])
  {
    var s, step := states[k], steps[k];
    assert Enabled(s, step) && states[k + 1] == Do(s, step);
    StepKeepsInv(s, step);
  }

  lemma {:induction false} RunIsSound(states: seq<System>, steps: seq<Step>, k: nat)
    requires IsRun(states, steps) && Sound(states[0]) && k <= |steps|
    ensures Sound(states[k])
  {
    if k > 0 {
      var j: nat := k - 1;
      RunIsSound(states, steps, j);
      RunStep(states, steps, j);
      assert states[j + 1] == states[k];
    }
  }

  lemma RunKeepsInv(states: seq<System>, steps: seq<Step>, k: nat)
    requires IsRun(states, steps) && Inv(states[0]) && k <= |steps|
    ensures Inv(states[k])
  {
    RunIsSound(states, steps, k);
  }

  ghost predicate Reachable(n: nat, maxSubscribers: nat, s: System) {
    exists states, steps :: IsRun(states, steps) && states[0] == Init(n, maxSubscribers) && states[|steps|] == s
  }

  lemma StepKeepsLimit(s: System, step: Step)
    requires Shape(s) && Enabled(s, step)
    ensures Do(s, step).m.maxSubscribers == s.m.maxSubscribers
  {
    if step.Report? && !Unexpected(s.m, step.c, s.conns[step.c].state) {
      PromoteAllEffect(SetRemoteState(s.m, step.c, s.conns[step.c].state), step.choice);
    }
  }

  lemma {:induction false} RunKeepsLimit(states: seq<System>, steps: seq<Step>, k: nat)
    requires IsRun(states, steps) && k <= |steps|
    ensures states[k].m.maxSubscribers == states[0].m.maxSubscribers
  {
    if k > 0 {
      RunKeepsLimit(states, steps, k - 1);
      var step := steps[k - 1];
      StepKeepsLimit(states[k - 1], step);
    }
  }

  lemma ReachableLimit(n: nat, maxSubscribers: nat, s: System)
    requires Reachable(n, maxSubscribers, s)
    ensures s.m.maxSubscribers == maxSubscribers
  {
    var states, steps :| IsRun(states, steps) && states[0] == Init(n, maxSubscribers) && states[|steps|] == s;
    RunKeepsLimit(states, steps, |steps|);
  }

  lemma ReachableInv(n: nat, maxSubscribers: nat, s: System)
    requires Reachable(n, maxSubscribers, s)
    ensures Inv(s)
  {
    var states, steps :| IsRun(states, steps) && states[0] == Init(n, maxSubscribers) && states[|steps|] == s;
    InitInv(n, maxSubscribers);
    RunKeepsInv(states, steps, |steps|);
  }

  // ----- Results

  /** In every interleaving the manager has each connection in exactly one set, that of the state it last
      reported, and a connection in its select loop is in the set of its own state. */
  lemma WholeSystemAgreement(n: nat, maxSubscribers: nat, s: System, c: nat, st: ConnectionState)
    requires Reachable(n, maxSubscribers, s) && Shape(s) && c < |s.conns|
    ensures c in s.m.remoteStates.Get(st) <==> s.m.last[c] == st
    ensures s.conns[c].pc == Loop ==> s.m.last[c] == s.conns[c].state
  {
    ReachableInv(n, maxSubscribers, s);
    assert c in s.m.remoteStates.Get(s.m.last[c]);
    assert LastReport(s.conns[c], s.m.last[c]);
  }

  /** A report of being connected always finds its connection in the connecting set, so the manager's branch
      for an unexpected one is never taken. */
  lemma ConnectedReportIsExpected(n: nat, maxSubscribers: nat, s: System, c: nat, choice: seq<nat>)
    requires Reachable(n, maxSubscribers, s) && Shape(s)
    requires Enabled(s, Report(c, choice)) && s.conns[c].state == Connected
    ensures !Unexpected(s.m, c, Connected)
  {
    ReachableInv(n, maxSubscribers, s);
    assert LastReport(s.conns[c], s.m.last[c]);
    assert c in s.m.remoteStates.Get(s.m.last[c]);
  }

  /** The subscription bound: subscribed plus pending exceed the limit by at most the connections that are
      subscribed now and reported so without a pending request. */
  lemma SubscriptionBound(n: nat, maxSubscribers: nat, s: System)
    requires Reachable(n, maxSubscribers, s)
    ensures |s.m.remoteStates.subscribed| + |s.m.pendingRemoteStates.subscribed| <= maxSubscribers + |s.m.strays|
    ensures s.m.strays <= s.m.remoteStates.subscribed
    ensures s.m.pendingRemoteStates.subscribed.Keys <= s.m.remoteStates.connected
  {
    ReachableInv(n, maxSubscribers, s);
    ReachableLimit(n, maxSubscribers, s);
  }

  /** A timeout makes its connection reconnect if and only if the connection has reported nothing since the
      very request the timeout belongs to. */
  lemma TimeoutIdentity(n: nat, maxSubscribers: nat, s: System, c: nat, id: nat)
    requires Reachable(n, maxSubscribers, s) && Shape(s) && Enabled(s, TimerFires(c, id))
    ensures
      (exists q :: q in s.m.sent[c] && q.state == Subscribed && q.id == id)
      <==> Do(s, TimerFires(c, id)).m.connections[c] == s.m.connections[c] + [Connecting]
    ensures
      (forall q :: q in s.m.sent[c] && q.state == Subscribed ==> q.id != id)
      <==> Do(s, TimerFires(c, id)).m.connections[c] == s.m.connections[c]
  {
    ReachableInv(n, maxSubscribers, s);
    assert SentOk(s.m, c);
    var pending := s.m.pendingRemoteStates.subscribed;
    if c in pending {
      assert Request(Subscribed, pending[c], Promotion) in s.m.sent[c];
    }
    assert |s.m.connections[c] + [Connecting]| != |s.m.connections[c]|;
  }

  /** Between two reports of a connection the manager sends it at most one subscribe request and at most one
      reconnect request because of a timeout. */
  lemma RequestBound(n: nat, maxSubscribers: nat, s: System, c: nat)
    requires Reachable(n, maxSubscribers, s) && Shape(s) && c < |s.conns|
    ensures Count(s.m.sent[c], Promotion) <= 1
    ensures Count(s.m.sent[c], Timeout) <= Count(s.m.sent[c], Promotion)
    ensures Count(s.m.sent[c], UnexpectedReport) <= 1
  {
    ReachableInv(n, maxSubscribers, s);
    assert SentOk(s.m, c);
  }

  // ----- No subscription is left unasked for

  /** As many are subscribed or asked to subscribe as there may be, or every connected connection has been asked. */
  ghost predicate Busy(m: Manager) {
    Load(m) >= m.maxSubscribers || Available(m) == {}
  }

  lemma ExpectedReportIsBusy(m: Manager, c: nat, st: ConnectionState, choice: seq<nat>)
    requires Shaped(m) && c < Size(m) && ReportChoice(m, c, st, choice) && !Unexpected(m, c, st)
    ensures Busy(OnReport(m, c, st, choice))
  {
    UpdateFillsRoom(SetRemoteState(m, c, st), choice);
    PromoteAllEffect(SetRemoteState(m, c, st), choice);
  }

  /** After an unexpected report nobody is asked to subscribe, but then nobody has become available either. */
  lemma UnexpectedReportIsBusy(m: Manager, c: nat, choice: seq<nat>)
    requires Shaped(m) && c < Size(m) && c !in m.remoteStates.connected && Busy(m)
    requires m.pendingRemoteStates.subscribed.Keys <= m.remoteStates.connected
    requires m.remoteStates.connected !! m.remoteStates.subscribed
    requires ReportChoice(m, c, Subscribed, choice)
    ensures Busy(OnReport(m, c, Subscribed, choice))
  {
    SetSubscribedLoad(m, c);
    SetSubscribedAvailable(m, c);
    ReconnectIsBusy(SetRemoteState(m, c, Subscribed), c);
  }

  lemma SetSubscribedAvailable(m: Manager, c: nat)
    requires Shaped(m) && c < Size(m) && c !in m.remoteStates.connected
    requires m.pendingRemoteStates.subscribed.Keys <= m.remoteStates.connected
    ensures Available(SetRemoteState(m, c, Subscribed)) == Available(m)
  {
    var pending := m.pendingRemoteStates.subscribed;
    assert c !in pending.Keys && (pending - {c}).Keys == pending.Keys;
  }

  lemma ReconnectIsBusy(m: Manager, c: nat)
    requires Shaped(m) && c < Size(m) && Busy(m)
    ensures Busy(RequestStateChange(m, c, Connecting, UnexpectedReport))
  {
  }

  lemma ReportKeepsBusy(s: System, c: nat, choice: seq<nat>)
    requires Inv(s) && Busy(s.m) && Enabled(s, Report(c, choice))
    ensures Busy(Do(s, Report(c, choice)).m)
  {
    var st := s.conns[c].state;
    if !Unexpected(s.m, c, st) {
      ExpectedReportIsBusy(s.m, c, st, choice);
    } else {
      assert LastReport(s.conns[c], s.m.last[c]);
      assert c in s.m.remoteStates.Get(s.m.last[c]);
      UnexpectedReportIsBusy(s.m, c, choice);
    }
  }

  lemma StepKeepsBusy(s: System, step: Step)
    requires Inv(s) && Busy(s.m) && Enabled(s, step)
    ensures Busy(Do(s, step).m)
  {
    match step
    case Report(c, choice) => ReportKeepsBusy(s, c, choice);
    case _ =>
  }

  ghost predicate Working(s: System) {
    Inv(s) && Busy(s.m)
  }

  lemma WorkingStep(states: seq<System>, steps: seq<Step>, k: nat)
    requires IsRun(states, steps) && k < |steps| && Working(states[k])
    ensures Working(states[k + 1])
  {
    var s, step := states[k], steps[k];
    assert Enabled(s, step) && states[k + 1] == Do(s, step);
    StepKeepsInv(s, step);
    StepKeepsBusy(s, step);
  }

  lemma {:induction false} RunKeepsWorking(states: seq<System>, steps: seq<Step>, k: nat)
    requires IsRun(states, steps) && Working(states[0]) && k <= |steps|
    ensures Working(states[k])
  {
    if k > 0 {
      var j: nat := k - 1;
      RunKeepsWorking(states, steps, j);
      WorkingStep(states, steps, j);
      assert states[j + 1] == states[k];
    }
  }

  /** The manager never leaves room for a subscription while a connected connection has not been asked to subscribe: in
      every run, at every moment. */
  lemma NoIdleConnection(n: nat, maxSubscribers: nat, s: System)
    requires Reachable(n, maxSubscribers, s)
    ensures
      || |s.m.remoteStates.subscribed| + |s.m.pendingRemoteStates.subscribed| >= maxSubscribers
      || forall c :: c in s.m.remoteStates.connected ==> c in s.m.pendingRemoteStates.subscribed
  {
    var states, steps :| IsRun(states, steps) && states[0] == Init(n, maxSubscribers) && states[|steps|] == s;
    InitInv(n, maxSubscribers);
    RunKeepsWorking(states, steps, |steps|);
    ReachableLimit(n, maxSubscribers, s);
    if Available(s.m) == {} {
      NoneAvailable(s.m);
    }
  }

  // ----- What a connection does with its requests

  /** A connection in its loop that takes a reconnect request is about to report that it is connecting.  One that takes
      a subscribe request is so exactly when it was connected and could not write the subscription; otherwise it goes
      on as it was.  Only this connection and its queue change. */
  lemma RequestIsAnswered(n: nat, maxSubscribers: nat, s: System, c: nat, subscribeOk: bool)
    requires Reachable(n, maxSubscribers, s) && Shape(s) && Enabled(s, Dequeue(c, subscribeOk))
    ensures
      var t := Do(s, Dequeue(c, subscribeOk));
      var reconnects := || s.m.connections[c][0] == Connecting
                        || (s.m.connections[c][0] == Subscribed && s.conns[c].state == Connected && !subscribeOk);
      && |t.conns| == |s.conns| && t.m == s.m.(connections := t.m.connections)
      && t.conns[c] == (if reconnects then Connection(Reporting, Connecting) else s.conns[c])
      && t.m.connections == s.m.connections[c := s.m.connections[c][1..]]
      && (forall d :: 0 <= d < |s.conns| && d != c ==> t.conns[d] == s.conns[d])
  {
    ReachableInv(n, maxSubscribers, s);
    assert LastReport(s.conns[c], s.m.last[c]);
  }

  /** Its report puts it in the set it reported; it then dials if it was connecting and is in its loop otherwise. */
  lemma ReportIsHeard(s: System, c: nat, choice: seq<nat>)
    requires Shape(s) && Enabled(s, Report(c, choice))
    ensures
      var t, st := Do(s, Report(c, choice)), s.conns[c].state;
      && t.conns == s.conns[c := Connection(if st == Connecting then Dialing else Loop, st)]
      && c in t.m.remoteStates.Get(st) && c < |t.m.last| && t.m.last[c] == st
  {
    var st := s.conns[c].state;
    if !Unexpected(s.m, c, st) {
      PromoteAllEffect(SetRemoteState(s.m, c, st), choice);
    }
  }

  /** What makes a connection in its loop start a new listener. */
  predicate StartsListener(s: System, step: Step, c: nat)
    requires Shape(s) && Enabled(s, step) && c < |s.conns|
  {
    || step == ListenerFails(c)
    || step == NoRecentEvents(c)
    || (step == Dequeue(c, true) && s.m.connections[c][0] == Connecting)
    || (step == Dequeue(c, false)
        && (s.m.connections[c][0] == Connecting
            || (s.m.connections[c][0] == Subscribed && s.conns[c].state == Connected)))
  }

  /** The life of a connection, whatever the others and the manager do: a new listener reports connecting, dials,
      reports connected and is in its loop, which it leaves to report a subscription or to start a new listener, and
      for no other reason. */
  lemma ConnectionLife(n: nat, maxSubscribers: nat, s: System, step: Step, c: nat)
    requires Reachable(n, maxSubscribers, s) && Shape(s) && Enabled(s, step) && c < |s.conns|
    ensures |Do(s, step).conns| == |s.conns|
    ensures
      var before, after := s.conns[c], Do(s, step).conns[c];
      match before.pc
      case Reporting =>
        if step.Report? && step.c == c
        then after == Connection(if before.state == Connecting then Dialing else Loop, before.state)
        else after == before
      case Dialing =>
        && before.state == Connecting
        && after == (if step == DialSucceeds(c) then Connection(Reporting, Connected) else before)
      case Loop =>
        && before.state in {Connected, Subscribed}
        && after == (if StartsListener(s, step, c) then Connection(Reporting, Connecting)
                     else if step == ListenerSubscribed(c) then Connection(Reporting, Subscribed)
                     else before)
  {
    ReachableInv(n, maxSubscribers, s);
    assert LastReport(s.conns[c], s.m.last[c]);
  }

  // ----- Queues

  /** How many of the first `k` steps took a request from the queue of `c`. */
  function Taken(steps: seq<Step>, c: nat, k: nat): nat
    requires k <= |steps|
  {
    if k == 0 then 0
    else Taken(steps, c, k - 1) + (if steps[k - 1].Dequeue? && steps[k - 1].c == c then 1 else 0)
  }

  lemma PromotionAppends(m: Manager, choice: seq<nat>, c: nat) returns (more: seq<ConnectionState>)
    requires Shaped(m) && c < Size(m) && Candidates(m, choice)
    ensures PromoteAll(m, choice).connections[c] == m.connections[c] + more
  {
    PromoteAllEffect(m, choice);
    assert PromotedOne(m, Elements(choice), PromoteAll(m, choice), c);
    more := if c in Elements(choice) then [Subscribed] else [];
  }

  lemma UnexpectedAppends(m: Manager, d: nat, c: nat) returns (more: seq<ConnectionState>)
    requires Shaped(m) && d < Size(m) && c < Size(m)
    ensures RequestStateChange(m, d, Connecting, UnexpectedReport).connections[c] == m.connections[c] + more
  {
    more := if d == c then [Connecting] else [];
  }

  lemma ReportAppends(m: Manager, d: nat, st: ConnectionState, choice: seq<nat>, c: nat)
      returns (more: seq<ConnectionState>)
    requires Shaped(m) && d < Size(m) && c < Size(m) && ReportChoice(m, d, st, choice)
    ensures
      var r := OnReport(m, d, st, choice);
      Size(r) == Size(m) && r.connections[c] == m.connections[c] + more
  {
    var t := SetRemoteState(m, d, st);
    if Unexpected(m, d, st) {
      more := UnexpectedAppends(t, d, c);
    } else {
      more := PromotionAppends(t, choice, c);
    }
  }

  lemma ReconnectAppends(m: Manager, d: nat, id: nat, c: nat) returns (more: seq<ConnectionState>)
    requires Shaped(m) && d < Size(m) && c < Size(m)
    ensures Size(OnTimeout(m, d, id)) == Size(m)
    ensures OnTimeout(m, d, id).connections[c] == m.connections[c] + more
  {
    var due := d in m.pendingRemoteStates.subscribed && m.pendingRemoteStates.subscribed[d] == id;
    more := if due && d == c then [Connecting] else [];
  }

  /** Only the connection takes from its queue, and the manager only appends. */
  lemma QueueStep(s: System, step: Step, c: nat) returns (more: seq<ConnectionState>)
    requires Shape(s) && Enabled(s, step) && c < |s.conns|
    ensures c < |Do(s, step).m.connections|
    ensures
      var q, r := s.m.connections[c], Do(s, step).m.connections[c];
      if step.Dequeue? && step.c == c then |q| > 0 && r == q[1..] && more == [] else r == q + more
  {
    more := [];
    match step
    case Report(d, choice) => more := ReportAppends(s.m, d, s.conns[d].state, choice, c);
    case TimerFires(d, id) => more := ReconnectAppends(s.m, d, id, c);
    case DisconnectRandom(d) =>
      more := if d == c then [Connecting] else [];
    case _ =>
  }

  /** Requests are taken in the order in which they were sent: after `k` steps the queue is what was there and what was
      sent since, less what was taken. */
  lemma {:induction false} QueueIsFifo(states: seq<System>, steps: seq<Step>, c: nat, k: nat)
    returns (more: seq<ConnectionState>)
    requires IsRun(states, steps) && k <= |steps| && Sound(states[0]) && c < |states[0].conns|
    ensures FifoAt(states, steps, c, k, more)
  {
    more := [];
    if k > 0 {
      var j: nat := k - 1;
      var before := QueueIsFifo(states, steps, c, j);
      RunIsSound(states, steps, j);
      more := FifoNext(states, steps, c, j, before);
      assert j + 1 == k;
    } else {
      FifoStart(states, steps, c);
    }
  }

  lemma FifoStart(states: seq<System>, steps: seq<Step>, c: nat)
    requires states != [] && Sound(states[0]) && c < |states[0].conns|
    ensures FifoAt(states, steps, c, 0, [])
  {
    assert states[0].m.connections[c] + [] == states[0].m.connections[c];
  }

  ghost predicate FifoAt(states: seq<System>, steps: seq<Step>, c: nat, k: nat, more: seq<ConnectionState>) {
    && 0 < |states| && k < |states| && k <= |steps|
    && c < |states[k].conns| && c < |states[k].m.connections| && c < |states[0].m.connections|
    && Taken(steps, c, k) <= |states[0].m.connections[c] + more|
    && states[k].m.connections[c] == (states[0].m.connections[c] + more)[Taken(steps, c, k)..]
  }

  lemma FifoNext(states: seq<System>, steps: seq<Step>, c: nat, k: nat, before: seq<ConnectionState>)
    returns (more: seq<ConnectionState>)
    requires IsRun(states, steps) && k < |steps| && Sound(states[k]) && FifoAt(states, steps, c, k, before)
    ensures FifoAt(states, steps, c, k + 1, more)
  {
    var s, step := states[k], steps[k];
    assert Enabled(s, step) && states[k + 1] == Do(s, step);
    var sent := QueueStep(s, step, c);
    more := before + sent;
    SameConnections(s, step);
    FifoStep(states[0].m.connections[c], before, Taken(steps, c, k), sent);
  }

  lemma SameConnections(s: System, step: Step)
    requires Shape(s) && Sound(s) && Enabled(s, step)
    ensures |Do(s, step).conns| == |s.conns| && Shape(Do(s, step))
  {
    StepKeepsInv(s, step);
  }

  lemma FifoStep(q: seq<ConnectionState>, before: seq<ConnectionState>, taken: nat, sent: seq<ConnectionState>)
    requires taken <= |q + before|
    ensures (q + before)[taken..] + sent == (q + (before + sent))[taken..]
    ensures sent == [] && taken < |q + before| ==> (q + before)[taken..][1..] == (q + (before + sent))[taken + 1..]
  {
    assert q + (before + sent) == (q + before) + sent;
  }

  /** A reconnect request reaches its connection: in every run from where it is the last of the queue, the step that
      takes it, behind the requests sent before it, leaves the connection about to report that it is connecting. */
  lemma ReconnectArrives(
    states: seq<System>, steps: seq<Step>, c: nat, ahead: seq<ConnectionState>, k: nat)
    requires IsRun(states, steps) && Inv(states[0]) && c < |states[0].conns|
    requires states[0].m.connections[c] == ahead + [Connecting]
    requires k < |steps| && steps[k].Dequeue? && steps[k].c == c && Taken(steps, c, k) == |ahead|
    ensures c < |states[k + 1].conns| && states[k + 1].conns[c] == Connection(Reporting, Connecting)
  {
    var more := QueueIsFifo(states, steps, c, k);
    var all := ahead + [Connecting] + more;
    assert all[|ahead|..][0] == Connecting;
    RunKeepsInv(states, steps, k);
    var step := steps[k];
    assert Enabled(states[k], step) && states[k + 1] == Do(states[k], step);
    assert LastReport(states[k].conns[c], states[k].m.last[c]);
  }

  /** So a timeout whose request is still unanswered makes its connection reconnect. */
  lemma TimeoutReconnects(
    n: nat, maxSubscribers: nat, s: System, c: nat, id: nat, states: seq<System>, steps: seq<Step>, k: nat)
    requires Reachable(n, maxSubscribers, s) && Shape(s) && Enabled(s, TimerFires(c, id))
    requires exists q :: q in s.m.sent[c] && q.state == Subscribed && q.id == id
    requires IsRun(states, steps) && states[0] == Do(s, TimerFires(c, id))
    requires k < |steps| && steps[k].Dequeue? && steps[k].c == c && Taken(steps, c, k) == |s.m.connections[c]|
    ensures c < |states[k + 1].conns| && states[k + 1].conns[c] == Connection(Reporting, Connecting)
  {
    TimeoutIdentity(n, maxSubscribers, s, c, id);
    ReachableInv(n, maxSubscribers, s);
    StepKeepsInv(s, TimerFires(c, id));
    ReconnectArrives(states, steps, c, s.m.connections[c], k);
  }

  /** The hourly disconnect does so to the connected connection that it picks, and does nothing to the others. */
  lemma DisconnectReconnects(
    n: nat, maxSubscribers: nat, s: System, c: nat, states: seq<System>, steps: seq<Step>, k: nat)
    requires Reachable(n, maxSubscribers, s) && Shape(s) && Enabled(s, DisconnectRandom(c))
    requires IsRun(states, steps) && states[0] == Do(s, DisconnectRandom(c))
    ensures |states[0].m.connections| == |s.m.connections|
    ensures forall d :: 0 <= d < |s.m.connections| && d != c ==> states[0].m.connections[d] == s.m.connections[d]
    ensures k < |steps| && steps[k].Dequeue? && steps[k].c == c && Taken(steps, c, k) == |s.m.connections[c]| ==>
              c < |states[k + 1].conns| && states[k + 1].conns[c] == Connection(Reporting, Connecting)
  {
    ReachableInv(n, maxSubscribers, s);
    StepKeepsInv(s, DisconnectRandom(c));
    if k < |steps| && steps[k].Dequeue? && steps[k].c == c && Taken(steps, c, k) == |s.m.connections[c]| {
      ReconnectArrives(states, steps, c, s.m.connections[c], k);
    }
  }

  /** And a connection that reports being subscribed when it was not connected is told to reconnect, and does. */
  lemma UnexpectedReconnects(
    n: nat, maxSubscribers: nat, s: System, c: nat, choice: seq<nat>, states: seq<System>, steps: seq<Step>, k: nat)
    requires Reachable(n, maxSubscribers, s) && Shape(s) && Enabled(s, Report(c, choice))
    requires s.conns[c].state == Subscribed && c !in s.m.remoteStates.connected
    requires IsRun(states, steps) && states[0] == Do(s, Report(c, choice))
    requires k < |steps| && steps[k].Dequeue? && steps[k].c == c && Taken(steps, c, k) == |s.m.connections[c]|
    ensures c < |states[k + 1].conns| && states[k + 1].conns[c] == Connection(Reporting, Connecting)
  {
    ReachableInv(n, maxSubscribers, s);
    StepKeepsInv(s, Report(c, choice));
    ReconnectArrives(states, steps, c, s.m.connections[c], k);
  }
}
