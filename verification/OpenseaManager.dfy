/** The connection manager of opensea-streamer/main.go: the bookkeeping it keeps about its connections, and
    what each message it receives does to it.  `Manager` is its value between two messages;
    OpenseaManagerObject has the object itself. */
module OpenseaManager {

  datatype ConnectionState = Connecting | Connected | Subscribed

  /** A map with one entry per connection state. */
  datatype PerState<X> = PerState(connecting: X, connected: X, subscribed: X) {
    function Get(s: ConnectionState): X {
      match s
      case Connecting => connecting
      case Connected => connected
      case Subscribed => subscribed
    }

    function Set(s: ConnectionState, x: X): PerState<X> {
      match s
      case Connecting => this.(connecting := x)
      case Connected => this.(connected := x)
      case Subscribed => this.(subscribed := x)
    }
  }

  /** Why the manager asked a connection to change its state. */
  datatype Cause = Promotion | Timeout | RandomDisconnect | UnexpectedReport

  datatype Request = Request(state: ConnectionState, id: nat, cause: Cause)

  /** `connections` are the queues to the connections, `timers` the sleeping timeouts of subscribe requests.
      Three histories: `sent` are the requests to each connection since its last report, `last` what it last
      reported, and `strays` the subscribed ones that reported so without a pending request. */
  datatype Manager = Manager(
    maxSubscribers: nat,
    remoteStates: PerState<set<nat>>,
    pendingRemoteStates: PerState<map<nat, nat>>,
    connections: seq<seq<ConnectionState>>,
    timers: set<(nat, nat)>,
    nextId: nat,
    sent: seq<seq<Request>>,
    last: seq<ConnectionState>,
    strays: set<nat>)

  function Below(n: nat): (r: set<nat>)
    ensures forall c: nat :: c in r <==> c < n
  {
    if n == 0 then {} else Below(n - 1) + {n - 1}
  }

  function New(n: nat, maxSubscribers: nat): Manager {
    Manager(maxSubscribers,
            PerState(Below(n), {}, {}),
            PerState(map[], map[], map[]),
            seq(n, _ => []), {}, 0, seq(n, _ => []), seq(n, _ => Connecting), {})
  }

  predicate Shaped(m: Manager) {
    |m.connections| == |m.sent| == |m.last|
  }

  function Size(m: Manager): nat {
    |m.connections|
  }

  // ----- The building blocks

  function SetRemoteState(m: Manager, c: nat, s: ConnectionState): Manager
    requires Shaped(m) && c < Size(m)
  {
    var r, p := m.remoteStates, m.pendingRemoteStates;
    var cleared := PerState(r.connecting - {c}, r.connected - {c}, r.subscribed - {c});
    m.(remoteStates := cleared.Set(s, cleared.Get(s) + {c}),
       pendingRemoteStates := PerState(p.connecting - {c}, p.connected - {c}, p.subscribed - {c}),
       sent := m.sent[c := []],
       last := m.last[c := s],
       strays := if s.Subscribed? && c !in p.subscribed && c !in r.subscribed then m.strays + {c}
                 else if s.Subscribed? && c in r.subscribed then m.strays
                 else m.strays - {c})
  }

  function RequestStateChange(m: Manager, c: nat, s: ConnectionState, cause: Cause): Manager
    requires Shaped(m) && c < Size(m)
  {
    m.(connections := m.connections[c := m.connections[c] + [s]],
       pendingRemoteStates := m.pendingRemoteStates.Set(s, m.pendingRemoteStates.Get(s)[c := m.nextId]),
       nextId := m.nextId + 1,
       sent := m.sent[c := m.sent[c] + [Request(s, m.nextId, cause)]])
  }

  /** A subscribe request together with its timeout. */
  function Promote(m: Manager, c: nat): Manager
    requires Shaped(m) && c < Size(m)
  {
    RequestStateChange(m, c, Subscribed, Promotion).(timers := m.timers + {(c, m.nextId)})
  }

  predicate AllConnections(m: Manager, cs: seq<nat>) {
    forall i :: 0 <= i < |cs| ==> cs[i] < Size(m)
  }

  function PromoteAll(m: Manager, cs: seq<nat>): (r: Manager)
    requires Shaped(m) && AllConnections(m, cs)
    ensures Shaped(r) && Size(r) == Size(m)
  {
    if cs == [] then m else Promote(PromoteAll(m, cs[..|cs| - 1]), cs[|cs| - 1])
  }

  /** Subscribed connections and those asked to subscribe. */
  function Load(m: Manager): nat {
    |m.remoteStates.subscribed| + |m.pendingRemoteStates.subscribed|
  }

  function Available(m: Manager): set<nat> {
    m.remoteStates.connected - m.pendingRemoteStates.subscribed.Keys
  }

  /** How many more subscribe requests the limit leaves room for. */
  function Room(m: Manager): nat {
    if Load(m) >= m.maxSubscribers then 0 else m.maxSubscribers - Load(m)
  }

  /** The choices updateSubscribers can make, one for each order in which the map may be visited: the loop ends
      when there is no more room, or when every available connection has been taken. */
  predicate Choice(m: Manager, cs: seq<nat>) {
    && (forall i :: 0 <= i < |cs| ==> cs[i] in Available(m) && cs[i] < Size(m))
    && (forall i, j :: 0 <= i < j < |cs| ==> cs[i] != cs[j])
    && |cs| <= Room(m)
    && (|cs| == Room(m) || forall c :: c in Available(m) ==> c in cs)
  }

  // ----- The messages

  /** Does a report in state `s` from `c` come from a state the manager does not expect it from? */
  predicate Unexpected(m: Manager, c: nat, s: ConnectionState) {
    match s
    case Connecting => false
    case Connected => c !in m.remoteStates.connecting
    case Subscribed => c !in m.remoteStates.connected
  }

  predicate ReportChoice(m: Manager, c: nat, s: ConnectionState, cs: seq<nat>)
    requires Shaped(m) && c < Size(m)
  {
    !Unexpected(m, c, s) ==> Choice(SetRemoteState(m, c, s), cs)
  }

  /** onConnecting, onConnected and onSubscribed. */
  function OnReport(m: Manager, c: nat, s: ConnectionState, cs: seq<nat>): Manager
    requires Shaped(m) && c < Size(m) && ReportChoice(m, c, s, cs)
  {
    var t := SetRemoteState(m, c, s);
    if Unexpected(m, c, s) then RequestStateChange(t, c, Connecting, UnexpectedReport) else PromoteAll(t, cs)
  }

  /** `r` is what updateSubscribers makes of `m` for some order of the map. */
  ghost predicate Updated(m: Manager, r: Manager) {
    Shaped(m) && exists cs :: Choice(m, cs) && r == PromoteAll(m, cs)
  }

  /** `r` is what a report makes of `m` for some order of the map. */
  ghost predicate Reported(m: Manager, c: nat, s: ConnectionState, r: Manager) {
    Shaped(m) && c < Size(m) && exists cs :: ReportChoice(m, c, s, cs) && r == OnReport(m, c, s, cs)
  }

  lemma ExpectedReport(m: Manager, c: nat, s: ConnectionState, r: Manager)
    requires Shaped(m) && c < Size(m) && !Unexpected(m, c, s) && Updated(SetRemoteState(m, c, s), r)
    ensures Reported(m, c, s, r)
  {
    var cs :| Choice(SetRemoteState(m, c, s), cs) && r == PromoteAll(SetRemoteState(m, c, s), cs);
    assert ReportChoice(m, c, s, cs);
  }

  lemma UnexpectedReported(m: Manager, c: nat, s: ConnectionState)
    requires Shaped(m) && c < Size(m) && Unexpected(m, c, s)
    ensures Reported(m, c, s, RequestStateChange(SetRemoteState(m, c, s), c, Connecting, UnexpectedReport))
  {
    var cs: seq<nat> := [];
    assert ReportChoice(m, c, s, cs);
  }

  function OnTimeout(m: Manager, c: nat, id: nat): Manager
    requires Shaped(m) && c < Size(m)
  {
    var t := m.(timers := m.timers - {(c, id)});
    if c in m.pendingRemoteStates.subscribed && m.pendingRemoteStates.subscribed[c] == id
    then RequestStateChange(t, c, Connecting, Timeout) else t
  }

  /** A connected connection is told to reconnect, if there is one. */
  function OnRandomDisconnect(m: Manager, c: nat): Manager
    requires Shaped(m) && c < Size(m)
  {
    if c in m.remoteStates.connected then RequestStateChange(m, c, Connecting, RandomDisconnect) else m
  }

  // ----- Work conservation

  function Elements(cs: seq<nat>): set<nat> {
    set c | c in cs
  }

  /** `r` is `m` with a subscribe request to each of `cs`: what the sets say. */
  ghost predicate PromotedSets(m: Manager, cs: set<nat>, r: Manager) {
    && r.remoteStates == m.remoteStates
    && r.maxSubscribers == m.maxSubscribers && r.last == m.last && r.strays == m.strays
    && r.pendingRemoteStates.subscribed.Keys == m.pendingRemoteStates.subscribed.Keys + cs
    && |r.pendingRemoteStates.subscribed| == |m.pendingRemoteStates.subscribed| + |cs|
  }

  /** The same, connection by connection. */
  ghost predicate PromotedOne(m: Manager, cs: set<nat>, r: Manager, c: nat)
    requires Shaped(m) && Shaped(r) && Size(m) == Size(r) && c < Size(m)
  {
    var before, after := m.pendingRemoteStates.subscribed, r.pendingRemoteStates.subscribed;
    if c in cs then
      && c in after && m.nextId <= after[c] < r.nextId
      && r.sent[c] == m.sent[c] + [Request(Subscribed, after[c], Promotion)]
      && r.connections[c] == m.connections[c] + [Subscribed]
      && (c, after[c]) in r.timers
    else
      && (c in after <==> c in before) && (c in before ==> after[c] == before[c])
      && r.sent[c] == m.sent[c] && r.connections[c] == m.connections[c]
  }

  /** The timeouts of the new requests are the only new ones. */
  ghost predicate PromotedTimers(m: Manager, cs: set<nat>, r: Manager) {
    && m.timers <= r.timers
    && (forall t :: t in r.timers && t !in m.timers ==>
          t.0 in cs && t.0 in r.pendingRemoteStates.subscribed && r.pendingRemoteStates.subscribed[t.0] == t.1)
  }

  ghost predicate Promoted(m: Manager, cs: set<nat>, r: Manager) {
    && Shaped(m) && Shaped(r) && Size(m) == Size(r)
    && PromotedSets(m, cs, r)
    && (forall c :: 0 <= c < Size(m) ==> PromotedOne(m, cs, r, c))
    && PromotedTimers(m, cs, r)
    && r.nextId >= m.nextId
  }

  lemma OneMoreSets(m: Manager, cs: set<nat>, half: Manager, c: nat)
    requires Shaped(half) && c < Size(half) && PromotedSets(m, cs, half) && c in Available(m) && c !in cs
    ensures PromotedSets(m, cs + {c}, Promote(half, c))
  {
    MapPut(half.pendingRemoteStates.subscribed, c, half.nextId);
  }

  lemma MapPut(m: map<nat, nat>, c: nat, id: nat)
    ensures m[c := id].Keys == m.Keys + {c}
    ensures c !in m ==> |m[c := id]| == |m| + 1
  {
    var r := m[c := id];
    assert |m| == |m.Keys| && |r| == |r.Keys|;
    assert r.Keys == m.Keys + {c};
  }

  lemma OneMoreOne(m: Manager, cs: set<nat>, half: Manager, c: nat, d: nat)
    requires Shaped(m) && Shaped(half) && Size(m) == Size(half) && c < Size(m) && d < Size(m)
    requires PromotedOne(m, cs, half, d) && m.nextId <= half.nextId && c !in cs
    ensures PromotedOne(m, cs + {c}, Promote(half, c), d)
  {
  }

  lemma OneMoreTimers(m: Manager, cs: set<nat>, half: Manager, c: nat)
    requires Shaped(half) && c < Size(half)
    requires PromotedTimers(m, cs, half) && c !in half.pendingRemoteStates.subscribed
    ensures PromotedTimers(m, cs + {c}, Promote(half, c))
  {
  }

  lemma PromoteOneMore(m: Manager, cs: set<nat>, half: Manager, c: nat)
    requires Promoted(m, cs, half) && c in Available(m) && c < Size(m) && c !in cs
    ensures Promoted(m, cs + {c}, Promote(half, c))
  {
    OneMoreSets(m, cs, half, c);
    OneMoreTimers(m, cs, half, c);
    forall d | 0 <= d < Size(m) ensures PromotedOne(m, cs + {c}, Promote(half, c), d) {
      OneMoreOne(m, cs, half, c, d);
    }
  }

  lemma PromoteNone(m: Manager)
    requires Shaped(m)
    ensures Promoted(m, {}, m)
  {
  }

  /** Different available connections. */
  ghost predicate Candidates(m: Manager, cs: seq<nat>) {
    && AllConnections(m, cs)
    && (forall i :: 0 <= i < |cs| ==> cs[i] in Available(m))
    && (forall i, j :: 0 <= i < j < |cs| ==> cs[i] != cs[j])
  }

  lemma AllButLast(m: Manager, cs: seq<nat>)
    requires Candidates(m, cs) && cs != []
    ensures
      var front, c := cs[..|cs| - 1], cs[|cs| - 1];
      && Candidates(m, front) && c in Available(m) && c < Size(m) && c !in Elements(front)
      && Elements(cs) == Elements(front) + {c}
  {
    var front, c := cs[..|cs| - 1], cs[|cs| - 1];
    assert cs == front + [c];
    ElementsOfAppend(front, c);
  }

  lemma {:induction false} PromoteAllEffect(m: Manager, cs: seq<nat>)
    requires Shaped(m) && Candidates(m, cs)
    ensures Promoted(m, Elements(cs), PromoteAll(m, cs))
    ensures |Elements(cs)| == |cs|
  {
    if cs == [] {
      PromoteNone(m);
      assert Elements(cs) == {};
    } else {
      var front, c := cs[..|cs| - 1], cs[|cs| - 1];
      AllButLast(m, cs);
      PromoteAllEffect(m, front);
      PromoteOneMore(m, Elements(front), PromoteAll(m, front), c);
    }
  }

  lemma ElementsOfAppend(front: seq<nat>, c: nat)
    ensures Elements(front + [c]) == Elements(front) + {c}
  {
  }

  /** However the map is visited: afterwards the quota is met or every connected connection has a pending
      subscribe request, and when the quota was met before nothing was sent. */
  lemma UpdateConservesWork(m: Manager, cs: seq<nat>)
    requires Shaped(m) && Choice(m, cs)
    ensures
      var r := PromoteAll(m, cs);
      var load := |m.remoteStates.subscribed| + |m.pendingRemoteStates.subscribed|;
      var after := |r.remoteStates.subscribed| + |r.pendingRemoteStates.subscribed|;
      && (after >= m.maxSubscribers || r.remoteStates.connected <= r.pendingRemoteStates.subscribed.Keys)
      && (load <= m.maxSubscribers ==> after <= m.maxSubscribers)
      && (load >= m.maxSubscribers ==> r == m)
  {
    UpdateFillsRoom(m, cs);
    if Available(PromoteAll(m, cs)) == {} {
      NoneAvailable(PromoteAll(m, cs));
    }
  }

  lemma NoneAvailable(m: Manager)
    requires Available(m) == {}
    ensures m.remoteStates.connected <= m.pendingRemoteStates.subscribed.Keys
  {
    forall c | c in m.remoteStates.connected ensures c in m.pendingRemoteStates.subscribed.Keys {
      assert c !in Available(m);
    }
  }

  lemma UpdateFillsRoom(m: Manager, cs: seq<nat>)
    requires Shaped(m) && Choice(m, cs)
    ensures
      var r := PromoteAll(m, cs);
      && (Load(r) >= m.maxSubscribers || Available(r) == {})
      && (Load(m) <= m.maxSubscribers ==> Load(r) <= m.maxSubscribers)
      && (Load(m) >= m.maxSubscribers ==> r == m)
  {
    PromoteAllEffect(m, cs);
  }

  // ----- The subscription limit, one report at a time

  /** A subscribed report keeps subscribed plus pending within the limit if and only if it answers a pending
      request, repeats itself, or finds the limit not yet reached. */
  lemma SubscribedReportKeepsLimit(m: Manager, c: nat, cs: seq<nat>)
    requires Shaped(m) && c < Size(m) && ReportChoice(m, c, Subscribed, cs) && Load(m) <= m.maxSubscribers
    requires m.pendingRemoteStates.subscribed.Keys <= m.remoteStates.connected
    requires m.remoteStates.connected !! m.remoteStates.subscribed
    ensures
      Load(OnReport(m, c, Subscribed, cs)) <= m.maxSubscribers
      <==> c in m.pendingRemoteStates.subscribed || c in m.remoteStates.subscribed || Load(m) < m.maxSubscribers
  {
    var t := SetRemoteState(m, c, Subscribed);
    SetSubscribedLoad(m, c);
    if !Unexpected(m, c, Subscribed) {
      UpdateConservesWork(t, cs);
      PromoteAllEffect(t, cs);
    }
  }

  lemma SetSubscribedLoad(m: Manager, c: nat)
    requires Shaped(m) && c < Size(m)
    requires m.pendingRemoteStates.subscribed.Keys <= m.remoteStates.connected
    requires m.remoteStates.connected !! m.remoteStates.subscribed
    ensures
      Load(SetRemoteState(m, c, Subscribed))
      == if c in m.pendingRemoteStates.subscribed || c in m.remoteStates.subscribed then Load(m) else Load(m) + 1
  {
    MapMinus(m.pendingRemoteStates.subscribed, c);
    TakeAndPut(m.remoteStates.subscribed, c);
  }

  lemma TakeAndPut(s: set<nat>, c: nat)
    ensures |s - {c} + {c}| == if c in s then |s| else |s| + 1
  {
    assert s - {c} + {c} == s + {c};
  }

  lemma MapMinus(m: map<nat, nat>, c: nat)
    ensures |m - {c}| == if c in m then |m| - 1 else |m|
  {
    var r := m - {c};
    assert |m| == |m.Keys| && |r| == |r.Keys|;
    assert r.Keys == m.Keys - {c};
  }

  /** Any other report keeps it. */
  lemma OtherReportsKeepLimit(m: Manager, c: nat, s: ConnectionState, cs: seq<nat>)
    requires Shaped(m) && c < Size(m) && ReportChoice(m, c, s, cs) && !s.Subscribed?
    requires Load(m) <= m.maxSubscribers
    ensures Load(OnReport(m, c, s, cs)) <= m.maxSubscribers
  {
    var t := SetRemoteState(m, c, s);
    SetOtherLoad(m, c, s);
    if !Unexpected(m, c, s) {
      UpdateConservesWork(t, cs);
    }
  }

  lemma SetOtherLoad(m: Manager, c: nat, s: ConnectionState)
    requires Shaped(m) && c < Size(m) && !s.Subscribed?
    ensures
      Load(SetRemoteState(m, c, s))
      == Load(m) - (if c in m.remoteStates.subscribed then 1 else 0)
                 - (if c in m.pendingRemoteStates.subscribed then 1 else 0)
  {
    MapMinus(m.pendingRemoteStates.subscribed, c);
  }
}
