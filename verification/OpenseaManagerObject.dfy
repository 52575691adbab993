/** `connectionManager` of opensea-streamer/main.go as the object it is: handlers that update two maps and
    send on channels.  Every handler refines the function for its message in OpenseaManager. */
module OpenseaManagerObject {
  import opened OpenseaManager

  /** `cs` are the connections promoted so far and `todo` those the loop has not visited. */
  ghost predicate Visited(m: Manager, cs: seq<nat>, todo: set<nat>) {
    && Shaped(m)
    && (forall i :: 0 <= i < |cs| ==> cs[i] in Available(m) && cs[i] < Size(m) && cs[i] !in todo)
    && (forall i, j :: 0 <= i < j < |cs| ==> cs[i] != cs[j])
    && (forall c :: c in Available(m) && c !in todo ==> c in Elements(cs))
  }

  lemma VisitAvailable(m: Manager, cs: seq<nat>, todo: set<nat>, c: nat)
    requires Visited(m, cs, todo) && c in todo && c in Available(m) && c < Size(m)
    ensures Visited(m, cs + [c], todo - {c})
  {
    ElementsOfAppend(cs, c);
  }

  lemma VisitPending(m: Manager, cs: seq<nat>, todo: set<nat>, c: nat)
    requires Visited(m, cs, todo) && c !in Available(m)
    ensures Visited(m, cs, todo - {c})
  {
  }

  lemma PromoteAllSnoc(m: Manager, cs: seq<nat>, c: nat)
    requires Shaped(m) && AllConnections(m, cs) && c < Size(m)
    ensures PromoteAll(m, cs + [c]) == Promote(PromoteAll(m, cs), c)
  {
    assert (cs + [c])[..|cs|] == cs;
  }

  /** Visiting `c`: it is still to be promoted exactly when it had no pending request to begin with. */
  lemma VisitOne(m: Manager, cs: seq<nat>, todo: set<nat>, c: nat)
    requires Visited(m, cs, todo) && c in todo && c in m.remoteStates.connected && c < Size(m)
    ensures c in PromoteAll(m, cs).pendingRemoteStates.subscribed <==> c !in Available(m)
    ensures c in Available(m) ==>
              Visited(m, cs + [c], todo - {c}) && PromoteAll(m, cs + [c]) == Promote(PromoteAll(m, cs), c)
    ensures c !in Available(m) ==> Visited(m, cs, todo - {c})
  {
    PromoteAllEffect(m, cs);
    assert PromotedOne(m, Elements(cs), PromoteAll(m, cs), c);
    PromoteAllSnoc(m, cs, c);
    if c in Available(m) {
      VisitAvailable(m, cs, todo, c);
    } else {
      VisitPending(m, cs, todo, c);
    }
  }

  lemma VisitedAll(m: Manager, cs: seq<nat>, todo: set<nat>)
    requires Visited(m, cs, todo) && Load(m) + |cs| <= m.maxSubscribers
    requires todo == {} || Load(m) + |cs| == m.maxSubscribers
    ensures Choice(m, cs)
  {
    if todo == {} {
      assert forall c :: c in Available(m) ==> c in Elements(cs);
    }
  }

  const STATES: set<ConnectionState> := {Connecting, Connected, Subscribed}

  /** The entries of a map from states, as a record. */
  function AsRecord<X>(m: map<ConnectionState, X>): PerState<X>
    requires m.Keys == STATES
  {
    PerState(m[Connecting], m[Connected], m[Subscribed])
  }

  class ConnectionManager {
    const maxSubscribers: nat
    var remoteStates: map<ConnectionState, set<nat>>
    var pendingRemoteStates: map<ConnectionState, map<nat, nat>>
    var connections: seq<seq<ConnectionState>>
    var nextId: nat
    ghost var timers: set<(nat, nat)>
    ghost var sent: seq<seq<Request>>
    ghost var last: seq<ConnectionState>
    ghost var strays: set<nat>

    ghost predicate Keyed()
      reads this
    {
      remoteStates.Keys == STATES && pendingRemoteStates.Keys == STATES
    }

    ghost function Abs(): Manager
      requires Keyed()
      reads this
    {
      Manager(maxSubscribers, AsRecord(remoteStates), AsRecord(pendingRemoteStates), connections, timers, nextId, sent,
              last, strays)
    }

    ghost predicate Valid()
      reads this
    {
      && Keyed()
      && Shaped(Abs())
      && (forall c :: c in remoteStates[Connected] ==> c < |connections|)
    }

    constructor (numConnections: nat, maxSubscribers: nat)
      ensures Valid() && Abs() == New(numConnections, maxSubscribers)
    {
      this.maxSubscribers := maxSubscribers;
      remoteStates := map[Connecting := Below(numConnections), Connected := {}, Subscribed := {}];
      pendingRemoteStates := map[Connecting := map[], Connected := map[], Subscribed := map[]];
      connections := seq(numConnections, _ => []);
      nextId, timers, strays := 0, {}, {};
      sent := seq(numConnections, _ => []);
      last := seq(numConnections, _ => Connecting);
    }

    /** The first loop of setRemoteState: the connection is taken out of every set. */
    method ForgetState(c: nat)
      requires Keyed()
      modifies this`remoteStates
      ensures Keyed()
      ensures forall s :: s in STATES ==> remoteStates[s] == old(remoteStates)[s] - {c}
    {
      ghost var was := remoteStates;
      var todo := STATES;
      while todo != {}
        invariant todo <= STATES && Keyed()
        invariant forall s :: s in todo ==> remoteStates[s] == was[s]
        invariant forall s :: s in STATES - todo ==> remoteStates[s] == was[s] - {c}
      {
        var s :| s in todo;
        remoteStates := remoteStates[s := remoteStates[s] - {c}];
        todo := todo - {s};
      }
    }

    /** The second loop: its requests are no longer pending. */
    method ForgetPending(c: nat)
      requires Keyed()
      modifies this`pendingRemoteStates
      ensures Keyed()
      ensures forall s :: s in STATES ==> pendingRemoteStates[s] == old(pendingRemoteStates)[s] - {c}
    {
      ghost var was := pendingRemoteStates;
      var todo := STATES;
      while todo != {}
        invariant todo <= STATES && Keyed()
        invariant forall s :: s in todo ==> pendingRemoteStates[s] == was[s]
        invariant forall s :: s in STATES - todo ==> pendingRemoteStates[s] == was[s] - {c}
      {
        var s :| s in todo;
        pendingRemoteStates := pendingRemoteStates[s := pendingRemoteStates[s] - {c}];
        todo := todo - {s};
      }
    }

    /** The third part: the connection enters the set of its new state. */
    method EnterState(c: nat, s: ConnectionState)
      requires Keyed()
      modifies this`remoteStates
      ensures Keyed()
      ensures AsRecord(remoteStates) == AsRecord(old(remoteStates)).Set(s, old(remoteStates)[s] + {c})
      ensures remoteStates[s] == old(remoteStates)[s] + {c}
      ensures forall t :: t in STATES && t != s ==> remoteStates[t] == old(remoteStates)[t]
    {
      remoteStates := remoteStates[s := remoteStates[s] + {c}];
    }

    method MoveState(c: nat, s: ConnectionState)
      requires Keyed()
      modifies this`remoteStates, this`pendingRemoteStates
      ensures Keyed()
      ensures
        var r := AsRecord(old(remoteStates));
        var cleared := PerState(r.connecting - {c}, r.connected - {c}, r.subscribed - {c});
        AsRecord(remoteStates) == cleared.Set(s, cleared.Get(s) + {c})
      ensures
        var p := AsRecord(old(pendingRemoteStates));
        AsRecord(pendingRemoteStates) == PerState(p.connecting - {c}, p.connected - {c}, p.subscribed - {c})
      ensures forall t :: t in STATES ==> (c in remoteStates[t] <==> t == s) && c !in pendingRemoteStates[t]
      ensures forall t, d :: t in STATES && d != c ==>
                && (d in remoteStates[t] <==> d in old(remoteStates)[t])
                && (d in pendingRemoteStates[t] <==> d in old(pendingRemoteStates)[t])
                && (d in pendingRemoteStates[t] ==> pendingRemoteStates[t][d] == old(pendingRemoteStates)[t][d])
    {
      ForgetState(c);
      ForgetPending(c);
      EnterState(c, s);
    }

    /** The connection is in the set of its new state and in no other, and none of its requests is pending; the other
        connections keep their states and requests. */
    method SetRemoteState(c: nat, s: ConnectionState)
      requires Valid() && c < |connections|
      modifies this
      ensures Valid() && Abs() == OpenseaManager.SetRemoteState(old(Abs()), c, s)
      ensures forall t :: t in STATES ==> (c in remoteStates[t] <==> t == s) && c !in pendingRemoteStates[t]
      ensures forall t, d :: t in STATES && d != c ==>
                && (d in remoteStates[t] <==> d in old(remoteStates)[t])
                && (d in pendingRemoteStates[t] <==> d in old(pendingRemoteStates)[t])
                && (d in pendingRemoteStates[t] ==> pendingRemoteStates[t][d] == old(pendingRemoteStates)[t][d])
      ensures connections == old(connections) && nextId == old(nextId)
    {
      ghost var wasPending, wasSubscribed := c in pendingRemoteStates[Subscribed], c in remoteStates[Subscribed];
      MoveState(c, s);
      sent, last := sent[c := []], last[c := s];
      strays := if s.Subscribed? && !wasPending && !wasSubscribed then strays + {c}
                else if s.Subscribed? && wasSubscribed then strays
                else strays - {c};
    }

    /** The request is behind those already sent to the connection, and the pending one for that state under an ID that
        was not given out before; nothing else changes. */
    method RequestStateChange(c: nat, s: ConnectionState, ghost cause: Cause) returns (id: nat)
      requires Valid() && c < |connections|
      modifies this
      ensures Valid() && id == old(nextId) && nextId == id + 1
      ensures Abs() == OpenseaManager.RequestStateChange(old(Abs()), c, s, cause)
      ensures |connections| == |old(connections)| && connections[c] == old(connections)[c] + [s]
      ensures forall d :: 0 <= d < |connections| && d != c ==> connections[d] == old(connections)[d]
      ensures c in pendingRemoteStates[s] && pendingRemoteStates[s][c] == id
      ensures forall t, d :: t in STATES && !(t == s && d == c) ==>
                && (d in pendingRemoteStates[t] <==> d in old(pendingRemoteStates)[t])
                && (d in pendingRemoteStates[t] ==> pendingRemoteStates[t][d] == old(pendingRemoteStates)[t][d])
      ensures remoteStates == old(remoteStates)
    {
      connections := connections[c := connections[c] + [s]];
      id := nextId;
      nextId := nextId + 1;
      var pending: map<nat, nat> := pendingRemoteStates[s][c := id];
      pendingRemoteStates := pendingRemoteStates[s := pending];
      sent := sent[c := sent[c] + [Request(s, id, cause)]];
    }

    /** A subscribe request and the goroutine that will time it out. */
    method PromoteConnection(c: nat)
      requires Valid() && c < |connections|
      modifies this
      ensures Valid() && Abs() == Promote(old(Abs()), c)
    {
      var id := RequestStateChange(c, Subscribed, Promotion);
      timers := timers + {(c, id)};
    }

    /** The map of connected connections is visited in an arbitrary order. */
    method UpdateSubscribers()
      requires Valid()
      modifies this
      ensures Valid() && Updated(old(Abs()), Abs())
    {
      ghost var m := Abs();
      ghost var cs: seq<nat> := [];
      var numRequired := maxSubscribers - (|remoteStates[Subscribed]| + |pendingRemoteStates[Subscribed]|);
      if numRequired <= 0 {
        assert Choice(m, cs) && Abs() == PromoteAll(m, cs);
        return;
      }
      var todo := remoteStates[Connected];
      while todo != {} && numRequired != 0
        invariant Valid() && todo <= m.remoteStates.connected
        invariant numRequired == maxSubscribers - Load(m) - |cs|
        invariant Visited(m, cs, todo) && numRequired >= 0
        invariant Abs() == PromoteAll(m, cs)
        decreases todo
      {
        var c :| c in todo;
        assert c < Size(m);
        VisitOne(m, cs, todo, c);
        todo := todo - {c};
        if c !in pendingRemoteStates[Subscribed] {
          cs := cs + [c];
          PromoteConnection(c);
          numRequired := numRequired - 1;
        }
      }
      VisitedAll(m, cs, todo);
    }

    method OnConnecting(c: nat)
      requires Valid() && c < |connections|
      modifies this
      ensures Valid() && Reported(old(Abs()), c, Connecting, Abs())
    {
      SetRemoteState(c, Connecting);
      UpdateSubscribers();
      ExpectedReport(old(Abs()), c, Connecting, Abs());
    }

    method OnConnected(c: nat)
      requires Valid() && c < |connections|
      modifies this
      ensures Valid() && Reported(old(Abs()), c, Connected, Abs())
      ensures c !in old(remoteStates)[Connecting] ==>
                connections == old(connections)[c := old(connections)[c] + [Connecting]]
    {
      var wasConnecting := c in remoteStates[Connecting];
      SetRemoteState(c, Connected);
      if !wasConnecting {
        var _ := RequestStateChange(c, Connecting, UnexpectedReport);
        UnexpectedReported(old(Abs()), c, Connected);
        return;
      }
      UpdateSubscribers();
      ExpectedReport(old(Abs()), c, Connected, Abs());
    }

    method OnSubscribed(c: nat)
      requires Valid() && c < |connections|
      modifies this
      ensures Valid() && Reported(old(Abs()), c, Subscribed, Abs())
      ensures c !in old(remoteStates)[Connected] ==>
                connections == old(connections)[c := old(connections)[c] + [Connecting]]
    {
      var wasConnected := c in remoteStates[Connected];
      SetRemoteState(c, Subscribed);
      if !wasConnected {
        var _ := RequestStateChange(c, Connecting, UnexpectedReport);
        UnexpectedReported(old(Abs()), c, Subscribed);
        return;
      }
      UpdateSubscribers();
      ExpectedReport(old(Abs()), c, Subscribed, Abs());
    }

    method OnTimeout(c: nat, refId: nat)
      requires Valid() && c < |connections|
      modifies this
      ensures Valid() && Abs() == OpenseaManager.OnTimeout(old(Abs()), c, refId)
      ensures
        var due := c in old(pendingRemoteStates)[Subscribed] && old(pendingRemoteStates)[Subscribed][c] == refId;
        && |connections| == |old(connections)|
        && connections[c] == old(connections)[c] + (if due then [Connecting] else [])
        && (forall d :: 0 <= d < |connections| && d != c ==> connections[d] == old(connections)[d])
      ensures remoteStates == old(remoteStates) && pendingRemoteStates[Subscribed]
                == old(pendingRemoteStates)[Subscribed]
    {
      timers := timers - {(c, refId)};
      if c in pendingRemoteStates[Subscribed] && pendingRemoteStates[Subscribed][c] == refId {
        var _ := RequestStateChange(c, Connecting, Timeout);
      }
    }

    /** `pick` is the random choice among the connected connections. */
    method DisconnectRandomConnection(pick: nat)
      requires Valid() && (remoteStates[Connected] != {} ==> pick in remoteStates[Connected])
      modifies this
      ensures Valid()
      ensures old(remoteStates)[Connected] == {} ==> Abs() == old(Abs())
      ensures old(remoteStates)[Connected] != {} ==> Abs() == OnRandomDisconnect(old(Abs()), pick)
      ensures pick in old(remoteStates)[Connected] ==>
                && pick < |old(connections)|
                && connections == old(connections)[pick := old(connections)[pick] + [Connecting]]
      ensures old(remoteStates)[Connected] == {} ==> connections == old(connections)
    {
      if remoteStates[Connected] == {} {
        return;
      }
      var _ := RequestStateChange(pick, Connecting, RandomDisconnect);
    }
  }
}
