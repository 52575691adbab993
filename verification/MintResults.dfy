/** The guarantee of the claim protocol over all runs, and that it needs both of its assumptions. */
module MintResults {
  import opened Mint
  import Safety = MintSafety

  predicate NoProbes(s: State) {
    forall i :: 0 <= i < |s.requests| ==> s.requests[i].pc != UserProbed && s.requests[i].pc != WalletProbed
  }

  /** A lock that ran out was held by nobody. */
  lemma ExpireKeepsInv(cfg: Config, s: State, key: Key)
    requires Inv(cfg, s) && forall i :: 0 <= i < |s.requests| ==> !Holds(s.requests[i], key)
    ensures Inv(cfg, s.(locks := s.locks - {key}))
  {
    var t := s.(locks := s.locks - {key});
    assert LocksOk(t) by {
      forall i | 0 <= i < |t.requests| && HoldsUser(t.requests[i]) ensures UserKeyOf(t.requests[i]) in t.locks {
        assert !Holds(s.requests[i], key);
      }
      forall i | 0 <= i < |t.requests| && HoldsWallet(t.requests[i]) ensures WalletKeyOf(t.requests[i]) in t.locks {
        assert !Holds(s.requests[i], key);
      }
    }
    forall m | m in s.mints && Accounted(cfg, s, m) ensures Accounted(cfg, t, m) {
    }
  }

  lemma StepHasNoProbes(cfg: Config, s: State, step: Step)
    requires cfg.atomic && NoProbes(s) && Enabled(s, step)
    ensures NoProbes(Do(cfg, s, step))
  {
  }

  lemma StepKeepsInv(cfg: Config, s: State, step: Step)
    requires cfg.atomic && Injective(cfg.addressOf) && Inv(cfg, s) && NoProbes(s) && Enabled(s, step)
    ensures Inv(cfg, Do(cfg, s, step))
  {
    match step
    case Arrive(collection, user, wallet) =>
      Safety.ArriveKeepsInv(cfg, s, Request(collection, user, wallet, Start));
    case Go(i, env) =>
      Safety.GoKeepsInv(cfg, s, i, env);
    case Expire(key) =>
      ExpireKeepsInv(cfg, s, key);
    case Track(id, status) =>
      Safety.TrackKeepsInv(cfg, s, id, status);
  }

  lemma {:induction false} RunKeepsInv(cfg: Config, s: State, steps: seq<Step>)
    requires cfg.atomic && Injective(cfg.addressOf) && Inv(cfg, s) && NoProbes(s) && Legal(cfg, s, steps)
    ensures Inv(cfg, Run(cfg, s, steps))
    decreases |steps|
  {
    if steps != [] {
      StepKeepsInv(cfg, s, steps[0]);
      StepHasNoProbes(cfg, s, steps[0]);
      RunKeepsInv(cfg, Do(cfg, s, steps[0]), steps[1..]);
    }
  }

  lemma ReachableInv(cfg: Config, s: State)
    requires cfg.atomic && Injective(cfg.addressOf) && Reachable(cfg, s)
    ensures Inv(cfg, s)
  {
    var steps :| Legal(cfg, Init(), steps) && s == Run(cfg, Init(), steps);
    RunKeepsInv(cfg, Init(), steps);
  }

  /** In every interleaving of any number of requests: at most one live claim per collection and user and
      per collection and address; no two requests past both locks for the same user or the same
      address of a collection; and, as long as every started mint could be recorded, at most one started
      mint per collection and user and per collection and address. */
  lemma MintExclusivity(cfg: Config, s: State)
    requires cfg.atomic && Injective(cfg.addressOf) && Reachable(cfg, s)
    ensures Apart(s.claims)
    ensures forall i, j :: 0 <= i < j < |s.requests| && Inside(s.requests[i]) && Inside(s.requests[j])
                           && s.requests[i].collection == s.requests[j].collection ==>
                             s.requests[i].user != s.requests[j].user
                             && cfg.addressOf(s.requests[i].wallet) != cfg.addressOf(s.requests[j].wallet)
    ensures !s.saveFailed ==>
              forall a, b :: 0 <= a < b < |s.mints| ==>
                !SameUser(s.mints[a], s.mints[b]) && !SameAddress(s.mints[a], s.mints[b])
  {
    ReachableInv(cfg, s);
    forall i, j | 0 <= i < j < |s.requests| && Inside(s.requests[i]) && Inside(s.requests[j])
                  && s.requests[i].collection == s.requests[j].collection
      ensures s.requests[i].user != s.requests[j].user
      ensures cfg.addressOf(s.requests[i].wallet) != cfg.addressOf(s.requests[j].wallet)
    {
      Safety.InsideAreApart(cfg, s, i, j);
    }
    if !s.saveFailed {
      forall a, b | 0 <= a < b < |s.mints|
        ensures !SameUser(s.mints[a], s.mints[b]) && !SameAddress(s.mints[a], s.mints[b])
      {
        assert s.mints[a] in s.mints && s.mints[b] in s.mints;
      }
    }
  }

  // ----- Both assumptions are needed

  lemma {:induction false} ExtendRun(cfg: Config, s: State, steps: seq<Step>, step: Step)
    requires Legal(cfg, s, steps) && Enabled(Run(cfg, s, steps), step)
    ensures Legal(cfg, s, steps + [step]) && Run(cfg, s, steps + [step]) == Do(cfg, Run(cfg, s, steps), step)
    decreases |steps|
  {
    var all := steps + [step];
    if steps == [] {
      assert all == [step] && all[1..] == [];
    } else {
      assert all[1..] == steps[1..] + [step];
      ExtendRun(cfg, Do(cfg, s, steps[0]), steps[1..], step);
    }
  }

  lemma ReachableStep(cfg: Config, s: State, step: Step)
    requires Reachable(cfg, s) && Enabled(s, step)
    ensures Reachable(cfg, Do(cfg, s, step))
  {
    var steps :| Legal(cfg, Init(), steps) && s == Run(cfg, Init(), steps);
    ExtendRun(cfg, Init(), steps, step);
  }

  const FINE: Env := Env(true, true, true, true, true, Accepted, true, true)

  /** A state of two requests of one collection, before anything has been claimed. */
  function Two(locks: set<Key>, users: (string, string), wallets: (string, string), p: Pc, q: Pc): State {
    State(locks, [], {}, [Request("c", users.0, wallets.0, p), Request("c", users.1, wallets.1, q)], [], false)
  }

  lemma GoBoth(cfg: Config, s: State, t: State)
    requires Reachable(cfg, s) && |s.requests| == 2
    requires |RequestStep(cfg, s, 0, FINE).requests| == 2
    requires t == RequestStep(cfg, RequestStep(cfg, s, 0, FINE), 1, FINE)
    ensures Reachable(cfg, t)
  {
    ReachableStep(cfg, s, Go(0, FINE));
    ReachableStep(cfg, RequestStep(cfg, s, 0, FINE), Go(1, FINE));
  }

  lemma TwoArrive(cfg: Config, users: (string, string), wallets: (string, string))
    ensures Reachable(cfg, Two({}, users, wallets, Start, Start))
  {
    var none: seq<Step> := [];
    assert Legal(cfg, Init(), none) && Run(cfg, Init(), none) == Init();
    ReachableStep(cfg, Init(), Arrive("c", users.0, wallets.0));
    ReachableStep(cfg, Do(cfg, Init(), Arrive("c", users.0, wallets.0)), Arrive("c", users.1, wallets.1));
  }

  /** When Lock is two operations, two requests of one user for one wallet both get past both locks. */
  lemma BothPastSplitLocks(cfg: Config)
    requires !cfg.atomic
    ensures Reachable(cfg, Two({UserKey("c", "u"), WalletKey("c", "w")}, ("u", "u"), ("w", "w"), Locked, Locked))
  {
    var u, w := UserKey("c", "u"), WalletKey("c", "w");
    var users, wallets := ("u", "u"), ("w", "w");
    TwoArrive(cfg, users, wallets);
    GoBoth(cfg, Two({}, users, wallets, Start, Start), Two({}, users, wallets, UserProbed, UserProbed));
    GoBoth(cfg, Two({}, users, wallets, UserProbed, UserProbed), Two({u}, users, wallets, UserLocked, UserLocked));
    GoBoth(cfg, Two({u}, users, wallets, UserLocked, UserLocked), Two({u}, users, wallets, WalletProbed, WalletProbed));
    GoBoth(cfg, Two({u}, users, wallets, WalletProbed, WalletProbed), Two({u, w}, users, wallets, Locked, Locked));
  }

  /** Requests of different users for different wallets do not compete for locks. */
  lemma BothPastDifferentLocks(cfg: Config, x: string, y: string)
    requires cfg.atomic && x != y
    ensures Reachable(cfg, Two({UserKey("c", "u"), WalletKey("c", x), UserKey("c", "v"), WalletKey("c", y)},
                               ("u", "v"), (x, y), Locked, Locked))
  {
    var u, v, wx, wy := UserKey("c", "u"), UserKey("c", "v"), WalletKey("c", x), WalletKey("c", y);
    var users, wallets := ("u", "v"), (x, y);
    assert u != v by { assert "u"[0] != "v"[0]; }
    TwoArrive(cfg, users, wallets);
    GoBoth(cfg, Two({}, users, wallets, Start, Start), Two({u, v}, users, wallets, UserLocked, UserLocked));
    GoBoth(cfg, Two({u, v}, users, wallets, UserLocked, UserLocked),
        Two({u, v, wx, wy}, users, wallets, Locked, Locked));
    assert {u, v, wx, wy} == {u, wx, v, wy};
  }

  /** Two requests that are past the locks together both find nothing claimed, both mint and both save. */
  lemma BothClaim(cfg: Config, locks: set<Key>, users: (string, string), wallets: (string, string))
    requires Reachable(cfg, Two(locks, users, wallets, Locked, Locked))
    ensures exists s ::
              && Reachable(cfg, s)
              && s.claims == [Claim("c", users.0, cfg.addressOf(wallets.0), TxPending),
                              Claim("c", users.1, cfg.addressOf(wallets.1), TxPending)]
  {
    var m0, m1 := Claim("c", users.0, cfg.addressOf(wallets.0), TxPending),
                  Claim("c", users.1, cfg.addressOf(wallets.1), TxPending);
    GoBoth(cfg, Two(locks, users, wallets, Locked, Locked), Two(locks, users, wallets, UserClear, UserClear));
    GoBoth(cfg, Two(locks, users, wallets, UserClear, UserClear), Two(locks, users, wallets, WalletClear, WalletClear));
    var s0 := Two(locks, users, wallets, WalletClear, WalletClear);
    var s1 := Two(locks, users, wallets, Initiated(TxPending), Initiated(TxPending)).(mints := [m0, m1]);
    GoBoth(cfg, s0, s1);
    var s2 := Two(locks, users, wallets, Saved(0, TxPending), Saved(1, TxPending)).(mints := [m0, m1],
        claims := [m0, m1]);
    GoBoth(cfg, s1, s2);
  }

  /** No run ever has two live claims for one user or one address of a collection, if and only if taking a
      lock is one step and no two wallets share an L1 address.  The throttle locker reads the key and then
      sets it, so with it the first condition fails. */
  lemma ExclusiveIffAtomicAndInjective(cfg: Config)
    ensures (forall s :: Reachable(cfg, s) ==> Apart(s.claims)) <==> cfg.atomic && Injective(cfg.addressOf)
  {
    if cfg.atomic && Injective(cfg.addressOf) {
      forall s | Reachable(cfg, s) ensures Apart(s.claims) {
        MintExclusivity(cfg, s);
      }
    } else if !cfg.atomic {
      BothPastSplitLocks(cfg);
      BothClaim(cfg, {UserKey("c", "u"), WalletKey("c", "w")}, ("u", "u"), ("w", "w"));
      var s :| Reachable(cfg, s)
               && s.claims == [Claim("c", "u", cfg.addressOf("w"), TxPending),
                   Claim("c", "u", cfg.addressOf("w"), TxPending)];
      assert SameUser(s.claims[0], s.claims[1]);
      assert !Apart(s.claims);
    } else {
      var x, y :| cfg.addressOf(x) == cfg.addressOf(y) && x != y;
      BothPastDifferentLocks(cfg, x, y);
      BothClaim(cfg, {UserKey("c", "u"), WalletKey("c", x), UserKey("c", "v"), WalletKey("c", y)}, ("u", "v"), (x, y));
      var s :| Reachable(cfg, s)
               && s.claims == [Claim("c", "u", cfg.addressOf(x), TxPending),
                   Claim("c", "v", cfg.addressOf(y), TxPending)];
      assert SameAddress(s.claims[0], s.claims[1]);
      assert !Apart(s.claims);
    }
  }

  // ----- Locks left behind

  /** guardMinting does not give the user lock back when the wallet lock is taken: some run ends with every
      request answered and nothing claimed or minted, and yet a user who is turned away with "transaction is
      pending" until the lock expires. */
  lemma LockLeftBehind(cfg: Config)
    requires cfg.atomic
    ensures exists s ::
              && Reachable(cfg, s)
              && s.claims == [] && s.mints == []
              && UserKey("c", "v") in s.locks
              && (forall i :: 0 <= i < |s.requests| ==> s.requests[i].pc.Done?)
  {
    var u, v, w := UserKey("c", "u"), UserKey("c", "v"), WalletKey("c", "w");
    var users, wallets := ("u", "v"), ("w", "w");
    assert u != v by { assert "u"[0] != "v"[0]; }
    TwoArrive(cfg, users, wallets);
    GoBoth(cfg, Two({}, users, wallets, Start, Start), Two({u, v}, users, wallets, UserLocked, UserLocked));
    var s := Two({u, v, w}, users, wallets, Locked, Done(Failed(MintTxPending)));
    GoBoth(cfg, Two({u, v}, users, wallets, UserLocked, UserLocked), s);
    LeaveAlone(cfg, s, Failed(MintTxPending));
    var t := Two({v}, users, wallets, Done(Failed(Other)), Done(Failed(MintTxPending)));
    assert s.locks - {u} - {w} == {v};
    assert Reachable(cfg, t);
  }

  /** The first of two requests fails its check and gives both locks back; the other is done. */
  lemma LeaveAlone(cfg: Config, s: State, result: Result)
    requires Reachable(cfg, s) && |s.requests| == 2 && s.requests[0].pc == Locked && s.requests[1].pc == Done(result)
    ensures
      var r := s.requests[0];
      Reachable(cfg, At(s, 0, Done(Failed(Other))).(locks := s.locks - {UserKeyOf(r)} - {WalletKeyOf(r)}))
  {
    var deny := FINE.(queryOk := false);
    ReachableStep(cfg, s, Go(0, deny));
    var s1 := RequestStep(cfg, s, 0, deny);
    ReachableStep(cfg, s1, Go(0, FINE));
    var s2 := RequestStep(cfg, s1, 0, FINE);
    ReachableStep(cfg, s2, Go(0, FINE));
    var r := s.requests[0];
    assert RequestStep(cfg, s2, 0, FINE)
      == At(s, 0, Done(Failed(Other))).(locks := s.locks - {UserKeyOf(r)} - {WalletKeyOf(r)});
  }

  // ----- Mints without a record

  /** What a request has started is on record, or about to be, after its save step if and only if the save succeeds. */
  lemma MintIsAccountedIff(cfg: Config, s: State, i: nat, env: Env)
    requires cfg.atomic && Injective(cfg.addressOf) && Inv(cfg, s) && i < |s.requests|
    requires s.requests[i].pc == Initiated(TxPending)
    ensures Accounted(cfg, s, Safety.MintOf(cfg, s.requests[i]))
    ensures Accounted(cfg, RequestStep(cfg, s, i, env), Safety.MintOf(cfg, s.requests[i])) <==> env.saveOk
  {
    var t, m := RequestStep(cfg, s, i, env), Safety.MintOf(cfg, s.requests[i]);
    if env.saveOk {
      assert t.claims[|s.claims|] in t.claims;
    } else {
      assert NoneForUser(s.claims, s.requests[i]);
      if j :| 0 <= j < |t.requests| && t.requests[j].pc == Initiated(TxPending)
              && t.requests[j].collection == m.collection && t.requests[j].user == m.user
              && cfg.addressOf(t.requests[j].wallet) == m.address {
        Safety.InsideAreApart(cfg, s, i, j);
      }
    }
  }

  /** A single request and what it and its predecessors have started. */
  function One(pc: Pc, locks: set<Key>, mints: seq<Claim>, saveFailed: bool, before: seq<Request>): State {
    State(locks, [], {}, before + [Request("c", "u", "w", pc)], mints, saveFailed)
  }

  lemma GoLast(cfg: Config, s: State, env: Env, t: State)
    requires Reachable(cfg, s) && s.requests != [] && t == RequestStep(cfg, s, |s.requests| - 1, env)
    ensures Reachable(cfg, t)
  {
    ReachableStep(cfg, s, Go(|s.requests| - 1, env));
  }

  /** A request, from its start with no lock taken, mints and cannot save its record. */
  lemma MintsWithoutRecord(cfg: Config, mints: seq<Claim>, saveFailed: bool, before: seq<Request>)
    requires cfg.atomic && Reachable(cfg, One(Start, {}, mints, saveFailed, before))
    ensures
      var m := Claim("c", "u", cfg.addressOf("w"), TxPending);
      Reachable(cfg, One(Done(Failed(Other)), {}, mints + [m], true, before))
  {
    var u, w := UserKey("c", "u"), WalletKey("c", "w");
    var more := mints + [Claim("c", "u", cfg.addressOf("w"), TxPending)];
    GoLast(cfg, One(Start, {}, mints, saveFailed, before), FINE, One(UserLocked, {u}, mints, saveFailed, before));
    GoLast(cfg, One(UserLocked, {u}, mints, saveFailed, before), FINE, One(Locked, {u, w}, mints, saveFailed, before));
    GoLast(cfg, One(Locked, {u, w}, mints, saveFailed, before), FINE,
           One(UserClear, {u, w}, mints, saveFailed, before));
    GoLast(cfg, One(UserClear, {u, w}, mints, saveFailed, before), FINE,
           One(WalletClear, {u, w}, mints, saveFailed, before));
    GoLast(cfg, One(WalletClear, {u, w}, mints, saveFailed, before), FINE,
           One(Initiated(TxPending), {u, w}, more, saveFailed, before));
    UnsavedLeaves(cfg, more, saveFailed, before);
  }

  lemma UnsavedLeaves(cfg: Config, mints: seq<Claim>, saveFailed: bool, before: seq<Request>)
    requires
      Reachable(cfg, One(Initiated(TxPending), {UserKey("c", "u"), WalletKey("c", "w")}, mints, saveFailed, before))
    ensures Reachable(cfg, One(Done(Failed(Other)), {}, mints, true, before))
  {
    var u, w := UserKey("c", "u"), WalletKey("c", "w");
    var failed: Result := Failed(Other);
    GoLast(cfg, One(Initiated(TxPending), {u, w}, mints, saveFailed, before), FINE.(saveOk := false),
           One(Releasing(failed), {u, w}, mints, true, before));
    assert {u, w} - {u} == {w};
    GoLast(cfg, One(Releasing(failed), {u, w}, mints, true, before), FINE,
           One(HalfReleased(failed), {w}, mints, true, before));
    GoLast(cfg, One(HalfReleased(failed), {w}, mints, true, before), FINE, One(Done(failed), {}, mints, true, before));
  }

  /** The first of them. */
  lemma FirstUnsavedMint(cfg: Config)
    requires cfg.atomic
    ensures
      Reachable(cfg, One(Done(Failed(Other)), {}, [Claim("c", "u", cfg.addressOf("w"), TxPending)], true, []))
  {
    var none: seq<Step> := [];
    assert Legal(cfg, Init(), none) && Run(cfg, Init(), none) == Init();
    ReachableStep(cfg, Init(), Arrive("c", "u", "w"));
    assert Do(cfg, Init(), Arrive("c", "u", "w")) == One(Start, {}, [], false, []);
    MintsWithoutRecord(cfg, [], false, []);
  }

  /** When a record cannot be saved the request reports the error and gives its locks back, and nothing keeps the same
      user from minting again: two mints for one user and one address, and no claim. */
  lemma UnsavedMintIsRepeated(cfg: Config)
    requires cfg.atomic
    ensures exists s ::
              && Reachable(cfg, s) && s.claims == [] && |s.mints| == 2
              && SameUser(s.mints[0], s.mints[1]) && SameAddress(s.mints[0], s.mints[1])
  {
    FirstUnsavedMint(cfg);
    var m := Claim("c", "u", cfg.addressOf("w"), TxPending);
    var s := One(Done(Failed(Other)), {}, [m], true, []);
    ReachableStep(cfg, s, Arrive("c", "u", "w"));
    assert Do(cfg, s, Arrive("c", "u", "w")) == One(Start, {}, [m], true, s.requests);
    MintsWithoutRecord(cfg, [m], true, s.requests);
    assert [m] + [m] == [m, m];
  }
}
