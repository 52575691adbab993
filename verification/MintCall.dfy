/** One call of ClaimHighlightMint (publicapi/mint.go) that runs by itself: what it mints, saves, answers and leaves
    locked. */
module MintCall {
  import opened Options
  import opened Mint
  import Results = MintResults

  // ----- A whole call as a run of one request

  /** The place of a call in the order in which ClaimHighlightMint makes its calls. */
  function Stage(pc: Pc): nat {
    match pc
    case Start => 0
    case UserProbed => 1
    case UserLocked => 2
    case WalletProbed => 3
    case Locked => 4
    case UserClear => 5
    case WalletClear => 6
    case Initiated(_) => 7
    case Saved(_, _) => 8
    case Releasing(_) => 9
    case HalfReleased(_) => 10
    case Done(_) => 11
  }

  /** Request `i` runs to its end with nothing in between; `env(k)` is what its surroundings answer at stage `k`. */
  function Finish(cfg: Config, s: State, i: nat, env: nat -> Env): State
    requires i < |s.requests|
    decreases 11 - Stage(s.requests[i].pc)
  {
    if s.requests[i].pc.Done? then s
    else Finish(cfg, RequestStep(cfg, s, i, env(Stage(s.requests[i].pc))), i, env)
  }

  ghost predicate Advances(s: State, i: nat, t: State) {
    && i < |s.requests| == |t.requests|
    && Stage(s.requests[i].pc) < Stage(t.requests[i].pc)
  }

  lemma LeaveAdvances(s: State, i: nat, result: Result)
    requires i < |s.requests| && Stage(s.requests[i].pc) < 9
    ensures Advances(s, i, Leave(s, i, result))
  {
  }

  lemma LockAdvances(cfg: Config, s: State, i: nat, env: Env)
    requires i < |s.requests| && Stage(s.requests[i].pc) < 4
    ensures Advances(s, i, RequestStep(cfg, s, i, env))
  {
  }

  lemma CheckAdvances(cfg: Config, s: State, i: nat, env: Env)
    requires i < |s.requests| && s.requests[i].pc in {Locked, UserClear}
    ensures Advances(s, i, RequestStep(cfg, s, i, env))
  {
    var user := AlreadyClaimedByUser(s.claims, s.requests[i]);
    var address := AlreadyClaimedByAddress(s.claims, s.requests[i], cfg.addressOf(s.requests[i].wallet));
    LeaveAdvances(s, i, Failed(Other));
    LeaveAdvances(s, i, Failed(NotOwned));
    LeaveAdvances(s, i, user);
    LeaveAdvances(s, i, address);
  }

  lemma MintAdvances(cfg: Config, s: State, i: nat, env: Env)
    requires i < |s.requests| && 6 <= Stage(s.requests[i].pc) < 11
    ensures Advances(s, i, RequestStep(cfg, s, i, env))
  {
  }

  lemma StepAdvances(cfg: Config, s: State, i: nat, env: Env)
    requires i < |s.requests| && !s.requests[i].pc.Done?
    ensures Advances(s, i, RequestStep(cfg, s, i, env))
  {
    if Stage(s.requests[i].pc) < 4 {
      LockAdvances(cfg, s, i, env);
    } else if Stage(s.requests[i].pc) < 6 {
      CheckAdvances(cfg, s, i, env);
    } else {
      MintAdvances(cfg, s, i, env);
    }
  }

  /** Nothing but the request's own steps happens, so a call keeps everything that holds of all runs. */
  lemma {:induction false} FinishIsReachable(cfg: Config, s: State, i: nat, env: nat -> Env)
    requires Reachable(cfg, s) && i < |s.requests|
    ensures Reachable(cfg, Finish(cfg, s, i, env)) && |Finish(cfg, s, i, env).requests| == |s.requests|
    decreases 11 - Stage(s.requests[i].pc)
  {
    if !s.requests[i].pc.Done? {
      var answer := env(Stage(s.requests[i].pc));
      var next := RequestStep(cfg, s, i, answer);
      Results.ReachableStep(cfg, s, Go(i, answer));
      assert next == Do(cfg, s, Go(i, answer));
      StepAdvances(cfg, s, i, answer);
      FinishIsReachable(cfg, next, i, env);
      assert Finish(cfg, s, i, env) == Finish(cfg, next, i, env);
    }
  }

  // ----- What one undisturbed call does

  lemma {:induction false} MintsAfterInitiated(cfg: Config, s: State, env: nat -> Env)
    requires |s.requests| == 1 && 7 <= Stage(s.requests[0].pc)
    ensures Finish(cfg, s, 0, env).mints == s.mints
    decreases 11 - Stage(s.requests[0].pc)
  {
    var t := RequestStep(cfg, s, 0, env(Stage(s.requests[0].pc)));
    if !s.requests[0].pc.Done? {
      MintsAfterInitiated(cfg, t, env);
      assert Finish(cfg, s, 0, env) == Finish(cfg, t, 0, env);
    }
  }

  lemma MintsFromWalletClear(cfg: Config, s: State, env: nat -> Env)
    requires |s.requests| == 1 && s.requests[0].pc == WalletClear
    ensures
      var r := s.requests[0];
      Finish(cfg, s, 0, env).mints ==
      if env(6).rateOk && env(6).reply == Accepted
      then s.mints + [Claim(r.collection, r.user, cfg.addressOf(r.wallet), TxPending)]
      else s.mints
  {
    var t := RequestStep(cfg, s, 0, env(6));
    MintsAfterInitiated(cfg, t, env);
    assert Finish(cfg, s, 0, env) == Finish(cfg, t, 0, env);
  }

  lemma MintsFromUserClear(cfg: Config, s: State, env: nat -> Env)
    requires |s.requests| == 1 && s.requests[0].pc == UserClear
    ensures
      var r := s.requests[0];
      Finish(cfg, s, 0, env).mints ==
      if && env(5).queryOk && env(5).owns && NoneForAddress(s.claims, r, cfg.addressOf(r.wallet))
         && env(6).rateOk && env(6).reply == Accepted
      then s.mints + [Claim(r.collection, r.user, cfg.addressOf(r.wallet), TxPending)]
      else s.mints
  {
    var r := s.requests[0];
    var t := RequestStep(cfg, s, 0, env(5));
    assert Finish(cfg, s, 0, env) == Finish(cfg, t, 0, env);
    assert AlreadyClaimedByAddress(s.claims, r, cfg.addressOf(r.wallet)).Failed?
      <==> !NoneForAddress(s.claims, r, cfg.addressOf(r.wallet));
    if t.requests[0].pc.Releasing? {
      MintsAfterInitiated(cfg, t, env);
    } else {
      MintsFromWalletClear(cfg, t, env);
    }
  }

  lemma MintsFromLocked(cfg: Config, s: State, env: nat -> Env)
    requires |s.requests| == 1 && s.requests[0].pc == Locked
    ensures
      var r := s.requests[0];
      Finish(cfg, s, 0, env).mints ==
      if && env(4).queryOk && NoneForUser(s.claims, r)
         && env(5).queryOk && env(5).owns && NoneForAddress(s.claims, r, cfg.addressOf(r.wallet))
         && env(6).rateOk && env(6).reply == Accepted
      then s.mints + [Claim(r.collection, r.user, cfg.addressOf(r.wallet), TxPending)]
      else s.mints
  {
    var t := RequestStep(cfg, s, 0, env(4));
    assert Finish(cfg, s, 0, env) == Finish(cfg, t, 0, env);
    assert AlreadyClaimedByUser(s.claims, s.requests[0]).Failed? <==> !NoneForUser(s.claims, s.requests[0]);
    if t.requests[0].pc.Releasing? {
      MintsAfterInitiated(cfg, t, env);
    } else {
      MintsFromUserClear(cfg, t, env);
    }
  }

  lemma MintsFromStart(cfg: Config, s: State, env: nat -> Env)
    requires cfg.atomic && |s.requests| == 1 && s.requests[0].pc == Start
    ensures
      var r, t := s.requests[0], Finish(cfg, s, 0, env);
      var free := UserKeyOf(r) !in s.locks && WalletKeyOf(r) !in s.locks;
      var unclaimed := NoneForUser(s.claims, r) && NoneForAddress(s.claims, r, cfg.addressOf(r.wallet));
      var answered := env(0).lockOk && env(2).lockOk && env(4).queryOk && env(5).queryOk && env(5).owns
          && env(6).rateOk;
      if free && unclaimed && answered && env(6).reply == Accepted
      then t.mints == s.mints + [Claim(r.collection, r.user, cfg.addressOf(r.wallet), TxPending)]
      else t.mints == s.mints
  {
    var t := RequestStep(cfg, s, 0, env(0));
    assert Finish(cfg, s, 0, env) == Finish(cfg, t, 0, env);
    if t.requests[0].pc == UserLocked {
      var v := RequestStep(cfg, t, 0, env(2));
      assert Finish(cfg, t, 0, env) == Finish(cfg, v, 0, env);
      if v.requests[0].pc == Locked {
        MintsFromLocked(cfg, v, env);
      }
    }
  }

  // ----- Locks after a call

  /** From the guarded section every way leads to the release, with both locks still taken. */
  lemma {:induction false} ReachesRelease(cfg: Config, s: State, env: nat -> Env) returns (t: State)
    requires |s.requests| == 1 && 4 <= Stage(s.requests[0].pc) <= 9
    ensures |t.requests| == 1 && t.requests[0].pc.Releasing? && t.locks == s.locks
    ensures t.requests[0] == s.requests[0].(pc := t.requests[0].pc)
    ensures Finish(cfg, s, 0, env) == Finish(cfg, t, 0, env)
    decreases 9 - Stage(s.requests[0].pc)
  {
    t := s;
    if !s.requests[0].pc.Releasing? {
      var answer := env(Stage(s.requests[0].pc));
      var u := RequestStep(cfg, s, 0, answer);
      StepAdvances(cfg, s, 0, answer);
      StaysLocked(cfg, s, answer);
      assert Finish(cfg, s, 0, env) == Finish(cfg, u, 0, env);
      t := ReachesRelease(cfg, u, env);
    }
  }

  lemma StaysLocked(cfg: Config, s: State, answer: Env)
    requires |s.requests| == 1 && 4 <= Stage(s.requests[0].pc) < 9
    ensures
      var t := RequestStep(cfg, s, 0, answer);
      && |t.requests| == 1 && t.locks == s.locks && Stage(t.requests[0].pc) <= 9
      && t.requests[0] == s.requests[0].(pc := t.requests[0].pc)
  {
    match s.requests[0].pc
    case Locked =>
    case UserClear =>
    case WalletClear =>
    case Initiated(_) =>
    case Saved(_, _) =>
  }

  lemma ReleasedFromLocked(cfg: Config, s: State, env: nat -> Env)
    requires |s.requests| == 1 && s.requests[0].pc == Locked
    ensures
      var r := s.requests[0];
      Finish(cfg, s, 0, env).locks
      == s.locks - (if env(9).unlockOk then {UserKeyOf(r)} else {})
                 - (if env(10).unlockOk then {WalletKeyOf(r)} else {})
  {
    var t := ReachesRelease(cfg, s, env);
    var u := RequestStep(cfg, t, 0, env(9));
    assert Finish(cfg, t, 0, env) == Finish(cfg, u, 0, env);
    var v := RequestStep(cfg, u, 0, env(10));
    assert Finish(cfg, u, 0, env) == Finish(cfg, v, 0, env) == v;
  }

  /** An undisturbed call that found the user's lock free leaves it taken if and only if it took it and did not get the
      wallet's (the wallet was locked, or its lock could not be asked for) or could not give it back. */
  lemma UserLockLeftIff(cfg: Config, s: State, env: nat -> Env)
    requires cfg.atomic && |s.requests| == 1 && s.requests[0].pc == Start && UserKeyOf(s.requests[0]) !in s.locks
    ensures
      var r := s.requests[0];
      UserKeyOf(r) in Finish(cfg, s, 0, env).locks
      <==> env(0).lockOk && (!env(2).lockOk || WalletKeyOf(r) in s.locks || !env(9).unlockOk)
  {
    var t := RequestStep(cfg, s, 0, env(0));
    assert Finish(cfg, s, 0, env) == Finish(cfg, t, 0, env);
    if t.requests[0].pc == UserLocked {
      var v := RequestStep(cfg, t, 0, env(2));
      assert Finish(cfg, t, 0, env) == Finish(cfg, v, 0, env);
      if v.requests[0].pc == Locked {
        ReleasedFromLocked(cfg, v, env);
      }
    }
  }

  /** One that found both locks free leaves the wallet's taken if and only if it took both and could not give this one
      back. */
  lemma WalletLockLeftIff(cfg: Config, s: State, env: nat -> Env)
    requires cfg.atomic && |s.requests| == 1 && s.requests[0].pc == Start
    requires UserKeyOf(s.requests[0]) !in s.locks && WalletKeyOf(s.requests[0]) !in s.locks
    ensures
      WalletKeyOf(s.requests[0]) in Finish(cfg, s, 0, env).locks
      <==> env(0).lockOk && env(2).lockOk && !env(10).unlockOk
  {
    var t := RequestStep(cfg, s, 0, env(0));
    assert Finish(cfg, s, 0, env) == Finish(cfg, t, 0, env);
    if t.requests[0].pc == UserLocked {
      var v := RequestStep(cfg, t, 0, env(2));
      assert Finish(cfg, t, 0, env) == Finish(cfg, v, 0, env);
      if v.requests[0].pc == Locked {
        ReleasedFromLocked(cfg, v, env);
      }
    }
  }

  // ----- What one undisturbed call answers

  /** What a call says to its caller, and the status of the record that it saves, if it saves one. */
  datatype Answer = Answer(result: Result, record: Option<Status>)

  ghost predicate Ends(cfg: Config, s: State, env: nat -> Env, a: Answer)
    requires |s.requests| == 1
  {
    var r, t := s.requests[0], Finish(cfg, s, 0, env);
    && t.requests == [r.(pc := Done(a.result))]
    && t.claims == s.claims + (
         if a.record.Some? then [Claim(r.collection, r.user, cfg.addressOf(r.wallet), a.record.value)] else [])
    && t.tasks == s.tasks + (if a.result.Claimed? then {a.result.id} else {})
  }

  /** `id` is the number of the next record. */
  function SaveAnswer(id: nat, status: Status, env: nat -> Env): Answer {
    if !env(7).saveOk then Answer(Failed(Other), None)
    else if status == TxFailed || !env(8).taskOk then Answer(Failed(Other), Some(status))
    else Answer(Claimed(id), Some(status))
  }

  function MintAnswer(id: nat, env: nat -> Env): Answer {
    if !env(6).rateOk then Answer(Failed(Other), None)
    else
      match env(6).reply
      case NotInitiated(error) => Answer(Failed(error), None)
      case Reverted => SaveAnswer(id, TxFailed, env)
      case Accepted => SaveAnswer(id, TxPending, env)
  }

  predicate OfUser(c: Claim, r: Request) {
    c.collection == r.collection && c.user == r.user
  }

  predicate OfAddress(c: Claim, r: Request, address: string) {
    c.collection == r.collection && c.address == address
  }

  predicate UserHas(claims: seq<Claim>, r: Request, statuses: set<Status>) {
    exists c :: c in claims && OfUser(c, r) && c.status in statuses
  }

  predicate AddressHas(claims: seq<Claim>, r: Request, address: string, statuses: set<Status>) {
    exists c :: c in claims && OfAddress(c, r, address) && c.status in statuses
  }

  function WalletAnswer(cfg: Config, claims: seq<Claim>, r: Request, env: nat -> Env): Answer {
    var address := cfg.addressOf(r.wallet);
    if !env(5).queryOk then Answer(Failed(Other), None)
    else if !env(5).owns then Answer(Failed(NotOwned), None)
    else if AddressHas(claims, r, address, {TxSucceeded, MediaProcessed, MediaFailed})
    then Answer(Failed(MintAlreadyClaimed), None)
    else if AddressHas(claims, r, address, {TxPending, MediaProcessing, FailedInternal})
    then Answer(Failed(MintTxPending), None)
    else MintAnswer(|claims|, env)
  }

  function GuardedAnswer(cfg: Config, claims: seq<Claim>, r: Request, env: nat -> Env): Answer {
    if !env(4).queryOk then Answer(Failed(Other), None)
    else if UserHas(claims, r, {TxSucceeded, MediaProcessed, MediaFailed})
    then Answer(Failed(MintAlreadyClaimed), None)
    else if UserHas(claims, r, {TxPending, MediaProcessing, FailedInternal})
    then Answer(Failed(MintTxPending), None)
    else WalletAnswer(cfg, claims, r, env)
  }

  function CallAnswer(cfg: Config, locks: set<Key>, claims: seq<Claim>, r: Request, env: nat -> Env): Answer {
    if !env(0).lockOk then Answer(Failed(Other), None)
    else if UserKey(r.collection, r.user) in locks then Answer(Failed(MintTxPending), None)
    else if !env(2).lockOk then Answer(Failed(Other), None)
    else if WalletKey(r.collection, r.wallet) in locks then Answer(Failed(MintTxPending), None)
    else GuardedAnswer(cfg, claims, r, env)
  }

  lemma EndsAfterStep(cfg: Config, s: State, env: nat -> Env, t: State)
    requires |s.requests| == 1 && !s.requests[0].pc.Done?
    requires t == RequestStep(cfg, s, 0, env(Stage(s.requests[0].pc)))
    ensures |t.requests| == 1 && Finish(cfg, s, 0, env) == Finish(cfg, t, 0, env)
  {
    StepAdvances(cfg, s, 0, env(Stage(s.requests[0].pc)));
  }

  lemma EndsFromReleasing(cfg: Config, s: State, env: nat -> Env)
    requires |s.requests| == 1 && s.requests[0].pc.Releasing?
    ensures
      var r, t := s.requests[0], Finish(cfg, s, 0, env);
      t.requests == [r.(pc := Done(r.pc.result))] && t.claims == s.claims && t.tasks == s.tasks
  {
    var t := RequestStep(cfg, s, 0, env(9));
    EndsAfterStep(cfg, s, env, t);
    var u := RequestStep(cfg, t, 0, env(10));
    EndsAfterStep(cfg, t, env, u);
  }

  /** The next step is the last before the release. */
  lemma EndsByLeaving(cfg: Config, s: State, env: nat -> Env, t: State)
    requires |s.requests| == 1 && !s.requests[0].pc.Done?
    requires t == RequestStep(cfg, s, 0, env(Stage(s.requests[0].pc)))
    requires |t.requests| == 1 && t.requests[0].pc.Releasing?
    ensures
      var u := Finish(cfg, s, 0, env);
      && u.requests == [t.requests[0].(pc := Done(t.requests[0].pc.result))]
      && u.claims == t.claims && u.tasks == t.tasks
  {
    EndsAfterStep(cfg, s, env, t);
    EndsFromReleasing(cfg, t, env);
  }

  lemma EndsFromSaved(cfg: Config, s: State, env: nat -> Env)
    requires |s.requests| == 1 && s.requests[0].pc.Saved?
    ensures
      var r, t := s.requests[0], Finish(cfg, s, 0, env);
      var good := r.pc.status != TxFailed && env(8).taskOk;
      && t.requests == [r.(pc := Done(if good then Claimed(r.pc.id) else Failed(Other)))]
      && t.claims == s.claims && t.tasks == s.tasks + (if good then {r.pc.id} else {})
  {
    EndsByLeaving(cfg, s, env, RequestStep(cfg, s, 0, env(8)));
  }

  lemma EndsFromInitiated(cfg: Config, s: State, env: nat -> Env)
    requires |s.requests| == 1 && s.requests[0].pc.Initiated?
    ensures Ends(cfg, s, env, SaveAnswer(|s.claims|, s.requests[0].pc.status, env))
  {
    var t := RequestStep(cfg, s, 0, env(7));
    if env(7).saveOk {
      EndsAfterStep(cfg, s, env, t);
      EndsFromSaved(cfg, t, env);
    } else {
      EndsByLeaving(cfg, s, env, t);
    }
  }

  /** What follows `t` is what follows `s`. */
  lemma EndsAlike(cfg: Config, s: State, t: State, env: nat -> Env, a: Answer)
    requires |s.requests| == |t.requests| == 1 && Finish(cfg, s, 0, env) == Finish(cfg, t, 0, env)
    requires t.claims == s.claims && t.tasks == s.tasks
    requires t.requests[0] == s.requests[0].(pc := t.requests[0].pc)
    requires Ends(cfg, t, env, a)
    ensures Ends(cfg, s, env, a)
  {
  }

  lemma EndsFromWalletClear(cfg: Config, s: State, env: nat -> Env)
    requires |s.requests| == 1 && s.requests[0].pc == WalletClear
    ensures Ends(cfg, s, env, MintAnswer(|s.claims|, env))
  {
    var t := RequestStep(cfg, s, 0, env(6));
    if t.requests[0].pc.Initiated? {
      EndsAfterStep(cfg, s, env, t);
      EndsFromInitiated(cfg, t, env);
      EndsAlike(cfg, s, t, env, SaveAnswer(|s.claims|, t.requests[0].pc.status, env));
    } else {
      EndsByLeaving(cfg, s, env, t);
    }
  }

  lemma AddressStatus(claims: seq<Claim>, r: Request, address: string)
    ensures AlreadyClaimedByAddress(claims, r, address) ==
      if AddressHas(claims, r, address, {TxSucceeded, MediaProcessed, MediaFailed}) then Failed(MintAlreadyClaimed)
      else if AddressHas(claims, r, address, {TxPending, MediaProcessing, FailedInternal}) then Failed(MintTxPending)
      else Claimed(0)
  {
  }

  lemma UserStatus(claims: seq<Claim>, r: Request)
    ensures AlreadyClaimedByUser(claims, r) ==
      if UserHas(claims, r, {TxSucceeded, MediaProcessed, MediaFailed}) then Failed(MintAlreadyClaimed)
      else if UserHas(claims, r, {TxPending, MediaProcessing, FailedInternal}) then Failed(MintTxPending)
      else Claimed(0)
  {
  }

  lemma EndsFromUserClear(cfg: Config, s: State, env: nat -> Env)
    requires |s.requests| == 1 && s.requests[0].pc == UserClear
    ensures Ends(cfg, s, env, WalletAnswer(cfg, s.claims, s.requests[0], env))
  {
    var r, t := s.requests[0], RequestStep(cfg, s, 0, env(5));
    AddressStatus(s.claims, r, cfg.addressOf(r.wallet));
    if t.requests[0].pc == WalletClear {
      EndsAfterStep(cfg, s, env, t);
      EndsFromWalletClear(cfg, t, env);
      EndsAlike(cfg, s, t, env, MintAnswer(|s.claims|, env));
    } else {
      EndsByLeaving(cfg, s, env, t);
    }
  }

  lemma WalletAnswerOfPc(cfg: Config, claims: seq<Claim>, r: Request, pc: Pc, env: nat -> Env)
    ensures WalletAnswer(cfg, claims, r.(pc := pc), env) == WalletAnswer(cfg, claims, r, env)
  {
    var q, address := r.(pc := pc), cfg.addressOf(r.wallet);
    assert forall c :: OfAddress(c, q, address) == OfAddress(c, r, address);
  }

  lemma EndsFromLocked(cfg: Config, s: State, env: nat -> Env)
    requires |s.requests| == 1 && s.requests[0].pc == Locked
    ensures Ends(cfg, s, env, GuardedAnswer(cfg, s.claims, s.requests[0], env))
  {
    var r, t := s.requests[0], RequestStep(cfg, s, 0, env(4));
    UserStatus(s.claims, r);
    if t.requests[0].pc == UserClear {
      EndsAfterStep(cfg, s, env, t);
      EndsFromUserClear(cfg, t, env);
      WalletAnswerOfPc(cfg, s.claims, r, UserClear, env);
      EndsAlike(cfg, s, t, env, WalletAnswer(cfg, s.claims, r, env));
    } else {
      EndsByLeaving(cfg, s, env, t);
    }
  }

  lemma GuardedAnswerOfPc(cfg: Config, claims: seq<Claim>, r: Request, pc: Pc, env: nat -> Env)
    ensures GuardedAnswer(cfg, claims, r.(pc := pc), env) == GuardedAnswer(cfg, claims, r, env)
  {
    var q := r.(pc := pc);
    assert forall c :: OfUser(c, q) == OfUser(c, r);
    WalletAnswerOfPc(cfg, claims, r, pc, env);
  }

  lemma EndsFromUserLocked(cfg: Config, s: State, env: nat -> Env)
    requires cfg.atomic && |s.requests| == 1 && s.requests[0].pc == UserLocked
    ensures
      var r := s.requests[0];
      Ends(cfg, s, env,
           if !env(2).lockOk then Answer(Failed(Other), None)
           else if WalletKey(r.collection, r.wallet) in s.locks then Answer(Failed(MintTxPending), None)
           else GuardedAnswer(cfg, s.claims, r, env))
  {
    var r, t := s.requests[0], RequestStep(cfg, s, 0, env(2));
    EndsAfterStep(cfg, s, env, t);
    if t.requests[0].pc == Locked {
      EndsFromLocked(cfg, t, env);
      GuardedAnswerOfPc(cfg, s.claims, r, Locked, env);
      EndsAlike(cfg, s, t, env, GuardedAnswer(cfg, s.claims, r, env));
    }
  }

  /** The whole call, as the order of its questions gives it. */
  lemma CallEnds(cfg: Config, s: State, env: nat -> Env)
    requires cfg.atomic && |s.requests| == 1 && s.requests[0].pc == Start
    ensures Ends(cfg, s, env, CallAnswer(cfg, s.locks, s.claims, s.requests[0], env))
  {
    var r, t := s.requests[0], RequestStep(cfg, s, 0, env(0));
    EndsAfterStep(cfg, s, env, t);
    if t.requests[0].pc == UserLocked {
      EndsFromUserLocked(cfg, t, env);
      GuardedAnswerOfPc(cfg, s.claims, r, UserLocked, env);
      EndsAlike(cfg, s, t, env, CallAnswer(cfg, s.locks, s.claims, r, env));
    }
  }

  // ----- The answer, case by case

  /** Both locks can be taken. */
  predicate Guarded(locks: set<Key>, r: Request, env: nat -> Env) {
    && UserKey(r.collection, r.user) !in locks && WalletKey(r.collection, r.wallet) !in locks
    && env(0).lockOk && env(2).lockOk
  }

  /** Every claim of the user's in this collection is a failed transaction. */
  predicate UserFree(claims: seq<Claim>, r: Request) {
    forall c :: c in claims && c.collection == r.collection && c.user == r.user ==> c.status == TxFailed
  }

  predicate AddressFree(claims: seq<Claim>, r: Request, address: string) {
    forall c :: c in claims && c.collection == r.collection && c.address == address ==> c.status == TxFailed
  }

  /** Everything before the mint goes well. */
  predicate Asks(cfg: Config, locks: set<Key>, claims: seq<Claim>, r: Request, env: nat -> Env) {
    && Guarded(locks, r, env)
    && env(4).queryOk && UserFree(claims, r)
    && env(5).queryOk && env(5).owns && AddressFree(claims, r, cfg.addressOf(r.wallet))
    && env(6).rateOk
  }

  lemma FreeIff(claims: seq<Claim>, r: Request, address: string)
    ensures
      UserFree(claims, r) <==>
        && !UserHas(claims, r, {TxSucceeded, MediaProcessed, MediaFailed})
        && !UserHas(claims, r, {TxPending, MediaProcessing, FailedInternal})
    ensures
      AddressFree(claims, r, address) <==>
        && !AddressHas(claims, r, address, {TxSucceeded, MediaProcessed, MediaFailed})
        && !AddressHas(claims, r, address, {TxPending, MediaProcessing, FailedInternal})
  {
    if UserFree(claims, r) {
    } else {
      var c :| c in claims && c.collection == r.collection && c.user == r.user && c.status != TxFailed;
      assert OfUser(c, r);
      assert c.status in {TxSucceeded, MediaProcessed, MediaFailed}
        || c.status in {TxPending, MediaProcessing, FailedInternal};
    }
    if AddressFree(claims, r, address) {
    } else {
      var c :| c in claims && c.collection == r.collection && c.address == address && c.status != TxFailed;
      assert OfAddress(c, r, address);
      assert c.status in {TxSucceeded, MediaProcessed, MediaFailed}
        || c.status in {TxPending, MediaProcessing, FailedInternal};
    }
  }

  /** When the mint is asked for, its answer decides what is saved and said. */
  lemma AskedAnswer(cfg: Config, locks: set<Key>, claims: seq<Claim>, r: Request, env: nat -> Env)
    ensures
      Asks(cfg, locks, claims, r, env) ==> CallAnswer(cfg, locks, claims, r, env) == MintAnswer(|claims|, env)
    ensures
      var a := CallAnswer(cfg, locks, claims, r, env);
      !Asks(cfg, locks, claims, r, env) ==> a.record == None && a.result.Failed?
  {
    FreeIff(claims, r, cfg.addressOf(r.wallet));
  }

  lemma NoneIsFree(claims: seq<Claim>, r: Request, address: string)
    ensures NoneForUser(claims, r) <==> UserFree(claims, r)
    ensures NoneForAddress(claims, r, address) <==> AddressFree(claims, r, address)
  {
    assert forall c: Claim :: Live(c.status) <==> c.status != TxFailed;
  }

  /** An undisturbed call mints, and mints once, exactly when both locks are free, the wallet is the user's, neither the
      user nor the address has a claim other than a failed transaction, everything asked on the way there answers, and
      the mint is accepted. */
  lemma CallMintsIff(cfg: Config, s: State, env: nat -> Env)
    requires cfg.atomic && |s.requests| == 1 && s.requests[0].pc == Start
    ensures
      var r, t := s.requests[0], Finish(cfg, s, 0, env);
      if Asks(cfg, s.locks, s.claims, r, env) && env(6).reply == Accepted
      then t.mints == s.mints + [Claim(r.collection, r.user, cfg.addressOf(r.wallet), TxPending)]
      else t.mints == s.mints
  {
    MintsFromStart(cfg, s, env);
    NoneIsFree(s.claims, s.requests[0], cfg.addressOf(s.requests[0].wallet));
  }

  /** An undisturbed call answers with the ID of a new record if and only if both locks are free, the wallet is the
      user's, neither the user nor the address has a claim other than a failed transaction, the mint is accepted,
      and everything asked answers, the record is saved and its task is made; the task is made exactly then. */
  lemma CallSucceedsIff(cfg: Config, s: State, env: nat -> Env)
    requires cfg.atomic && |s.requests| == 1 && s.requests[0].pc == Start
    ensures
      var r, t := s.requests[0], Finish(cfg, s, 0, env);
      && |t.requests| == 1 && t.requests[0].pc.Done?
      && (t.requests[0].pc.result.Claimed? <==>
            && Asks(cfg, s.locks, s.claims, r, env)
            && env(6).reply == Accepted && env(7).saveOk && env(8).taskOk)
      && (t.requests[0].pc.result.Claimed? ==> t.requests[0].pc.result.id == |s.claims|)
      && t.tasks == s.tasks + (if t.requests[0].pc.result.Claimed? then {|s.claims|} else {})
  {
    CallEnds(cfg, s, env);
    AskedAnswer(cfg, s.locks, s.claims, s.requests[0], env);
  }

  /** It saves a record exactly when a transaction was started or came back reverted and the save succeeds; the record
      names the user, the address and which of the two it was. */
  lemma CallRecordsIff(cfg: Config, s: State, env: nat -> Env)
    requires cfg.atomic && |s.requests| == 1 && s.requests[0].pc == Start
    ensures
      var r, t := s.requests[0], Finish(cfg, s, 0, env);
      t.claims == s.claims + (
        if Asks(cfg, s.locks, s.claims, r, env) && env(6).reply in {Accepted, Reverted} && env(7).saveOk
        then [Claim(r.collection, r.user, cfg.addressOf(r.wallet),
                    if env(6).reply == Accepted then TxPending else TxFailed)]
        else [])
  {
    CallEnds(cfg, s, env);
    AskedAnswer(cfg, s.locks, s.claims, s.requests[0], env);
  }

  /** The above at once, for a request that ends as `t`. */
  lemma CallOutcome(cfg: Config, s: State, env: nat -> Env, t: State)
    requires cfg.atomic && |s.requests| == 1 && s.requests[0].pc == Start && t == Finish(cfg, s, 0, env)
    ensures |t.requests| == 1 && t.requests[0].pc.Done?
    ensures
      var r, result := s.requests[0], t.requests[0].pc.result;
      var asks := Asks(cfg, s.locks, s.claims, r, env);
      && result == CallAnswer(cfg, s.locks, s.claims, r, env).result
      && (result.Claimed? <==> asks && env(6).reply == Accepted && env(7).saveOk && env(8).taskOk)
      && (result.Claimed? ==> result.id == |s.claims|)
      && t.tasks == s.tasks + (if result.Claimed? then {|s.claims|} else {})
      && t.claims == s.claims + (
           if asks && env(6).reply in {Accepted, Reverted} && env(7).saveOk
           then [Claim(r.collection, r.user, cfg.addressOf(r.wallet),
                       if env(6).reply == Accepted then TxPending else TxFailed)]
           else [])
      && t.mints == s.mints + (
           if asks && env(6).reply == Accepted
           then [Claim(r.collection, r.user, cfg.addressOf(r.wallet), TxPending)]
           else [])
  {
    CallEnds(cfg, s, env);
    CallSucceedsIff(cfg, s, env);
    CallRecordsIff(cfg, s, env);
    CallMintsIff(cfg, s, env);
  }

  /** A lock that could not be taken: the lock store's error, or a mint is pending. */
  lemma RefusedByLocks(cfg: Config, s: State, env: nat -> Env)
    requires cfg.atomic && |s.requests| == 1 && s.requests[0].pc == Start
    ensures
      var r, t := s.requests[0], Finish(cfg, s, 0, env);
      var userTaken, walletTaken :=
        UserKey(r.collection, r.user) in s.locks, WalletKey(r.collection, r.wallet) in s.locks;
      && |t.requests| == 1
      && (!env(0).lockOk ==> t.requests[0].pc == Done(Failed(Other)))
      && (env(0).lockOk && userTaken ==> t.requests[0].pc == Done(Failed(MintTxPending)))
      && (env(0).lockOk && !userTaken && !env(2).lockOk ==> t.requests[0].pc == Done(Failed(Other)))
      && (env(0).lockOk && !userTaken && env(2).lockOk && walletTaken ==>
            t.requests[0].pc == Done(Failed(MintTxPending)))
  {
    CallEnds(cfg, s, env);
  }

  /** Behind the locks the user's claims are looked at: a minted one answers first, then a pending one. */
  lemma RefusedForUser(cfg: Config, s: State, env: nat -> Env)
    requires cfg.atomic && |s.requests| == 1 && s.requests[0].pc == Start && Guarded(s.locks, s.requests[0], env)
    ensures
      var r, t := s.requests[0], Finish(cfg, s, 0, env);
      var minted := exists c :: c in s.claims && OfUser(c, r) && c.status in {TxSucceeded, MediaProcessed, MediaFailed};
      && |t.requests| == 1
      && (!env(4).queryOk ==> t.requests[0].pc == Done(Failed(Other)))
      && (env(4).queryOk && minted ==> t.requests[0].pc == Done(Failed(MintAlreadyClaimed)))
      && (env(4).queryOk && !minted && !UserFree(s.claims, r) ==> t.requests[0].pc == Done(Failed(MintTxPending)))
  {
    var r := s.requests[0];
    CallEnds(cfg, s, env);
    FreeIff(s.claims, r, cfg.addressOf(r.wallet));
    assert UserHas(s.claims, r, {TxSucceeded, MediaProcessed, MediaFailed})
      <==> exists c :: c in s.claims && OfUser(c, r) && c.status in {TxSucceeded, MediaProcessed, MediaFailed};
  }

  /** Then the wallet: it has to be the user's, and the claims of its address are looked at in the same way. */
  lemma RefusedForWallet(cfg: Config, s: State, env: nat -> Env)
    requires cfg.atomic && |s.requests| == 1 && s.requests[0].pc == Start && Guarded(s.locks, s.requests[0], env)
    requires env(4).queryOk && UserFree(s.claims, s.requests[0])
    ensures
      var r, t := s.requests[0], Finish(cfg, s, 0, env);
      var address := cfg.addressOf(r.wallet);
      var owned := env(5).queryOk && env(5).owns;
      var minted := exists c ::
        c in s.claims && OfAddress(c, r, address) && c.status in {TxSucceeded, MediaProcessed, MediaFailed};
      && |t.requests| == 1
      && (!env(5).queryOk ==> t.requests[0].pc == Done(Failed(Other)))
      && (env(5).queryOk && !env(5).owns ==> t.requests[0].pc == Done(Failed(NotOwned)))
      && (owned && minted ==> t.requests[0].pc == Done(Failed(MintAlreadyClaimed)))
      && (owned && !minted && !AddressFree(s.claims, r, address) ==>
            t.requests[0].pc == Done(Failed(MintTxPending)))
      && (owned && AddressFree(s.claims, r, address) && !env(6).rateOk ==> t.requests[0].pc == Done(Failed(Other)))
  {
    var r := s.requests[0];
    var address := cfg.addressOf(r.wallet);
    CallEnds(cfg, s, env);
    FreeIff(s.claims, r, address);
    assert AddressHas(s.claims, r, address, {TxSucceeded, MediaProcessed, MediaFailed})
      <==> exists c ::
        c in s.claims && OfAddress(c, r, address) && c.status in {TxSucceeded, MediaProcessed, MediaFailed};
  }

  /** Once the mint is asked for: its own refusal is passed on; a reverted transaction, a record that cannot be saved
      and a task that cannot be made are errors of their own, although for the last two the mint was started. */
  lemma FailedAfterAsking(cfg: Config, s: State, env: nat -> Env)
    requires cfg.atomic && |s.requests| == 1 && s.requests[0].pc == Start
    requires Asks(cfg, s.locks, s.claims, s.requests[0], env)
    ensures
      var t := Finish(cfg, s, 0, env);
      && |t.requests| == 1
      && (env(6).reply.NotInitiated? ==> t.requests[0].pc == Done(Failed(env(6).reply.error)))
      && (env(6).reply == Reverted ==> t.requests[0].pc == Done(Failed(Other)))
      && (env(6).reply == Accepted && !(env(7).saveOk && env(8).taskOk) ==>
            t.requests[0].pc == Done(Failed(Other)))
  {
    CallEnds(cfg, s, env);
    AskedAnswer(cfg, s.locks, s.claims, s.requests[0], env);
  }
}
