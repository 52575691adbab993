/** With a lock that is taken in one step and wallets that do not share an address, no interleaving of claim
    requests, expiring locks and status updates leaves two live claims of a collection for one user or for
    one address. */
module MintSafety {
  import opened Mint

  /** A request moves on without touching anything else. */
  lemma MoveKeepsInv(cfg: Config, s: State, i: nat, pc: Pc)
    requires Inv(cfg, s) && i < |s.requests|
    requires
      var r := s.requests[i];
      && (pc.UserClear? ==> r.pc.Locked? && NoneForUser(s.claims, r))
      && (pc.WalletClear? ==> r.pc.UserClear? && NoneForAddress(s.claims, r, cfg.addressOf(r.wallet)))
      && (pc.Done? ==> r.pc in {Start, UserProbed, UserLocked, WalletProbed})
      && (pc.Releasing? ==> Inside(r) && r.pc != Initiated(TxPending))
      && (pc.Initiated? ==> r.pc.WalletClear? && pc.status == TxFailed)
      && (pc.UserClear? || pc.WalletClear? || pc.Done? || pc.Releasing? || pc.Initiated?)
    ensures Inv(cfg, At(s, i, pc))
  {
    var t := At(s, i, pc);
    forall m | m in s.mints && Accounted(cfg, s, m) ensures Accounted(cfg, t, m) {
      if j :| 0 <= j < |s.requests| && s.requests[j].pc == Initiated(TxPending)
              && s.requests[j].collection == m.collection && s.requests[j].user == m.user
              && cfg.addressOf(s.requests[j].wallet) == m.address {
        assert t.requests[j] == s.requests[j];
      }
    }
  }

  lemma TakeLockKeepsInv(cfg: Config, s: State, i: nat)
    requires Inv(cfg, s) && i < |s.requests|
    requires s.requests[i].pc in {Start, UserLocked}
    requires (if s.requests[i].pc == Start then UserKeyOf(s.requests[i]) else WalletKeyOf(s.requests[i])) !in s.locks
    ensures
      if s.requests[i].pc == Start then Inv(cfg, At(s, i, UserLocked).(locks := s.locks + {UserKeyOf(s.requests[i])}))
      else Inv(cfg, At(s, i, Locked).(locks := s.locks + {WalletKeyOf(s.requests[i])}))
  {
    var first := s.requests[i].pc == Start;
    var t := At(s, i, if first then UserLocked else Locked)
               .(locks := s.locks + {if first then UserKeyOf(s.requests[i]) else WalletKeyOf(s.requests[i])});
    SameMints(cfg, s, t, i);
  }

  /** Mints stay accounted for when a request that is not about to save one changes. */
  lemma SameMints(cfg: Config, s: State, t: State, i: nat)
    requires Inv(cfg, s) && i < |s.requests| == |t.requests| && s.requests[i].pc != Initiated(TxPending)
    requires t.claims == s.claims && t.mints == s.mints && t.saveFailed == s.saveFailed
    requires forall j :: 0 <= j < |s.requests| && j != i ==> t.requests[j] == s.requests[j]
    ensures MintsOk(cfg, t)
  {
    forall m | m in s.mints && Accounted(cfg, s, m) ensures Accounted(cfg, t, m) {
      if j :| 0 <= j < |s.requests| && s.requests[j].pc == Initiated(TxPending)
              && s.requests[j].collection == m.collection && s.requests[j].user == m.user
              && cfg.addressOf(s.requests[j].wallet) == m.address {
        assert t.requests[j] == s.requests[j];
      }
    }
  }

  // ----- The release

  /** A request gives back one of its locks, or tries to. */
  lemma UnlockKeepsLocks(s: State, i: nat, key: Key, t: State)
    requires LocksOk(s) && i < |s.requests| == |t.requests|
    requires forall j :: 0 <= j < |s.requests| && j != i ==> t.requests[j] == s.requests[j]
    requires s.requests[i].pc.Releasing? || s.requests[i].pc.HalfReleased?
    requires key == if s.requests[i].pc.Releasing? then UserKeyOf(s.requests[i]) else WalletKeyOf(s.requests[i])
    requires
      t.requests[i] == s.requests[i].(pc := if s.requests[i].pc.Releasing? then HalfReleased(s.requests[i].pc.result)
                                            else Done(s.requests[i].pc.result))
    requires t.locks == s.locks || t.locks == s.locks - {key}
    ensures LocksOk(t)
  {
    forall j | 0 <= j < |t.requests| && HoldsUser(t.requests[j]) ensures UserKeyOf(t.requests[j]) in t.locks {
      DifferentHolders(s, i, j);
    }
    forall j | 0 <= j < |t.requests| && HoldsWallet(t.requests[j]) ensures WalletKeyOf(t.requests[j]) in t.locks {
      if j != i {
        DifferentHolders(s, i, j);
      }
    }
  }

  lemma DifferentHolders(s: State, i: nat, j: nat)
    requires LocksOk(s) && i < |s.requests| && j < |s.requests| && i != j
    ensures HoldsUser(s.requests[i]) && HoldsUser(s.requests[j]) ==>
              UserKeyOf(s.requests[i]) != UserKeyOf(s.requests[j])
    ensures HoldsWallet(s.requests[i]) && HoldsWallet(s.requests[j]) ==>
              WalletKeyOf(s.requests[i]) != WalletKeyOf(s.requests[j])
  {
    if j < i {
      assert HoldsUser(s.requests[j]) && HoldsUser(s.requests[i]) ==>
          UserKeyOf(s.requests[j]) != UserKeyOf(s.requests[i]);
    }
  }

  lemma UnlockKeepsInv(cfg: Config, s: State, i: nat, env: Env)
    requires Inv(cfg, s) && i < |s.requests| && (s.requests[i].pc.Releasing? || s.requests[i].pc.HalfReleased?)
    ensures Inv(cfg, RequestStep(cfg, s, i, env))
  {
    var t := RequestStep(cfg, s, i, env);
    var r := s.requests[i];
    UnlockKeepsLocks(s, i, if r.pc.Releasing? then UserKeyOf(r) else WalletKeyOf(r), t);
    SameMints(cfg, s, t, i);
  }

  // ----- The external mint

  /** Two requests past both locks are for different users and different addresses. */
  lemma InsideAreApart(cfg: Config, s: State, i: nat, j: nat)
    requires LocksOk(s) && Injective(cfg.addressOf)
    requires i < |s.requests| && j < |s.requests| && i != j
    requires Inside(s.requests[i]) && Inside(s.requests[j])
    requires s.requests[i].collection == s.requests[j].collection
    ensures s.requests[i].user != s.requests[j].user
    ensures cfg.addressOf(s.requests[i].wallet) != cfg.addressOf(s.requests[j].wallet)
  {
    if i < j {
      assert UserKeyOf(s.requests[i]) != UserKeyOf(s.requests[j]);
      assert WalletKeyOf(s.requests[i]) != WalletKeyOf(s.requests[j]);
    } else {
      assert UserKeyOf(s.requests[j]) != UserKeyOf(s.requests[i]);
      assert WalletKeyOf(s.requests[j]) != WalletKeyOf(s.requests[i]);
    }
  }

  ghost function MintOf(cfg: Config, r: Request): Claim {
    Claim(r.collection, r.user, cfg.addressOf(r.wallet), TxPending)
  }

  /** Nothing minted so far is for this request's user or address. */
  lemma NothingMintedYet(cfg: Config, s: State, i: nat, m: Claim)
    requires Inv(cfg, s) && Injective(cfg.addressOf) && i < |s.requests| && s.requests[i].pc == WalletClear
    requires m in s.mints && !s.saveFailed
    ensures !SameUser(m, MintOf(cfg, s.requests[i])) && !SameAddress(m, MintOf(cfg, s.requests[i]))
  {
    assert Accounted(cfg, s, m);
    if c :| c in s.claims && Live(c.status) && SameUser(c, m) && SameAddress(c, m) {
    } else {
      var j :| 0 <= j < |s.requests| && s.requests[j].pc == Initiated(TxPending)
               && s.requests[j].collection == m.collection && s.requests[j].user == m.user
               && cfg.addressOf(s.requests[j].wallet) == m.address;
      if s.requests[i].collection == s.requests[j].collection {
        InsideAreApart(cfg, s, i, j);
      }
    }
  }

  lemma MintKeepsInv(cfg: Config, s: State, i: nat)
    requires Inv(cfg, s) && Injective(cfg.addressOf) && i < |s.requests| && s.requests[i].pc == WalletClear
    ensures Inv(cfg, At(s, i, Initiated(TxPending)).(mints := s.mints + [MintOf(cfg, s.requests[i])]))
  {
    var minted := MintOf(cfg, s.requests[i]);
    var t := At(s, i, Initiated(TxPending)).(mints := s.mints + [minted]);
    if !s.saveFailed {
      forall a, b | 0 <= a < b < |t.mints|
          ensures !SameUser(t.mints[a], t.mints[b]) && !SameAddress(t.mints[a], t.mints[b]) {
        assert t.mints[a] == s.mints[a] && t.mints[a] in s.mints;
        if b == |s.mints| {
          NothingMintedYet(cfg, s, i, t.mints[a]);
        } else {
          assert Live(s.mints[b].status) by {
            assert s.mints[b] in s.mints;
          }
        }
      }
      forall m | m in t.mints ensures m.status == TxPending && Accounted(cfg, t, m) {
        if m in s.mints {
          assert Accounted(cfg, s, m);
          if j :| 0 <= j < |s.requests| && s.requests[j].pc == Initiated(TxPending)
                  && s.requests[j].collection == m.collection && s.requests[j].user == m.user
                  && cfg.addressOf(s.requests[j].wallet) == m.address {
            assert t.requests[j] == s.requests[j];
          }
        } else {
          assert m == minted && t.requests[i].pc == Initiated(TxPending);
        }
      }
    }
  }

  // ----- Saving the record

  ghost function Save(cfg: Config, s: State, i: nat): State
    requires i < |s.requests| && s.requests[i].pc.Initiated?
  {
    var r := s.requests[i];
    At(s, i, Saved(|s.claims|, r.pc.status))
      .(claims := s.claims + [Claim(r.collection, r.user, cfg.addressOf(r.wallet), r.pc.status)])
  }

  lemma SaveKeepsApart(cfg: Config, s: State, i: nat)
    requires Inv(cfg, s) && i < |s.requests| && s.requests[i].pc.Initiated?
    ensures Apart(Save(cfg, s, i).claims)
  {
    var t := Save(cfg, s, i);
    forall a, b | 0 <= a < b < |t.claims| && Live(t.claims[a].status) && Live(t.claims[b].status)
      ensures !SameUser(t.claims[a], t.claims[b]) && !SameAddress(t.claims[a], t.claims[b])
    {
      assert t.claims[a] == s.claims[a] && t.claims[a] in s.claims;
    }
  }

  lemma SaveKeepsChecks(cfg: Config, s: State, i: nat)
    requires Inv(cfg, s) && Injective(cfg.addressOf) && i < |s.requests| && s.requests[i].pc.Initiated?
    ensures ChecksOk(cfg, Save(cfg, s, i))
  {
    var t := Save(cfg, s, i);
    forall j | 0 <= j < |t.requests|
        && (t.requests[j].pc.UserClear? || t.requests[j].pc.WalletClear? || t.requests[j].pc.Initiated?)
      ensures NoneForUser(t.claims, t.requests[j])
      ensures t.requests[j].pc.UserClear? || NoneForAddress(t.claims, t.requests[j],
                cfg.addressOf(t.requests[j].wallet))
    {
      assert j != i && t.requests[j] == s.requests[j];
      assert NoneForUser(s.claims, s.requests[j]);
      if s.requests[i].collection == s.requests[j].collection {
        InsideAreApart(cfg, s, i, j);
      }
    }
  }

  lemma SaveKeepsMints(cfg: Config, s: State, i: nat)
    requires Inv(cfg, s) && i < |s.requests| && s.requests[i].pc.Initiated?
    ensures MintsOk(cfg, Save(cfg, s, i))
  {
    var t := Save(cfg, s, i);
    forall m | m in s.mints && Accounted(cfg, s, m) ensures Accounted(cfg, t, m) {
      if c :| c in s.claims && Live(c.status) && SameUser(c, m) && SameAddress(c, m) {
        assert c in t.claims;
      } else {
        var j :| 0 <= j < |s.requests| && s.requests[j].pc == Initiated(TxPending)
                 && s.requests[j].collection == m.collection && s.requests[j].user == m.user
                 && cfg.addressOf(s.requests[j].wallet) == m.address;
        if j == i {
          assert t.claims[|s.claims|] in t.claims;
        } else {
          assert t.requests[j] == s.requests[j];
        }
      }
    }
  }

  lemma SaveKeepsInv(cfg: Config, s: State, i: nat)
    requires Inv(cfg, s) && Injective(cfg.addressOf) && i < |s.requests| && s.requests[i].pc.Initiated?
    ensures Inv(cfg, Save(cfg, s, i))
  {
    SaveKeepsApart(cfg, s, i);
    SaveKeepsChecks(cfg, s, i);
    SaveKeepsMints(cfg, s, i);
  }

  /** A record that cannot be saved is reported and the request leaves. */
  lemma SaveFailureKeepsInv(cfg: Config, s: State, i: nat, result: Result)
    requires Inv(cfg, s) && i < |s.requests| && s.requests[i].pc.Initiated?
    ensures Inv(cfg, Leave(s, i, result).(saveFailed := s.saveFailed || s.requests[i].pc.status == TxPending))
  {
    var t := Leave(s, i, result).(saveFailed := s.saveFailed || s.requests[i].pc.status == TxPending);
    if s.requests[i].pc.status != TxPending {
      SameMints(cfg, s, t, i);
    }
  }

  // ----- Every step

  lemma GoKeepsInv(cfg: Config, s: State, i: nat, env: Env)
    requires cfg.atomic && Injective(cfg.addressOf) && Inv(cfg, s) && i < |s.requests|
    requires s.requests[i].pc != UserProbed && s.requests[i].pc != WalletProbed
    ensures Inv(cfg, RequestStep(cfg, s, i, env))
  {
    var r := s.requests[i];
    var address := cfg.addressOf(r.wallet);
    match r.pc
    case Start =>
      if env.lockOk && UserKeyOf(r) !in s.locks {
        TakeLockKeepsInv(cfg, s, i);
      } else {
        MoveKeepsInv(cfg, s, i, RequestStep(cfg, s, i, env).requests[i].pc);
      }
    case UserLocked =>
      if env.lockOk && WalletKeyOf(r) !in s.locks {
        TakeLockKeepsInv(cfg, s, i);
      } else {
        MoveKeepsInv(cfg, s, i, RequestStep(cfg, s, i, env).requests[i].pc);
      }
    case Locked =>
      if !env.queryOk {
        MoveKeepsInv(cfg, s, i, Releasing(Failed(Other)));
      } else if AlreadyClaimedByUser(s.claims, r).Failed? {
        MoveKeepsInv(cfg, s, i, Releasing(AlreadyClaimedByUser(s.claims, r)));
      } else {
        MoveKeepsInv(cfg, s, i, UserClear);
      }
    case UserClear =>
      if !env.queryOk {
        MoveKeepsInv(cfg, s, i, Releasing(Failed(Other)));
      } else if !env.owns {
        MoveKeepsInv(cfg, s, i, Releasing(Failed(NotOwned)));
      } else if AlreadyClaimedByAddress(s.claims, r, address).Failed? {
        MoveKeepsInv(cfg, s, i, Releasing(AlreadyClaimedByAddress(s.claims, r, address)));
      } else {
        MoveKeepsInv(cfg, s, i, WalletClear);
      }
    case WalletClear =>
      if !env.rateOk {
        MoveKeepsInv(cfg, s, i, Releasing(Failed(Other)));
      } else {
        match env.reply
        case NotInitiated(error) => MoveKeepsInv(cfg, s, i, Releasing(Failed(error)));
        case Reverted => MoveKeepsInv(cfg, s, i, Initiated(TxFailed));
        case Accepted => MintKeepsInv(cfg, s, i);
      }
    case Initiated(_) =>
      if env.saveOk {
        SaveKeepsInv(cfg, s, i);
      } else {
        SaveFailureKeepsInv(cfg, s, i, Failed(Other));
      }
    case Saved(id, status) =>
      if status == TxFailed || !env.taskOk {
        MoveKeepsInv(cfg, s, i, Releasing(Failed(Other)));
      } else {
        MoveKeepsInv(cfg, s, i, Releasing(Claimed(id)));
      }
    case Releasing(_) => UnlockKeepsInv(cfg, s, i, env);
    case HalfReleased(_) => UnlockKeepsInv(cfg, s, i, env);
    case Done(_) =>
  }

  lemma ArriveKeepsInv(cfg: Config, s: State, r: Request)
    requires Inv(cfg, s) && r.pc == Start
    ensures Inv(cfg, s.(requests := s.requests + [r]))
  {
    var t := s.(requests := s.requests + [r]);
    forall m | m in s.mints && Accounted(cfg, s, m) ensures Accounted(cfg, t, m) {
      if j :| 0 <= j < |s.requests| && s.requests[j].pc == Initiated(TxPending)
              && s.requests[j].collection == m.collection && s.requests[j].user == m.user
              && cfg.addressOf(s.requests[j].wallet) == m.address {
        assert t.requests[j] == s.requests[j];
      }
    }
  }

  /** `t` has the claims of `s` with other statuses, and none is live that was not. */
  ghost predicate Updated(s: State, t: State) {
    && t == s.(claims := t.claims) && |t.claims| == |s.claims|
    && forall j :: 0 <= j < |s.claims| ==>
         && t.claims[j] == s.claims[j].(status := t.claims[j].status)
         && (Live(t.claims[j].status) <==> Live(s.claims[j].status))
  }

  lemma UpdateKeepsChecks(cfg: Config, s: State, t: State)
    requires Updated(s, t) && ChecksOk(cfg, s)
    ensures ChecksOk(cfg, t)
  {
    forall c | c in t.claims
      ensures exists d :: d in s.claims && d.collection == c.collection && d.user == c.user && d.address == c.address
                          && (Live(c.status) ==> Live(d.status))
    {
      var j :| 0 <= j < |t.claims| && t.claims[j] == c;
      assert s.claims[j] in s.claims;
    }
  }

  lemma UpdateKeepsMints(cfg: Config, s: State, t: State)
    requires Updated(s, t) && MintsOk(cfg, s)
    ensures MintsOk(cfg, t)
  {
    forall m | m in s.mints && Accounted(cfg, s, m) ensures Accounted(cfg, t, m) {
      if c :| c in s.claims && Live(c.status) && SameUser(c, m) && SameAddress(c, m) {
        var j :| 0 <= j < |s.claims| && s.claims[j] == c;
        assert t.claims[j] in t.claims;
      }
    }
  }

  /** A live claim stays live: no update gives it the status of a failed transaction. */
  lemma TrackKeepsInv(cfg: Config, s: State, id: nat, status: Status)
    requires Inv(cfg, s) && id in s.tasks && status != TxFailed
    ensures id < |s.claims| && Inv(cfg, s.(claims := s.claims[id := s.claims[id].(status := status)]))
  {
    var t := s.(claims := s.claims[id := s.claims[id].(status := status)]);
    assert Updated(s, t);
    UpdateKeepsChecks(cfg, s, t);
    UpdateKeepsMints(cfg, s, t);
  }
}
