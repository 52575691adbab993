/** MintAPI (publicapi/mint.go) with its lock store and its tables as fields. */
module MintObject {
  import opened Options
  import opened Mint
  import opened MintCall

  // ----- The object

  class MintApi {
    const addressOf: string -> string
    var locked: set<Key>
    var claims: seq<Claim>
    var tasks: set<nat>
    ghost var mints: seq<Claim>
    ghost var saveFailed: bool

    ghost function Config(): Config {
      Mint.Config(true, addressOf)
    }

    /** The system with this one request in it. */
    ghost function Abs(r: Request): State
      reads this
    {
      State(locked, claims, tasks, [r], mints, saveFailed)
    }

    constructor (addressOf: string -> string)
      ensures this.addressOf == addressOf
      ensures locked == {} && claims == [] && tasks == {} && mints == [] && !saveFailed
    {
      this.addressOf := addressOf;
      locked, claims, tasks, mints, saveFailed := {}, [], {}, [], false;
    }

    method Lock(key: Key, ok: bool) returns (error: Option<Error>)
      modifies this`locked
      ensures error == if !ok then Some(Other) else if key in old(locked) then Some(MintTxPending) else None
      ensures locked == if error.None? then old(locked) + {key} else old(locked)
    {
      if !ok {
        return Some(Other);
      }
      if key in locked {
        return Some(MintTxPending);
      }
      locked := locked + {key};
      return None;
    }

    /** When the second lock fails the first one stays taken. */
    method GuardMinting(r: Request, env: nat -> Env) returns (error: Option<Error>)
      requires r.pc == Start
      modifies this`locked
      ensures error ==
        if !env(0).lockOk then Some(Other)
        else if UserKeyOf(r) in old(locked) then Some(MintTxPending)
        else if !env(2).lockOk then Some(Other)
        else if WalletKeyOf(r) in old(locked) then Some(MintTxPending)
        else None
      ensures locked ==
        if !env(0).lockOk || UserKeyOf(r) in old(locked) then old(locked)
        else if error.Some? then old(locked) + {UserKeyOf(r)}
        else old(locked) + {UserKeyOf(r), WalletKeyOf(r)}
    {
      error := Lock(UserKeyOf(r), env(0).lockOk);
      if error.Some? {
        return;
      }
      error := Lock(WalletKeyOf(r), env(2).lockOk);
    }

    /** The key stays when the lock store fails. */
    method Unlock(key: Key, ok: bool)
      modifies this`locked
      ensures locked == if ok then old(locked) - {key} else old(locked)
    {
      if ok {
        locked := locked - {key};
      }
    }

    /** The deferred release: neither error is looked at. */
    method Release(r: Request, env: nat -> Env)
      requires r.pc.Releasing?
      modifies this`locked
      ensures Finish(Config(), old(Abs(r)), 0, env) == Abs(r.(pc := Done(r.pc.result)))
    {
      ghost var s := Abs(r);
      ghost var final := Finish(Config(), s, 0, env);
      Unlock(UserKeyOf(r), env(9).unlockOk);
      s := RequestStep(Config(), s, 0, env(9));
      assert final == Finish(Config(), s, 0, env) && s == Abs(r.(pc := HalfReleased(r.pc.result)));
      Unlock(WalletKeyOf(r), env(10).unlockOk);
      s := RequestStep(Config(), s, 0, env(10));
      assert final == Finish(Config(), s, 0, env) && s == Abs(r.(pc := Done(r.pc.result)));
    }

    /** No answer means that the user has no live claim of the collection; otherwise the answer tells a minted claim
        from a pending one, and a minted claim goes first. */
    method AlreadyClaimedByUser(r: Request, queryOk: bool) returns (error: Option<Error>)
      ensures error.None? <==> queryOk && NoneForUser(claims, r)
      ensures
        error == Some(MintAlreadyClaimed) <==>
          && queryOk
          && exists c :: c in claims && OfUser(c, r) && c.status in {TxSucceeded, MediaProcessed, MediaFailed}
      ensures
        error == Some(MintTxPending) <==>
          && queryOk
          && (exists c :: c in claims && OfUser(c, r) && c.status in {TxPending, MediaProcessing, FailedInternal})
          && !exists c :: c in claims && OfUser(c, r) && c.status in {TxSucceeded, MediaProcessed, MediaFailed}
      ensures error == Some(Other) <==> !queryOk
      ensures error.Some? && queryOk ==> Mint.AlreadyClaimedByUser(claims, r) == Failed(error.value)
    {
      if !queryOk {
        return Some(Other);
      }
      var status := Mint.AlreadyClaimedByUser(claims, r);
      return if status.Failed? then Some(status.error) else None;
    }

    /** No answer means that the wallet is the user's and its address has no live claim of the collection; otherwise the
        answer tells why. */
    method ValidateClaimableForWallet(r: Request, env: Env) returns (error: Option<Error>)
      ensures error.None? <==> env.queryOk && env.owns && NoneForAddress(claims, r, addressOf(r.wallet))
      ensures error == Some(NotOwned) <==> env.queryOk && !env.owns
      ensures
        error == Some(MintAlreadyClaimed) <==>
          && env.queryOk && env.owns
          && exists c ::
            && c in claims && OfAddress(c, r, addressOf(r.wallet))
            && c.status in {TxSucceeded, MediaProcessed, MediaFailed}
      ensures
        error == Some(MintTxPending) <==>
          && env.queryOk && env.owns
          && (exists c ::
            && c in claims && OfAddress(c, r, addressOf(r.wallet))
            && c.status in {TxPending, MediaProcessing, FailedInternal})
          && !exists c ::
            && c in claims && OfAddress(c, r, addressOf(r.wallet))
            && c.status in {TxSucceeded, MediaProcessed, MediaFailed}
      ensures error == Some(Other) <==> !env.queryOk
      ensures error.Some? && env.queryOk && env.owns ==>
                AlreadyClaimedByAddress(claims, r, addressOf(r.wallet)) == Failed(error.value)
    {
      if !env.queryOk {
        return Some(Other);
      }
      if !env.owns {
        return Some(NotOwned);
      }
      var status := AlreadyClaimedByAddress(claims, r, addressOf(r.wallet));
      return if status.Failed? then Some(status.error) else None;
    }

    /** What runs between taking the locks and the deferred release. */
    method ClaimGuarded(r: Request, env: nat -> Env) returns (result: Result)
      requires r.pc == Locked
      modifies this`claims, this`tasks, this`mints, this`saveFailed
      ensures
        Finish(Config(), Abs(r.(pc := Releasing(result))), 0, env) == Finish(Config(), old(Abs(r)), 0, env)
    {
      ghost var s := Abs(r);
      ghost var final := Finish(Config(), s, 0, env);
      s := RequestStep(Config(), s, 0, env(4));
      assert final == Finish(Config(), s, 0, env);
      var error := AlreadyClaimedByUser(r, env(4).queryOk);
      if error.Some? {
        assert s == Abs(r.(pc := Releasing(Failed(error.value))));
        return Failed(error.value);
      }
      assert s == Abs(r.(pc := UserClear));
      result := ClaimForWallet(r.(pc := UserClear), env);
    }

    /** After the user's check. */
    method ClaimForWallet(r: Request, env: nat -> Env) returns (result: Result)
      requires r.pc == UserClear
      modifies this`claims, this`tasks, this`mints, this`saveFailed
      ensures
        Finish(Config(), Abs(r.(pc := Releasing(result))), 0, env) == Finish(Config(), old(Abs(r)), 0, env)
    {
      ghost var s := Abs(r);
      ghost var final := Finish(Config(), s, 0, env);
      s := RequestStep(Config(), s, 0, env(5));
      assert final == Finish(Config(), s, 0, env);
      var error := ValidateClaimableForWallet(r, env(5));
      if error.Some? {
        assert s == Abs(r.(pc := Releasing(Failed(error.value))));
        return Failed(error.value);
      }
      assert s == Abs(r.(pc := WalletClear));
      result := MintAndSave(r.(pc := WalletClear), env);
    }

    /** The mint. */
    method MintAndSave(r: Request, env: nat -> Env) returns (result: Result)
      requires r.pc == WalletClear
      modifies this`claims, this`tasks, this`mints, this`saveFailed
      ensures
        Finish(Config(), Abs(r.(pc := Releasing(result))), 0, env) == Finish(Config(), old(Abs(r)), 0, env)
    {
      ghost var s := Abs(r);
      ghost var final := Finish(Config(), s, 0, env);
      s := RequestStep(Config(), s, 0, env(6));
      assert final == Finish(Config(), s, 0, env);
      if !env(6).rateOk {
        assert s == Abs(r.(pc := Releasing(Failed(Other))));
        return Failed(Other);
      }
      if env(6).reply.NotInitiated? {
        assert s == Abs(r.(pc := Releasing(Failed(env(6).reply.error))));
        return Failed(env(6).reply.error);
      }
      var status := if env(6).reply == Accepted then TxPending else TxFailed;
      if status == TxPending {
        mints := mints + [Claim(r.collection, r.user, addressOf(r.wallet), TxPending)];
      }
      assert s == Abs(r.(pc := Initiated(status)));
      result := Save(r.(pc := Initiated(status)), env);
    }

    /** The record, and the task that will follow the transaction. */
    method Save(r: Request, env: nat -> Env) returns (result: Result)
      requires r.pc.Initiated? && r.pc.status in {TxPending, TxFailed}
      modifies this`claims, this`tasks, this`saveFailed
      ensures
        Finish(Config(), Abs(r.(pc := Releasing(result))), 0, env) == Finish(Config(), old(Abs(r)), 0, env)
    {
      var status := r.pc.status;
      ghost var s := Abs(r);
      ghost var final := Finish(Config(), s, 0, env);
      s := RequestStep(Config(), s, 0, env(7));
      assert final == Finish(Config(), s, 0, env);
      if !env(7).saveOk {
        saveFailed := saveFailed || status == TxPending;
        assert s == Abs(r.(pc := Releasing(Failed(Other))));
        return Failed(Other);
      }
      var id := |claims|;
      claims := claims + [Claim(r.collection, r.user, addressOf(r.wallet), status)];
      assert s == Abs(r.(pc := Saved(id, status)));
      s := RequestStep(Config(), s, 0, env(8));
      assert final == Finish(Config(), s, 0, env);
      if status == TxFailed {
        assert s == Abs(r.(pc := Releasing(Failed(Other))));
        return Failed(Other);
      }
      if !env(8).taskOk {
        assert s == Abs(r.(pc := Releasing(Failed(Other))));
        return Failed(Other);
      }
      tasks := tasks + {id};
      assert s == Abs(r.(pc := Releasing(Claimed(id))));
      return Claimed(id);
    }

    /** The locks, what they guard, and the deferred release. */
    method ClaimLocked(r: Request, env: nat -> Env) returns (result: Result)
      requires r.pc == Start
      modifies this
      ensures Abs(r.(pc := Done(result))) == Finish(Config(), old(Abs(r)), 0, env)
    {
      ghost var s := Abs(r);
      ghost var final := Finish(Config(), s, 0, env);
      var error := GuardMinting(r, env);
      s := RequestStep(Config(), s, 0, env(0));
      assert final == Finish(Config(), s, 0, env);
      if error.Some? {
        s := if s.requests[0].pc.Done? then s else RequestStep(Config(), s, 0, env(2));
        assert final == Finish(Config(), s, 0, env);
        assert s == Abs(r.(pc := Done(Failed(error.value))));
        return Failed(error.value);
      }
      s := RequestStep(Config(), s, 0, env(2));
      assert final == Finish(Config(), s, 0, env);
      assert s == Abs(r.(pc := Locked));
      result := ClaimGuarded(r.(pc := Locked), env);
      Release(r.(pc := Releasing(result)), env);
    }

    /** One call, from an arriving request to its answer, is that request's own run in the system. */
    method ClaimHighlightMint(collection: string, user: string, wallet: string, env: nat -> Env)
        returns (result: Result)
      modifies this
      ensures
        Abs(Request(collection, user, wallet, Done(result)))
        == Finish(Config(), old(Abs(Request(collection, user, wallet, Start))), 0, env)
      ensures
        result == CallAnswer(
          Config(), old(locked), old(claims), Request(collection, user, wallet, Start), env).result
      ensures
        var asks := Asks(Config(), old(locked), old(claims), Request(collection, user, wallet, Start), env);
        && (result.Claimed? <==> asks && env(6).reply == Accepted && env(7).saveOk && env(8).taskOk)
        && (result.Claimed? ==> result.id == |old(claims)|)
        && tasks == old(tasks) + (if result.Claimed? then {|old(claims)|} else {})
        && claims == old(claims) + (
             if asks && env(6).reply in {Accepted, Reverted} && env(7).saveOk
             then [Claim(collection, user, addressOf(wallet), if env(6).reply == Accepted then TxPending else TxFailed)]
             else [])
        && mints == old(mints) + (
             if asks && env(6).reply == Accepted
             then [Claim(collection, user, addressOf(wallet), TxPending)]
             else [])
    {
      ghost var s := Abs(Request(collection, user, wallet, Start));
      CallOutcome(Config(), s, env, Finish(Config(), s, 0, env));
      result := ClaimLocked(Request(collection, user, wallet, Start), env);
    }
  }
}
