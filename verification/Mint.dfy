/** The claim protocol of publicapi/mint.go: two locks, two checks, an external mint, a saved record.  Any
    number of requests run it at once; each line of ClaimHighlightMint that touches shared state is a step. */
module Mint {

  /** The lifecycle of a claim (service/multichain/highlight/highlight.go). */
  datatype Status = TxPending | TxFailed | TxSucceeded | MediaProcessing | MediaProcessed | MediaFailed | FailedInternal

  predicate Minted(s: Status) {
    s in {TxSucceeded, MediaProcessed, MediaFailed}
  }

  predicate Pending(s: Status) {
    s in {TxPending, MediaProcessing, FailedInternal}
  }

  predicate Live(s: Status) {
    Minted(s) || Pending(s)
  }

  datatype Key = UserKey(collection: string, user: string) | WalletKey(collection: string, wallet: string)

  /** `address` is the recipient's L1 chain and address. */
  datatype Claim = Claim(collection: string, user: string, address: string, status: Status)

  datatype Error = MintTxPending | MintAlreadyClaimed | NotOwned | Other

  datatype Result = Claimed(id: nat) | Failed(error: Error)

  /** Where a request is.  `UserProbed` and `WalletProbed` exist only where Lock is two operations; `Releasing` and
      `HalfReleased` are the two halves of the deferred release. */
  datatype Pc =
    | Start
    | UserProbed
    | UserLocked
    | WalletProbed
    | Locked
    | UserClear
    | WalletClear
    | Initiated(status: Status)
    | Saved(id: nat, status: Status)
    | Releasing(result: Result)
    | HalfReleased(result: Result)
    | Done(result: Result)

  datatype Request = Request(collection: string, user: string, wallet: string, pc: Pc)

  /** `mints` are the transactions the external service started, oldest first; `saveFailed` says whether a
      record of one could not be saved. */
  datatype State = State(
    locks: set<Key>,
    claims: seq<Claim>,
    tasks: set<nat>,
    requests: seq<Request>,
    mints: seq<Claim>,
    saveFailed: bool)

  /** Lock reads the key and then sets it (service/throttle): with `atomic` that is one step, without it two.
      `addressOf` gives a wallet's L1 address. */
  datatype Config = Config(atomic: bool, addressOf: string -> string)

  datatype MintReply = NotInitiated(error: Error) | Reverted | Accepted

  /** What the surroundings answer: lock store (taking and giving back), wallet ownership, database, rate limiter,
      external mint. */
  datatype Env = Env(
    lockOk: bool,
    unlockOk: bool,
    queryOk: bool,
    owns: bool,
    rateOk: bool,
    reply: MintReply,
    saveOk: bool,
    taskOk: bool)

  function UserKeyOf(r: Request): Key {
    UserKey(r.collection, r.user)
  }

  function WalletKeyOf(r: Request): Key {
    WalletKey(r.collection, r.wallet)
  }

  // ----- The checks

  function AlreadyClaimedByUser(claims: seq<Claim>, r: Request): Result {
    if exists c :: c in claims && c.collection == r.collection && c.user == r.user && Minted(c.status)
    then Failed(MintAlreadyClaimed)
    else if exists c :: c in claims && c.collection == r.collection && c.user == r.user && Pending(c.status)
    then Failed(MintTxPending)
    else Claimed(0)
  }

  function AlreadyClaimedByAddress(claims: seq<Claim>, r: Request, address: string): Result {
    if exists c :: c in claims && c.collection == r.collection && c.address == address && Minted(c.status)
    then Failed(MintAlreadyClaimed)
    else if exists c :: c in claims && c.collection == r.collection && c.address == address && Pending(c.status)
    then Failed(MintTxPending)
    else Claimed(0)
  }

  // ----- One step of one request

  function At(s: State, i: nat, pc: Pc): State
    requires i < |s.requests|
  {
    s.(requests := s.requests[i := s.requests[i].(pc := pc)])
  }

  /** Returning from inside the guarded section runs the deferred release. */
  function Leave(s: State, i: nat, result: Result): State
    requires i < |s.requests|
  {
    At(s, i, Releasing(result))
  }

  /** Giving back one lock.  An error of the lock store is dropped, and the key stays until it expires. */
  function Unlock(s: State, i: nat, key: Key, env: Env, next: Pc): State
    requires i < |s.requests|
  {
    At(s, i, next).(locks := if env.unlockOk then s.locks - {key} else s.locks)
  }

  function TryLock(s: State, i: nat, key: Key, env: Env, atomic: bool, probed: Pc, locked: Pc): State
    requires i < |s.requests|
  {
    if !env.lockOk then At(s, i, Done(Failed(Other)))
    else if key in s.locks then At(s, i, Done(Failed(MintTxPending)))
    else if atomic then At(s, i, locked).(locks := s.locks + {key})
    else At(s, i, probed)
  }

  function SetLock(s: State, i: nat, key: Key, env: Env, locked: Pc): State
    requires i < |s.requests|
  {
    if !env.lockOk then At(s, i, Done(Failed(Other))) else At(s, i, locked).(locks := s.locks + {key})
  }

  function RequestStep(cfg: Config, s: State, i: nat, env: Env): State
    requires i < |s.requests|
  {
    var r := s.requests[i];
    var address := cfg.addressOf(r.wallet);
    match r.pc
    case Start => TryLock(s, i, UserKeyOf(r), env, cfg.atomic, UserProbed, UserLocked)
    case UserProbed => SetLock(s, i, UserKeyOf(r), env, UserLocked)
    case UserLocked => TryLock(s, i, WalletKeyOf(r), env, cfg.atomic, WalletProbed, Locked)
    case WalletProbed => SetLock(s, i, WalletKeyOf(r), env, Locked)
    case Locked =>
      if !env.queryOk then Leave(s, i, Failed(Other))
      else if AlreadyClaimedByUser(s.claims, r).Failed? then Leave(s, i, AlreadyClaimedByUser(s.claims, r))
      else At(s, i, UserClear)
    case UserClear =>
      if !env.queryOk then Leave(s, i, Failed(Other))
      else if !env.owns then Leave(s, i, Failed(NotOwned))
      else if AlreadyClaimedByAddress(s.claims, r, address).Failed?
      then Leave(s, i, AlreadyClaimedByAddress(s.claims, r, address))
      else At(s, i, WalletClear)
    case WalletClear =>
      if !env.rateOk then Leave(s, i, Failed(Other))
      else (match env.reply
            case NotInitiated(error) => Leave(s, i, Failed(error))
            case Reverted => At(s, i, Initiated(TxFailed))
            case Accepted =>
              At(s, i, Initiated(TxPending)).(mints := s.mints + [Claim(r.collection, r.user, address, TxPending)]))
    case Initiated(status) =>
      if !env.saveOk then Leave(s, i, Failed(Other)).(saveFailed := s.saveFailed || status == TxPending)
      else At(s, i, Saved(|s.claims|, status))
             .(claims := s.claims + [Claim(r.collection, r.user, address, status)])
    case Saved(id, status) =>
      if status == TxFailed || !env.taskOk then Leave(s, i, Failed(Other))
      else Leave(s, i, Claimed(id)).(tasks := s.tasks + {id})
    case Releasing(result) => Unlock(s, i, UserKeyOf(r), env, HalfReleased(result))
    case HalfReleased(result) => Unlock(s, i, WalletKeyOf(r), env, Done(result))
    case Done(_) => s
  }

  // ----- The system

  /** `Expire`: a lock's lifetime ends; it outlasts the requests that hold the lock.  `Track`: a task updates
      its claim (tokenprocessing/process.go), never to the status that only a failed claim is saved with. */
  datatype Step =
    | Arrive(collection: string, user: string, wallet: string)
    | Go(i: nat, env: Env)
    | Expire(key: Key)
    | Track(id: nat, status: Status)

  predicate HoldsUser(r: Request) {
    !r.pc.Start? && !r.pc.UserProbed? && !r.pc.HalfReleased? && !r.pc.Done?
  }

  predicate HoldsWallet(r: Request) {
    (HoldsUser(r) && !r.pc.UserLocked? && !r.pc.WalletProbed?) || r.pc.HalfReleased?
  }

  /** Past both locks and not yet giving them back. */
  predicate Inside(r: Request) {
    HoldsUser(r) && HoldsWallet(r)
  }

  predicate Holds(r: Request, key: Key) {
    (HoldsUser(r) && key == UserKeyOf(r)) || (HoldsWallet(r) && key == WalletKeyOf(r))
  }

  predicate Enabled(s: State, step: Step) {
    match step
    case Arrive(_, _, _) => true
    case Go(i, _) => i < |s.requests|
    case Expire(key) => forall i :: 0 <= i < |s.requests| ==> !Holds(s.requests[i], key)
    case Track(id, status) => id in s.tasks && id < |s.claims| && status != TxFailed
  }

  function Do(cfg: Config, s: State, step: Step): State
    requires Enabled(s, step)
  {
    match step
    case Arrive(collection, user, wallet) => s.(requests := s.requests + [Request(collection, user, wallet, Start)])
    case Go(i, env) => RequestStep(cfg, s, i, env)
    case Expire(key) => s.(locks := s.locks - {key})
    case Track(id, status) => s.(claims := s.claims[id := s.claims[id].(status := status)])
  }

  function Init(): State {
    State({}, [], {}, [], [], false)
  }

  predicate Legal(cfg: Config, s: State, steps: seq<Step>)
    decreases |steps|
  {
    steps == [] || (Enabled(s, steps[0]) && Legal(cfg, Do(cfg, s, steps[0]), steps[1..]))
  }

  function Run(cfg: Config, s: State, steps: seq<Step>): State
    requires Legal(cfg, s, steps)
    decreases |steps|
  {
    if steps == [] then s else Run(cfg, Do(cfg, s, steps[0]), steps[1..])
  }

  ghost predicate Reachable(cfg: Config, s: State) {
    exists steps :: Legal(cfg, Init(), steps) && s == Run(cfg, Init(), steps)
  }

  // ----- What is promised

  predicate SameUser(a: Claim, b: Claim) {
    a.collection == b.collection && a.user == b.user
  }

  predicate SameAddress(a: Claim, b: Claim) {
    a.collection == b.collection && a.address == b.address
  }

  /** No two claims for the same user, or for the same address, of a collection. */
  predicate Apart(claims: seq<Claim>) {
    forall i, j :: 0 <= i < j < |claims| && Live(claims[i].status) && Live(claims[j].status) ==>
      !SameUser(claims[i], claims[j]) && !SameAddress(claims[i], claims[j])
  }

  ghost predicate Injective(f: string -> string) {
    forall x, y :: f(x) == f(y) ==> x == y
  }

  // ----- The invariant

  /** Each lock has at most one holder, and what is held is locked. */
  predicate LocksOk(s: State) {
    && (forall i :: 0 <= i < |s.requests| && HoldsUser(s.requests[i]) ==> UserKeyOf(s.requests[i]) in s.locks)
    && (forall i :: 0 <= i < |s.requests| && HoldsWallet(s.requests[i]) ==> WalletKeyOf(s.requests[i]) in s.locks)
    && (forall i, j :: 0 <= i < j < |s.requests| && HoldsUser(s.requests[i]) && HoldsUser(s.requests[j]) ==>
          UserKeyOf(s.requests[i]) != UserKeyOf(s.requests[j]))
    && (forall i, j :: 0 <= i < j < |s.requests| && HoldsWallet(s.requests[i]) && HoldsWallet(s.requests[j]) ==>
          WalletKeyOf(s.requests[i]) != WalletKeyOf(s.requests[j]))
  }

  predicate NoneForUser(claims: seq<Claim>, r: Request) {
    forall c :: c in claims && Live(c.status) ==> !(c.collection == r.collection && c.user == r.user)
  }

  predicate NoneForAddress(claims: seq<Claim>, r: Request, address: string) {
    forall c :: c in claims && Live(c.status) ==> !(c.collection == r.collection && c.address == address)
  }

  /** What a request has checked stays true until it saves its claim. */
  predicate ChecksOk(cfg: Config, s: State) {
    forall i :: 0 <= i < |s.requests| ==>
      var r := s.requests[i];
      && (r.pc.UserClear? || r.pc.WalletClear? || r.pc.Initiated? ==> NoneForUser(s.claims, r))
      && (r.pc.WalletClear? || r.pc.Initiated? ==> NoneForAddress(s.claims, r, cfg.addressOf(r.wallet)))
      && (r.pc.Initiated? ==> r.pc.status in {TxPending, TxFailed})
      && (r.pc.Saved? ==> r.pc.id < |s.claims| && (r.pc.status != TxFailed ==> Live(s.claims[r.pc.id].status)))
  }

  predicate TasksOk(s: State) {
    forall id :: id in s.tasks ==> id < |s.claims| && Live(s.claims[id].status)
  }

  /** A mint is on record, or its request is about to save it. */
  predicate Accounted(cfg: Config, s: State, m: Claim) {
    || (exists c :: c in s.claims && Live(c.status) && SameUser(c, m) && SameAddress(c, m))
    || (exists i :: 0 <= i < |s.requests| && s.requests[i].pc == Initiated(TxPending)
          && s.requests[i].collection == m.collection && s.requests[i].user == m.user
          && cfg.addressOf(s.requests[i].wallet) == m.address)
  }

  predicate MintsOk(cfg: Config, s: State) {
    !s.saveFailed ==>
      && Apart(s.mints)
      && (forall m :: m in s.mints ==> m.status == TxPending && Accounted(cfg, s, m))
  }

  predicate Inv(cfg: Config, s: State) {
    LocksOk(s) && ChecksOk(cfg, s) && TasksOk(s) && Apart(s.claims) && MintsOk(cfg, s)
  }
}
