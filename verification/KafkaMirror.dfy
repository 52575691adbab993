/** The whole mirror: a partitioned topic, the committed offsets of one consumer group, the mirror table,
    and any number of streamers, each running streamTopic under the restart loop of runStreamer
    (kafka-streamer/main.go).  A `Step` is one atomic action; a run is any sequence of enabled steps. */
module KafkaMirror {
  import opened Options
  import opened KafkaTable
  import B = KafkaBatcher

  datatype Config<!A, !R> = Config(
    kind: Kind,
    parse: Message<A> -> B.Outcome<Entry<R>>,
    partitionOf: string -> nat,
    partitions: nat,
    streamers: nat,
    maxSize: nat,
    zero: Entry<R>)

  ghost predicate Routed<A, R>(cfg: Config<A, R>) {
    forall k :: cfg.partitionOf(k) < cfg.partitions
  }

  /** The key of a message decides its partition, and an entry is written under its message's key. */
  ghost predicate Sound<A(!new), R>(cfg: Config<A, R>) {
    && cfg.maxSize >= 1
    && Routed(cfg)
    && (forall m :: cfg.parse(m).Parsed? ==> cfg.parse(m).value.key == m.key)
  }

  /** `Polling`: in ReadMessage.  `Added`: a message was added, IsReady is next.  `Failing`: streamTopic is
      returning an error and its consumer is still in the group.  `Closed`: it has left the group. */
  datatype Pc = Polling | Added | Failing | Closed

  /** `base` is the committed offset of each assigned partition when the current batch was empty. */
  datatype Streamer<A, R> = Streamer(
    pc: Pc,
    owned: set<nat>,
    base: seq<nat>,
    position: seq<nat>,
    batch: B.Batch<Message<A>, Entry<R>>)

  /** `ahead[p]` is one more than the largest offset of partition p whose batch ever reached submitF, and
      `delivered` holds the messages whose entries were in a slice that submitF accepted. */
  datatype Mirror<A, R> = Mirror(
    log: seq<seq<Message<A>>>,
    committed: seq<nat>,
    ahead: seq<nat>,
    delivered: set<(nat, nat)>,
    table: map<string, Row<R>>,
    streamers: seq<Streamer<A, R>>)

  /** How one Submit ends.  When submitF fails it may have executed any of its entries (`applied`); when
      the commit fails the broker may have stored the offsets all the same (`landed`). */
  datatype SubmitEnv<R> = SubmitEnv(dbOk: bool, applied: seq<Entry<R>>, commitOk: bool, landed: bool)

  datatype Step<A, R> =
    | Append(message: Message<A>)
    | Assign(i: nat, partitions: set<nat>, ok: bool)
    | Read(i: nat, p: nat, deadline: int)
    | WorkerDone(i: nat, index: nat, flaky: bool)
    | CheckReady(i: nat, now: int, env: SubmitEnv<R>)
    | PollTimeout(i: nat, now: int, env: SubmitEnv<R>)
    | Revoke(i: nat, env: SubmitEnv<R>, unassignOk: bool)
    | ReadFails(i: nat)
    | Close(i: nat)
    | CloseRevokes(i: nat, env: SubmitEnv<R>)
    | Restart(i: nat)
    | Crash(i: nat, applied: seq<Entry<R>>)

  ghost function Repeat<X>(n: nat, x: X): seq<X> {
    seq(n, _ => x)
  }

  ghost function NewStreamer<A, R>(cfg: Config<A, R>): Streamer<A, R> {
    Streamer(Polling, {}, Repeat(cfg.partitions, 0), Repeat(cfg.partitions, 0), B.Fresh())
  }

  ghost function Init<A, R>(cfg: Config<A, R>): Mirror<A, R> {
    Mirror(Repeat(cfg.partitions, []), Repeat(cfg.partitions, 0), Repeat(cfg.partitions, 0), {}, map[],
           Repeat(cfg.streamers, NewStreamer(cfg)))
  }

  /** `to[p]` for the partitions in `ps`, `from[p]` for the others. */
  ghost function Overwrite(from: seq<nat>, ps: set<nat>, to: seq<nat>): (r: seq<nat>)
    requires |from| == |to|
  {
    seq(|from|, p requires 0 <= p < |from| => if p in ps then to[p] else from[p])
  }

  ghost function Raise(from: seq<nat>, ps: set<nat>, to: seq<nat>): (r: seq<nat>)
    requires |from| == |to|
  {
    seq(|from|, p requires 0 <= p < |from| => if p in ps && to[p] > from[p] then to[p] else from[p])
  }

  ghost function Refs<A, R>(slice: seq<B.Slot<Message<A>, Entry<R>>>): set<(nat, nat)> {
    set s | s in slice :: (s.from.partition, s.from.offset)
  }

  // ----- The steps

  ghost predicate Shaped<A, R>(cfg: Config<A, R>, s: Mirror<A, R>) {
    && |s.log| == |s.committed| == |s.ahead| == cfg.partitions
    && |s.streamers| == cfg.streamers
    && (forall i :: 0 <= i < cfg.streamers ==>
          && |s.streamers[i].base| == |s.streamers[i].position| == cfg.partitions
          && (forall p :: p in s.streamers[i].owned ==> p < cfg.partitions))
  }

  /** What one action does outside its streamer: the entries it executes, whether submitF was called at all, the
      messages whose entries submitF accepted, and whether the broker stored the offsets. */
  datatype Effects<R> = Effects(executed: seq<Entry<R>>, reached: bool, accepted: set<(nat, nat)>, stored: bool)

  ghost function SubmitEffects<A, R>(b: B.Batch<Message<A>, Entry<R>>, env: SubmitEnv<R>): Effects<R>
    requires b.pending.Keys == {}
  {
    match B.Submit(b, env.dbOk, env.commitOk).1
    case SubmitFailed(_) => Effects(env.applied, true, {}, false)
    case CommitFailed(slice) => Effects(Entries(slice), true, Refs(slice), env.landed)
    case Committed(slice) => Effects(Entries(slice), true, Refs(slice), true)
    case _ => Effects([], false, {}, false)
  }

  /** The streamer after its Submit; `next` is where it goes on when there was no error.  A panic takes the process
      down. */
  ghost function NextStreamer<A, R>(cfg: Config<A, R>, c: Streamer<A, R>, env: SubmitEnv<R>, next: Pc): Streamer<A, R>
    requires c.batch.pending.Keys == {}
  {
    var (b, r) := B.Submit(c.batch, env.dbOk, env.commitOk);
    match r
    case Nothing => c.(pc := next)
    case ParseFailed => c.(pc := Failing)
    case Panicked => NewStreamer(cfg)
    case SubmitFailed(_) => c.(batch := b, pc := Failing)
    case CommitFailed(_) => c.(batch := b, pc := Failing)
    case Committed(_) => c.(batch := b, base := c.position, pc := next)
  }

  /** The offsets once an action of `c` has happened. */
  ghost function Offsets<A, R>(s: Mirror<A, R>, c: Streamer<A, R>, x: Effects<R>): (r: seq<nat>)
    requires |s.committed| == |c.position|
    ensures |r| == |s.committed|
  {
    if x.stored then Overwrite(s.committed, c.owned, c.position) else s.committed
  }

  /** How far the table may be then. */
  ghost function Reach<A, R>(s: Mirror<A, R>, c: Streamer<A, R>, x: Effects<R>): (r: seq<nat>)
    requires |s.ahead| == |c.position|
    ensures |r| == |s.ahead|
  {
    if x.reached then Raise(s.ahead, c.owned, c.position) else s.ahead
  }

  /** Streamer `i` has the effects `x` and becomes `c'`. */
  ghost function After<A, R>(
    cfg: Config<A, R>, s: Mirror<A, R>, i: nat, x: Effects<R>, c': Streamer<A, R>): Mirror<A, R>
    requires Shaped(cfg, s) && i < cfg.streamers
  {
    var c := s.streamers[i];
    s.(table := ExecuteAll(cfg.kind, s.table, x.executed),
       ahead := Reach(s, c, x),
       delivered := s.delivered + x.accepted,
       committed := Offsets(s, c, x),
       streamers := s.streamers[i := c'])
  }

  /** Submit as streamer `i` calls it. */
  ghost function SubmitStep<A, R>(
    cfg: Config<A, R>, s: Mirror<A, R>, i: nat, env: SubmitEnv<R>, next: Pc): Mirror<A, R>
    requires Shaped(cfg, s) && i < cfg.streamers && s.streamers[i].batch.pending.Keys == {}
  {
    var c := s.streamers[i];
    After(cfg, s, i, SubmitEffects(c.batch, env), NextStreamer(cfg, c, env, next))
  }

  /** Only entries handed to submitF can have been executed. */
  ghost predicate AppliedFrom<A, R>(b: B.Batch<Message<A>, Entry<R>>, applied: seq<Entry<R>>) {
    forall e :: e in applied ==> e in Entries(B.Filtered(b))
  }

  /** The wait group blocks Submit until no worker is outstanding. */
  ghost predicate CanSubmit<A, R>(b: B.Batch<Message<A>, Entry<R>>, env: SubmitEnv<R>) {
    b.pending.Keys == {} && AppliedFrom(b, env.applied)
  }

  ghost predicate Enabled<A, R>(cfg: Config<A, R>, s: Mirror<A, R>, step: Step<A, R>)
    requires Shaped(cfg, s)
  {
    match step
    case Append(m) =>
      m.partition < cfg.partitions && m.partition == cfg.partitionOf(m.key) && m.offset == |s.log[m.partition]|
    case Assign(i, ps, _) =>
      && i < cfg.streamers && s.streamers[i].pc == Polling && s.streamers[i].owned == {}
      && (forall p :: p in ps ==> p < cfg.partitions)
      && (forall j :: 0 <= j < cfg.streamers ==> s.streamers[j].owned !! ps)
    case Read(i, p, _) =>
      && i < cfg.streamers && s.streamers[i].pc == Polling && p in s.streamers[i].owned
      && s.streamers[i].position[p] < |s.log[p]|
    case WorkerDone(i, index, _) =>
      && i < cfg.streamers && index in s.streamers[i].batch.pending && index < |s.streamers[i].batch.entries|
    case CheckReady(i, now, env) =>
      && i < cfg.streamers && s.streamers[i].pc == Added
      && (B.IsReady(s.streamers[i].batch, cfg.maxSize, now) ==> CanSubmit(s.streamers[i].batch, env))
    case PollTimeout(i, now, env) =>
      && i < cfg.streamers && s.streamers[i].pc == Polling
      && (B.IsReady(s.streamers[i].batch, cfg.maxSize, now) ==> CanSubmit(s.streamers[i].batch, env))
    case Revoke(i, env, _) =>
      && i < cfg.streamers && s.streamers[i].pc == Polling && CanSubmit(s.streamers[i].batch, env)
    case ReadFails(i) =>
      i < cfg.streamers && s.streamers[i].pc == Polling
    case Close(i) =>
      i < cfg.streamers && s.streamers[i].pc == Failing
    case CloseRevokes(i, env) =>
      i < cfg.streamers && s.streamers[i].pc == Failing && CanSubmit(s.streamers[i].batch, env)
    case Restart(i) =>
      && i < cfg.streamers && s.streamers[i].pc == Closed
      && (s.streamers[i].batch.entries != [] ==> s.streamers[i].batch.pending.Keys == {})
    case Crash(i, applied) =>
      && i < cfg.streamers
      && (applied != [] ==>
            && s.streamers[i].pc != Closed && CanSubmit(s.streamers[i].batch, SubmitEnv(false, applied, false, false))
            && !B.HasFatal(s.streamers[i].batch.errors) && !B.NegativeCapacity(s.streamers[i].batch))
  }

  /** A crash, possibly in the middle of submitF. */
  ghost function CrashEffects<R>(applied: seq<Entry<R>>): Effects<R> {
    Effects(applied, applied != [], {}, false)
  }

  ghost function Leave<A, R>(s: Mirror<A, R>, i: nat): Mirror<A, R>
    requires i < |s.streamers|
  {
    s.(streamers := s.streamers[i := s.streamers[i].(pc := Closed, owned := {})])
  }

  ghost function Do<A, R>(cfg: Config<A, R>, s: Mirror<A, R>, step: Step<A, R>): Mirror<A, R>
    requires Shaped(cfg, s) && Enabled(cfg, s, step)
  {
    match step
    case Append(m) => s.(log := s.log[m.partition := s.log[m.partition] + [m]])
    case Assign(i, ps, ok) =>
      var c := s.streamers[i];
      if !ok then s.(streamers := s.streamers[i := c.(pc := Failing)])
      else s.(streamers := s.streamers[i := c.(owned := ps,
                                               base := Overwrite(c.base, ps, s.committed),
                                               position := Overwrite(c.position, ps, s.committed))])
    case Read(i, p, deadline) =>
      var c := s.streamers[i];
      s.(streamers := s.streamers[i := c.(pc := Added,
                                          position := c.position[p := c.position[p] + 1],
                                          batch := B.Add(c.batch, s.log[p][c.position[p]], cfg.zero, deadline))])
    case WorkerDone(i, index, flaky) =>
      var c := s.streamers[i];
      var o := if flaky then B.Fatal else cfg.parse(c.batch.pending[index]);
      s.(streamers := s.streamers[i := c.(batch := B.Finish(c.batch, index, o))])
    case CheckReady(i, now, env) =>
      if B.IsReady(s.streamers[i].batch, cfg.maxSize, now) then SubmitStep(cfg, s, i, env, Polling)
      else s.(streamers := s.streamers[i := s.streamers[i].(pc := Polling)])
    case PollTimeout(i, now, env) =>
      if B.IsReady(s.streamers[i].batch, cfg.maxSize, now) then SubmitStep(cfg, s, i, env, Polling) else s
    case Revoke(i, env, unassignOk) =>
      var t := SubmitStep(cfg, s, i, env, Polling);
      var c := t.streamers[i];
      if c.pc == Failing then t
      else if !unassignOk then t.(streamers := t.streamers[i := c.(pc := Failing)])
      else t.(streamers := t.streamers[i := c.(owned := {})])
    case ReadFails(i) => s.(streamers := s.streamers[i := s.streamers[i].(pc := Failing)])
    case Close(i) => Leave(s, i)
    case CloseRevokes(i, env) => Leave(SubmitStep(cfg, s, i, env, Failing), i)
    case Restart(i) =>
      s.(streamers := s.streamers[i := s.streamers[i].(pc := Polling, batch := B.Reset(s.streamers[i].batch))])
    case Crash(i, applied) => After(cfg, s, i, CrashEffects(applied), NewStreamer(cfg))
  }

  /** `steps` can be taken one after the other from `s`. */
  ghost predicate Legal<A, R>(cfg: Config<A, R>, s: Mirror<A, R>, steps: seq<Step<A, R>>)
    decreases |steps|
  {
    steps == [] ||
    (Shaped(cfg, s) && Enabled(cfg, s, steps[0]) && Legal(cfg, Do(cfg, s, steps[0]), steps[1..]))
  }

  ghost function Run<A, R>(cfg: Config<A, R>, s: Mirror<A, R>, steps: seq<Step<A, R>>): Mirror<A, R>
    requires Legal(cfg, s, steps)
    decreases |steps|
  {
    if steps == [] then s else Run(cfg, Do(cfg, s, steps[0]), steps[1..])
  }

  /** The batch was already filtered by a Submit that failed, and recorded failures are still there: another
      Submit filters it by indexes that belonged to the longer batch. */
  ghost predicate Refilters<A, R>(b: B.Batch<Message<A>, Entry<R>>) {
    b.errors != {} && |b.entries| < |b.added|
  }

  // ----- The invariant

  ghost predicate LogOk<A, R>(cfg: Config<A, R>, s: Mirror<A, R>)
    requires Shaped(cfg, s)
  {
    && (forall p, o :: 0 <= p < cfg.partitions && 0 <= o < |s.log[p]| ==>
          s.log[p][o].partition == p && s.log[p][o].offset == o && cfg.partitionOf(s.log[p][o].key) == p)
    && (forall p :: 0 <= p < cfg.partitions ==> s.committed[p] <= |s.log[p]| && s.ahead[p] <= |s.log[p]|)
  }

  ghost predicate Exclusive<A, R>(cfg: Config<A, R>, s: Mirror<A, R>)
    requires Shaped(cfg, s)
  {
    forall i, j :: 0 <= i < j < cfg.streamers ==> s.streamers[i].owned !! s.streamers[j].owned
  }

  /** The table never runs further ahead of the committed offset than one batch. */
  ghost predicate Window<A, R>(cfg: Config<A, R>, s: Mirror<A, R>)
    requires Shaped(cfg, s)
  {
    forall p :: 0 <= p < cfg.partitions ==> s.ahead[p] <= s.committed[p] + cfg.maxSize
  }

  /** The batch holds exactly the messages between the batch's base and the read position, per partition. */
  ghost predicate Matches<A, R>(cfg: Config<A, R>, s: Mirror<A, R>, c: Streamer<A, R>)
    requires Shaped(cfg, s) && |c.base| == |c.position| == cfg.partitions
  {
    && (forall m :: m in c.batch.added ==> m.partition < cfg.partitions)
    && (forall p :: 0 <= p < cfg.partitions && p in c.owned ==>
          && c.base[p] <= s.committed[p] <= c.position[p] <= |s.log[p]|
          && OnPartition(c.batch.added, p) == s.log[p][c.base[p]..c.position[p]])
    && (forall p :: 0 <= p < cfg.partitions && p !in c.owned ==> OnPartition(c.batch.added, p) == [])
  }

  /** A batch whose submission failed after filtering. */
  ghost predicate Retained<A, R>(cfg: Config<A, R>, b: B.Batch<Message<A>, Entry<R>>) {
    && b.pending.Keys == {}
    && !B.HasFatal(b.errors)
    && b.entries == B.Successes(cfg.parse, b.added)
    && (b.errors != {} ==> |b.entries| < |b.added|)
    && (forall m :: m in b.added ==> !cfg.parse(m).Fatal?)
  }

  ghost predicate StreamerOk<A, R>(cfg: Config<A, R>, s: Mirror<A, R>, c: Streamer<A, R>)
    requires Shaped(cfg, s) && |c.base| == |c.position| == cfg.partitions
  {
    && B.WellIndexed(c.batch)
    && !c.batch.closed
    && |c.batch.added| <= cfg.maxSize
    && (c.pc == Polling ==> |c.batch.added| < cfg.maxSize)
    && (c.pc == Closed ==> c.owned == {})
    && (c.pc != Closed ==> Matches(cfg, s, c))
    && (c.pc == Polling || c.pc == Added ==>
          && B.Faithful(cfg.parse, c.batch)
          && (forall p :: 0 <= p < cfg.partitions && p in c.owned ==> c.base[p] == s.committed[p]))
    && (c.pc == Failing ==> B.Faithful(cfg.parse, c.batch) || Retained(cfg, c.batch))
  }

  /** Commit safety: below the committed offset every message was delivered or is a non-fatal failure. */
  ghost predicate Settled<A, R>(cfg: Config<A, R>, s: Mirror<A, R>)
    requires Shaped(cfg, s) && LogOk(cfg, s)
  {
    forall p, o :: 0 <= p < cfg.partitions && 0 <= o < s.committed[p] ==>
      (p, o) in s.delivered || cfg.parse(s.log[p][o]).NonFatal?
  }

  /** `v` is what the log up to `lo` leaves at `k`, or the effect of one message between `lo` and `hi`. */
  ghost predicate Explained<A, R>(
    cfg: Config<A, R>, log: seq<Message<A>>, lo: nat, hi: nat, k: string, v: Option<Row<R>>)
    requires lo <= |log| && hi <= |log|
  {
    || v == Fold(cfg.kind, cfg.parse, log[..lo], k, None)
    || exists o :: lo <= o < hi && Affects(cfg.parse, log[o], k) && v == Effect(cfg.kind, cfg.parse(log[o]).value)
  }

  ghost predicate TableOk<A, R>(cfg: Config<A, R>, s: Mirror<A, R>)
    requires Routed(cfg) && Shaped(cfg, s) && LogOk(cfg, s)
  {
    forall k :: Explained(cfg, s.log[cfg.partitionOf(k)], s.committed[cfg.partitionOf(k)], s.ahead[cfg.partitionOf(k)],
        k,
                          Lookup(cfg.kind, s.table, k))
  }

  /** What every step keeps.  Settled and TableOk are kept by all steps but some closings. */
  ghost predicate Core<A(!new), R>(cfg: Config<A, R>, s: Mirror<A, R>)
    requires Sound(cfg)
  {
    && Shaped(cfg, s)
    && LogOk(cfg, s)
    && Exclusive(cfg, s)
    && Window(cfg, s)
    && (forall i :: 0 <= i < cfg.streamers ==> StreamerOk(cfg, s, s.streamers[i]))
  }
}
