/** The mirror's guarantees.  What holds in every run is stated of Reachable states, commit safety of runs whose
    closings are lossless, and convergence of runs that give no failed batch to submitF again without the guard.  How
    exact these conditions are is in KafkaMirrorCommits and KafkaMirrorTable. */
module KafkaMirrorResults {
  import opened Options
  import opened KafkaTable
  import opened KafkaMirror
  import Safety = KafkaMirrorSafety
  import Commits = KafkaMirrorCommits
  import Tables = KafkaMirrorTable
  import B = KafkaBatcher

  /** `s` is where some run from the initial state ends. */
  ghost predicate Reachable<A(!new), R(!new)>(cfg: Config<A, R>, s: Mirror<A, R>) {
    exists steps :: Legal(cfg, Init(cfg), steps) && s == Run(cfg, Init(cfg), steps)
  }

  /** Some run whose closings are all lossless ends in `s`. */
  ghost predicate ReachableLossless<A(!new), R(!new)>(cfg: Config<A, R>, s: Mirror<A, R>) {
    exists steps ::
      Legal(cfg, Init(cfg), steps) && Commits.AllLossless(cfg, Init(cfg), steps) && s == Run(cfg, Init(cfg), steps)
  }

  /** Some run ends in `s` in which no failed batch was given to submitF again without the guard. */
  ghost predicate ReachableGuarded<A(!new), R(!new)>(cfg: Config<A, R>, s: Mirror<A, R>)
    requires Sound(cfg)
  {
    exists steps ::
      Legal(cfg, Init(cfg), steps) && Tables.AllGuarded(cfg, Init(cfg), steps) && s == Run(cfg, Init(cfg), steps)
  }

  lemma ReachableCore<A(!new), R(!new)>(cfg: Config<A, R>, s: Mirror<A, R>)
    requires Sound(cfg) && Reachable(cfg, s)
    ensures Core(cfg, s)
  {
    var steps :| Legal(cfg, Init(cfg), steps) && s == Run(cfg, Init(cfg), steps);
    Safety.InitCore(cfg);
    Safety.RunKeepsCore(cfg, Init(cfg), steps);
  }

  lemma LosslessIsSettled<A(!new), R(!new)>(cfg: Config<A, R>, s: Mirror<A, R>)
    requires Sound(cfg) && ReachableLossless(cfg, s)
    ensures Core(cfg, s) && Settled(cfg, s)
  {
    var steps :| Legal(cfg, Init(cfg), steps) && Commits.AllLossless(cfg, Init(cfg), steps)
                 && s == Run(cfg, Init(cfg), steps);
    Safety.InitCore(cfg);
    Commits.RunIsSettledIff(cfg, Init(cfg), steps);
  }

  lemma InitIsExplained<A(!new), R>(cfg: Config<A, R>)
    requires Sound(cfg)
    ensures Core(cfg, Init(cfg)) && TableOk(cfg, Init(cfg))
  {
    Safety.InitCore(cfg);
  }

  lemma GuardedIsExplained<A(!new), R(!new)>(cfg: Config<A, R>, s: Mirror<A, R>)
    requires Sound(cfg) && ReachableGuarded(cfg, s)
    ensures Core(cfg, s) && TableOk(cfg, s)
  {
    var steps :| Legal(cfg, Init(cfg), steps) && Tables.AllGuarded(cfg, Init(cfg), steps)
                 && s == Run(cfg, Init(cfg), steps);
    InitIsExplained(cfg);
    Tables.GuardedRunKeepsKeys(cfg, Init(cfg), steps);
  }

  // ----- Commits

  /** Commit safety: the committed offset never passes a message unless the database accepted its entry or
      its parse is a non-fatal failure.  In particular it never passes a fatal failure. */
  lemma CommitSafety<A(!new), R(!new)>(cfg: Config<A, R>, s: Mirror<A, R>, p: nat, o: nat)
    requires Sound(cfg) && ReachableLossless(cfg, s)
    requires p < cfg.partitions && Shaped(cfg, s) && o < s.committed[p]
    ensures o < |s.log[p]|
    ensures (p, o) in s.delivered || cfg.parse(s.log[p][o]) == B.NonFatal
  {
    LosslessIsSettled(cfg, s);
  }

  /** A step in which submitF is called and accepts what it gets. */
  ghost predicate Accepts<A, R>(step: Step<A, R>) {
    match step
    case CheckReady(_, _, env) => env.dbOk
    case PollTimeout(_, _, env) => env.dbOk
    case Revoke(_, env, _) => env.dbOk
    case CloseRevokes(_, env) => env.dbOk
    case _ => false
  }

  lemma OnlyAcceptedSubmits<A, R>(cfg: Config<A, R>, s: Mirror<A, R>, i: nat, env: SubmitEnv<R>, next: Pc)
    requires Shaped(cfg, s) && i < cfg.streamers && s.streamers[i].batch.pending.Keys == {}
    requires s.streamers[i].batch.entries != []
    ensures
      var t := SubmitStep(cfg, s, i, env, next);
      !env.dbOk ==> t.committed == s.committed && t.delivered == s.delivered
  {
    B.SubmitEnds(s.streamers[i].batch, env.dbOk, env.commitOk);
  }

  /** Offsets move, and messages count as delivered, only in a step in which the database has accepted the batch. */
  lemma OffsetsFollowTheDatabase<A, R>(cfg: Config<A, R>, s: Mirror<A, R>, step: Step<A, R>)
    requires Shaped(cfg, s) && Enabled(cfg, s, step)
    ensures
      var t := Do(cfg, s, step);
      t.committed != s.committed || t.delivered != s.delivered ==> Accepts(step)
  {
    match step
    case CheckReady(i, now, env) =>
      if s.streamers[i].batch.entries != [] && s.streamers[i].batch.pending.Keys == {} {
        OnlyAcceptedSubmits(cfg, s, i, env, Polling);
      }
    case PollTimeout(i, now, env) =>
      if s.streamers[i].batch.entries != [] && s.streamers[i].batch.pending.Keys == {} {
        OnlyAcceptedSubmits(cfg, s, i, env, Polling);
      }
    case Revoke(i, env, _) =>
      if s.streamers[i].batch.entries != [] {
        OnlyAcceptedSubmits(cfg, s, i, env, Polling);
      }
    case CloseRevokes(i, env) =>
      if s.streamers[i].batch.entries != [] {
        OnlyAcceptedSubmits(cfg, s, i, env, Failing);
      }
    case _ =>
  }

  // ----- The table

  /** The table shows at `k` what the log up to the committed offset makes of it. */
  ghost predicate Folded<A, R>(cfg: Config<A, R>, s: Mirror<A, R>, k: string) {
    var p := cfg.partitionOf(k);
    && p < cfg.partitions && Shaped(cfg, s) && s.committed[p] <= |s.log[p]|
    && Lookup(cfg.kind, s.table, k) == Fold(cfg.kind, cfg.parse, s.log[p][..s.committed[p]], k, None)
  }

  lemma ExplainedIsFolded<A(!new), R>(cfg: Config<A, R>, s: Mirror<A, R>, k: string)
    requires Sound(cfg) && Core(cfg, s) && TableOk(cfg, s)
    requires s.ahead[cfg.partitionOf(k)] <= s.committed[cfg.partitionOf(k)]
    ensures Folded(cfg, s, k)
  {
    var p := cfg.partitionOf(k);
    assert Explained(cfg, s.log[p], s.committed[p], s.ahead[p], k, Lookup(cfg.kind, s.table, k));
  }

  /** A step after which everything is committed and some key is not folded has not kept its keys. */
  lemma NotFoldedNotKept<A(!new), R>(cfg: Config<A, R>, s: Mirror<A, R>, step: Step<A, R>, k: string)
    requires Sound(cfg) && Core(cfg, s) && TableOk(cfg, s) && Enabled(cfg, s, step)
    requires
      var t := Do(cfg, s, step);
      !Folded(cfg, t, k) && |t.ahead| == |t.committed| == cfg.partitions && t.ahead == t.committed
    ensures !Tables.KeepsKeys(cfg, s, step)
  {
    Tables.StepIsExplainedIff(cfg, s, step);
    if Tables.KeepsKeys(cfg, s, step) {
      ExplainedIsFolded(cfg, Do(cfg, s, step), k);
    }
  }

  /** Replay convergence: whatever failed, was half executed, replayed or crashed on the way, once the
      committed offset of a partition has reached everything ever handed to the database for it, the table
      shows at each of its keys exactly the in-order fold of the log up to the committed offset. */
  lemma Convergence<A(!new), R(!new)>(cfg: Config<A, R>, s: Mirror<A, R>, k: string)
    requires Sound(cfg) && ReachableGuarded(cfg, s)
    ensures Shaped(cfg, s) && LogOk(cfg, s) && cfg.partitionOf(k) < cfg.partitions
    ensures
      var p := cfg.partitionOf(k);
      s.ahead[p] <= s.committed[p] ==>
        Lookup(cfg.kind, s.table, k) == Fold(cfg.kind, cfg.parse, s.log[p][..s.committed[p]], k, None)
  {
    GuardedIsExplained(cfg, s);
    var p := cfg.partitionOf(k);
    if s.ahead[p] <= s.committed[p] {
      ExplainedIsFolded(cfg, s, k);
    }
  }

  /** When everything on a partition is committed, the table is the fold of the whole partition. */
  lemma CaughtUp<A(!new), R(!new)>(cfg: Config<A, R>, s: Mirror<A, R>, k: string)
    requires Sound(cfg) && ReachableGuarded(cfg, s) && Shaped(cfg, s) && cfg.partitionOf(k) < cfg.partitions
    requires s.committed[cfg.partitionOf(k)] == |s.log[cfg.partitionOf(k)]|
    ensures Lookup(cfg.kind, s.table, k) == Fold(cfg.kind, cfg.parse, s.log[cfg.partitionOf(k)], k, None)
  {
    Convergence(cfg, s, k);
    var log := s.log[cfg.partitionOf(k)];
    assert log[..|log|] == log;
  }

  /** The same, said of the rows: the last message on the partition whose entry has the key decides. */
  lemma CaughtUpRow<A(!new), R(!new)>(cfg: Config<A, R>, s: Mirror<A, R>, k: string, o: nat)
    requires Sound(cfg) && ReachableGuarded(cfg, s) && Shaped(cfg, s) && cfg.partitionOf(k) < cfg.partitions
    requires s.committed[cfg.partitionOf(k)] == |s.log[cfg.partitionOf(k)]|
    requires
      var log := s.log[cfg.partitionOf(k)];
      && o < |log| && cfg.parse(log[o]).Parsed? && cfg.parse(log[o]).value.key == k
      && forall j :: o < j < |log| ==> !(cfg.parse(log[j]).Parsed? && cfg.parse(log[j]).value.key == k)
    ensures
      var e := cfg.parse(s.log[cfg.partitionOf(k)][o]).value;
      && (e.Delete? ==> k !in s.table)
      && (e.Upsert? ==> k in s.table && s.table[k].columns == e.columns)
      && (e.Upsert? && cfg.kind == Tokens ==> s.table[k] == Row(e.columns, e.partition, e.offset))
  {
    CaughtUp(cfg, s, k);
    FoldIsLast(cfg.kind, cfg.parse, s.log[cfg.partitionOf(k)], k, None, o);
  }

  /** A key that no entry on its partition has is not in the table. */
  lemma CaughtUpAbsent<A(!new), R(!new)>(cfg: Config<A, R>, s: Mirror<A, R>, k: string)
    requires Sound(cfg) && ReachableGuarded(cfg, s) && Shaped(cfg, s) && cfg.partitionOf(k) < cfg.partitions
    requires s.committed[cfg.partitionOf(k)] == |s.log[cfg.partitionOf(k)]|
    requires forall m :: m in s.log[cfg.partitionOf(k)] ==> !(cfg.parse(m).Parsed? && cfg.parse(m).value.key == k)
    ensures k !in s.table
  {
    CaughtUp(cfg, s, k);
    FoldOfOthers(cfg.kind, cfg.parse, s.log[cfg.partitionOf(k)], k, None);
  }

  /** Before that, a key shows the fold or the effect of one of its messages less than `maxSize` beyond the
      committed offset; a key without a message in that window always shows the fold. */
  lemma AtMostOneBatchAhead<A(!new), R(!new)>(cfg: Config<A, R>, s: Mirror<A, R>, k: string)
    requires Sound(cfg) && ReachableGuarded(cfg, s) && Shaped(cfg, s) && cfg.partitionOf(k) < cfg.partitions
    ensures
      var p := cfg.partitionOf(k);
      var shown := Lookup(cfg.kind, s.table, k);
      && s.committed[p] <= |s.log[p]|
      && (|| shown == Fold(cfg.kind, cfg.parse, s.log[p][..s.committed[p]], k, None)
          || exists o :: s.committed[p] <= o < |s.log[p]| && o < s.committed[p] + cfg.maxSize
                         && cfg.parse(s.log[p][o]).Parsed? && cfg.parse(s.log[p][o]).value.key == k
                         && shown == Effect(cfg.kind, cfg.parse(s.log[p][o]).value))
  {
    GuardedIsExplained(cfg, s);
    var p := cfg.partitionOf(k);
    assert Explained(cfg, s.log[p], s.committed[p], s.ahead[p], k, Lookup(cfg.kind, s.table, k));
  }

  // ----- In every run

  /** No batch exceeds its capacity, a streamer that is about to add a message has room for it, and workers
      write only to slots of the batch their message was added to: a restart finds none outstanding. */
  lemma NoLostOrStaleWrites<A(!new), R(!new)>(cfg: Config<A, R>, s: Mirror<A, R>, i: nat)
    requires Sound(cfg) && Reachable(cfg, s) && Shaped(cfg, s) && i < cfg.streamers
    ensures
      var c := s.streamers[i];
      && (c.pc in {Polling, Added} ==>
            && |c.batch.entries| <= cfg.maxSize
            && forall w :: w in c.batch.pending ==>
                w < |c.batch.entries| && c.batch.entries[w].from == c.batch.pending[w])
      && (c.pc == Polling ==> |c.batch.entries| < cfg.maxSize)
      && (Enabled(cfg, s, Restart(i)) ==> c.batch.pending.Keys == {})
  {
    ReachableCore(cfg, s);
    assert StreamerOk(cfg, s, s.streamers[i]);
  }

  /** Between two submits of a healthy streamer, the messages between the committed offset and the read
      position are exactly those in its batch, per partition and in order. */
  lemma BatchIsTheUncommittedRange<A(!new), R(!new)>(cfg: Config<A, R>, s: Mirror<A, R>, i: nat, p: nat)
    requires Sound(cfg) && Reachable(cfg, s) && Shaped(cfg, s) && i < cfg.streamers && p < cfg.partitions
    requires s.streamers[i].pc in {Polling, Added}
    ensures
      var c := s.streamers[i];
      if p in c.owned then
        && s.committed[p] <= c.position[p] <= |s.log[p]|
        && OnPartition(c.batch.added, p) == s.log[p][s.committed[p]..c.position[p]]
      else OnPartition(c.batch.added, p) == []
  {
    ReachableCore(cfg, s);
    assert StreamerOk(cfg, s, s.streamers[i]);
  }

  /** A Submit that leaves its streamer polling has nothing uncommitted behind it. */
  lemma QuietSubmitCommits<A, R>(cfg: Config<A, R>, s: Mirror<A, R>, i: nat, env: SubmitEnv<R>)
    requires Shaped(cfg, s) && i < cfg.streamers && StreamerOk(cfg, s, s.streamers[i])
    requires s.streamers[i].pc in {Polling, Added} && s.streamers[i].batch.pending.Keys == {}
    ensures
      var t := SubmitStep(cfg, s, i, env, Polling);
      t.streamers[i].pc == Polling && |t.committed| == cfg.partitions ==>
        forall p :: p in s.streamers[i].owned && p < cfg.partitions ==> t.committed[p] == s.streamers[i].position[p]
  {
    var c := s.streamers[i];
    var r := B.Submit(c.batch, env.dbOk, env.commitOk).1;
    if r.Nothing? {
      assert c.batch.added == [];
      forall p | p in c.owned && p < cfg.partitions ensures s.committed[p] == c.position[p] {
        assert |s.log[p][c.base[p]..c.position[p]]| == 0;
      }
    } else if !B.HasFatal(c.batch.errors) {
      B.FilteredIsSequentialParse(cfg.parse, c.batch);
    }
  }

  lemma QuietRevocation<A, R>(cfg: Config<A, R>, s: Mirror<A, R>, i: nat, env: SubmitEnv<R>, unassignOk: bool)
    requires Shaped(cfg, s) && Enabled(cfg, s, Revoke(i, env, unassignOk)) && StreamerOk(cfg, s, s.streamers[i])
    ensures
      var t := Do(cfg, s, Revoke(i, env, unassignOk));
      t.streamers[i].pc == Polling ==>
        && t.streamers[i].owned == {}
        && forall p :: p in s.streamers[i].owned && p < |t.committed| ==> t.committed[p] == s.streamers[i].position[p]
  {
    QuietSubmitCommits(cfg, s, i, env);
  }

  /** A revocation that reports no error hands its partitions over with nothing of theirs uncommitted. */
  lemma RevocationCommitsEverythingRead<A(!new), R(!new)>(
      cfg: Config<A, R>, s: Mirror<A, R>, i: nat, env: SubmitEnv<R>, unassignOk: bool)
    requires Sound(cfg) && Reachable(cfg, s) && Shaped(cfg, s) && Enabled(cfg, s, Revoke(i, env, unassignOk))
    ensures
      var t := Do(cfg, s, Revoke(i, env, unassignOk));
      t.streamers[i].pc == Polling ==>
        && t.streamers[i].owned == {}
        && forall p :: p in s.streamers[i].owned && p < |t.committed| ==> t.committed[p] == s.streamers[i].position[p]
  {
    ReachableCore(cfg, s);
    QuietRevocation(cfg, s, i, env, unassignOk);
  }

  // ----- Between two commits, and after an error

  /** A batch that is full, or whose first message was added longer ago than its time, and that has no fatal failure. */
  ghost predicate Due<A, R>(cfg: Config<A, R>, c: Streamer<A, R>, now: int) {
    && c.batch.entries != []
    && (|c.batch.entries| >= cfg.maxSize || now > c.batch.nextTimeout)
    && !(exists e :: e in c.batch.errors && e.fatal)
  }

  lemma DueSubmitCommits<A, R>(cfg: Config<A, R>, s: Mirror<A, R>, i: nat, now: int, env: SubmitEnv<R>)
    requires Shaped(cfg, s) && i < cfg.streamers && StreamerOk(cfg, s, s.streamers[i])
    requires s.streamers[i].pc in {Polling, Added} && s.streamers[i].batch.pending.Keys == {}
    requires Due(cfg, s.streamers[i], now) && env.dbOk && env.commitOk
    ensures B.IsReady(s.streamers[i].batch, cfg.maxSize, now)
    ensures
      var t := SubmitStep(cfg, s, i, env, Polling);
      t.streamers[i].pc == Polling && t.streamers[i].batch == B.Reset(s.streamers[i].batch)
  {
    B.FilteredIsSequentialParse(cfg.parse, s.streamers[i].batch);
    B.SubmitEnds(s.streamers[i].batch, true, true);
  }

  /** Nothing read waits for ever: at the first look at a batch that is due, however quiet the topic, a database and a
      broker that are well make everything read so far committed, and the next batch starts empty. */
  lemma DueBatchIsCommitted<A(!new), R(!new)>(
      cfg: Config<A, R>, s: Mirror<A, R>, i: nat, now: int, env: SubmitEnv<R>, step: Step<A, R>)
    requires Sound(cfg) && Reachable(cfg, s) && Shaped(cfg, s)
    requires step == PollTimeout(i, now, env) || step == CheckReady(i, now, env)
    requires Enabled(cfg, s, step) && Due(cfg, s.streamers[i], now) && env.dbOk && env.commitOk
    ensures
      var t := Do(cfg, s, step);
      && |t.streamers| == |s.streamers| && |t.committed| == cfg.partitions
      && t.streamers[i].pc == Polling && t.streamers[i].batch.entries == [] && t.streamers[i].batch.errors == {}
      && forall p :: p in s.streamers[i].owned && p < cfg.partitions ==> t.committed[p] == s.streamers[i].position[p]
  {
    ReachableCore(cfg, s);
    assert StreamerOk(cfg, s, s.streamers[i]);
    DueSubmitCommits(cfg, s, i, now, env);
    QuietSubmitCommits(cfg, s, i, env);
  }

  /** What makes streamTopic return an error, without a process that dies. */
  ghost predicate Errs<A, R>(cfg: Config<A, R>, s: Mirror<A, R>, i: nat, step: Step<A, R>)
    requires Shaped(cfg, s) && i < cfg.streamers
  {
    var b := s.streamers[i].batch;
    match step
    case ReadFails(j) => j == i
    case Assign(j, _, ok) => j == i && !ok
    case CheckReady(j, now, env) =>
      j == i && b.entries != [] && (|b.entries| >= cfg.maxSize || now > b.nextTimeout) && SubmitErrs(b, env)
    case PollTimeout(j, now, env) =>
      j == i && b.entries != [] && (|b.entries| >= cfg.maxSize || now > b.nextTimeout) && SubmitErrs(b, env)
    case Revoke(j, env, unassignOk) => j == i && (!unassignOk || (b.entries != [] && SubmitErrs(b, env)))
    case _ => false
  }

  ghost predicate SubmitErrs<A, R>(b: B.Batch<Message<A>, Entry<R>>, env: SubmitEnv<R>) {
    (exists e :: e in b.errors && e.fatal) || !env.dbOk || !env.commitOk
  }

  lemma FailedSubmitFails<A, R>(cfg: Config<A, R>, s: Mirror<A, R>, i: nat, env: SubmitEnv<R>)
    requires Shaped(cfg, s) && i < cfg.streamers && StreamerOk(cfg, s, s.streamers[i])
    requires s.streamers[i].pc in {Polling, Added} && s.streamers[i].batch.pending.Keys == {}
    requires s.streamers[i].batch.entries != [] && SubmitErrs(s.streamers[i].batch, env)
    ensures
      var t := SubmitStep(cfg, s, i, env, Polling);
      t.streamers[i].pc == Failing && t.streamers[i].owned == s.streamers[i].owned
  {
    if !B.HasFatal(s.streamers[i].batch.errors) {
      B.FilteredIsSequentialParse(cfg.parse, s.streamers[i].batch);
    }
    B.SubmitEnds(s.streamers[i].batch, env.dbOk, env.commitOk);
  }

  lemma FailedRevocationFails<A, R>(cfg: Config<A, R>, s: Mirror<A, R>, i: nat, env: SubmitEnv<R>, unassignOk: bool)
    requires Shaped(cfg, s) && Enabled(cfg, s, Revoke(i, env, unassignOk)) && StreamerOk(cfg, s, s.streamers[i])
    requires !unassignOk || (s.streamers[i].batch.entries != [] && SubmitErrs(s.streamers[i].batch, env))
    ensures
      var t := Do(cfg, s, Revoke(i, env, unassignOk));
      |t.streamers| == cfg.streamers && t.streamers[i].pc == Failing && t.streamers[i].owned == s.streamers[i].owned
  {
    var batch := s.streamers[i].batch;
    if batch.entries != [] && SubmitErrs(batch, env) {
      FailedSubmitFails(cfg, s, i, env);
    } else if !B.HasFatal(batch.errors) {
      B.FilteredIsSequentialParse(cfg.parse, batch);
    }
  }

  /** Every such error ends the loop, and leaves the partitions as they were until the consumer is closed. */
  lemma ErrorsEndTheLoop<A(!new), R(!new)>(cfg: Config<A, R>, s: Mirror<A, R>, i: nat, step: Step<A, R>)
    requires Sound(cfg) && Reachable(cfg, s) && Shaped(cfg, s) && i < cfg.streamers
    requires Enabled(cfg, s, step) && Errs(cfg, s, i, step)
    ensures
      var t := Do(cfg, s, step);
      |t.streamers| == cfg.streamers && t.streamers[i].pc == Failing && t.streamers[i].owned == s.streamers[i].owned
  {
    ReachableCore(cfg, s);
    assert StreamerOk(cfg, s, s.streamers[i]);
    match step
    case CheckReady(j, now, env) => FailedSubmitFails(cfg, s, i, env);
    case PollTimeout(j, now, env) => FailedSubmitFails(cfg, s, i, env);
    case Revoke(j, env, unassignOk) => FailedRevocationFails(cfg, s, i, env, unassignOk);
    case _ =>
  }

  /** After it the streamer is restarted: it closes its consumer, starts over with an empty batch, and reads every
      partition that it is given from the committed offset; nothing else changes. */
  lemma RestartsFromCommitted<A, R>(cfg: Config<A, R>, s: Mirror<A, R>, i: nat, ps: set<nat>)
    requires Shaped(cfg, s) && i < cfg.streamers && s.streamers[i].pc == Failing
    requires s.streamers[i].batch.pending.Keys == {}
    requires forall p :: p in ps ==> p < cfg.partitions
    requires forall j :: 0 <= j < cfg.streamers && j != i ==> s.streamers[j].owned !! ps
    ensures
      var steps: seq<Step<A, R>> := [Close(i), Restart(i), Assign(i, ps, true)];
      && Legal(cfg, s, steps)
      && var t := Run(cfg, s, steps);
      && t.(streamers := s.streamers) == s && |t.streamers| == |s.streamers|
      && (forall j :: 0 <= j < cfg.streamers && j != i ==> t.streamers[j] == s.streamers[j])
      && t.streamers[i].pc == Polling && t.streamers[i].owned == ps
      && t.streamers[i].batch.entries == [] && t.streamers[i].batch.errors == {} && t.streamers[i].batch.added == []
      && |t.streamers[i].position| == cfg.partitions
      && forall p :: p in ps ==> t.streamers[i].position[p] == s.committed[p]
  {
    var u := Do(cfg, s, Close(i));
    assert Shaped(cfg, u) && Enabled(cfg, u, Restart(i));
    var v := Do(cfg, u, Restart(i));
    assert Shaped(cfg, v) && Enabled(cfg, v, Assign(i, ps, true));
    var steps: seq<Step<A, R>> := [Close(i), Restart(i), Assign(i, ps, true)];
    RunThree(cfg, s, steps[0], steps[1], steps[2]);
  }

  /** A crash forgets everything that is not in the table and not committed: the new process, too, starts with an empty
      batch and reads from the committed offset. */
  lemma CrashedStartsFromCommitted<A, R>(cfg: Config<A, R>, s: Mirror<A, R>, i: nat, ps: set<nat>)
    requires Shaped(cfg, s) && i < cfg.streamers
    requires forall p :: p in ps ==> p < cfg.partitions
    requires forall j :: 0 <= j < cfg.streamers && j != i ==> s.streamers[j].owned !! ps
    ensures
      var steps: seq<Step<A, R>> := [Crash(i, []), Assign(i, ps, true)];
      && Legal(cfg, s, steps)
      && var t := Run(cfg, s, steps);
      && t.(streamers := s.streamers) == s && |t.streamers| == |s.streamers|
      && t.streamers[i].pc == Polling && t.streamers[i].owned == ps
      && t.streamers[i].batch == B.Fresh()
      && |t.streamers[i].position| == cfg.partitions
      && forall p :: p in ps ==> t.streamers[i].position[p] == s.committed[p]
  {
    var a: Step<A, R> := Crash(i, []);
    var b: Step<A, R> := Assign(i, ps, true);
    var u := Do(cfg, s, a);
    assert Shaped(cfg, u) && Enabled(cfg, u, b);
    var v := Do(cfg, u, b);
    assert Legal(cfg, v, []) && Run(cfg, v, []) == v;
    assert [b][1..] == [] && Legal(cfg, u, [b]) && Run(cfg, u, [b]) == v;
    assert [a, b][1..] == [b];
  }

  lemma RunThree<A, R>(cfg: Config<A, R>, s: Mirror<A, R>, a: Step<A, R>, b: Step<A, R>, c: Step<A, R>)
    requires Shaped(cfg, s) && Enabled(cfg, s, a)
    requires Shaped(cfg, Do(cfg, s, a)) && Enabled(cfg, Do(cfg, s, a), b)
    requires Shaped(cfg, Do(cfg, Do(cfg, s, a), b)) && Enabled(cfg, Do(cfg, Do(cfg, s, a), b), c)
    ensures Legal(cfg, s, [a, b, c])
    ensures Run(cfg, s, [a, b, c]) == Do(cfg, Do(cfg, Do(cfg, s, a), b), c)
  {
    var u := Do(cfg, s, a);
    var v := Do(cfg, u, b);
    var w := Do(cfg, v, c);
    assert Legal(cfg, w, []) && Run(cfg, w, []) == w;
    assert [c][1..] == [] && Legal(cfg, v, [c]) && Run(cfg, v, [c]) == w;
    assert [b, c][1..] == [c] && Legal(cfg, u, [b, c]) && Run(cfg, u, [b, c]) == w;
    assert [a, b, c][1..] == [b, c];
  }
}
