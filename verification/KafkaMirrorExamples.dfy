/** Runs that show where the mirror's guarantees end, and when every commit converges. */
module KafkaMirrorExamples {
  import opened Options
  import opened KafkaTable
  import opened KafkaMirror
  import opened KafkaMirrorResults
  import Safety = KafkaMirrorSafety
  import Commits = KafkaMirrorCommits
  import Tables = KafkaMirrorTable
  import B = KafkaBatcher

  // ----- Runs in which no consumer closes with a revocation and none crashes

  predicate NoClosings<A, R>(steps: seq<Step<A, R>>) {
    forall i :: 0 <= i < |steps| ==> !steps[i].CloseRevokes? && !steps[i].Crash?
  }

  ghost predicate Quiet<A(!new), R(!new)>(cfg: Config<A, R>, s: Mirror<A, R>) {
    exists steps :: Legal(cfg, Init(cfg), steps) && NoClosings(steps) && s == Run(cfg, Init(cfg), steps)
  }

  lemma {:induction false} NoClosingsIsHarmless<A(!new), R>(cfg: Config<A, R>, s: Mirror<A, R>, steps: seq<Step<A, R>>)
    requires Sound(cfg) && Core(cfg, s) && Legal(cfg, s, steps) && NoClosings(steps)
    ensures Commits.AllLossless(cfg, s, steps) && Tables.AllGuarded(cfg, s, steps)
    decreases |steps|
  {
    if steps != [] {
      assert !steps[0].CloseRevokes? && !steps[0].Crash?;
      Safety.StepKeepsCore(cfg, s, steps[0]);
      NoClosingsIsHarmless(cfg, Do(cfg, s, steps[0]), steps[1..]);
    }
  }

  lemma QuietReaches<A(!new), R(!new)>(cfg: Config<A, R>, s: Mirror<A, R>)
    requires Sound(cfg) && Quiet(cfg, s)
    ensures Reachable(cfg, s) && ReachableLossless(cfg, s) && ReachableGuarded(cfg, s)
  {
    var steps :| Legal(cfg, Init(cfg), steps) && NoClosings(steps) && s == Run(cfg, Init(cfg), steps);
    Safety.InitCore(cfg);
    NoClosingsIsHarmless(cfg, Init(cfg), steps);
  }

  lemma {:induction false} ExtendRun<A, R>(cfg: Config<A, R>, s: Mirror<A, R>, steps: seq<Step<A, R>>, step: Step<A, R>)
    requires Legal(cfg, s, steps)
    requires Shaped(cfg, Run(cfg, s, steps)) && Enabled(cfg, Run(cfg, s, steps), step)
    ensures Legal(cfg, s, steps + [step]) && Run(cfg, s, steps + [step]) == Do(cfg, Run(cfg, s, steps), step)
    decreases |steps|
  {
    var all := steps + [step];
    if steps == [] {
      assert all == [step] && all[1..] == [];
    } else {
      assert all[1..] == steps[1..] + [step];
      ExtendRun(cfg, Do(cfg, s, steps[0]), steps[1..], step);
    }
  }

  lemma QuietStep<A(!new), R(!new)>(cfg: Config<A, R>, s: Mirror<A, R>, step: Step<A, R>)
    requires Quiet(cfg, s) && Shaped(cfg, s) && Enabled(cfg, s, step) && !step.CloseRevokes? && !step.Crash?
    ensures Quiet(cfg, Do(cfg, s, step))
  {
    var steps :| Legal(cfg, Init(cfg), steps) && NoClosings(steps) && s == Run(cfg, Init(cfg), steps);
    ExtendRun(cfg, Init(cfg), steps, step);
    assert NoClosings(steps + [step]);
  }

  // ----- The actions of an example

  /** One partition, one streamer, and bodies that are their own columns; a negative body is a message that
      fails to parse non-fatally. */
  ghost function Example(maxSize: nat): Config<int, int> {
    Config(Tokens,
           (m: Message<int>) => if m.body < 0 then B.NonFatal else B.Parsed(Upsert(m.key, m.body, m.partition,
               m.offset)),
           _ => 0, 1, 1, maxSize, Delete(""))
  }

  ghost function Entry0(m: Message<int>): Entry<int> {
    Upsert(m.key, m.body, m.partition, m.offset)
  }

  /** The batch after `m` was added and its worker finished. */
  ghost function Taken(b: B.Batch<Message<int>, Entry<int>>, m: Message<int>): B.Batch<Message<int>, Entry<int>> {
    b.(entries := b.entries + [B.Slot(m, if m.body < 0 then Delete("") else Entry0(m))],
       errors := if m.body < 0 then b.errors + {B.ErrorAtIndex(|b.entries|, false)} else b.errors,
       nextTimeout := if b.entries == [] then 0 else b.nextTimeout,
       added := b.added + [m])
  }

  /** The example's streamer reads the next message and its worker parses it. */
  lemma ReadOne(maxSize: nat, s: Mirror<int, int>, c: Streamer<int, int>, n: nat)
    requires Quiet(Example(maxSize), s) && Shaped(Example(maxSize), s)
    requires s.streamers == [c] && c.pc == Polling && c.owned == {0} && c.position == [n] && n < |s.log[0]|
    requires c.batch.pending == map[] && !c.batch.closed
    ensures
      var c' := c.(pc := Added, position := [n + 1], batch := Taken(c.batch, s.log[0][n]));
      Quiet(Example(maxSize), s.(streamers := [c']))
  {
    var cfg := Example(maxSize);
    var m := s.log[0][n];
    var b1 := B.Add(c.batch, m, Delete(""), 0);
    var c1 := c.(pc := Added, position := [n + 1], batch := b1);
    var s1 := s.(streamers := [c1]);
    QuietStep(cfg, s, Read(0, 0, 0));
    assert c.position[0 := n + 1] == [n + 1] && s.streamers[0 := c1] == [c1];
    assert Do(cfg, s, Read(0, 0, 0)) == s1;
    var index := |c.batch.entries|;
    QuietStep(cfg, s1, WorkerDone(0, index, false));
    var b2 := B.Finish(b1, index, cfg.parse(m));
    assert b2.pending == map[];
    assert b2 == Taken(c.batch, m);
    assert Do(cfg, s1, WorkerDone(0, index, false)) == s.(streamers := [c1.(batch := b2)]);
  }

  /** It finds the batch not ready, or submits it. */
  lemma CheckOne(maxSize: nat, s: Mirror<int, int>, c: Streamer<int, int>, timedOut: bool, env: SubmitEnv<int>)
    requires Quiet(Example(maxSize), s) && Shaped(Example(maxSize), s)
    requires s.streamers == [c] && c.pc == Added && c.batch.pending == map[] && env.applied == []
    requires timedOut || |c.batch.entries| < maxSize
    requires c.batch.entries != [] && c.batch.nextTimeout == 0
    ensures
      Quiet(Example(maxSize),
                if timedOut then SubmitStep(Example(maxSize), s, 0, env, Polling)
                else s.(streamers := [c.(pc := Polling)]))
  {
    QuietStep(Example(maxSize), s, CheckReady(0, if timedOut then 1 else 0, env));
  }

  /** The logs of the two runs are appended first and the streamer gets the partition. */
  lemma AppendAll(maxSize: nat, log: seq<Message<int>>)
    requires forall o :: 0 <= o < |log| ==> log[o].partition == 0 && log[o].offset == o
    ensures Quiet(Example(maxSize), Init(Example(maxSize)).(log := [log]))
  {
    var cfg := Example(maxSize);
    var s0 := Init(cfg);
    var none: seq<Step<int, int>> := [];
    assert Legal(cfg, s0, none) && NoClosings(none) && s0 == Run(cfg, s0, none);
    assert s0.log == [[]];
    if |log| == 0 {
      assert s0 == s0.(log := [log]);
    } else {
      AppendAll(maxSize, log[..|log| - 1]);
      var s := s0.(log := [log[..|log| - 1]]);
      QuietStep(cfg, s, Append(log[|log| - 1]));
      assert log[..|log| - 1] + [log[|log| - 1]] == log;
      assert Do(cfg, s, Append(log[|log| - 1])) == s0.(log := [log]);
    }
  }

  lemma AssignOne(maxSize: nat, s: Mirror<int, int>, c: Streamer<int, int>, n: nat)
    requires Quiet(Example(maxSize), s) && Shaped(Example(maxSize), s)
    requires s.streamers == [c] && c.pc == Polling && c.owned == {} && s.committed == [n]
    ensures Quiet(Example(maxSize), s.(streamers := [c.(owned := {0}, base := [n], position := [n])]))
  {
    var cfg := Example(maxSize);
    QuietStep(cfg, s, Assign(0, {0}, true));
    assert Overwrite(c.base, {0}, s.committed) == [n] && Overwrite(c.position, {0}, s.committed) == [n];
  }

  lemma RestartOne(maxSize: nat, s: Mirror<int, int>, c: Streamer<int, int>)
    requires Quiet(Example(maxSize), s) && Shaped(Example(maxSize), s)
    requires s.streamers == [c] && c.pc == Failing && c.batch.pending == map[] && !c.batch.closed
    ensures Quiet(Example(maxSize), s.(streamers := [c.(pc := Polling, owned := {}, batch := B.Fresh())]))
  {
    QuietStep(Example(maxSize), s, Close(0));
    QuietStep(Example(maxSize), s.(streamers := [c.(pc := Closed, owned := {})]), Restart(0));
  }

  lemma ExecuteTwo<R>(kind: Kind, t: map<string, Row<R>>, e0: Entry<R>, e1: Entry<R>)
    ensures ExecuteAll(kind, t, [e0]) == Execute(kind, t, e0)
    ensures ExecuteAll(kind, t, [e0, e1]) == Execute(kind, Execute(kind, t, e0), e1)
  {
    assert [e0, e1][..1] == [e0];
    var none: seq<Entry<R>> := [];
    assert [e0][..0] == none;
  }

  /** The two updates that the first run is about. */
  const FIRST: Message<int> := Message(0, 0, "a", 1)
  const SECOND: Message<int> := Message(0, 1, "b", 2)

  ghost function Both(): B.Batch<Message<int>, Entry<int>> {
    Taken(Taken(B.Fresh(), FIRST), SECOND)
  }

  /** Both updates are in the table, neither is committed, and the streamer is about to leave. */
  ghost function Uncommitted(maxSize: nat): Mirror<int, int> {
    Mirror([[FIRST, SECOND]], [0], [2], {(0, 0), (0, 1)}, map["a" := Row(1, 0, 0), "b" := Row(2, 0, 1)],
           [Streamer(Failing, {0}, [0], [2], Both())])
  }

  /** A log has been appended, and its partition assigned. */
  ghost function Assigned(log: seq<Message<int>>): Mirror<int, int> {
    Mirror([log], [0], [0], {}, map[], [Streamer(Polling, {0}, [0], [0], B.Fresh())])
  }

  lemma AssignedIsQuiet(maxSize: nat, log: seq<Message<int>>)
    requires forall o :: 0 <= o < |log| ==> log[o].partition == 0 && log[o].offset == o
    ensures Quiet(Example(maxSize), Assigned(log))
  {
    var c: Streamer<int, int> := NewStreamer(Example(maxSize));
    var s: Mirror<int, int> := Mirror([log], [0], [0], {}, map[], [c]);
    AppendAll(maxSize, log);
    assert Init(Example(maxSize)).(log := [log]) == s;
    AssignOne(maxSize, s, c, 0);
  }

  /** One turn of the loop: a message is read and the batch found not ready. */
  lemma ReadTurn(maxSize: nat, s: Mirror<int, int>, c: Streamer<int, int>, n: nat)
    requires Quiet(Example(maxSize), s) && Shaped(Example(maxSize), s)
    requires s.streamers == [c] && c.pc == Polling && c.owned == {0} && c.position == [n] && n < |s.log[0]|
    requires c.batch.pending == map[] && !c.batch.closed && c.batch.nextTimeout == 0
    requires |c.batch.entries| + 1 < maxSize
    ensures
      var c' := c.(position := [n + 1], batch := Taken(c.batch, s.log[0][n]));
      Quiet(Example(maxSize), s.(streamers := [c']))
  {
    assert s.streamers[0] == c;
    ReadOne(maxSize, s, c, n);
    var c' := c.(pc := Added, position := [n + 1], batch := Taken(c.batch, s.log[0][n]));
    CheckOne(maxSize, s.(streamers := [c']), c', false, SubmitEnv(true, [], true, false));
  }

  /** The first message of a log. */
  lemma ReadFirst(maxSize: nat, log: seq<Message<int>>)
    requires maxSize >= 2 && log != [] && forall o :: 0 <= o < |log| ==> log[o].partition == 0 && log[o].offset == o
    ensures
      var c: Streamer<int, int> := Streamer(Polling, {0}, [0], [1], Taken(B.Fresh(), log[0]));
      Quiet(Example(maxSize), Mirror([log], [0], [0], {}, map[], [c]))
  {
    AssignedIsQuiet(maxSize, log);
    ReadTurn(maxSize, Assigned(log), Assigned(log).streamers[0], 0);
  }

  /** Two messages are read, in two turns of the loop. */
  lemma ReadTwo(maxSize: nat, m: Message<int>, n: Message<int>)
    requires maxSize >= 2 && m.partition == n.partition == 0 && m.offset == 0 && n.offset == 1
    ensures
      var batch := Taken(Taken(B.Fresh(), m), n);
      Quiet(Example(maxSize), Mirror([[m, n]], [0], [0], {}, map[], [Streamer(Added, {0}, [0], [2], batch)]))
  {
    ReadFirst(maxSize, [m, n]);
    var c: Streamer<int, int> := Streamer(Polling, {0}, [0], [1], Taken(B.Fresh(), m));
    ReadOne(maxSize, Mirror([[m, n]], [0], [0], {}, map[], [c]), c, 1);
  }

  lemma BothSlots()
    ensures
      var slots := [B.Slot(FIRST, Entry0(FIRST)), B.Slot(SECOND, Entry0(SECOND))];
      && Both().entries == slots
      && Refs(slots) == {(0, 0), (0, 1)}
      && ExecuteAll(Tokens, map[], Entries(slots)) == map["a" := Row(1, 0, 0), "b" := Row(2, 0, 1)]
  {
    var slots := [B.Slot(FIRST, Entry0(FIRST)), B.Slot(SECOND, Entry0(SECOND))];
    assert Entries(slots) == [Entry0(FIRST), Entry0(SECOND)];
    ExecuteTwo(Tokens, map[], Entry0(FIRST), Entry0(SECOND));
    assert slots[0] in slots && slots[1] in slots;
  }

  lemma FailStep(maxSize: nat, s: Mirror<int, int>, c: Streamer<int, int>)
    requires c == Streamer(Added, {0}, [0], [2], Both())
    requires s == Mirror([[FIRST, SECOND]], [0], [0], {}, map[], [c])
    ensures SubmitStep(Example(maxSize), s, 0, SubmitEnv(true, [], false, false), Polling) == Uncommitted(maxSize)
  {
    BothSlots();
    assert Raise([0], {0}, [2]) == [2];
  }

  /** Submitting them succeeds, committing their offsets does not. */
  lemma CommitFailsOnce(maxSize: nat)
    requires maxSize >= 2
    ensures Quiet(Example(maxSize), Uncommitted(maxSize))
  {
    ReadTwo(maxSize, FIRST, SECOND);
    var c: Streamer<int, int> := Streamer(Added, {0}, [0], [2], Both());
    var s: Mirror<int, int> := Mirror([[FIRST, SECOND]], [0], [0], {}, map[], [c]);
    CheckOne(maxSize, s, c, true, SubmitEnv(true, [], false, false));
    FailStep(maxSize, s, c);
  }

  /** The streamer starts over and has read the first update again. */
  ghost function Rereading(maxSize: nat): Streamer<int, int> {
    Streamer(Added, {0}, [0], [1], Taken(B.Fresh(), FIRST))
  }

  lemma RereadFirst(maxSize: nat)
    requires maxSize >= 2
    ensures Quiet(Example(maxSize), Uncommitted(maxSize).(streamers := [Rereading(maxSize)]))
  {
    var empty: B.Batch<Message<int>, Entry<int>> := B.Fresh();
    CommitFailsOnce(maxSize);
    var s := Uncommitted(maxSize);
    RestartOne(maxSize, s, s.streamers[0]);
    var c0 := s.streamers[0].(pc := Polling, owned := {}, batch := empty);
    AssignOne(maxSize, s.(streamers := [c0]), c0, 0);
    var c1 := c0.(owned := {0}, base := [0], position := [0]);
    ReadOne(maxSize, s.(streamers := [c1]), c1, 0);
  }

  /** The first update is committed alone. */
  lemma ShorterCommit(maxSize: nat, s: Mirror<int, int>)
    requires maxSize >= 2 && s == Uncommitted(maxSize).(streamers := [Rereading(maxSize)])
    ensures
      var t := SubmitStep(Example(maxSize), s, 0, SubmitEnv(true, [], true, false), Polling);
      && t.log == [[FIRST, SECOND]] && t.committed == [1]
      && Lookup(Tokens, t.table, "b") == Some(Row(2, 0, 1))
      && Fold(Tokens, Example(maxSize).parse, t.log[0][..1], "b", None) == None
  {
    var t := SubmitStep(Example(maxSize), s, 0, SubmitEnv(true, [], true, false), Polling);
    var slots := [B.Slot(FIRST, Entry0(FIRST))];
    assert B.Submit(Rereading(maxSize).batch, true, true).1 == B.Committed(slots);
    assert t.committed == [1];
    assert Entries(slots) == [Entry0(FIRST)];
    ExecuteTwo(Tokens, s.table, Entry0(FIRST), Entry0(FIRST));
    assert t.log[0][..1] == [FIRST];
    UnaffectedFold(Example(maxSize));
  }

  /** Convergence needs its condition: two updates reach the database in one batch whose commit fails, and
      the replay commits the first of them alone.  That commit succeeds, and the table has a row for the
      second update, whose key the log up to the committed offset does not mention. */
  lemma ShorterReplayRunsAhead(maxSize: nat)
    requires maxSize >= 2
    ensures
      exists s :: ReachableGuarded(Example(maxSize), s) && s.log == [[FIRST, SECOND]] && s.committed == [1]
        && Lookup(Tokens, s.table, "b") == Some(Row(2, 0, 1))
        && Fold(Tokens, Example(maxSize).parse, s.log[0][..1], "b", None) == None
  {
    RereadFirst(maxSize);
    var s := Uncommitted(maxSize).(streamers := [Rereading(maxSize)]);
    CheckOne(maxSize, s, Rereading(maxSize), true, SubmitEnv(true, [], true, false));
    ShorterCommit(maxSize, s);
    QuietReaches(Example(maxSize), SubmitStep(Example(maxSize), s, 0, SubmitEnv(true, [], true, false), Polling));
  }

  lemma UnaffectedFold(cfg: Config<int, int>)
    requires !Affects(cfg.parse, FIRST, "b")
    ensures Fold(cfg.kind, cfg.parse, [FIRST], "b", None) == None
  {
  }

  // ----- When every commit converges

  /** Whenever a commit moves the offset of a partition, the partition's keys are folded up to it. */
  ghost predicate CommitsConverge<A(!new), R(!new)>(cfg: Config<A, R>) {
    forall s, step, k ::
      Reachable(cfg, s) && Shaped(cfg, s) && Enabled(cfg, s, step)
      && Moves(cfg, s, step, cfg.partitionOf(k))
      ==> Folded(cfg, Do(cfg, s, step), k)
  }

  ghost predicate Moves<A, R>(cfg: Config<A, R>, s: Mirror<A, R>, step: Step<A, R>, p: nat)
    requires Shaped(cfg, s) && Enabled(cfg, s, step)
  {
    var t := Do(cfg, s, step);
    p < |s.committed| && p < |t.committed| && t.committed[p] > s.committed[p]
  }

  /** A commit that moves an offset moves it to the end of what its batch brought to the table. */
  lemma MovedPastBatch<A, R>(cfg: Config<A, R>, s: Mirror<A, R>, i: nat, env: SubmitEnv<R>, next: Pc, p: nat)
    requires Shaped(cfg, s) && i < cfg.streamers && s.streamers[i].batch.pending.Keys == {} && p < cfg.partitions
    requires SubmitStep(cfg, s, i, env, next).committed[p] > s.committed[p]
    ensures
      var t := SubmitStep(cfg, s, i, env, next);
      t.ahead[p] <= s.ahead[p] || t.ahead[p] <= t.committed[p]
  {
  }

  lemma MovedPast<A, R>(cfg: Config<A, R>, s: Mirror<A, R>, step: Step<A, R>, p: nat)
    requires Shaped(cfg, s) && Enabled(cfg, s, step) && Moves(cfg, s, step, p)
    ensures
      var t := Do(cfg, s, step);
      p < |t.ahead| && p < |s.ahead| && (t.ahead[p] <= s.ahead[p] || t.ahead[p] <= t.committed[p])
  {
    match step
    case CheckReady(i, now, env) => MovedPastBatch(cfg, s, i, env, Polling, p);
    case PollTimeout(i, now, env) => MovedPastBatch(cfg, s, i, env, Polling, p);
    case Revoke(i, env, _) => MovedPastBatch(cfg, s, i, env, Polling, p);
    case CloseRevokes(i, env) => MovedPastBatch(cfg, s, i, env, Failing, p);
    case _ =>
  }

  lemma {:induction false} SingleRunIsExplained<A(!new), R>(cfg: Config<A, R>, s: Mirror<A, R>, steps: seq<Step<A, R>>)
    requires Sound(cfg) && cfg.maxSize == 1 && Core(cfg, s) && TableOk(cfg, s) && Legal(cfg, s, steps)
    ensures Core(cfg, Run(cfg, s, steps)) && TableOk(cfg, Run(cfg, s, steps))
    decreases |steps|
  {
    if steps != [] {
      Tables.SingleKeepsKeys(cfg, s, steps[0]);
      Tables.StepIsExplainedIff(cfg, s, steps[0]);
      SingleRunIsExplained(cfg, Do(cfg, s, steps[0]), steps[1..]);
    }
  }

  lemma SingleStepConverges<A(!new), R>(cfg: Config<A, R>, s: Mirror<A, R>, step: Step<A, R>, k: string)
    requires Sound(cfg) && cfg.maxSize == 1 && Core(cfg, s) && TableOk(cfg, s) && Enabled(cfg, s, step)
    requires Moves(cfg, s, step, cfg.partitionOf(k))
    ensures Folded(cfg, Do(cfg, s, step), k)
  {
    Tables.SingleKeepsKeys(cfg, s, step);
    Tables.StepIsExplainedIff(cfg, s, step);
    MovedPast(cfg, s, step, cfg.partitionOf(k));
    ExplainedIsFolded(cfg, Do(cfg, s, step), k);
  }

  lemma SingleMessagesConverge<A(!new), R(!new)>(cfg: Config<A, R>)
    requires Sound(cfg) && cfg.maxSize == 1
    ensures CommitsConverge(cfg)
  {
    forall s, step, k | Reachable(cfg, s) && Shaped(cfg, s) && Enabled(cfg, s, step)
                        && Moves(cfg, s, step, cfg.partitionOf(k))
      ensures Folded(cfg, Do(cfg, s, step), k)
    {
      var steps :| Legal(cfg, Init(cfg), steps) && s == Run(cfg, Init(cfg), steps);
      InitIsExplained(cfg);
      SingleRunIsExplained(cfg, Init(cfg), steps);
      SingleStepConverges(cfg, s, step, k);
    }
  }

  lemma ShorterStep(maxSize: nat, s: Mirror<int, int>, env: SubmitEnv<int>)
    requires s == Uncommitted(maxSize).(streamers := [Rereading(maxSize)]) && env.applied == []
    ensures Enabled(Example(maxSize), s, CheckReady(0, 1, env))
    ensures Do(Example(maxSize), s, CheckReady(0, 1, env)) == SubmitStep(Example(maxSize), s, 0, env, Polling)
  {
  }

  lemma ConvergesAt<A(!new), R(!new)>(cfg: Config<A, R>, s: Mirror<A, R>, step: Step<A, R>, k: string)
    requires CommitsConverge(cfg) && Reachable(cfg, s) && Shaped(cfg, s) && Enabled(cfg, s, step)
    requires Moves(cfg, s, step, cfg.partitionOf(k))
    ensures Folded(cfg, Do(cfg, s, step), k)
  {
  }

  lemma LongerBatchesNeedNot(maxSize: nat)
    requires maxSize >= 2
    ensures Sound(Example(maxSize)) && !CommitsConverge(Example(maxSize))
  {
    var cfg := Example(maxSize);
    var env: SubmitEnv<int> := SubmitEnv(true, [], true, false);
    var s := Uncommitted(maxSize).(streamers := [Rereading(maxSize)]);
    var step: Step<int, int> := CheckReady(0, 1, env);
    RereadFirst(maxSize);
    QuietReaches(cfg, s);
    ShorterCommit(maxSize, s);
    ShorterStep(maxSize, s, env);
    ShorterMoves(maxSize, s, step);
    if CommitsConverge(cfg) {
      ConvergesAt(cfg, s, step, "b");
    }
  }

  lemma ShorterMoves(maxSize: nat, s: Mirror<int, int>, step: Step<int, int>)
    requires Shaped(Example(maxSize), s) && Enabled(Example(maxSize), s, step)
    requires s.committed == [0]
    requires
      var t := Do(Example(maxSize), s, step);
      && t.log == [[FIRST, SECOND]] && t.committed == [1]
      && Lookup(Tokens, t.table, "b") == Some(Row(2, 0, 1))
      && Fold(Tokens, Example(maxSize).parse, t.log[0][..1], "b", None) == None
    ensures Moves(Example(maxSize), s, step, Example(maxSize).partitionOf("b"))
    ensures !Folded(Example(maxSize), Do(Example(maxSize), s, step), "b")
  {
  }

  /** Every commit of every deployment with this batch size converges if and only if the batches hold one
      message: a longer batch whose commit fails may be replayed in parts. */
  lemma CommitsConvergeIff(maxSize: nat)
    requires maxSize >= 1
    ensures (forall cfg: Config<int, int> :: Sound(cfg) && cfg.maxSize == maxSize ==> CommitsConverge(cfg))
              <==> maxSize == 1
  {
    if maxSize == 1 {
      forall cfg: Config<int, int> | Sound(cfg) && cfg.maxSize == maxSize ensures CommitsConverge(cfg) {
        SingleMessagesConverge(cfg);
      }
    } else {
      LongerBatchesNeedNot(maxSize);
    }
  }

  // ----- A last revocation on a batch that failed

  const BAD: Message<int> := Message(0, 0, "a", -1)
  const GOOD: Message<int> := Message(0, 1, "b", 1)
  const LAST: Message<int> := Message(0, 2, "c", 1)

  ghost function Three(): B.Batch<Message<int>, Entry<int>> {
    Taken(Taken(Taken(B.Fresh(), BAD), GOOD), LAST)
  }

  lemma ReadThree(maxSize: nat)
    requires maxSize >= 3
    ensures Quiet(Example(maxSize),
                  Mirror([[BAD, GOOD, LAST]], [0], [0], {}, map[], [Streamer(Added, {0}, [0], [3], Three())]))
  {
    ReadFirst(maxSize, [BAD, GOOD, LAST]);
    var c: Streamer<int, int> := Streamer(Polling, {0}, [0], [1], Taken(B.Fresh(), BAD));
    var s: Mirror<int, int> := Mirror([[BAD, GOOD, LAST]], [0], [0], {}, map[], [c]);
    ReadTurn(maxSize, s, c, 1);
    var d := c.(position := [2], batch := Taken(c.batch, GOOD));
    ReadOne(maxSize, s.(streamers := [d]), d, 2);
  }

  ghost function Slots(): seq<B.Slot<Message<int>, Entry<int>>> {
    [B.Slot(GOOD, Entry0(GOOD)), B.Slot(LAST, Entry0(LAST))]
  }

  /** The batch after submitF failed: it has lost the failure's slot but not the failure. */
  ghost function Leftover(): B.Batch<Message<int>, Entry<int>> {
    B.Batch(Slots(), {B.ErrorAtIndex(0, false)}, map[], 0, false, [BAD, GOOD, LAST])
  }

  lemma ThreeRejected()
    ensures Three().pending == map[] && |Three().entries| == 3
    ensures B.Submit(Three(), false, false) == (Leftover(), B.SubmitFailed(Slots()))
  {
    var e := Three();
    assert e.errors == {B.ErrorAtIndex(0, false)};
    assert B.Indexes(e.errors) == {0};
    assert e.entries == [B.Slot(BAD, Delete(""))] + Slots();
    B.KeepAllButFirst(B.Slot(BAD, Delete("")), Slots());
    assert e.(entries := Slots()) == Leftover();
  }

  lemma LeftoverResubmitted()
    ensures B.Submit(Leftover(), true, true) == (B.Fresh(), B.Committed([B.Slot(LAST, Entry0(LAST))]))
    ensures Refilters(Leftover()) && !B.FailuresInTail(Leftover()) && !B.NegativeCapacity(Leftover())
  {
    var errors := {B.ErrorAtIndex(0, false)};
    assert B.ErrorAtIndex(0, false) in errors;
    assert B.Indexes(errors) == {0};
    B.KeepAllButFirst(B.Slot(GOOD, Entry0(GOOD)), [B.Slot(LAST, Entry0(LAST))]);
    assert Slots() == [B.Slot(GOOD, Entry0(GOOD))] + [B.Slot(LAST, Entry0(LAST))];
  }

  /** The three messages were read, submitF failed without executing anything, and the streamer is leaving. */
  ghost function Rejected(maxSize: nat): Mirror<int, int> {
    Mirror([[BAD, GOOD, LAST]], [0], [3], {}, map[], [Streamer(Failing, {0}, [0], [3], Leftover())])
  }

  lemma SubmitFailsOnce(maxSize: nat)
    requires maxSize >= 3
    ensures Quiet(Example(maxSize), Rejected(maxSize))
  {
    var env: SubmitEnv<int> := SubmitEnv(false, [], false, false);
    ReadThree(maxSize);
    ThreeRejected();
    var c: Streamer<int, int> := Streamer(Added, {0}, [0], [3], Three());
    var s: Mirror<int, int> := Mirror([[BAD, GOOD, LAST]], [0], [0], {}, map[], [c]);
    CheckOne(maxSize, s, c, true, env);
    RejectStep(maxSize, s, c);
  }

  lemma RejectStep(maxSize: nat, s: Mirror<int, int>, c: Streamer<int, int>)
    requires c == Streamer(Added, {0}, [0], [3], Three())
    requires s == Mirror([[BAD, GOOD, LAST]], [0], [0], {}, map[], [c])
    ensures SubmitStep(Example(maxSize), s, 0, SubmitEnv(false, [], false, false), Polling) == Rejected(maxSize)
  {
    ThreeRejected();
    assert Raise([0], {0}, [3]) == [3];
    assert [c][0 := c.(batch := Leftover(), pc := Failing)] == Rejected(maxSize).streamers;
  }

  lemma LastSlice()
    ensures
      var lost := [B.Slot(LAST, Entry0(LAST))];
      && Refs(lost) == {(0, 2)}
      && ExecuteAll(Tokens, map[], Entries(lost)) == map["c" := Row(1, 0, 2)]
  {
    var lost := [B.Slot(LAST, Entry0(LAST))];
    assert Entries(lost) == [Entry0(LAST)];
    var none: map<string, Row<int>> := map[];
    ExecuteTwo(Tokens, none, Entry0(LAST), Entry0(LAST));
    assert lost[0] in lost;
  }

  lemma LastCloseStep(maxSize: nat)
    ensures
      var t := SubmitStep(Example(maxSize), Rejected(maxSize), 0, SubmitEnv(true, [], true, false), Failing);
      && t.committed == [3] && t.log == [[BAD, GOOD, LAST]] && t.delivered == {(0, 2)}
      && t.table == map["c" := Row(1, 0, 2)] && |t.streamers| == 1
  {
    LeftoverResubmitted();
    LastSlice();
    assert Overwrite([0], {0}, [3]) == [3];
    var lost := [B.Slot(LAST, Entry0(LAST))];
    LastCommit(maxSize, Rejected(maxSize), lost);
  }

  lemma LastCommit(maxSize: nat, s: Mirror<int, int>, lost: seq<B.Slot<Message<int>, Entry<int>>>)
    requires Shaped(Example(maxSize), s) && |s.streamers| == 1 && s.streamers[0].batch.pending == map[]
    requires B.Submit(s.streamers[0].batch, true, true).1 == B.Committed(lost)
    ensures
      var c, t := s.streamers[0], SubmitStep(Example(maxSize), s, 0, SubmitEnv(true, [], true, false), Failing);
      && t.committed == Overwrite(s.committed, c.owned, c.position) && t.log == s.log
      && t.delivered == s.delivered + Refs(lost) && t.table == ExecuteAll(Tokens, s.table, Entries(lost))
      && |t.streamers| == 1
  {
  }

  /** Commit safety needs lossless closings: in a state with everything in order, leaving the group delivers a
      revocation whose Submit succeeds and commits the offset of a message that parses, was never given to the
      database and is not in the table. */
  lemma CloseCanLoseAMessage(maxSize: nat)
    requires maxSize >= 3
    ensures
      var cfg := Example(maxSize);
      exists s, step ::
        && ReachableLossless(cfg, s) && Shaped(cfg, s) && Enabled(cfg, s, step) && !Commits.Lossless(s, step)
        && var t := Do(cfg, s, step);
           && t.committed == [3] && |t.log| == 1 && |t.log[0]| == 3
           && cfg.parse(t.log[0][1]).Parsed? && (0, 1) !in t.delivered
           && t.log[0][1].key !in t.table
  {
    var cfg := Example(maxSize);
    SubmitFailsOnce(maxSize);
    QuietReaches(cfg, Rejected(maxSize));
    LastCloseStep(maxSize);
    RejectedIsNotLossless(maxSize);
    var s := Rejected(maxSize);
    var step: Step<int, int> := CloseRevokes(0, SubmitEnv(true, [], true, false));
    var t := Do(cfg, s, step);
    assert t.log[0][1] == GOOD;
  }

  lemma RejectedIsNotLossless(maxSize: nat)
    ensures
      var step: Step<int, int> := CloseRevokes(0, SubmitEnv(true, [], true, false));
      Enabled(Example(maxSize), Rejected(maxSize), step) && !Commits.Lossless(Rejected(maxSize), step)
  {
    LeftoverResubmitted();
    assert Commits.DroppedAgain(Leftover(), 0) by {
      assert B.ErrorAtIndex(0, false) in Leftover().errors;
    }
  }

  // ----- A last revocation on a batch whose commit failed and landed

  const OLDER: Message<int> := Message(0, 0, "a", 1)
  const NEWER: Message<int> := Message(0, 1, "a", 2)

  ghost function Twins(): B.Batch<Message<int>, Entry<int>> {
    Taken(Taken(B.Fresh(), OLDER), NEWER)
  }

  /** Both updates of the key are in the table and committed, but the streamer was told that the commit failed. */
  ghost function Landed(): Mirror<int, int> {
    Mirror([[OLDER, NEWER]], [2], [2], {(0, 0), (0, 1)}, map["a" := Row(2, 0, 1)],
           [Streamer(Failing, {0}, [0], [2], Twins())])
  }

  lemma TwinSlots()
    ensures
      var slots := [B.Slot(OLDER, Entry0(OLDER)), B.Slot(NEWER, Entry0(NEWER))];
      && Twins().entries == slots && Twins().errors == {} && Twins().pending == map[]
      && Refs(slots) == {(0, 0), (0, 1)}
      && ExecuteAll(Tokens, map[], Entries(slots)) == map["a" := Row(2, 0, 1)]
      && Entries(slots) == [Entry0(OLDER), Entry0(NEWER)]
  {
    var slots := [B.Slot(OLDER, Entry0(OLDER)), B.Slot(NEWER, Entry0(NEWER))];
    assert Entries(slots) == [Entry0(OLDER), Entry0(NEWER)];
    ExecuteTwo(Tokens, map[], Entry0(OLDER), Entry0(NEWER));
    assert slots[0] in slots && slots[1] in slots;
  }

  lemma CommitFailsAndLands(maxSize: nat)
    requires maxSize >= 2
    ensures Quiet(Example(maxSize), Landed())
  {
    var cfg := Example(maxSize);
    var env: SubmitEnv<int> := SubmitEnv(true, [], false, true);
    ReadTwo(maxSize, OLDER, NEWER);
    var c: Streamer<int, int> := Streamer(Added, {0}, [0], [2], Twins());
    var s: Mirror<int, int> := Mirror([[OLDER, NEWER]], [0], [0], {}, map[], [c]);
    TwinSlots();
    CheckOne(maxSize, s, c, true, env);
    LandStep(maxSize, s, c);
  }

  lemma LandStep(maxSize: nat, s: Mirror<int, int>, c: Streamer<int, int>)
    requires c == Streamer(Added, {0}, [0], [2], Twins())
    requires s == Mirror([[OLDER, NEWER]], [0], [0], {}, map[], [c])
    ensures SubmitStep(Example(maxSize), s, 0, SubmitEnv(true, [], false, true), Polling) == Landed()
  {
    TwinSlots();
    assert Raise([0], {0}, [2]) == [2] && Overwrite([0], {0}, [2]) == [2];
  }

  /** The closing Submit executes only the first update before submitF fails. */
  lemma SpoilStep(maxSize: nat)
    requires maxSize >= 2
    ensures
      var step: Step<int, int> := CloseRevokes(0, SubmitEnv(false, [Entry0(OLDER)], false, false));
      && Enabled(Example(maxSize), Landed(), step)
      && var t := Do(Example(maxSize), Landed(), step);
         t.log == [[OLDER, NEWER]] && t.committed == [2] && t.ahead == [2] && t.table == map["a" := Row(1, 0, 0)]
  {
    TwinSlots();
    var s := Landed();
    assert Entries(B.Filtered(Twins()))[0] == Entry0(OLDER);
    ExecuteTwo(Tokens, s.table, Entry0(OLDER), Entry0(OLDER));
    assert Raise([2], {0}, [2]) == [2];
  }

  /** Convergence needs closings that keep their keys: two updates of a key are accepted, their commit is reported as
      failed although it landed, and the closing Submit executes the first one again before it fails.  Nothing is left
      to be replayed, and the table shows the older update. */
  lemma CloseCanSpoilTheTable(maxSize: nat)
    requires maxSize >= 2
    ensures
      var cfg := Example(maxSize);
      exists s, step ::
        && ReachableGuarded(cfg, s) && Core(cfg, s) && Enabled(cfg, s, step) && !Tables.Guarded(cfg, s, step)
        && !Refilters(s.streamers[0].batch)
        && var t := Do(cfg, s, step);
           && |t.log| == 1 && t.committed == [|t.log[0]|] && t.ahead == t.committed
           && Lookup(Tokens, t.table, "a") == Some(Row(1, 0, 0))
           && Fold(Tokens, cfg.parse, t.log[0], "a", None) == Some(Row(2, 0, 1))
  {
    var cfg := Example(maxSize);
    CommitFailsAndLands(maxSize);
    QuietReaches(cfg, Landed());
    GuardedIsExplained(cfg, Landed());
    SpoilStep(maxSize);
    TwinsFold(maxSize);
    var step: Step<int, int> := CloseRevokes(0, SubmitEnv(false, [Entry0(OLDER)], false, false));
    SpoilsKeys(maxSize, step);
    Tables.SpoiledIsUnguarded(cfg, Landed(), step);
    assert Twins().errors == {} by {
      TwinSlots();
    }
  }

  lemma TwinsFold(maxSize: nat)
    ensures Fold(Tokens, Example(maxSize).parse, [OLDER, NEWER], "a", None) == Some(Row(2, 0, 1))
  {
  }

  lemma TwinsNotFolded(maxSize: nat, t: Mirror<int, int>)
    requires t.log == [[OLDER, NEWER]] && t.committed == [2] && t.table == map["a" := Row(1, 0, 0)]
    ensures !Folded(Example(maxSize), t, "a")
  {
    TwinsFold(maxSize);
    assert t.log[0][..2] == t.log[0];
  }

  lemma SpoilsKeys(maxSize: nat, step: Step<int, int>)
    requires maxSize >= 2 && Core(Example(maxSize), Landed()) && TableOk(Example(maxSize), Landed())
    requires step == CloseRevokes(0, SubmitEnv(false, [Entry0(OLDER)], false, false))
    requires Enabled(Example(maxSize), Landed(), step)
    ensures !Tables.KeepsKeys(Example(maxSize), Landed(), step)
  {
    SpoilStep(maxSize);
    TwinsNotFolded(maxSize, Do(Example(maxSize), Landed(), step));
    NotFoldedNotKept(Example(maxSize), Landed(), step, "a");
  }
}
