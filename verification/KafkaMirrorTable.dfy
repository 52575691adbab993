/** How far the table can be from the log.  Every step keeps each key explained by the log, but some last Submits during
    the closing of a consumer; this module says exactly which of those do not. */
module KafkaMirrorTable {
  import opened Options
  import opened KafkaTable
  import opened KafkaMirror
  import Safety = KafkaMirrorSafety
  import B = KafkaBatcher

  // ----- One key of one partition

  /** Folding log[lo..hi] over `init` gives the effect of its last message for `k`, or `init`. */
  lemma {:induction false} FoldLast<A, R>(
      cfg: Config<A, R>, log: seq<Message<A>>, lo: nat, hi: nat, k: string, init: Option<Row<R>>)
    requires lo <= hi <= |log|
    ensures
      var v := Fold(cfg.kind, cfg.parse, log[lo..hi], k, init);
      || (v == init && forall o :: lo <= o < hi ==> !Affects(cfg.parse, log[o], k))
      || (exists o :: lo <= o < hi && Affects(cfg.parse, log[o], k) && v == Effect(cfg.kind, cfg.parse(log[o]).value)
                      && forall q :: o < q < hi ==> !Affects(cfg.parse, log[q], k))
    decreases hi
  {
    if lo < hi {
      var ms := log[lo..hi];
      assert ms[|ms| - 1] == log[hi - 1] && ms[..|ms| - 1] == log[lo..hi - 1];
      FoldLast(cfg, log, lo, hi - 1, k, init);
    }
  }

  lemma FoldSplit<A, R>(cfg: Config<A, R>, log: seq<Message<A>>, lo: nat, hi: nat, k: string)
    requires lo <= hi <= |log|
    ensures Fold(cfg.kind, cfg.parse, log[..hi], k, None)
         == Fold(cfg.kind, cfg.parse, log[lo..hi], k, Fold(cfg.kind, cfg.parse, log[..lo], k, None))
  {
    assert log[..hi] == log[..lo] + log[lo..hi];
    FoldConcat(cfg.kind, cfg.parse, log[..lo], log[lo..hi], k, None);
  }

  /** A whole batch log[base..pos] executed over a value explained from `c` on is explained from `c` on and
      from `pos` on, wherever in the batch `c` is. */
  lemma ExplainedAfterBatch<A, R>(
      cfg: Config<A, R>, log: seq<Message<A>>, base: nat, c: nat, pos: nat, hi: nat, hi': nat, k: string,
      v: Option<Row<R>>)
    requires base <= c <= pos <= |log| && hi <= hi' <= |log| && pos <= hi'
    requires Explained(cfg, log, c, hi, k, v)
    ensures Explained(cfg, log, c, hi', k, Fold(cfg.kind, cfg.parse, log[base..pos], k, v))
    ensures Explained(cfg, log, pos, hi', k, Fold(cfg.kind, cfg.parse, log[base..pos], k, v))
  {
    var w := Fold(cfg.kind, cfg.parse, log[base..pos], k, v);
    FoldLast(cfg, log, base, pos, k, v);
    FoldLast(cfg, log, c, pos, k, Fold(cfg.kind, cfg.parse, log[..c], k, None));
    FoldSplit(cfg, log, c, pos, k);
    if exists o :: base <= o < pos && Affects(cfg.parse, log[o], k) {
      var o :| base <= o < pos && Affects(cfg.parse, log[o], k)
               && w == Effect(cfg.kind, cfg.parse(log[o]).value)
               && forall q :: o < q < pos ==> !Affects(cfg.parse, log[q], k);
      FoldSplit(cfg, log, base, pos, k);
      FoldLast(cfg, log, base, pos, k, Fold(cfg.kind, cfg.parse, log[..base], k, None));
      assert w == Fold(cfg.kind, cfg.parse, log[..pos], k, None);
    }
  }

  // ----- One batch

  /** Executing the whole slice does at each key what folding the batch's part of the key's partition does. */
  lemma SliceFolds<A(!new), R>(cfg: Config<A, R>, s: Mirror<A, R>, c: Streamer<A, R>, k: string, init: Option<Row<R>>)
    requires Sound(cfg) && Shaped(cfg, s) && LogOk(cfg, s)
    requires |c.base| == |c.position| == cfg.partitions && Matches(cfg, s, c)
    ensures
      var p := cfg.partitionOf(k);
      Replay(cfg.kind, Entries(B.Successes(cfg.parse, c.batch.added)), k, init)
      == if p in c.owned then Fold(cfg.kind, cfg.parse, s.log[p][c.base[p]..c.position[p]], k, init) else init
  {
    var p := cfg.partitionOf(k);
    SuccessesFold(cfg.kind, cfg.parse, c.batch.added, k, init);
    forall m | m in c.batch.added && Affects(cfg.parse, m, k) ensures m.partition == p {
      Safety.MessageIsInLog(cfg, s, c, m);
    }
    FoldOnPartition(cfg.kind, cfg.parse, c.batch.added, p, k, init);
  }

  ghost predicate InRange<A, R>(cfg: Config<A, R>, s: Mirror<A, R>, c: Streamer<A, R>)
    requires Shaped(cfg, s) && |c.base| == |c.position| == cfg.partitions
  {
    && (forall p :: 0 <= p < cfg.partitions ==> s.committed[p] <= |s.log[p]| && s.ahead[p] <= |s.log[p]|)
    && (forall p :: 0 <= p < cfg.partitions && p in c.owned ==>
        c.base[p] <= s.committed[p] <= c.position[p] <= |s.log[p]|)
  }

  /** `v` is explained at `k` by the log once `c` has had the effects `x`. */
  ghost predicate ExplainedAfter<A, R>(
    cfg: Config<A, R>, s: Mirror<A, R>, c: Streamer<A, R>, x: Effects<R>, k: string, v: Option<Row<R>>)
    requires Routed(cfg) && Shaped(cfg, s) && |c.base| == |c.position| == cfg.partitions && InRange(cfg, s, c)
  {
    var p := cfg.partitionOf(k);
    Explained(cfg, s.log[p], Offsets(s, c, x)[p], Reach(s, c, x)[p], k, v)
  }

  /** What `x` leaves at `k`. */
  ghost function Left<A, R>(cfg: Config<A, R>, s: Mirror<A, R>, x: Effects<R>, k: string): Option<Row<R>> {
    Replay(cfg.kind, x.executed, k, Lookup(cfg.kind, s.table, k))
  }

  /** The keys of the batch are explained after `x`. */
  ghost predicate KeysExplained<A, R>(cfg: Config<A, R>, s: Mirror<A, R>, c: Streamer<A, R>, x: Effects<R>)
    requires Routed(cfg) && Shaped(cfg, s) && |c.base| == |c.position| == cfg.partitions && InRange(cfg, s, c)
  {
    forall e :: e in Good(cfg, c) ==> ExplainedAfter(cfg, s, c, x, e.key, Left(cfg, s, x, e.key))
  }

  /** The entries that the batch's messages parse to. */
  ghost function Good<A, R>(cfg: Config<A, R>, c: Streamer<A, R>): seq<Entry<R>> {
    Entries(B.Successes(cfg.parse, c.batch.added))
  }

  /** A key that no message of the batch has stays explained, whatever happens to the batch. */
  lemma OtherKeysStay<A(!new), R>(cfg: Config<A, R>, s: Mirror<A, R>, c: Streamer<A, R>, x: Effects<R>, k: string)
    requires Sound(cfg) && Shaped(cfg, s) && LogOk(cfg, s) && TableOk(cfg, s)
    requires |c.base| == |c.position| == cfg.partitions && Matches(cfg, s, c) && InRange(cfg, s, c)
    requires x.stored ==> x.reached
    requires forall e :: e in x.executed ==> e in Good(cfg, c)
    requires forall e :: e in Good(cfg, c) ==> e.key != k
    ensures ExplainedAfter(cfg, s, c, x, k, Left(cfg, s, x, k))
  {
    var init := Lookup(cfg.kind, s.table, k);
    var p := cfg.partitionOf(k);
    ReplayUntouched(cfg.kind, x.executed, k, init);
    ReplayUntouched(cfg.kind, Good(cfg, c), k, init);
    SliceFolds(cfg, s, c, k, init);
    assert Explained(cfg, s.log[p], s.committed[p], s.ahead[p], k, init);
    if p in c.owned && x.stored {
      ExplainedAfterBatch(cfg, s.log[p], c.base[p], s.committed[p], c.position[p], s.ahead[p], Reach(s, c, x)[p], k,
          init);
    }
  }

  lemma AfterTableIff<A(!new), R>(cfg: Config<A, R>, s: Mirror<A, R>, i: nat, x: Effects<R>, c': Streamer<A, R>)
    requires Sound(cfg) && Core(cfg, s) && TableOk(cfg, s) && i < cfg.streamers && s.streamers[i].pc != Closed
    requires Core(cfg, After(cfg, s, i, x, c'))
    requires x.stored ==> x.reached
    requires forall e :: e in x.executed ==> e in Good(cfg, s.streamers[i])
    ensures InRange(cfg, s, s.streamers[i])
    ensures TableOk(cfg, After(cfg, s, i, x, c')) <==> KeysExplained(cfg, s, s.streamers[i], x)
  {
    var c, t := s.streamers[i], After(cfg, s, i, x, c');
    assert StreamerOk(cfg, s, c);
    forall k ensures Lookup(cfg.kind, t.table, k) == Left(cfg, s, x, k) {
      TableIsLastWriterWins(cfg.kind, s.table, x.executed, k);
    }
    if KeysExplained(cfg, s, c, x) {
      forall k ensures Explained(cfg, t.log[cfg.partitionOf(k)], t.committed[cfg.partitionOf(k)],
                                 t.ahead[cfg.partitionOf(k)], k, Lookup(cfg.kind, t.table, k)) {
        if forall e :: e in Good(cfg, c) ==> e.key != k {
          OtherKeysStay(cfg, s, c, x, k);
        }
      }
    }
    if TableOk(cfg, t) {
      forall e | e in Good(cfg, c) ensures ExplainedAfter(cfg, s, c, x, e.key, Left(cfg, s, x, e.key)) {
        var p := cfg.partitionOf(e.key);
        assert Explained(cfg, t.log[p], t.committed[p], t.ahead[p], e.key, Lookup(cfg.kind, t.table, e.key));
      }
    }
  }

  // ----- Harmless effects

  /** The whole slice, stored or not: every key is explained from the old and from the new offset. */
  lemma WholeSliceIsHarmless<A(!new),
      R>(cfg: Config<A, R>, s: Mirror<A, R>, c: Streamer<A, R>, x: Effects<R>, k: string)
    requires Sound(cfg) && Shaped(cfg, s) && LogOk(cfg, s) && TableOk(cfg, s)
    requires |c.base| == |c.position| == cfg.partitions && Matches(cfg, s, c) && InRange(cfg, s, c)
    requires x.reached && x.executed == Good(cfg, c)
    ensures ExplainedAfter(cfg, s, c, x, k, Left(cfg, s, x, k))
  {
    WholeSliceExplains(cfg, s, c, x, k);
  }

  /** The same where only the effect at `k` is that of the whole slice. */
  lemma WholeSliceExplains<A(!new), R>(cfg: Config<A, R>, s: Mirror<A, R>, c: Streamer<A, R>, x: Effects<R>, k: string)
    requires Sound(cfg) && Shaped(cfg, s) && LogOk(cfg, s) && TableOk(cfg, s)
    requires |c.base| == |c.position| == cfg.partitions && Matches(cfg, s, c) && InRange(cfg, s, c)
    requires x.reached && Left(cfg, s, x, k) == Replay(cfg.kind, Good(cfg, c), k, Lookup(cfg.kind, s.table, k))
    ensures ExplainedAfter(cfg, s, c, x, k, Left(cfg, s, x, k))
  {
    var init := Lookup(cfg.kind, s.table, k);
    var p := cfg.partitionOf(k);
    SliceFolds(cfg, s, c, k, init);
    assert Explained(cfg, s.log[p], s.committed[p], s.ahead[p], k, init);
    if p in c.owned {
      ExplainedAfterBatch(cfg, s.log[p], c.base[p], s.committed[p], c.position[p], s.ahead[p], Reach(s, c, x)[p], k,
          init);
    }
  }

  /** An entry of the batch is the effect of one of its messages. */
  lemma GoodIsInLog<A(!new), R>(cfg: Config<A, R>, s: Mirror<A, R>, c: Streamer<A, R>, e: Entry<R>)
    requires Sound(cfg) && Shaped(cfg, s) && LogOk(cfg, s)
    requires |c.base| == |c.position| == cfg.partitions && Matches(cfg, s, c) && e in Good(cfg, c)
    ensures
      var p := cfg.partitionOf(e.key);
      && p in c.owned && c.position[p] <= |s.log[p]|
      && exists o :: c.base[p] <= o < c.position[p] && cfg.parse(s.log[p][o]) == B.Parsed(e)
  {
    var slice := B.Successes(cfg.parse, c.batch.added);
    SuccessesMembers(cfg.parse, c.batch.added);
    var i :| 0 <= i < |slice| && slice[i].value == e;
    assert slice[i] in slice && slice[i].from in c.batch.added;
    Safety.MessageIsInLog(cfg, s, c, slice[i].from);
  }

  /** Any part of the slice, while nothing of the batch is committed. */
  lemma PartIsHarmless<A(!new), R>(cfg: Config<A, R>, s: Mirror<A, R>, c: Streamer<A, R>, x: Effects<R>, k: string)
    requires Sound(cfg) && Shaped(cfg, s) && LogOk(cfg, s) && TableOk(cfg, s)
    requires |c.base| == |c.position| == cfg.partitions && Matches(cfg, s, c) && InRange(cfg, s, c)
    requires !x.stored && x.reached && forall e :: e in x.executed ==> e in Good(cfg, c)
    requires forall p :: 0 <= p < cfg.partitions && p in c.owned ==> c.base[p] == s.committed[p]
    ensures ExplainedAfter(cfg, s, c, x, k, Left(cfg, s, x, k))
  {
    var init := Lookup(cfg.kind, s.table, k);
    var p := cfg.partitionOf(k);
    assert Explained(cfg, s.log[p], s.committed[p], s.ahead[p], k, init);
    ReplayIsInitOrEffect(cfg.kind, x.executed, k, init);
    if e :| e in x.executed && e.key == k && Left(cfg, s, x, k) == Effect(cfg.kind, e) {
      GoodIsInLog(cfg, s, c, e);
      var o :| c.base[p] <= o < c.position[p] && cfg.parse(s.log[p][o]) == B.Parsed(e);
      assert Affects(cfg.parse, s.log[p][o], k);
    }
  }

  lemma NothingIsHarmless<A(!new), R>(cfg: Config<A, R>, s: Mirror<A, R>, c: Streamer<A, R>, x: Effects<R>, k: string)
    requires Sound(cfg) && Shaped(cfg, s) && LogOk(cfg, s) && TableOk(cfg, s)
    requires |c.base| == |c.position| == cfg.partitions && InRange(cfg, s, c)
    requires !x.stored && x.executed == []
    ensures ExplainedAfter(cfg, s, c, x, k, Left(cfg, s, x, k))
  {
    var p := cfg.partitionOf(k);
    assert Explained(cfg, s.log[p], s.committed[p], s.ahead[p], k, Lookup(cfg.kind, s.table, k));
  }

  // ----- Every step

  /** A step leaves the keys of its batch explained.  There is something to check only where a failed batch is given to
      submitF again. */
  ghost predicate KeepsKeys<A(!new), R>(cfg: Config<A, R>, s: Mirror<A, R>, step: Step<A, R>)
    requires Sound(cfg) && Core(cfg, s) && Enabled(cfg, s, step)
  {
    match step
    case CloseRevokes(i, env) =>
      StreamerOk(cfg, s, s.streamers[i])
      && KeysExplained(cfg, s, s.streamers[i], SubmitEffects(s.streamers[i].batch, env))
    case Crash(i, applied) =>
      s.streamers[i].pc == Failing && applied != [] ==>
        StreamerOk(cfg, s, s.streamers[i]) && KeysExplained(cfg, s, s.streamers[i], CrashEffects(applied))
    case _ => true
  }

  /** What submitF is given comes from the batch's messages, filtered right or wrong. */
  lemma FilteredIsGood<A(!new), R>(cfg: Config<A, R>, s: Mirror<A, R>, c: Streamer<A, R>)
    requires Sound(cfg) && Shaped(cfg, s) && |c.base| == |c.position| == cfg.partitions && StreamerOk(cfg, s, c)
    requires c.pc != Closed && c.batch.pending.Keys == {} && !B.HasFatal(c.batch.errors)
    ensures forall slot :: slot in B.Filtered(c.batch) ==> slot in B.Successes(cfg.parse, c.batch.added)
    ensures forall e :: e in Entries(B.Filtered(c.batch)) ==> e in Good(cfg, c)
    ensures !Refilters(c.batch) ==> B.Filtered(c.batch) == B.Successes(cfg.parse, c.batch.added)
  {
    if B.Faithful(cfg.parse, c.batch) {
      B.FilteredIsSequentialParse(cfg.parse, c.batch);
    } else {
      KeepIsSubset(c.batch.entries, B.Indexes(c.batch.errors));
    }
    SlotsAndEntries(B.Filtered(c.batch), B.Successes(cfg.parse, c.batch.added));
  }

  lemma {:induction false} KeepIsSubset<X>(xs: seq<X>, dropped: set<nat>)
    ensures forall x :: x in B.Keep(xs, dropped) ==> x in xs
  {
    if xs != [] {
      KeepIsSubset(xs[..|xs| - 1], dropped);
    }
  }

  lemma SlotsAndEntries<A, R>(part: seq<B.Slot<Message<A>, Entry<R>>>, all: seq<B.Slot<Message<A>, Entry<R>>>)
    requires forall slot :: slot in part ==> slot in all
    ensures forall e :: e in Entries(part) ==> e in Entries(all)
  {
    forall e | e in Entries(part) ensures e in Entries(all) {
      var i :| 0 <= i < |part| && part[i].value == e;
      assert part[i] in part;
      var j :| 0 <= j < |all| && all[j] == part[i];
      assert Entries(all)[j] == e;
    }
  }

  lemma SubmitExecutesGood<A(!new), R>(cfg: Config<A, R>, s: Mirror<A, R>, c: Streamer<A, R>, env: SubmitEnv<R>)
    requires Sound(cfg) && Shaped(cfg, s) && |c.base| == |c.position| == cfg.partitions && StreamerOk(cfg, s, c)
    requires c.pc != Closed && CanSubmit(c.batch, env)
    ensures
      var x := SubmitEffects(c.batch, env);
      (x.stored ==> x.reached) && (forall e :: e in x.executed ==> e in Good(cfg, c))
  {
    if SubmitEffects(c.batch, env).reached {
      FilteredIsGood(cfg, s, c);
    }
  }

  /** A healthy streamer's Submit. */
  lemma SubmitKeepsTable<A(!new), R>(cfg: Config<A, R>, s: Mirror<A, R>, i: nat, env: SubmitEnv<R>)
    requires Sound(cfg) && Core(cfg, s) && TableOk(cfg, s) && i < cfg.streamers
    requires s.streamers[i].pc in {Polling, Added} && CanSubmit(s.streamers[i].batch, env)
    ensures
      var t := SubmitStep(cfg, s, i, env, Polling);
      Shaped(cfg, t) && LogOk(cfg, t) && TableOk(cfg, t)
  {
    var c := s.streamers[i];
    var x := SubmitEffects(c.batch, env);
    assert StreamerOk(cfg, s, c);
    Safety.SubmitKeepsCore(cfg, s, i, env);
    SubmitExecutesGood(cfg, s, c, env);
    AfterTableIff(cfg, s, i, x, NextStreamer(cfg, c, env, Polling));
    HealthyKeysExplained(cfg, s, c, env);
  }

  lemma HealthyKeysExplained<A(!new), R>(cfg: Config<A, R>, s: Mirror<A, R>, c: Streamer<A, R>, env: SubmitEnv<R>)
    requires Sound(cfg) && Shaped(cfg, s) && LogOk(cfg, s) && TableOk(cfg, s)
    requires |c.base| == |c.position| == cfg.partitions && StreamerOk(cfg, s, c)
    requires c.pc in {Polling, Added} && CanSubmit(c.batch, env) && InRange(cfg, s, c)
    ensures KeysExplained(cfg, s, c, SubmitEffects(c.batch, env))
  {
    var x := SubmitEffects(c.batch, env);
    SubmitExecutesGood(cfg, s, c, env);
    if x.reached {
      B.FilteredIsSequentialParse(cfg.parse, c.batch);
    }
    forall e | e in Good(cfg, c) ensures ExplainedAfter(cfg, s, c, x, e.key, Left(cfg, s, x, e.key)) {
      if !x.reached {
        NothingIsHarmless(cfg, s, c, x, e.key);
      } else if env.dbOk {
        WholeSliceIsHarmless(cfg, s, c, x, e.key);
      } else {
        PartIsHarmless(cfg, s, c, x, e.key);
      }
    }
  }

  /** A crash in the middle of a healthy streamer's submitF, or at any other time. */
  lemma CrashIff<A(!new), R>(cfg: Config<A, R>, s: Mirror<A, R>, i: nat, applied: seq<Entry<R>>)
    requires Sound(cfg) && Core(cfg, s) && TableOk(cfg, s) && Enabled(cfg, s, Crash(i, applied))
    requires Core(cfg, Do(cfg, s, Crash(i, applied)))
    ensures TableOk(cfg, Do(cfg, s, Crash(i, applied))) <==> KeepsKeys(cfg, s, Crash(i, applied))
  {
    var c := s.streamers[i];
    assert StreamerOk(cfg, s, c);
    if applied == [] {
      SameTableIsOk(cfg, s, Do(cfg, s, Crash(i, applied)));
    } else {
      FilteredIsGood(cfg, s, c);
      AfterTableIff(cfg, s, i, CrashEffects(applied), NewStreamer(cfg));
      if c.pc != Failing {
        forall e | e in Good(cfg, c)
          ensures ExplainedAfter(cfg, s, c, CrashEffects(applied), e.key, Left(cfg, s, CrashEffects(applied), e.key))
        {
          PartIsHarmless(cfg, s, c, CrashEffects(applied), e.key);
        }
      }
    }
  }

  lemma ClosingIff<A(!new), R>(cfg: Config<A, R>, s: Mirror<A, R>, i: nat, env: SubmitEnv<R>)
    requires Sound(cfg) && Core(cfg, s) && TableOk(cfg, s) && Enabled(cfg, s, CloseRevokes(i, env))
    requires Core(cfg, Do(cfg, s, CloseRevokes(i, env)))
    ensures TableOk(cfg, Do(cfg, s, CloseRevokes(i, env))) <==> KeepsKeys(cfg, s, CloseRevokes(i, env))
  {
    var c := s.streamers[i];
    assert StreamerOk(cfg, s, c);
    SubmitExecutesGood(cfg, s, c, env);
    Safety.ClosingIsAfter(cfg, s, i, env);
    AfterTableIff(cfg, s, i, SubmitEffects(c.batch, env), Safety.ClosedStreamer(cfg, c, env));
  }

  lemma SameTableIsOk<A, R>(cfg: Config<A, R>, s: Mirror<A, R>, t: Mirror<A, R>)
    requires Routed(cfg) && Shaped(cfg, s) && LogOk(cfg, s) && TableOk(cfg, s) && Shaped(cfg, t) && LogOk(cfg, t)
    requires t.log == s.log && t.committed == s.committed && t.ahead == s.ahead && t.table == s.table
    ensures TableOk(cfg, t)
  {
    forall k ensures Explained(cfg, t.log[cfg.partitionOf(k)], t.committed[cfg.partitionOf(k)],
                               t.ahead[cfg.partitionOf(k)], k, Lookup(cfg.kind, t.table, k)) {
      var p := cfg.partitionOf(k);
      assert Explained(cfg, s.log[p], s.committed[p], s.ahead[p], k, Lookup(cfg.kind, s.table, k));
    }
  }

  lemma GrownKeepsTable<A(!new), R>(cfg: Config<A, R>, s: Mirror<A, R>, t: Mirror<A, R>)
    requires Routed(cfg) && Shaped(cfg, s) && LogOk(cfg, s) && Safety.Grown(cfg, s, t)
    requires Shaped(cfg, t) && LogOk(cfg, t) && TableOk(cfg, s)
    ensures TableOk(cfg, t)
  {
    forall k ensures Explained(cfg, t.log[cfg.partitionOf(k)], t.committed[cfg.partitionOf(k)],
                               t.ahead[cfg.partitionOf(k)], k, Lookup(cfg.kind, t.table, k)) {
      var p := cfg.partitionOf(k);
      assert t.log[p][..s.committed[p]] == s.log[p][..s.committed[p]];
      assert Explained(cfg, s.log[p], s.committed[p], s.ahead[p], k, Lookup(cfg.kind, s.table, k));
    }
  }

  lemma RevokeKeepsTable<A(!new), R>(cfg: Config<A, R>, s: Mirror<A, R>, i: nat, env: SubmitEnv<R>, unassignOk: bool)
    requires Sound(cfg) && Core(cfg, s) && TableOk(cfg, s) && Enabled(cfg, s, Revoke(i, env, unassignOk))
    requires Core(cfg, Do(cfg, s, Revoke(i, env, unassignOk)))
    ensures TableOk(cfg, Do(cfg, s, Revoke(i, env, unassignOk)))
  {
    SubmitKeepsTable(cfg, s, i, env);
    SameTableIsOk(cfg, SubmitStep(cfg, s, i, env, Polling), Do(cfg, s, Revoke(i, env, unassignOk)));
  }

  /** Every key stays explained if and only if the step keeps the keys of its batch explained. */
  lemma StepIsExplainedIff<A(!new), R>(cfg: Config<A, R>, s: Mirror<A, R>, step: Step<A, R>)
    requires Sound(cfg) && Core(cfg, s) && TableOk(cfg, s) && Enabled(cfg, s, step)
    ensures Core(cfg, Do(cfg, s, step))
    ensures TableOk(cfg, Do(cfg, s, step)) <==> KeepsKeys(cfg, s, step)
  {
    Safety.StepKeepsCore(cfg, s, step);
    var t := Do(cfg, s, step);
    match step
    case Append(m) =>
      Safety.AppendGrows(cfg, s, m);
      GrownKeepsTable(cfg, s, t);
    case CheckReady(i, now, env) =>
      if B.IsReady(s.streamers[i].batch, cfg.maxSize, now) {
        SubmitKeepsTable(cfg, s, i, env);
      } else {
        SameTableIsOk(cfg, s, t);
      }
    case PollTimeout(i, now, env) =>
      if B.IsReady(s.streamers[i].batch, cfg.maxSize, now) {
        SubmitKeepsTable(cfg, s, i, env);
      }
    case Revoke(i, env, unassignOk) => RevokeKeepsTable(cfg, s, i, env, unassignOk);
    case CloseRevokes(i, env) => ClosingIff(cfg, s, i, env);
    case Crash(i, applied) => CrashIff(cfg, s, i, applied);
    case _ => SameTableIsOk(cfg, s, t);
  }

  // ----- Whole runs

  ghost predicate AllKeepKeys<A(!new), R>(cfg: Config<A, R>, s: Mirror<A, R>, steps: seq<Step<A, R>>)
    requires Sound(cfg) && Legal(cfg, s, steps)
    decreases |steps|
  {
    steps == []
    || (Core(cfg, s) && KeepsKeys(cfg, s, steps[0]) && AllKeepKeys(cfg, Do(cfg, s, steps[0]), steps[1..]))
  }

  /** Every key is explained in every state of the run. */
  ghost predicate AlwaysExplained<A, R>(cfg: Config<A, R>, s: Mirror<A, R>, steps: seq<Step<A, R>>)
    requires Routed(cfg) && Legal(cfg, s, steps)
    decreases |steps|
  {
    && Shaped(cfg, s) && LogOk(cfg, s) && TableOk(cfg, s)
    && (steps != [] ==> AlwaysExplained(cfg, Do(cfg, s, steps[0]), steps[1..]))
  }

  lemma {:induction false} RunIsExplainedIff<A(!new), R>(cfg: Config<A, R>, s: Mirror<A, R>, steps: seq<Step<A, R>>)
    requires Sound(cfg) && Core(cfg, s) && TableOk(cfg, s) && Legal(cfg, s, steps)
    ensures AlwaysExplained(cfg, s, steps) <==> AllKeepKeys(cfg, s, steps)
    ensures AllKeepKeys(cfg, s, steps) ==> Core(cfg, Run(cfg, s, steps)) && TableOk(cfg, Run(cfg, s, steps))
    decreases |steps|
  {
    if steps != [] {
      StepIsExplainedIff(cfg, s, steps[0]);
      if KeepsKeys(cfg, s, steps[0]) {
        RunIsExplainedIff(cfg, Do(cfg, s, steps[0]), steps[1..]);
      }
    }
  }

  // ----- Which batches any closing can be trusted with

  /** The effect of executing `e` alone is explained. */
  ghost predicate AloneExplained<A, R>(cfg: Config<A, R>, s: Mirror<A, R>, c: Streamer<A, R>, e: Entry<R>)
    requires Routed(cfg) && Shaped(cfg, s) && |c.base| == |c.position| == cfg.partitions && InRange(cfg, s, c)
  {
    ExplainedAfter(cfg, s, c, CrashEffects([e]), e.key, Effect(cfg.kind, e))
  }

  /** The filtered slice is executed and its offsets are stored. */
  ghost function CommitEffects<A, R>(b: B.Batch<Message<A>, Entry<R>>): Effects<R> {
    Effects(Entries(B.Filtered(b)), true, {}, true)
  }

  ghost predicate Submits<A, R>(b: B.Batch<Message<A>, Entry<R>>) {
    b.entries != [] && !B.HasFatal(b.errors) && !B.NegativeCapacity(b)
  }

  /** Every entry of the slice may be executed alone, and what the filter drops again is explained without it. */
  ghost predicate ClosingGuard<A, R>(cfg: Config<A, R>, s: Mirror<A, R>, c: Streamer<A, R>)
    requires Routed(cfg) && Shaped(cfg, s) && |c.base| == |c.position| == cfg.partitions && InRange(cfg, s, c)
  {
    Submits(c.batch) ==>
      && (forall e :: e in Entries(B.Filtered(c.batch)) ==> AloneExplained(cfg, s, c, e))
      && (forall j :: Refilters(c.batch) && 0 <= j < |c.batch.entries| && j in B.Indexes(c.batch.errors) ==>
            DroppedExplained(cfg, s, c, c.batch.entries[j].value))
  }

  ghost predicate DroppedExplained<A, R>(cfg: Config<A, R>, s: Mirror<A, R>, c: Streamer<A, R>, e: Entry<R>)
    requires Routed(cfg) && Shaped(cfg, s) && |c.base| == |c.position| == cfg.partitions && InRange(cfg, s, c)
  {
    ExplainedAfter(cfg, s, c, CommitEffects(c.batch), e.key, Left(cfg, s, CommitEffects(c.batch), e.key))
  }

  lemma {:induction false} KeepReplay<A, R>(
    kind: Kind, slots: seq<B.Slot<Message<A>, Entry<R>>>, dropped: set<nat>, k: string, init: Option<Row<R>>)
    requires forall j :: 0 <= j < |slots| && j in dropped ==> slots[j].value.key != k
    ensures Replay(kind, Entries(B.Keep(slots, dropped)), k, init) == Replay(kind, Entries(slots), k, init)
  {
    if slots != [] {
      var n := |slots| - 1;
      KeepReplay(kind, slots[..n], dropped, k, init);
      assert Entries(slots)[..n] == Entries(slots[..n]);
      assert Entries(slots)[n] == slots[n].value;
      if n in dropped {
        assert B.Keep(slots, dropped) == B.Keep(slots[..n], dropped);
      } else {
        var es := Entries(B.Keep(slots, dropped));
        assert es[..|es| - 1] == Entries(B.Keep(slots[..n], dropped));
        assert es[|es| - 1] == slots[n].value;
      }
    }
  }

  /** A Submit that stores its offsets, under the guard. */
  lemma StoredUnderGuard<A(!new), R>(cfg: Config<A, R>, s: Mirror<A, R>, c: Streamer<A, R>, x: Effects<R>, k: string)
    requires Sound(cfg) && Shaped(cfg, s) && LogOk(cfg, s) && TableOk(cfg, s)
    requires |c.base| == |c.position| == cfg.partitions && StreamerOk(cfg, s, c) && c.pc == Failing
    requires c.batch.pending.Keys == {} && InRange(cfg, s, c) && Submits(c.batch) && ClosingGuard(cfg, s, c)
    requires x.reached && x.stored && x.executed == Entries(B.Filtered(c.batch))
    ensures ExplainedAfter(cfg, s, c, x, k, Left(cfg, s, x, k))
  {
    FilteredIsGood(cfg, s, c);
    if Refilters(c.batch) {
      var dropped := B.Indexes(c.batch.errors);
      if j :| 0 <= j < |c.batch.entries| && j in dropped && c.batch.entries[j].value.key == k {
        assert DroppedExplained(cfg, s, c, c.batch.entries[j].value);
      } else {
        KeepReplay(cfg.kind, c.batch.entries, dropped, k, Lookup(cfg.kind, s.table, k));
        WholeSliceExplains(cfg, s, c, x, k);
      }
    } else {
      WholeSliceIsHarmless(cfg, s, c, x, k);
    }
  }

  /** A Submit that stores nothing, under the guard. */
  lemma UnstoredUnderGuard<A(!new), R>(cfg: Config<A, R>, s: Mirror<A, R>, c: Streamer<A, R>, x: Effects<R>, k: string)
    requires Sound(cfg) && Shaped(cfg, s) && LogOk(cfg, s) && TableOk(cfg, s)
    requires |c.base| == |c.position| == cfg.partitions && InRange(cfg, s, c)
    requires !x.stored && x.reached && forall e :: e in x.executed ==> AloneExplained(cfg, s, c, e)
    ensures ExplainedAfter(cfg, s, c, x, k, Left(cfg, s, x, k))
  {
    var init := Lookup(cfg.kind, s.table, k);
    var p := cfg.partitionOf(k);
    ReplayIsInitOrEffect(cfg.kind, x.executed, k, init);
    assert Explained(cfg, s.log[p], s.committed[p], s.ahead[p], k, init);
    if e :| e in x.executed && e.key == k && Left(cfg, s, x, k) == Effect(cfg.kind, e) {
      assert AloneExplained(cfg, s, c, e);
    }
  }

  lemma GuardIsEnough<A(!new), R>(cfg: Config<A, R>, s: Mirror<A, R>, c: Streamer<A, R>, env: SubmitEnv<R>)
    requires Sound(cfg) && Shaped(cfg, s) && LogOk(cfg, s) && TableOk(cfg, s)
    requires |c.base| == |c.position| == cfg.partitions && StreamerOk(cfg, s, c) && c.pc == Failing
    requires CanSubmit(c.batch, env) && InRange(cfg, s, c) && ClosingGuard(cfg, s, c)
    ensures KeysExplained(cfg, s, c, SubmitEffects(c.batch, env))
  {
    var x := SubmitEffects(c.batch, env);
    forall e | e in Good(cfg, c) ensures ExplainedAfter(cfg, s, c, x, e.key, Left(cfg, s, x, e.key)) {
      if !x.reached {
        NothingIsHarmless(cfg, s, c, x, e.key);
      } else if x.stored {
        StoredUnderGuard(cfg, s, c, x, e.key);
      } else {
        UnstoredUnderGuard(cfg, s, c, x, e.key);
      }
    }
  }

  /** The environments in which the guard is needed: one entry is executed alone, or everything succeeds. */
  lemma AloneIsNeeded<A(!new), R>(cfg: Config<A, R>, s: Mirror<A, R>, c: Streamer<A, R>, e: Entry<R>)
    requires Sound(cfg) && Shaped(cfg, s) && LogOk(cfg, s)
    requires |c.base| == |c.position| == cfg.partitions && StreamerOk(cfg, s, c) && c.pc == Failing
    requires c.batch.pending.Keys == {} && InRange(cfg, s, c) && Submits(c.batch)
    requires e in Entries(B.Filtered(c.batch))
    requires KeysExplained(cfg, s, c, SubmitEffects(c.batch, SubmitEnv(false, [e], false, false)))
    ensures AloneExplained(cfg, s, c, e)
  {
    FilteredIsGood(cfg, s, c);
    assert SubmitEffects(c.batch, SubmitEnv(false, [e], false, false)) == CrashEffects([e]);
    assert [e][..0] == [] && Left(cfg, s, CrashEffects([e]), e.key) == Effect(cfg.kind, e);
  }

  lemma DroppedIsNeeded<A(!new), R>(cfg: Config<A, R>, s: Mirror<A, R>, c: Streamer<A, R>, j: nat)
    requires Sound(cfg) && Shaped(cfg, s) && LogOk(cfg, s)
    requires |c.base| == |c.position| == cfg.partitions && StreamerOk(cfg, s, c) && c.pc == Failing
    requires c.batch.pending.Keys == {} && InRange(cfg, s, c) && Submits(c.batch)
    requires Refilters(c.batch) && j < |c.batch.entries|
    requires KeysExplained(cfg, s, c, SubmitEffects(c.batch, SubmitEnv(true, [], true, false)))
    ensures DroppedExplained(cfg, s, c, c.batch.entries[j].value)
  {
    var e := c.batch.entries[j].value;
    assert Entries(c.batch.entries)[j] == e && e in Good(cfg, c);
    var x := SubmitEffects(c.batch, SubmitEnv(true, [], true, false));
    assert ExplainedAfter(cfg, s, c, x, e.key, Left(cfg, s, x, e.key));
  }

  lemma GuardIsNeeded<A(!new), R>(cfg: Config<A, R>, s: Mirror<A, R>, c: Streamer<A, R>)
    requires Sound(cfg) && Shaped(cfg, s) && LogOk(cfg, s)
    requires |c.base| == |c.position| == cfg.partitions && StreamerOk(cfg, s, c) && c.pc == Failing
    requires c.batch.pending.Keys == {} && InRange(cfg, s, c)
    requires forall env :: CanSubmit(c.batch, env) ==> KeysExplained(cfg, s, c, SubmitEffects(c.batch, env))
    ensures ClosingGuard(cfg, s, c)
  {
    if Submits(c.batch) {
      forall e | e in Entries(B.Filtered(c.batch)) ensures AloneExplained(cfg, s, c, e) {
        assert CanSubmit(c.batch, SubmitEnv(false, [e], false, false));
        AloneIsNeeded(cfg, s, c, e);
      }
      forall j | Refilters(c.batch) && 0 <= j < |c.batch.entries| && j in B.Indexes(c.batch.errors)
        ensures DroppedExplained(cfg, s, c, c.batch.entries[j].value)
      {
        assert CanSubmit(c.batch, SubmitEnv(true, [], true, false));
        DroppedIsNeeded(cfg, s, c, j);
      }
    }
  }

  /** Whatever the database and the broker do during a closing Submit, every key stays explained, if and only if the
      guard holds before it. */
  lemma ClosingGuardIff<A(!new), R>(cfg: Config<A, R>, s: Mirror<A, R>, i: nat)
    requires Sound(cfg) && Core(cfg, s) && TableOk(cfg, s) && i < cfg.streamers
    requires s.streamers[i].pc == Failing && s.streamers[i].batch.pending.Keys == {}
    ensures InRange(cfg, s, s.streamers[i])
    ensures (forall env :: Enabled(cfg, s, CloseRevokes(i, env)) ==> KeepsKeys(cfg, s, CloseRevokes(i, env)))
            <==> ClosingGuard(cfg, s, s.streamers[i])
  {
    var c := s.streamers[i];
    assert StreamerOk(cfg, s, c);
    if ClosingGuard(cfg, s, c) {
      forall env | Enabled(cfg, s, CloseRevokes(i, env)) ensures KeepsKeys(cfg, s, CloseRevokes(i, env)) {
        GuardIsEnough(cfg, s, c, env);
      }
    }
    if forall env :: Enabled(cfg, s, CloseRevokes(i, env)) ==> KeepsKeys(cfg, s, CloseRevokes(i, env)) {
      forall env | CanSubmit(c.batch, env) ensures KeysExplained(cfg, s, c, SubmitEffects(c.batch, env)) {
        assert Enabled(cfg, s, CloseRevokes(i, env)) && KeepsKeys(cfg, s, CloseRevokes(i, env));
      }
      GuardIsNeeded(cfg, s, c);
    }
  }

  /** A batch that is filtered for the first time, and of which nothing is committed, meets the guard. */
  lemma UncommittedIsGuarded<A(!new), R>(cfg: Config<A, R>, s: Mirror<A, R>, c: Streamer<A, R>)
    requires Sound(cfg) && Shaped(cfg, s) && LogOk(cfg, s)
    requires |c.base| == |c.position| == cfg.partitions && StreamerOk(cfg, s, c) && c.pc == Failing
    requires c.batch.pending.Keys == {} && InRange(cfg, s, c) && !Refilters(c.batch)
    requires forall p :: 0 <= p < cfg.partitions && p in c.owned ==> s.committed[p] == c.base[p]
    ensures ClosingGuard(cfg, s, c)
  {
    if Submits(c.batch) {
      FilteredIsGood(cfg, s, c);
      forall e | e in Entries(B.Filtered(c.batch)) ensures AloneExplained(cfg, s, c, e) {
        GoodIsInLog(cfg, s, c, e);
        var p := cfg.partitionOf(e.key);
        var o :| c.base[p] <= o < c.position[p] && cfg.parse(s.log[p][o]) == B.Parsed(e);
        assert Affects(cfg.parse, s.log[p][o], e.key);
      }
    }
  }

  /** A batch whose offsets were stored although the commit failed meets it if and only if each entry leaves its key as
      the committed log has it (no key is written twice with different effects), or as a message does that was handed
      over beyond the batch earlier. */
  lemma LandedIsGuardedIff<A(!new), R>(cfg: Config<A, R>, s: Mirror<A, R>, c: Streamer<A, R>)
    requires Sound(cfg) && Shaped(cfg, s) && LogOk(cfg, s)
    requires |c.base| == |c.position| == cfg.partitions && StreamerOk(cfg, s, c) && c.pc == Failing
    requires c.batch.pending.Keys == {} && InRange(cfg, s, c) && !Refilters(c.batch) && Submits(c.batch)
    requires forall p :: 0 <= p < cfg.partitions && p in c.owned ==> s.committed[p] == c.position[p]
    ensures ClosingGuard(cfg, s, c) <==> forall e :: e in Good(cfg, c) ==> LeftAsLogged(cfg, s, e)
  {
    FilteredIsGood(cfg, s, c);
    forall e | e in Good(cfg, c) ensures AloneExplained(cfg, s, c, e) <==> LeftAsLogged(cfg, s, e) {
      GoodIsInLog(cfg, s, c, e);
    }
  }

  ghost predicate LeftAsLogged<A, R>(cfg: Config<A, R>, s: Mirror<A, R>, e: Entry<R>)
    requires Routed(cfg) && Shaped(cfg, s) && LogOk(cfg, s)
  {
    var p := cfg.partitionOf(e.key);
    || Effect(cfg.kind, e) == Fold(cfg.kind, cfg.parse, s.log[p][..s.committed[p]], e.key, None)
    || exists o :: s.committed[p] <= o < s.ahead[p] && Affects(cfg.parse, s.log[p][o], e.key)
                   && Effect(cfg.kind, e) == Effect(cfg.kind, cfg.parse(s.log[p][o]).value)
  }

  // ----- Batches of one message

  lemma {:induction false} SuccessesLength<A, R>(parse: Message<A> -> B.Outcome<Entry<R>>, ms: seq<Message<A>>)
    ensures |B.Successes(parse, ms)| <= |ms|
  {
    if ms != [] {
      SuccessesLength(parse, ms[..|ms| - 1]);
    }
  }

  lemma SingleIsHarmless<A(!new), R>(cfg: Config<A, R>, s: Mirror<A, R>, c: Streamer<A, R>, x: Effects<R>)
    requires Sound(cfg) && Shaped(cfg, s) && LogOk(cfg, s) && TableOk(cfg, s)
    requires |c.base| == |c.position| == cfg.partitions && Matches(cfg, s, c) && InRange(cfg, s, c)
    requires |c.batch.added| <= 1 && forall e :: e in x.executed ==> e in Good(cfg, c)
    requires x.reached || (!x.stored && x.executed == [])
    requires x.stored ==> x.executed == Good(cfg, c)
    ensures KeysExplained(cfg, s, c, x)
  {
    SuccessesLength(cfg.parse, c.batch.added);
    forall e | e in Good(cfg, c) ensures ExplainedAfter(cfg, s, c, x, e.key, Left(cfg, s, x, e.key)) {
      assert Good(cfg, c) == [e];
      if x.executed == [] {
        NothingIsHarmless(cfg, s, c, x, e.key);
      } else {
        assert x.executed[|x.executed| - 1] in x.executed;
        assert [e][..0] == [];
        WholeSliceExplains(cfg, s, c, x, e.key);
      }
    }
  }

  lemma SingleKeepsKeys<A(!new), R>(cfg: Config<A, R>, s: Mirror<A, R>, step: Step<A, R>)
    requires Sound(cfg) && Core(cfg, s) && TableOk(cfg, s) && Enabled(cfg, s, step) && cfg.maxSize == 1
    ensures KeepsKeys(cfg, s, step)
  {
    match step
    case CloseRevokes(i, env) =>
      var c := s.streamers[i];
      assert StreamerOk(cfg, s, c);
      SubmitExecutesGood(cfg, s, c, env);
      if SubmitEffects(c.batch, env).stored {
        FilteredIsGood(cfg, s, c);
      }
      SingleIsHarmless(cfg, s, c, SubmitEffects(c.batch, env));
    case Crash(i, applied) =>
      var c := s.streamers[i];
      assert StreamerOk(cfg, s, c);
      if c.pc == Failing && applied != [] {
        FilteredIsGood(cfg, s, c);
        SingleIsHarmless(cfg, s, c, CrashEffects(applied));
      }
    case _ =>
  }

  // ----- Guarded runs

  /** Before a failed batch is given to submitF again, by a closing or until a crash, the guard holds. */
  ghost predicate Guarded<A(!new), R>(cfg: Config<A, R>, s: Mirror<A, R>, step: Step<A, R>)
    requires Sound(cfg) && Core(cfg, s) && Enabled(cfg, s, step)
  {
    match step
    case CloseRevokes(i, _) =>
      StreamerOk(cfg, s, s.streamers[i]) && ClosingGuard(cfg, s, s.streamers[i])
    case Crash(i, applied) =>
      s.streamers[i].pc == Failing && applied != [] ==>
        StreamerOk(cfg, s, s.streamers[i]) && ClosingGuard(cfg, s, s.streamers[i])
    case _ => true
  }

  lemma GuardedKeepsKeys<A(!new), R>(cfg: Config<A, R>, s: Mirror<A, R>, step: Step<A, R>)
    requires Sound(cfg) && Core(cfg, s) && TableOk(cfg, s) && Enabled(cfg, s, step) && Guarded(cfg, s, step)
    ensures KeepsKeys(cfg, s, step)
  {
    match step
    case CloseRevokes(i, env) =>
      GuardIsEnough(cfg, s, s.streamers[i], env);
    case Crash(i, applied) =>
      if s.streamers[i].pc == Failing && applied != [] {
        GuardedCrash(cfg, s, s.streamers[i], applied);
      }
    case _ =>
  }

  /** A step that spoils a key was not guarded. */
  lemma SpoiledIsUnguarded<A(!new), R>(cfg: Config<A, R>, s: Mirror<A, R>, step: Step<A, R>)
    requires Sound(cfg) && Core(cfg, s) && TableOk(cfg, s) && Enabled(cfg, s, step) && !KeepsKeys(cfg, s, step)
    ensures !Guarded(cfg, s, step)
  {
    if Guarded(cfg, s, step) {
      GuardedKeepsKeys(cfg, s, step);
    }
  }

  lemma GuardedCrash<A(!new), R>(cfg: Config<A, R>, s: Mirror<A, R>, c: Streamer<A, R>, applied: seq<Entry<R>>)
    requires Sound(cfg) && Shaped(cfg, s) && LogOk(cfg, s) && TableOk(cfg, s)
    requires |c.base| == |c.position| == cfg.partitions && InRange(cfg, s, c) && ClosingGuard(cfg, s, c)
    requires applied != [] && AppliedFrom(c.batch, applied)
    requires !B.HasFatal(c.batch.errors) && !B.NegativeCapacity(c.batch)
    ensures KeysExplained(cfg, s, c, CrashEffects(applied))
  {
    assert applied[0] in Entries(B.Filtered(c.batch));
    SomethingToFilter(c.batch);
    forall e | e in Good(cfg, c)
      ensures ExplainedAfter(cfg, s, c, CrashEffects(applied), e.key, Left(cfg, s, CrashEffects(applied), e.key))
    {
      UnstoredUnderGuard(cfg, s, c, CrashEffects(applied), e.key);
    }
  }

  lemma SomethingToFilter<A, R>(b: B.Batch<Message<A>, Entry<R>>)
    requires B.Filtered(b) != []
    ensures b.entries != []
  {
  }

  ghost predicate AllGuarded<A(!new), R>(cfg: Config<A, R>, s: Mirror<A, R>, steps: seq<Step<A, R>>)
    requires Sound(cfg) && Legal(cfg, s, steps)
    decreases |steps|
  {
    steps == []
    || (Core(cfg, s) && Guarded(cfg, s, steps[0]) && AllGuarded(cfg, Do(cfg, s, steps[0]), steps[1..]))
  }

  /** In a guarded run every key is explained in every state. */
  lemma {:induction false} GuardedRunKeepsKeys<A(!new), R>(cfg: Config<A, R>, s: Mirror<A, R>, steps: seq<Step<A, R>>)
    requires Sound(cfg) && Core(cfg, s) && TableOk(cfg, s) && Legal(cfg, s, steps) && AllGuarded(cfg, s, steps)
    ensures AllKeepKeys(cfg, s, steps) && AlwaysExplained(cfg, s, steps)
    ensures Core(cfg, Run(cfg, s, steps)) && TableOk(cfg, Run(cfg, s, steps))
    decreases |steps|
  {
    if steps != [] {
      GuardedKeepsKeys(cfg, s, steps[0]);
      StepIsExplainedIff(cfg, s, steps[0]);
      GuardedRunKeepsKeys(cfg, Do(cfg, s, steps[0]), steps[1..]);
    }
  }
}
