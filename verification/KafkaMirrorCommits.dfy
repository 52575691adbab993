/** Commit safety: below a committed offset every message was accepted by the database or failed non-fatally.  Every
    step keeps it but a last Submit, during the closing of a consumer, that filters a filtered batch again; this
    module says exactly which of those do not. */
module KafkaMirrorCommits {
  import opened KafkaTable
  import opened KafkaMirror
  import Safety = KafkaMirrorSafety
  import B = KafkaBatcher

  // ----- What has to be accepted before a commit

  /** Every message of the current batch was accepted, now or before, or fails non-fatally. */
  ghost predicate Covered<A, R>(cfg: Config<A, R>, s: Mirror<A, R>, c: Streamer<A, R>, accepted: set<(nat, nat)>)
    requires Shaped(cfg, s) && |c.position| == cfg.partitions
    requires forall p :: 0 <= p < cfg.partitions && p in c.owned ==> c.position[p] <= |s.log[p]|
  {
    forall p, o :: 0 <= p < cfg.partitions && p in c.owned && s.committed[p] <= o < c.position[p] ==>
      (p, o) in s.delivered + accepted || cfg.parse(s.log[p][o]).NonFatal?
  }

  lemma CommitIff<A(!new), R>(cfg: Config<A, R>, s: Mirror<A, R>, i: nat, x: Effects<R>, c': Streamer<A, R>)
    requires Sound(cfg) && Core(cfg, s) && Settled(cfg, s) && i < cfg.streamers && s.streamers[i].pc != Closed
    requires Safety.Successor(cfg, s, i, x, c')
    ensures
      var c, t := s.streamers[i], After(cfg, s, i, x, c');
      && StreamerOk(cfg, s, c) && Shaped(cfg, t) && LogOk(cfg, t)
      && (Settled(cfg, t) <==> (x.stored ==> Covered(cfg, s, c, x.accepted)))
  {
    var c, t := s.streamers[i], After(cfg, s, i, x, c');
    assert StreamerOk(cfg, s, c);
    Safety.AfterKeepsLog(cfg, s, i, x, c');
    if x.stored && Settled(cfg, t) {
      forall p, o | 0 <= p < cfg.partitions && p in c.owned && s.committed[p] <= o < c.position[p]
        ensures (p, o) in s.delivered + x.accepted || cfg.parse(s.log[p][o]).NonFatal?
      {
        assert o < t.committed[p];
      }
    }
  }

  lemma SliceCovers<A(!new), R>(cfg: Config<A, R>, s: Mirror<A, R>, c: Streamer<A, R>, p: nat, o: nat)
    requires Sound(cfg) && Shaped(cfg, s) && LogOk(cfg, s)
    requires |c.base| == |c.position| == cfg.partitions && Matches(cfg, s, c)
    requires forall m :: m in c.batch.added ==> !cfg.parse(m).Fatal?
    requires p < cfg.partitions && p in c.owned && c.base[p] <= o < c.position[p]
    ensures (p, o) in Refs(B.Successes(cfg.parse, c.batch.added)) || cfg.parse(s.log[p][o]).NonFatal?
  {
    var m := s.log[p][o];
    assert m == s.log[p][c.base[p]..c.position[p]][o - c.base[p]];
    assert m in OnPartition(c.batch.added, p);
    OnPartitionMembers(c.batch.added, p);
    SuccessesMembers(cfg.parse, c.batch.added);
    if cfg.parse(m).Parsed? {
      var slot := B.Slot(m, cfg.parse(m).value);
      assert slot in B.Successes(cfg.parse, c.batch.added);
    }
  }

  /** A slice that is the sequential parse of the batch covers it. */
  lemma ParseCovers<A(!new), R>(cfg: Config<A, R>, s: Mirror<A, R>, c: Streamer<A, R>)
    requires Sound(cfg) && Shaped(cfg, s) && LogOk(cfg, s)
    requires |c.base| == |c.position| == cfg.partitions && Matches(cfg, s, c)
    requires forall m :: m in c.batch.added ==> !cfg.parse(m).Fatal?
    ensures Covered(cfg, s, c, Refs(B.Successes(cfg.parse, c.batch.added)))
  {
    forall p, o | 0 <= p < cfg.partitions && p in c.owned && s.committed[p] <= o < c.position[p]
      ensures (p, o) in Refs(B.Successes(cfg.parse, c.batch.added)) || cfg.parse(s.log[p][o]).NonFatal?
    {
      SliceCovers(cfg, s, c, p, o);
    }
  }

  // ----- No message is in a batch twice

  lemma {:induction false} OnPartitionConcat<A>(a: seq<Message<A>>, b: seq<Message<A>>, p: nat)
    ensures OnPartition(a + b, p) == OnPartition(a, p) + OnPartition(b, p)
  {
    if b == [] {
      assert a + b == a;
    } else {
      var all := a + b;
      assert all[..|all| - 1] == a + b[..|b| - 1];
      OnPartitionConcat(a, b[..|b| - 1], p);
    }
  }

  /** Messages at different places of one partition are at different places of the partition's part. */
  lemma PlacesOnPartition<A>(ms: seq<Message<A>>, i: nat, j: nat) returns (k: nat, n: nat)
    requires i < j < |ms| && ms[i].partition == ms[j].partition
    ensures
      var part := OnPartition(ms, ms[i].partition);
      k < n < |part| && part[k] == ms[i] && part[n] == ms[j]
  {
    var p := ms[i].partition;
    var front, one, rest := ms[..j], [ms[j]], ms[j + 1..];
    assert ms == front + (one + rest);
    OnPartitionConcat(front, one + rest, p);
    OnPartitionConcat(one, rest, p);
    assert one[..0] == [] && OnPartition(one, p) == one;
    OnPartitionMembers(front, p);
    assert front[i] == ms[i] && ms[i] in OnPartition(front, p);
    k :| 0 <= k < |OnPartition(front, p)| && OnPartition(front, p)[k] == ms[i];
    n := |OnPartition(front, p)|;
  }

  /** Two messages at different places of a batch are at different offsets. */
  lemma DifferentMessages<A, R>(cfg: Config<A, R>, s: Mirror<A, R>, c: Streamer<A, R>, i: nat, j: nat)
    requires Shaped(cfg, s) && LogOk(cfg, s) && |c.base| == |c.position| == cfg.partitions && Matches(cfg, s, c)
    requires i < j < |c.batch.added| && c.batch.added[i].partition == c.batch.added[j].partition
    ensures c.batch.added[i].offset != c.batch.added[j].offset
  {
    var p := c.batch.added[i].partition;
    assert c.batch.added[i] in c.batch.added;
    var k, n := PlacesOnPartition(c.batch.added, i, j);
    SlicePositions(cfg, s, c, p, k);
    SlicePositions(cfg, s, c, p, n);
  }

  lemma SlicePositions<A, R>(cfg: Config<A, R>, s: Mirror<A, R>, c: Streamer<A, R>, p: nat, k: nat)
    requires Shaped(cfg, s) && LogOk(cfg, s) && |c.base| == |c.position| == cfg.partitions && Matches(cfg, s, c)
    requires p < cfg.partitions && k < |OnPartition(c.batch.added, p)|
    ensures p in c.owned && OnPartition(c.batch.added, p)[k].offset == c.base[p] + k
  {
    if p in c.owned {
      assert OnPartition(c.batch.added, p)[k] == s.log[p][c.base[p]..c.position[p]][k];
      assert s.log[p][c.base[p]..c.position[p]][k] == s.log[p][c.base[p] + k];
    }
  }

  ghost function RefOf<A>(m: Message<A>): (nat, nat) {
    (m.partition, m.offset)
  }

  ghost predicate Same<A>(m: Message<A>, n: Message<A>) {
    m.partition == n.partition && m.offset == n.offset
  }

  ghost predicate NoTwice<A>(ms: seq<Message<A>>) {
    forall i, j :: 0 <= i < j < |ms| ==> !Same(ms[i], ms[j])
  }

  ghost predicate NoSlotTwice<A, R>(slots: seq<B.Slot<Message<A>, Entry<R>>>) {
    forall i, j :: 0 <= i < j < |slots| ==> !Same(slots[i].from, slots[j].from)
  }

  lemma BatchHasNoTwice<A, R>(cfg: Config<A, R>, s: Mirror<A, R>, c: Streamer<A, R>)
    requires Shaped(cfg, s) && LogOk(cfg, s) && |c.base| == |c.position| == cfg.partitions && Matches(cfg, s, c)
    ensures NoTwice(c.batch.added)
  {
    forall i, j | 0 <= i < j < |c.batch.added| ensures !Same(c.batch.added[i], c.batch.added[j]) {
      if c.batch.added[i].partition == c.batch.added[j].partition {
        DifferentMessages(cfg, s, c, i, j);
      }
    }
  }

  /** Nor is it in the slice of the batch's good messages. */
  lemma {:induction false} SuccessesHaveNoTwice<A, R>(parse: Message<A> -> B.Outcome<Entry<R>>, ms: seq<Message<A>>)
    requires NoTwice(ms)
    ensures NoSlotTwice(B.Successes(parse, ms))
  {
    if ms != [] {
      var n := |ms| - 1;
      var front, slots := B.Successes(parse, ms[..n]), B.Successes(parse, ms);
      SuccessesHaveNoTwice(parse, ms[..n]);
      SuccessesMembers(parse, ms[..n]);
      forall i, j | 0 <= i < j < |slots| ensures !Same(slots[i].from, slots[j].from) {
        if j == |front| {
          assert slots[j].from == ms[n];
          assert slots[i] == front[i] && front[i] in front && front[i].from in ms[..n];
          var k :| 0 <= k < n && ms[..n][k] == front[i].from;
          assert ms[k] == slots[i].from;
          assert !Same(ms[k], ms[n]);
        } else {
          assert slots[i] == front[i] && slots[j] == front[j];
          assert !Same(front[i].from, front[j].from);
        }
      }
    }
  }

  ghost predicate KeptAt<X>(xs: seq<X>, dropped: set<nat>, i: int, x: X) {
    0 <= i < |xs| && i !in dropped && xs[i] == x
  }

  lemma {:induction false} KeepMember<X>(xs: seq<X>, dropped: set<nat>, x: X)
    ensures x in B.Keep(xs, dropped) <==> exists i :: KeptAt(xs, dropped, i, x)
  {
    if xs != [] {
      var n := |xs| - 1;
      KeepMember(xs[..n], dropped, x);
      if x in B.Keep(xs[..n], dropped) {
        var i :| KeptAt(xs[..n], dropped, i, x);
        assert KeptAt(xs, dropped, i, x);
      } else if x in B.Keep(xs, dropped) {
        assert KeptAt(xs, dropped, n, x);
      } else {
        forall i ensures !KeptAt(xs, dropped, i, x) {
          assert !KeptAt(xs[..n], dropped, i, x);
        }
      }
    }
  }

  // ----- Closing

  /** The entries that filtering a filtered batch again would drop. */
  ghost predicate DroppedAgain<A, R>(b: B.Batch<Message<A>, Entry<R>>, j: int) {
    0 <= j < |b.entries| && j in B.Indexes(b.errors)
  }

  /** Nothing is lost by a step: what a closing Submit would commit without having handed it over was accepted by
      the database earlier. */
  ghost predicate Lossless<A, R>(s: Mirror<A, R>, step: Step<A, R>) {
    match step
    case CloseRevokes(i, env) =>
      i < |s.streamers| && s.streamers[i].batch.pending.Keys == {} ==>
        var b := s.streamers[i].batch;
        SubmitEffects(b, env).stored && Refilters(b) ==>
          forall j :: DroppedAgain(b, j) ==> RefOf(b.entries[j].from) in s.delivered
    case _ => true
  }

  lemma CoveredWhenKept<A(!new), R>(
    cfg: Config<A, R>, s: Mirror<A, R>, c: Streamer<A, R>, dropped: set<nat>)
    requires Sound(cfg) && Shaped(cfg, s) && LogOk(cfg, s)
    requires |c.base| == |c.position| == cfg.partitions && Matches(cfg, s, c) && Retained(cfg, c.batch)
    requires forall j :: 0 <= j < |c.batch.entries| && j in dropped ==> RefOf(c.batch.entries[j].from) in s.delivered
    ensures Covered(cfg, s, c, Refs(B.Keep(c.batch.entries, dropped)))
  {
    var kept := B.Keep(c.batch.entries, dropped);
    forall p, o | 0 <= p < cfg.partitions && p in c.owned && s.committed[p] <= o < c.position[p]
      ensures (p, o) in s.delivered + Refs(kept) || cfg.parse(s.log[p][o]).NonFatal?
    {
      SliceCovers(cfg, s, c, p, o);
      if (p, o) in Refs(c.batch.entries) {
        var slot :| slot in c.batch.entries && (slot.from.partition, slot.from.offset) == (p, o);
        var j :| 0 <= j < |c.batch.entries| && c.batch.entries[j] == slot;
        if j !in dropped {
          KeepMember(c.batch.entries, dropped, slot);
          assert KeptAt(c.batch.entries, dropped, j, slot);
        }
      }
    }
  }

  lemma DroppedIsNotKept<A(!new), R>(
    cfg: Config<A, R>, s: Mirror<A, R>, c: Streamer<A, R>, dropped: set<nat>, j: nat)
    requires Shaped(cfg, s) && LogOk(cfg, s)
    requires |c.base| == |c.position| == cfg.partitions && Matches(cfg, s, c) && Retained(cfg, c.batch)
    requires j < |c.batch.entries| && j in dropped
    ensures RefOf(c.batch.entries[j].from) !in Refs(B.Keep(c.batch.entries, dropped))
  {
    var slots := c.batch.entries;
    BatchHasNoTwice(cfg, s, c);
    SuccessesHaveNoTwice(cfg.parse, c.batch.added);
    forall other | other in B.Keep(slots, dropped) ensures !Same(other.from, slots[j].from) {
      KeepMember(slots, dropped, other);
      var k: nat :| KeptAt(slots, dropped, k, other);
      if k < j {
        assert !Same(slots[k].from, slots[j].from);
      } else {
        assert j < k && !Same(slots[j].from, slots[k].from);
      }
    }
  }

  lemma KeptWhenCovered<A(!new), R>(
    cfg: Config<A, R>, s: Mirror<A, R>, c: Streamer<A, R>, dropped: set<nat>, j: nat)
    requires Sound(cfg) && Shaped(cfg, s) && LogOk(cfg, s) && Settled(cfg, s)
    requires |c.base| == |c.position| == cfg.partitions && Matches(cfg, s, c) && Retained(cfg, c.batch)
    requires Covered(cfg, s, c, Refs(B.Keep(c.batch.entries, dropped)))
    requires j < |c.batch.entries| && j in dropped
    ensures RefOf(c.batch.entries[j].from) in s.delivered
  {
    var m := c.batch.entries[j].from;
    SuccessesMembers(cfg.parse, c.batch.added);
    assert c.batch.entries[j] in c.batch.entries && m in c.batch.added;
    Safety.MessageIsInLog(cfg, s, c, m);
    DroppedIsNotKept(cfg, s, c, dropped, j);
    assert cfg.parse(s.log[m.partition][m.offset]).Parsed?;
    if m.offset < s.committed[m.partition] {
      assert (m.partition, m.offset) in s.delivered;
    } else {
      assert (m.partition, m.offset) in s.delivered + Refs(B.Keep(c.batch.entries, dropped));
    }
  }

  /** A closing Submit keeps commit safety if and only if it is lossless. */
  lemma ClosingIff<A(!new), R>(cfg: Config<A, R>, s: Mirror<A, R>, i: nat, env: SubmitEnv<R>)
    requires Sound(cfg) && Core(cfg, s) && Settled(cfg, s) && Enabled(cfg, s, CloseRevokes(i, env))
    ensures
      var t := Do(cfg, s, CloseRevokes(i, env));
      && Shaped(cfg, t) && LogOk(cfg, t)
      && (Settled(cfg, t) <==> Lossless(s, CloseRevokes(i, env)))
  {
    var c := s.streamers[i];
    var x := SubmitEffects(c.batch, env);
    assert StreamerOk(cfg, s, c);
    Safety.ClosedIsOk(cfg, s, i, env);
    Safety.ClosingIsAfter(cfg, s, i, env);
    CommitIff(cfg, s, i, x, Safety.ClosedStreamer(cfg, c, env));
    if x.stored {
      StoredIsAccepted(c.batch, env);
      StoredClosingIff(cfg, s, c, x);
    }
  }

  lemma StoredIsAccepted<A, R>(b: B.Batch<Message<A>, Entry<R>>, env: SubmitEnv<R>)
    requires b.pending.Keys == {} && SubmitEffects(b, env).stored
    ensures SubmitEffects(b, env).accepted == Refs(B.Filtered(b)) && !B.HasFatal(b.errors)
  {
  }

  lemma StoredClosingIff<A(!new), R>(cfg: Config<A, R>, s: Mirror<A, R>, c: Streamer<A, R>, x: Effects<R>)
    requires Sound(cfg) && Shaped(cfg, s) && LogOk(cfg, s) && Settled(cfg, s)
    requires |c.base| == |c.position| == cfg.partitions && StreamerOk(cfg, s, c) && c.pc == Failing
    requires c.batch.pending.Keys == {} && !B.HasFatal(c.batch.errors) && x.accepted == Refs(B.Filtered(c.batch))
    ensures
      Covered(cfg, s, c, x.accepted)
      <==> (Refilters(c.batch) ==>
              forall j :: DroppedAgain(c.batch, j) ==> RefOf(c.batch.entries[j].from) in s.delivered)
  {
    var dropped := B.Indexes(c.batch.errors);
    if !Refilters(c.batch) {
      assert B.Filtered(c.batch) == B.Successes(cfg.parse, c.batch.added)
        && forall m :: m in c.batch.added ==> !cfg.parse(m).Fatal? by {
        if B.Faithful(cfg.parse, c.batch) {
          B.FilteredIsSequentialParse(cfg.parse, c.batch);
        }
      }
      ParseCovers(cfg, s, c);
    } else {
      assert Retained(cfg, c.batch);
      if forall j :: DroppedAgain(c.batch, j) ==> RefOf(c.batch.entries[j].from) in s.delivered {
        forall j | 0 <= j < |c.batch.entries| && j in dropped
          ensures RefOf(c.batch.entries[j].from) in s.delivered
        {
          assert DroppedAgain(c.batch, j);
        }
        CoveredWhenKept(cfg, s, c, dropped);
      } else {
        var j :| DroppedAgain(c.batch, j) && RefOf(c.batch.entries[j].from) !in s.delivered;
        if Covered(cfg, s, c, x.accepted) {
          KeptWhenCovered(cfg, s, c, dropped, j);
        }
      }
    }
  }

  // ----- What failed first decides

  /** After a commit that failed, the database has the whole slice: no closing loses anything. */
  lemma FailedCommitThenClosing<A(!new), R>(
    cfg: Config<A, R>, s: Mirror<A, R>, i: nat, env: SubmitEnv<R>, last: SubmitEnv<R>)
    requires Sound(cfg) && Core(cfg, s) && i < cfg.streamers && s.streamers[i].pc in {Polling, Added}
    requires CanSubmit(s.streamers[i].batch, env)
    requires B.Submit(s.streamers[i].batch, env.dbOk, env.commitOk).1.CommitFailed?
    ensures Lossless(SubmitStep(cfg, s, i, env, Polling), CloseRevokes(i, last))
  {
    var t := SubmitStep(cfg, s, i, env, Polling);
    var b := t.streamers[i].batch;
    forall j | DroppedAgain(b, j) ensures RefOf(b.entries[j].from) in t.delivered {
      assert b.entries[j] in b.entries;
    }
  }

  /** After a submitF that failed on messages the database never had, a closing loses nothing if and only if it does
      not get as far as storing offsets, or there were no failures, or they all lie beyond the entries left. */
  lemma RejectedThenClosing<A(!new), R>(
    cfg: Config<A, R>, s: Mirror<A, R>, i: nat, env: SubmitEnv<R>, last: SubmitEnv<R>)
    requires Sound(cfg) && Core(cfg, s) && i < cfg.streamers && s.streamers[i].pc in {Polling, Added}
    requires CanSubmit(s.streamers[i].batch, env)
    requires B.Submit(s.streamers[i].batch, env.dbOk, env.commitOk).1.SubmitFailed?
    requires forall slot :: slot in B.Filtered(s.streamers[i].batch) ==> RefOf(slot.from) !in s.delivered
    ensures
      var t := SubmitStep(cfg, s, i, env, Polling);
      var b := t.streamers[i].batch;
      Lossless(t, CloseRevokes(i, last))
      <==> || b.entries == [] || B.NegativeCapacity(b) || !last.dbOk || !(last.commitOk || last.landed)
           || b.errors == {} || B.FailuresInTail(b)
  {
    var c := s.streamers[i];
    var t := SubmitStep(cfg, s, i, env, Polling);
    assert StreamerOk(cfg, s, c);
    Safety.SubmitSlice(cfg, s, c);
    assert t.streamers[i].batch == c.batch.(entries := B.Filtered(c.batch));
    assert t.delivered == s.delivered;
    UnacceptedClosing(cfg, t, i, last);
  }

  lemma UnacceptedClosing<A(!new), R>(cfg: Config<A, R>, t: Mirror<A, R>, i: nat, last: SubmitEnv<R>)
    requires i < |t.streamers| && Retained(cfg, t.streamers[i].batch)
    requires forall slot :: slot in t.streamers[i].batch.entries ==> RefOf(slot.from) !in t.delivered
    ensures
      var b := t.streamers[i].batch;
      Lossless(t, CloseRevokes(i, last))
      <==> || b.entries == [] || B.NegativeCapacity(b) || !last.dbOk || !(last.commitOk || last.landed)
           || b.errors == {} || B.FailuresInTail(b)
  {
    var b := t.streamers[i].batch;
    if b.errors != {} && !B.NegativeCapacity(b) {
      TailIff(b);
      forall j | DroppedAgain(b, j) ensures RefOf(b.entries[j].from) !in t.delivered {
        assert b.entries[j] in b.entries;
      }
    }
  }

  lemma TailIff<A, R>(b: B.Batch<Message<A>, Entry<R>>)
    requires b.errors != {} && !B.NegativeCapacity(b)
    ensures B.FailuresInTail(b) <==> forall j :: !DroppedAgain(b, j)
  {
    forall e | e in b.errors && e.index < |b.entries| ensures DroppedAgain(b, e.index) {
    }
  }

  // ----- Every other step

  lemma SubmitKeepsSettled<A(!new), R>(cfg: Config<A, R>, s: Mirror<A, R>, i: nat, env: SubmitEnv<R>)
    requires Sound(cfg) && Core(cfg, s) && Settled(cfg, s) && i < cfg.streamers && s.streamers[i].pc in {Polling, Added}
    requires CanSubmit(s.streamers[i].batch, env)
    ensures
      var t := SubmitStep(cfg, s, i, env, Polling);
      Shaped(cfg, t) && LogOk(cfg, t) && Settled(cfg, t)
  {
    var c := s.streamers[i];
    var x := SubmitEffects(c.batch, env);
    assert StreamerOk(cfg, s, c);
    Safety.HealthyNext(cfg, s, i, env);
    CommitIff(cfg, s, i, x, NextStreamer(cfg, c, env, Polling));
    if x.stored {
      B.FilteredIsSequentialParse(cfg.parse, c.batch);
      ParseCovers(cfg, s, c);
    }
  }

  lemma GrownKeepsSettled<A(!new), R>(cfg: Config<A, R>, s: Mirror<A, R>, t: Mirror<A, R>)
    requires Shaped(cfg, s) && LogOk(cfg, s) && Safety.Grown(cfg, s, t) && Shaped(cfg, t) && LogOk(cfg, t)
              && Settled(cfg, s)
    ensures Settled(cfg, t)
  {
    forall p, o | 0 <= p < cfg.partitions && 0 <= o < t.committed[p] ensures t.log[p][o] == s.log[p][o] {
      assert t.log[p][..|s.log[p]|][o] == s.log[p][o];
    }
  }

  lemma SameCommitsAreSettled<A, R>(cfg: Config<A, R>, s: Mirror<A, R>, t: Mirror<A, R>)
    requires Shaped(cfg, s) && LogOk(cfg, s) && Settled(cfg, s)
    requires Shaped(cfg, t) && LogOk(cfg, t)
    requires t.log == s.log && t.committed == s.committed && t.delivered == s.delivered
    ensures Settled(cfg, t)
  {
  }

  lemma RevokeKeepsSettled<A(!new), R>(cfg: Config<A, R>, s: Mirror<A, R>, i: nat, env: SubmitEnv<R>, unassignOk: bool)
    requires Sound(cfg) && Core(cfg, s) && Settled(cfg, s) && Enabled(cfg, s, Revoke(i, env, unassignOk))
    requires Core(cfg, Do(cfg, s, Revoke(i, env, unassignOk)))
    ensures Settled(cfg, Do(cfg, s, Revoke(i, env, unassignOk)))
  {
    SubmitKeepsSettled(cfg, s, i, env);
    SameCommitsAreSettled(cfg, SubmitStep(cfg, s, i, env, Polling), Do(cfg, s, Revoke(i, env, unassignOk)));
  }

  /** Commit safety survives a step if and only if the step is lossless. */
  lemma StepIsSettledIff<A(!new), R>(cfg: Config<A, R>, s: Mirror<A, R>, step: Step<A, R>)
    requires Sound(cfg) && Core(cfg, s) && Settled(cfg, s) && Enabled(cfg, s, step)
    ensures Core(cfg, Do(cfg, s, step))
    ensures Settled(cfg, Do(cfg, s, step)) <==> Lossless(s, step)
  {
    Safety.StepKeepsCore(cfg, s, step);
    var t := Do(cfg, s, step);
    match step
    case Append(m) =>
      Safety.AppendGrows(cfg, s, m);
      GrownKeepsSettled(cfg, s, t);
    case CheckReady(i, now, env) =>
      if B.IsReady(s.streamers[i].batch, cfg.maxSize, now) {
        SubmitKeepsSettled(cfg, s, i, env);
      }
    case PollTimeout(i, now, env) =>
      if B.IsReady(s.streamers[i].batch, cfg.maxSize, now) {
        SubmitKeepsSettled(cfg, s, i, env);
      }
    case Revoke(i, env, unassignOk) => RevokeKeepsSettled(cfg, s, i, env, unassignOk);
    case CloseRevokes(i, env) => ClosingIff(cfg, s, i, env);
    case Crash(i, applied) =>
      SameCommitsAreSettled(cfg, s, t);
    case _ =>
      SameCommitsAreSettled(cfg, s, t);
  }

  // ----- Whole runs

  ghost predicate AllLossless<A, R>(cfg: Config<A, R>, s: Mirror<A, R>, steps: seq<Step<A, R>>)
    requires Legal(cfg, s, steps)
    decreases |steps|
  {
    steps == [] || (Lossless(s, steps[0]) && AllLossless(cfg, Do(cfg, s, steps[0]), steps[1..]))
  }

  /** Commit safety holds in every state of the run. */
  ghost predicate AlwaysSettled<A, R>(cfg: Config<A, R>, s: Mirror<A, R>, steps: seq<Step<A, R>>)
    requires Legal(cfg, s, steps)
    decreases |steps|
  {
    && Shaped(cfg, s) && LogOk(cfg, s) && Settled(cfg, s)
    && (steps != [] ==> AlwaysSettled(cfg, Do(cfg, s, steps[0]), steps[1..]))
  }

  lemma {:induction false} RunIsSettledIff<A(!new), R>(cfg: Config<A, R>, s: Mirror<A, R>, steps: seq<Step<A, R>>)
    requires Sound(cfg) && Core(cfg, s) && Settled(cfg, s) && Legal(cfg, s, steps)
    ensures AlwaysSettled(cfg, s, steps) <==> AllLossless(cfg, s, steps)
    ensures AllLossless(cfg, s, steps) ==> Core(cfg, Run(cfg, s, steps)) && Settled(cfg, Run(cfg, s, steps))
    decreases |steps|
  {
    if steps != [] {
      StepIsSettledIff(cfg, s, steps[0]);
      if Lossless(s, steps[0]) {
        RunIsSettledIff(cfg, Do(cfg, s, steps[0]), steps[1..]);
      }
    }
  }
}
