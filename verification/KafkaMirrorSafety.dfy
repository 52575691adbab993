/** What every step of the mirror keeps, whatever fails, crashes or closes: offsets, ownership, capacity and what the
    batches hold. */
module KafkaMirrorSafety {
  import opened KafkaTable
  import opened KafkaMirror
  import B = KafkaBatcher

  lemma MessageIsInLog<A(!new), R>(cfg: Config<A, R>, s: Mirror<A, R>, c: Streamer<A, R>, m: Message<A>)
    requires Sound(cfg) && Shaped(cfg, s) && LogOk(cfg, s)
    requires |c.base| == |c.position| == cfg.partitions && Matches(cfg, s, c) && m in c.batch.added
    ensures m.partition in c.owned && m.partition == cfg.partitionOf(m.key)
    ensures c.base[m.partition] <= m.offset < c.position[m.partition] && s.log[m.partition][m.offset] == m
  {
    var p := m.partition;
    OnPartitionMembers(c.batch.added, p);
    assert m in OnPartition(c.batch.added, p);
    assert p in c.owned;
    var j :| 0 <= j < c.position[p] - c.base[p] && s.log[p][c.base[p]..c.position[p]][j] == m;
    assert s.log[p][c.base[p] + j] == m;
  }

  /** The read position is at most one batch beyond the batch's base. */
  lemma PositionWindow<A, R>(cfg: Config<A, R>, s: Mirror<A, R>, c: Streamer<A, R>)
    requires Shaped(cfg, s) && |c.base| == |c.position| == cfg.partitions && Matches(cfg, s, c)
    requires |c.batch.added| <= cfg.maxSize
    ensures forall p :: 0 <= p < cfg.partitions && p in c.owned ==> c.position[p] <= c.base[p] + cfg.maxSize
  {
    forall p | 0 <= p < cfg.partitions && p in c.owned ensures c.position[p] <= c.base[p] + cfg.maxSize {
      OnPartitionMembers(c.batch.added, p);
    }
  }

  lemma StreamerFrame<A, R>(cfg: Config<A, R>, s: Mirror<A, R>, t: Mirror<A, R>, c: Streamer<A, R>)
    requires Shaped(cfg, s) && Shaped(cfg, t) && |c.base| == |c.position| == cfg.partitions
    requires StreamerOk(cfg, s, c)
    requires t.log == s.log
    requires forall p :: 0 <= p < cfg.partitions && p in c.owned ==> t.committed[p] == s.committed[p]
    ensures StreamerOk(cfg, t, c)
  {
  }

  // ----- A streamer acts on the world

  ghost function NoEffect<R>(): Effects<R> {
    Effects([], false, {}, false)
  }

  /** `c'` can take the place of streamer `i` after effects `x`. */
  ghost predicate Successor<A(!new), R>(
    cfg: Config<A, R>, s: Mirror<A, R>, i: nat, x: Effects<R>, c': Streamer<A, R>)
    requires Sound(cfg) && Core(cfg, s)
  {
    && i < cfg.streamers && |c'.base| == |c'.position| == cfg.partitions
    && var c := s.streamers[i];
       && c'.owned <= c.owned && (c.pc == Closed ==> !x.reached && !x.stored)
       && StreamerOk(cfg, s.(committed := Offsets(s, c, x)), c')
  }

  lemma AfterKeepsLog<A(!new), R>(cfg: Config<A, R>, s: Mirror<A, R>, i: nat, x: Effects<R>, c': Streamer<A, R>)
    requires Sound(cfg) && Core(cfg, s) && Successor(cfg, s, i, x, c')
    ensures Shaped(cfg, After(cfg, s, i, x, c'))
    ensures LogOk(cfg, After(cfg, s, i, x, c')) && Window(cfg, After(cfg, s, i, x, c'))
  {
    var c := s.streamers[i];
    assert StreamerOk(cfg, s, c);
    if c.pc != Closed {
      PositionWindow(cfg, s, c);
    }
  }

  lemma AfterIsExclusive<A(!new), R>(cfg: Config<A, R>, s: Mirror<A, R>, i: nat, x: Effects<R>, c': Streamer<A, R>)
    requires Sound(cfg) && Core(cfg, s) && Successor(cfg, s, i, x, c')
    requires Shaped(cfg, After(cfg, s, i, x, c'))
    ensures Exclusive(cfg, After(cfg, s, i, x, c'))
  {
    var t := After(cfg, s, i, x, c');
    forall j, l | 0 <= j < l < cfg.streamers ensures t.streamers[j].owned !! t.streamers[l].owned {
      assert s.streamers[j].owned !! s.streamers[l].owned;
    }
  }

  lemma AfterKeepsCore<A(!new), R>(cfg: Config<A, R>, s: Mirror<A, R>, i: nat, x: Effects<R>, c': Streamer<A, R>)
    requires Sound(cfg) && Core(cfg, s) && Successor(cfg, s, i, x, c')
    ensures Core(cfg, After(cfg, s, i, x, c'))
  {
    AfterKeepsLog(cfg, s, i, x, c');
    AfterIsExclusive(cfg, s, i, x, c');
    var c, t := s.streamers[i], After(cfg, s, i, x, c');
    forall j | 0 <= j < cfg.streamers ensures StreamerOk(cfg, t, t.streamers[j]) {
      if j == i {
        StreamerFrame(cfg, s.(committed := Offsets(s, c, x)), t, c');
      } else {
        Disjoint(cfg, s, i, j);
        StreamerFrame(cfg, s, t, s.streamers[j]);
      }
    }
  }

  lemma Disjoint<A, R>(cfg: Config<A, R>, s: Mirror<A, R>, i: nat, j: nat)
    requires Shaped(cfg, s) && Exclusive(cfg, s) && i < cfg.streamers && j < cfg.streamers && i != j
    ensures s.streamers[i].owned !! s.streamers[j].owned
  {
    if i < j {
      assert s.streamers[i].owned !! s.streamers[j].owned;
    } else {
      assert s.streamers[j].owned !! s.streamers[i].owned;
    }
  }

  lemma NoEffects<A, R>(cfg: Config<A, R>, s: Mirror<A, R>, i: nat, c': Streamer<A, R>)
    requires Shaped(cfg, s) && i < cfg.streamers
    ensures After(cfg, s, i, NoEffect(), c') == s.(streamers := s.streamers[i := c'])
  {
    assert s.delivered + {} == s.delivered;
  }

  /** A streamer changes nothing but itself. */
  lemma LocalStepKeepsCore<A(!new), R>(cfg: Config<A, R>, s: Mirror<A, R>, i: nat, c': Streamer<A, R>)
    requires Sound(cfg) && Core(cfg, s) && i < cfg.streamers
    requires |c'.base| == |c'.position| == cfg.partitions && StreamerOk(cfg, s, c')
    requires c'.owned <= s.streamers[i].owned
    ensures Core(cfg, s.(streamers := s.streamers[i := c']))
  {
    assert s.(committed := s.committed) == s;
    AfterKeepsCore(cfg, s, i, NoEffect(), c');
    NoEffects(cfg, s, i, c');
  }

  // ----- Submit

  /** What Submit hands over, on a fresh batch and on one that already failed once. */
  lemma SubmitSlice<A(!new), R>(cfg: Config<A, R>, s: Mirror<A, R>, c: Streamer<A, R>)
    requires Sound(cfg) && Shaped(cfg, s) && |c.base| == |c.position| == cfg.partitions && StreamerOk(cfg, s, c)
    requires c.pc != Closed && c.batch.pending.Keys == {} && c.batch.entries != []
    requires !B.HasFatal(c.batch.errors) && !B.NegativeCapacity(c.batch)
    requires Refilters(c.batch) ==> B.FailuresInTail(c.batch)
    ensures B.Filtered(c.batch) == B.Successes(cfg.parse, c.batch.added)
    ensures forall m :: m in c.batch.added ==> !cfg.parse(m).Fatal?
    ensures Retained(cfg, c.batch.(entries := B.Filtered(c.batch)))
    ensures B.WellIndexed(c.batch.(entries := B.Filtered(c.batch)))
  {
    B.KeepNothing(c.batch.entries, B.Indexes(c.batch.errors));
    assert forall e :: e in c.batch.errors ==> e.index in B.Indexes(c.batch.errors);
    if B.Faithful(cfg.parse, c.batch) {
      B.FilteredIsSequentialParse(cfg.parse, c.batch);
      if c.batch.errors != {} {
        var e :| e in c.batch.errors;
        assert e.index < |c.batch.entries|;
      }
    } else {
      assert Retained(cfg, c.batch);
    }
  }

  /** The streamer after a failed commit, whether or not the broker stored the offsets. */
  lemma AfterFailedCommit<A(!new), R>(cfg: Config<A, R>, s: Mirror<A, R>, c: Streamer<A, R>, landed: bool)
    requires Sound(cfg) && Shaped(cfg, s) && |c.base| == |c.position| == cfg.partitions && StreamerOk(cfg, s, c)
    requires c.pc != Closed && B.WellIndexed(c.batch.(entries := B.Filtered(c.batch)))
    requires Retained(cfg, c.batch.(entries := B.Filtered(c.batch)))
    ensures
      var committed := if landed then Overwrite(s.committed, c.owned, c.position) else s.committed;
      StreamerOk(cfg, s.(committed := committed), c.(batch := c.batch.(entries := B.Filtered(c.batch)), pc := Failing))
  {
  }

  lemma AfterCommit<A(!new), R>(cfg: Config<A, R>, s: Mirror<A, R>, c: Streamer<A, R>, next: Pc)
    requires Sound(cfg) && Shaped(cfg, s) && |c.base| == |c.position| == cfg.partitions && StreamerOk(cfg, s, c)
    requires c.pc != Closed && next in {Polling, Failing}
    ensures StreamerOk(cfg, s.(committed := Overwrite(s.committed, c.owned, c.position)),
                       c.(batch := B.Reset(c.batch), base := c.position, pc := next))
  {
    assert B.Reset(c.batch) == B.Fresh();
    assert forall p :: 0 <= p < cfg.partitions && p in c.owned ==> s.log[p][c.position[p]..c.position[p]] == [];
  }

  /** A healthy streamer's Submit leaves it healthy, and with an empty batch unless it reports an error. */
  lemma HealthyNext<A(!new), R>(cfg: Config<A, R>, s: Mirror<A, R>, i: nat, env: SubmitEnv<R>)
    requires Sound(cfg) && Core(cfg, s) && i < cfg.streamers && s.streamers[i].pc in {Polling, Added}
    requires CanSubmit(s.streamers[i].batch, env)
    ensures
      var c := s.streamers[i];
      var c' := NextStreamer(cfg, c, env, Polling);
      && Successor(cfg, s, i, SubmitEffects(c.batch, env), c') && c'.pc in {Polling, Failing}
      && (c'.pc == Polling ==> c'.batch.added == [])
  {
    var c := s.streamers[i];
    assert StreamerOk(cfg, s, c);
    assert s.(committed := s.committed) == s;
    match B.Submit(c.batch, env.dbOk, env.commitOk).1
    case Nothing =>
    case ParseFailed =>
    case Panicked =>
      SubmitNeverPanics(cfg, s, c, env);
    case SubmitFailed(_) =>
      FailedNext(cfg, s, c, env);
    case CommitFailed(_) =>
      FailedNext(cfg, s, c, env);
    case Committed(_) =>
      AfterCommit(cfg, s, c, Polling);
  }

  /** A batch that submitF or the commit refused can be submitted again or thrown away. */
  lemma FailedNext<A(!new), R>(cfg: Config<A, R>, s: Mirror<A, R>, c: Streamer<A, R>, env: SubmitEnv<R>)
    requires Sound(cfg) && Shaped(cfg, s) && |c.base| == |c.position| == cfg.partitions && StreamerOk(cfg, s, c)
    requires c.pc in {Polling, Added} && c.batch.pending.Keys == {}
    requires !(env.dbOk && env.commitOk) && SubmitEffects(c.batch, env).reached
    ensures
      var c' := NextStreamer(cfg, c, env, Polling);
      && StreamerOk(cfg, s.(committed := Offsets(s, c, SubmitEffects(c.batch, env))), c')
      && c'.pc == Failing && c'.owned == c.owned && c'.base == c.base && c'.position == c.position
  {
    assert s.(committed := s.committed) == s;
    SubmitSlice(cfg, s, c);
    AfterFailedCommit(cfg, s, c, env.dbOk && env.landed);
  }

  lemma SubmitNeverPanics<A(!new), R>(cfg: Config<A, R>, s: Mirror<A, R>, c: Streamer<A, R>, env: SubmitEnv<R>)
    requires Sound(cfg) && Shaped(cfg, s) && |c.base| == |c.position| == cfg.partitions && StreamerOk(cfg, s, c)
    requires c.pc in {Polling, Added} && c.batch.pending.Keys == {} && !B.HasFatal(c.batch.errors)
    ensures !B.NegativeCapacity(c.batch)
  {
    B.FilteredIsSequentialParse(cfg.parse, c.batch);
  }

  lemma SubmitKeepsCore<A(!new), R>(cfg: Config<A, R>, s: Mirror<A, R>, i: nat, env: SubmitEnv<R>)
    requires Sound(cfg) && Core(cfg, s) && i < cfg.streamers && s.streamers[i].pc in {Polling, Added}
    requires CanSubmit(s.streamers[i].batch, env)
    ensures Core(cfg, SubmitStep(cfg, s, i, env, Polling))
    ensures
      var c' := SubmitStep(cfg, s, i, env, Polling).streamers[i];
      c'.pc in {Polling, Failing} && (c'.pc == Polling ==> c'.batch.added == [])
  {
    HealthyNext(cfg, s, i, env);
    AfterKeepsCore(cfg, s, i, SubmitEffects(s.streamers[i].batch, env),
        NextStreamer(cfg, s.streamers[i], env, Polling));
  }

  /** The streamer that has left the group during a last Submit. */
  ghost function ClosedStreamer<A, R>(cfg: Config<A, R>, c: Streamer<A, R>, env: SubmitEnv<R>): Streamer<A, R>
    requires c.batch.pending.Keys == {}
  {
    NextStreamer(cfg, c, env, Failing).(pc := Closed, owned := {})
  }

  lemma ClosingIsAfter<A, R>(cfg: Config<A, R>, s: Mirror<A, R>, i: nat, env: SubmitEnv<R>)
    requires Shaped(cfg, s) && Enabled(cfg, s, CloseRevokes(i, env))
    ensures
      var c := s.streamers[i];
      Do(cfg, s, CloseRevokes(i, env)) == After(cfg, s, i, SubmitEffects(c.batch, env), ClosedStreamer(cfg, c, env))
  {
  }

  lemma ClosedIsOk<A(!new), R>(cfg: Config<A, R>, s: Mirror<A, R>, i: nat, env: SubmitEnv<R>)
    requires Sound(cfg) && Core(cfg, s) && Enabled(cfg, s, CloseRevokes(i, env))
    ensures
      var c := s.streamers[i];
      Successor(cfg, s, i, SubmitEffects(c.batch, env), ClosedStreamer(cfg, c, env))
  {
    var c := s.streamers[i];
    assert StreamerOk(cfg, s, c);
    assert B.WellIndexed(ClosedStreamer(cfg, c, env).batch);
  }

  /** A last Submit on a batch that failed, whatever becomes of it. */
  lemma ClosingKeepsCore<A(!new), R>(cfg: Config<A, R>, s: Mirror<A, R>, i: nat, env: SubmitEnv<R>)
    requires Sound(cfg) && Core(cfg, s) && Enabled(cfg, s, CloseRevokes(i, env))
    ensures Core(cfg, Do(cfg, s, CloseRevokes(i, env)))
  {
    var c := s.streamers[i];
    ClosedIsOk(cfg, s, i, env);
    ClosingIsAfter(cfg, s, i, env);
    AfterKeepsCore(cfg, s, i, SubmitEffects(c.batch, env), ClosedStreamer(cfg, c, env));
  }

  // ----- The other steps

  /** `t` has more messages at the ends of its partitions and differs in nothing else. */
  ghost predicate Grown<A, R>(cfg: Config<A, R>, s: Mirror<A, R>, t: Mirror<A, R>)
    requires Shaped(cfg, s)
  {
    && t == s.(log := t.log) && |t.log| == cfg.partitions
    && forall p :: 0 <= p < cfg.partitions ==> |s.log[p]| <= |t.log[p]| && t.log[p][..|s.log[p]|] == s.log[p]
  }

  lemma SameSlice<T>(a: seq<T>, b: seq<T>, lo: nat, hi: nat)
    requires lo <= hi <= |a| <= |b| && b[..|a|] == a
    ensures b[lo..hi] == a[lo..hi]
  {
    assert forall k :: 0 <= k < |a| ==> b[..|a|][k] == b[k];
  }

  lemma GrownKeepsStreamer<A, R>(cfg: Config<A, R>, s: Mirror<A, R>, t: Mirror<A, R>, c: Streamer<A, R>)
    requires Shaped(cfg, s) && Grown(cfg, s, t) && Shaped(cfg, t)
    requires |c.base| == |c.position| == cfg.partitions && StreamerOk(cfg, s, c)
    ensures StreamerOk(cfg, t, c)
  {
    if c.pc != Closed {
      forall p | 0 <= p < cfg.partitions && p in c.owned
        ensures t.log[p][c.base[p]..c.position[p]] == s.log[p][c.base[p]..c.position[p]]
      {
        SameSlice(s.log[p], t.log[p], c.base[p], c.position[p]);
      }
      assert Matches(cfg, t, c);
    }
  }

  lemma AppendGrows<A(!new), R>(cfg: Config<A, R>, s: Mirror<A, R>, m: Message<A>)
    requires Sound(cfg) && Shaped(cfg, s) && LogOk(cfg, s) && Enabled(cfg, s, Append(m))
    ensures Grown(cfg, s, Do(cfg, s, Append(m)))
    ensures Shaped(cfg, Do(cfg, s, Append(m))) && LogOk(cfg, Do(cfg, s, Append(m)))
  {
  }

  lemma AppendKeepsCore<A(!new), R>(cfg: Config<A, R>, s: Mirror<A, R>, m: Message<A>)
    requires Sound(cfg) && Core(cfg, s) && Enabled(cfg, s, Append(m))
    ensures Core(cfg, Do(cfg, s, Append(m)))
  {
    var t := Do(cfg, s, Append(m));
    AppendGrows(cfg, s, m);
    forall j | 0 <= j < cfg.streamers ensures StreamerOk(cfg, t, t.streamers[j]) {
      GrownKeepsStreamer(cfg, s, t, t.streamers[j]);
    }
  }

  lemma AssignedIsOk<A, R>(cfg: Config<A, R>, s: Mirror<A, R>, c: Streamer<A, R>, ps: set<nat>)
    requires Shaped(cfg, s) && LogOk(cfg, s) && |c.base| == |c.position| == cfg.partitions && StreamerOk(cfg, s, c)
    requires c.pc == Polling && c.owned == {} && forall p :: p in ps ==> p < cfg.partitions
    ensures StreamerOk(cfg, s, c.(owned := ps, base := Overwrite(c.base, ps, s.committed),
                                  position := Overwrite(c.position, ps, s.committed)))
  {
    NoPartitionsNoMessages(cfg, s, c);
    assert forall p :: 0 <= p < cfg.partitions && p in ps ==> s.log[p][s.committed[p]..s.committed[p]] == [];
  }

  lemma NoPartitionsNoMessages<A, R>(cfg: Config<A, R>, s: Mirror<A, R>, c: Streamer<A, R>)
    requires Shaped(cfg, s) && |c.base| == |c.position| == cfg.partitions && Matches(cfg, s, c) && c.owned == {}
    ensures c.batch.added == []
  {
    if c.batch.added != [] {
      var m := c.batch.added[0];
      OnPartitionMembers(c.batch.added, m.partition);
    }
  }

  lemma AssignKeepsCore<A(!new), R>(cfg: Config<A, R>, s: Mirror<A, R>, i: nat, ps: set<nat>)
    requires Sound(cfg) && Core(cfg, s) && Enabled(cfg, s, Assign(i, ps, true))
    ensures Core(cfg, Do(cfg, s, Assign(i, ps, true)))
  {
    var c, t := s.streamers[i], Do(cfg, s, Assign(i, ps, true));
    assert StreamerOk(cfg, s, c);
    AssignedIsOk(cfg, s, c, ps);
    forall j | 0 <= j < cfg.streamers ensures StreamerOk(cfg, t, t.streamers[j]) {
      StreamerFrame(cfg, s, t, if j == i then t.streamers[i] else s.streamers[j]);
    }
    assert forall j, l :: 0 <= j < l < cfg.streamers ==> s.streamers[j].owned !! s.streamers[l].owned;
  }

  lemma ReadMatches<A, R>(cfg: Config<A, R>, s: Mirror<A, R>, c: Streamer<A, R>, p: nat, c': Streamer<A, R>)
    requires Shaped(cfg, s) && |c.base| == |c.position| == cfg.partitions && Matches(cfg, s, c)
    requires p < cfg.partitions && p in c.owned && c.position[p] < |s.log[p]| && s.log[p][c.position[p]].partition == p
    requires c'.owned == c.owned && c'.base == c.base && c'.position == c.position[p := c.position[p] + 1]
    requires c'.batch.added == c.batch.added + [s.log[p][c.position[p]]]
    ensures Matches(cfg, s, c')
  {
    var m := s.log[p][c.position[p]];
    var ms := c'.batch.added;
    assert ms[..|ms| - 1] == c.batch.added;
    assert s.log[p][c.base[p]..c.position[p] + 1] == s.log[p][c.base[p]..c.position[p]] + [m];
  }

  lemma ReadIsOk<A, R>(cfg: Config<A, R>, s: Mirror<A, R>, c: Streamer<A, R>, p: nat, c': Streamer<A, R>)
    requires Shaped(cfg, s) && |c.base| == |c.position| == |c'.position| == cfg.partitions && StreamerOk(cfg, s, c)
    requires c.pc == Polling && c'.pc == Added && c'.owned == c.owned && c'.base == c.base && Matches(cfg, s, c')
    requires B.Faithful(cfg.parse, c'.batch) && |c'.batch.added| == |c.batch.added| + 1
    ensures StreamerOk(cfg, s, c')
  {
  }

  lemma ReadKeepsCore<A(!new), R>(cfg: Config<A, R>, s: Mirror<A, R>, i: nat, p: nat, deadline: int)
    requires Sound(cfg) && Core(cfg, s) && Enabled(cfg, s, Read(i, p, deadline))
    ensures Core(cfg, Do(cfg, s, Read(i, p, deadline)))
  {
    var c := s.streamers[i];
    var m := s.log[p][c.position[p]];
    var c' := c.(pc := Added, position := c.position[p := c.position[p] + 1],
                 batch := B.Add(c.batch, m, cfg.zero, deadline));
    assert StreamerOk(cfg, s, c);
    B.AddKeepsFaithful(cfg.parse, c.batch, m, cfg.zero, deadline);
    ReadMatches(cfg, s, c, p, c');
    ReadIsOk(cfg, s, c, p, c');
    LocalStepKeepsCore(cfg, s, i, c');
  }

  lemma FinishIsOk<A, R>(cfg: Config<A, R>, s: Mirror<A, R>, c: Streamer<A, R>, index: nat, flaky: bool)
    requires Shaped(cfg, s) && |c.base| == |c.position| == cfg.partitions && StreamerOk(cfg, s, c)
    requires index in c.batch.pending
    ensures StreamerOk(cfg, s,
              c.(batch := B.Finish(c.batch, index, if flaky then B.Fatal else cfg.parse(c.batch.pending[index]))))
  {
    if B.Faithful(cfg.parse, c.batch) {
      B.FinishKeepsFaithful(cfg.parse, c.batch, index, flaky);
    }
    SameMessagesMatch(cfg, s, c,
        B.Finish(c.batch, index, if flaky then B.Fatal else cfg.parse(c.batch.pending[index])));
  }

  lemma SameMessagesMatch<A, R>(cfg: Config<A, R>, s: Mirror<A, R>, c: Streamer<A, R>, b: B.Batch<Message<A>, Entry<R>>)
    requires Shaped(cfg, s) && |c.base| == |c.position| == cfg.partitions && b.added == c.batch.added
    ensures Matches(cfg, s, c.(batch := b)) <==> Matches(cfg, s, c)
  {
  }

  lemma WorkerDoneKeepsCore<A(!new), R>(cfg: Config<A, R>, s: Mirror<A, R>, i: nat, index: nat, flaky: bool)
    requires Sound(cfg) && Core(cfg, s) && Enabled(cfg, s, WorkerDone(i, index, flaky))
    ensures Core(cfg, Do(cfg, s, WorkerDone(i, index, flaky)))
  {
    var c := s.streamers[i];
    assert StreamerOk(cfg, s, c);
    FinishIsOk(cfg, s, c, index, flaky);
    var o := if flaky then B.Fatal else cfg.parse(c.batch.pending[index]);
    LocalStepKeepsCore(cfg, s, i, c.(batch := B.Finish(c.batch, index, o)));
  }

  lemma RevokeKeepsCore<A(!new), R>(cfg: Config<A, R>, s: Mirror<A, R>, i: nat, env: SubmitEnv<R>, unassignOk: bool)
    requires Sound(cfg) && Core(cfg, s) && Enabled(cfg, s, Revoke(i, env, unassignOk))
    ensures Core(cfg, Do(cfg, s, Revoke(i, env, unassignOk)))
  {
    SubmitKeepsCore(cfg, s, i, env);
    UnassignKeepsCore(cfg, SubmitStep(cfg, s, i, env, Polling), i, unassignOk);
  }

  lemma UnassignKeepsCore<A(!new), R>(cfg: Config<A, R>, t: Mirror<A, R>, i: nat, unassignOk: bool)
    requires Sound(cfg) && Core(cfg, t) && i < cfg.streamers
    requires t.streamers[i].pc == Polling ==> t.streamers[i].batch.added == []
    ensures
      var c := t.streamers[i];
      c.pc == Polling ==>
        Core(cfg, t.(streamers := t.streamers[i := if unassignOk then c.(owned := {}) else c.(pc := Failing)]))
  {
    var c := t.streamers[i];
    assert StreamerOk(cfg, t, c);
    if c.pc == Polling {
      LocalStepKeepsCore(cfg, t, i, if unassignOk then c.(owned := {}) else c.(pc := Failing));
    }
  }

  lemma CheckReadyKeepsCore<A(!new), R>(
    cfg: Config<A, R>, s: Mirror<A, R>, i: nat, now: int, env: SubmitEnv<R>)
    requires Sound(cfg) && Core(cfg, s) && Enabled(cfg, s, CheckReady(i, now, env))
    ensures Core(cfg, Do(cfg, s, CheckReady(i, now, env)))
  {
    var c := s.streamers[i];
    assert StreamerOk(cfg, s, c);
    if B.IsReady(c.batch, cfg.maxSize, now) {
      SubmitKeepsCore(cfg, s, i, env);
    } else {
      LocalStepKeepsCore(cfg, s, i, c.(pc := Polling));
    }
  }

  lemma NewStreamerIsOk<A, R>(cfg: Config<A, R>, s: Mirror<A, R>)
    requires Shaped(cfg, s) && cfg.maxSize > 0
    ensures
      var c := NewStreamer(cfg);
      |c.base| == |c.position| == cfg.partitions && StreamerOk(cfg, s, c) && c.owned == {}
  {
    B.FreshIsFaithful(cfg.parse);
  }

  lemma CrashKeepsCore<A(!new), R>(cfg: Config<A, R>, s: Mirror<A, R>, i: nat, applied: seq<Entry<R>>)
    requires Sound(cfg) && Core(cfg, s) && Enabled(cfg, s, Crash(i, applied))
    ensures Core(cfg, Do(cfg, s, Crash(i, applied)))
  {
    assert s.(committed := s.committed) == s;
    NewStreamerIsOk(cfg, s);
    AfterKeepsCore(cfg, s, i, CrashEffects(applied), NewStreamer(cfg));
  }

  lemma RestartKeepsCore<A(!new), R>(cfg: Config<A, R>, s: Mirror<A, R>, i: nat)
    requires Sound(cfg) && Core(cfg, s) && Enabled(cfg, s, Restart(i))
    ensures Core(cfg, Do(cfg, s, Restart(i)))
  {
    var c := s.streamers[i];
    assert StreamerOk(cfg, s, c);
    assert B.Reset(c.batch) == B.Fresh();
    LocalStepKeepsCore(cfg, s, i, c.(pc := Polling, batch := B.Reset(c.batch)));
  }

  lemma FailKeepsCore<A(!new), R>(cfg: Config<A, R>, s: Mirror<A, R>, i: nat)
    requires Sound(cfg) && Core(cfg, s) && i < cfg.streamers && s.streamers[i].pc == Polling
    ensures Core(cfg, s.(streamers := s.streamers[i := s.streamers[i].(pc := Failing)]))
  {
    assert StreamerOk(cfg, s, s.streamers[i]);
    LocalStepKeepsCore(cfg, s, i, s.streamers[i].(pc := Failing));
  }

  lemma LeaveKeepsCore<A(!new), R>(cfg: Config<A, R>, s: Mirror<A, R>, i: nat)
    requires Sound(cfg) && Core(cfg, s) && i < cfg.streamers
    ensures Core(cfg, Leave(s, i))
  {
    assert StreamerOk(cfg, s, s.streamers[i]);
    LocalStepKeepsCore(cfg, s, i, s.streamers[i].(pc := Closed, owned := {}));
  }

  lemma StepKeepsCore<A(!new), R>(cfg: Config<A, R>, s: Mirror<A, R>, step: Step<A, R>)
    requires Sound(cfg) && Core(cfg, s) && Enabled(cfg, s, step)
    ensures Core(cfg, Do(cfg, s, step))
  {
    match step
    case Append(m) => AppendKeepsCore(cfg, s, m);
    case Assign(i, ps, ok) =>
      if ok {
        AssignKeepsCore(cfg, s, i, ps);
      } else {
        FailKeepsCore(cfg, s, i);
      }
    case Read(i, p, deadline) => ReadKeepsCore(cfg, s, i, p, deadline);
    case WorkerDone(i, index, flaky) => WorkerDoneKeepsCore(cfg, s, i, index, flaky);
    case CheckReady(i, now, env) => CheckReadyKeepsCore(cfg, s, i, now, env);
    case PollTimeout(i, now, env) =>
      if B.IsReady(s.streamers[i].batch, cfg.maxSize, now) {
        SubmitKeepsCore(cfg, s, i, env);
      }
    case Revoke(i, env, unassignOk) => RevokeKeepsCore(cfg, s, i, env, unassignOk);
    case ReadFails(i) => FailKeepsCore(cfg, s, i);
    case Close(i) => LeaveKeepsCore(cfg, s, i);
    case CloseRevokes(i, env) => ClosingKeepsCore(cfg, s, i, env);
    case Restart(i) => RestartKeepsCore(cfg, s, i);
    case Crash(i, applied) => CrashKeepsCore(cfg, s, i, applied);
  }

  lemma InitCore<A(!new), R>(cfg: Config<A, R>)
    requires Sound(cfg)
    ensures Core(cfg, Init(cfg))
  {
    var s := Init(cfg);
    assert forall i :: 0 <= i < cfg.streamers ==> s.streamers[i] == NewStreamer(cfg);
    forall i | 0 <= i < cfg.streamers ensures StreamerOk(cfg, s, s.streamers[i]) {
      B.FreshIsFaithful(cfg.parse);
    }
  }

  lemma {:induction false} RunKeepsCore<A(!new), R>(cfg: Config<A, R>, s: Mirror<A, R>, steps: seq<Step<A, R>>)
    requires Sound(cfg) && Core(cfg, s) && Legal(cfg, s, steps)
    ensures Core(cfg, Run(cfg, s, steps))
    decreases |steps|
  {
    if steps != [] {
      StepKeepsCore(cfg, s, steps[0]);
      RunKeepsCore(cfg, Do(cfg, s, steps[0]), steps[1..]);
    }
  }
}
