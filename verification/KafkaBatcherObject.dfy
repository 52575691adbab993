/** `messageBatcher` of kafka-streamer/batcher.go as the object it is: `entries` is a buffer that append
    fills and workers write by index.  Every method refines the function of the same name in KafkaBatcher. */
module KafkaBatcherObject {
  import B = KafkaBatcher

  datatype Status = Nothing | ParseFailed | Panicked | SubmitFailed | CommitFailed | Committed

  function StatusOf<M, T>(r: B.SubmitResult<M, T>): Status {
    match r
    case Nothing => Nothing
    case ParseFailed => ParseFailed
    case Panicked => Panicked
    case SubmitFailed(_) => SubmitFailed
    case CommitFailed(_) => CommitFailed
    case Committed(_) => Committed
  }

  /** What submitF received, if it was called. */
  function Sent<M, T>(r: B.SubmitResult<M, T>): seq<T> {
    if r.SubmitFailed? || r.CommitFailed? || r.Committed? then Values(r.slice) else []
  }

  /** What Submit reports, and what submitF received, from what is left of the batch once every worker is done. */
  lemma StatusEnds<M, T>(b: B.Batch<M, T>, dbOk: bool, commitOk: bool)
    requires b.pending.Keys == {} && b.entries != []
    ensures
      var r := B.Submit(b, dbOk, commitOk).1;
      var bad := (exists e :: e in b.errors && e.fatal) || |b.errors| > |b.entries|;
      && (StatusOf(r) in {ParseFailed, Panicked} <==> bad)
      && (StatusOf(r) == SubmitFailed <==> !bad && !dbOk)
      && (StatusOf(r) == CommitFailed <==> !bad && dbOk && !commitOk)
      && (StatusOf(r) == Committed <==> !bad && dbOk && commitOk)
      && Sent(r) == if bad then [] else Values(B.Filtered(b))
  {
    B.SubmitEnds(b, dbOk, commitOk);
  }

  function Values<M, T>(s: seq<B.Slot<M, T>>): seq<T> {
    seq(|s|, i requires 0 <= i < |s| => s[i].value)
  }

  function Zip<M, T>(tags: seq<M>, values: seq<T>): seq<B.Slot<M, T>>
    requires |tags| == |values|
  {
    seq(|tags|, i requires 0 <= i < |tags| => B.Slot(tags[i], values[i]))
  }

  function ErrorSet(errors: seq<B.ErrorAtIndex>): set<B.ErrorAtIndex> {
    set e | e in errors
  }

  lemma {:induction false} ErrorSetSize(errors: seq<B.ErrorAtIndex>)
    requires forall i, j :: 0 <= i < j < |errors| ==> errors[i].index != errors[j].index
    ensures |ErrorSet(errors)| == |errors|
    ensures ErrorSet(errors) == {} <==> errors == []
  {
    if errors != [] {
      var n := |errors|;
      ErrorSetSize(errors[..n - 1]);
      assert ErrorSet(errors) == ErrorSet(errors[..n - 1]) + {errors[n - 1]};
    }
  }

  lemma {:induction false} KeepZip<M, T>(tags: seq<M>, values: seq<T>, dropped: set<nat>)
    requires |tags| == |values|
    ensures |B.Keep(tags, dropped)| == |B.Keep(values, dropped)|
    ensures B.Keep(Zip(tags, values), dropped) == Zip(B.Keep(tags, dropped), B.Keep(values, dropped))
  {
    var n := |tags|;
    if n > 0 {
      KeepZip(tags[..n - 1], values[..n - 1], dropped);
      assert Zip(tags, values)[..n - 1] == Zip(tags[..n - 1], values[..n - 1]);
    }
  }

  method CollectIndexes(errors: seq<B.ErrorAtIndex>) returns (indexes: set<nat>)
    ensures indexes == B.Indexes(ErrorSet(errors))
  {
    indexes := {};
    for k := 0 to |errors|
      invariant indexes == B.Indexes(ErrorSet(errors[..k]))
    {
      indexes := indexes + {errors[k].index};
      assert ErrorSet(errors[..k + 1]) == ErrorSet(errors[..k]) + {errors[k]};
    }
    assert errors[..|errors|] == errors;
  }

  method KeepValues<T>(entries: seq<T>, dropped: set<nat>) returns (kept: seq<T>)
    ensures kept == B.Keep(entries, dropped)
  {
    kept := [];
    for i := 0 to |entries|
      invariant kept == B.Keep(entries[..i], dropped)
    {
      assert entries[..i + 1][..i] == entries[..i];
      if i !in dropped {
        kept := kept + [entries[i]];
      }
    }
    assert entries[..|entries|] == entries;
  }

  class Batcher<M, T> {
    const maxSize: nat
    const timeout: int
    const zero: T
    const parse: M -> B.Outcome<T>
    var entries: array<T>
    var len: nat
    var errors: seq<B.ErrorAtIndex>
    var pending: map<nat, M>
    var nextTimeout: int
    var closed: bool
    ghost var tags: seq<M>
    ghost var added: seq<M>

    ghost predicate Valid()
      reads this, entries
    {
      && len <= entries.Length
      && |tags| == len
      && (forall i, j :: 0 <= i < j < |errors| ==> errors[i].index != errors[j].index)
      && B.WellIndexed(Abs())
    }

    ghost function Abs(): B.Batch<M, T>
      reads this, entries
      requires len <= entries.Length && |tags| == len
    {
      B.Batch(Zip(tags, entries[..len]), ErrorSet(errors), pending, nextTimeout, closed, added)
    }

    constructor (maxSize: nat, timeout: int, zero: T, parse: M -> B.Outcome<T>)
      ensures Valid() && fresh(entries) && entries.Length == maxSize
      ensures Abs() == B.Fresh()
      ensures this.maxSize == maxSize && this.timeout == timeout && this.zero == zero && this.parse == parse
    {
      this.maxSize, this.timeout, this.zero, this.parse := maxSize, timeout, zero, parse;
      entries := new T[maxSize](_ => zero);
      len, errors, pending, nextTimeout, closed, tags, added := 0, [], map[], 0, false, [], [];
    }

    /** append copies a full buffer to a longer one. */
    method Grow()
      modifies this`entries
      ensures fresh(entries) && entries.Length > old(entries.Length)
      ensures entries[..old(entries.Length)] == old(entries[..])
    {
      var full := entries;
      entries := new T[2 * full.Length + 1](i requires 0 <= i reads full =>
        if i < full.Length then full[i] else zero);
    }

    /** Reserves the next slot for `msg` and hands it to the worker pool.  The buffer is replaced only when
        it is full, so below capacity the workers' slots stay where they are.  The precondition excludes
        adding after a failed Submit that filtered the entries, before the Reset that follows it. */
    method Add(msg: M, now: int) returns (ok: bool)
      requires Valid()
      requires forall e :: e in errors ==> e.index < len
      modifies this, entries
      ensures Valid()
      ensures ok == !old(closed)
      ensures Abs() == B.Add(old(Abs()), msg, zero, now + timeout)
      ensures if old(len) < old(entries.Length) || !ok then entries == old(entries) else fresh(entries)
    {
      if closed {
        return false;
      }
      var index := len;
      if index == 0 {
        nextTimeout := now + timeout;
      }
      if len == entries.Length {
        Grow();
      }
      entries[len] := zero;
      len := len + 1;
      tags := tags + [msg];
      added := added + [msg];
      pending := pending[index := msg];
      assert Abs().entries == old(Abs().entries) + [B.Slot(msg, zero)];
      ok := true;
    }

    /** A worker finishes the message at index `i`. */
    method WorkerDone(i: nat, flaky: bool)
      requires Valid() && i in pending
      modifies this`errors, this`pending, entries
      ensures Valid()
      ensures Abs() == B.Finish(old(Abs()), i, if flaky then B.Fatal else parse(old(pending)[i]))
    {
      var outcome := if flaky then B.Fatal else parse(pending[i]);
      assert forall e :: e in errors ==> e in Abs().errors;
      match outcome {
        case Parsed(v) =>
          entries[i] := v;
        case NonFatal =>
          errors := errors + [B.ErrorAtIndex(i, false)];
        case Fatal =>
          errors := errors + [B.ErrorAtIndex(i, true)];
      }
      pending := pending - {i};
      assert Abs().entries == B.Finish(old(Abs()), i, outcome).entries;
      assert Abs().errors == B.Finish(old(Abs()), i, outcome).errors;
    }

    /** Waiting on the wait group: the outstanding workers finish, in an arbitrary order. */
    method Wait(flaky: set<nat>)
      requires Valid()
      modifies this`errors, this`pending, entries
      ensures Valid() && pending.Keys == {}
      ensures Abs() == B.Drain(old(Abs()), parse, flaky)
    {
      while pending.Keys != {}
        invariant Valid()
        invariant B.Drain(Abs(), parse, flaky) == B.Drain(old(Abs()), parse, flaky)
        decreases pending.Keys
      {
        var i :| i in pending.Keys;
        B.FinishThenDrain(Abs(), parse, flaky, i);
        WorkerDone(i, i in flaky);
      }
      B.DrainNothing(Abs(), parse, flaky);
    }

    predicate IsReady(now: int)
      reads this, entries
      requires Valid()
      ensures IsReady(now) == B.IsReady(Abs(), maxSize, now)
      ensures IsReady(now) <==> len > 0 && (len >= maxSize || now > nextTimeout)
    {
      len != 0 && (len >= maxSize || now > nextTimeout)
    }

    /** The checks of Submit that come before submitF, once every worker is done. */
    method CheckErrors() returns (status: Status)
      requires Valid() && pending.Keys == {} && len > 0
      modifies this`entries, this`len, this`tags
      ensures Valid()
      ensures var b := old(Abs());
              if B.HasFatal(b.errors) then status == ParseFailed && Abs() == b
              else if B.NegativeCapacity(b) then status == Panicked && Abs() == b
              else status == Nothing && Abs() == b.(entries := B.Filtered(b))
      ensures entries == old(entries) || fresh(entries)
    {
      ErrorSetSize(errors);
      if |errors| > 0 {
        if exists k :: 0 <= k < |errors| && errors[k].fatal {
          return ParseFailed;
        }
        if len < |errors| {
          return Panicked;
        }
        FilterErrors();
      }
      status := Nothing;
    }

    /** Submit once the workers are done.  `dbOk` and `commitOk` are how submitF and the offset commit end;
        `sent` is what submitF received. */
    method SubmitDrained(dbOk: bool, commitOk: bool) returns (status: Status, sent: seq<T>)
      requires Valid() && pending.Keys == {} && len > 0
      modifies this, entries
      ensures Valid()
      ensures var (b, r) := B.Submit(old(Abs()), dbOk, commitOk);
              Abs() == b && status == StatusOf(r) && sent == Sent(r)
    {
      sent := [];
      status := CheckErrors();
      if status != Nothing {
        return;
      }
      sent := entries[..len];
      assert sent == Values(Abs().entries);
      if !dbOk {
        return SubmitFailed, sent;
      }
      if !commitOk {
        return CommitFailed, sent;
      }
      Reset({});
      status := Committed;
    }

    method Submit(flaky: set<nat>, dbOk: bool, commitOk: bool) returns (status: Status, sent: seq<T>)
      requires Valid()
      modifies this, entries
      ensures Valid()
      ensures old(len) == 0 ==> status == Nothing && Abs() == old(Abs())
      ensures old(len) > 0 ==>
                var (b, r) := B.Submit(B.Drain(old(Abs()), parse, flaky), dbOk, commitOk);
                Abs() == b && status == StatusOf(r) && sent == Sent(r)
    {
      if len == 0 {
        return Nothing, [];
      }
      Wait(flaky);
      status, sent := SubmitDrained(dbOk, commitOk);
    }

    /** The body of Submit's error branch that rebuilds `entries` without the failed indexes. */
    method FilterErrors()
      requires Valid() && errors != [] && pending.Keys == {}
      modifies this`entries, this`len, this`tags
      ensures Valid() && fresh(entries)
      ensures Abs() == old(Abs()).(entries := B.Filtered(old(Abs())))
    {
      var errorIndices := CollectIndexes(errors);
      ErrorSetSize(errors);
      var newEntries := KeepValues(entries[..len], errorIndices);
      KeepZip(tags, entries[..len], errorIndices);
      var buffer := new T[|newEntries|](i requires 0 <= i < |newEntries| => newEntries[i]);
      assert buffer[..|newEntries|] == newEntries;
      tags := B.Keep(tags, errorIndices);
      entries, len := buffer, |newEntries|;
    }

    /** Reset waits only when there are entries; with none there is no outstanding worker either, so in
        both cases nothing is left that could write into the new buffer. */
    method Reset(flaky: set<nat>)
      requires Valid()
      modifies this, entries
      ensures Valid() && fresh(entries) && entries.Length == maxSize
      ensures Abs() == B.Reset(old(Abs()))
    {
      if len > 0 {
        Wait(flaky);
      }
      nextTimeout := 0;
      entries := new T[maxSize](_ => zero);
      len, errors, tags, added := 0, [], [], [];
      assert pending == map[];
    }

    method Stop(flaky: set<nat>)
      requires Valid()
      modifies this, entries
      ensures Valid() && closed
      ensures Abs() == if old(closed) then old(Abs()) else B.Drain(old(Abs()), parse, flaky).(closed := true)
    {
      if closed {
        return;
      }
      closed := true;
      ghost var mid := Abs();
      Wait(flaky);
      assert B.Drain(mid, parse, flaky).entries == B.Drain(old(Abs()), parse, flaky).entries;
      assert B.Drain(mid, parse, flaky).errors == B.Drain(old(Abs()), parse, flaky).errors;
    }
  }
}
