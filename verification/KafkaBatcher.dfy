/** The message batcher of kafka-streamer/batcher.go.

    `Batch` is the value of a batcher between two atomic actions, and the functions on it are the
    actions: `Add`, one worker finishing, `Submit`, `Reset`.  `Batcher` is the same thing as the source
    has it, a mutable object over an array of slots, and each of its methods is tied to its function. */
module KafkaBatcher {

  /** What the parse callback returns: a value, an error of type nonFatalError, or any other error. */
  datatype Outcome<+T> = Parsed(value: T) | NonFatal | Fatal

  datatype ErrorAtIndex = ErrorAtIndex(index: nat, fatal: bool)

  /** One element of `entries`, tagged with the message it was reserved for. */
  datatype Slot<+M, +T> = Slot(from: M, value: T)

  /** `pending` holds the messages handed to the worker pool whose worker has not finished yet (the wait
      group counts them); `added` is the history of messages added since the last reset. */
  datatype Batch<M, T> = Batch(
    entries: seq<Slot<M, T>>,
    errors: set<ErrorAtIndex>,
    pending: map<nat, M>,
    nextTimeout: int,
    closed: bool,
    added: seq<M>)

  function Fresh<M, T>(): Batch<M, T> {
    Batch([], {}, map[], 0, false, [])
  }

  // ----- The actions

  /** Adding to a stopped batcher is an error and changes nothing. */
  function Add<M, T>(b: Batch<M, T>, msg: M, zero: T, deadline: int): Batch<M, T> {
    if b.closed then b else
      b.(entries := b.entries + [Slot(msg, zero)],
         pending := b.pending[|b.entries| := msg],
         nextTimeout := if b.entries == [] then deadline else b.nextTimeout,
         added := b.added + [msg])
  }

  /** The worker holding index `i` finishes with outcome `o`. */
  function Finish<M, T>(b: Batch<M, T>, i: nat, o: Outcome<T>): Batch<M, T>
    requires i in b.pending && i < |b.entries|
  {
    var rest := b.(pending := b.pending - {i});
    match o
    case Parsed(v) => rest.(entries := b.entries[i := b.entries[i].(value := v)])
    case NonFatal => rest.(errors := b.errors + {ErrorAtIndex(i, false)})
    case Fatal => rest.(errors := b.errors + {ErrorAtIndex(i, true)})
  }

  predicate IsReady<M, T>(b: Batch<M, T>, maxSize: nat, now: int) {
    b.entries != [] && (|b.entries| >= maxSize || now > b.nextTimeout)
  }

  predicate HasFatal(errors: set<ErrorAtIndex>) {
    exists e :: e in errors && e.fatal
  }

  function Indexes(errors: set<ErrorAtIndex>): set<nat> {
    set e | e in errors :: e.index
  }

  /** The elements of `s` whose index is not in `dropped`, in order. */
  function Keep<X>(s: seq<X>, dropped: set<nat>): seq<X> {
    if s == [] then []
    else Keep(s[..|s| - 1], dropped) + (if |s| - 1 in dropped then [] else [s[|s| - 1]])
  }

  datatype SubmitResult<M, T> =
    | Nothing
    | ParseFailed
    | Panicked
    | SubmitFailed(slice: seq<Slot<M, T>>)
    | CommitFailed(slice: seq<Slot<M, T>>)
    | Committed(slice: seq<Slot<M, T>>)

  /** The filtering half of Submit: what `entries` is when `submitF` is called. */
  function Filtered<M, T>(b: Batch<M, T>): seq<Slot<M, T>> {
    if b.errors == {} then b.entries else Keep(b.entries, Indexes(b.errors))
  }

  /** make([]T, 0, n) panics for a negative n. */
  predicate NegativeCapacity<M, T>(b: Batch<M, T>) {
    b.errors != {} && |b.errors| > |b.entries|
  }

  function Reset<M, T>(b: Batch<M, T>): Batch<M, T> {
    b.(entries := [], errors := {}, pending := map[], nextTimeout := 0, added := [])
  }

  /** Submit once every worker is done; `dbOk` and `commitOk` say how submitF and the offset commit end. */
  function Submit<M, T>(b: Batch<M, T>, dbOk: bool, commitOk: bool): (Batch<M, T>, SubmitResult<M, T>)
    requires b.pending.Keys == {}
  {
    if b.entries == [] then (b, Nothing)
    else if HasFatal(b.errors) then (b, ParseFailed)
    else if NegativeCapacity(b) then (b, Panicked)
    else
      var slice := Filtered(b);
      var b' := b.(entries := slice);
      if !dbOk then (b', SubmitFailed(slice))
      else if !commitOk then (b', CommitFailed(slice))
      else (Reset(b), Committed(slice))
  }

  /** How a Submit ends, from what is left of the batch once every worker is done. */
  lemma SubmitEnds<M, T>(b: Batch<M, T>, dbOk: bool, commitOk: bool)
    requires b.pending.Keys == {} && b.entries != []
    ensures
      var r := Submit(b, dbOk, commitOk).1;
      var fatal, more := exists e :: e in b.errors && e.fatal, |b.errors| > |b.entries|;
      && (r == ParseFailed <==> fatal)
      && (r == Panicked <==> !fatal && more)
      && (r.SubmitFailed? <==> !fatal && !more && !dbOk)
      && (r.CommitFailed? <==> !fatal && !more && dbOk && !commitOk)
      && (r.Committed? <==> !fatal && !more && dbOk && commitOk)
      && (r.SubmitFailed? || r.CommitFailed? || r.Committed? ==> r.slice == Filtered(b))
  {
    assert |b.errors| > |b.entries| ==> b.errors != {};
  }

  // ----- When a batch is ready

  /** What happens to a batch between two submits. */
  datatype Event<+M, +T> = Reserved(msg: M, deadline: int) | Finished(index: nat, outcome: Outcome<T>)

  predicate CanPlay<M, T>(b: Batch<M, T>, events: seq<Event<M, T>>, zero: T)
    decreases |events|
  {
    events == [] ||
    match events[0]
    case Reserved(msg, deadline) => CanPlay(Add(b, msg, zero, deadline), events[1..], zero)
    case Finished(i, o) => i in b.pending && i < |b.entries| && CanPlay(Finish(b, i, o), events[1..], zero)
  }

  function Play<M, T>(b: Batch<M, T>, events: seq<Event<M, T>>, zero: T): Batch<M, T>
    requires CanPlay(b, events, zero)
    decreases |events|
  {
    if events == [] then b
    else
      match events[0]
      case Reserved(msg, deadline) => Play(Add(b, msg, zero, deadline), events[1..], zero)
      case Finished(i, o) => Play(Finish(b, i, o), events[1..], zero)
  }

  /** The times at which the batch would have run out had its clock started with each of its messages. */
  function Deadlines<M, T>(events: seq<Event<M, T>>): seq<int> {
    if events == [] then []
    else (if events[0].Reserved? then [events[0].deadline] else []) + Deadlines(events[1..])
  }

  lemma {:induction false} PlayKeepsClock<M, T>(b: Batch<M, T>, events: seq<Event<M, T>>, zero: T)
    requires CanPlay(b, events, zero) && !b.closed
    ensures
      var r, deadlines := Play(b, events, zero), Deadlines(events);
      && |r.entries| == |b.entries| + |deadlines|
      && r.nextTimeout == (if b.entries == [] && deadlines != [] then deadlines[0] else b.nextTimeout)
    decreases |events|
  {
    if events != [] {
      match events[0]
      case Reserved(msg, deadline) => PlayKeepsClock(Add(b, msg, zero, deadline), events[1..], zero);
      case Finished(i, o) => PlayKeepsClock(Finish(b, i, o), events[1..], zero);
    }
  }

  /** However its workers finish in between, a batch that starts empty is ready exactly when it has as many messages as
      fit, or has one and the clock that its first message started has run out. */
  lemma ReadyIff<M, T>(b: Batch<M, T>, events: seq<Event<M, T>>, zero: T, maxSize: nat, now: int)
    requires b.entries == [] && !b.closed && CanPlay(b, events, zero)
    ensures
      var deadlines := Deadlines(events);
      IsReady(Play(b, events, zero), maxSize, now)
      <==> deadlines != [] && (|deadlines| >= maxSize || now > deadlines[0])
  {
    PlayKeepsClock(b, events, zero);
  }

  // ----- Waiting for the workers

  /** A parse may also fail for a reason outside the message (the schema registry); such an index is in
      `flaky` and its failure is not of type nonFatalError. */
  function Attempt<M, T>(parse: M -> Outcome<T>, flaky: set<nat>, i: nat, msg: M): Outcome<T> {
    if i in flaky then Fatal else parse(msg)
  }

  predicate WellIndexed<M, T>(b: Batch<M, T>) {
    && (forall i :: i in b.pending ==> i < |b.entries|)
    && (forall e :: e in b.errors ==> e.index !in b.pending)
    && (forall e, f :: e in b.errors && f in b.errors && e.index == f.index ==> e == f)
    && (b.entries == [] ==> b.pending.Keys == {})
  }

  /** The batch once all the outstanding workers have finished. */
  function Drain<M, T>(b: Batch<M, T>, parse: M -> Outcome<T>, flaky: set<nat>): Batch<M, T>
    requires WellIndexed(b)
  {
    b.(entries := seq(|b.entries|, i requires 0 <= i < |b.entries| =>
                    if i in b.pending && Attempt(parse, flaky, i, b.pending[i]).Parsed?
                    then b.entries[i].(value := Attempt(parse, flaky, i, b.pending[i]).value)
                    else b.entries[i]),
       errors := b.errors + (set i | i in b.pending && !Attempt(parse, flaky, i, b.pending[i]).Parsed? ::
                               ErrorAtIndex(i, Attempt(parse, flaky, i, b.pending[i]).Fatal?)),
       pending := map[])
  }

  /** Which worker finishes first does not matter: finishing one and then waiting for the rest gives what
      waiting for all gives. */
  lemma FinishThenDrain<M, T>(b: Batch<M, T>, parse: M -> Outcome<T>, flaky: set<nat>, i: nat)
    requires WellIndexed(b) && i in b.pending
    ensures WellIndexed(Finish(b, i, Attempt(parse, flaky, i, b.pending[i])))
    ensures Drain(Finish(b, i, Attempt(parse, flaky, i, b.pending[i])), parse, flaky) == Drain(b, parse, flaky)
  {
    var o := Attempt(parse, flaky, i, b.pending[i]);
    var c := Finish(b, i, o);
    var d, e := Drain(c, parse, flaky), Drain(b, parse, flaky);
    assert d.entries == e.entries;
    forall x ensures x in d.errors <==> x in e.errors {
      if x in e.errors && x !in b.errors && x.index != i {
        assert x.index in c.pending && !Attempt(parse, flaky, x.index, c.pending[x.index]).Parsed?;
      }
      if x in d.errors && x !in c.errors {
        assert x.index in b.pending;
      }
    }
    assert d.errors == e.errors;
  }

  /** Two workers that finish one after the other may finish in either order. */
  lemma FinishCommutes<M, T>(b: Batch<M, T>, i: nat, j: nat, o: Outcome<T>, p: Outcome<T>)
    requires WellIndexed(b) && i in b.pending && j in b.pending && i != j
    ensures Finish(Finish(b, i, o), j, p) == Finish(Finish(b, j, p), i, o)
  {
    var x, y := Finish(Finish(b, i, o), j, p), Finish(Finish(b, j, p), i, o);
    assert x.pending == y.pending;
    assert x.errors == y.errors;
    assert x.entries == y.entries;
  }

  // ----- Parallel parsing refines sequential parsing

  /** The sequential parse of `msgs`, in order, failures left out. */
  function Successes<M, T>(parse: M -> Outcome<T>, msgs: seq<M>): seq<Slot<M, T>> {
    if msgs == [] then []
    else
      var m := msgs[|msgs| - 1];
      Successes(parse, msgs[..|msgs| - 1]) + (match parse(m) case Parsed(v) => [Slot(m, v)] case _ => [])
  }

  /** What a batch looks like until Submit filters it: one slot per added message, and every finished
      worker has left either the message's parsed value or the message's error. */
  ghost predicate Faithful<M, T>(parse: M -> Outcome<T>, b: Batch<M, T>) {
    && WellIndexed(b)
    && !b.closed
    && |b.entries| == |b.added|
    && (forall i :: 0 <= i < |b.added| ==> b.entries[i].from == b.added[i])
    && (forall i :: i in b.pending ==> b.pending[i] == b.added[i])
    && (forall e :: e in b.errors ==> e.index < |b.added| && (!e.fatal ==> parse(b.added[e.index]) == NonFatal))
    && (forall i :: 0 <= i < |b.added| && i !in b.pending && i !in Indexes(b.errors) ==>
          parse(b.added[i]) == Parsed(b.entries[i].value))
  }

  lemma FreshIsFaithful<M, T>(parse: M -> Outcome<T>)
    ensures Faithful(parse, Fresh<M, T>())
  {
  }

  lemma AddKeepsFaithful<M, T>(parse: M -> Outcome<T>, b: Batch<M, T>, msg: M, zero: T, deadline: int)
    requires Faithful(parse, b)
    ensures Faithful(parse, Add(b, msg, zero, deadline))
    ensures Add(b, msg, zero, deadline).added == b.added + [msg]
  {
    assert forall e :: e in b.errors ==> e.index in Indexes(b.errors);
  }

  /** A worker's outcome is the parse of its message, or a failure from outside the message. */
  lemma FinishKeepsFaithful<M, T>(parse: M -> Outcome<T>, b: Batch<M, T>, i: nat, flaky: bool)
    requires Faithful(parse, b) && i in b.pending
    ensures Faithful(parse, Finish(b, i, if flaky then Fatal else parse(b.pending[i])))
  {
    var o := if flaky then Fatal else parse(b.pending[i]);
    var c := Finish(b, i, o);
    forall j | 0 <= j < |c.added| && j !in c.pending && j !in Indexes(c.errors)
      ensures parse(c.added[j]) == Parsed(c.entries[j].value)
    {
      if j == i {
        assert !o.Parsed? ==> ErrorAtIndex(i, o.Fatal?) in c.errors;
      } else {
        assert j !in b.pending;
        assert Indexes(b.errors) <= Indexes(c.errors) by {
          assert b.errors <= c.errors;
        }
      }
    }
  }

  lemma {:induction false} KeepIsSequentialParse<M, T>(
      parse: M -> Outcome<T>, msgs: seq<M>, entries: seq<Slot<M, T>>, dropped: set<nat>)
    requires |entries| == |msgs|
    requires forall i :: 0 <= i < |msgs| ==> entries[i].from == msgs[i]
    requires forall i :: 0 <= i < |msgs| && i !in dropped ==> parse(msgs[i]) == Parsed(entries[i].value)
    requires forall i :: 0 <= i < |msgs| && i in dropped ==> !parse(msgs[i]).Parsed?
    ensures Keep(entries, dropped) == Successes(parse, msgs)
  {
    var n := |msgs|;
    if n > 0 {
      KeepIsSequentialParse(parse, msgs[..n - 1], entries[..n - 1], dropped);
      assert entries[n - 1].from == msgs[n - 1];
    }
  }

  /** Main result for one batch: when every worker has finished without a fatal error, in whatever order,
      the slice handed to submitF is the sequential parse of the added messages, in the order they were
      added, with exactly the non-fatal failures left out.  No message of the batch then has a fatal parse. */
  lemma FilteredIsSequentialParse<M, T>(parse: M -> Outcome<T>, b: Batch<M, T>)
    requires Faithful(parse, b) && b.pending.Keys == {} && !HasFatal(b.errors)
    ensures Filtered(b) == Successes(parse, b.added)
    ensures !NegativeCapacity(b)
    ensures forall i :: 0 <= i < |b.added| ==> !parse(b.added[i]).Fatal?
  {
    var dropped := Indexes(b.errors);
    forall i | 0 <= i < |b.added| && i in dropped ensures parse(b.added[i]) == NonFatal {
      var e :| e in b.errors && e.index == i;
    }
    KeepIsSequentialParse(parse, b.added, b.entries, dropped);
    if b.errors == {} {
      KeepNothing(b.entries, dropped);
    }
    ErrorCount(b.errors, |b.entries|);
  }

  /** Keep leaves a sequence alone exactly when no dropped index falls inside it. */
  lemma {:induction false} KeepNothing<X>(s: seq<X>, dropped: set<nat>)
    ensures |Keep(s, dropped)| <= |s|
    ensures Keep(s, dropped) == s <==> (forall i :: i in dropped ==> i >= |s|)
    ensures |Keep(s, dropped)| == |s| ==> Keep(s, dropped) == s
  {
    var n := |s|;
    if n > 0 {
      KeepNothing(s[..n - 1], dropped);
      assert s[..n - 1] + [s[n - 1]] == s;
      if n - 1 in dropped {
        assert |Keep(s, dropped)| < n;
      }
    }
  }

  lemma {:induction false} ErrorCount(errors: set<ErrorAtIndex>, n: nat)
    requires forall e :: e in errors ==> e.index < n
    requires forall e, f :: e in errors && f in errors && e.index == f.index ==> e == f
    ensures |errors| <= n
  {
    if n == 0 {
      assert errors == {};
    } else if last :| last in errors && last.index == n - 1 {
      ErrorCount(errors - {last}, n - 1);
    } else {
      ErrorCount(errors, n - 1);
    }
  }

  lemma DrainNothing<M, T>(b: Batch<M, T>, parse: M -> Outcome<T>, flaky: set<nat>)
    requires WellIndexed(b) && b.pending.Keys == {}
    ensures Drain(b, parse, flaky) == b
  {
    assert Drain(b, parse, flaky).entries == b.entries;
    assert Drain(b, parse, flaky).errors == b.errors;
    assert b.pending == map[];
  }

  lemma DrainKeepsFaithful<M, T>(parse: M -> Outcome<T>, b: Batch<M, T>, flaky: set<nat>)
    requires Faithful(parse, b)
    ensures Faithful(parse, Drain(b, parse, flaky))
    decreases b.pending.Keys
  {
    if b.pending.Keys == {} {
      DrainNothing(b, parse, flaky);
    } else {
      var i :| i in b.pending.Keys;
      FinishThenDrain(b, parse, flaky, i);
      FinishKeepsFaithful(parse, b, i, i in flaky);
      DrainKeepsFaithful(parse, Finish(b, i, Attempt(parse, flaky, i, b.pending[i])), flaky);
    }
  }

  /** The same for a whole Submit, waiting included: it either stops at a fatal error with nothing handed
      over, or hands over the sequential parse of the messages added since the last reset. */
  lemma SubmitSendsSequentialParse<M, T>(
      parse: M -> Outcome<T>, b: Batch<M, T>, flaky: set<nat>, dbOk: bool, commitOk: bool)
    requires Faithful(parse, b) && b.entries != []
    ensures
      var d := Drain(b, parse, flaky);
      var r := Submit(d, dbOk, commitOk).1;
      if HasFatal(d.errors) then r == ParseFailed
      else if !dbOk then r == SubmitFailed(Successes(parse, b.added))
      else if !commitOk then r == CommitFailed(Successes(parse, b.added))
      else r == Committed(Successes(parse, b.added))
    ensures (exists i :: 0 <= i < |b.added| && parse(b.added[i]).Fatal?) ==> HasFatal(Drain(b, parse, flaky).errors)
  {
    DrainKeepsFaithful(parse, b, flaky);
    if !HasFatal(Drain(b, parse, flaky).errors) {
      FilteredIsSequentialParse(parse, Drain(b, parse, flaky));
    }
  }

  // ----- Submitting the same batch twice

  /** What a caller can look at before calling Submit again on a batch whose submission failed. */
  predicate FailuresInTail<M, T>(b: Batch<M, T>) {
    && |b.errors| <= |b.entries|
    && (forall e :: e in b.errors ==> e.index >= |b.entries|)
  }

  /** Submit keeps `errors` when it fails after filtering, so a second Submit without a Reset filters the
      shortened `entries` by the indexes of the full ones.  With a database and a broker that are well again it
      commits the right slice if and only if there are no recorded failures, or they number at most the entries left
      and all lie beyond them.  (If every message failed, it reports success without committing anything.) */
  lemma ResubmitPassesSameSlice<M, T>(parse: M -> Outcome<T>, b: Batch<M, T>, dbOk: bool, commitOk: bool)
    requires Faithful(parse, b) && b.pending.Keys == {} && !HasFatal(b.errors) && !(dbOk && commitOk)
    requires b.entries != []
    ensures
      var once := Submit(b, dbOk, commitOk).0;
      && (Submit(once, true, true).1 == Committed(Successes(parse, b.added)) <==>
            once.errors == {} || FailuresInTail(once))
      && (Filtered(b) == [] ==> Submit(once, true, true).1 == Nothing)
  {
    FilteredIsSequentialParse(parse, b);
    var once := b.(entries := Filtered(b));
    assert Submit(b, dbOk, commitOk).0 == once;
    SubmitKeepsAllIff(once);
  }

  lemma SubmitKeepsAllIff<M, T>(b: Batch<M, T>)
    requires b.pending.Keys == {} && !HasFatal(b.errors) && (b.errors == {} ==> b.entries != [])
    ensures Submit(b, true, true).1 == Committed(b.entries) <==> b.errors == {} || FailuresInTail(b)
    ensures b.entries == [] ==> Submit(b, true, true).1 == Nothing
  {
    if b.errors != {} {
      KeepNothing(b.entries, Indexes(b.errors));
      TailIsOutside(b);
    }
  }

  lemma TailIsOutside<M, T>(b: Batch<M, T>)
    ensures (forall e :: e in b.errors ==> e.index >= |b.entries|)
            <==> forall i :: i in Indexes(b.errors) ==> i >= |b.entries|
  {
    forall e | e in b.errors ensures e.index in Indexes(b.errors) {
    }
  }

  lemma {:induction false} KeepAllButFirst<X>(a: X, s: seq<X>)
    ensures Keep([a] + s, {0}) == s
  {
    var all := [a] + s;
    if s == [] {
      assert all[..0] == [];
    } else {
      KeepAllButFirst(a, s[..|s| - 1]);
      assert all[..|all| - 1] == [a] + s[..|s| - 1];
    }
  }

  /** Three messages of which the first has failed without being fatal. */
  function OneFailure(entries: seq<Slot<nat, nat>>): Batch<nat, nat> {
    Batch(entries, {ErrorAtIndex(0, false)}, map[], 0, false, [0, 1, 2])
  }

  /** A Submit that fails drops the first entry and changes nothing else, however often it is called. */
  lemma OneFailureSubmit(first: Slot<nat, nat>, rest: seq<Slot<nat, nat>>, dbOk: bool)
    ensures
      var b := OneFailure([first] + rest);
      Submit(b, dbOk, true) == if dbOk then (Reset(b), Committed(rest)) else (OneFailure(rest), SubmitFailed(rest))
  {
    var b := OneFailure([first] + rest);
    assert ErrorAtIndex(0, false) in b.errors;
    assert Indexes(b.errors) == {0};
    KeepAllButFirst(first, rest);
  }

  /** With a non-fatal failure at index 0 and two good messages behind it, the second Submit loses one of
      them: submitF gets only the last, and the offsets of all three are committed. */
  lemma ResubmitCanLoseAMessage()
    ensures
      var parse := (m: nat) => if m == 0 then NonFatal else Parsed(m);
      var b := OneFailure([Slot(0, 0), Slot(1, 1), Slot(2, 2)]);
      && Faithful(parse, b)
      && Submit(b, false, true).1 == SubmitFailed([Slot(1, 1), Slot(2, 2)])
      && Submit(Submit(b, false, true).0, true, true).1 == Committed([Slot(2, 2)])
  {
    var good: seq<Slot<nat, nat>> := [Slot(1, 1), Slot(2, 2)];
    assert [Slot(0, 0), Slot(1, 1), Slot(2, 2)] == [Slot(0, 0)] + good;
    OneFailureSubmit(Slot(0, 0), good, false);
    assert good == [Slot(1, 1)] + [Slot(2, 2)];
    OneFailureSubmit(Slot(1, 1), [Slot(2, 2)], true);
    OneFailureIsFaithful();
  }

  lemma OneFailureIsFaithful()
    ensures
      var parse := (m: nat) => if m == 0 then NonFatal else Parsed(m);
      Faithful(parse, OneFailure([Slot(0, 0), Slot(1, 1), Slot(2, 2)]))
  {
    assert ErrorAtIndex(0, false).index in Indexes({ErrorAtIndex(0, false)});
  }
}
