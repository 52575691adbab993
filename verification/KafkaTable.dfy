/** The mirror tables of db/queries/mirror/query.sql and what a run of entries leaves in them. */
module KafkaTable {
  import opened Options
  import B = KafkaBatcher

  datatype Message<+A> = Message(partition: nat, offset: nat, key: string, body: A)

  /** The parameters of Process*Entry: ShouldUpsert or ShouldDelete, and the row for an upsert. */
  datatype Entry<+R> =
    | Upsert(key: string, columns: R, partition: nat, offset: nat)
    | Delete(key: string)

  datatype Row<+R> = Row(columns: R, partition: nat, offset: nat)

  /** The owners queries leave the Kafka position of an existing row alone on conflict; the tokens queries
      overwrite it with the rest. */
  datatype Kind = Owners | Tokens

  function Execute<R>(kind: Kind, t: map<string, Row<R>>, e: Entry<R>): map<string, Row<R>> {
    match e
    case Delete(k) => t - {k}
    case Upsert(k, columns, partition, offset) =>
      if kind.Owners? && k in t then t[k := t[k].(columns := columns)]
      else t[k := Row(columns, partition, offset)]
  }

  function ExecuteAll<R>(kind: Kind, t: map<string, Row<R>>, es: seq<Entry<R>>): map<string, Row<R>> {
    if es == [] then t else Execute(kind, ExecuteAll(kind, t, es[..|es| - 1]), es[|es| - 1])
  }

  // ----- Last writer wins, key by key

  /** The part of a row the stream determines: all of a token row, an owner row without its position. */
  function Shown<R>(kind: Kind, row: Row<R>): Row<R> {
    if kind.Owners? then Row(row.columns, 0, 0) else row
  }

  function Lookup<R>(kind: Kind, t: map<string, Row<R>>, k: string): Option<Row<R>> {
    if k in t then Some(Shown(kind, t[k])) else None
  }

  function Effect<R>(kind: Kind, e: Entry<R>): Option<Row<R>> {
    match e
    case Delete(_) => None
    case Upsert(_, columns, partition, offset) => Some(Shown(kind, Row(columns, partition, offset)))
  }

  /** What `es` leave at `k` when `init` was there before: the effect of the last entry with that key. */
  function Replay<R>(kind: Kind, es: seq<Entry<R>>, k: string, init: Option<Row<R>>): Option<Row<R>> {
    if es == [] then init
    else if es[|es| - 1].key == k then Effect(kind, es[|es| - 1])
    else Replay(kind, es[..|es| - 1], k, init)
  }

  lemma {:induction false} TableIsLastWriterWins<R>(kind: Kind, t: map<string, Row<R>>, es: seq<Entry<R>>, k: string)
    ensures Lookup(kind, ExecuteAll(kind, t, es), k) == Replay(kind, es, k, Lookup(kind, t, k))
  {
    if es != [] {
      TableIsLastWriterWins(kind, t, es[..|es| - 1], k);
    }
  }

  /** After any entries a row is the one of the last entry with its key: gone if that deletes, and with that entry's
      columns (in the tokens table, and its position) if it upserts. */
  lemma {:induction false} LastEntryDecides<R>(kind: Kind, t: map<string, Row<R>>, es: seq<Entry<R>>, i: nat)
    requires i < |es| && forall j :: i < j < |es| ==> es[j].key != es[i].key
    ensures
      var r, k := ExecuteAll(kind, t, es), es[i].key;
      && (es[i].Delete? ==> k !in r)
      && (es[i].Upsert? ==> k in r && r[k].columns == es[i].columns)
      && (es[i].Upsert? && kind == Tokens ==> r[k] == Row(es[i].columns, es[i].partition, es[i].offset))
  {
    if i < |es| - 1 {
      LastEntryDecides(kind, t, es[..|es| - 1], i);
    }
  }

  /** A key that no entry has keeps its row or its absence. */
  lemma {:induction false} OtherRowsStay<R>(kind: Kind, t: map<string, Row<R>>, es: seq<Entry<R>>, k: string)
    requires forall e :: e in es ==> e.key != k
    ensures k in ExecuteAll(kind, t, es) <==> k in t
    ensures k in t ==> ExecuteAll(kind, t, es)[k] == t[k]
  {
    if es != [] {
      OtherRowsStay(kind, t, es[..|es| - 1], k);
    }
  }

  /** An owner's row has the position of the upsert that made it, whatever upserts follow. */
  lemma {:induction false} OwnerPositionStays<R>(t: map<string, Row<R>>, es: seq<Entry<R>>, i: nat)
    requires i < |es| && es[i].Upsert? && es[i].key !in ExecuteAll(Owners, t, es[..i])
    requires forall j :: i < j < |es| && es[j].key == es[i].key ==> es[j].Upsert?
    ensures
      var r, k := ExecuteAll(Owners, t, es), es[i].key;
      k in r && r[k].partition == es[i].partition && r[k].offset == es[i].offset
  {
    if i < |es| - 1 {
      assert es[..|es| - 1][..i] == es[..i];
      OwnerPositionStays(t, es[..|es| - 1], i);
    }
  }

  /** The owners table does not determine its Kafka positions this way: replaying an upsert over a row that
      an incomplete first attempt inserted keeps the position of the later message. */
  lemma OwnerPositionsDependOnHistory()
    ensures
      var first, second := Upsert("k", "a", 0, 0), Upsert("k", "b", 0, 1);
      var clean := ExecuteAll(Owners, map[], [first, second]);
      var replayed := ExecuteAll(Owners, ExecuteAll(Owners, map[], [second]), [first, second]);
      clean["k"] == Row("b", 0, 0) && replayed["k"] == Row("b", 0, 1)
  {
    var first, second := Upsert("k", "a", 0, 0), Upsert("k", "b", 0, 1);
    var both := [first, second];
    assert both[..1] == [first];
    assert ExecuteAll(Owners, map[], both[..1]) == Execute(Owners, map[], first);
    assert ExecuteAll(Owners, map[], [second]) == Execute(Owners, map[], second);
    var t := Execute(Owners, map[], second);
    assert ExecuteAll(Owners, t, both[..1]) == Execute(Owners, t, first);
  }

  /** Replaying entries over a table that already has some of them in it gives what replaying them over the
      original table gives, for every key: the table is idempotent under redelivery. */
  lemma {:induction false} ReplayAbsorbs<R>(
      kind: Kind, t: map<string, Row<R>>, es: seq<Entry<R>>, applied: seq<Entry<R>>, k: string)
    requires forall e :: e in applied ==> exists i :: 0 <= i < |es| && es[i].key == e.key
    ensures Lookup(kind, ExecuteAll(kind, ExecuteAll(kind, t, applied), es), k)
         == Lookup(kind, ExecuteAll(kind, t, es), k)
  {
    TableIsLastWriterWins(kind, ExecuteAll(kind, t, applied), es, k);
    TableIsLastWriterWins(kind, t, es, k);
    TableIsLastWriterWins(kind, t, applied, k);
    if i :| 0 <= i < |es| && es[i].key == k {
      ReplayForgets(kind, es, k, i, Lookup(kind, t, k), Lookup(kind, ExecuteAll(kind, t, applied), k));
    } else {
      ReplayUntouched(kind, applied, k, Lookup(kind, t, k));
    }
  }

  lemma {:induction false} ReplayForgets<R>(
      kind: Kind, es: seq<Entry<R>>, k: string, i: nat, x: Option<Row<R>>, y: Option<Row<R>>)
    requires i < |es| && es[i].key == k
    ensures Replay(kind, es, k, x) == Replay(kind, es, k, y)
  {
    if es[|es| - 1].key != k {
      ReplayForgets(kind, es[..|es| - 1], k, i, x, y);
    }
  }

  lemma {:induction false} ReplayUntouched<R>(kind: Kind, es: seq<Entry<R>>, k: string, init: Option<Row<R>>)
    requires forall e :: e in es ==> e.key != k
    ensures Replay(kind, es, k, init) == init
  {
    if es != [] {
      ReplayUntouched(kind, es[..|es| - 1], k, init);
    }
  }

  // ----- Whole rows

  function Get<R>(t: map<string, Row<R>>, k: string): Option<Row<R>> {
    if k in t then Some(t[k]) else None
  }

  /** What `es` make of the row at `k`, its Kafka position included. */
  function Rewrite<R>(kind: Kind, es: seq<Entry<R>>, k: string, x: Option<Row<R>>): Option<Row<R>> {
    if es == [] then x
    else
      var y, e := Rewrite(kind, es[..|es| - 1], k, x), es[|es| - 1];
      if e.key != k then y
      else match e
        case Delete(_) => None
        case Upsert(_, columns, partition, offset) =>
          if kind.Owners? && y.Some? then Some(y.value.(columns := columns)) else Some(Row(columns, partition, offset))
  }

  lemma {:induction false} TableIsRewrite<R>(kind: Kind, t: map<string, Row<R>>, es: seq<Entry<R>>, k: string)
    ensures Get(ExecuteAll(kind, t, es), k) == Rewrite(kind, es, k, Get(t, k))
  {
    if es != [] {
      TableIsRewrite(kind, t, es[..|es| - 1], k);
    }
  }

  lemma {:induction false} RewriteConcat<R>(kind: Kind, a: seq<Entry<R>>, b: seq<Entry<R>>, k: string,
      x: Option<Row<R>>)
    ensures Rewrite(kind, a + b, k, x) == Rewrite(kind, b, k, Rewrite(kind, a, k, x))
  {
    if b == [] {
      assert a + b == a;
    } else {
      assert (a + b)[..|a + b| - 1] == a + b[..|b| - 1];
      RewriteConcat(kind, a, b[..|b| - 1], k, x);
    }
  }

  /** What entries can do to a row: leave it alone, decide it whatever it was, or (upserts into the owners
      table) decide its columns and only give it a position if it was not there. */
  datatype Shape<+R> = Same | Fixed(row: Option<Row<R>>) | Recolumn(ifAbsent: Row<R>)

  function Apply<R>(shape: Shape<R>, x: Option<Row<R>>): Option<Row<R>> {
    match shape
    case Same => x
    case Fixed(row) => row
    case Recolumn(r) => if x.Some? then Some(x.value.(columns := r.columns)) else Some(r)
  }

  function ShapeOf<R>(kind: Kind, es: seq<Entry<R>>, k: string): Shape<R> {
    if es == [] then Same
    else
      var shape, e := ShapeOf(kind, es[..|es| - 1], k), es[|es| - 1];
      if e.key != k then shape
      else match e
        case Delete(_) => Fixed(None)
        case Upsert(_, columns, partition, offset) =>
          if kind.Tokens? then Fixed(Some(Row(columns, partition, offset)))
          else match shape
            case Same => Recolumn(Row(columns, partition, offset))
            case Fixed(None) => Fixed(Some(Row(columns, partition, offset)))
            case Fixed(Some(r)) => Fixed(Some(r.(columns := columns)))
            case Recolumn(r) => Recolumn(r.(columns := columns))
  }

  lemma {:induction false} RewriteIsShape<R>(kind: Kind, es: seq<Entry<R>>, k: string, x: Option<Row<R>>)
    ensures Rewrite(kind, es, k, x) == Apply(ShapeOf(kind, es, k), x)
  {
    if es != [] {
      RewriteIsShape(kind, es[..|es| - 1], k, x);
    }
  }

  lemma RewriteTwice<R>(kind: Kind, es: seq<Entry<R>>, k: string, x: Option<Row<R>>)
    ensures Rewrite(kind, es, k, Rewrite(kind, es, k, x)) == Rewrite(kind, es, k, x)
  {
    RewriteIsShape(kind, es, k, x);
    RewriteIsShape(kind, es, k, Rewrite(kind, es, k, x));
  }

  /** The Kafka position of the row `x`, or that of `r` if there is none. */
  function Position<R>(x: Option<Row<R>>, r: Row<R>): (nat, nat) {
    if x.Some? then (x.value.partition, x.value.offset) else (r.partition, r.offset)
  }

  /** Whatever an incomplete attempt executed, executing `es` gives the row of a clean run at `k`, position included, if
      and only if `es` decides the row, or the attempt left it (or, where `es` only upserts into the owners table,
      its position) as it would have been. */
  lemma ReplayedRowIff<R>(kind: Kind, t: map<string, Row<R>>, applied: seq<Entry<R>>, es: seq<Entry<R>>, k: string)
    ensures
      var x, y := Get(t, k), Get(ExecuteAll(kind, t, applied), k);
      Get(ExecuteAll(kind, ExecuteAll(kind, t, applied), es), k) == Get(ExecuteAll(kind, t, es), k)
      <==>
      (match ShapeOf(kind, es, k)
       case Fixed(_) => true
       case Same => y == x
       case Recolumn(r) => Position(y, r) == Position(x, r))
  {
    var half := ExecuteAll(kind, t, applied);
    TableIsRewrite(kind, half, es, k);
    TableIsRewrite(kind, t, es, k);
    RewriteIsShape(kind, es, k, Get(half, k));
    RewriteIsShape(kind, es, k, Get(t, k));
  }

  /** For entries executed in order up to some point, replaying all of them gives the table of a clean run,
      positions included, in both kinds of table. */
  lemma InOrderReplayIsExact<R>(kind: Kind, t: map<string, Row<R>>, es: seq<Entry<R>>, n: nat)
    requires n <= |es|
    ensures ExecuteAll(kind, ExecuteAll(kind, t, es[..n]), es) == ExecuteAll(kind, t, es)
  {
    var half := ExecuteAll(kind, t, es[..n]);
    var replayed, clean := ExecuteAll(kind, half, es), ExecuteAll(kind, t, es);
    assert es[..n] + es[n..] == es;
    forall k ensures Get(replayed, k) == Get(clean, k) {
      TableIsRewrite(kind, t, es[..n], k);
      TableIsRewrite(kind, half, es, k);
      TableIsRewrite(kind, t, es, k);
      RewriteConcat(kind, es[..n], es[n..], k, Get(t, k));
      RewriteConcat(kind, es[..n], es[n..], k, Get(half, k));
      RewriteTwice(kind, es[..n], k, Get(t, k));
    }
    assert forall k :: k in replayed <==> Get(replayed, k).Some?;
    assert forall k :: k in clean <==> Get(clean, k).Some?;
    assert replayed.Keys == clean.Keys;
  }

  /** Without looking at the order: what is left at `k` was there before or is the effect of some entry. */
  lemma {:induction false} ReplayIsInitOrEffect<R>(kind: Kind, es: seq<Entry<R>>, k: string, init: Option<Row<R>>)
    ensures Replay(kind, es, k, init) == init
         || exists e :: e in es && e.key == k && Replay(kind, es, k, init) == Effect(kind, e)
  {
    if es != [] && es[|es| - 1].key != k {
      ReplayIsInitOrEffect(kind, es[..|es| - 1], k, init);
    }
  }

  // ----- The same for messages

  function Entries<A, R>(slots: seq<B.Slot<Message<A>, Entry<R>>>): seq<Entry<R>> {
    seq(|slots|, i requires 0 <= i < |slots| => slots[i].value)
  }

  predicate Affects<A, R>(parse: Message<A> -> B.Outcome<Entry<R>>, m: Message<A>, k: string) {
    parse(m).Parsed? && parse(m).value.key == k
  }

  /** The in-order fold of upserts and deletes over messages, seen at one key. */
  function Fold<A, R>(
      kind: Kind, parse: Message<A> -> B.Outcome<Entry<R>>, ms: seq<Message<A>>, k: string, init: Option<Row<R>>)
    : Option<Row<R>>
  {
    if ms == [] then init
    else
      var m := ms[|ms| - 1];
      if Affects(parse, m, k) then Effect(kind, parse(m).value)
      else Fold(kind, parse, ms[..|ms| - 1], k, init)
  }

  /** The fold shows the last message whose entry has the key: nothing if that deletes, and its columns (in the tokens
      table, and its position) if it upserts. */
  lemma {:induction false} FoldIsLast<A, R>(
      kind: Kind, parse: Message<A> -> B.Outcome<Entry<R>>, ms: seq<Message<A>>, k: string, init: Option<Row<R>>,
      i: nat)
    requires i < |ms| && parse(ms[i]).Parsed? && parse(ms[i]).value.key == k
    requires forall j :: i < j < |ms| ==> !(parse(ms[j]).Parsed? && parse(ms[j]).value.key == k)
    ensures
      var e, shown := parse(ms[i]).value, Fold(kind, parse, ms, k, init);
      && (e.Delete? ==> shown == None)
      && (e.Upsert? ==> shown.Some? && shown.value.columns == e.columns)
      && (e.Upsert? && kind == Tokens ==> shown == Some(Row(e.columns, e.partition, e.offset)))
  {
    if i < |ms| - 1 {
      assert !Affects(parse, ms[|ms| - 1], k);
      FoldIsLast(kind, parse, ms[..|ms| - 1], k, init, i);
    }
  }

  lemma {:induction false} FoldOfOthers<A, R>(
      kind: Kind, parse: Message<A> -> B.Outcome<Entry<R>>, ms: seq<Message<A>>, k: string, init: Option<Row<R>>)
    requires forall m :: m in ms ==> !(parse(m).Parsed? && parse(m).value.key == k)
    ensures Fold(kind, parse, ms, k, init) == init
  {
    if ms != [] {
      FoldOfOthers(kind, parse, ms[..|ms| - 1], k, init);
    }
  }

  lemma {:induction false} SuccessesFold<A, R>(
      kind: Kind, parse: Message<A> -> B.Outcome<Entry<R>>, ms: seq<Message<A>>, k: string, init: Option<Row<R>>)
    ensures Replay(kind, Entries(B.Successes(parse, ms)), k, init) == Fold(kind, parse, ms, k, init)
  {
    if ms != [] {
      var n := |ms|;
      SuccessesFold(kind, parse, ms[..n - 1], k, init);
      var es := Entries(B.Successes(parse, ms));
      if parse(ms[n - 1]).Parsed? {
        assert es[..|es| - 1] == Entries(B.Successes(parse, ms[..n - 1]));
        assert es[|es| - 1] == parse(ms[n - 1]).value;
      } else {
        assert B.Successes(parse, ms) == B.Successes(parse, ms[..n - 1]);
      }
    }
  }

  lemma {:induction false} FoldConcat<A, R>(
      kind: Kind, parse: Message<A> -> B.Outcome<Entry<R>>, a: seq<Message<A>>, b: seq<Message<A>>, k: string,
      init: Option<Row<R>>)
    ensures Fold(kind, parse, a + b, k, init) == Fold(kind, parse, b, k, Fold(kind, parse, a, k, init))
  {
    if b == [] {
      assert a + b == a;
    } else {
      assert (a + b)[..|a + b| - 1] == a + b[..|b| - 1];
      FoldConcat(kind, parse, a, b[..|b| - 1], k, init);
    }
  }

  function OnPartition<A>(ms: seq<Message<A>>, p: nat): seq<Message<A>> {
    if ms == [] then []
    else OnPartition(ms[..|ms| - 1], p) + (if ms[|ms| - 1].partition == p then [ms[|ms| - 1]] else [])
  }

  /** One partition decides a key, when all the messages with that key are on it. */
  lemma {:induction false} FoldOnPartition<A, R>(
      kind: Kind, parse: Message<A> -> B.Outcome<Entry<R>>, ms: seq<Message<A>>, p: nat, k: string,
      init: Option<Row<R>>)
    requires forall m :: m in ms && Affects(parse, m, k) ==> m.partition == p
    ensures Fold(kind, parse, ms, k, init) == Fold(kind, parse, OnPartition(ms, p), k, init)
  {
    if ms != [] {
      var n := |ms|;
      FoldOnPartition(kind, parse, ms[..n - 1], p, k, init);
      if ms[n - 1].partition == p {
        var q := OnPartition(ms, p);
        assert q[..|q| - 1] == OnPartition(ms[..n - 1], p) && q[|q| - 1] == ms[n - 1];
      } else {
        assert ms[n - 1] in ms;
        assert OnPartition(ms, p) == OnPartition(ms[..n - 1], p);
      }
    }
  }

  lemma {:induction false} OnPartitionMembers<A>(ms: seq<Message<A>>, p: nat)
    ensures forall m :: m in OnPartition(ms, p) <==> m in ms && m.partition == p
    ensures |OnPartition(ms, p)| <= |ms|
  {
    if ms != [] {
      OnPartitionMembers(ms[..|ms| - 1], p);
      assert ms == ms[..|ms| - 1] + [ms[|ms| - 1]];
    }
  }

  lemma {:induction false} SuccessesMembers<A, R>(parse: Message<A> -> B.Outcome<Entry<R>>, ms: seq<Message<A>>)
    ensures forall s :: s in B.Successes(parse, ms) ==> s.from in ms && parse(s.from) == B.Parsed(s.value)
    ensures forall m :: m in ms && parse(m).Parsed? ==> B.Slot(m, parse(m).value) in B.Successes(parse, ms)
  {
    if ms != [] {
      SuccessesMembers(parse, ms[..|ms| - 1]);
      assert ms == ms[..|ms| - 1] + [ms[|ms| - 1]];
    }
  }
}
