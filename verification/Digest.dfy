/** The spotlight sections of emails/digest.go.  Posts, communities and galleries are selected by the same loops;
    `E` is what the section shows of an entity. */
module Digest {
  import opened Options

  /** An ID to consider and what asking for its entity gives (None is an error). */
  datatype Item<E> = Item(id: string, editorial: bool, result: Option<E>)

  datatype Pick<E> = Pick(id: string, editorial: bool, entity: E)

  function Items<E>(ids: seq<string>, editorial: bool, fetch: nat -> Option<E>): (items: seq<Item<E>>)
    ensures |items| == |ids|
  {
    seq(|ids|, i requires 0 <= i < |ids| => Item(ids[i], editorial, fetch(i)))
  }

  // ----- The plain selection: each item that can be shown, unless its ID is already there

  ghost predicate Picked<E>(picks: seq<Pick<E>>, id: string) {
    exists k :: 0 <= k < |picks| && picks[k].id == id
  }

  ghost function Choose<E>(picks: seq<Pick<E>>, item: Item<E>): seq<Pick<E>> {
    if item.result.Some? && !Picked(picks, item.id) then picks + [Pick(item.id, item.editorial, item.result.value)]
    else picks
  }

  ghost function Chosen<E>(items: seq<Item<E>>): seq<Pick<E>> {
    if items == [] then [] else Choose(Chosen(items[..|items| - 1]), items[|items| - 1])
  }

  lemma ChosenSnoc<E>(items: seq<Item<E>>, item: Item<E>)
    ensures Chosen(items + [item]) == Choose(Chosen(items), item)
  {
    assert (items + [item])[..|items|] == items;
  }

  /** Later items only add at the end: the selection follows the order of the list. */
  lemma {:induction false} ChosenGrows<E>(xs: seq<Item<E>>, ys: seq<Item<E>>)
    ensures |Chosen(xs)| <= |Chosen(xs + ys)| && Chosen(xs + ys)[..|Chosen(xs)|] == Chosen(xs)
  {
    if ys == [] {
      assert xs + ys == xs;
    } else {
      var front := ys[..|ys| - 1];
      ChosenGrows(xs, front);
      assert xs + ys == xs + front + [ys[|ys| - 1]];
      ChosenSnoc(xs + front, ys[|ys| - 1]);
    }
  }

  /** The selection holds each ID once, and exactly the IDs that can be shown, each as its first item that can be
      shown presents it. */
  lemma {:induction false} ChosenMeaning<E>(items: seq<Item<E>>)
    ensures forall i, j :: 0 <= i < j < |Chosen(items)| ==> Chosen(items)[i].id != Chosen(items)[j].id
    ensures forall id :: Picked(Chosen(items), id)
              <==> exists k :: 0 <= k < |items| && items[k].id == id && items[k].result.Some?
    ensures forall p :: p in Chosen(items) ==> exists k :: 0 <= k < |items| && FirstShown(items, k, p)
  {
    if items != [] {
      var front, last := items[..|items| - 1], items[|items| - 1];
      ChosenMeaning(front);
      var picks := Chosen(items);
      forall id ensures Picked(picks, id) <==> Picked(Chosen(front), id) || (last.id == id && last.result.Some?) {
        if Picked(Chosen(front), id) {
          var k :| 0 <= k < |Chosen(front)| && Chosen(front)[k].id == id;
          assert picks[k].id == id;
        } else if last.id == id && last.result.Some? {
          assert picks[|Chosen(front)|].id == id;
        }
      }
      forall p | p in picks ensures exists k :: 0 <= k < |items| && FirstShown(items, k, p) {
        if p in Chosen(front) {
          var k :| 0 <= k < |front| && FirstShown(front, k, p);
          assert FirstShown(items, k, p);
        } else {
          assert !Picked(Chosen(front), last.id);
          assert FirstShown(items, |items| - 1, p);
        }
      }
    }
  }

  ghost predicate FirstShown<E>(items: seq<Item<E>>, k: int, p: Pick<E>)
    requires 0 <= k < |items|
  {
    && items[k].result.Some? && p == Pick(items[k].id, items[k].editorial, items[k].result.value)
    && forall j :: 0 <= j < k ==> items[j].result.None? || items[j].id != items[k].id
  }

  function Take<T>(n: nat, xs: seq<T>): seq<T> {
    if n <= |xs| then xs[..n] else xs
  }

  lemma OneMore<T>(before: seq<T>, xs: seq<T>, k: nat)
    requires k < |xs|
    ensures before + xs[..k + 1] == before + xs[..k] + [xs[k]]
  {
  }

  lemma {:induction false} GrowsByOne<E>(before: seq<Item<E>>, items: seq<Item<E>>, from: nat, count: nat)
    requires from + count <= |items|
    ensures forall j :: from <= j <= from + count ==>
                          |Chosen(before + items[..j])| <= |Chosen(before + items[..from])| + j - from
  {
    if count > 0 {
      GrowsByOne(before, items, from, count - 1);
      OneMore(before, items, from + count - 1);
      ChosenSnoc(before + items[..from + count - 1], items[from + count - 1]);
    }
  }

  // ----- The loops

  const BATCH := 4

  class Spotlight<E> {
    var entities: seq<Pick<E>>
    var added: set<string>

    constructor ()
      ensures entities == [] && added == {}
    {
      entities, added := [], {};
    }

    /** The entities are what the items asked for so far select. */
    ghost predicate Shows(items: seq<Item<E>>)
      reads this
    {
      && entities == Chosen(items)
      && forall id :: id in added <==> Picked(entities, id)
    }

    /** addPosts, addCommunities, addGalleries.  IDs are asked for in batches, and yet not one is asked for after
        the quota is filled: `asked` is where a one-by-one selection would stop. */
    method Add(n: int, ids: seq<string>, editorial: bool, fetch: nat -> Option<E>, ghost before: seq<Item<E>>)
      returns (asked: nat)
      requires Shows(before) && (|entities| <= n || n < 0)
      modifies this
      ensures asked <= |ids| && Shows(before + Items(ids, editorial, fetch)[..asked])
      ensures |entities| <= n || n < 0
      ensures |entities| >= n || asked == |ids|
      ensures forall j :: 0 <= j < asked ==> |Chosen(before + Items(ids, editorial, fetch)[..j])| < n
    {
      ghost var items := Items(ids, editorial, fetch);
      asked := 0;
      assert before + items[..0] == before;
      while |entities| < n && asked < |ids|
        invariant asked <= |ids| && Shows(before + items[..asked])
        invariant |entities| <= n || n < 0
        invariant forall j :: 0 <= j < asked ==> |Chosen(before + items[..j])| < n
        decreases |ids| - asked
      {
        var batch := FillBatch(n, ids, asked);
        GrowsByOne(before, items, asked, |batch|);
        RunBatch(batch, asked, editorial, fetch, before, items);
        asked := asked + |batch|;
      }
    }

    /** As many IDs as fit: at most four, and no more than are needed or left. */
    method FillBatch(n: int, ids: seq<string>, from: nat) returns (batch: seq<string>)
      requires from < |ids| && |entities| < n
      ensures 0 < |batch| <= 4 && |entities| + |batch| <= n && from + |batch| <= |ids|
      ensures batch == ids[from..from + |batch|]
    {
      batch := [];
      var i, j := from, 0;
      while j < BATCH && |batch| + |entities| < n && i < |ids|
        invariant 0 <= j == |batch| <= BATCH && i == from + j <= |ids| && |batch| + |entities| <= n
        invariant batch == ids[from..i]
      {
        batch := batch + [ids[i]];
        i := i + 1;
        j := j + 1;
      }
    }

    method RunBatch(
      batch: seq<string>, from: nat, editorial: bool, fetch: nat -> Option<E>,
      ghost before: seq<Item<E>>, ghost items: seq<Item<E>>)
      requires from + |batch| <= |items| && Shows(before + items[..from])
      requires forall i :: 0 <= i < |batch| ==> items[from + i] == Item(batch[i], editorial, fetch(from + i))
      modifies this
      ensures Shows(before + items[..from + |batch|]) && |entities| <= |old(entities)| + |batch|
    {
      for i := 0 to |batch|
        invariant Shows(before + items[..from + i]) && |entities| <= |old(entities)| + i
      {
        OneMore(before, items, from + i);
        AddOne(batch[i], editorial, fetch(from + i), before + items[..from + i]);
      }
    }

    /** What is done with one answer. */
    method AddOne(id: string, editorial: bool, entity: Option<E>, ghost seen: seq<Item<E>>)
      requires Shows(seen)
      modifies this
      ensures Shows(seen + [Item(id, editorial, entity)]) && |entities| <= |old(entities)| + 1
    {
      ChosenSnoc(seen, Item(id, editorial, entity));
      if entity.None? {
        return;
      }
      if id !in added {
        entities := entities + [Pick(id, editorial, entity.value)];
        added := added + {id};
        assert entities[|old(entities)|].id == id;
        assert forall other :: Picked(entities, other) ==> other == id || Picked(old(entities), other);
        assert forall k :: 0 <= k < |old(entities)| ==> entities[k] == old(entities)[k];
      }
    }
  }

  // ----- A section

  datatype Outcome<E> = Section(picks: seq<Pick<E>>) | QueryFailed | Panic

  /** getSpotlightPosts, -Communities and -Galleries: the first `n` of a plain selection from the editorial IDs and
      then the trending ones (None if the query for them fails, which matters only if it is made).  A negative `n`
      panics where the slice is made. */
  method GetSpotlight<E>(
    n: int, editorialIds: seq<string>, trendingIds: Option<seq<string>>,
    fetchEditorial: nat -> Option<E>, fetchTrending: nat -> Option<E>)
    returns (r: Outcome<E>)
    ensures r.Panic? <==> n < 0
    ensures
      var editorial := Items(editorialIds, true, fetchEditorial);
      && (r.QueryFailed? <==> n >= 0 && trendingIds.None? && |Chosen(editorial)| < n)
      && (r.Section? ==>
            var trending := if trendingIds.None? then [] else Items(trendingIds.value, false, fetchTrending);
            && r.picks == Take(n, Chosen(editorial + trending))
            && r.picks == Chosen(editorial + trending)[..|r.picks|]
            && (|r.picks| == n || (|r.picks| < n && |r.picks| == |Chosen(editorial + trending)|)))
  {
    if n < 0 {
      return Panic;
    }
    var spotlight := new Spotlight<E>();
    ghost var editorial := Items(editorialIds, true, fetchEditorial);
    AddEditorial(spotlight, n, editorialIds, fetchEditorial,
                 if trendingIds.None? then [] else Items(trendingIds.value, false, fetchTrending));
    if |spotlight.entities| >= n {
      return Section(spotlight.entities[..n]);
    }
    if trendingIds.None? {
      return QueryFailed;
    }
    var asked := spotlight.Add(n, trendingIds.value, false, fetchTrending, editorial);
    ghost var trending := Items(trendingIds.value, false, fetchTrending);
    PrefixOfConcat(editorial, trending, asked);
    StoppedAt(n, editorial + trending, |editorial| + asked);
    return Section(spotlight.entities);
  }

  /** The editorial phase. */
  method AddEditorial<E>(
    spotlight: Spotlight<E>, n: nat, ids: seq<string>, fetch: nat -> Option<E>, ghost trending: seq<Item<E>>)
    requires spotlight.entities == [] && spotlight.added == {}
    modifies spotlight
    ensures
      var editorial := Items(ids, true, fetch);
      if |spotlight.entities| >= n
      then |Chosen(editorial)| >= n && spotlight.entities == Take(n, Chosen(editorial + trending))
      else spotlight.Shows(editorial)
  {
    var asked := spotlight.Add(n, ids, true, fetch, []);
    ghost var editorial := Items(ids, true, fetch);
    assert [] + editorial[..asked] == editorial[..asked];
    if |spotlight.entities| >= n {
      FullAt(n, editorial, trending, asked);
    } else {
      assert editorial[..asked] == editorial;
    }
  }

  lemma PrefixOfConcat<T>(xs: seq<T>, ys: seq<T>, k: nat)
    requires k <= |ys|
    ensures xs + ys[..k] == (xs + ys)[..|xs| + k]
  {
  }

  /** A selection that stops when it has `n`, or at the end of the list, has the first `n` of all. */
  lemma StoppedAt<E>(n: nat, items: seq<Item<E>>, asked: nat)
    requires asked <= |items| && |Chosen(items[..asked])| <= n
    requires |Chosen(items[..asked])| == n || asked == |items|
    ensures Chosen(items[..asked]) == Take(n, Chosen(items))
  {
    var front, rest := items[..asked], items[asked..];
    assert front + rest == items;
    ChosenGrows(front, rest);
    if asked == |items| {
      assert front == items;
    }
  }

  lemma FullAt<E>(n: nat, editorial: seq<Item<E>>, trending: seq<Item<E>>, asked: nat)
    requires asked <= |editorial| && |Chosen(editorial[..asked])| == n
    ensures |Chosen(editorial)| >= n && Chosen(editorial[..asked]) == Take(n, Chosen(editorial + trending))
  {
    StoppedAt(n, editorial, asked);
    assert (editorial + trending)[..asked] == editorial[..asked];
    StoppedAt(n, editorial + trending, asked);
  }

  /** Every pick is what its own list says: an editorial one has an ID of the editorial list and the entity that was
      fetched for it there, every other one an ID of the trending list and its entity. */
  lemma PickIsFetched<E>(
    editorialIds: seq<string>, trendingIds: seq<string>,
    fetchEditorial: nat -> Option<E>, fetchTrending: nat -> Option<E>, p: Pick<E>)
    requires
      p in Chosen(Items(editorialIds, true, fetchEditorial) + Items(trendingIds, false, fetchTrending))
    ensures p.editorial ==>
              exists i: nat :: i < |editorialIds| && editorialIds[i] == p.id && fetchEditorial(i) == Some(p.entity)
    ensures !p.editorial ==>
              exists i: nat :: i < |trendingIds| && trendingIds[i] == p.id && fetchTrending(i) == Some(p.entity)
  {
    var editorial, trending := Items(editorialIds, true, fetchEditorial), Items(trendingIds, false, fetchTrending);
    var all := editorial + trending;
    ChosenMeaning(all);
    var k :| 0 <= k < |all| && FirstShown(all, k, p);
    if k < |editorial| {
      assert all[k] == Item(editorialIds[k], true, fetchEditorial(k));
    } else {
      var i := k - |editorial|;
      assert all[k] == trending[i] == Item(trendingIds[i], false, fetchTrending(i));
    }
  }

  /** The editorial mark says where the ID was taken: an ID that the editorial list can show has it, and every
      other has not. */
  lemma EditorialIff<E>(editorial: seq<Item<E>>, trending: seq<Item<E>>, p: Pick<E>)
    requires forall item :: item in editorial ==> item.editorial
    requires forall item :: item in trending ==> !item.editorial
    requires p in Chosen(editorial + trending)
    ensures p.editorial <==> Picked(Chosen(editorial), p.id)
  {
    ChosenMeaning(editorial + trending);
    ChosenMeaning(editorial);
    var all := editorial + trending;
    var k :| 0 <= k < |all| && FirstShown(all, k, p);
    if k < |editorial| {
      assert all[k] == editorial[k] && editorial[k] in editorial;
    } else {
      assert all[k] == trending[k - |editorial|] && all[k] in trending;
      assert forall j :: 0 <= j < |editorial| ==> all[j] == editorial[j];
    }
  }
}
