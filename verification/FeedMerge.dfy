/** feed/merge.go: events are folded into one feed event.  The three receivers are objects whose fields the
    merge updates. */
module FeedMerge {
  import opened Options

  // ----- Events

  const COLLECTION_CREATED := "CollectionCreated"
  const COLLECTION_UPDATED := "CollectionUpdated"
  const TOKENS_ADDED := "TokensAddedToCollection"
  const NOTE_ADDED := "CollectorsNoteAddedToCollection"
  const GALLERY_INFO_UPDATED := "GalleryInfoUpdated"
  const TOKEN_NOTE_ADDED := "CollectorsNoteAddedToToken"

  /** `tokens` is a list that may be nil. */
  datatype Data = Data(
    tokens: Option<seq<string>>,
    note: string,
    tokenNote: string,
    galleryName: Option<string>,
    galleryDescription: Option<string>,
    refollowed: bool,
    followedBack: bool)

  datatype Event = Event(
    id: string,
    actor: Option<string>,
    subject: string,
    gallery: string,
    collection: string,
    token: string,
    action: string,
    createdAt: int,
    caption: Option<string>,
    group: Option<string>,
    data: Data)

  const NO_DATA: Data := Data(None, "", "", None, None, false, false)
  const NO_EVENT: Event := Event("", None, "", "", "", "", "", 0, None, None, NO_DATA)

  /** The String field of a nullable string. */
  function Text(s: Option<string>): string {
    match s
    case None => ""
    case Some(t) => t
  }

  // ----- First and last values of a list

  /** What is left of `start` after every Some of `xs` has replaced it. */
  function LastSome<T>(start: T, xs: seq<Option<T>>): T {
    if xs == [] then start
    else if xs[|xs| - 1].Some? then xs[|xs| - 1].value
    else LastSome(start, xs[..|xs| - 1])
  }

  lemma {:induction false} LastSomeIs<T>(start: T, xs: seq<Option<T>>)
    ensures (forall x :: x in xs ==> x.None?) ==> LastSome(start, xs) == start
    ensures forall k :: 0 <= k < |xs| && xs[k].Some? && (forall j :: k < j < |xs| ==> xs[j].None?)
                        ==> LastSome(start, xs) == xs[k].value
  {
    if xs != [] && xs[|xs| - 1].None? {
      LastSomeIs(start, xs[..|xs| - 1]);
    }
  }

  /** `start`, or else the first non-empty string. */
  function FirstText(start: string, xs: seq<string>): string
    decreases xs
  {
    if start != "" || xs == [] then start else FirstText(xs[0], xs[1..])
  }

  lemma {:induction false} FirstTextIs(start: string, xs: seq<string>)
    ensures start == "" && (forall x :: x in xs ==> x == "") ==> FirstText(start, xs) == ""
    ensures forall k :: 0 <= k < |xs| && start == "" && xs[k] != "" && (forall j :: 0 <= j < k ==> xs[j] == "")
                        ==> FirstText(start, xs) == xs[k]
    decreases xs
  {
    if start == "" && xs != [] {
      FirstTextIs(xs[0], xs[1..]);
      forall k | 0 < k < |xs| && xs[k] != "" && (forall j :: 0 <= j < k ==> xs[j] == "")
        ensures FirstText(start, xs) == xs[k]
      {
        assert xs[1..][k - 1] == xs[k] && xs[0] == "";
        assert forall j :: 0 <= j < k - 1 ==> xs[1..][j] == xs[j + 1];
      }
      assert xs[0] in xs && forall x :: x in xs[1..] ==> x in xs;
    }
  }

  lemma {:induction false} FirstTextSnoc(start: string, xs: seq<string>, x: string)
    ensures FirstText(start, xs + [x]) == if FirstText(start, xs) != "" then FirstText(start, xs) else x
    decreases xs
  {
    if xs == [] {
      assert (xs + [x])[0] == x && (xs + [x])[1..] == [];
    } else if start == "" {
      assert (xs + [x])[0] == xs[0] && (xs + [x])[1..] == xs[1..] + [x];
      FirstTextSnoc(xs[0], xs[1..], x);
    }
  }

  function Map<A, B>(f: A -> B, xs: seq<A>): (ys: seq<B>)
    ensures |ys| == |xs| && forall i :: 0 <= i < |xs| ==> ys[i] == f(xs[i])
  {
    seq(|xs|, i requires 0 <= i < |xs| => f(xs[i]))
  }

  lemma MapSnoc<A, B>(f: A -> B, xs: seq<A>, x: A)
    ensures Map(f, xs + [x]) == Map(f, xs) + [f(x)]
  {
  }

  // ----- One collection

  datatype Combined = Combined(event: Event, eventIds: seq<string>, isNew: bool)

  const NOTHING: Combined := Combined(NO_EVENT, [], false)

  function MergedAction(current: string, other: string): string {
    if current == "" then other
    else if current != COLLECTION_CREATED && current != other then COLLECTION_UPDATED
    else current
  }

  function Step(c: Combined, e: Event): Combined {
    Combined(
      NO_EVENT.(
        id := e.id, actor := e.actor, subject := e.subject, gallery := e.gallery, collection := e.collection,
        action := MergedAction(c.event.action, e.action),
        createdAt := e.createdAt,
        caption := if Text(c.event.caption) == "" then e.caption else c.event.caption,
        group := e.group,
        data := NO_DATA.(
          tokens :=
            (if e.action == COLLECTION_CREATED || e.action == TOKENS_ADDED then e.data.tokens
             else c.event.data.tokens),
          note :=
            (if e.action == COLLECTION_CREATED || e.action == NOTE_ADDED then e.data.note
             else c.event.data.note))),
      c.eventIds + [e.id],
      c.isNew || e.action == COLLECTION_CREATED)
  }

  function Fold(c: Combined, events: seq<Event>): Combined {
    if events == [] then c else Step(Fold(c, events[..|events| - 1]), events[|events| - 1])
  }

  class CombinedCollectionEvent {
    var event: Event
    var eventIds: seq<string>
    var isNewCollection: bool

    ghost function Abs(): Combined
      reads this
    {
      Combined(event, eventIds, isNewCollection)
    }

    constructor ()
      ensures Abs() == NOTHING
    {
      event, eventIds, isNewCollection := NO_EVENT, [], false;
    }

    method Merge(eventsAsc: seq<Event>)
      modifies this
      ensures Abs() == Fold(old(Abs()), eventsAsc)
    {
      for k := 0 to |eventsAsc|
        invariant Abs() == Fold(old(Abs()), eventsAsc[..k])
      {
        MergeOne(eventsAsc[k]);
        assert eventsAsc[..k + 1] == eventsAsc[..k] + [eventsAsc[k]];
      }
      assert eventsAsc[..|eventsAsc|] == eventsAsc;
    }

    /** One turn of the loop. */
    method MergeOne(other: Event)
      modifies this
      ensures Abs() == Step(old(Abs()), other)
    {
      var action, caption := event.action, event.caption;
      if event.action == "" {
        action := other.action;
      } else if action != COLLECTION_CREATED && event.action != other.action {
        action := COLLECTION_UPDATED;
      }
      if Text(event.caption) == "" {
        caption := other.caption;
      }
      var tokens := event.data.tokens;
      if other.action == COLLECTION_CREATED || other.action == TOKENS_ADDED {
        tokens := other.data.tokens;
      }
      var note := event.data.note;
      if other.action == COLLECTION_CREATED || other.action == NOTE_ADDED {
        note := other.data.note;
      }
      event := NO_EVENT.(
        id := other.id, actor := other.actor, subject := other.subject, gallery := other.gallery,
        collection := other.collection, action := action, createdAt := other.createdAt, caption := caption,
        group := other.group, data := NO_DATA.(tokens := tokens, note := note));
      eventIds := eventIds + [other.id];
      isNewCollection := isNewCollection || other.action == COLLECTION_CREATED;
    }
  }

  /** Merging in two goes is merging at once. */
  lemma {:induction false} FoldConcat(c: Combined, xs: seq<Event>, ys: seq<Event>)
    ensures Fold(Fold(c, xs), ys) == Fold(c, xs + ys)
  {
    if ys == [] {
      assert xs + ys == xs;
    } else {
      var all, front := xs + ys, ys[..|ys| - 1];
      assert all[..|all| - 1] == xs + front && all[|all| - 1] == ys[|ys| - 1];
      FoldConcat(c, xs, front);
    }
  }

  /** The folded event carries every ID in order and is about a new collection if some event creates it. */
  lemma {:induction false} FoldedIds(c: Combined, events: seq<Event>)
    ensures Fold(c, events).eventIds == c.eventIds + Map((e: Event) => e.id, events)
    ensures Fold(c, events).isNew <==> c.isNew || exists e :: e in events && e.action == "CollectionCreated"
  {
    if events != [] {
      var front, last := events[..|events| - 1], events[|events| - 1];
      FoldedIds(c, front);
      assert events == front + [last];
      MapSnoc((e: Event) => e.id, front, last);
    }
  }

  /** The index `k` is that of the last event with one of these actions. */
  ghost predicate LastOf(events: seq<Event>, k: int, actions: set<string>) {
    && 0 <= k < |events| && events[k].action in actions
    && forall j :: k < j < |events| ==> events[j].action !in actions
  }

  lemma LastOfFront(events: seq<Event>, k: int, actions: set<string>)
    requires events != []
    ensures
      LastOf(events, k, actions) <==>
        if events[|events| - 1].action in actions then k == |events| - 1
        else LastOf(events[..|events| - 1], k, actions)
  {
    var front := events[..|events| - 1];
    if LastOf(front, k, actions) && events[|events| - 1].action !in actions {
      assert front[k] == events[k];
      assert forall j :: k < j < |front| ==> events[j] == front[j];
    }
    if LastOf(events, k, actions) && events[|events| - 1].action !in actions {
      assert forall j :: k < j < |front| ==> front[j] == events[j];
    }
  }

  lemma OneEvent(c: Combined, e: Event)
    ensures
      Step(c, e).event.data.tokens ==
      if e.action in {"CollectionCreated", "TokensAddedToCollection"} then e.data.tokens else c.event.data.tokens
    ensures
      Step(c, e).event.data.note ==
      if e.action in {"CollectionCreated", "CollectorsNoteAddedToCollection"} then e.data.note else c.event.data.note
  {
  }

  lemma {:induction false} TokensFrom(c: Combined, events: seq<Event>, actions: set<string>)
    requires actions == {"CollectionCreated", "TokensAddedToCollection"}
    ensures forall k :: LastOf(events, k, actions) ==> Fold(c, events).event.data.tokens == events[k].data.tokens
    ensures (forall e :: e in events ==> e.action !in actions) ==>
              Fold(c, events).event.data.tokens == c.event.data.tokens
  {
    if events != [] {
      var front, last := events[..|events| - 1], events[|events| - 1];
      TokensFrom(c, front, actions);
      OneEvent(Fold(c, front), last);
      assert last in events && forall e :: e in front ==> e in events;
      forall k | LastOf(events, k, actions)
        ensures Fold(c, events).event.data.tokens == events[k].data.tokens
      {
        LastOfFront(events, k, actions);
      }
    }
  }

  lemma {:induction false} NoteFrom(c: Combined, events: seq<Event>, actions: set<string>)
    requires actions == {"CollectionCreated", "CollectorsNoteAddedToCollection"}
    ensures forall k :: LastOf(events, k, actions) ==> Fold(c, events).event.data.note == events[k].data.note
    ensures (forall e :: e in events ==> e.action !in actions) ==>
              Fold(c, events).event.data.note == c.event.data.note
  {
    if events != [] {
      var front, last := events[..|events| - 1], events[|events| - 1];
      NoteFrom(c, front, actions);
      OneEvent(Fold(c, front), last);
      assert last in events && forall e :: e in front ==> e in events;
      forall k | LastOf(events, k, actions)
        ensures Fold(c, events).event.data.note == events[k].data.note
      {
        LastOfFront(events, k, actions);
      }
    }
  }

  /** The tokens are those of the last event that was sent for a new collection or for added tokens, and such an event
      replaces the tokens even with none; without one they stay.  Likewise the collector's note. */
  lemma FoldedData(c: Combined, events: seq<Event>)
    ensures forall k :: LastOf(events, k, {"CollectionCreated", "TokensAddedToCollection"}) ==>
                          Fold(c, events).event.data.tokens == events[k].data.tokens
    ensures (forall e :: e in events ==> e.action !in {"CollectionCreated", "TokensAddedToCollection"}) ==>
              Fold(c, events).event.data.tokens == c.event.data.tokens
    ensures forall k :: LastOf(events, k, {"CollectionCreated", "CollectorsNoteAddedToCollection"}) ==>
                          Fold(c, events).event.data.note == events[k].data.note
    ensures (forall e :: e in events ==> e.action !in {"CollectionCreated", "CollectorsNoteAddedToCollection"}) ==>
              Fold(c, events).event.data.note == c.event.data.note
  {
    TokensFrom(c, events, {"CollectionCreated", "TokensAddedToCollection"});
    NoteFrom(c, events, {"CollectionCreated", "CollectorsNoteAddedToCollection"});
  }

  /** Everything else is the last event's, and what a collection's feed event does not have is empty. */
  lemma FoldedLast(c: Combined, events: seq<Event>)
    requires events != []
    ensures
      var event, last := Fold(c, events).event, events[|events| - 1];
      && event.id == last.id && event.actor == last.actor && event.subject == last.subject
      && event.gallery == last.gallery && event.collection == last.collection
      && event.createdAt == last.createdAt && event.group == last.group
      && event.token == "" && event.data == Data(event.data.tokens, event.data.note, "", None, None, false, false)
  {
  }

  predicate Blank(s: Option<string>) {
    s == None || s == Some("")
  }

  /** The caption is the receiver's unless that is blank, then the first one that is not, then the last event's. */
  lemma {:induction false} FoldedCaption(c: Combined, events: seq<Event>)
    ensures !Blank(c.event.caption) ==> Fold(c, events).event.caption == c.event.caption
    ensures
      forall k :: 0 <= k < |events| && Blank(c.event.caption) && !Blank(events[k].caption)
                  && (forall j :: 0 <= j < k ==> Blank(events[j].caption)) ==>
                    Fold(c, events).event.caption == events[k].caption
    ensures events != [] && Blank(c.event.caption) && (forall e :: e in events ==> Blank(e.caption)) ==>
              Fold(c, events).event.caption == events[|events| - 1].caption
  {
    if events != [] {
      var front, last := events[..|events| - 1], events[|events| - 1];
      FoldedCaption(c, front);
      assert forall j :: 0 <= j < |front| ==> front[j] == events[j];
      assert last in events;
    }
  }

  /** The folded action.  Leading events without an action do not count.  After them: Created if the first one is
      Created; the common action if there is one; otherwise Updated. */
  lemma FoldedAction(events: seq<Event>, f: nat)
    requires f < |events| && events[f].action != "" && forall j :: 0 <= j < f ==> events[j].action == ""
    ensures
      Fold(NOTHING, events).event.action ==
      if events[f].action == "CollectionCreated" then "CollectionCreated"
      else if forall j :: f <= j < |events| ==> events[j].action == events[f].action then events[f].action
      else "CollectionUpdated"
  {
    FoldIsMergedActions(events);
    ActionOf(events, f, "CollectionCreated", "CollectionUpdated");
  }

  lemma ActionOf(events: seq<Event>, f: nat, created: string, updated: string)
    requires created == COLLECTION_CREATED && updated == COLLECTION_UPDATED
    requires f < |events| && events[f].action != "" && forall j :: 0 <= j < f ==> events[j].action == ""
    ensures
      MergedActions(Map((e: Event) => e.action, events)) ==
      if events[f].action == created then created
      else if forall j :: f <= j < |events| ==> events[j].action == events[f].action then events[f].action
      else updated
  {
    var actions := Map((e: Event) => e.action, events);
    ActionFrom(actions, f, created, updated);
    assert forall j :: 0 <= j < |events| ==> events[j].action == actions[j];
  }

  function MergedActions(actions: seq<string>): string {
    if actions == [] then "" else MergedAction(MergedActions(actions[..|actions| - 1]), actions[|actions| - 1])
  }

  lemma {:induction false} FoldIsMergedActions(events: seq<Event>)
    ensures Fold(NOTHING, events).event.action == MergedActions(Map((e: Event) => e.action, events))
  {
    if events != [] {
      var front, last := events[..|events| - 1], events[|events| - 1];
      FoldIsMergedActions(front);
      assert events == front + [last];
      MapSnoc((e: Event) => e.action, front, last);
    }
  }

  lemma {:induction false} ActionFrom(actions: seq<string>, f: nat, created: string, updated: string)
    requires created == COLLECTION_CREATED && updated == COLLECTION_UPDATED
    requires f < |actions| && actions[f] != "" && forall j :: 0 <= j < f ==> actions[j] == ""
    ensures
      MergedActions(actions) ==
      if actions[f] == created then created
      else if forall j :: f <= j < |actions| ==> actions[j] == actions[f] then actions[f]
      else updated
  {
    var front := actions[..|actions| - 1];
    if f == |actions| - 1 {
      NoAction(front);
    } else {
      ActionFrom(front, f, created, updated);
      assert forall j :: f <= j < |front| ==> front[j] == actions[j];
    }
  }

  lemma {:induction false} NoAction(actions: seq<string>)
    requires forall j :: 0 <= j < |actions| ==> actions[j] == ""
    ensures MergedActions(actions) == ""
  {
    if actions != [] {
      NoAction(actions[..|actions| - 1]);
    }
  }

  /** A collection that is created after another event is a new one in an event that says Updated. */
  lemma CreatedLaterIsAnUpdate(events: seq<Event>, k: nat)
    requires 0 < k < |events| && events[0].action != "" && events[0].action != COLLECTION_CREATED
    requires events[k].action == COLLECTION_CREATED
    ensures Fold(NOTHING, events).isNew && Fold(NOTHING, events).event.action == COLLECTION_UPDATED
  {
    FoldedIds(NOTHING, events);
    FoldedAction(events, 0);
    assert events[k] in events;
  }
}
