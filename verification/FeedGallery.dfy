/** The follow and the gallery merges of feed/merge.go.  The gallery merge groups events by collection and goes
    through the groups in the order of a Go map, which is any order. */
module FeedGallery {
  import opened Options
  import opened FeedMerge

  // ----- Follows

  function NewFollows(events: seq<Event>): seq<Event> {
    if events == [] then []
    else
      var front, last := NewFollows(events[..|events| - 1]), events[|events| - 1];
      if last.data.refollowed then front else front + [last]
  }

  datatype Follows = Follows(event: Event, eventIds: seq<string>, followedIds: seq<string>, followedBack: seq<bool>)

  function FollowStep(c: Follows, e: Event): Follows {
    if e.data.refollowed then c
    else Follows(NO_EVENT.(id := e.id, actor := e.actor, action := e.action, createdAt := e.createdAt,
        group := e.group),
                 c.eventIds + [e.id], c.followedIds + [e.subject], c.followedBack + [e.data.followedBack])
  }

  function FollowFold(c: Follows, events: seq<Event>): Follows {
    if events == [] then c else FollowStep(FollowFold(c, events[..|events| - 1]), events[|events| - 1])
  }

  class CombinedFollowEvent {
    var event: Event
    var eventIds: seq<string>
    var followedIds: seq<string>
    var followedBack: seq<bool>

    ghost function Abs(): Follows
      reads this
    {
      Follows(event, eventIds, followedIds, followedBack)
    }

    constructor ()
      ensures Abs() == Follows(NO_EVENT, [], [], [])
    {
      event, eventIds, followedIds, followedBack := NO_EVENT, [], [], [];
    }

    method Merge(eventsAsc: seq<Event>)
      modifies this
      ensures Abs() == FollowFold(old(Abs()), eventsAsc)
    {
      for k := 0 to |eventsAsc|
        invariant Abs() == FollowFold(old(Abs()), eventsAsc[..k])
      {
        var other := eventsAsc[k];
        assert eventsAsc[..k + 1] == eventsAsc[..k] + [other];
        if !other.data.refollowed {
          event := NO_EVENT.(id := other.id, actor := other.actor, action := other.action,
                             createdAt := other.createdAt, group := other.group);
          eventIds := eventIds + [other.id];
          followedIds := followedIds + [other.subject];
          followedBack := followedBack + [other.data.followedBack];
        }
      }
      assert eventsAsc[..|eventsAsc|] == eventsAsc;
    }
  }

  lemma NewFollowsSnoc(events: seq<Event>, e: Event)
    ensures NewFollows(events + [e]) == NewFollows(events) + (if e.data.refollowed then [] else [e])
  {
    assert (events + [e])[..|events|] == events;
  }

  /** The new follows are those events that are no refollows, in order. */
  lemma {:induction false} NewFollowsConcat(xs: seq<Event>, ys: seq<Event>)
    ensures NewFollows(xs + ys) == NewFollows(xs) + NewFollows(ys)
  {
    if ys == [] {
      assert xs + ys == xs;
    } else {
      var front, last := ys[..|ys| - 1], ys[|ys| - 1];
      assert xs + ys == (xs + front) + [last] && ys == front + [last];
      NewFollowsSnoc(xs + front, last);
      NewFollowsSnoc(front, last);
      NewFollowsConcat(xs, front);
    }
  }

  lemma {:induction false} NewFollowsAre(events: seq<Event>)
    ensures forall e :: e in NewFollows(events) <==> e in events && !e.data.refollowed
    ensures |events| == 1 && !events[0].data.refollowed ==> NewFollows(events) == events
  {
    if events != [] {
      var front, last := events[..|events| - 1], events[|events| - 1];
      NewFollowsAre(front);
      assert events == front + [last];
    }
  }

  /** Refollows leave no trace; every other follow is listed once and in order. */
  lemma {:induction false} FollowLists(c: Follows, events: seq<Event>)
    ensures
      var r, follows := FollowFold(c, events), NewFollows(events);
      && r.eventIds == c.eventIds + Map((e: Event) => e.id, follows)
      && r.followedIds == c.followedIds + Map((e: Event) => e.subject, follows)
      && r.followedBack == c.followedBack + Map((e: Event) => e.data.followedBack, follows)
  {
    if events != [] {
      var front, last := events[..|events| - 1], events[|events| - 1];
      FollowLists(c, front);
      MapSnoc((e: Event) => e.id, NewFollows(front), last);
      MapSnoc((e: Event) => e.subject, NewFollows(front), last);
      MapSnoc((e: Event) => e.data.followedBack, NewFollows(front), last);
    }
  }

  /** The last new follow names the event. */
  lemma {:induction false} FollowNamed(c: Follows, events: seq<Event>)
    ensures
      var event, follows := FollowFold(c, events).event, NewFollows(events);
      if follows == [] then event == c.event
      else
        var last := follows[|follows| - 1];
        && event.id == last.id && event.actor == last.actor && event.action == last.action
        && event.createdAt == last.createdAt && event.group == last.group
        && event.subject == event.gallery == event.collection == event.token == ""
        && event.caption == None && event.data == Data(None, "", "", None, None, false, false)
  {
    if events != [] {
      FollowNamed(c, events[..|events| - 1]);
    }
  }

  // ----- What a gallery's events say

  predicate IsCollectionEvent(e: Event) {
    e.action != GALLERY_INFO_UPDATED && e.action != TOKEN_NOTE_ADDED
  }

  /** The events of one collection. */
  function Group(events: seq<Event>, k: string): seq<Event> {
    if events == [] then []
    else
      var front, last := Group(events[..|events| - 1], k), events[|events| - 1];
      if IsCollectionEvent(last) && last.collection == k then front + [last] else front
  }

  function Collections(events: seq<Event>): set<string> {
    set e | e in events && IsCollectionEvent(e) :: e.collection
  }

  function Merged(events: seq<Event>, k: string): Combined {
    Fold(NOTHING, Group(events, k))
  }

  function Created(events: seq<Event>): set<string> {
    set k | k in Collections(events) && Merged(events, k).isNew
  }

  function Captions(events: seq<Event>): map<string, string> {
    map k | k in Collections(events) && Text(Merged(events, k).event.caption) != "" ::
      Text(Merged(events, k).event.caption)
  }

  function Notes(events: seq<Event>): map<string, string> {
    map k | k in Collections(events) && Merged(events, k).event.data.note != "" :: Merged(events, k).event.data.note
  }

  function Tokens(events: seq<Event>): map<string, seq<string>> {
    map k | k in Collections(events) && Merged(events, k).event.data.tokens.Some? ::
      Merged(events, k).event.data.tokens.value
  }

  function AddTokenNote(notes: map<string, map<string, string>>, e: Event): map<string, map<string, string>> {
    if e.action != TOKEN_NOTE_ADDED then notes
    else
      var inner := if e.collection in notes then notes[e.collection] else map[];
      notes[e.collection := inner[e.token := e.data.tokenNote]]
  }

  /** The fields that are filled with values while the events are scanned. */
  datatype Fields = Fields(
    eventTime: int,
    galleryId: string,
    actorId: string,
    galleryName: string,
    galleryDescription: string,
    tokenNotes: map<string, map<string, string>>)

  function ScanOne(s: Fields, e: Event): Fields {
    Fields(
      e.createdAt,
      if s.galleryId == "" then e.gallery else s.galleryId,
      if s.actorId == "" then Text(e.actor) else s.actorId,
      if e.action == GALLERY_INFO_UPDATED && e.data.galleryName.Some? then e.data.galleryName.value
      else s.galleryName,
      if e.action == GALLERY_INFO_UPDATED && e.data.galleryDescription.Some? then e.data.galleryDescription.value
      else s.galleryDescription,
      AddTokenNote(s.tokenNotes, e))
  }

  function Scan(s: Fields, events: seq<Event>): Fields {
    if events == [] then s else ScanOne(Scan(s, events[..|events| - 1]), events[|events| - 1])
  }

  predicate HasGroup(events: seq<Event>) {
    exists e :: e in events && e.group.Some?
  }

  predicate HasCaption(events: seq<Event>) {
    exists e :: e in events && Text(e.caption) != ""
  }

  /** The group ID after the scan: the field points into the loop's variable, which ends up holding the last event. */
  function GroupAfter(before: Option<string>, events: seq<Event>): Option<string> {
    if HasGroup(events) then Some(Text(events[|events| - 1].group)) else before
  }

  /** Likewise the caption, before the collections are visited. */
  function CaptionScanned(before: Option<string>, events: seq<Event>): Option<string> {
    if HasCaption(events) then Some(Text(events[|events| - 1].caption)) else before
  }

  /** `xs` lists the elements of `all`, each once. */
  ghost predicate Lists(xs: seq<string>, all: set<string>) {
    && (forall i, j :: 0 <= i < j < |xs| ==> xs[i] != xs[j])
    && (forall x :: x in xs <==> x in all)
  }

  // ----- One collection's share

  lemma {:induction false} GroupKey(events: seq<Event>, k: string)
    ensures k in Collections(events) <==> Group(events, k) != []
    ensures Group(events, k) != [] ==> Merged(events, k).event.collection == k
  {
    if events != [] {
      var front, last := events[..|events| - 1], events[|events| - 1];
      GroupKey(front, k);
      assert events == front + [last];
      CollectionsSnoc(front, last);
    }
  }

  lemma CollectionsSnoc(events: seq<Event>, e: Event)
    ensures Collections(events + [e]) == Collections(events) + (if IsCollectionEvent(e) then {e.collection} else {})
  {
    assert forall f :: f in events + [e] <==> f in events || f == e;
  }

  lemma GroupSnoc(events: seq<Event>, e: Event)
    ensures forall k :: Group(events + [e], k) ==
                        if IsCollectionEvent(e) && e.collection == k then Group(events, k) + [e] else Group(events, k)
  {
    assert (events + [e])[..|events|] == events;
  }

  /** The groups of the events scanned so far. */
  ghost predicate Grouped(groups: map<string, seq<Event>>, events: seq<Event>) {
    groups.Keys == Collections(events) && forall k :: k in groups ==> groups[k] == Group(events, k)
  }

  lemma GroupedSnoc(groups: map<string, seq<Event>>, events: seq<Event>, e: Event)
    requires Grouped(groups, events)
    ensures
      if IsCollectionEvent(e) then
        Grouped(groups[e.collection := (if e.collection in groups then groups[e.collection] else []) + [e]],
            events + [e])
      else Grouped(groups, events + [e])
  {
    CollectionsSnoc(events, e);
    GroupSnoc(events, e);
    GroupKey(events, e.collection);
  }

  lemma ScanSnoc(s: Fields, events: seq<Event>, e: Event)
    ensures Scan(s, events + [e]) == ScanOne(Scan(s, events), e)
  {
    assert (events + [e])[..|events|] == events;
  }

  lemma HeaderSnoc(events: seq<Event>, e: Event)
    ensures HasGroup(events + [e]) <==> HasGroup(events) || e.group.Some?
    ensures HasCaption(events + [e]) <==> HasCaption(events) || Text(e.caption) != ""
  {
    assert e in events + [e] && forall f :: f in events ==> f in events + [e];
  }

  lemma OrderSnoc(order: seq<string>, i: nat)
    requires i < |order|
    ensures order[..i + 1] != [] && order[..i + 1][..i] == order[..i] && order[..i + 1][i] == order[i]
  {
  }

  lemma EventSnoc(events: seq<Event>, i: nat)
    requires i < |events|
    ensures events[..i + 1] == events[..i] + [events[i]]
  {
  }

  // ----- The last loop, for the collections visited so far

  ghost predicate MapDone<V>(
    entries: map<string, V>, visited: seq<string>, before: map<string, V>, now: map<string, V>)
  {
    now == before + (map k | k in visited && k in entries :: entries[k])
  }

  lemma MapStep<V>(
    entries: map<string, V>, visited: seq<string>, before: map<string, V>, now: map<string, V>, k: string)
    requires MapDone(entries, visited, before, now)
    ensures MapDone(entries, visited + [k], before, if k in entries then now[k := entries[k]] else now)
  {
    assert forall j :: j in visited + [k] <==> j in visited || j == k;
  }

  lemma MapEnd<V>(entries: map<string, V>, visited: seq<string>, before: map<string, V>, now: map<string, V>)
    requires MapDone(entries, visited, before, now) && forall k :: k in entries ==> k in visited
    ensures now == before + entries
  {
    assert (map k | k in visited && k in entries :: entries[k]) == entries;
  }

  // ----- The last loop as a fold over the collections in the order they are visited

  /** The fields that the last loop adds to. */
  datatype Tally = Tally(
    notes: map<string, string>,
    tokens: map<string, seq<string>>,
    created: seq<string>,
    caption: Option<string>)

  function AddOne(t: Tally, c: Combined): Tally {
    Tally(
      if c.event.data.note != "" then t.notes[c.event.collection := c.event.data.note] else t.notes,
      if c.event.data.tokens.Some? then t.tokens[c.event.collection := c.event.data.tokens.value] else t.tokens,
      if c.isNew then t.created + [c.event.collection] else t.created,
      if Text(c.event.caption) != "" then Some(Text(c.event.caption)) else t.caption)
  }

  function AddInOrder(t: Tally, events: seq<Event>, order: seq<string>): Tally {
    if order == [] then t
    else AddOne(AddInOrder(t, events, order[..|order| - 1]), Merged(events, order[|order| - 1]))
  }

  /** The elements of `xs` that are in `all`, in order. */
  function Kept(xs: seq<string>, all: set<string>): seq<string> {
    if xs == [] then []
    else Kept(xs[..|xs| - 1], all) + (if xs[|xs| - 1] in all then [xs[|xs| - 1]] else [])
  }

  /** The caption of the last visited collection that has one. */
  function LastCaption(before: Option<string>, captions: map<string, string>, order: seq<string>): Option<string> {
    if order == [] then before
    else if order[|order| - 1] in captions then Some(captions[order[|order| - 1]])
    else LastCaption(before, captions, order[..|order| - 1])
  }

  lemma OneShare(t: Tally, events: seq<Event>, k: string)
    requires k in Collections(events)
    ensures
      var r := AddOne(t, Merged(events, k));
      && r.notes == (if k in Notes(events) then t.notes[k := Notes(events)[k]] else t.notes)
      && r.tokens == (if k in Tokens(events) then t.tokens[k := Tokens(events)[k]] else t.tokens)
      && r.created == (if k in Created(events) then t.created + [k] else t.created)
      && r.caption == (if k in Captions(events) then Some(Captions(events)[k]) else t.caption)
  {
    GroupKey(events, k);
  }

  lemma {:induction false} VisitedNotes(t: Tally, events: seq<Event>, order: seq<string>)
    requires forall k :: k in order ==> k in Collections(events)
    ensures MapDone(Notes(events), order, t.notes, AddInOrder(t, events, order).notes)
  {
    if order != [] {
      var front, k := order[..|order| - 1], order[|order| - 1];
      var half := AddInOrder(t, events, front);
      VisitedNotes(t, events, front);
      OneShare(half, events, k);
      MapStep(Notes(events), front, t.notes, half.notes, k);
      assert order == front + [k];
    }
  }

  lemma {:induction false} VisitedTokens(t: Tally, events: seq<Event>, order: seq<string>)
    requires forall k :: k in order ==> k in Collections(events)
    ensures MapDone(Tokens(events), order, t.tokens, AddInOrder(t, events, order).tokens)
  {
    if order != [] {
      var front, k := order[..|order| - 1], order[|order| - 1];
      var half := AddInOrder(t, events, front);
      VisitedTokens(t, events, front);
      OneShare(half, events, k);
      MapStep(Tokens(events), front, t.tokens, half.tokens, k);
      assert order == front + [k];
    }
  }

  lemma {:induction false} VisitedCreated(t: Tally, events: seq<Event>, order: seq<string>)
    requires forall k :: k in order ==> k in Collections(events)
    ensures AddInOrder(t, events, order).created == t.created + Kept(order, Created(events))
  {
    if order != [] {
      var front, k := order[..|order| - 1], order[|order| - 1];
      var half := AddInOrder(t, events, front);
      VisitedCreated(t, events, front);
      OneShare(half, events, k);
    }
  }

  lemma {:induction false} VisitedCaption(t: Tally, events: seq<Event>, order: seq<string>)
    requires forall k :: k in order ==> k in Collections(events)
    ensures AddInOrder(t, events, order).caption == LastCaption(t.caption, Captions(events), order)
  {
    if order != [] {
      var front, k := order[..|order| - 1], order[|order| - 1];
      var half := AddInOrder(t, events, front);
      VisitedCaption(t, events, front);
      OneShare(half, events, k);
    }
  }

  lemma {:induction false} KeptLists(order: seq<string>, all: set<string>)
    requires forall i, j :: 0 <= i < j < |order| ==> order[i] != order[j]
    ensures forall i, j :: 0 <= i < j < |Kept(order, all)| ==> Kept(order, all)[i] != Kept(order, all)[j]
    ensures forall x :: x in Kept(order, all) <==> x in order && x in all
  {
    if order != [] {
      var front, k := order[..|order| - 1], order[|order| - 1];
      KeptLists(front, all);
      assert order == front + [k] && k !in front;
    }
  }

  /** Whatever the order: both maps are those of the events, every created collection is added once, and the caption
      is that of the last visited collection with one. */
  lemma AllShares(t: Tally, events: seq<Event>, order: seq<string>)
    requires Lists(order, Collections(events))
    ensures
      var r := AddInOrder(t, events, order);
      && r.notes == t.notes + Notes(events)
      && r.tokens == t.tokens + Tokens(events)
      && r.created == t.created + Kept(order, Created(events)) && Lists(Kept(order, Created(events)), Created(events))
      && r.caption == LastCaption(t.caption, Captions(events), order)
  {
    var r := AddInOrder(t, events, order);
    VisitedNotes(t, events, order);
    VisitedTokens(t, events, order);
    VisitedCreated(t, events, order);
    VisitedCaption(t, events, order);
    MapEnd(Notes(events), order, t.notes, r.notes);
    MapEnd(Tokens(events), order, t.tokens, r.tokens);
    KeptLists(order, Created(events));
  }

  // ----- The object

  /** The variable of a range loop: in Go 1.19 one variable serves all turns, so a pointer to it sees later events. */
  class EventVar {
    var event: Event

    constructor (event: Event)
      ensures this.event == event
    {
      this.event := event;
    }
  }

  class CombinedGalleryEvent {
    var eventTime: int
    var galleryId: string
    var actorId: string
    var eventIds: seq<string>
    var newCollections: seq<string>
    var collectionNotes: map<string, string>
    var tokenNotes: map<string, map<string, string>>
    var tokensAdded: map<string, seq<string>>
    var galleryName: string
    var galleryDescription: string
    /** The variables that the groupID and caption pointers point into. */
    var groupOf: EventVar?
    var captionOf: EventVar?

    ghost function Abs(): Fields
      reads this
    {
      Fields(eventTime, galleryId, actorId, galleryName, galleryDescription, tokenNotes)
    }

    ghost function GroupId(): Option<string>
      reads this, groupOf
    {
      if groupOf == null then None else Some(Text(groupOf.event.group))
    }

    ghost function Caption(): Option<string>
      reads this, captionOf
    {
      if captionOf == null then None else Some(Text(captionOf.event.caption))
    }

    ghost function Tallied(): Tally
      reads this, captionOf
    {
      Tally(collectionNotes, tokensAdded, newCollections, Caption())
    }

    constructor ()
      ensures Abs() == Fields(0, "", "", "", "", map[]) && GroupId() == None
      ensures Tallied() == Tally(map[], map[], [], None) && eventIds == []
    {
      eventTime, galleryId, actorId, galleryName, galleryDescription := 0, "", "", "", "";
      groupOf, captionOf, eventIds, newCollections := null, null, [], [];
      collectionNotes, tokenNotes, tokensAdded := map[], map[], map[];
    }

    /** The first loop: the scanned fields, and the collection events by collection. */
    method GroupEvents(eventsAsc: seq<Event>) returns (groups: map<string, seq<Event>>)
      modifies this`eventTime, this`galleryId, this`actorId, this`galleryName, this`galleryDescription,
               this`groupOf, this`captionOf, this`tokenNotes
      ensures Abs() == Scan(old(Abs()), eventsAsc)
      ensures GroupId() == GroupAfter(old(GroupId()), eventsAsc)
      ensures Caption() == CaptionScanned(old(Caption()), eventsAsc)
      ensures Grouped(groups, eventsAsc)
    {
      groups := map[];
      var variable := new EventVar(NO_EVENT);
      for i := 0 to |eventsAsc|
        invariant fresh(variable)
        invariant i > 0 ==> variable.event == eventsAsc[i - 1]
        invariant groupOf == if HasGroup(eventsAsc[..i]) then variable else old(groupOf)
        invariant captionOf == if HasCaption(eventsAsc[..i]) then variable else old(captionOf)
        invariant Abs() == Scan(old(Abs()), eventsAsc[..i])
        invariant Grouped(groups, eventsAsc[..i])
      {
        variable.event := eventsAsc[i];
        var event := variable.event;
        EventSnoc(eventsAsc, i);
        ScanSnoc(old(Abs()), eventsAsc[..i], event);
        GroupedSnoc(groups, eventsAsc[..i], event);
        HeaderSnoc(eventsAsc[..i], event);
        var done := ScanEvent(variable);
        if done {
          continue;
        }
        groups := groups[event.collection :=
                           (if event.collection in groups then groups[event.collection] else []) + [event]];
      }
      assert eventsAsc[..|eventsAsc|] == eventsAsc;
    }

    /** One turn of the first loop, but for the grouping; `done` says that the event is not a collection's. */
    method ScanEvent(variable: EventVar) returns (done: bool)
      modifies this`eventTime, this`galleryId, this`actorId, this`galleryName, this`galleryDescription,
               this`groupOf, this`captionOf, this`tokenNotes
      ensures Abs() == ScanOne(old(Abs()), variable.event) && done == !IsCollectionEvent(variable.event)
      ensures groupOf == if variable.event.group.Some? then variable else old(groupOf)
      ensures captionOf == if Text(variable.event.caption) != "" then variable else old(captionOf)
    {
      var event := variable.event;
      ScanHeader(variable);
      if event.action == GALLERY_INFO_UPDATED {
        ScanGalleryInfo(event);
        return true;
      } else if event.action == TOKEN_NOTE_ADDED {
        var inner := if event.collection in tokenNotes then tokenNotes[event.collection] else map[];
        tokenNotes := tokenNotes[event.collection := inner[event.token := event.data.tokenNote]];
        return true;
      }
      return false;
    }

    /** What every event is looked at for. */
    method ScanHeader(variable: EventVar)
      modifies this`eventTime, this`galleryId, this`actorId, this`groupOf, this`captionOf
      ensures
        Abs() == ScanOne(old(Abs()), variable.event)
                 .(galleryName := galleryName, galleryDescription := galleryDescription, tokenNotes := tokenNotes)
      ensures groupOf == if variable.event.group.Some? then variable else old(groupOf)
      ensures captionOf == if Text(variable.event.caption) != "" then variable else old(captionOf)
    {
      var event := variable.event;
      if event.group.Some? {
        groupOf := variable;
      }
      eventTime := event.createdAt;
      if actorId == "" {
        actorId := Text(event.actor);
      }
      if galleryId == "" {
        galleryId := event.gallery;
      }
      if Text(event.caption) != "" {
        captionOf := variable;
      }
    }

    method ScanGalleryInfo(event: Event)
      requires event.action == GALLERY_INFO_UPDATED
      modifies this`galleryName, this`galleryDescription
      ensures
        galleryName ==
        if event.data.galleryName.Some? then event.data.galleryName.value else old(galleryName)
      ensures
        galleryDescription ==
        if event.data.galleryDescription.Some? then event.data.galleryDescription.value else old(galleryDescription)
    {
      if event.data.galleryName.Some? {
        galleryName := event.data.galleryName.value;
      }
      if event.data.galleryDescription.Some? {
        galleryDescription := event.data.galleryDescription.value;
      }
    }

    /** What the last loop makes of one merged collection.  Its caption pointer points into that collection's own event,
        which nothing changes any more. */
    method AddCollection(c: Combined)
      modifies this`collectionNotes, this`tokensAdded, this`newCollections, this`captionOf
      ensures Tallied() == AddOne(old(Tallied()), c)
      ensures captionOf == old(captionOf) || fresh(captionOf)
    {
      if c.event.data.note != "" {
        collectionNotes := collectionNotes[c.event.collection := c.event.data.note];
      }
      if c.event.data.tokens.Some? {
        tokensAdded := tokensAdded[c.event.collection := c.event.data.tokens.value];
      }
      if c.isNew {
        newCollections := newCollections + [c.event.collection];
      }
      if Text(c.event.caption) != "" {
        captionOf := new EventVar(c.event);
      }
    }

    /** Groups are taken in an arbitrary order, and all that depends on it is the order of the new collections
        and, if more than one collection has a caption, which caption is kept. */
    method Merge(eventsAsc: seq<Event>)
      modifies this
      ensures Abs() == Scan(old(Abs()), eventsAsc)
      ensures GroupId() == GroupAfter(old(GroupId()), eventsAsc)
      ensures
        exists order ::
          && Lists(order, Collections(eventsAsc))
          && Tallied() == AddInOrder(old(Tallied()).(caption := CaptionScanned(old(Caption()), eventsAsc)), eventsAsc,
              order)
      ensures collectionNotes == old(collectionNotes) + Notes(eventsAsc)
      ensures tokensAdded == old(tokensAdded) + Tokens(eventsAsc)
      ensures eventIds == Map((e: Event) => e.id, eventsAsc)
    {
      var groups := GroupEvents(eventsAsc);
      ghost var fields, group := Abs(), GroupId();
      VisitGroups(groups, eventsAsc, old(Tallied()).(caption := CaptionScanned(old(Caption()), eventsAsc)));
      assert Abs() == fields && GroupId() == group;
      eventIds := Map((e: Event) => e.id, eventsAsc);
    }

    /** The second and the third loop. */
    method VisitGroups(groups: map<string, seq<Event>>, ghost events: seq<Event>, ghost start: Tally)
      requires Grouped(groups, events) && Tallied() == start
      modifies this`collectionNotes, this`tokensAdded, this`newCollections, this`captionOf
      ensures exists order :: Lists(order, Collections(events)) && Tallied() == AddInOrder(start, events, order)
      ensures collectionNotes == start.notes + Notes(events) && tokensAdded == start.tokens + Tokens(events)
    {
      var mergedEvents, order := MergeGroups(groups);
      AddCollections(mergedEvents, events, order);
      AllShares(start, events, order);
    }

    /** The last loop. */
    method AddCollections(mergedEvents: seq<Combined>, ghost events: seq<Event>, ghost order: seq<string>)
      requires |mergedEvents| == |order|
      requires forall i :: 0 <= i < |order| ==> mergedEvents[i] == Merged(events, order[i])
      modifies this`collectionNotes, this`tokensAdded, this`newCollections, this`captionOf
      ensures Tallied() == AddInOrder(old(Tallied()), events, order)
    {
      for i := 0 to |mergedEvents|
        invariant Tallied() == AddInOrder(old(Tallied()), events, order[..i])
        invariant captionOf == old(captionOf) || fresh(captionOf)
      {
        AddCollection(mergedEvents[i]);
        OrderSnoc(order, i);
      }
      assert order[..|order|] == order;
    }
  }

  /** Merges every group, in some order. */
  method MergeGroups(groups: map<string, seq<Event>>) returns (mergedEvents: seq<Combined>, order: seq<string>)
    ensures Lists(order, groups.Keys) && |mergedEvents| == |order| && forall i :: 0 <= i < |order| ==>
              order[i] in groups
    ensures forall i :: 0 <= i < |order| ==> mergedEvents[i] == Fold(NOTHING, groups[order[i]])
  {
    var remaining := groups.Keys;
    mergedEvents, order := [], [];
    while remaining != {}
      invariant remaining <= groups.Keys && Lists(order, groups.Keys - remaining) && |mergedEvents| == |order|
      invariant forall i :: 0 <= i < |order| ==> order[i] in groups
      invariant forall i :: 0 <= i < |order| ==> mergedEvents[i] == Fold(NOTHING, groups[order[i]])
    {
      var k :| k in remaining;
      var merged := new CombinedCollectionEvent();
      merged.Merge(groups[k]);
      mergedEvents := mergedEvents + [Combined(merged.event, merged.eventIds, merged.isNewCollection)];
      order := order + [k];
      remaining := remaining - {k};
    }
  }

  // ----- What the result says of the events

  /** Grouping keeps the order and takes nothing from other collections. */
  lemma {:induction false} GroupConcat(xs: seq<Event>, ys: seq<Event>, k: string)
    ensures Group(xs + ys, k) == Group(xs, k) + Group(ys, k)
    ensures forall e ::
      e in Group(xs, k) <==>
        && e in xs && e.collection == k
        && e.action !in {"GalleryInfoUpdated", "CollectorsNoteAddedToToken"}
  {
    if ys != [] {
      var all, front, last := xs + ys, ys[..|ys| - 1], ys[|ys| - 1];
      assert all[..|all| - 1] == xs + front && all[|all| - 1] == last;
      GroupConcat(xs, front, k);
    } else {
      assert xs + ys == xs;
      if xs != [] {
        var front := xs[..|xs| - 1];
        assert xs == front + [xs[|xs| - 1]];
        assert front + [] == front;
        GroupConcat(front, [], k);
      }
    }
  }

  /** A collection's entries are decided by its own events: new if one of them creates it, and with the tokens,
      the note and the caption that its last, last and first events with such a thing have. */
  lemma EntryOfCollection(events: seq<Event>, k: string)
    ensures
      var own := Group(events, k);
      && (k in Created(events) <==> exists e :: e in own && e.action == "CollectionCreated")
      && (forall j :: LastOf(own, j, {"CollectionCreated", "TokensAddedToCollection"}) ==>
            && (k in Tokens(events) <==> own[j].data.tokens.Some?)
            && (k in Tokens(events) ==> Tokens(events)[k] == own[j].data.tokens.value))
      && ((forall e :: e in own ==> e.action !in {"CollectionCreated", "TokensAddedToCollection"}) ==>
            k !in Tokens(events))
      && (forall j :: LastOf(own, j, {"CollectionCreated", "CollectorsNoteAddedToCollection"}) ==>
            && (k in Notes(events) <==> own[j].data.note != "")
            && (k in Notes(events) ==> Notes(events)[k] == own[j].data.note))
      && ((forall e :: e in own ==> e.action !in {"CollectionCreated", "CollectorsNoteAddedToCollection"}) ==>
            k !in Notes(events))
  {
    GroupKey(events, k);
    FoldedIds(NOTHING, Group(events, k));
    FoldedData(NOTHING, Group(events, k));
  }

  lemma CaptionOfCollection(events: seq<Event>, k: string, j: nat)
    requires j < |Group(events, k)| && !Blank(Group(events, k)[j].caption)
    requires forall i :: 0 <= i < j ==> Blank(Group(events, k)[i].caption)
    ensures k in Captions(events) && Group(events, k)[j].caption == Some(Captions(events)[k])
  {
    GroupKey(events, k);
    FoldedCaption(NOTHING, Group(events, k));
  }

  lemma NoCaptionOfCollection(events: seq<Event>, k: string)
    requires forall e :: e in Group(events, k) ==> Blank(e.caption)
    ensures k !in Captions(events)
  {
    GroupKey(events, k);
    FoldedCaption(NOTHING, Group(events, k));
  }

  /** How the events of different collections are interleaved does not matter to the maps or the set of new
      collections. */
  lemma InterleavingIsIrrelevant(xs: seq<Event>, ys: seq<Event>)
    requires forall k :: Group(xs, k) == Group(ys, k)
    ensures Notes(xs) == Notes(ys) && Tokens(xs) == Tokens(ys)
    ensures Created(xs) == Created(ys) && Captions(xs) == Captions(ys)
  {
    SameCollections(xs, ys);
    SameNotes(xs, ys);
    SameCaptions(xs, ys);
  }

  lemma SameCollections(xs: seq<Event>, ys: seq<Event>)
    requires forall k :: Group(xs, k) == Group(ys, k)
    ensures Collections(xs) == Collections(ys)
  {
    forall k ensures k in Collections(xs) <==> k in Collections(ys) {
      GroupKey(xs, k);
      GroupKey(ys, k);
    }
  }

  lemma SameNotes(xs: seq<Event>, ys: seq<Event>)
    requires Collections(xs) == Collections(ys) && forall k :: Group(xs, k) == Group(ys, k)
    ensures Notes(xs) == Notes(ys) && Tokens(xs) == Tokens(ys)
  {
    assert forall k :: Merged(xs, k) == Merged(ys, k);
  }

  lemma SameCaptions(xs: seq<Event>, ys: seq<Event>)
    requires Collections(xs) == Collections(ys) && forall k :: Group(xs, k) == Group(ys, k)
    ensures Created(xs) == Created(ys) && Captions(xs) == Captions(ys)
  {
    assert forall k :: Merged(xs, k) == Merged(ys, k);
  }

  lemma {:induction false} LastCaptionIs(before: Option<string>, captions: map<string, string>, order: seq<string>)
    ensures
      if exists k :: k in order && k in captions
      then exists k :: k in order && k in captions && LastCaption(before, captions, order) == Some(captions[k])
      else LastCaption(before, captions, order) == before
  {
    if order != [] {
      LastCaptionIs(before, captions, order[..|order| - 1]);
      assert order == order[..|order| - 1] + [order[|order| - 1]];
    }
  }

  /** Some order of a set has a given element last. */
  lemma {:induction false} OrderEndingIn(all: set<string>, k: string) returns (order: seq<string>)
    requires k in all
    ensures Lists(order, all) && order[|order| - 1] == k
    decreases all
  {
    var rest := all - {k};
    if rest == {} {
      order := [k];
      assert forall x :: x in all && x != k ==> x in rest;
    } else {
      var j :| j in rest;
      var front := OrderEndingIn(rest, j);
      order := front + [k];
    }
  }

  /** The caption is the same for every order in which the collections can be visited if and only if no two of them have
      different captions. */
  lemma CaptionIsDeterminedIff(t: Tally, events: seq<Event>)
    ensures
      (forall x, y :: Lists(x, Collections(events)) && Lists(y, Collections(events)) ==>
         AddInOrder(t, events, x).caption == AddInOrder(t, events, y).caption)
      <==> forall j, k :: j in Captions(events) && k in Captions(events) ==> Captions(events)[j] == Captions(events)[k]
  {
    var captions := Captions(events);
    if forall j, k :: j in captions && k in captions ==> captions[j] == captions[k] {
      forall x, y | Lists(x, Collections(events)) && Lists(y, Collections(events))
        ensures AddInOrder(t, events, x).caption == AddInOrder(t, events, y).caption
      {
        AllShares(t, events, x);
        AllShares(t, events, y);
        LastCaptionIs(t.caption, captions, x);
        LastCaptionIs(t.caption, captions, y);
      }
    } else {
      var j, k :| j in captions && k in captions && captions[j] != captions[k];
      var x := OrderEndingIn(Collections(events), j);
      var y := OrderEndingIn(Collections(events), k);
      AllShares(t, events, x);
      AllShares(t, events, y);
      assert AddInOrder(t, events, x).caption != AddInOrder(t, events, y).caption;
    }
  }

  /** Two collections with a caption each: the one that is visited last decides. */
  lemma OrderDecidesCaption(t: Tally, a: Event, b: Event)
    requires IsCollectionEvent(a) && IsCollectionEvent(b) && a.collection != b.collection
    requires Text(a.caption) != "" && Text(b.caption) != ""
    ensures
      var x, y := [b.collection, a.collection], [a.collection, b.collection];
      && Lists(x, Collections([a, b])) && AddInOrder(t, [a, b], x).caption == Some(Text(a.caption))
      && Lists(y, Collections([a, b])) && AddInOrder(t, [a, b], y).caption == Some(Text(b.caption))
  {
    TwoCollections(a, b);
    OneOrder(t, [a, b], b.collection, a.collection);
    OneOrder(t, [a, b], a.collection, b.collection);
  }

  lemma OneOrder(t: Tally, events: seq<Event>, j: string, k: string)
    requires Collections(events) == {j, k} && j != k && Text(Merged(events, k).event.caption) != ""
    ensures Lists([j, k], Collections(events))
    ensures AddInOrder(t, events, [j, k]).caption == Some(Text(Merged(events, k).event.caption))
  {
    assert k in Collections(events) && k in Captions(events);
    LastVisitedDecides(t, events, [j, k]);
  }

  lemma LastVisitedDecides(t: Tally, events: seq<Event>, order: seq<string>)
    requires Lists(order, Collections(events)) && order != [] && order[|order| - 1] in Captions(events)
    ensures AddInOrder(t, events, order).caption == Some(Captions(events)[order[|order| - 1]])
  {
    AllShares(t, events, order);
  }

  lemma TwoCollections(a: Event, b: Event)
    requires IsCollectionEvent(a) && IsCollectionEvent(b) && a.collection != b.collection
    ensures Collections([a, b]) == {a.collection, b.collection}
    ensures Group([a, b], a.collection) == [a] && Group([a, b], b.collection) == [b]
    ensures Text(Merged([a, b], a.collection).event.caption) == Text(a.caption)
    ensures Text(Merged([a, b], b.collection).event.caption) == Text(b.caption)
  {
    assert [a, b][..1] == [a] && [a][..0] == [] && [b][..0] == [];
    assert a in [a, b] && b in [a, b];
    assert Group([a], a.collection) == [a] && Group([a], b.collection) == [];
    assert Fold(NOTHING, [a]) == Step(NOTHING, a) && Fold(NOTHING, [b]) == Step(NOTHING, b);
  }

  // ----- The pointers into the loop's variable

  /** If some event has a group, the group ID is the last event's, even where that has none; likewise the caption. */
  lemma PointersSeeTheLastEvent(before: Option<string>, events: seq<Event>)
    ensures
      if exists i :: 0 <= i < |events| && events[i].group != None
      then GroupAfter(before, events) ==
        (if events[|events| - 1].group == None then Some("") else events[|events| - 1].group)
      else GroupAfter(before, events) == before
    ensures
      if exists i :: 0 <= i < |events| && !Blank(events[i].caption)
      then CaptionScanned(before, events) ==
        (if events[|events| - 1].caption == None then Some("") else events[|events| - 1].caption)
      else CaptionScanned(before, events) == before
  {
    forall i | 0 <= i < |events|
      ensures events[i] in events
    {
    }
  }

  /** The group ID is that of the last event that has one if and only if no event has one, the last event has one, or
      that group's ID is empty. */
  lemma GroupIsLastIff(before: Option<string>, events: seq<Event>)
    ensures
      var groups := Map((e: Event) => e.group, events);
      GroupAfter(before, events) == (if HasGroup(events) then Some(LastSome("", groups)) else before)
      <==> !HasGroup(events) || events[|events| - 1].group.Some? || LastSome("", groups) == ""
  {
  }

  /** The scanned caption is that of the last event that has one if and only if no event has one or the last event
      has. */
  lemma CaptionIsLastIff(before: Option<string>, events: seq<Event>)
    ensures
      var captions := Map((e: Event) => if Text(e.caption) != "" then Some(Text(e.caption)) else None, events);
      CaptionScanned(before, events) == (if HasCaption(events) then Some(LastSome("", captions)) else before)
      <==> !HasCaption(events) || Text(events[|events| - 1].caption) != ""
  {
    var captions := Map((e: Event) => if Text(e.caption) != "" then Some(Text(e.caption)) else None, events);
    if HasCaption(events) {
      var e :| e in events && Text(e.caption) != "";
      var i :| 0 <= i < |events| && events[i] == e;
      LastSomeIsSome(captions, i);
    }
  }

  lemma {:induction false} LastSomeIsSome(xs: seq<Option<string>>, i: nat)
    requires i < |xs| && xs[i].Some? && forall x :: x in xs && x.Some? ==> x.value != ""
    ensures LastSome("", xs) != ""
  {
    var last := xs[|xs| - 1];
    assert last in xs;
    if last.None? {
      LastSomeIsSome(xs[..|xs| - 1], i);
    }
  }

  /** Two gallery updates, of which only the first has a group and a caption: both are there and empty. */
  lemma LastEventHidesBoth()
    ensures
      var first := NO_EVENT.(action := GALLERY_INFO_UPDATED, caption := Some("x"), group := Some("g"));
      var second := NO_EVENT.(action := GALLERY_INFO_UPDATED);
      GroupAfter(None, [first, second]) == Some("") && CaptionScanned(None, [first, second]) == Some("")
  {
    var first := NO_EVENT.(action := GALLERY_INFO_UPDATED, caption := Some("x"), group := Some("g"));
    var second := NO_EVENT.(action := GALLERY_INFO_UPDATED);
    assert first in [first, second];
  }

  predicate HasName(e: Event) {
    e.action == "GalleryInfoUpdated" && e.data.galleryName != None
  }

  predicate HasDescription(e: Event) {
    e.action == "GalleryInfoUpdated" && e.data.galleryDescription != None
  }

  lemma LastScanned(s: Fields, events: seq<Event>)
    requires events != []
    ensures
      var before, after, last := Scan(s, events[..|events| - 1]), Scan(s, events), events[|events| - 1];
      && after.eventTime == last.createdAt
      && (if HasName(last) then Some(after.galleryName) == last.data.galleryName
          else after.galleryName == before.galleryName)
      && (if HasDescription(last) then Some(after.galleryDescription) == last.data.galleryDescription
          else after.galleryDescription == before.galleryDescription)
  {
  }

  /** The scanned time is the last event's; the name is the last one that an update of the gallery's information has. */
  lemma {:induction false} ScanMeaning(s: Fields, events: seq<Event>, k: nat)
    requires k < |events| && HasName(events[k]) && forall j :: k < j < |events| ==> !HasName(events[j])
    ensures Scan(s, events).eventTime == events[|events| - 1].createdAt
    ensures Some(Scan(s, events).galleryName) == events[k].data.galleryName
  {
    LastScanned(s, events);
    if k < |events| - 1 {
      ScanMeaning(s, events[..|events| - 1], k);
    }
  }

  /** Likewise the description. */
  lemma {:induction false} ScannedDescription(s: Fields, events: seq<Event>, k: nat)
    requires k < |events| && HasDescription(events[k])
    requires forall j :: k < j < |events| ==> !HasDescription(events[j])
    ensures Some(Scan(s, events).galleryDescription) == events[k].data.galleryDescription
  {
    LastScanned(s, events);
    if k < |events| - 1 {
      ScannedDescription(s, events[..|events| - 1], k);
    }
  }

  /** Without such an event they stay. */
  lemma {:induction false} InfoStays(s: Fields, events: seq<Event>)
    ensures (forall j :: 0 <= j < |events| ==> !HasName(events[j])) ==>
              Scan(s, events).galleryName == s.galleryName
    ensures (forall j :: 0 <= j < |events| ==> !HasDescription(events[j])) ==>
              Scan(s, events).galleryDescription == s.galleryDescription
  {
    if events != [] {
      LastScanned(s, events);
      InfoStays(s, events[..|events| - 1]);
    }
  }

  lemma {:induction false} ScanFirsts(s: Fields, events: seq<Event>)
    ensures Scan(s, events).galleryId == FirstText(s.galleryId, Map((e: Event) => e.gallery, events))
    ensures Scan(s, events).actorId == FirstText(s.actorId, Map((e: Event) => Text(e.actor), events))
  {
    if events != [] {
      var front, last := events[..|events| - 1], events[|events| - 1];
      ScanFirsts(s, front);
      assert events == front + [last];
      MapSnoc((e: Event) => e.gallery, front, last);
      MapSnoc((e: Event) => Text(e.actor), front, last);
      FirstTextSnoc(s.galleryId, Map((e: Event) => e.gallery, front), last.gallery);
      FirstTextSnoc(s.actorId, Map((e: Event) => Text(e.actor), front), Text(last.actor));
    }
  }

  function TokenNote(notes: map<string, map<string, string>>, k: string, token: string): Option<string> {
    if k in notes && token in notes[k] then Some(notes[k][token]) else None
  }

  predicate NotesToken(e: Event, k: string, token: string) {
    e.action == "CollectorsNoteAddedToToken" && e.collection == k && e.token == token
  }

  lemma AddTokenNoteIs(notes: map<string, map<string, string>>, e: Event, k: string, token: string)
    ensures
      TokenNote(AddTokenNote(notes, e), k, token) ==
      if NotesToken(e, k, token) then Some(e.data.tokenNote) else TokenNote(notes, k, token)
  {
  }

  lemma ScannedNote(s: Fields, events: seq<Event>, k: string, token: string)
    requires events != []
    ensures
      var front, last := events[..|events| - 1], events[|events| - 1];
      TokenNote(Scan(s, events).tokenNotes, k, token) ==
      if NotesToken(last, k, token) then Some(last.data.tokenNote)
      else TokenNote(Scan(s, front).tokenNotes, k, token)
  {
    var front, last := events[..|events| - 1], events[|events| - 1];
    AddTokenNoteIs(Scan(s, front).tokenNotes, last, k, token);
  }

  /** A token's note is the one last written for it. */
  lemma {:induction false} TokenNoteIsLast(s: Fields, events: seq<Event>, i: nat, k: string, token: string)
    requires i < |events| && NotesToken(events[i], k, token)
    requires forall j :: i < j < |events| ==> !NotesToken(events[j], k, token)
    ensures TokenNote(Scan(s, events).tokenNotes, k, token) == Some(events[i].data.tokenNote)
  {
    ScannedNote(s, events, k, token);
    if i < |events| - 1 {
      TokenNoteIsLast(s, events[..|events| - 1], i, k, token);
    }
  }

  /** A token that no event is about keeps its note. */
  lemma {:induction false} OtherNotesStay(s: Fields, events: seq<Event>, k: string, token: string)
    requires forall j :: 0 <= j < |events| ==> !NotesToken(events[j], k, token)
    ensures TokenNote(Scan(s, events).tokenNotes, k, token) == TokenNote(s.tokenNotes, k, token)
  {
    if events != [] {
      ScannedNote(s, events, k, token);
      OtherNotesStay(s, events[..|events| - 1], k, token);
    }
  }
}
