/** RunMigrations of db/migrate.go: a range of versions is applied by two database roles in turn.  The driver
    (golang-migrate) is modelled by what it does to the version table; the migration directory holds the
    versions 1 to `top`. */
module Migrate {
  import opened Options

  datatype Role = Super | Gallery

  /** What opening a client for the migrator role gives. */
  datatype Client = Opened | NoRole | Refused

  datatype Error =
    | SuperRequired
    | NoChange
    | IsDirty
    | NotExist
    | FailedAt(version: nat)
    | CannotConnect

  datatype Outcome = Ok | Failed(error: Error) | Panic

  /** One change of the schema: `version` applied, or (unless `up`) taken back, by `role`. */
  datatype Change = Change(version: nat, role: Role, up: bool)

  /** `supers` are the versions flagged for the superuser and `last` the one superMigrations reports;
      `appRole` says whether the role that SuperUserRequired connects with exists; `client(v)` is what opening the
      migrator role gives when the database is at version `v`; `runs` says which changes succeed. */
  datatype World = World(
    supers: set<nat>,
    last: nat,
    top: nat,
    appRole: bool,
    client: nat -> Client,
    runs: Change -> bool)

  // ----- What is promised

  /** The role that is to apply a version. */
  function Owner(w: World, v: nat): Role {
    if v in w.supers && v <= w.last then Super else Gallery
  }

  /** The versions after `a` up to `b`, in order, each by its owner. */
  function Assigned(w: World, a: nat, b: nat): (changes: seq<Change>)
    ensures |changes| == if a <= b then b - a else 0
  {
    if a >= b then [] else Assigned(w, a, b - 1) + [Change(b, Owner(w, b), true)]
  }

  /** The versions after `a` up to `b`, in order, all by one role. */
  function AllBy(role: Role, a: nat, b: nat): seq<Change> {
    if a >= b then [] else AllBy(role, a, b - 1) + [Change(b, role, true)]
  }

  /** The versions from `a` down to the one after `b` taken back. */
  function AllDown(role: Role, a: nat, b: nat): seq<Change>
    decreases a
  {
    if a <= b then [] else [Change(a, role, false)] + AllDown(role, a - 1, b)
  }

  /** Taking back goes down one version at a time and ends above `b`. */
  lemma {:induction false} AllDownAt(role: Role, a: nat, b: nat, k: nat)
    requires b <= a && k < a - b
    ensures |AllDown(role, a, b)| == a - b && AllDown(role, a, b)[k] == Change(a - k, role, false)
    decreases a
  {
    if b < a - 1 {
      AllDownAt(role, a - 1, b, if k == 0 then 0 else k - 1);
    }
  }

  lemma {:induction false} AssignedToOne(w: World, role: Role, a: nat, b: nat)
    requires forall v :: a < v <= b ==> Owner(w, v) == role
    ensures AllBy(role, a, b) == Assigned(w, a, b)
    decreases b
  {
    if a < b {
      AssignedToOne(w, role, a, b - 1);
    }
  }

  lemma {:induction false} AssignedConcat(w: World, a: nat, b: nat, c: nat)
    requires a <= b <= c
    ensures Assigned(w, a, b) + Assigned(w, b, c) == Assigned(w, a, c)
    decreases c
  {
    if b < c {
      AssignedConcat(w, a, b, c - 1);
    }
  }

  lemma {:induction false} AssignedAt(w: World, a: nat, b: nat, k: nat)
    requires a <= b && k < b - a
    ensures Assigned(w, a, b)[k] == Change(a + 1 + k, Owner(w, a + 1 + k), true)
    decreases b
  {
    if k < b - 1 - a {
      AssignedAt(w, a, b - 1, k);
    }
  }

  /** Every version is applied once, in ascending order, and by the role its file asks for, if and only if no
      flagged version beyond `a` comes after the reported last one. */
  lemma RoleCorrectIff(w: World, a: nat, b: nat)
    requires a <= b
    ensures
      var changes := Assigned(w, a, b);
      && |changes| == b - a
      && (forall k :: 0 <= k < |changes| ==> changes[k].version == a + 1 + k && changes[k].up)
      && ((forall k :: 0 <= k < |changes| ==> (changes[k].role == Super <==> changes[k].version in w.supers))
          <==> forall v :: v in w.supers && a < v <= b ==> v <= w.last)
  {
    var changes := Assigned(w, a, b);
    forall k: nat | k < |changes| ensures changes[k] == Change(a + 1 + k, Owner(w, a + 1 + k), true) {
      AssignedAt(w, a, b, k);
    }
    forall v | v in w.supers && a < v <= b && v > w.last
      ensures changes[v - a - 1].role != Super && changes[v - a - 1].version in w.supers
    {
      AssignedAt(w, a, b, v - a - 1);
    }
  }

  // ----- The migration driver

  /** The driver refused before it changed anything. */
  predicate Declined(error: Option<Error>) {
    error.Some? && (error.value.IsDirty? || error.value.NotExist? || error.value.NoChange?)
  }

  class Database {
    var version: nat
    var dirty: bool
    var log: seq<Change>
    /** Start and target of every call of Migrate. */
    ghost var moves: seq<(nat, nat)>

    constructor (version: nat)
      ensures this.version == version && !dirty && log == [] && moves == []
    {
      this.version, dirty, log, moves := version, false, [], [];
    }

    /** Applies versions up to `target`; a version that fails leaves the database dirty at that version. */
    method Advance(w: World, role: Role, target: nat) returns (error: Option<Error>)
      requires !dirty && version <= target
      modifies this`version, this`dirty, this`log
      ensures error.None? ==> version == target && !dirty && log == old(log) + AllBy(role, old(version), target)
      ensures error.Some? ==> error.value.FailedAt?
      ensures error.Some? ==>
                && old(version) < version <= target && dirty && error.value == FailedAt(version)
                && log == old(log) + AllBy(role, old(version), version - 1)
                && !w.runs(Change(version, role, true))
    {
      while version < target
        invariant old(version) <= version <= target && !dirty
        invariant log == old(log) + AllBy(role, old(version), version)
      {
        var change := Change(version + 1, role, true);
        version := version + 1;
        if !w.runs(change) {
          dirty := true;
          return Some(FailedAt(version));
        }
        log := log + [change];
      }
      return None;
    }

    method Retreat(w: World, role: Role, target: nat) returns (error: Option<Error>)
      requires !dirty && target <= version
      modifies this`version, this`dirty, this`log
      ensures error.None? ==> version == target && !dirty && log == old(log) + AllDown(role, old(version), target)
      ensures error.Some? ==> error.value.FailedAt? && dirty && target <= version < old(version)
    {
      ghost var all := log + AllDown(role, version, target);
      while target < version
        invariant target <= version <= old(version) && !dirty
        invariant all == log + AllDown(role, version, target)
      {
        var change := Change(version, role, false);
        version := version - 1;
        if !w.runs(change) {
          dirty := true;
          return Some(FailedAt(version));
        }
        log := log + [change];
      }
      return None;
    }

    method Migrate(w: World, role: Role, target: nat) returns (error: Option<Error>)
      modifies this
      ensures moves == old(moves) + [(old(version), target)]
      ensures old(dirty) ==> error == Some(IsDirty)
      ensures !old(dirty) && (old(version) > w.top || !(1 <= target <= w.top)) ==> error == Some(NotExist)
      ensures !old(dirty) && old(version) == target && 1 <= target <= w.top ==> error == Some(NoChange)
      ensures Declined(error) ==>
                version == old(version) && dirty == old(dirty) && log == old(log)
      ensures error == Some(NoChange) ==> old(version) == target
      ensures error.None? && old(version) < target ==>
                && version == target && !dirty && !old(dirty) && target <= w.top
                && log == old(log) + AllBy(role, old(version), target)
      ensures error.None? && target < old(version) ==>
                version == target && !dirty && log == old(log) + AllDown(role, old(version), target)
      ensures error.Some? && old(version) < target && error.value.FailedAt? ==>
                && old(version) < version <= target && dirty
                && error.value == FailedAt(version) && !w.runs(Change(version, role, true))
                && log == old(log) + AllBy(role, old(version), version - 1)
      ensures error.Some? ==> Declined(error) || error.value.FailedAt?
      ensures error == Some(NotExist) ==> old(version) > w.top || !(1 <= target <= w.top)
      ensures error == Some(IsDirty) ==> old(dirty)
    {
      moves := moves + [(version, target)];
      if dirty {
        return Some(IsDirty);
      }
      if version > w.top || !(1 <= target <= w.top) {
        return Some(NotExist);
      }
      if version == target {
        return Some(NoChange);
      }
      if version < target {
        error := Advance(w, role, target);
      } else {
        error := Retreat(w, role, target);
      }
    }

    /** Applies all that is left. */
    method Up(w: World, role: Role) returns (error: Option<Error>)
      modifies this`version, this`dirty, this`log
      ensures old(dirty) ==> error == Some(IsDirty)
      ensures !old(dirty) && (old(version) > w.top || w.top == 0) ==> error == Some(NotExist)
      ensures !old(dirty) && old(version) == w.top > 0 ==> error == Some(NoChange)
      ensures Declined(error) ==>
                version == old(version) && dirty == old(dirty) && log == old(log)
      ensures error.None? ==>
                && version == w.top > old(version) && !dirty && !old(dirty)
                && log == old(log) + AllBy(role, old(version), w.top)
      ensures error.Some? && error.value.FailedAt? ==>
                && old(version) < version <= w.top && dirty
                && error.value == FailedAt(version) && !w.runs(Change(version, role, true))
                && log == old(log) + AllBy(role, old(version), version - 1)
      ensures error.Some? ==> Declined(error) || error.value.FailedAt?
      ensures error == Some(NotExist) ==> old(version) > w.top || w.top == 0
      ensures error == Some(NoChange) ==> old(version) == w.top
      ensures error == Some(IsDirty) <==> old(dirty)
    {
      if dirty {
        return Some(IsDirty);
      }
      if version > w.top || w.top == 0 {
        return Some(NotExist);
      }
      if version == w.top {
        return Some(NoChange);
      }
      error := Advance(w, role, w.top);
    }
  }

  // ----- RunMigrations

  predicate SuperUserRequired(w: World, version: nat) {
    !w.appRole || version < w.last
  }

  /** When the reported last version is one of the flagged ones, a superuser is needed exactly if the app's role is not
      there or a flagged version up to the last one is still to be applied. */
  lemma SuperUserRequiredIff(w: World, version: nat)
    requires w.last == 0 || w.last in w.supers
    ensures
      SuperUserRequired(w, version)
      <==> !w.appRole || exists v :: v in w.supers && version < v <= w.last
  {
    if w.appRole && version < w.last {
      assert w.last in w.supers;
    }
  }

  /** The superuser's first streak ends before the last flagged version and brings the migrator role. */
  ghost predicate Rescued(w: World, cur: nat) {
    exists gap :: cur + 1 < gap <= w.last && RescuedAt(w, cur, gap)
  }

  ghost predicate RescuedAt(w: World, cur: nat, gap: nat) {
    && gap > 0 && gap !in w.supers
    && (forall v :: cur < v < gap ==> v in w.supers)
    && w.client(gap - 1) == Opened
  }

  /** The migrator role is never there when it is needed. */
  ghost predicate Stranded(w: World, cur: nat) {
    w.client(cur) == NoRole && !Rescued(w, cur)
  }

  /** The migrator role is missed exactly when it is not there at the start and not after the first streak of flagged
      versions either, if that begins at once and an unflagged version up to the last flagged one follows it. */
  lemma StrandedIff(w: World, cur: nat)
    ensures
      Stranded(w, cur) <==>
        && w.client(cur) == NoRole
        && forall gap: nat ::
          (cur + 1 < gap <= w.last && gap !in w.supers && (forall v :: cur < v < gap ==> v in w.supers)) ==>
            w.client(gap - 1) != Opened
  {
    if w.client(cur) == NoRole {
      if Rescued(w, cur) {
        var gap :| cur + 1 < gap <= w.last && RescuedAt(w, cur, gap);
        assert gap !in w.supers && w.client(gap - 1) == Opened;
      } else {
        forall gap: nat | cur + 1 < gap <= w.last && gap !in w.supers && forall v :: cur < v < gap ==> v in w.supers
          ensures w.client(gap - 1) != Opened
        {
          assert !RescuedAt(w, cur, gap);
        }
      }
    }
  }

  /** Nothing goes wrong but, possibly, the migrator role missing. */
  ghost predicate Smooth(w: World, version: nat, dirty: bool) {
    && !dirty && version <= w.top && 0 < w.top
    && w.last <= w.top && (w.last == 0 || w.last in w.supers)
    && (forall v :: 0 <= v ==> w.client(v) != Refused)
    && (forall change :: w.runs(change))
  }

  /** Why RunMigrations stops with an error after it has started. */
  ghost predicate Cause(w: World, cur: nat, dirty: bool, error: Error) {
    match error
    case IsDirty => dirty
    case NotExist => cur > w.top || w.last > w.top || w.top == 0
    case CannotConnect => exists v: nat :: w.client(v) == Refused
    case FailedAt(v) => cur < v && !w.runs(Change(v, Owner(w, v), true))
    case NoChange => false
    case SuperRequired => false
  }

  lemma NoCause(w: World, cur: nat, dirty: bool)
    ensures Smooth(w, cur, dirty) ==> forall error :: !Cause(w, cur, dirty, error)
  {
  }

  /** How far the database is while `ver` is looked at: everything between is one streak that is still to be
      applied. */
  ghost predicate Pending(w: World, cur: nat, ver: nat, streak: bool, version: nat) {
    && cur <= version < ver
    && (forall v :: version < v < ver ==> (v in w.supers <==> streak))
    && (streak ==> version < ver - 1)
    && (!streak && version != cur ==> version < ver - 1)
  }

  /** What is known of the migrator's client. */
  ghost predicate ClientOk(w: World, cur: nat, ver: nat, streak: bool, version: nat, loaded: bool) {
    if loaded then w.client(cur) == Opened || Rescued(w, cur)
    else
      && w.client(cur) == NoRole
      && (|| ver == cur + 1
          || (streak && version == cur)
          || (!streak && version == cur && cur + 1 !in w.supers)
          || (!streak && cur < version && version + 1 !in w.supers && w.client(version) != Opened
              && forall v :: cur < v <= version ==> v in w.supers))
  }

  /** A run without a client for the migrator that meets a second streak, or ends, was never going to get one. */
  lemma NoRescue(w: World, cur: nat, ver: nat, streak: bool, version: nat)
    requires Pending(w, cur, ver, streak, version) && ClientOk(w, cur, ver, streak, version, false)
    requires ver == w.last + 1 || (ver <= w.last && !streak && ver != cur + 1) || w.last <= cur
    ensures Stranded(w, cur)
  {
  }

  /** An explicit Migrate of a whole streak. */
  method MoveTo(db: Database, w: World, role: Role, cur: nat, target: nat, ghost base: seq<Change>)
    returns (error: Option<Error>)
    requires cur <= db.version < target <= w.last && db.log == base + Assigned(w, cur, db.version)
    requires forall v :: db.version < v <= target ==> Owner(w, v) == role
    modifies db
    ensures db.moves == old(db.moves) + [(old(db.version), target)]
    ensures error.Some? ==> Cause(w, cur, old(db.dirty), error.value)
    ensures error.None? ==> db.version == target && db.dirty == old(db.dirty)
    ensures error.None? || !error.value.FailedAt? ==> db.dirty == old(db.dirty)
    ensures error.Some? && !error.value.FailedAt? ==> db.version == old(db.version) && db.log == old(db.log)
    ensures error.None? ==> db.log == base + Assigned(w, cur, target)
    ensures error.Some? && error.value.FailedAt? ==>
              && db.dirty && !old(db.dirty) && old(db.version) < db.version && error == Some(FailedAt(db.version))
              && db.log == base + Assigned(w, cur, db.version - 1)
  {
    error := db.Migrate(w, role, target);
    if error.None? {
      AssignedToOne(w, role, old(db.version), target);
      AssignedConcat(w, cur, old(db.version), target);
    } else if error.value.FailedAt? {
      AssignedToOne(w, role, old(db.version), db.version - 1);
      AssignedConcat(w, cur, old(db.version), db.version - 1);
    }
  }

  /** What one explicit Migrate leaves behind in the database, whether RunMigrations goes on or stops. */
  twostate predicate Moved(db: Database, w: World, cur: nat, base: seq<Change>, new stop: Option<Outcome>)
    reads db
  {
    && |old(db.moves)| <= |db.moves|
    && db.moves[..|old(db.moves)|] == old(db.moves)
    && (forall k :: |old(db.moves)| <= k < |db.moves| ==> db.moves[k].0 < db.moves[k].1)
    && (stop.Some? ==> !stop.value.Ok?)
    && (stop.Some? && stop.value.Failed? ==> Cause(w, cur, old(db.dirty), stop.value.error))
    && (stop.Some? && stop.value.Panic? ==> Stranded(w, cur))
    && (stop.None? ==> db.dirty == old(db.dirty))
    && cur <= db.version
    && (if db.dirty == old(db.dirty) then db.log == base + Assigned(w, cur, db.version)
        else
          && !old(db.dirty) && cur < db.version && stop == Some(Failed(FailedAt(db.version)))
          && db.log == base + Assigned(w, cur, db.version - 1))
  }

  /** The migrator applies what lies before a streak that starts at `ver`. */
  method BeforeStreak(db: Database, w: World, cur: nat, ver: nat, gallery: bool, ghost base: seq<Change>)
    returns (stop: Option<Outcome>)
    requires cur < ver <= w.last && ver in w.supers && db.log == base + Assigned(w, cur, db.version)
    requires Pending(w, cur, ver, false, db.version) && ClientOk(w, cur, ver, false, db.version, gallery)
    modifies db
    ensures Moved(db, w, cur, base, stop)
    ensures stop.None? ==>
              Pending(w, cur, ver + 1, true, db.version) && ClientOk(w, cur, ver + 1, true, db.version, gallery)
  {
    if ver - 1 == cur {
      return None;
    }
    if !gallery {
      NoRescue(w, cur, ver, false, db.version);
      return Some(Panic);
    }
    var error := MoveTo(db, w, Gallery, cur, ver - 1, base);
    return if error.None? then None else Some(Failed(error.value));
  }

  /** The superuser applies the streak that ended before `ver`, and the migrator role is looked for again. */
  method AfterStreak(db: Database, w: World, cur: nat, ver: nat, loaded: bool, ghost base: seq<Change>)
    returns (stop: Option<Outcome>, gallery: bool)
    requires cur < ver <= w.last && ver !in w.supers && db.log == base + Assigned(w, cur, db.version)
    requires Pending(w, cur, ver, true, db.version) && ClientOk(w, cur, ver, true, db.version, loaded)
    modifies db
    ensures Moved(db, w, cur, base, stop)
    ensures stop.None? ==>
              Pending(w, cur, ver + 1, false, db.version) && ClientOk(w, cur, ver + 1, false, db.version, gallery)
  {
    gallery := loaded;
    assert !loaded ==> forall v :: cur < v < ver ==> v in w.supers;
    var error := MoveTo(db, w, Super, cur, ver - 1, base);
    if error.Some? {
      return Some(Failed(error.value)), gallery;
    }
    if !gallery {
      match w.client(db.version)
      case Opened =>
        assert RescuedAt(w, cur, ver);
        gallery := true;
      case NoRole =>
      case Refused =>
        return Some(Failed(CannotConnect)), gallery;
    }
    return None, gallery;
  }

  /** One turn of the loop. */
  method OneVersion(db: Database, w: World, cur: nat, ver: nat, inStreak: bool, loaded: bool, ghost base: seq<Change>)
    returns (stop: Option<Outcome>, streak: bool, gallery: bool)
    requires cur < ver <= w.last && db.log == base + Assigned(w, cur, db.version)
    requires Pending(w, cur, ver, inStreak, db.version) && ClientOk(w, cur, ver, inStreak, db.version, loaded)
    modifies db
    ensures Moved(db, w, cur, base, stop)
    ensures stop.None? ==>
              && Pending(w, cur, ver + 1, streak, db.version) && ClientOk(w, cur, ver + 1, streak, db.version, gallery)
              && (ver in w.supers ==> streak)
  {
    stop, streak, gallery := None, inStreak, loaded;
    if !streak && ver in w.supers {
      streak := true;
      stop := BeforeStreak(db, w, cur, ver, gallery, base);
    } else if streak && ver !in w.supers {
      streak := false;
      stop, gallery := AfterStreak(db, w, cur, ver, gallery, base);
    }
  }

  /** The loop over the versions up to the last flagged one.  `stop` is what RunMigrations returns from inside. */
  method RunStreaks(db: Database, w: World, cur: nat, loaded: bool) returns (stop: Option<Outcome>, gallery: bool)
    requires cur == db.version && w.client(cur) == (if loaded then Opened else NoRole)
    modifies db
    ensures Moved(db, w, cur, old(db.log), stop)
    ensures stop.None? ==>
              && (forall v :: db.version < v <= w.last ==> v !in w.supers)
              && (db.version == cur || db.version <= w.last)
              && (gallery <==> !Stranded(w, cur))
  {
    stop, gallery := None, loaded;
    var streak := false;
    var ver := cur + 1;
    while ver <= w.last
      invariant stop.None?
      invariant cur < ver && (ver <= w.last + 1 || ver == cur + 1)
      invariant Pending(w, cur, ver, streak, db.version)
      invariant ClientOk(w, cur, ver, streak, db.version, gallery)
      invariant db.dirty == old(db.dirty) && db.log == old(db.log) + Assigned(w, cur, db.version)
      invariant |old(db.moves)| <= |db.moves| && db.moves[..|old(db.moves)|] == old(db.moves)
      invariant forall k :: |old(db.moves)| <= k < |db.moves| ==> db.moves[k].0 < db.moves[k].1
      invariant w.last < ver && cur < w.last && w.last in w.supers ==> streak
    {
      stop, streak, gallery := OneVersion(db, w, cur, ver, streak, gallery, old(db.log));
      if stop.Some? {
        return;
      }
      ver := ver + 1;
    }
    if !gallery {
      NoRescue(w, cur, ver, streak, db.version);
    }
    if streak {
      var error := MoveTo(db, w, Super, cur, ver - 1, old(db.log));
      if error.Some? {
        return Some(Failed(error.value)), gallery;
      }
    }
    return None, gallery;
  }

  /** A run of RunMigrations.  However it ends, the versions after the current one have been applied each once,
      in order and by its owner, up to some version; that is the top version if it ends well; every explicit
      Migrate moved forward; an error has a cause; and it panics only when the migrator role is missing. */
  method RunMigrations(superClient: bool, db: Database, w: World) returns (r: Outcome)
    modifies db
    ensures
      if (!w.appRole || old(db.version) < w.last) && !superClient then
        r == Failed(SuperRequired) && unchanged(db)
      else if w.appRole && w.last <= old(db.version) && w.client(old(db.version)) != Opened then
        r == Panic && unchanged(db)
      else
        && old(db.version) <= db.version
        && (if db.dirty == old(db.dirty)
            then db.log == old(db.log) + Assigned(w, old(db.version), db.version)
            else
              && !old(db.dirty) && old(db.version) < db.version && r == Failed(FailedAt(db.version))
              && db.log == old(db.log) + Assigned(w, old(db.version), db.version - 1))
    ensures |old(db.moves)| <= |db.moves| && db.moves[..|old(db.moves)|] == old(db.moves)
    ensures forall k :: |old(db.moves)| <= k < |db.moves| ==> db.moves[k].0 < db.moves[k].1
    ensures r.Ok? ==> db.version == w.top && !db.dirty && !Stranded(w, old(db.version))
    ensures r.Panic? && SuperUserRequired(w, old(db.version)) ==> Stranded(w, old(db.version))
    ensures r.Failed? ==>
              || (r.error.SuperRequired? && SuperUserRequired(w, old(db.version)) && !superClient)
              || (r.error.NoChange? && !SuperUserRequired(w, old(db.version)) && old(db.version) == w.top)
              || Cause(w, old(db.version), old(db.dirty), r.error)
    ensures r == Failed(NoChange)
            <==> !SuperUserRequired(w, old(db.version)) && w.client(old(db.version)) == Opened
                 && !old(db.dirty) && old(db.version) == w.top > 0
    ensures
      (&& Smooth(w, old(db.version), old(db.dirty)) && w.appRole && w.client(old(db.version)) == Opened
       && forall v :: v in w.supers && v <= w.last ==> v <= old(db.version)) ==>
        && r == (if old(db.version) == w.top then Failed(NoChange) else Ok)
        && db.version == w.top && db.log == old(db.log) + Assigned(w, old(db.version), w.top)
    ensures
      (&& Smooth(w, old(db.version), old(db.dirty)) && superClient
       && (!w.appRole || exists v :: v in w.supers && old(db.version) < v <= w.last)) ==>
        r == if Stranded(w, old(db.version)) then Panic else Ok
    ensures
      (&& Smooth(w, old(db.version), old(db.dirty)) && superClient && (!w.appRole || old(db.version) < w.last)
       && w.client(old(db.version)) == Opened) ==>
        r == Ok && db.log == old(db.log) + Assigned(w, old(db.version), w.top)
  {
    NoCause(w, db.version, db.dirty);
    if w.last == 0 || w.last in w.supers {
      SuperUserRequiredIff(w, db.version);
    }
    var cur := db.version;
    if !SuperUserRequired(w, cur) {
      if w.client(cur) != Opened {
        return Panic;
      }
      var error := UpTheRest(db, w, cur, db.log);
      return if error.None? then Ok else Failed(error.value);
    }
    if !superClient {
      return Failed(SuperRequired);
    }
    if w.client(cur) == Refused {
      return Failed(CannotConnect);
    }
    var stop, gallery := RunStreaks(db, w, cur, w.client(cur) == Opened);
    if stop.Some? {
      return stop.value;
    }
    if !gallery {
      return Panic;
    }
    var error := UpTheRest(db, w, cur, old(db.log));
    return if error.None? || error == Some(NoChange) then Ok else Failed(error.value);
  }

  /** Up, after the last flagged version. */
  method UpTheRest(db: Database, w: World, cur: nat, ghost base: seq<Change>) returns (error: Option<Error>)
    requires cur <= db.version && db.log == base + Assigned(w, cur, db.version)
    requires forall v :: db.version < v <= w.last ==> v !in w.supers
    requires db.version == cur || db.version <= w.last
    modifies db
    ensures db.moves == old(db.moves) && cur <= db.version
    ensures error.None? || error == Some(NoChange) ==> db.version == w.top && !db.dirty && !old(db.dirty)
    ensures error == Some(NoChange) <==> !old(db.dirty) && old(db.version) == w.top > 0
    ensures error.Some? && !error.value.NoChange? ==> Cause(w, cur, old(db.dirty), error.value)
    ensures if db.dirty == old(db.dirty) then db.log == base + Assigned(w, cur, db.version)
            else
              && !old(db.dirty) && cur < db.version && error == Some(FailedAt(db.version))
              && db.log == base + Assigned(w, cur, db.version - 1)
  {
    error := db.Up(w, Gallery);
    if error.None? {
      RestIsAssigned(w, cur, old(db.version), db.version, base);
    } else if error.value.FailedAt? {
      RestIsAssigned(w, cur, old(db.version), db.version - 1, base);
    }
  }

  /** What the migrator applies after the last flagged version is its own. */
  lemma RestIsAssigned(w: World, cur: nat, a: nat, b: nat, base: seq<Change>)
    requires cur <= a <= b && forall v :: a < v <= w.last ==> v !in w.supers
    ensures base + Assigned(w, cur, a) + AllBy(Gallery, a, b) == base + Assigned(w, cur, b)
  {
    AssignedToOne(w, Gallery, a, b);
    AssignedConcat(w, cur, a, b);
  }
}
