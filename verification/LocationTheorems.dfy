/**
 * No workspace is ever moved to a machine that never held it, and no repository
 * goes with the last machine that did.
 */
module LocationTheorems {
  import opened Common
  import opened LocationModel

  /** The workspaces that are still there are of the same project, and on the same machine. */
  ghost predicate Still(db: Tables, after: Tables) {
    forall w :: w in db.workspaces && w in after.workspaces ==>
      after.workspaces[w].project == db.workspaces[w].project && ServedBy(after, w) == ServedBy(db, w)
  }

  /** A change for the tables to go through: sound again, and nothing moved. */
  ghost predicate Fine(db: Tables, after: Tables) {
    Sound(after) && Still(db, after)
  }

  lemma FineTwice(a: Tables, b: Tables, c: Tables)
    requires Fine(a, b) && Fine(b, c) && c.workspaces.Keys <= b.workspaces.Keys
    ensures Fine(a, c)
  {
  }

  // --------------------------------------------------------- statement by statement

  lemma PinFine(db: Tables, d: DeviceId)
    requires Sound(db)
    ensures Fine(db, Pin(db, d)) && Pin(db, d).workspaces.Keys == db.workspaces.Keys
    ensures forall w :: w in Pin(db, d).workspaces && Pin(db, d).workspaces[w].device.None? ==> db.projects[db.workspaces[w].project].device != d
  {
  }

  /** Once its legacy workspaces are pinned, a default may move without moving anything else. */
  lemma MovedFine(db: Tables, d: DeviceId, after: Tables)
    requires Sound(db) && DefaultsMoved(db, d, after)
    requires forall w :: w in db.workspaces && db.workspaces[w].device.None? ==> db.projects[db.workspaces[w].project].device != d
    ensures Fine(db, after) && after.workspaces == db.workspaces
  {
    forall p | p in db.projects
      ensures after.projects[p].device in db.devices
      ensures db.projects[p].device != d ==> after.projects[p] == db.projects[p]
    {
    }
  }

  lemma KeepFine(db: Tables, d: DeviceId, only: Option<ProjectId>)
    requires Sound(db)
    ensures Fine(db, Keep(db, d, only)) && Keep(db, d, only).workspaces.Keys <= db.workspaces.Keys
  {
  }

  lemma ReleaseFine(db: Tables, d: DeviceId)
    requires Sound(db)
    ensures Fine(db, Release(db, d)) && Release(db, d).workspaces == db.workspaces
  {
  }

  lemma LeftFine(db: Tables, d: DeviceId, moved: Tables, after: Tables)
    requires Sound(db) && Left(db, d, moved, after)
    ensures Fine(db, after) && after.workspaces.Keys <= db.workspaces.Keys
  {
    PinFine(db, d);
    MovedFine(Pin(db, d), d, moved);
    FineTwice(db, Pin(db, d), moved);
    KeepFine(moved, d, None);
    FineTwice(db, moved, Keep(moved, d, None));
    ReleaseFine(Keep(moved, d, None), d);
    FineTwice(db, Keep(moved, d, None), after);
  }

  lemma DeleteProjectsFine(db: Tables, gone: set<ProjectId>)
    requires Sound(db)
    ensures Fine(db, DeleteProjects(db, gone))
  {
  }

  lemma DeleteDeviceFine(db: Tables, d: DeviceId)
    requires Sound(db)
    ensures Fine(db, DeleteDevice(db, d)) && DeleteDevice(db, d).workspaces.Keys <= db.workspaces.Keys
  {
  }

  lemma RemovedFine(db: Tables, d: DeviceId, moved: Tables, left: Tables, after: Tables)
    requires Sound(db) && Removed(db, d, moved, left, after)
    ensures Fine(db, after)
  {
    LeftFine(db, d, moved, left);
    DeleteDeviceFine(left, d);
    FineTwice(db, left, after);
  }

  /** A change to the workspaces alone: fit for the tables, and each where it was. */
  lemma WorkspacesOnly(db: Tables, workspaces: map<WorkspaceId, Workspace>)
    requires Sound(db)
    requires forall w :: w in workspaces ==>
      && workspaces[w].project in db.projects
      && (workspaces[w].device.Some? ==> workspaces[w].device.value in db.devices)
      && (workspaces[w].device.None? ==> db.projects[workspaces[w].project].device != NOWHERE)
    requires forall w :: w in workspaces && w in db.workspaces ==> workspaces[w] == db.workspaces[w]
    ensures Fine(db, db.(workspaces := workspaces))
  {
  }

  /** A change to the projects alone that leaves every one where it is. */
  lemma ProjectsOnly(db: Tables, projects: map<ProjectId, Project>)
    requires Sound(db) && projects.Keys == db.projects.Keys && forall p :: p in projects ==> projects[p].device == db.projects[p].device
    ensures Fine(db, db.(projects := projects))
  {
  }

  /** Machines that are added or revoked. */
  lemma DevicesOnly(db: Tables, devices: map<DeviceId, Device>)
    requires Sound(db) && db.devices.Keys <= devices.Keys && (NOWHERE in devices ==> devices[NOWHERE].revoked)
    ensures Fine(db, db.(devices := devices))
  {
  }

  lemma CloudOnly(db: Tables, cloud: map<ProjectId, Removal>)
    requires Sound(db) && cloud.Keys <= db.projects.Keys
    ensures Fine(db, db.(cloud := cloud))
  {
  }

  /** A project that lives nowhere is given a machine: it has no workspace that would follow. */
  lemma GivenFine(db: Tables, p: ProjectId, d: DeviceId, path: string)
    requires Sound(db) && p in db.projects && db.projects[p].device == NOWHERE && d in db.devices
    ensures Fine(db, db.(projects := db.projects[p := db.projects[p].(device := d, path := path)]))
  {
  }

  ghost predicate PlacesFit(db: Tables, locations: map<LocationId, Location>) {
    && (forall l :: l in locations ==> locations[l].project in db.projects)
    && (forall l :: l in locations && locations[l].device.Some? ==> locations[l].device.value in db.devices)
    && (forall l, m :: l in locations && m in locations && SamePlace(locations[l], locations[m]) ==> l == m)
  }

  /** A change to the places alone moves no workspace. */
  lemma PlacesFine(db: Tables, locations: map<LocationId, Location>)
    requires Sound(db) && PlacesFit(db, locations)
    ensures Fine(db, db.(locations := locations))
  {
  }

  lemma PutFine(db: Tables, p: ProjectId, d: DeviceId, place: Option<string>, ready: bool, l: LocationId, now: int)
    requires Sound(db)
    ensures Fine(db, Put(db, p, d, place, ready, l, now))
  {
    if p in db.projects && d in db.devices {
      if exists m :: m in db.locations && RowAt(db, p, d, m) {
        UpdateFits(db, p, d, place, ready);
        PlacesFine(db, Put(db, p, d, place, ready, l, now).locations);
      } else if l !in db.locations {
        InsertFits(db, l, Location(p, false, Some(d), place, ready, now));
        PlacesFine(db, Put(db, p, d, place, ready, l, now).locations);
      }
    }
  }

  lemma UpdateFits(db: Tables, p: ProjectId, d: DeviceId, place: Option<string>, ready: bool)
    requires Sound(db)
    ensures PlacesFit(db, map m | m in db.locations ::
      if RowAt(db, p, d, m)
      then db.locations[m].(path := if place.Some? then place else db.locations[m].path, ready := ready)
      else db.locations[m])
  {
    var updated := map m | m in db.locations ::
      if RowAt(db, p, d, m)
      then db.locations[m].(path := if place.Some? then place else db.locations[m].path, ready := ready)
      else db.locations[m];
    SamePlacesFit(db, updated);
  }

  lemma SamePlacesFit(db: Tables, locations: map<LocationId, Location>)
    requires Sound(db) && locations.Keys == db.locations.Keys
    requires forall l :: l in locations ==>
      locations[l].project == db.locations[l].project && locations[l].device == db.locations[l].device && locations[l].cloud == db.locations[l].cloud
    ensures PlacesFit(db, locations)
  {
    forall l, m | l in locations && m in locations && SamePlace(locations[l], locations[m]) ensures l == m {
      assert SamePlace(db.locations[l], db.locations[m]);
    }
  }

  lemma InsertFits(db: Tables, l: LocationId, place: Location)
    requires Sound(db) && l !in db.locations && place.project in db.projects
    requires place.device.Some? ==> place.device.value in db.devices
    requires forall m :: m in db.locations ==> !SamePlace(db.locations[m], place)
    ensures PlacesFit(db, db.locations[l := place])
  {
  }

  lemma TakeOffFine(db: Tables, p: ProjectId, given: DeviceId, l: LocationId, machine: DeviceId, isDefault: bool, last: bool)
    requires Sound(db)
    ensures Fine(db, TakeOff(db, p, given, l, machine, isDefault, last))
  {
    var cleared := db.(workspaces := map w | w in db.workspaces &&
      !(db.workspaces[w].project == p
        && (db.workspaces[w].device == Some(machine) || (db.workspaces[w].device.None? && (isDefault || last)))) :: db.workspaces[w]);
    assert Fine(db, cleared);
    KeepFine(cleared, given, Some(p));
    var kept := if last then Keep(cleared, given, Some(p)) else cleared;
    FineTwice(db, cleared, kept);
    PlacesFine(kept, kept.locations - {l});
    FineTwice(db, kept, kept.(locations := kept.locations - {l}));
  }

  lemma GiveRootFine(db: Tables, p: ProjectId, d: DeviceId, path: string)
    requires Sound(db) && d != NOWHERE
    ensures Fine(db, GiveRoot(db, p, d, path))
  {
    if d !in db.devices && p in db.cloud && db.cloud[p] == NotLeaving {
      var placed := RootPlaced(db, p, d, path);
      RootPlacedFine(db, p, d, path);
      if p in placed.projects && placed.projects[p].device == NOWHERE && (exists l :: l in placed.locations && RowAt(placed, p, d, l)) {
        GivenFine(placed, p, d, path);
        FineTwice(db, placed, GiveRoot(db, p, d, path));
      }
    }
  }

  lemma RootPlacedFine(db: Tables, p: ProjectId, d: DeviceId, path: string)
    requires Sound(db) && d != NOWHERE && d !in db.devices
    ensures Fine(db, RootPlaced(db, p, d, path))
  {
    var added := db.(devices := db.devices[d := Device(false)]);
    assert Fine(db, added);
    var placed := RootPlaced(db, p, d, path);
    RootFits(db, added, p, d, path);
    PlacesFine(added, placed.locations);
    FineTwice(db, added, placed);
  }

  lemma RootFits(db: Tables, added: Tables, p: ProjectId, d: DeviceId, path: string)
    requires Sound(db) && d !in db.devices && added == db.(devices := db.devices[d := Device(false)])
    ensures PlacesFit(added, RootPlaced(db, p, d, path).locations)
  {
  }

  // ------------------------------------------------------- the default moves

  ghost predicate HasLegacy(db: Tables, p: ProjectId) {
    exists w :: w in db.workspaces && db.workspaces[w].project == p && db.workspaces[w].device.None?
  }

  /**
   * The machine the caller believed to be the default still is, or nothing follows
   * the default, or the default does not change.
   */
  ghost predicate Harmless(db: Tables, p: ProjectId, given: DeviceId, l: LocationId, d: DeviceId) {
    d == given || !Applies(db, p, l, d) || db.projects[p].device == given || db.projects[p].device == d || !HasLegacy(db, p)
  }

  /**
   * Choosing a default leaves every workspace with its machine exactly when the
   * machine the caller believed to be the default still was, or nothing followed
   * the default, or the default did not change.
   */
  lemma ChoosingADefault(db: Tables, p: ProjectId, given: DeviceId, l: LocationId, d: DeviceId, place: Option<string>)
    requires Sound(db)
    ensures
      var after := MoveDefault(db, p, given, l, d, place);
      && after.workspaces.Keys == db.workspaces.Keys
      && (Still(db, after) <==> Harmless(db, p, given, l, d))
  {
    PinFine(db, given);
    var after := MoveDefault(db, p, given, l, d, place);
    if !Harmless(db, p, given, l, d) {
      var w :| w in db.workspaces && db.workspaces[w].project == p && db.workspaces[w].device.None?;
      assert ServedBy(after, w) == Some(d);
    }
  }

  /** A caller that read the default before another one moved it takes a workspace along to a machine that never held it. */
  lemma StaleDefaultMovesAWorkspace()
    ensures
      var db := Tables(map[1 := Device(false), 2 := Device(false), 3 := Device(false)], map[7 := Project(2, "here", true)],
                       map[5 := Location(7, false, Some(3), None, true, 0)], map[9 := Workspace(7, None)], map[]);
      Sound(db) && ServedBy(db, 9) == Some(2) && ServedBy(MoveDefault(db, 7, 1, 5, 3, None), 9) == Some(3)
  {
  }

  lemma MoveDefaultFine(db: Tables, p: ProjectId, given: DeviceId, l: LocationId, d: DeviceId, place: Option<string>)
    requires Sound(db) && d != NOWHERE && Harmless(db, p, given, l, d)
    ensures Fine(db, MoveDefault(db, p, given, l, d, place))
  {
    PinFine(db, given);
    ChoosingADefault(db, p, given, l, d, place);
  }

  /**
   * What callers see to. No place is on no machine: a place is put, and a default
   * chosen, only on a machine that stands. And a default is chosen by a caller
   * whose idea of it does no harm.
   */
  ghost predicate Believed(db: Tables, step: Step) {
    && (step.PutRow? || step.FillIn? ==> step.d != NOWHERE)
    && (step.SetDefault? ==> step.d != NOWHERE && Harmless(db, step.p, step.given, step.l, step.d))
  }

  /** Every step keeps the tables sound, and none changes the machine of a workspace that is still there after it. */
  lemma StepFine(db: Tables, step: Step, after: Tables)
    requires Sound(db) && Next(db, step, after) && Believed(db, step)
    ensures Fine(db, after)
  {
    if step.LeaveMachine? || step.RemoveMachine? {
      MachineFine(db, step, after);
    } else if Plain(step) {
      PlainFine(db, step, after);
    } else {
      match step
      case PutRow(p, d, place, ready, l, now) => PutFine(db, p, d, place, ready, l, now);
      case FillIn(p, d, cloud, l, now) => FillFine(db, p, d, cloud, l, now);
      case TakeNowhere(p, d, place) => TakeFine(db, p, d, place);
      case SetDefault(p, given, l, d, place) => MoveDefaultFine(db, p, given, l, d, place);
      case RemoveLocation(p, given, l, machine, isDefault, last) => TakeOffFine(db, p, given, l, machine, isDefault, last);
      case LeaveCloud(p, given) => KeepFine(db, given, Some(p));
      case GiveCloudRoot(p, d, path) => if d != NOWHERE { GiveRootFine(db, p, d, path); }
    }
  }

  lemma FillFine(db: Tables, p: ProjectId, d: DeviceId, cloud: bool, l: LocationId, now: int)
    requires Sound(db)
    ensures Fine(db, Fill(db, p, d, cloud, l, now))
  {
    var after := Fill(db, p, d, cloud, l, now);
    if after != db {
      InsertFits(db, l, after.locations[l]);
      PlacesFine(db, after.locations);
    }
  }

  lemma MachineFine(db: Tables, step: Step, after: Tables)
    requires Sound(db) && (step.LeaveMachine? || step.RemoveMachine?) && Next(db, step, after)
    ensures Fine(db, after)
  {
    if step.LeaveMachine? {
      var moved :| Left(db, step.d, moved, after);
      LeftFine(db, step.d, moved, after);
    } else {
      var moved, left :| Removed(db, step.d, moved, left, after);
      RemovedFine(db, step.d, moved, left, after);
    }
  }

  lemma TakeFine(db: Tables, p: ProjectId, d: DeviceId, place: Option<string>)
    requires Sound(db)
    ensures Fine(db, Take(db, p, d, place))
  {
    if p in db.projects && d in db.devices && db.projects[p].device == NOWHERE { GivenFine(db, p, d, Coalesce(place, db.projects[p].path)); }
  }

  lemma PlainFine(db: Tables, step: Step, after: Tables)
    requires Sound(db) && Next(db, step, after)
    ensures Plain(step) ==> Fine(db, after)
  {
    if step.CreateProject? { CreateFine(db, step, after); }
    else if step.AddCloud? { AddCloudFine(db, step, after); }
    else if step.FinishCloud? { FinishFine(db, step.p, after); }
    else if step.AddWorkspace? || step.DropWorkspace? { WorkspaceFine(db, step, after); }
    else if step.AddDevice? || step.Revoke? { DeviceFine(db, step, after); }
    else if step.HealRepository? || step.SetPath? { ProjectFine(db, step, after); }
    else if step.Mark? { MarkFine(db, step, after); }
  }

  lemma MarkFine(db: Tables, step: Step, after: Tables)
    requires Sound(db) && step.Mark? && Next(db, step, after)
    ensures Fine(db, after)
  {
    CloudOnly(db, if step.p in db.cloud then db.cloud[step.p := step.removal] else db.cloud);
  }

  predicate Plain(step: Step) {
    || step.AddDevice? || step.Revoke? || step.HealRepository? || step.AddWorkspace? || step.DropWorkspace?
    || step.Mark? || step.SetPath? || step.CreateProject? || step.AddCloud? || step.FinishCloud?
  }

  lemma WorkspaceFine(db: Tables, step: Step, after: Tables)
    requires Sound(db) && (step.AddWorkspace? || step.DropWorkspace?) && Next(db, step, after)
    ensures Fine(db, after)
  {
    WorkspacesOnly(db, after.workspaces);
  }

  lemma DeviceFine(db: Tables, step: Step, after: Tables)
    requires Sound(db) && (step.AddDevice? || step.Revoke?) && Next(db, step, after)
    ensures Fine(db, after)
  {
    DevicesOnly(db, after.devices);
  }

  lemma ProjectFine(db: Tables, step: Step, after: Tables)
    requires Sound(db) && (step.HealRepository? || step.SetPath?) && Next(db, step, after)
    ensures Fine(db, after)
  {
    ProjectsOnly(db, after.projects);
  }

  lemma CreateFine(db: Tables, step: Step, after: Tables)
    requires Sound(db) && step.CreateProject? && Next(db, step, after)
    ensures Fine(db, after)
  {
    if after != db {
      var made := db.(projects := db.projects[step.p := Project(step.d, step.path, step.repository)]);
      NewProjectFine(db, step.p, Project(step.d, step.path, step.repository));
      InsertFits(made, step.l, Location(step.p, false, Some(step.d), Some(step.path), true, step.now));
      PlacesFine(made, after.locations);
      FineTwice(db, made, after);
    }
  }

  lemma NewProjectFine(db: Tables, p: ProjectId, project: Project)
    requires Sound(db) && p !in db.projects && project.device in db.devices
    ensures Fine(db, db.(projects := db.projects[p := project]))
  {
  }

  lemma AddCloudFine(db: Tables, step: Step, after: Tables)
    requires Sound(db) && step.AddCloud? && Next(db, step, after)
    ensures Fine(db, after)
  {
    if after != db {
      var added := db.(cloud := db.cloud[step.p := NotLeaving]);
      CloudOnly(db, added.cloud);
      InsertFits(added, step.l, Location(step.p, true, None, None, true, step.now));
      PlacesFine(added, after.locations);
      FineTwice(db, added, after);
    }
  }

  lemma FinishFine(db: Tables, p: ProjectId, after: Tables)
    requires Sound(db) && Next(db, FinishCloud(p), after)
    ensures Fine(db, after)
  {
    if p in db.cloud && db.cloud[p] == LeavingAltogether {
      DeleteProjectsFine(db, {p});
    } else if p in db.cloud && db.cloud[p] != NotLeaving {
      var left := db.(cloud := db.cloud - {p});
      CloudOnly(db, left.cloud);
      FewerFit(left, after.locations);
      PlacesFine(left, after.locations);
      FineTwice(db, left, after);
    }
  }

  lemma FewerFit(db: Tables, locations: map<LocationId, Location>)
    requires Sound(db) && forall l :: l in locations ==> l in db.locations && locations[l] == db.locations[l]
    ensures PlacesFit(db, locations)
  {
  }

  /** A run from any sound tables. */
  ghost predicate Run(dbs: seq<Tables>, steps: seq<Step>) {
    && |dbs| == |steps| + 1 && Sound(dbs[0])
    && forall i :: 0 <= i < |steps| ==> Next(dbs[i], steps[i], dbs[i + 1]) && Believed(dbs[i], steps[i])
  }

  lemma {:induction false} RunSound(dbs: seq<Tables>, steps: seq<Step>, i: nat)
    requires Run(dbs, steps) && i < |dbs|
    ensures Sound(dbs[i])
  {
    if i > 0 {
      RunSound(dbs, steps, i - 1);
      StepFine(dbs[i - 1], steps[i - 1], dbs[i]);
    }
  }

  /** Over any run a workspace stays with the machine it was on, for as long as it is there. */
  lemma WorkspacesStay(dbs: seq<Tables>, steps: seq<Step>, i: nat, j: nat, w: WorkspaceId)
    requires Run(dbs, steps) && i <= j < |dbs|
    requires forall k :: i <= k <= j ==> w in dbs[k].workspaces
    ensures ServedBy(dbs[i], w).Some? && ServedBy(dbs[j], w) == ServedBy(dbs[i], w)
    ensures dbs[j].workspaces[w].project == dbs[i].workspaces[w].project
  {
    RunSound(dbs, steps, i);
    Served(dbs[i], w);
    forall k | i <= k < j ensures Still(dbs[k], dbs[k + 1]) {
      RunStill(dbs, steps, k);
    }
    StayAlong(dbs, i, j, w);
  }

  lemma RunStill(dbs: seq<Tables>, steps: seq<Step>, k: nat)
    requires Run(dbs, steps) && k < |steps|
    ensures Still(dbs[k], dbs[k + 1])
  {
    RunSound(dbs, steps, k);
    StepFine(dbs[k], steps[k], dbs[k + 1]);
  }

  lemma {:induction false} StayAlong(dbs: seq<Tables>, i: nat, j: nat, w: WorkspaceId)
    requires i <= j < |dbs| && forall k :: i <= k <= j ==> w in dbs[k].workspaces
    requires forall k :: i <= k < j ==> Still(dbs[k], dbs[k + 1])
    ensures ServedBy(dbs[j], w) == ServedBy(dbs[i], w) && dbs[j].workspaces[w].project == dbs[i].workspaces[w].project
    decreases j - i
  {
    if i < j {
      StayAlong(dbs, i, j - 1, w);
      assert Still(dbs[j - 1], dbs[j - 1 + 1]);
    }
  }

  lemma Served(db: Tables, w: WorkspaceId)
    requires Sound(db) && w in db.workspaces
    ensures ServedBy(db, w).Some?
  {
  }

  // ------------------------------------------------------ removing a machine

  // -------------------------------------------------------------- one default

  /** A place as `locationsOf` marks it: on the project's machine, or Cloud for a project that lives nowhere. */
  predicate MarkedDefault(db: Tables, l: LocationId) {
    && l in db.locations && db.locations[l].project in db.projects
    && var place, chosen := db.locations[l], db.projects[db.locations[l].project].device;
       (place.cloud && place.device.None? && chosen == NOWHERE) || place.device == Some(chosen)
  }

  ghost predicate NowhereIsEmpty(db: Tables) {
    forall l :: l in db.locations ==> db.locations[l].device != Some(NOWHERE)
  }

  /** No place came to be on a machine it was not on. */
  ghost predicate PlacesFrom(db: Tables, after: Tables) {
    forall l :: l in after.locations && after.locations[l].device.Some? ==>
      l in db.locations && after.locations[l].device == db.locations[l].device
  }

  lemma LeavingPlaces(db: Tables, step: Step, after: Tables)
    requires Next(db, step, after) && (step.LeaveMachine? || step.RemoveMachine?)
    ensures PlacesFrom(db, after)
  {
    if step.LeaveMachine? {
      var moved :| Left(db, step.d, moved, after);
      LeftPlacesFrom(db, step.d, moved, after);
    } else {
      var moved, left :| Removed(db, step.d, moved, left, after);
      LeftPlacesFrom(db, step.d, moved, left);
    }
  }

  lemma LeftPlacesFrom(db: Tables, d: DeviceId, moved: Tables, after: Tables)
    requires Left(db, d, moved, after)
    ensures PlacesFrom(db, after)
  {
    assert Keep(moved, d, None).locations == db.locations;
  }

  lemma OtherPlaces(db: Tables, step: Step, after: Tables)
    requires Next(db, step, after) && !step.LeaveMachine? && !step.RemoveMachine?
    requires !step.PutRow? && !step.FillIn? && !step.CreateProject? && !step.GiveCloudRoot?
    ensures PlacesFrom(db, after)
  {
    match step
    case RemoveLocation(p, given, l, machine, isDefault, last) => TakenOff(db, p, given, l, machine, isDefault, last);
    case FinishCloud(p) =>
    case _ =>
  }

  lemma TakenOff(db: Tables, p: ProjectId, given: DeviceId, l: LocationId, machine: DeviceId, isDefault: bool, last: bool)
    ensures PlacesFrom(db, TakeOff(db, p, given, l, machine, isDefault, last))
  {
  }

  lemma RootPlaces(db: Tables, p: ProjectId, d: DeviceId, path: string)
    requires NowhereIsEmpty(db) && d != NOWHERE
    ensures NowhereIsEmpty(GiveRoot(db, p, d, path))
  {
  }

  lemma PutPlaces(db: Tables, p: ProjectId, d: DeviceId, place: Option<string>, ready: bool, l: LocationId, now: int)
    requires NowhereIsEmpty(db) && d != NOWHERE
    ensures NowhereIsEmpty(Put(db, p, d, place, ready, l, now))
  {
  }

  lemma NewPlaces(db: Tables, step: Step, after: Tables)
    requires Sound(db) && NowhereIsEmpty(db) && (step.FillIn? || step.CreateProject?) && Next(db, step, after) && Believed(db, step)
    ensures NowhereIsEmpty(after)
  {
  }

  lemma MorePlaces(db: Tables, step: Step, after: Tables)
    requires NowhereIsEmpty(db) && (step.PutRow? || step.GiveCloudRoot?) && Next(db, step, after) && Believed(db, step)
    ensures NowhereIsEmpty(after)
  {
    if step.PutRow? {
      PutPlaces(db, step.p, step.d, step.place, step.ready, step.l, step.now);
    } else if step.d != NOWHERE {
      RootPlaces(db, step.p, step.d, step.path);
    }
  }

  lemma PlacesFromEmpty(db: Tables, after: Tables)
    requires NowhereIsEmpty(db) && PlacesFrom(db, after)
    ensures NowhereIsEmpty(after)
  {
  }

  lemma NowhereStaysEmpty(db: Tables, step: Step, after: Tables)
    requires Sound(db) && NowhereIsEmpty(db) && Next(db, step, after) && Believed(db, step)
    ensures NowhereIsEmpty(after)
  {
    if step.FillIn? || step.CreateProject? {
      NewPlaces(db, step, after);
    } else if step.PutRow? || step.GiveCloudRoot? {
      MorePlaces(db, step, after);
    } else {
      if step.LeaveMachine? || step.RemoveMachine? { LeavingPlaces(db, step, after); } else { OtherPlaces(db, step, after); }
      PlacesFromEmpty(db, after);
    }
  }

  lemma {:induction false} RunNowhere(dbs: seq<Tables>, steps: seq<Step>, i: nat)
    requires Run(dbs, steps) && NowhereIsEmpty(dbs[0]) && i < |dbs|
    ensures NowhereIsEmpty(dbs[i])
  {
    if i > 0 {
      RunNowhere(dbs, steps, i - 1);
      RunSound(dbs, steps, i - 1);
      NowhereStaysEmpty(dbs[i - 1], steps[i - 1], dbs[i]);
    }
  }

  /** Over every run at most one place of a project is marked the default. */
  lemma OneDefault(dbs: seq<Tables>, steps: seq<Step>, i: nat, l: LocationId, m: LocationId)
    requires Run(dbs, steps) && NowhereIsEmpty(dbs[0]) && i < |dbs|
    requires MarkedDefault(dbs[i], l) && MarkedDefault(dbs[i], m) && dbs[i].locations[l].project == dbs[i].locations[m].project
    ensures l == m
  {
    RunSound(dbs, steps, i);
    RunNowhere(dbs, steps, i);
    var a, b := dbs[i].locations[l], dbs[i].locations[m];
    assert SamePlace(a, b);
  }

  /** The tables `locationsOf` lists a project from: the row of the machine it is on is filled in first, when it is on one. */
  function Listed(db: Tables, p: ProjectId, cloud: bool, l: LocationId, now: int): Tables
    requires p in db.projects
  {
    if db.projects[p].device == NOWHERE then db else Fill(db, p, db.projects[p].device, cloud, l, now)
  }

  ghost predicate HasDefault(db: Tables, p: ProjectId) {
    exists m :: MarkedDefault(db, m) && db.locations[m].project == p
  }

  /** Cloud as a project's place, with no machine for the project root. */
  ghost predicate HasReleasedCloud(db: Tables, p: ProjectId) {
    exists m :: m in db.locations && db.locations[m].project == p && db.locations[m].cloud && db.locations[m].device.None?
  }

  ghost predicate HasRowAt(db: Tables, p: ProjectId, d: DeviceId) {
    exists m :: RowAt(db, p, d, m)
  }

  /**
   * And one is marked exactly when the project lives nowhere and Cloud is its place with
   * no machine, or is on a machine that has its row or can be given one: Cloud's machine
   * cannot where another row is Cloud's.
   */
  lemma SomeDefault(db: Tables, p: ProjectId, cloud: bool, l: LocationId, now: int)
    requires Sound(db) && NowhereIsEmpty(db) && p in db.projects && l !in db.locations
    ensures
      var d := db.projects[p].device;
      HasDefault(Listed(db, p, cloud, l, now), p) <==>
      if d == NOWHERE then HasReleasedCloud(db, p) else HasRowAt(db, p, d) || !(cloud && HasCloudPlace(db, p))
  {
    var after, d := Listed(db, p, cloud, l, now), db.projects[p].device;
    if d == NOWHERE {
      NowhereDefault(db, p);
    } else if m :| RowAt(db, p, d, m) {
      assert MarkedDefault(after, m);
    } else if !(cloud && HasCloudPlace(db, p)) {
      assert MarkedDefault(after, l);
    } else {
      assert after == db;
      assert forall m :: MarkedDefault(db, m) && db.locations[m].project == p ==> RowAt(db, p, d, m);
    }
  }

  lemma NowhereDefault(db: Tables, p: ProjectId)
    requires NowhereIsEmpty(db) && p in db.projects && db.projects[p].device == NOWHERE
    ensures HasDefault(db, p) <==> HasReleasedCloud(db, p)
  {
    if m :| m in db.locations && db.locations[m].project == p && db.locations[m].cloud && db.locations[m].device.None? {
      assert MarkedDefault(db, m);
    }
  }

  /** What a project needs to outlive a machine it is on. */
  ghost predicate Outlives(db: Tables, p: ProjectId, d: DeviceId)
    requires p in db.projects
  {
    db.projects[p].device != d || (!Marked(db, p) && (HasCandidate(db, p, d) || db.projects[p].repository || p in db.cloud))
  }

  lemma PinCandidates(db: Tables, d: DeviceId)
    ensures forall p, l :: Candidate(Pin(db, d), p, d, l) <==> Candidate(db, p, d, l)
    ensures forall p :: HasCandidate(Pin(db, d), p, d) <==> HasCandidate(db, p, d)
    ensures forall p, l :: Best(Pin(db, d), p, d, l) <==> Best(db, p, d, l)
  {
    assert forall p, l :: Candidate(Pin(db, d), p, d, l) <==> Candidate(db, p, d, l);
    forall p ensures HasCandidate(Pin(db, d), p, d) <==> HasCandidate(db, p, d) {
      if HasCandidate(db, p, d) { var l :| Candidate(db, p, d, l); assert Candidate(Pin(db, d), p, d, l); }
      if HasCandidate(Pin(db, d), p, d) { var l :| Candidate(Pin(db, d), p, d, l); assert Candidate(db, p, d, l); }
    }
  }

  /** Where a project is once it has left a machine. */
  ghost predicate NewHome(db: Tables, p: ProjectId, d: DeviceId, home: Project)
    requires p in db.projects
  {
    if db.projects[p].device != d then home == db.projects[p]
    else if HasCandidate(db, p, d) then exists l :: Best(db, p, d, l) && home == MovedTo(db, p, l)
    else home == db.projects[p].(device := NOWHERE)
  }

  lemma MovedHome(db: Tables, d: DeviceId, moved: Tables, p: ProjectId)
    requires DefaultsMoved(Pin(db, d), d, moved) && p in db.projects
    ensures p in moved.projects
    ensures moved.projects[p].repository == db.projects[p].repository && moved.cloud == db.cloud && moved.devices == db.devices
    ensures Movable(db, p, d) ==> moved.projects[p].device != d && exists l :: Best(db, p, d, l) && moved.projects[p] == MovedTo(db, p, l)
    ensures !Movable(db, p, d) ==> moved.projects[p] == db.projects[p]
  {
    PinCandidates(db, d);
    assert Movable(Pin(db, d), p, d) <==> Movable(db, p, d);
    if Movable(db, p, d) {
      var l :| Best(Pin(db, d), p, d, l) && moved.projects[p] == MovedTo(Pin(db, d), p, l);
      assert Best(db, p, d, l) && MovedTo(db, p, l) == MovedTo(Pin(db, d), p, l);
    }
  }

  /**
   * Removing a machine conserves projects: exactly those go that were on it and
   * either were marked for removal, or had no repository, no Cloud and no other
   * standing place; every other one is where it was, or at the best of the places
   * it has left, or nowhere.
   */
  lemma RemovalConservesProjects(db: Tables, d: DeviceId, moved: Tables, left: Tables, after: Tables, p: ProjectId)
    requires Sound(db) && d != NOWHERE && Removed(db, d, moved, left, after) && p in db.projects
    ensures p in after.projects <==> Outlives(db, p, d)
    ensures Outlives(db, p, d) ==> NewHome(db, p, d, after.projects[p])
  {
    MovedHome(db, d, moved, p);
    KeptHome(moved, d, p);
    DeletedProject(left, d, p);
  }

  lemma KeptHome(moved: Tables, d: DeviceId, p: ProjectId)
    requires p in moved.projects
    ensures
      var projects := Release(Keep(moved, d, None), d).projects;
      p in projects && projects[p] == if Kept(moved, d, None, p) then moved.projects[p].(device := NOWHERE) else moved.projects[p]
  {
  }

  lemma DeletedProject(db: Tables, d: DeviceId, p: ProjectId)
    requires p in db.projects
    ensures p in DeleteDevice(db, d).projects <==> db.projects[p].device != d
    ensures p in DeleteDevice(db, d).projects ==> DeleteDevice(db, d).projects[p] == db.projects[p]
  {
  }

  lemma RemovalInventsNothing(db: Tables, d: DeviceId, moved: Tables, left: Tables, after: Tables)
    requires Sound(db) && Removed(db, d, moved, left, after)
    ensures after.projects.Keys <= db.projects.Keys && after.locations.Keys <= db.locations.Keys && after.workspaces.Keys <= db.workspaces.Keys
    ensures forall p :: p in after.cloud ==> p in db.cloud && after.cloud[p] == db.cloud[p]
  {
  }

  /** Nothing that is left still names the machine. */
  lemma RemovalForgetsTheMachine(db: Tables, d: DeviceId, moved: Tables, left: Tables, after: Tables)
    requires Sound(db) && Removed(db, d, moved, left, after)
    ensures d !in after.devices
    ensures forall p :: p in after.projects ==> after.projects[p].device != d
    ensures forall l :: l in after.locations ==> after.locations[l].device != Some(d)
    ensures forall w :: w in after.workspaces ==> after.workspaces[w].device != Some(d)
  {
  }

  lemma OutlivesLeft(db: Tables, d: DeviceId, moved: Tables, p: ProjectId)
    requires Sound(db) && d != NOWHERE && DefaultsMoved(Pin(db, d), d, moved) && p in db.projects
    ensures
      var kept := Keep(moved, d, None);
      p in kept.projects && (kept.projects[p].device != d <==> Outlives(db, p, d))
  {
    MovedHome(db, d, moved, p);
  }

  /** The places while the machine is being left: only Cloud's places there lose their machine. */
  lemma LeftPlaces(db: Tables, d: DeviceId, moved: Tables, left: Tables, l: LocationId)
    requires Sound(db) && d != NOWHERE && Left(db, d, moved, left) && l in db.locations
    ensures
      var p, place := db.locations[l].project, db.locations[l];
      && p in left.projects && (left.projects[p].device != d <==> Outlives(db, p, d))
      && l in left.locations
      && left.locations[l] ==
        (if place.device == Some(d) && place.cloud && Outlives(db, p, d) then place.(device := None, path := None) else place)
  {
    OutlivesLeft(db, d, moved, db.locations[l].project);
    var kept := Keep(moved, d, None);
    assert kept.locations == db.locations;
    ReleasedPlace(kept, d, l);
  }

  lemma ReleasedPlace(db: Tables, d: DeviceId, l: LocationId)
    requires l in db.locations && db.locations[l].project in db.projects
    ensures Release(db, d).projects == db.projects && l in Release(db, d).locations
    ensures Release(db, d).locations[l] ==
      (if db.locations[l].device == Some(d) && db.locations[l].cloud && db.projects[db.locations[l].project].device != d
       then db.locations[l].(device := None, path := None) else db.locations[l])
  {
  }

  /** A place goes with its project or with the machine, except Cloud, which stays without a machine. */
  lemma RemovalKeepsPlaces(db: Tables, d: DeviceId, moved: Tables, left: Tables, after: Tables, l: LocationId)
    requires Sound(db) && d != NOWHERE && Removed(db, d, moved, left, after) && l in db.locations
    ensures l in after.locations <==>
      Outlives(db, db.locations[l].project, d) && (db.locations[l].device != Some(d) || db.locations[l].cloud)
    ensures l in after.locations ==>
      (after.locations[l] == if db.locations[l].device == Some(d) then db.locations[l].(device := None, path := None) else db.locations[l])
  {
    LeftPlaces(db, d, moved, left, l);
    DeletedPlace(left, d, l);
  }

  lemma DeletedPlace(db: Tables, d: DeviceId, l: LocationId)
    requires l in db.locations && db.locations[l].project in db.projects
    ensures l in DeleteDevice(db, d).locations <==> db.projects[db.locations[l].project].device != d && db.locations[l].device != Some(d)
    ensures l in DeleteDevice(db, d).locations ==> DeleteDevice(db, d).locations[l] == db.locations[l]
  {
  }

  lemma LeftWorkspaces(db: Tables, d: DeviceId, moved: Tables, left: Tables, w: WorkspaceId)
    requires Sound(db) && d != NOWHERE && Left(db, d, moved, left) && w in db.workspaces
    ensures var p := db.workspaces[w].project;
      && p in left.projects && (left.projects[p].device != d <==> Outlives(db, p, d))
      && w in left.workspaces && left.workspaces[w].project == p
      && (left.workspaces[w].device == Some(d) <==> ServedBy(db, w) == Some(d))
  {
    OutlivesLeft(db, d, moved, db.workspaces[w].project);
    PinnedWorkspace(db, d, w);
    assert moved.workspaces == Pin(db, d).workspaces;
    if moved.workspaces[w].device.None? { MovedHome(db, d, moved, db.workspaces[w].project); }
  }

  /** What pinning leaves without a machine is not on the machine that is left. */
  lemma PinnedWorkspace(db: Tables, d: DeviceId, w: WorkspaceId)
    requires Sound(db) && w in db.workspaces
    ensures
      var pinned := Pin(db, d).workspaces;
      && w in pinned && pinned[w].project == db.workspaces[w].project
      && (pinned[w].device.None? ==> db.projects[db.workspaces[w].project].device != d)
      && (pinned[w].device == Some(d) <==> ServedBy(db, w) == Some(d))
  {
  }

  /** A workspace goes with its project or with the machine that serves it. */
  lemma RemovalKeepsWorkspaces(db: Tables, d: DeviceId, moved: Tables, left: Tables, after: Tables, w: WorkspaceId)
    requires Sound(db) && d != NOWHERE && Removed(db, d, moved, left, after) && w in db.workspaces
    ensures w in after.workspaces <==> Outlives(db, db.workspaces[w].project, d) && ServedBy(db, w) != Some(d)
  {
    LeftWorkspaces(db, d, moved, left, w);
    DeletedWorkspace(left, d, w);
  }

  lemma DeletedWorkspace(db: Tables, d: DeviceId, w: WorkspaceId)
    requires w in db.workspaces && db.workspaces[w].project in db.projects
    ensures w in DeleteDevice(db, d).workspaces <==>
      db.projects[db.workspaces[w].project].device != d && db.workspaces[w].device != Some(d)
  {
  }

  ghost predicate TopOf(db: Tables, among: set<LocationId>, l: LocationId) {
    l in among && l in db.locations && forall m :: m in among && m in db.locations ==> !Better(db.locations[m], db.locations[l])
  }

  /** A best place exists whenever there is any. */
  lemma {:induction false} BestExists(db: Tables, p: ProjectId, d: DeviceId, among: set<LocationId>)
    requires among != {} && forall l :: l in among ==> Candidate(db, p, d, l)
    ensures exists l :: TopOf(db, among, l)
    decreases |among|
  {
    var l :| l in among;
    if among == {l} {
      assert TopOf(db, among, l);
    } else {
      var rest := among - {l};
      BestExists(db, p, d, rest);
      var b :| TopOf(db, rest, b);
      var best := if Better(db.locations[l], db.locations[b]) then l else b;
      assert TopOf(db, among, best);
    }
  }

  /** Any machine can be left and any machine can be removed: the statements always have a result. */
  lemma RemovalSucceeds(db: Tables, d: DeviceId)
    requires Sound(db) && d != NOWHERE
    ensures exists after :: Next(db, RemoveMachine(d), after)
  {
    var pinned := Pin(db, d);
    forall p | Movable(pinned, p, d) ensures exists l :: Best(pinned, p, d, l) { SomeBest(pinned, p, d); }
    var moved := pinned.(projects := map p | p in pinned.projects ::
      if Movable(pinned, p, d) then MovedTo(pinned, p, Choice(pinned, p, d)) else pinned.projects[p]);
    assert DefaultsMoved(pinned, d, moved);
    RemovalOf(db, d, moved);
  }

  lemma RemovalOf(db: Tables, d: DeviceId, moved: Tables)
    requires d != NOWHERE && DefaultsMoved(Pin(db, d), d, moved)
    ensures exists after :: Next(db, RemoveMachine(d), after)
  {
    var left := Release(Keep(moved, d, None), d);
    assert Removed(db, d, moved, left, DeleteDevice(left, d));
    assert Next(db, RemoveMachine(d), DeleteDevice(left, d));
  }

  lemma SomeBest(db: Tables, p: ProjectId, d: DeviceId)
    requires HasCandidate(db, p, d)
    ensures exists l :: Best(db, p, d, l)
  {
    var all := set l | l in db.locations && Candidate(db, p, d, l);
    var some :| Candidate(db, p, d, some);
    assert some in all;
    BestExists(db, p, d, all);
    var l :| TopOf(db, all, l);
    assert forall m :: Candidate(db, p, d, m) ==> m in all;
    assert Best(db, p, d, l);
  }

  ghost function Choice(db: Tables, p: ProjectId, d: DeviceId): (l: LocationId)
    requires exists l :: Best(db, p, d, l)
    ensures Best(db, p, d, l)
  {
    var l :| Best(db, p, d, l);
    l
  }
}
