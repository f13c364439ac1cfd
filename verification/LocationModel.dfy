/**
 * Where the projects of one account live: machines, projects with their default
 * machine, the places a project is in, and the workspaces there. Every function
 * is one SQL statement, or a batch of them.
 */
module LocationModel {
  import opened Common

  type DeviceId = nat
  type ProjectId = nat
  type LocationId = nat
  type WorkspaceId = nat

  /** The machine that is no machine; the account's other ids are never this one. */
  const NOWHERE: DeviceId := 0

  datatype Device = Device(revoked: bool)
  /** `repository` says the project has a repository key. */
  datatype Project = Project(device: DeviceId, path: string, repository: bool)
  datatype Location = Location(project: ProjectId, cloud: bool, device: Option<DeviceId>, path: Option<string>, ready: bool, createdAt: int)
  datatype Workspace = Workspace(project: ProjectId, device: Option<DeviceId>)
  datatype Removal = NotLeaving | LeavingCloud | LeavingAltogether

  datatype Tables = Tables(
    devices: map<DeviceId, Device>,
    projects: map<ProjectId, Project>,
    locations: map<LocationId, Location>,
    workspaces: map<WorkspaceId, Workspace>,
    cloud: map<ProjectId, Removal>)

  /** Foreign keys, unique indexes, and what they do not say: a project that lives nowhere has no workspace that follows it. */
  ghost predicate Sound(db: Tables) {
    && (forall p :: p in db.projects ==> db.projects[p].device in db.devices)
    && (forall l :: l in db.locations ==> db.locations[l].project in db.projects)
    && (forall l :: l in db.locations && db.locations[l].device.Some? ==> db.locations[l].device.value in db.devices)
    && (forall l, m :: l in db.locations && m in db.locations && SamePlace(db.locations[l], db.locations[m]) ==> l == m)
    && (forall w :: w in db.workspaces ==> db.workspaces[w].project in db.projects)
    && (forall w :: w in db.workspaces && db.workspaces[w].device.Some? ==> db.workspaces[w].device.value in db.devices)
    && (forall p :: p in db.cloud ==> p in db.projects)
    && (NOWHERE in db.devices ==> db.devices[NOWHERE].revoked)
    && (forall w :: w in db.workspaces && db.workspaces[w].device.None? ==> db.projects[db.workspaces[w].project].device != NOWHERE)
  }

  predicate SamePlace(a: Location, b: Location) {
    a.project == b.project && ((a.device.Some? && a.device == b.device) || (a.cloud && b.cloud))
  }

  /** The machine that serves a workspace: its own, or else the project's default. */
  function ServedBy(db: Tables, w: WorkspaceId): Option<DeviceId> {
    if w !in db.workspaces || db.workspaces[w].project !in db.projects then None
    else if db.workspaces[w].device.Some? then db.workspaces[w].device
    else Some(db.projects[db.workspaces[w].project].device)
  }

  // -------------------------------------------------------- leaving a machine

  predicate Marked(db: Tables, p: ProjectId) {
    p in db.cloud && db.cloud[p] == LeavingAltogether
  }

  /** A place of the project whose machine is another one, and still stands. */
  predicate Candidate(db: Tables, p: ProjectId, d: DeviceId, l: LocationId) {
    && l in db.locations && db.locations[l].project == p
    && db.locations[l].device.Some? && db.locations[l].device.value in db.devices
    && db.locations[l].device.value != d && !db.devices[db.locations[l].device.value].revoked
  }

  /** Ready before not ready, the person's own machine before Cloud, older before newer. */
  predicate Better(a: Location, b: Location) {
    if a.ready != b.ready then a.ready
    else if a.cloud != b.cloud then b.cloud
    else a.createdAt < b.createdAt
  }

  ghost predicate Best(db: Tables, p: ProjectId, d: DeviceId, l: LocationId) {
    Candidate(db, p, d, l) && forall m :: Candidate(db, p, d, m) ==> !Better(db.locations[m], db.locations[l])
  }

  ghost predicate HasCandidate(db: Tables, p: ProjectId, d: DeviceId) {
    exists l :: Candidate(db, p, d, l)
  }

  /** `pinLegacyWorkspacesStatement`. */
  function Pin(db: Tables, d: DeviceId): Tables {
    db.(workspaces := map w | w in db.workspaces ::
      if db.workspaces[w].device.None? && db.workspaces[w].project in db.projects && db.projects[db.workspaces[w].project].device == d
      then db.workspaces[w].(device := Some(d)) else db.workspaces[w])
  }

  function Coalesce(path: Option<string>, kept: string): string {
    if path.Some? then path.value else kept
  }

  ghost predicate Movable(db: Tables, p: ProjectId, d: DeviceId) {
    p in db.projects && db.projects[p].device == d && HasCandidate(db, p, d) && !Marked(db, p)
  }

  /** The UPDATE of `moveDefaultLocationStatements`: to a best place, whichever of equally good ones is read first. */
  ghost predicate DefaultsMoved(db: Tables, d: DeviceId, after: Tables) {
    && after == db.(projects := after.projects) && after.projects.Keys == db.projects.Keys
    && (forall p :: p in db.projects && !Movable(db, p, d) ==> after.projects[p] == db.projects[p])
    && (forall p :: Movable(db, p, d) ==> exists l :: Best(db, p, d, l) && after.projects[p] == MovedTo(db, p, l))
  }

  function MovedTo(db: Tables, p: ProjectId, l: LocationId): Project
    requires p in db.projects && l in db.locations && db.locations[l].device.Some?
  {
    db.projects[p].(device := db.locations[l].device.value, path := Coalesce(db.locations[l].path, db.projects[p].path))
  }

  predicate Kept(db: Tables, d: DeviceId, only: Option<ProjectId>, p: ProjectId) {
    && p in db.projects && db.projects[p].device == d && (only.None? || only.value == p)
    && (db.projects[p].repository || p in db.cloud) && !Marked(db, p)
  }

  function WithNowhere(db: Tables): Tables {
    if NOWHERE in db.devices then db else db.(devices := db.devices[NOWHERE := Device(true)])
  }

  /** `keepRepositoriesStatements`. */
  function Keep(db: Tables, d: DeviceId, only: Option<ProjectId>): Tables {
    WithNowhere(db).(
      workspaces := map w | w in db.workspaces && !(db.workspaces[w].device.None? && Kept(db, d, only, db.workspaces[w].project)) :: db.workspaces[w],
      projects := map p | p in db.projects :: if Kept(db, d, only, p) then db.projects[p].(device := NOWHERE) else db.projects[p])
  }

  /** Exeora Cloud outlives the machine that held its root. */
  function Release(db: Tables, d: DeviceId): Tables {
    db.(locations := map l | l in db.locations ::
      if db.locations[l].cloud && db.locations[l].device == Some(d)
         && db.locations[l].project in db.projects && db.projects[db.locations[l].project].device != d
      then db.locations[l].(device := None, path := None) else db.locations[l])
  }

  /** `moveDefaultLocationStatements`. */
  ghost predicate Left(db: Tables, d: DeviceId, moved: Tables, after: Tables) {
    DefaultsMoved(Pin(db, d), d, moved) && after == Release(Keep(moved, d, None), d)
  }

  /** `DELETE FROM devices`, with everything that hangs off it. */
  function DeleteDevice(db: Tables, d: DeviceId): Tables {
    DeleteProjects(db.(
      devices := db.devices - {d},
      locations := map l | l in db.locations && db.locations[l].device != Some(d) :: db.locations[l],
      workspaces := map w | w in db.workspaces && db.workspaces[w].device != Some(d) :: db.workspaces[w]),
      set p | p in db.projects && db.projects[p].device == d)
  }

  function DeleteProjects(db: Tables, gone: set<ProjectId>): Tables {
    db.(projects := db.projects - gone, cloud := db.cloud - gone,
        locations := map l | l in db.locations && db.locations[l].project !in gone :: db.locations[l],
        workspaces := map w | w in db.workspaces && db.workspaces[w].project !in gone :: db.workspaces[w])
  }

  /** `permanentlyDeleteDevice`. */
  ghost predicate Removed(db: Tables, d: DeviceId, moved: Tables, left: Tables, after: Tables) {
    Left(db, d, moved, left) && after == DeleteDevice(left, d)
  }

  // ------------------------------------------------------------------- steps

  datatype Step =
    | AddDevice(d: DeviceId)
    | Revoke(d: DeviceId)
    | CreateProject(p: ProjectId, d: DeviceId, path: string, repository: bool, l: LocationId, now: int)
    | FillIn(p: ProjectId, d: DeviceId, cloud: bool, l: LocationId, now: int)
    | HealRepository(p: ProjectId, known: bool)
    | AddWorkspace(w: WorkspaceId, p: ProjectId, d: DeviceId)
    | DropWorkspace(w: WorkspaceId)
    | PutRow(p: ProjectId, d: DeviceId, place: Option<string>, ready: bool, l: LocationId, now: int)
    | TakeNowhere(p: ProjectId, d: DeviceId, place: Option<string>)
    | SetPath(p: ProjectId, d: DeviceId, path: string)
    | SetDefault(p: ProjectId, given: DeviceId, l: LocationId, d: DeviceId, place: Option<string>)
    | LeaveMachine(d: DeviceId)
    | RemoveMachine(d: DeviceId)
    | RemoveLocation(p: ProjectId, given: DeviceId, l: LocationId, machine: DeviceId, isDefault: bool, last: bool)
    | LeaveCloud(p: ProjectId, given: DeviceId)
    | AddCloud(p: ProjectId, l: LocationId, now: int)
    | GiveCloudRoot(p: ProjectId, d: DeviceId, path: string)
    | Mark(p: ProjectId, removal: Removal)
    | FinishCloud(p: ProjectId)

  predicate HasCloudPlace(db: Tables, p: ProjectId) {
    exists l :: l in db.locations && db.locations[l].project == p && db.locations[l].cloud
  }

  predicate RowAt(db: Tables, p: ProjectId, d: DeviceId, l: LocationId) {
    l in db.locations && db.locations[l].project == p && db.locations[l].device == Some(d)
  }

  /** `defaultLocationStatement`: a project that has no row for the machine it is on is given one; a conflict is ignored. */
  function Fill(db: Tables, p: ProjectId, d: DeviceId, cloud: bool, l: LocationId, now: int): Tables {
    if p !in db.projects || d !in db.devices || db.projects[p].device != d || l in db.locations
       || (exists m :: m in db.locations && RowAt(db, p, d, m)) || (cloud && HasCloudPlace(db, p))
    then db
    else db.(locations := db.locations[l := Location(p, cloud, Some(d), Some(db.projects[p].path), true, now)])
  }

  /** `putLocalLocation`, first statement: a machine is one place of a project however often it is named. */
  function Put(db: Tables, p: ProjectId, d: DeviceId, place: Option<string>, ready: bool, l: LocationId, now: int): Tables {
    if p !in db.projects || d !in db.devices then db
    else if exists m :: m in db.locations && RowAt(db, p, d, m) then
      db.(locations := map m | m in db.locations ::
        if RowAt(db, p, d, m)
        then db.locations[m].(path := if place.Some? then place else db.locations[m].path, ready := ready)
        else db.locations[m])
    else if l in db.locations then db
    else db.(locations := db.locations[l := Location(p, false, Some(d), place, ready, now)])
  }

  /** Second statement: a project that lives nowhere and is not on Cloud takes the first machine it is given. */
  function Take(db: Tables, p: ProjectId, d: DeviceId, place: Option<string>): Tables {
    if p in db.projects && d in db.devices && db.projects[p].device == NOWHERE && !HasCloudPlace(db, p)
    then db.(projects := db.projects[p := db.projects[p].(device := d, path := Coalesce(place, db.projects[p].path))])
    else db
  }

  function SetProjectPath(db: Tables, p: ProjectId, d: DeviceId, path: string): Tables {
    if p in db.projects && db.projects[p].device == d
    then db.(projects := db.projects[p := db.projects[p].(path := path)]) else db
  }

  /** Whether the UPDATE of `setDefaultLocation` finds its project, its location, and a machine that exists. */
  predicate Applies(db: Tables, p: ProjectId, l: LocationId, d: DeviceId) {
    p in db.projects && d in db.devices && l in db.locations && db.locations[l].project == p
  }

  /** `setDefaultLocation`'s batch, for the machine the caller read the project to be on. */
  function MoveDefault(db: Tables, p: ProjectId, given: DeviceId, l: LocationId, d: DeviceId, place: Option<string>): Tables {
    if d == given then db
    else if d !in db.devices && p in db.projects && l in db.locations && db.locations[l].project == p then db
    else
      var pinned := Pin(db, given);
      if !Applies(db, p, l, d) then pinned
      else pinned.(projects := pinned.projects[p := pinned.projects[p].(device := d, path := Coalesce(place, pinned.projects[p].path))])
  }

  /** The batch that takes a project off one of its machines. */
  function TakeOff(db: Tables, p: ProjectId, given: DeviceId, l: LocationId, machine: DeviceId, isDefault: bool, last: bool): Tables {
    var cleared := db.(workspaces := map w | w in db.workspaces &&
      !(db.workspaces[w].project == p
        && (db.workspaces[w].device == Some(machine) || (db.workspaces[w].device.None? && (isDefault || last)))) :: db.workspaces[w]);
    var kept := if last then Keep(cleared, given, Some(p)) else cleared;
    kept.(locations := kept.locations - {l})
  }

  function RootPlaced(db: Tables, p: ProjectId, d: DeviceId, path: string): Tables {
    db.(devices := db.devices[d := Device(false)],
        locations := map l | l in db.locations ::
          if db.locations[l].project == p && db.locations[l].cloud && db.locations[l].device.None?
          then db.locations[l].(device := Some(d), path := Some(path)) else db.locations[l])
  }

  /** The batch that gives Exeora Cloud a machine for the project root. */
  function GiveRoot(db: Tables, p: ProjectId, d: DeviceId, path: string): Tables {
    if d in db.devices || p !in db.cloud || db.cloud[p] != NotLeaving then db
    else
      var placed := RootPlaced(db, p, d, path);
      if p in placed.projects && placed.projects[p].device == NOWHERE && (exists l :: l in placed.locations && RowAt(placed, p, d, l))
      then placed.(projects := placed.projects[p := placed.projects[p].(device := d, path := path)]) else placed
  }

  ghost predicate Next(db: Tables, step: Step, after: Tables) {
    match step
    case AddDevice(d) =>
      after == if d in db.devices || d == NOWHERE then db else db.(devices := db.devices[d := Device(false)])
    case Revoke(d) => after == if d in db.devices then db.(devices := db.devices[d := Device(true)]) else db
    case CreateProject(p, d, path, repository, l, now) =>
      after == if p in db.projects || l in db.locations || d !in db.devices || db.devices[d].revoked then db
               else db.(projects := db.projects[p := Project(d, path, repository)],
                        locations := db.locations[l := Location(p, false, Some(d), Some(path), true, now)])
    case FillIn(p, d, cloud, l, now) => after == Fill(db, p, d, cloud, l, now)
    case HealRepository(p, known) =>
      after == if p in db.projects then db.(projects := db.projects[p := db.projects[p].(repository := known)]) else db
    case AddWorkspace(w, p, d) =>
      after == if w in db.workspaces || p !in db.projects || d !in db.devices then db
               else db.(workspaces := db.workspaces[w := Workspace(p, Some(d))])
    case DropWorkspace(w) => after == db.(workspaces := db.workspaces - {w})
    case PutRow(p, d, place, ready, l, now) => after == Put(db, p, d, place, ready, l, now)
    case TakeNowhere(p, d, place) => after == Take(db, p, d, place)
    case SetPath(p, d, path) => after == SetProjectPath(db, p, d, path)
    case SetDefault(p, given, l, d, place) => after == MoveDefault(db, p, given, l, d, place)
    case LeaveMachine(d) => d != NOWHERE && exists moved :: Left(db, d, moved, after)
    case RemoveMachine(d) => d != NOWHERE && exists moved, left :: Removed(db, d, moved, left, after)
    case RemoveLocation(p, given, l, machine, isDefault, last) => after == TakeOff(db, p, given, l, machine, isDefault, last)
    case LeaveCloud(p, given) => after == Keep(db, given, Some(p))
    case AddCloud(p, l, now) =>
      after == if p !in db.projects || p in db.cloud || l in db.locations || HasCloudPlace(db, p) then db
               else db.(cloud := db.cloud[p := NotLeaving], locations := db.locations[l := Location(p, true, None, None, true, now)])
    case GiveCloudRoot(p, d, path) => after == if d == NOWHERE then db else GiveRoot(db, p, d, path)
    case Mark(p, removal) => after == if p in db.cloud then db.(cloud := db.cloud[p := removal]) else db
    case FinishCloud(p) =>
      after ==
        if p !in db.cloud || db.cloud[p] == NotLeaving then db
        else if db.cloud[p] == LeavingAltogether then DeleteProjects(db, {p})
        else db.(cloud := db.cloud - {p},
                 locations := map l | l in db.locations && !(db.locations[l].project == p && db.locations[l].cloud) :: db.locations[l])
  }
}
