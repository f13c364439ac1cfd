/** The tables as statements change them, one after another. */
module AccountTables {
  import opened Common
  import opened LocationModel
  import opened LocationTheorems

  /** What a registration comes to. */
  datatype Registered =
    | Created(id: ProjectId) | Joined(id: ProjectId) | Updated(id: ProjectId)
    | DeviceRevoked | CloudProject | SlugTaken | PlanLimit
  {
    predicate Refused() {
      DeviceRevoked? || CloudProject? || SlugTaken? || PlanLimit?
    }
  }

  class Account {
    var devices: map<DeviceId, Device>
    var projects: map<ProjectId, Project>
    var locations: map<LocationId, Location>
    var workspaces: map<WorkspaceId, Workspace>
    var cloud: map<ProjectId, Removal>

    function Db(): Tables
      reads this
    {
      Tables(devices, projects, locations, workspaces, cloud)
    }

    constructor ()
      ensures Sound(Db()) && Db() == Tables(map[], map[], map[], map[], map[])
    {
      devices, projects, locations, workspaces, cloud := map[], map[], map[], map[], map[];
    }

    /** `pinLegacyWorkspacesStatement`. */
    method PinLegacyWorkspaces(d: DeviceId)
      modifies `workspaces
      ensures Db() == Pin(old(Db()), d)
    {
      workspaces := map w | w in workspaces ::
        if workspaces[w].device.None? && workspaces[w].project in projects && projects[workspaces[w].project].device == d
        then workspaces[w].(device := Some(d)) else workspaces[w];
    }

    /** The ordered subquery: the first of the project's standing places on another machine. */
    method BestPlace(p: ProjectId, d: DeviceId) returns (best: Option<LocationId>)
      ensures best.Some? ==> Best(Db(), p, d, best.value)
      ensures best.None? <==> !HasCandidate(Db(), p, d)
    {
      best := None;
      var todo := locations.Keys;
      while todo != {}
        invariant todo <= locations.Keys
        invariant best.None? ==> forall l :: Candidate(Db(), p, d, l) ==> l in todo
        invariant best.Some? ==> Candidate(Db(), p, d, best.value)
        invariant best.Some? ==> forall m :: Candidate(Db(), p, d, m) && m !in todo ==> !Better(locations[m], locations[best.value])
        decreases |todo|
      {
        var l :| l in todo;
        todo := todo - {l};
        if Candidate(Db(), p, d, l) && (best.None? || Better(locations[l], locations[best.value])) { best := Some(l); }
      }
    }

    /** The UPDATE of `moveDefaultLocationStatements`. */
    method MoveDefaults(d: DeviceId)
      modifies `projects
      ensures DefaultsMoved(old(Db()), d, Db())
    {
      ghost var before := Db();
      var todo := projects.Keys;
      while todo != {}
        invariant todo <= before.projects.Keys && projects.Keys == before.projects.Keys
        invariant PartMoved(before, d, todo, projects)
        decreases |todo|
      {
        var p :| p in todo;
        todo := todo - {p};
        MoveOne(before, p, d);
      }
      AllMoved(before, d, projects);
    }

    method MoveOne(ghost before: Tables, p: ProjectId, d: DeviceId)
      requires p in projects && p in before.projects && projects[p] == before.projects[p] && Db() == before.(projects := projects)
      modifies `projects
      ensures p in projects && projects == old(projects)[p := projects[p]] && Homed(before, p, d, projects[p])
    {
      var best := BestPlace(p, d);
      SameBest(before, Db(), p, d);
      if projects[p].device == d && best.Some? && !Marked(Db(), p) {
        projects := projects[p := projects[p].(device := locations[best.value].device.value,
                                               path := Coalesce(locations[best.value].path, projects[p].path))];
      }
    }

    /** `keepRepositoriesStatements`, in their order. */
    method KeepRepositories(d: DeviceId, only: Option<ProjectId>)
      modifies `devices, `workspaces, `projects
      ensures Db() == Keep(old(Db()), d, only)
    {
      ghost var before := Db();
      if NOWHERE !in devices { devices := devices[NOWHERE := Device(true)]; }
      DropFollowers(before, d, only);
      SendNowhere(before, d, only);
    }

    /** Workspaces that name no machine go with the default of a project that is kept. */
    method DropFollowers(ghost before: Tables, d: DeviceId, only: Option<ProjectId>)
      requires projects == before.projects && cloud == before.cloud && workspaces == before.workspaces
      modifies `workspaces
      ensures workspaces == Keep(before, d, only).workspaces
    {
      KeptIgnores(before, Db(), d, only);
      workspaces := map w | w in workspaces && !(workspaces[w].device.None? && Kept(Db(), d, only, workspaces[w].project)) :: workspaces[w];
    }

    method SendNowhere(ghost before: Tables, d: DeviceId, only: Option<ProjectId>)
      requires projects == before.projects && cloud == before.cloud
      modifies `projects
      ensures projects == Keep(before, d, only).projects
    {
      KeptIgnores(before, Db(), d, only);
      projects := map p | p in projects :: if Kept(Db(), d, only, p) then projects[p].(device := NOWHERE) else projects[p];
    }

    method ReleaseCloud(d: DeviceId)
      modifies `locations
      ensures Db() == Release(old(Db()), d)
    {
      locations := map l | l in locations ::
        if locations[l].cloud && locations[l].device == Some(d)
           && locations[l].project in projects && projects[locations[l].project].device != d
        then locations[l].(device := None, path := None) else locations[l];
    }

    /** `moveDefaultLocationStatements`, run as one batch. */
    method MoveDefaultLocation(d: DeviceId) returns (ghost moved: Tables)
      modifies this
      ensures Left(old(Db()), d, moved, Db())
    {
      PinLegacyWorkspaces(d);
      MoveDefaults(d);
      moved := Db();
      KeepRepositories(d, None);
      ReleaseCloud(d);
    }

    /** `permanentlyDeleteDevice`: nothing names the machine afterwards, and no workspace has moved. */
    method PermanentlyDeleteDevice(d: DeviceId) returns (removed: bool)
      requires Sound(Db()) && d != NOWHERE
      modifies this
      ensures Next(old(Db()), RemoveMachine(d), Db()) && Fine(old(Db()), Db())
      ensures removed <==> d in old(devices)
      ensures d !in devices && forall p :: p in projects ==> projects[p].device != d
      ensures forall p :: p in old(projects) ==> (p in projects <==> Outlives(old(Db()), p, d))
    {
      ghost var before := Db();
      removed := d in devices;
      ghost var moved := MoveDefaultLocation(d);
      ghost var left := Db();
      DeleteMachine(d);
      RemovalMeans(before, d, moved, left, Db());
    }

    /** `DELETE FROM devices`, and what its foreign keys take along. */
    method DeleteMachine(d: DeviceId)
      modifies this
      ensures Db() == DeleteDevice(old(Db()), d)
    {
      devices := devices - {d};
      locations := map l | l in locations && locations[l].device != Some(d) :: locations[l];
      workspaces := map w | w in workspaces && workspaces[w].device != Some(d) :: workspaces[w];
      var gone := set p | p in projects && projects[p].device == d;
      DropProjects(gone);
    }

    /** What the foreign keys take with a project. */
    method DropProjects(gone: set<ProjectId>)
      modifies `projects, `cloud, `locations, `workspaces
      ensures Db() == DeleteProjects(old(Db()), gone)
    {
      projects := projects - gone;
      cloud := cloud - gone;
      locations := map l | l in locations && locations[l].project !in gone :: locations[l];
      workspaces := map w | w in workspaces && workspaces[w].project !in gone :: workspaces[w];
    }

    /** `setDefaultLocation`: true when the project's default is the chosen machine, or was believed to be. */
    method SetDefaultLocation(p: ProjectId, given: DeviceId, l: LocationId, d: DeviceId, place: Option<string>) returns (found: bool)
      requires Sound(Db()) && d in devices && d != NOWHERE
      modifies `workspaces, `projects
      ensures Next(old(Db()), SetDefault(p, given, l, d, place), Db()) && Sound(Db())
      ensures found <==> d == given || Applies(old(Db()), p, l, d)
      ensures found && d != given ==> projects[p].device == d
      ensures Still(old(Db()), Db()) <==> Harmless(old(Db()), p, given, l, d)
    {
      ghost var before := Db();
      ChoosingADefault(before, p, given, l, d, place);
      DefaultSound(before, p, given, l, d, place);
      if d == given { return true; }
      found := Applies(Db(), p, l, d);
      PinLegacyWorkspaces(given);
      if found { projects := projects[p := projects[p].(device := d, path := Coalesce(place, projects[p].path))]; }
    }

    /** `putLocalLocation`, its three statements with nothing between them. */
    method PutLocalLocation(p: ProjectId, d: DeviceId, place: Option<string>, ready: bool, l: LocationId, now: int)
      requires Sound(Db())
      modifies `locations, `projects
      ensures Fine(old(Db()), Db())
      ensures Db() == PutAndTaken(old(Db()), p, d, place, ready, l, now)
    {
      PutThenTakeFine(Db(), p, d, place, ready, l, now);
      PutRowFor(p, d, place, ready, l, now);
      TakeFromNowhere(p, d, place);
      if place.Some? && place.value != "" && p in projects && projects[p].device == d { projects := projects[p := projects[p].(path := place.value)]; }
    }

    /** `create`: the project and its first place are one batch, and the cap is in the insert. */
    method CreateProject(p: ProjectId, d: DeviceId, path: string, repository: bool, cap: Option<nat>, l: LocationId, now: int)
      returns (registered: Registered)
      requires Sound(Db()) && p !in projects && l !in locations
      modifies `projects, `locations
      ensures Fine(old(Db()), Db())
      ensures registered ==
        if d !in devices then PlanLimit else if devices[d].revoked then DeviceRevoked
        else if cap.Some? && old(|projects|) >= cap.value then PlanLimit else Created(p)
      ensures registered.Created? ==> Next(old(Db()), LocationModel.CreateProject(p, d, path, repository, l, now), Db()) && MarkedDefault(Db(), l) && RowAt(Db(), p, d, l)
      ensures !registered.Created? ==> Db() == old(Db())
    {
      ghost var before := Db();
      if d in devices && !devices[d].revoked && (cap.None? || |projects| < cap.value) {
        projects := projects[p := Project(d, path, repository)];
        locations := locations[l := Location(p, false, Some(d), Some(path), true, now)];
        StepFine(before, LocationModel.CreateProject(p, d, path, repository, l, now), Db());
        return Created(p);
      }
      registered := if d in devices && devices[d].revoked then DeviceRevoked else PlanLimit;
    }

    /**
     * `join`: the machine becomes a place of the project and, when the project was
     * its own under an older id, the default. The default it moves from was read at
     * the start, and may have left nowhere for this machine since: that does no harm.
     */
    method Join(p: ProjectId, d: DeviceId, path: string, learned: bool, takeDefault: bool, l: LocationId, now: int)
      returns (registered: Registered)
      requires Sound(Db()) && p in projects && d in devices && d != NOWHERE && l !in locations
      modifies `projects, `locations, `workspaces
      ensures Fine(old(Db()), Db()) && p in projects
      ensures exists m :: RowAt(Db(), p, d, m)
      ensures projects[p].device ==
        if takeDefault || (old(projects)[p].device == NOWHERE && !HasCloudPlace(old(Db()), p)) then d else old(projects)[p].device
      ensures projects[p].repository == (old(projects)[p].repository || learned)
      ensures registered ==
        if old(projects)[p].device == d || (exists m :: RowAt(old(Db()), p, d, m)) then Updated(p) else Joined(p)
    {
      var given := projects[p].device;
      var wasHere := given == d || exists m :: m in locations && RowAt(Db(), p, d, m);
      PutPlace(p, d, path, learned, l, now);
      if takeDefault { TakeDefault(p, given, d, path); }
      registered := if wasHere then Updated(p) else Joined(p);
    }

    /** The first half of `join`: the place, and what is learned of the project. */
    method PutPlace(p: ProjectId, d: DeviceId, path: string, learned: bool, l: LocationId, now: int)
      requires Sound(Db()) && p in projects && d in devices && d != NOWHERE && l !in locations
      modifies `projects, `locations
      ensures Fine(old(Db()), Db()) && p in projects && workspaces == old(workspaces) && devices == old(devices)
      ensures exists m :: RowAt(Db(), p, d, m)
      ensures projects[p].device ==
        if old(projects)[p].device == NOWHERE && !HasCloudPlace(old(Db()), p) then d else old(projects)[p].device
      ensures projects[p].repository == (old(projects)[p].repository || learned)
    {
      ghost var before := Db();
      PutLands(before, p, d, Some(path), true, l, now);
      PutLocalLocation(p, d, Some(path), true, l, now);
      ghost var put := Db();
      if learned && !projects[p].repository { LearnRepository(p); }
      FineTwice(before, put, Db());
      ghost var place :| RowAt(put, p, d, place);
      assert RowAt(Db(), p, d, place);
    }

    method LearnRepository(p: ProjectId)
      requires Sound(Db()) && p in projects
      modifies `projects
      ensures Fine(old(Db()), Db()) && projects == old(projects)[p := old(projects)[p].(repository := true)]
    {
      ghost var before := Db();
      projects := projects[p := projects[p].(repository := true)];
      ProjectsOnly(before, projects);
    }

    /** Its second half: the default moves from where it was read to be, or came to this machine meanwhile. */
    method TakeDefault(p: ProjectId, given: DeviceId, d: DeviceId, path: string)
      requires Sound(Db()) && p in projects && d in devices && d != NOWHERE && projects[p].device in {given, d}
      requires exists m :: RowAt(Db(), p, d, m)
      modifies `projects, `workspaces
      ensures Fine(old(Db()), Db()) && p in projects && projects[p].device == d && projects[p].repository == old(projects)[p].repository
      ensures workspaces.Keys == old(workspaces).Keys
      ensures exists m :: RowAt(Db(), p, d, m)
    {
      ghost var before := Db();
      var place :| place in locations && RowAt(Db(), p, d, place);
      MoveDefaultFine(before, p, given, place, d, Some(path));
      ChoosingADefault(before, p, given, place, d, Some(path));
      var moved := SetDefaultLocation(p, given, place, d, Some(path));
      assert RowAt(Db(), p, d, place);
    }

    /**
     * `registerProject`, once the keys are healed: by its repository, else by its
     * name, else as new. `same` and `named` are what the two lookups found. No
     * registration moves a workspace, and one that is refused changes nothing.
     */
    method RegisterProject(d: DeviceId, path: string, repository: bool, same: Option<ProjectId>, named: Option<ProjectId>,
                           p: ProjectId, cap: Option<nat>, l: LocationId, now: int)
      returns (registered: Registered)
      requires Sound(Db()) && p !in projects && l !in locations && d in devices && d != NOWHERE
      requires (same.Some? ==> same.value in projects) && (named.Some? ==> named.value in projects)
      modifies `projects, `locations, `workspaces
      ensures Fine(old(Db()), Db())
      ensures registered.Refused() ==> Db() == old(Db())
      ensures !registered.Refused() ==> registered.id in projects && exists m :: RowAt(Db(), registered.id, d, m)
      ensures repository && same.Some? ==> (registered == Joined(same.value) || registered == Updated(same.value))
      ensures !(repository && same.Some?) && named.Some? ==>
        var q := named.value;
        var here := old(projects)[q].device == d || exists m :: RowAt(old(Db()), q, d, m);
        var orphaned := old(devices)[old(projects)[q].device].revoked && q !in old(cloud);
        if here then registered == Updated(q)
        else if orphaned then registered == Joined(q) && projects[q].device == d
        else registered == if q in old(cloud) then CloudProject else SlugTaken
    {
      if repository && same.Some? {
        registered := Join(same.value, d, path, true, false, l, now);
        return;
      }
      if named.None? {
        registered := CreateProject(p, d, path, repository, cap, l, now);
        return;
      }
      var q := named.value;
      var here := projects[q].device == d || exists m :: m in locations && RowAt(Db(), q, d, m);
      if here || (devices[projects[q].device].revoked && q !in cloud) {
        registered := Join(q, d, path, repository && !projects[q].repository, !here, l, now);
        return;
      }
      registered := if q in cloud then CloudProject else SlugTaken;
    }

    method PutRowFor(p: ProjectId, d: DeviceId, place: Option<string>, ready: bool, l: LocationId, now: int)
      modifies `locations
      ensures Db() == Put(old(Db()), p, d, place, ready, l, now)
    {
      if p in projects && d in devices {
        if exists m :: m in locations && RowAt(Db(), p, d, m) {
          locations := map m | m in locations ::
            if RowAt(Db(), p, d, m)
            then locations[m].(path := if place.Some? then place else locations[m].path, ready := ready) else locations[m];
        } else if l !in locations {
          locations := locations[l := Location(p, false, Some(d), place, ready, now)];
        }
      }
    }

    method TakeFromNowhere(p: ProjectId, d: DeviceId, place: Option<string>)
      modifies `projects
      ensures Db() == Take(old(Db()), p, d, place)
    {
      if p in projects && d in devices && projects[p].device == NOWHERE && !HasCloudPlace(Db(), p) {
        projects := projects[p := projects[p].(device := d, path := Coalesce(place, projects[p].path))];
      }
    }
  }

  /** The machine that was put is a place of the project, and Cloud still is one exactly when it was. */
  lemma PutHas(db: Tables, p: ProjectId, d: DeviceId, place: Option<string>, ready: bool, l: LocationId, now: int)
    requires p in db.projects && d in db.devices && l !in db.locations
    ensures
      var put := Put(db, p, d, place, ready, l, now);
      && put == db.(locations := put.locations)
      && (exists m :: RowAt(put, p, d, m)) && (HasCloudPlace(put, p) <==> HasCloudPlace(db, p))
  {
    var put := Put(db, p, d, place, ready, l, now);
    if m :| m in db.locations && RowAt(db, p, d, m) {
      assert RowAt(put, p, d, m);
    } else {
      assert RowAt(put, p, d, l);
    }
    if HasCloudPlace(db, p) {
      var c :| c in db.locations && db.locations[c].project == p && db.locations[c].cloud;
      assert c in put.locations && put.locations[c].project == p && put.locations[c].cloud;
    }
    if HasCloudPlace(put, p) {
      var c :| c in put.locations && put.locations[c].project == p && put.locations[c].cloud;
      assert c in db.locations && db.locations[c].project == p && db.locations[c].cloud;
    }
  }

  /** What `putLocalLocation` leaves. */
  function PutAndTaken(db: Tables, p: ProjectId, d: DeviceId, place: Option<string>, ready: bool, l: LocationId, now: int): Tables {
    var taken := Take(Put(db, p, d, place, ready, l, now), p, d, place);
    if place.Some? && place.value != "" then SetProjectPath(taken, p, d, place.value) else taken
  }

  /** Where a project is once a machine was put, and that the machine is a place of it. */
  lemma PutLands(db: Tables, p: ProjectId, d: DeviceId, place: Option<string>, ready: bool, l: LocationId, now: int)
    requires p in db.projects && d in db.devices && l !in db.locations
    ensures
      var after := PutAndTaken(db, p, d, place, ready, l, now);
      && p in after.projects && (exists m :: RowAt(after, p, d, m))
      && after.projects[p].device == (if db.projects[p].device == NOWHERE && !HasCloudPlace(db, p) then d else db.projects[p].device)
      && after.projects[p].repository == db.projects[p].repository && after.devices == db.devices
  {
    PutHas(db, p, d, place, ready, l, now);
    var put, after := Put(db, p, d, place, ready, l, now), PutAndTaken(db, p, d, place, ready, l, now);
    assert after == db.(locations := put.locations, projects := after.projects);
    var m :| RowAt(put, p, d, m);
    assert RowAt(after, p, d, m);
  }

  lemma KeptIgnores(a: Tables, b: Tables, d: DeviceId, only: Option<ProjectId>)
    requires a.projects == b.projects && a.cloud == b.cloud
    ensures forall p :: Kept(a, d, only, p) <==> Kept(b, d, only, p)
  {
  }

  /** What a removal leaves behind, in one place. */
  lemma RemovalMeans(db: Tables, d: DeviceId, moved: Tables, left: Tables, after: Tables)
    requires Sound(db) && d != NOWHERE && Removed(db, d, moved, left, after)
    ensures Next(db, RemoveMachine(d), after) && Fine(db, after)
    ensures d !in after.devices && forall p :: p in after.projects ==> after.projects[p].device != d
    ensures forall p :: p in db.projects ==> (p in after.projects <==> Outlives(db, p, d))
  {
    RemovedFine(db, d, moved, left, after);
    RemovalForgetsTheMachine(db, d, moved, left, after);
    forall p | p in db.projects ensures p in after.projects <==> Outlives(db, p, d) {
      RemovalConservesProjects(db, d, moved, left, after, p);
    }
  }

  lemma PutThenTakeFine(db: Tables, p: ProjectId, d: DeviceId, place: Option<string>, ready: bool, l: LocationId, now: int)
    requires Sound(db)
    ensures
      var taken := Take(Put(db, p, d, place, ready, l, now), p, d, place);
      Fine(db, if place.Some? && place.value != "" then SetProjectPath(taken, p, d, place.value) else taken)
  {
    var put := Put(db, p, d, place, ready, l, now);
    var taken := Take(put, p, d, place);
    PutFine(db, p, d, place, ready, l, now);
    TakeFine(put, p, d, place);
    PutKeepsWorkspaces(db, p, d, place, ready, l, now);
    FineTwice(db, put, taken);
    if place.Some? && place.value != "" { PathFine(db, taken, p, d, place.value); }
  }

  lemma PathFine(db: Tables, taken: Tables, p: ProjectId, d: DeviceId, path: string)
    requires Sound(db) && Fine(db, taken)
    ensures Fine(db, SetProjectPath(taken, p, d, path))
  {
    ProjectsOnly(taken, SetProjectPath(taken, p, d, path).projects);
    FineTwice(db, taken, SetProjectPath(taken, p, d, path));
  }

  lemma PutKeepsWorkspaces(db: Tables, p: ProjectId, d: DeviceId, place: Option<string>, ready: bool, l: LocationId, now: int)
    ensures Take(Put(db, p, d, place, ready, l, now), p, d, place).workspaces == db.workspaces
    ensures Put(db, p, d, place, ready, l, now).workspaces == db.workspaces
  {
  }

  ghost predicate Homed(before: Tables, p: ProjectId, d: DeviceId, now: Project)
    requires p in before.projects
  {
    if Movable(before, p, d) then exists l :: Best(before, p, d, l) && now == MovedTo(before, p, l) else now == before.projects[p]
  }

  /** The projects of `todo` are still where they were, the others where they belong. */
  ghost predicate PartMoved(before: Tables, d: DeviceId, todo: set<ProjectId>, projects: map<ProjectId, Project>) {
    && (forall p :: p in todo && p in before.projects && p in projects ==> projects[p] == before.projects[p])
    && (forall p :: p in before.projects && p in projects && p !in todo ==> Homed(before, p, d, projects[p]))
  }

  lemma AllMoved(before: Tables, d: DeviceId, projects: map<ProjectId, Project>)
    requires projects.Keys == before.projects.Keys && PartMoved(before, d, {}, projects)
    ensures DefaultsMoved(before, d, before.(projects := projects))
  {
    forall p | p in before.projects ensures Homed(before, p, d, projects[p]) {
    }
  }

  /** Which place is best does not depend on the projects. */
  lemma SameBest(a: Tables, b: Tables, p: ProjectId, d: DeviceId)
    requires b == a.(projects := b.projects)
    ensures forall l :: Best(a, p, d, l) <==> Best(b, p, d, l)
    ensures HasCandidate(a, p, d) <==> HasCandidate(b, p, d)
  {
    assert forall l :: Candidate(a, p, d, l) <==> Candidate(b, p, d, l);
  }

  lemma DefaultSound(db: Tables, p: ProjectId, given: DeviceId, l: LocationId, d: DeviceId, place: Option<string>)
    requires Sound(db) && d != NOWHERE
    ensures Sound(MoveDefault(db, p, given, l, d, place))
  {
    PinFine(db, given);
    if Applies(db, p, l, d) { RehomedSound(Pin(db, given), p, d, Coalesce(place, db.projects[p].path)); }
  }

  lemma RehomedSound(db: Tables, p: ProjectId, d: DeviceId, path: string)
    requires Sound(db) && d != NOWHERE && d in db.devices && p in db.projects
    ensures Sound(db.(projects := db.projects[p := db.projects[p].(device := d, path := path)]))
  {
  }
}
