/**
 * What becomes of every row when a machine is removed, put, or taken from a
 * project, and when Exeora Cloud comes or goes, in the columns themselves.
 */
module LocationEffects {
  import opened Common
  import opened LocationModel
  import opened LocationTheorems
  import opened AccountTables

  /** A place of the project on another machine, one that exists and is not revoked. */
  ghost predicate Elsewhere(db: Tables, p: ProjectId, d: DeviceId, l: LocationId) {
    l in db.locations && db.locations[l].project == p
    && exists e :: e in db.devices && db.locations[l].device == Some(e) && e != d && db.devices[e] == Device(false)
  }

  /** None of the other places is ready when this one is not, the person's own when this one is Cloud, or else older. */
  ghost predicate FirstElsewhere(db: Tables, p: ProjectId, d: DeviceId, l: LocationId) {
    Elsewhere(db, p, d, l) && forall m :: Elsewhere(db, p, d, m) ==>
      var a, b := db.locations[l], db.locations[m];
      (b.ready ==> a.ready) && (a.ready == b.ready ==> (a.cloud ==> b.cloud) && (a.cloud == b.cloud ==> a.createdAt <= b.createdAt))
  }

  lemma ElsewhereIs(db: Tables, p: ProjectId, d: DeviceId)
    ensures forall l :: Elsewhere(db, p, d, l) <==> Candidate(db, p, d, l)
    ensures forall l :: FirstElsewhere(db, p, d, l) <==> Best(db, p, d, l)
  {
    forall l ensures Elsewhere(db, p, d, l) <==> Candidate(db, p, d, l) {
      if Candidate(db, p, d, l) { assert db.devices[db.locations[l].device.value] == Device(false); }
    }
  }

  /**
   * Where a project is after a machine is removed: untouched when it was on another
   * one; else at the first of its places elsewhere, with that place's path; else
   * nowhere when it has a repository or Cloud; and gone otherwise, or when it was
   * being removed altogether.
   */
  ghost predicate Lands(db: Tables, d: DeviceId, p: ProjectId, home: Option<Project>)
    requires p in db.projects
  {
    var was := db.projects[p];
    if was.device != d then home == Some(was)
    else if p in db.cloud && db.cloud[p] == LeavingAltogether then home == None
    else if exists l :: Elsewhere(db, p, d, l) then exists l :: FirstElsewhere(db, p, d, l) && LandsAt(db, was, l, home)
    else if was.repository || p in db.cloud then home == Some(Project(0, was.path, was.repository))
    else home == None
  }

  ghost predicate LandsAt(db: Tables, was: Project, l: LocationId, home: Option<Project>) {
    && l in db.locations && db.locations[l].device.Some?
    && home == Some(Project(db.locations[l].device.value, if db.locations[l].path == None then was.path else db.locations[l].path.value, was.repository))
  }

  lemma HomeLands(db: Tables, d: DeviceId, p: ProjectId, home: Option<Project>)
    requires p in db.projects && (home.Some? <==> Outlives(db, p, d)) && (home.Some? ==> NewHome(db, p, d, home.value))
    ensures Lands(db, d, p, home)
  {
    ElsewhereIs(db, p, d);
    if db.projects[p].device == d && home.Some? && HasCandidate(db, p, d) {
      var l :| Best(db, p, d, l) && home.value == MovedTo(db, p, l);
      assert FirstElsewhere(db, p, d, l) && LandsAt(db, db.projects[p], l, home);
    }
  }

  /** Over every run, every project lands there when a machine is removed. */
  lemma RemovalLands(dbs: seq<Tables>, steps: seq<Step>, i: nat, p: ProjectId)
    requires Run(dbs, steps) && i < |steps| && steps[i].RemoveMachine? && p in dbs[i].projects
    ensures Lands(dbs[i], steps[i].d, p, if p in dbs[i + 1].projects then Some(dbs[i + 1].projects[p]) else None)
  {
    RunSound(dbs, steps, i);
    var db, d, after := dbs[i], steps[i].d, dbs[i + 1];
    var moved, left :| Removed(db, d, moved, left, after);
    RemovalConservesProjects(db, d, moved, left, after, p);
    HomeLands(db, d, p, if p in after.projects then Some(after.projects[p]) else None);
  }

  /** The rows after a machine was put: its one row of the project has the path, when one is given, and the readiness; no other changes. */
  ghost predicate RowsPut(db: Tables, p: ProjectId, d: DeviceId, place: Option<string>, ready: bool, l: LocationId, now: int, rows: map<LocationId, Location>) {
    if exists m :: m in db.locations && db.locations[m].project == p && db.locations[m].device == Some(d) then
      rows.Keys == db.locations.Keys && forall m :: m in rows ==>
        var row := db.locations[m];
        rows[m] == if row.project == p && row.device == Some(d)
                   then row.(path := if place == None then row.path else place, ready := ready) else row
    else rows == db.locations[l := Location(p, false, Some(d), place, ready, now)]
  }

  lemma PutRows(db: Tables, p: ProjectId, d: DeviceId, place: Option<string>, ready: bool, l: LocationId, now: int)
    requires p in db.projects && d in db.devices && l !in db.locations
    ensures Put(db, p, d, place, ready, l, now) == db.(locations := Put(db, p, d, place, ready, l, now).locations)
    ensures RowsPut(db, p, d, place, ready, l, now, Put(db, p, d, place, ready, l, now).locations)
  {
    if m :| m in db.locations && db.locations[m].project == p && db.locations[m].device == Some(d) { assert RowAt(db, p, d, m); }
  }

  /**
   * What putting a machine leaves: its row; the project on it when it was nowhere
   * and not on Cloud, with the path, unless empty, when it was on it; and everything else as it was.
   */
  lemma PutLeaves(db: Tables, p: ProjectId, d: DeviceId, place: Option<string>, ready: bool, l: LocationId, now: int)
    requires p in db.projects && d in db.devices && l !in db.locations
    ensures
      var after, was := PutAndTaken(db, p, d, place, ready, l, now), db.projects[p];
      var taken := was.device == 0 && forall m :: m in db.locations && db.locations[m].project == p ==> !db.locations[m].cloud;
      && RowsPut(db, p, d, place, ready, l, now, after.locations)
      && after == db.(locations := after.locations, projects := db.projects[p :=
           Project(if taken then d else was.device,
                   if place.Some? && (taken || (was.device == d && place.value != "")) then place.value else was.path, was.repository)])
  {
    var put := Put(db, p, d, place, ready, l, now);
    PutRows(db, p, d, place, ready, l, now);
    PutHas(db, p, d, place, ready, l, now);
    TakenIs(put, p, d, place);
    assert HasCloudPlace(db, p) <==> exists m :: m in db.locations && db.locations[m].project == p && db.locations[m].cloud;
  }

  lemma TakenIs(put: Tables, p: ProjectId, d: DeviceId, place: Option<string>)
    requires p in put.projects && d in put.devices
    ensures
      var taken, was := Take(put, p, d, place), put.projects[p];
      var took := was.device == 0 && !HasCloudPlace(put, p);
      (if place.Some? && place.value != "" then SetProjectPath(taken, p, d, place.value) else taken)
        == put.(projects := put.projects[p := Project(if took then d else was.device,
                                                      if place.Some? && (took || (was.device == d && place.value != "")) then place.value else was.path,
                                                      was.repository)])
  {
    assert put.projects == put.projects[p := put.projects[p]];
  }

  /**
   * Taking a project off a machine drops that place and no other, the workspaces on
   * the machine, and those that follow the default when that is what goes; with the
   * last machine a project that has a repository or Cloud comes to live nowhere.
   */
  lemma TakeOffLeaves(dbs: seq<Tables>, steps: seq<Step>, i: nat)
    requires Run(dbs, steps) && i < |steps| && steps[i].RemoveLocation? && steps[i].p in dbs[i].projects
    ensures
      var db, after, step := dbs[i], dbs[i + 1], steps[i];
      var was, marked := db.projects[step.p], step.p in db.cloud && db.cloud[step.p] == LeavingAltogether;
      && after.locations == db.locations - {step.l} && after.cloud == db.cloud
      && (forall w :: w in after.workspaces <==> w in db.workspaces && !Dropped(db.workspaces[w], step.p, step.machine, step.isDefault || step.last))
      && (forall w :: w in after.workspaces ==> after.workspaces[w] == db.workspaces[w])
      && after.projects == db.projects[step.p :=
           if step.last && was.device == step.given && (was.repository || step.p in db.cloud) && !marked then was.(device := 0) else was]
  {
    var db, step := dbs[i], steps[i];
    assert Next(db, step, dbs[i + 1]);
    assert dbs[i + 1] == TakeOff(db, step.p, step.given, step.l, step.machine, step.isDefault, step.last);
  }

  predicate Dropped(w: Workspace, p: ProjectId, machine: DeviceId, following: bool) {
    w.project == p && (w.device == Some(machine) || (w.device == None && following))
  }

  /** Cloud's removal, once done: the whole project with all it has, or only Cloud as its place; nothing of any other project. */
  lemma CloudGoes(dbs: seq<Tables>, steps: seq<Step>, i: nat)
    requires Run(dbs, steps) && i < |steps| && steps[i].FinishCloud?
    ensures
      var db, after, p := dbs[i], dbs[i + 1], steps[i].p;
      var leaving := p in db.cloud && db.cloud[p] != NotLeaving;
      var altogether := leaving && db.cloud[p] == LeavingAltogether;
      && after.devices == db.devices
      && after.cloud == (if leaving then db.cloud - {p} else db.cloud)
      && after.projects == (if altogether then db.projects - {p} else db.projects)
      && (forall l :: l in after.locations <==> l in db.locations && !(db.locations[l].project == p && (altogether || (leaving && db.locations[l].cloud))))
      && (forall w :: w in after.workspaces <==> w in db.workspaces && !(altogether && db.workspaces[w].project == p))
      && (forall l :: l in after.locations ==> after.locations[l] == db.locations[l])
      && (forall w :: w in after.workspaces ==> after.workspaces[w] == db.workspaces[w])
  {
    assert Next(dbs[i], steps[i], dbs[i + 1]);
  }

  /**
   * A machine for Cloud's root, when Cloud is wanted and the machine is new: Cloud's
   * place that had none is on it, and so is the project when it lived nowhere. Else
   * nothing changes.
   */
  lemma RootIsGiven(dbs: seq<Tables>, steps: seq<Step>, i: nat, l: LocationId)
    requires Run(dbs, steps) && NowhereIsEmpty(dbs[0]) && i < |steps| && steps[i].GiveCloudRoot? && l in dbs[i].locations
    requires dbs[i].locations[l].project == steps[i].p && dbs[i].locations[l].cloud && dbs[i].locations[l].device == None
    ensures
      var db, after, p, d, path := dbs[i], dbs[i + 1], steps[i].p, steps[i].d, steps[i].path;
      if d == 0 || d in db.devices || p !in db.cloud || db.cloud[p] != NotLeaving then after == db
      else
        && after.devices == db.devices[d := Device(false)] && after.workspaces == db.workspaces && after.cloud == db.cloud
        && after.locations == db.locations[l := Location(p, true, Some(d), Some(path), db.locations[l].ready, db.locations[l].createdAt)]
        && p in db.projects && after.projects == db.projects[p := if db.projects[p].device == 0 then Project(d, path, db.projects[p].repository) else db.projects[p]]
  {
    RunSound(dbs, steps, i);
    var db, p, d, path := dbs[i], steps[i].p, steps[i].d, steps[i].path;
    assert Next(db, steps[i], dbs[i + 1]);
    if d != 0 && d !in db.devices && p in db.cloud && db.cloud[p] == NotLeaving { RootPlacedIs(db, p, d, path, l); }
  }

  lemma RootPlacedIs(db: Tables, p: ProjectId, d: DeviceId, path: string, l: LocationId)
    requires Sound(db) && d !in db.devices && p in db.projects
    requires l in db.locations && db.locations[l].project == p && db.locations[l].cloud && db.locations[l].device == None
    ensures
      var placed := RootPlaced(db, p, d, path);
      && placed == db.(devices := db.devices[d := Device(false)], locations := placed.locations)
      && placed.locations == db.locations[l := Location(p, true, Some(d), Some(path), db.locations[l].ready, db.locations[l].createdAt)]
      && RowAt(placed, p, d, l)
  {
    var placed := RootPlaced(db, p, d, path);
    forall m | m in db.locations && m != l ensures placed.locations[m] == db.locations[m] {
      if db.locations[m].project == p && db.locations[m].cloud { assert SamePlace(db.locations[m], db.locations[l]); }
    }
  }

  /**
   * Choosing a place as the default puts the project on its machine, with its path
   * when it has one, and ties to the machine it leaves every workspace that followed
   * it there, of whatever project; every other row stays.
   */
  lemma DefaultIsChosen(dbs: seq<Tables>, steps: seq<Step>, i: nat)
    requires Run(dbs, steps) && i < |steps| && steps[i].SetDefault? && steps[i].d != steps[i].given && steps[i].d in dbs[i].devices
    requires steps[i].p in dbs[i].projects && steps[i].l in dbs[i].locations && dbs[i].locations[steps[i].l].project == steps[i].p
    ensures
      var db, after, step := dbs[i], dbs[i + 1], steps[i];
      var was := db.projects[step.p];
      && after == db.(projects := after.projects, workspaces := after.workspaces)
      && after.projects == db.projects[step.p := Project(step.d, if step.place == None then was.path else step.place.value, was.repository)]
      && after.workspaces.Keys == db.workspaces.Keys
      && forall w :: w in db.workspaces ==>
           var at := db.workspaces[w];
           after.workspaces[w] ==
             if at.device == None && at.project in db.projects && db.projects[at.project].device == step.given
             then at.(device := Some(step.given)) else at
  {
    RunSound(dbs, steps, i);
    assert Next(dbs[i], steps[i], dbs[i + 1]);
  }

  /** A project's machine without a row of its own is given one, with the project's path, as long as Cloud stays one place of it. */
  lemma FillLeaves(dbs: seq<Tables>, steps: seq<Step>, i: nat)
    requires Run(dbs, steps) && i < |steps| && steps[i].FillIn? && steps[i].p in dbs[i].projects && steps[i].l !in dbs[i].locations
    ensures
      var db, after, step := dbs[i], dbs[i + 1], steps[i];
      var at := db.projects[step.p];
      var hasRow := exists m :: m in db.locations && db.locations[m].project == step.p && db.locations[m].device == Some(step.d);
      var hasCloud := exists m :: m in db.locations && db.locations[m].project == step.p && db.locations[m].cloud;
      after ==
        if at.device == step.d && !hasRow && !(step.cloud && hasCloud)
        then db.(locations := db.locations[step.l := Location(step.p, step.cloud, Some(step.d), Some(at.path), true, step.now)]) else db
  {
    RunSound(dbs, steps, i);
    var db, step := dbs[i], steps[i];
    assert Next(db, step, dbs[i + 1]);
    assert (exists m :: m in db.locations && RowAt(db, step.p, step.d, m))
      <==> exists m :: m in db.locations && db.locations[m].project == step.p && db.locations[m].device == Some(step.d);
    assert HasCloudPlace(db, step.p) <==> exists m :: m in db.locations && db.locations[m].project == step.p && db.locations[m].cloud;
  }

  // ------------------------------------------------------------ what only some steps change

  lemma LeftDevices(db: Tables, d: DeviceId, moved: Tables, after: Tables)
    requires Left(db, d, moved, after)
    ensures forall e :: e in db.devices ==> e in after.devices && after.devices[e] == db.devices[e]
  {
    assert moved.devices == db.devices;
  }

  lemma DeletedDevices(db: Tables, d: DeviceId)
    ensures DeleteDevice(db, d).devices == db.devices - {d}
  {
  }

  lemma MachineStepRevoked(db: Tables, step: Step, after: Tables, d: DeviceId)
    requires (step.LeaveMachine? || step.RemoveMachine?) && Next(db, step, after)
    requires d in db.devices && db.devices[d].revoked && step != RemoveMachine(d)
    ensures d in after.devices && after.devices[d].revoked
  {
    if step.LeaveMachine? {
      var moved :| Left(db, step.d, moved, after);
      LeftDevices(db, step.d, moved, after);
    } else {
      var moved, left :| Removed(db, step.d, moved, left, after);
      LeftDevices(db, step.d, moved, left);
      DeletedDevices(left, step.d);
    }
  }

  lemma OtherStepRevoked(db: Tables, step: Step, after: Tables, d: DeviceId)
    requires !step.LeaveMachine? && !step.RemoveMachine? && Next(db, step, after)
    requires d in db.devices && (db.devices[d].revoked || step == Revoke(d))
    ensures d in after.devices && after.devices[d].revoked
  {
  }

  lemma RevokedStep(dbs: seq<Tables>, steps: seq<Step>, k: nat, d: DeviceId)
    requires Run(dbs, steps) && k < |steps| && d in dbs[k].devices && steps[k] != RemoveMachine(d)
    requires dbs[k].devices[d].revoked || steps[k] == Revoke(d)
    ensures d in dbs[k + 1].devices && dbs[k + 1].devices[d].revoked
  {
    assert Next(dbs[k], steps[k], dbs[k + 1]);
    if steps[k].LeaveMachine? || steps[k].RemoveMachine? {
      MachineStepRevoked(dbs[k], steps[k], dbs[k + 1], d);
    } else {
      OtherStepRevoked(dbs[k], steps[k], dbs[k + 1], d);
    }
  }

  ghost predicate StillRevoked(db: Tables, after: Tables, d: DeviceId) {
    d in db.devices && db.devices[d].revoked ==> d in after.devices && after.devices[d].revoked
  }

  lemma {:induction false} RevokedAlong(dbs: seq<Tables>, i: nat, j: nat, d: DeviceId)
    requires i <= j < |dbs| && d in dbs[i].devices && dbs[i].devices[d].revoked
    requires forall k :: i <= k < j ==> StillRevoked(dbs[k], dbs[k + 1], d)
    ensures d in dbs[j].devices && dbs[j].devices[d].revoked
    decreases j - i
  {
    if i < j {
      RevokedAlong(dbs, i, j - 1, d);
      assert StillRevoked(dbs[j - 1], dbs[j - 1 + 1], d);
    }
  }

  /** Over every run a machine that was revoked stays revoked until it is removed: no project moves to it any more. */
  lemma RevokedStays(dbs: seq<Tables>, steps: seq<Step>, i: nat, j: nat, d: DeviceId)
    requires Run(dbs, steps) && i < j < |dbs| && steps[i] == Revoke(d) && d in dbs[i].devices
    requires forall k :: i < k < j ==> steps[k] != RemoveMachine(d)
    ensures d in dbs[j].devices && dbs[j].devices[d].revoked
    ensures forall p, other, l :: Elsewhere(dbs[j], p, other, l) ==> dbs[j].locations[l].device != Some(d)
  {
    RevokedStep(dbs, steps, i, d);
    forall k | i + 1 <= k < j ensures StillRevoked(dbs[k], dbs[k + 1], d) {
      if d in dbs[k].devices && dbs[k].devices[d].revoked { RevokedStep(dbs, steps, k, d); }
    }
    RevokedAlong(dbs, i + 1, j, d);
  }

  lemma MachineStepRepository(db: Tables, step: Step, after: Tables, p: ProjectId)
    requires (step.LeaveMachine? || step.RemoveMachine?) && Sound(db) && Next(db, step, after) && p in db.projects && p in after.projects
    ensures after.projects[p].repository == db.projects[p].repository
  {
    if step.LeaveMachine? {
      var moved :| Left(db, step.d, moved, after);
      MovedHome(db, step.d, moved, p);
      KeptHome(moved, step.d, p);
    } else {
      var moved, left :| Removed(db, step.d, moved, left, after);
      RemovalConservesProjects(db, step.d, moved, left, after, p);
    }
  }

  lemma PlainStepRepository(db: Tables, step: Step, after: Tables, p: ProjectId)
    requires Plain(step) && Next(db, step, after) && p in db.projects && p in after.projects && !(step.HealRepository? && step.p == p)
    ensures after.projects[p].repository == db.projects[p].repository
  {
  }

  lemma OtherStepRepository(db: Tables, step: Step, after: Tables, p: ProjectId)
    requires !Plain(step) && !step.LeaveMachine? && !step.RemoveMachine? && Next(db, step, after) && p in db.projects && p in after.projects
    ensures after.projects[p].repository == db.projects[p].repository
  {
  }

  lemma RepositoryStep(dbs: seq<Tables>, steps: seq<Step>, k: nat, p: ProjectId)
    requires Run(dbs, steps) && k < |steps| && p in dbs[k].projects && p in dbs[k + 1].projects
    ensures dbs[k + 1].projects[p].repository == if steps[k].HealRepository? && steps[k].p == p then steps[k].known else dbs[k].projects[p].repository
  {
    RunSound(dbs, steps, k);
    assert Next(dbs[k], steps[k], dbs[k + 1]);
    if steps[k].LeaveMachine? || steps[k].RemoveMachine? {
      MachineStepRepository(dbs[k], steps[k], dbs[k + 1], p);
    } else if Plain(steps[k]) {
      if !(steps[k].HealRepository? && steps[k].p == p) { PlainStepRepository(dbs[k], steps[k], dbs[k + 1], p); }
    } else {
      OtherStepRepository(dbs[k], steps[k], dbs[k + 1], p);
    }
  }

  ghost predicate SameRepository(db: Tables, after: Tables, p: ProjectId) {
    p in db.projects && p in after.projects && after.projects[p].repository == db.projects[p].repository
  }

  lemma {:induction false} RepositoryAlong(dbs: seq<Tables>, i: nat, j: nat, p: ProjectId)
    requires i <= j < |dbs| && p in dbs[i].projects && forall k :: i <= k < j ==> SameRepository(dbs[k], dbs[k + 1], p)
    ensures p in dbs[j].projects && dbs[j].projects[p].repository == dbs[i].projects[p].repository
    decreases j - i
  {
    if i < j {
      RepositoryAlong(dbs, i, j - 1, p);
      assert SameRepository(dbs[j - 1], dbs[j - 1 + 1], p);
    }
  }

  /** Whether a project has a repository is what it was last healed to, wherever the project moves. */
  lemma RepositoryStays(dbs: seq<Tables>, steps: seq<Step>, i: nat, j: nat, p: ProjectId, known: bool)
    requires Run(dbs, steps) && i < j < |dbs| && steps[i] == HealRepository(p, known)
    requires forall k :: i <= k <= j ==> p in dbs[k].projects
    requires forall k :: i < k < j ==> !(steps[k].HealRepository? && steps[k].p == p)
    ensures dbs[j].projects[p].repository == known
  {
    RepositoryStep(dbs, steps, i, p);
    forall k | i + 1 <= k < j ensures SameRepository(dbs[k], dbs[k + 1], p) {
      assert p in dbs[k].projects && p in dbs[k + 1].projects;
      RepositoryStep(dbs, steps, k, p);
    }
    RepositoryAlong(dbs, i + 1, j, p);
  }
}
