/** Hot reload of the project registry (`project_registry.py`), and the revocation that follows it
    (`_refresh_project_registry` of `mcp_server.py`). */
module RegistryReload {
  import opened Basics
  import opened DatabaseStore
  import S = StoreModel

  /** A project: its resolved root, and everything else that is configured for it. */
  datatype Project = Project(root: string, settings: string)

  datatype Fingerprint = Fingerprint(mtime: int, size: nat)

  datatype Status = Initial | Reloaded | Unavailable | Invalid | RootChanged | ChangedDuringReload

  datatype Registry = Registry(
    projects: map<Id, Project>, fingerprint: Option<Fingerprint>, failed: Option<Fingerprint>,
    generation: nat, status: Status)

  /** What the configuration file shows at the four points where one refresh looks at it; None where
      the look fails. */
  datatype Looks = Looks(
    first: Option<Fingerprint>, second: Option<Fingerprint>, loaded: Option<map<Id, Project>>,
    third: Option<Fingerprint>)

  predicate News(r: Registry, f: Option<Fingerprint>) {
    f.Some? && f != r.fingerprint && f != r.failed
  }

  /** Roots that the candidate would change without removing the project first. */
  function RootChanges(before: map<Id, Project>, after: map<Id, Project>): set<Id> {
    set p | p in before && p in after && before[p].root != after[p].root
  }

  /** A refresh installs exactly when the file is news at both looks, loads, moves no root, and is still
      the same file afterwards. */
  predicate Installs(r: Registry, l: Looks) {
    && News(r, l.first) && News(r, l.second)
    && l.loaded.Some? && RootChanges(r.projects, l.loaded.value) == {}
    && l.third == l.second
  }

  function Refreshed(r: Registry, l: Looks): Registry {
    if Installs(r, l) then Registry(l.loaded.value, l.third, None, r.generation + 1, Reloaded)
    else if l.first.None? then r.(status := Unavailable)
    else if !News(r, l.first) then r
    else if l.second.None? then r.(status := Unavailable)
    else if !News(r, l.second) then r
    else if l.loaded.None? then r.(failed := l.second, status := Invalid)
    else if RootChanges(r.projects, l.loaded.value) != {} then r.(failed := l.second, status := RootChanged)
    else if l.third.None? then r.(status := Unavailable)
    else r.(status := ChangedDuringReload)
  }

  class ProjectRegistry {
    var projects: map<Id, Project>
    var fingerprint: Option<Fingerprint>
    var lastFailed: Option<Fingerprint>
    var generation: nat
    var status: Status

    function Value(): Registry
      reads this
    {
      Registry(projects, fingerprint, lastFailed, generation, status)
    }

    constructor (projects: map<Id, Project>, look: Option<Fingerprint>)
      ensures Value() == Registry(projects, look, None, 1, if look.Some? then Initial else Unavailable)
    {
      this.projects, fingerprint, lastFailed, generation := projects, look, None, 1;
      status := if look.Some? then Initial else Unavailable;
    }

    /** Installs one coherent snapshot when the file has changed. */
    method RefreshIfChanged(l: Looks) returns (installed: bool)
      modifies this
      ensures Value() == Refreshed(old(Value()), l)
      ensures installed <==> Installs(old(Value()), l)
      ensures installed <==>
                && l.first.Some? && l.first != old(fingerprint) && l.first != old(lastFailed)
                && l.second.Some? && l.second != old(fingerprint) && l.second != old(lastFailed)
                && l.loaded.Some? && l.third == l.second
                && forall p :: p in old(projects) && p in l.loaded.value ==> l.loaded.value[p].root == old(projects)[p].root
      ensures installed ==>
                && projects == l.loaded.value && fingerprint == l.third && lastFailed == None
                && generation == old(generation) + 1 && status == Reloaded
      ensures !installed ==>
                && projects == old(projects) && fingerprint == old(fingerprint) && generation == old(generation)
                && (lastFailed == old(lastFailed) || (lastFailed == l.second && status in {Invalid, RootChanged}))
    {
      if l.first.None? {
        status := Unavailable;
        return false;
      }
      if l.first == fingerprint || l.first == lastFailed { return false; }
      if l.second.None? {
        status := Unavailable;
        return false;
      }
      if l.second == fingerprint || l.second == lastFailed { return false; }
      if l.loaded.None? {
        lastFailed, status := l.second, Invalid;
        return false;
      }
      var moved := set p | p in projects && p in l.loaded.value && projects[p].root != l.loaded.value[p].root;
      assert moved == RootChanges(projects, l.loaded.value);
      if moved != {} {
        assert exists p :: p in projects && p in l.loaded.value && projects[p].root != l.loaded.value[p].root by {
          var p :| p in moved;
        }
        lastFailed, status := l.second, RootChanged;
        return false;
      }
      assert forall p :: p in projects && p in l.loaded.value ==> p !in moved;
      if l.third.None? {
        status := Unavailable;
        return false;
      }
      if l.third != l.second {
        status := ChangedDuringReload;
        return false;
      }
      projects, fingerprint, lastFailed := l.loaded.value, l.third, None;
      generation, status := generation + 1, Reloaded;
      return true;
    }
  }

  /** A file that has been installed is not looked into again while it stays as it is; nor is one that failed
      to load. */
  method RefreshTwice(registry: ProjectRegistry, l: Looks, again: Looks) returns (first: bool, second: bool)
    requires again.first == l.second
    modifies registry
    ensures first ==> !second && Some(registry.projects) == l.loaded && registry.fingerprint == l.second
    ensures !first && old(News(registry.Value(), l.first) && News(registry.Value(), l.second)) && l.loaded.None? ==>
              !second && registry.status == Invalid && registry.projects == old(registry.projects)
  {
    first := registry.RefreshIfChanged(l);
    second := registry.RefreshIfChanged(again);
  }

  const REMOVED := Some("project_removed")

  /** Sessions of the removed projects are blocked, all others untouched. */
  function Revoked(sessions: map<Id, S.Session>, removed: set<Id>): map<Id, S.Session> {
    map id | id in sessions ::
      if sessions[id].project in removed && S.Open(sessions[id])
      then sessions[id].(status := S.Blocked, reason := REMOVED) else sessions[id]
  }

  class BridgeService {
    const registry: ProjectRegistry
    const database: Database

    constructor (registry: ProjectRegistry, database: Database)
      ensures this.registry == registry && this.database == database
    {
      this.registry, this.database := registry, database;
    }

    /** A refresh, and the revocation of every project it removed. */
    method RefreshProjectRegistry(l: Looks) returns (installed: bool)
      requires database.Valid()
      modifies registry, database
      ensures database.Valid()
      ensures registry.Value() == Refreshed(old(registry.Value()), l)
      ensures installed <==> Installs(old(registry.Value()), l)
      ensures database.sessions
           == Revoked(old(database.sessions), old(registry.projects).Keys - registry.projects.Keys)
      ensures database.sessions.Keys == old(database.sessions).Keys
      ensures forall id :: id in old(database.sessions) ==>
                var was := old(database.sessions)[id];
                database.sessions[id]
                == if was.project in old(registry.projects) && was.project !in registry.projects
                      && (was.status == S.Active || was.status == S.Closing)
                   then was.(status := S.Blocked, reason := Some("project_removed")) else was
      ensures database.operations == old(database.operations) && database.approvals == old(database.approvals)
      ensures database.checkpoints == old(database.checkpoints)
    {
      hide S.Consistent;
      hide Refreshed;
      hide Installs;
      hide Revoked;
      var before := registry.projects;
      installed := registry.RefreshIfChanged(l);
      KeptUnlessInstalled(old(registry.Value()), l);
      RevokedNothing(database.sessions);
      RevokedMeans(old(database.sessions), before.Keys - registry.projects.Keys);
      if !installed { return; }
      RevokeProjects(before.Keys - registry.projects.Keys);
    }

    method RevokeProjects(removed: set<Id>)
      requires database.Valid()
      modifies database
      ensures database.Valid()
      ensures database.sessions == Revoked(old(database.sessions), removed)
      ensures database.operations == old(database.operations) && database.approvals == old(database.approvals)
      ensures database.checkpoints == old(database.checkpoints)
    {
      hide S.Consistent;
      hide Revoked;
      var rows := removed;
      RevokedNothing(database.sessions);
      assert removed - removed == {};
      while rows != {}
        invariant database.Valid() && rows <= removed
        invariant database.sessions == Revoked(old(database.sessions), removed - rows)
        invariant database.operations == old(database.operations) && database.approvals == old(database.approvals)
        invariant database.checkpoints == old(database.checkpoints)
        decreases |rows|
      {
        var project :| project in rows;
        ghost var was := database.sessions;
        var blocked := database.BlockActiveSessionsForProject(project, "project_removed");
        RevokedOneMore(old(database.sessions), removed - rows, project, was, database.sessions);
        assert removed - (rows - {project}) == (removed - rows) + {project};
        rows := rows - {project};
      }
      assert removed - {} == removed;
    }
  }

  lemma RevokedMeans(sessions: map<Id, S.Session>, removed: set<Id>)
    ensures Revoked(sessions, removed).Keys == sessions.Keys
    ensures forall id :: id in sessions ==>
              Revoked(sessions, removed)[id]
              == if sessions[id].project in removed && (sessions[id].status == S.Active || sessions[id].status == S.Closing)
                 then sessions[id].(status := S.Blocked, reason := Some("project_removed")) else sessions[id]
  {
  }

  lemma RevokedNothing(sessions: map<Id, S.Session>)
    ensures Revoked(sessions, {}) == sessions
  {
  }

  lemma KeptUnlessInstalled(r: Registry, l: Looks)
    ensures !Installs(r, l) ==>
              Refreshed(r, l).projects == r.projects && Refreshed(r, l).generation == r.generation
              && r.projects.Keys - Refreshed(r, l).projects.Keys == {}
              && Refreshed(r, l).fingerprint == r.fingerprint
    ensures Installs(r, l) ==> Refreshed(r, l).generation == r.generation + 1 && RootChanges(r.projects, Refreshed(r, l).projects) == {}
  {
  }

  lemma RevokedOneMore(sessions: map<Id, S.Session>, done: set<Id>, project: Id,
                       was: map<Id, S.Session>, now: map<Id, S.Session>)
    requires was == Revoked(sessions, done) && now.Keys == was.Keys
    requires forall id :: id in was ==>
               now[id] == if was[id].project == project && S.Open(was[id])
                          then was[id].(status := S.Blocked, reason := REMOVED) else was[id]
    ensures now == Revoked(sessions, done + {project})
  {
  }
}
