/** Whole runs of reloads and sessions: which root a session was opened under, and which root its
    project has now. */
module RegistryRuns {
  import opened Basics
  import opened RegistryReload
  import S = StoreModel

  /** `roots` remembers the root that the opener of a session had looked up. */
  datatype World = World(registry: Registry, sessions: map<Id, S.Session>, roots: map<Id, string>)

  /** One step: a refresh with its revocations, the creation of a session by an opener that had looked
      up `root`, a move of a session, or a restart that loads the configuration anew. */
  datatype Step =
    | Refresh(looks: Looks)
    | Open(session: Id, project: Id, root: string)
    | Move(session: Id, to: S.SessionStatus)
    | Restart(projects: map<Id, Project>, look: Option<Fingerprint>)

  function Next(w: World, l: Step): World {
    match l
    case Refresh(looks) =>
      var registry := Refreshed(w.registry, looks);
      w.(registry := registry, sessions := Revoked(w.sessions, w.registry.projects.Keys - registry.projects.Keys))
    case Open(x, project, root) =>
      if x in w.sessions then w
      else w.(sessions := w.sessions[x := S.Session.Session(project, S.Active, None)], roots := w.roots[x := root])
    case Move(x, to) =>
      if x !in w.sessions || !S.SessionEdge(w.sessions[x].status, to) then w
      else w.(sessions := w.sessions[x := w.sessions[x].(status := to)])
    case Restart(projects, look) =>
      World(Registry(projects, look, None, 1, if look.Some? then Initial else Unavailable),
            map x | x in w.sessions :: S.RecoveredSession(w.sessions[x]), w.roots)
  }

  /** The worlds of a run, one more than its steps. */
  function At(w: World, steps: seq<Step>): World {
    if steps == [] then w else Next(At(w, steps[..|steps| - 1]), steps[|steps| - 1])
  }

  ghost predicate Wellformed(w: World) {
    w.roots.Keys == w.sessions.Keys && forall x :: x in w.sessions ==> w.sessions[x].status != S.Created
  }

  /** The session works on the root it was opened under. */
  predicate Current(w: World, x: Id) {
    && x in w.sessions && x in w.roots
    && (S.Open(w.sessions[x]) ==>
          w.sessions[x].project in w.registry.projects
          && w.registry.projects[w.sessions[x].project].root == w.roots[x])
  }

  ghost predicate AllCurrent(w: World) {
    forall x :: x in w.sessions ==> Current(w, x)
  }

  /** Creating the session finds its project registered with the root that was looked up. */
  predicate Unsplit(w: World, l: Step) {
    l.Open? && l.session !in w.sessions ==>
      l.project in w.registry.projects && w.registry.projects[l.project].root == l.root
  }

  /** Did this step install a snapshot? */
  predicate Installing(w: World, l: Step) {
    l.Refresh? && Installs(w.registry, l.looks)
  }

  // ---------------------------------------------------------------- one step

  /** A refresh never moves the root of a project that stays registered. */
  lemma RefreshKeepsRoots(r: Registry, l: Looks, p: Id)
    ensures p in r.projects && p in Refreshed(r, l).projects ==>
              Refreshed(r, l).projects[p].root == r.projects[p].root
  {
    if Installs(r, l) && p in r.projects && p in l.loaded.value {
      assert p !in RootChanges(r.projects, l.loaded.value);
    }
  }

  lemma StepKeepsCurrent(w: World, l: Step)
    requires Wellformed(w) && AllCurrent(w)
    ensures Wellformed(Next(w, l))
    ensures AllCurrent(Next(w, l)) <==> Unsplit(w, l)
  {
    hide Refreshed;
    var v := Next(w, l);
    if l.Refresh? {
      forall x | x in v.sessions ensures Current(v, x) {
        assert Current(w, x);
        RefreshKeepsRoots(w.registry, l.looks, w.sessions[x].project);
      }
    } else if l.Open? && l.session !in w.sessions {
      if Unsplit(w, l) {
        forall x | x in v.sessions ensures Current(v, x) {
          if x != l.session { assert Current(w, x); }
        }
      } else {
        assert !Current(v, l.session);
      }
    } else {
      forall x | x in v.sessions ensures Current(v, x) {
        assert Current(w, x);
      }
    }
  }

  lemma StepKeepsWellformed(w: World, l: Step)
    requires Wellformed(w)
    ensures Wellformed(Next(w, l))
  {
    hide Refreshed;
  }

  // ---------------------------------------------------------------- whole runs

  ghost predicate NeverSplit(w: World, steps: seq<Step>) {
    forall k :: 0 <= k < |steps| ==> Unsplit(At(w, steps[..k]), steps[k])
  }

  ghost predicate AlwaysCurrent(w: World, steps: seq<Step>) {
    forall k :: 0 <= k <= |steps| ==> AllCurrent(At(w, steps[..k]))
  }

  /** In a run that starts well, every open session works on the root it was opened under, at all
      times, exactly when no reload ever came between an opener's lookup and its session's creation
      with the effect of changing or removing what it had looked up. */
  lemma {:induction false} SessionsStayOnTheirRoot(w: World, steps: seq<Step>)
    requires Wellformed(w) && AllCurrent(w)
    ensures AlwaysCurrent(w, steps) <==> NeverSplit(w, steps)
    ensures Wellformed(At(w, steps))
  {
    hide Unsplit;
    hide Wellformed;
    hide AllCurrent;
    if steps == [] {
      assert steps[..0] == steps;
    } else {
      var n := |steps| - 1;
      var prefix, l := steps[..n], steps[n];
      SessionsStayOnTheirRoot(w, prefix);
      StepKeepsWellformed(At(w, prefix), l);
      assert forall k :: 0 <= k <= n ==> prefix[..k] == steps[..k];
      assert steps[..n + 1] == steps;
      assert AllCurrent(At(w, prefix)) ==> (AllCurrent(At(w, steps)) <==> Unsplit(At(w, prefix), l)) by {
        if AllCurrent(At(w, prefix)) { StepKeepsCurrent(At(w, prefix), l); }
      }
      AlwaysCurrentStep(w, steps);
      NeverSplitStep(w, steps);
      assert AlwaysCurrent(w, prefix) ==> AllCurrent(At(w, prefix)) by { assert prefix[..n] == prefix; }
    }
  }

  lemma AlwaysCurrentStep(w: World, steps: seq<Step>)
    requires steps != []
    ensures AlwaysCurrent(w, steps) <==> AlwaysCurrent(w, steps[..|steps| - 1]) && AllCurrent(At(w, steps))
  {
    hide AllCurrent;
    hide At;
    var prefix := steps[..|steps| - 1];
    assert steps[..|steps|] == steps;
    assert forall k :: 0 <= k <= |prefix| ==> prefix[..k] == steps[..k];
  }

  lemma NeverSplitStep(w: World, steps: seq<Step>)
    requires steps != []
    ensures NeverSplit(w, steps) <==>
              NeverSplit(w, steps[..|steps| - 1]) && Unsplit(At(w, steps[..|steps| - 1]), steps[|steps| - 1])
  {
    hide Unsplit;
    hide At;
    var prefix := steps[..|steps| - 1];
    assert forall k :: 0 <= k < |prefix| ==> prefix[..k] == steps[..k] && prefix[k] == steps[k];
  }

  /** How many snapshots a run without restarts installed. */
  function Installations(w: World, steps: seq<Step>): nat {
    if steps == [] then 0
    else
      var prefix := steps[..|steps| - 1];
      Installations(w, prefix) + if Installing(At(w, prefix), steps[|steps| - 1]) then 1 else 0
  }

  predicate NoRestart(steps: seq<Step>) {
    forall k :: 0 <= k < |steps| ==> !steps[k].Restart?
  }

  /** The generation counts the installed snapshots, and a failed reload keeps the old one. */
  lemma {:induction false} GenerationCounts(w: World, steps: seq<Step>)
    requires NoRestart(steps)
    ensures At(w, steps).registry.generation == w.registry.generation + Installations(w, steps)
    ensures Installations(w, steps) == 0 ==> At(w, steps).registry.projects == w.registry.projects
  {
    hide Refreshed;
    hide Installs;
    if steps != [] {
      var prefix, l := steps[..|steps| - 1], steps[|steps| - 1];
      GenerationCounts(w, prefix);
      if l.Refresh? { KeptUnlessInstalled(At(w, prefix).registry, l.looks); }
    }
  }

  function RootOf(w: World, p: Id): Option<string> {
    if p in w.registry.projects then Some(w.registry.projects[p].root) else None
  }

  /** A project has another root at the end of a run without restarts only if some snapshot in between
      was without it. */
  lemma {:induction false} RootsMoveOnlyThroughRemoval(w: World, steps: seq<Step>, p: Id)
    requires NoRestart(steps)
    requires forall k :: 0 <= k <= |steps| ==> p in At(w, steps[..k]).registry.projects
    ensures RootOf(At(w, steps), p) == RootOf(w, p)
  {
    hide Refreshed;
    assert steps[..|steps|] == steps;
    assert p in At(w, steps[..0]).registry.projects;
    if steps != [] {
      var prefix, l := steps[..|steps| - 1], steps[|steps| - 1];
      assert forall k :: 0 <= k <= |prefix| ==> prefix[..k] == steps[..k];
      RootsMoveOnlyThroughRemoval(w, prefix, p);
      assert prefix[..|prefix|] == prefix;
      if l.Refresh? { RefreshKeepsRoots(At(w, prefix).registry, l.looks, p); }
    }
  }

  /** The run that goes wrong: between an opener's lookup and its session's creation the project is
      removed, then added again at another root. */
  lemma SplitOpenGoesStale() returns (w: World, steps: seq<Step>)
    ensures Wellformed(w) && AllCurrent(w) && !NeverSplit(w, steps)
    ensures "s" in At(w, steps).sessions && !Current(At(w, steps), "s")
  {
    var v0, v1, v2 := Fingerprint(0, 0), Fingerprint(1, 0), Fingerprint(2, 0);
    var old_, new_: map<Id, Project> := map["p" := Project("a", "")], map["p" := Project("b", "")];
    w := World(Registry(old_, Some(v0), None, 1, Initial), map[], map[]);
    var remove := Refresh(Looks(Some(v1), Some(v1), Some(map[]), Some(v1)));
    var add := Refresh(Looks(Some(v2), Some(v2), Some(new_), Some(v2)));
    steps := [remove, add, Open("s", "p", "a")];
    SplitOpenRun(w, steps, remove, add, new_);
  }

  lemma AtAppend(w: World, steps: seq<Step>, l: Step)
    ensures At(w, steps + [l]) == Next(At(w, steps), l)
  {
    assert (steps + [l])[..|steps|] == steps;
  }

  lemma SplitOpenRun(w: World, steps: seq<Step>, remove: Step, add: Step, new_: map<Id, Project>)
    requires w.sessions == map[] && w.roots == map[] && w.registry.failed.None?
    requires steps == [remove, add, Open("s", "p", "a")]
    requires new_ == map["p" := Project("b", "")]
    requires remove.Refresh? && Installs(w.registry, remove.looks) && remove.looks.loaded == Some(map[])
    requires add.Refresh? && add.looks.loaded == Some(new_) && add.looks.first.Some? && add.looks.third == add.looks.second == add.looks.first
    requires add.looks.first != remove.looks.third
    ensures !NeverSplit(w, steps) && "s" in At(w, steps).sessions && !Current(At(w, steps), "s")
  {
    assert steps[..1] == [] + [remove] && steps[..2] == [remove] + [add] && steps == steps[..2] + [steps[2]];
    AtAppend(w, [], remove);
    AtAppend(w, [remove], add);
    AtAppend(w, steps[..2], steps[2]);
    var w1 := At(w, steps[..1]);
    assert w1 == Next(w, remove);
    assert RootChanges(w1.registry.projects, new_) == {};
    var w2 := At(w, steps[..2]);
    assert w2 == Next(w1, add) && w2.registry.projects == new_;
    assert w2.sessions == map[];
    assert !Unsplit(w2, steps[2]);
    assert At(w, steps) == Next(w2, steps[2]);
  }
}
