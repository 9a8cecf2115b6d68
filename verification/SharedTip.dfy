/** A tip on which somebody else has built is never replaced: refs from which a path of parents leads to it
    force a new commit, and one branch more makes the difference. */
module SharedTips {
  import opened Basics
  import opened Repository
  import opened Footers
  import opened ReplayKeys
  import opened Workspaces
  import opened GitGuards
  import opened DatabaseStore
  import opened CheckpointServices
  import S = StoreModel

  /** Nobody disturbs the choice: as soon as a shared ref is ahead of the tip, or names it, a new commit is
      made, whatever ledger and footer say. */
  method AheadForcesCreate(service: CheckpointService, project: Id, session: Id, checkpoint: S.Checkpoint,
                           name: RefName, ghost path: seq<CommitId>)
    returns (mode: CommitMode)
    requires service.git.work.Valid() && service.git.work.script == []
    requires SharedName(name, checkpoint.branch) && name in service.git.work.repo.refs
    requires path != [] && ParentPath(service.git.work.repo.commits, path)
    requires path[0] == service.git.work.repo.refs[name] && path[|path| - 1] == checkpoint.head
    modifies service.git.work
    ensures mode == Create && service.git.work.repo == old(service.git.work.repo)
  {
    hide Accounted;
    hide Extends;
    hide WellFormed;
    hide AmendEvidence;
    hide ChangedPaths;
    mode := service.DetermineCommitMode(project, session, checkpoint);
  }

  /** An empty first commit of the session, checked out on `main`, and an empty second one on top of it. */
  function TwoCommits(description: string, session: Id): map<CommitId, Commit> {
    map[0 := Commit([], map[], WipMessage(description, session)), 1 := Commit([0], map[], "more")]
  }

  /** Nothing but `main` names the first commit. */
  function Alone(description: string, session: Id): Repo {
    Repo(TwoCommits(description, session), map[Branch("main") := 0], OnBranch("main"), map[], map[], {}, 2)
  }

  /** The branch `feature` is one commit ahead. */
  function WithFeature(description: string, session: Id): Repo {
    Alone(description, session).(refs := map[Branch("main") := 0, Branch("feature") := 1])
  }

  lemma Tips(description: string, session: Id)
    ensures WellFormed(Alone(description, session)) && WellFormed(WithFeature(description, session))
    ensures ChangedPaths(Alone(description, session)) == ChangedPaths(WithFeature(description, session)) == {}
    ensures Unshared(Alone(description, session), 0, "main") && !Unshared(WithFeature(description, session), 0, "main")
    ensures HeadOf(Alone(description, session)) == HeadOf(WithFeature(description, session)) == Some(0)
  {
    hide WipMessage;
    var r := WithFeature(description, session);
    assert ParentPath(r.commits, [1, 0]);
    assert LeadsTo(r.commits, 1, 0);
    assert SharedName(Branch("feature"), "main");
  }

  /** Two runs of the choice, with the same ledger and the same tip, which is the session's own: it is amended
      while `main` alone names it, and kept once `feature` is one commit ahead. */
  method OneBranchDecides(database: Database, project: Id, session: Id, description: string, checkpoint: S.Checkpoint)
    returns (alone: CommitMode, shared: CommitMode)
    requires database.Valid() && ProvenTip(database.Contents(), project, session, "main", 0)
    requires ValidDescription(description) && Unambiguous(description) && ValidRequestId(session)
    requires checkpoint.project == project && checkpoint.session == Some(session) && checkpoint.kind == S.Mutation
    requires checkpoint.branch == "main" && checkpoint.head == 0
    ensures alone == AmendSessionWip && shared == Create
  {
    hide Accounted;
    hide Extends;
    hide WellFormed;
    hide ProvenTip;
    hide Unshared;
    hide ChangedPaths;
    hide ParseFooter;
    hide WipMessage;
    hide Unambiguous;
    hide S.Consistent;
    Tips(description, session);
    FooterReadBack(description, session);
    assert session != "";
    var first := new Workspace(Alone(description, session), []);
    var git := new GitGuard(first);
    var service := new CheckpointService(database, git);
    alone := service.DetermineCommitMode(project, session, checkpoint);
    var second := new Workspace(WithFeature(description, session), []);
    git := new GitGuard(second);
    service := new CheckpointService(database, git);
    shared := service.DetermineCommitMode(project, session, checkpoint);
  }
}
