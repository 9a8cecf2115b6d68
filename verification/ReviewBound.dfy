/** The await bound of a finalization is sharp: with the tenth disturbed await its `files` and its `dirty`
    flag can describe another HEAD than the one it records. The witness is a run of the finalization. */
module ReviewBound {
  import opened Basics
  import opened Repository
  import opened Workspaces
  import opened GitGuards
  import opened PathPolicy
  import opened DatabaseStore
  import opened CheckpointServices
  import opened AwaitBounds
  import S = StoreModel

  const REFS: map<RefName, CommitId> := map[Branch("main") := 0, CheckpointRef("c") := 0]

  /** Clean on commit 0, which is empty and which the checkpoint ref names too. */
  const REVIEWED := EMPTY_START.(refs := REFS)

  /** Others have checked out commit 1, and created a file. */
  const MEANWHILE := REVIEWED.(refs := REFS[Branch("main") := 1], index := ONE, work := map[OTHER := "y", FILE := "z"])

  lemma ReviewedStates()
    ensures WellFormed(REVIEWED) && Extends(REVIEWED, MEANWHILE) && !Extends(REVIEWED, NOWHERE)
    ensures ChangedPaths(REVIEWED) == {} && ChangedPaths(MEANWHILE) == {FILE}
    ensures HeadTree(REVIEWED) == map[] && HeadTree(MEANWHILE) == ONE != TreeOf(MEANWHILE, 0)
  {
    assert FILE != OTHER by { assert FILE[0] != OTHER[0]; }
    Unchanged(REVIEWED);
    ChangedOnly(MEANWHILE, FILE);
    assert OTHER in ONE;
  }

  /** Before its last two commands the review finds the repository undisturbed. */
  lemma FirstNine(script: seq<Interference>)
    requires |script| == 10 && forall i :: 0 <= i < 9 ==> script[i] == PAUSE
    ensures Expected(REVIEWED, script, 0, "main") && Played(REVIEWED, script, 4) == REVIEWED
    ensures Compares(REVIEWED, Drop(script, 4), "c", 0) && Compared(REVIEWED, Drop(script, 4)) == REVIEWED
  {
    hide Extends;
    hide ChangedPaths;
    hide Played;
    hide IsSensitive;
    ReviewedStates();
    Paused(REVIEWED, script, 1);
    Paused(REVIEWED, script, 2);
    Paused(REVIEWED, script, 4);
    var rest := Drop(script, 4);
    PausedOnce(REVIEWED, rest);
    PausedOnce(REVIEWED, Drop(rest, 1));
    PausedOnce(REVIEWED, Drop(Drop(rest, 1), 1));
    assert Complete(script, 3) && Complete(Drop(script, 3), 1);
    assert ChangedBetween(RefTree(REVIEWED, "c"), TreeOf(REVIEWED, 0)) == {};
  }

  lemma LastFour(script: seq<Interference>)
    requires script == [PAUSE, PAUSE, Interference(MEANWHILE, Completes)]
    ensures Expected(REVIEWED, script, 0, "main") && Played(REVIEWED, script, 4) == MEANWHILE
  {
    hide Extends;
    hide ChangedPaths;
    ReviewedStates();
    Paused(REVIEWED, script, 1);
    Paused(REVIEWED, script, 2);
    Struck(REVIEWED, script, 2, MEANWHILE);
    assert Drop(script, 3) == [];
  }

  lemma GoesThrough(script: seq<Interference>)
    requires script == [PAUSE, PAUSE, PAUSE, PAUSE, PAUSE, PAUSE, PAUSE, PAUSE, PAUSE, Interference(MEANWHILE, Completes)]
    ensures Reviews(REVIEWED, script, "c", 0, "main") && FinallySeen(REVIEWED, script) == MEANWHILE
    ensures ValidBranch("main")
  {
    hide Extends;
    hide Expected;
    hide Compares;
    hide Compared;
    hide Played;
    FirstNine(script);
    LastFour(Drop(Drop(script, 4), 3));
  }

  /** A finalization that records HEAD 0 with the files of commit 1, and calls a workspace dirty that
      was clean as long as HEAD was where it says. */
  method TenthAwaitMixesTheHeads() returns (work: Workspace, row: S.Checkpoint)
    ensures fresh(work) && RunOf(work, REVIEWED, 10) && work.effects == []
    ensures row.after.Some? && row.after.value.head == 0 && row.after.value.files != TreeOf(work.repo, 0)
    ensures row.after.value.dirty && ChangedPaths(REVIEWED) == {} && Extends(REVIEWED, work.repo)
  {
    hide Extends;
    hide WellFormed;
    hide Accounted;
    hide ChangedPaths;
    hide Reviews;
    hide FinallySeen;
    hide ChangedBetween;
    hide RefTree;
    hide HeadOf;
    hide RefKept;
    hide TreeOf;
    hide HeadTree;
    hide TwoCommits;
    hide ValidBranch;
    hide S.Consistent;
    var script := [PAUSE, PAUSE, PAUSE, PAUSE, PAUSE, PAUSE, PAUSE, PAUSE, PAUSE, Interference(MEANWHILE, Completes)];
    ReviewedStates();
    GoesThrough(script);
    var database := new Database();
    var snapshot := S.Snapshot.Snapshot("main", 0, false, {}, map[], false);
    row := S.Checkpoint.Checkpoint("p", Some("s"), None, S.Manual, "main", 0, snapshot, None, None, S.Recorded);
    var _ := database.CreateCheckpoint("c", row);
    work := new Workspace(REVIEWED, script);
    var git := new GitGuard(work);
    var checkpoints := new CheckpointService(database, git);
    var r := checkpoints.Finalize("c", row, 0, "main");
    row := r.value;
  }
}
