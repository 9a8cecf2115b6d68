/** What a session's file mutation may do to the ledger and to Git, as relations between the states
    before and after it. */
module MutationModel {
  import opened Basics
  import opened Repository
  import opened Footers
  import opened Workspaces
  import opened GitGuards
  import opened CheckpointServices
  import opened PathPolicy
  import S = StoreModel

  /** A mutation checkpoint of `operation`, not finalized. */
  predicate FreshRow(row: S.Checkpoint, project: Id, session: Id, operation: Id) {
    && row.project == project && row.session == Some(session) && row.operation == Some(operation)
    && row.kind == S.Mutation && row.status == S.Recorded && row.after.None? && row.diffHash.None?
    && row.head == row.before.head && row.branch == row.before.branch && !row.before.dirty
  }

  /** The ledger has gained exactly the fresh row `c`. */
  ghost predicate RowAdded(s: S.Store, t: S.Store, project: Id, session: Id, operation: Id, c: Id) {
    && c !in s.checkpoints && operation in s.operations && c in t.checkpoints
    && FreshRow(t.checkpoints[c], project, session, operation)
    && t.checkpoints == s.checkpoints[c := t.checkpoints[c]]
    && t.sessions == s.sessions && t.operations == s.operations
  }

  /** An amend was justified: the ledger proved, when the mode was chosen, that the session owned the
      tip; and unless somebody interfered during the recheck, the replaced tip was that very commit,
      with exactly this session's footer and on no other published ref. */
  ghost predicate AmendJustified(s: S.Store, e: Effect, project: Id, session: Id, row: S.Checkpoint) {
    && ProvenTip(s, project, session, row.branch, row.head) && |e.recheck| == 5
    && (Still(e.recheck, e.before) ==> AmendSafe(e, row.head, row.branch) && OwnedTip(e.before, row.head, session))
  }

  /** What every file mutation promises whatever happens at its awaits: an error other than unknown
      leaves worktree, index and HEAD to others; every amend is justified; every new commit carries
      the session's footer. */
  ghost predicate BodyOutcome(s: S.Store, was: seq<Effect>, t: S.Store, now: seq<Effect>,
                              r: Result<S.Checkpoint, ErrorCode>,
                              project: Id, session: Id, operation: Id, c: Id, description: string)
  {
    && was <= now && t.sessions == s.sessions && t.operations == s.operations
    && (r.Err? ==> t == s || RowAdded(s, t, project, session, operation, c))
    && (r.Err? && r.error != UnknownSideEffect ==> OnlyRefs(was, now, c))
    && (forall i :: |was| <= i < |now| && now[i].command.GitAmend? ==>
          c in t.checkpoints && AmendJustified(s, now[i], project, session, t.checkpoints[c]))
    && (forall i :: |was| <= i < |now| && now[i].command.GitCommit? ==>
          HeadOf(now[i].after).Some? && HeadOf(now[i].after).value in now[i].after.commits
          && now[i].after.commits[HeadOf(now[i].after).value].message == WipMessage(description, session))
  }

  /** The same of the moves of the repository: short of an unknown result others made them all but
      those of the checkpoint ref; every amend is justified, and every new commit carries the footer. */
  ghost predicate BodyMoves(s: S.Store, was: seq<Move>, t: S.Store, now: seq<Move>,
                            r: Result<S.Checkpoint, ErrorCode>,
                            project: Id, session: Id, c: Id, description: string)
  {
    && was <= now
    && (r.Err? && r.error != UnknownSideEffect ==> OthersOrRef(was, now, c))
    && forall k :: |was| <= k < |now| && now[k].Ours? ==>
         OwnMove(s, t, now[k].effect, project, session, c, description)
  }

  ghost predicate OwnMove(s: S.Store, t: S.Store, e: Effect, project: Id, session: Id, c: Id, description: string) {
    && (e.command.GitAmend? ==> c in t.checkpoints && AmendJustified(s, e, project, session, t.checkpoints[c]))
    && (e.command.GitCommit? ==>
          HeadOf(e.after).Some? && HeadOf(e.after).value in e.after.commits
          && e.after.commits[HeadOf(e.after).value].message == WipMessage(description, session))
  }

  /** The mode that the evidence allows. */
  ghost function EarnedMode(s: S.Store, r: Repo, project: Id, session: Id): CommitMode
    requires HeadOf(r).Some?
  {
    if session != "" && ProvenTip(s, project, session, BranchName(r), HeadOf(r).value)
       && OwnedTip(r, HeadOf(r).value, session) && Unshared(r, HeadOf(r).value, BranchName(r))
    then AmendSessionWip else Create
  }

  /** The finalized row of a mutation that moved HEAD from `old_` to `new_`. */
  predicate MovedRow(row: S.Checkpoint, project: Id, session: Id, operation: Id, branch: string,
                     old_: CommitId, new_: CommitId)
  {
    && row.project == project && row.session == Some(session) && row.operation == Some(operation)
    && row.kind == S.Mutation && row.status == S.Recorded
    && row.head == row.before.head == old_ && row.branch == row.before.branch == branch
    && row.after.Some? && row.diffHash.Some?
    && row.after.value.head == new_ && row.after.value.branch == branch && !row.after.value.dirty
  }

  /** An undisturbed mutation: either HEAD, commits and refs stay as they are, or exactly one commit
      is made in the earned mode and recorded. */
  ghost predicate BodyStep(s: S.Store, r: Repo, t: S.Store, q: Repo,
                           project: Id, session: Id, operation: Id, c: Id, description: string)
  {
    && t.sessions == s.sessions && t.operations == s.operations
    && (t.checkpoints == s.checkpoints
        || (c !in s.checkpoints && operation in s.operations && c in t.checkpoints
            && t.checkpoints == s.checkpoints[c := t.checkpoints[c]]
            && t.checkpoints[c].operation == Some(operation)))
    && if HeadOf(q) == HeadOf(r) then
         && TipsKept(r, q, c)
         && (t.checkpoints != s.checkpoints ==> StillRow(t.checkpoints[c]))
       else
         && HeadOf(r).Some? && HeadOf(r).value in r.commits && c !in s.checkpoints && c in t.checkpoints
         && OneNewTip(WithRef(r, c), q, EarnedMode(s, r, project, session), WipMessage(description, session))
         && MovedRow(t.checkpoints[c], project, session, operation, BranchName(r), HeadOf(r).value, r.next)
  }

  /** A row that proves nothing: not finalized, or finalized without a change of HEAD. */
  predicate StillRow(row: S.Checkpoint) {
    row.after.Some? ==> row.after.value.head == row.before.head
  }

  function WithRef(r: Repo, c: Id): Repo
    requires HeadOf(r).Some?
  {
    r.(refs := r.refs[CheckpointRef(c) := HeadOf(r).value])
  }

  /** Undisturbed, a mutation opens on a clean HEAD in the mode that the evidence allows. */
  ghost predicate Opened(s: S.Store, r: Repo, q: Repo, project: Id, session: Id, c: Id,
                         row: S.Checkpoint, mode: CommitMode)
  {
    && Captured(r, q, c, row.before)
    && (mode == AmendSessionWip <==>
          session != "" && AmendEvidence(s, q, project, session, row)
          && Unshared(q, row.head, row.branch))
  }

  /** The row `c` got its after part, and nothing else changed. */
  ghost predicate Finalized(s: S.Store, t: S.Store, c: Id, head: CommitId, branch: string)
    requires c in s.checkpoints
  {
    && c in t.checkpoints && t.checkpoints == s.checkpoints[c := t.checkpoints[c]]
    && t.sessions == s.sessions && t.operations == s.operations
    && t.checkpoints[c].after.Some? && t.checkpoints[c].diffHash.Some?
    && t.checkpoints[c] == s.checkpoints[c].(after := t.checkpoints[c].after, diffHash := t.checkpoints[c].diffHash)
    && t.checkpoints[c].after.value.head == head && t.checkpoints[c].after.value.branch == branch
  }

  // ---------------------------------------------------------------- assembling a mutation

  /** A fresh row is no evidence, and hides none. */
  lemma EvidenceKept(s: S.Store, t: S.Store, project: Id, session: Id, operation: Id, c: Id,
                     branch: string, head: CommitId)
    requires RowAdded(s, t, project, session, operation, c)
    ensures ProvenTip(t, project, session, branch, head) <==> ProvenTip(s, project, session, branch, head)
  {
    if w :| S.ProvesSessionWip(t, w, project, session, branch, head) {
      assert w != c;
      assert S.ProvesSessionWip(s, w, project, session, branch, head);
    }
    if w :| S.ProvesSessionWip(s, w, project, session, branch, head) {
      assert S.ProvesSessionWip(t, w, project, session, branch, head);
    }
  }

  /** A commit seen by two states that both grew into one is the same in both. */
  lemma OwnedByBoth(a: Repo, b: Repo, final: Repo, head: CommitId, session: Id)
    requires Extends(a, final) && Extends(b, final)
    requires OwnedTip(a, head, session) && head in b.commits
    ensures OwnedTip(b, head, session)
  {
    hide ParseFooter;
  }

  /** The parts of a disturbed mutation make its outcome. */
  lemma AssembleOutcome(s0: S.Store, e0: seq<Effect>, s1: S.Store, r1: Repo, e1: seq<Effect>,
                        s2: S.Store, final: Repo, e2: seq<Effect>,
                        paths: seq<Path>, mode: CommitMode, committed: Result<CommitId, ErrorCode>,
                        r: Result<S.Checkpoint, ErrorCode>,
                        project: Id, session: Id, operation: Id, c: Id, description: string)
    requires RowAdded(s0, s1, project, session, operation, c) && OnlyRefs(e0, e1, c)
    requires mode == AmendSessionWip ==> AmendEvidence(s1, r1, project, session, s1.checkpoints[c])
    requires e1 <= e2
    requires OnlyCommits(e2, |e1|, paths, mode, WipMessage(description, session),
                         s1.checkpoints[c].head, s1.checkpoints[c].branch)
    requires committed.Err? && committed.error != UnknownSideEffect ==> e2 == e1
    requires r.Err? ==> s2 == s1 && r.error == if committed.Err? then committed.error else UnknownSideEffect
    requires r.Ok? ==> committed.Ok? && Finalized(s1, s2, c, committed.value, s1.checkpoints[c].branch)
    requires Extends(r1, final) && forall i :: 0 <= i < |e2| ==> Extends(e2[i].before, final)
    ensures BodyOutcome(s0, e0, s2, e2, r, project, session, operation, c, description)
  {
    var row := s1.checkpoints[c];
    assert row.head == s2.checkpoints[c].head && row.branch == s2.checkpoints[c].branch;
    forall i | |e0| <= i < |e2| && IsCommit(e2[i])
      ensures e2[i].command.GitAmend? ==> AmendJustified(s0, e2[i], project, session, row)
      ensures e2[i].command.GitCommit? ==>
                HeadOf(e2[i].after).Some? && HeadOf(e2[i].after).value in e2[i].after.commits
                && e2[i].after.commits[HeadOf(e2[i].after).value].message == WipMessage(description, session)
    {
      assert i >= |e1|;
      CommitJustified(s0, s1, r1, final, e2[i], paths, mode, project, session, operation, c, description);
    }
  }

  lemma CommitJustified(s0: S.Store, s1: S.Store, r1: Repo, final: Repo, e: Effect, paths: seq<Path>,
                        mode: CommitMode, project: Id, session: Id, operation: Id, c: Id, description: string)
    requires RowAdded(s0, s1, project, session, operation, c)
    requires mode == AmendSessionWip ==> AmendEvidence(s1, r1, project, session, s1.checkpoints[c])
    requires CommitEffect(e, paths, mode, WipMessage(description, session),
                          s1.checkpoints[c].head, s1.checkpoints[c].branch)
    requires Extends(r1, final) && Extends(e.before, final)
    ensures e.command.GitAmend? ==> AmendJustified(s0, e, project, session, s1.checkpoints[c])
    ensures e.command.GitCommit? ==>
              HeadOf(e.after).Some? && HeadOf(e.after).value in e.after.commits
              && e.after.commits[HeadOf(e.after).value].message == WipMessage(description, session)
  {
    hide ParseFooter;
    hide SharedRefs;
    hide Unshared;
    var row := s1.checkpoints[c];
    if mode == AmendSessionWip {
      EvidenceKept(s0, s1, project, session, operation, c, row.branch, row.head);
      if Still(e.recheck, e.before) { OwnedByBoth(r1, e.before, final, row.head, session); }
    } else {
      CommitExtends(e.before, paths, [HeadOf(e.before).value], WipMessage(description, session));
    }
  }

  lemma NothingDone(s: S.Store, r: Repo, e: seq<Effect>, project: Id, session: Id, operation: Id, c: Id,
                    description: string)
    ensures forall code :: code != UnknownSideEffect ==>
              BodyOutcome(s, e, s, e, Err(code), project, session, operation, c, description)
    ensures BodyStep(s, r, s, r, project, session, operation, c, description)
  {
  }

  /** What the Git half of an undisturbed mutation leaves. */
  ghost predicate QuietCommit(r1: Repo, r2: Repo, row: S.Checkpoint, paths: seq<Path>, mode: CommitMode,
                              message: string, committed: Result<CommitId, ErrorCode>)
  {
    if committed.Ok? && committed.value != row.head then
      && OneNewTip(r1, r2, mode, message) && committed.value == r1.next
      && IsolatedCommit(r2, committed.value, row.head, paths, mode)
    else SameTips(r1, r2)
  }

  /** The parts of an undisturbed mutation make one step; if HEAD moved, the mutation succeeded. */
  lemma AssembleStep(s0: S.Store, r0: Repo, s1: S.Store, r1: Repo, s2: S.Store, r2: Repo,
                     paths: seq<Path>, mode: CommitMode, committed: Result<CommitId, ErrorCode>,
                     r: Result<S.Checkpoint, ErrorCode>,
                     project: Id, session: Id, operation: Id, c: Id, description: string)
    requires RowAdded(s0, s1, project, session, operation, c) && WellFormed(r0)
    requires Opened(s1, r0, r1, project, session, c, s1.checkpoints[c], mode)
    requires QuietCommit(r1, r2, s1.checkpoints[c], paths, mode, WipMessage(description, session), committed)
    requires r.Err? ==> s2 == s1
    requires r.Ok? ==> committed.Ok? && Finalized(s1, s2, c, committed.value, s1.checkpoints[c].branch)
                       && s2.checkpoints[c].after.value.dirty == (ChangedPaths(r2) != {})
    requires r.Ok? <==> committed.Ok? && ValidBranch(s1.checkpoints[c].branch)
                        && Reviewable(r2, c, committed.value, s1.checkpoints[c].branch)
    requires ValidBranch(BranchName(r0)) && forall p :: p in paths ==> !IsSensitive(p)
    ensures BodyStep(s0, r0, s2, r2, project, session, operation, c, description)
    ensures HeadOf(r2) != HeadOf(r0) ==> r.Ok?
  {
    hide ParseFooter;
    hide SharedRefs;
    hide Unshared;
    hide IsSensitive;
    hide ChangedPaths;
    hide ChangedBetween;
    hide ValidBranch;
    hide Reviewable;
    hide IsolatedCommit;
    var row := s1.checkpoints[c];
    assert r1 == WithRef(r0, c);
    if committed.Ok? && committed.value != row.head {
      ModeEarned(s0, s1, r0, r1, project, session, operation, c, mode);
      MovedReviewable(r1, r2, c, row, paths, mode, WipMessage(description, session));
    } else {
      assert TipsKept(r0, r2, c);
    }
  }

  lemma ModeEarned(s0: S.Store, s1: S.Store, r0: Repo, r1: Repo, project: Id, session: Id, operation: Id, c: Id,
                   mode: CommitMode)
    requires RowAdded(s0, s1, project, session, operation, c)
    requires Opened(s1, r0, r1, project, session, c, s1.checkpoints[c], mode)
    ensures mode == EarnedMode(s0, r0, project, session)
  {
    hide ParseFooter;
    hide SharedRefs;
    hide Unshared;
    hide ChangedPaths;
    hide ProvenTip;
    var row := s1.checkpoints[c];
    EvidenceKept(s0, s1, project, session, operation, c, row.branch, row.head);
    assert TipsKept(r0, r1, c);
    CheckpointRefsShareNothing(r0, r1, c, row.head, row.branch);
  }

  /** Nothing about the new commit can make its finalization fail. */
  lemma MovedReviewable(r1: Repo, r2: Repo, c: Id, row: S.Checkpoint, paths: seq<Path>, mode: CommitMode,
                        message: string)
    requires OneNewTip(r1, r2, mode, message) && IsolatedCommit(r2, r1.next, row.head, paths, mode)
    requires Lookup(r1.refs, CheckpointRef(c)) == Some(row.head) && BranchName(r1) == row.branch
    requires forall p :: p in paths ==> !IsSensitive(p)
    ensures Reviewable(r2, c, r1.next, row.branch) && ChangedPaths(r2) == {}
  {
    hide IsSensitive;
    hide ChangedPaths;
  }

  /** A mutation that did not get past its opening. */
  lemma BeginFailed(s: S.Store, r: Repo, q: Repo, e0: seq<Effect>, e1: seq<Effect>, code: ErrorCode,
                    project: Id, session: Id, operation: Id, c: Id, description: string)
    requires OnlyRefs(e0, e1, c) && code != UnknownSideEffect
    ensures BodyOutcome(s, e0, s, e1, Err(code), project, session, operation, c, description)
    ensures TipsKept(r, q, c) ==>
              BodyStep(s, r, s, q, project, session, operation, c, description) && HeadOf(q) == HeadOf(r)
  {
    if TipsKept(r, q, c) { CheckpointRefsShareNothing(r, q, c, 0, ""); }
  }

  /** A mutation that failed its last checks before touching Git. */
  lemma NoMutation(r: Repo, script: seq<Interference>, e: seq<Effect>, code: ErrorCode, paths: seq<Path>,
                   mode: CommitMode, message: string, head: CommitId, branch: string, grace: nat)
    requires code != UnknownSideEffect
    ensures MutationOutcome(r, script, e, r, e, Err(code), paths, mode, message, head, branch, grace)
  {
  }

  /** A body from its opening to its end. */
  lemma Assemble(s0: S.Store, r0: Repo, e0: seq<Effect>, s1: S.Store, r1: Repo, e1: seq<Effect>,
                 script: seq<Interference>, undisturbed: bool, r2: Repo, e2: seq<Effect>, s3: S.Store, r3: Repo,
                 paths: seq<Path>, mode: CommitMode, committed: Result<CommitId, ErrorCode>, grace: nat,
                 r: Result<S.Checkpoint, ErrorCode>,
                 project: Id, session: Id, operation: Id, c: Id, description: string)
    requires WellFormed(r0) && RowAdded(s0, s1, project, session, operation, c) && OnlyRefs(e0, e1, c)
    requires mode == AmendSessionWip ==> AmendEvidence(s1, r1, project, session, s1.checkpoints[c])
    requires MutationOutcome(r1, script, e1, r2, e2, committed, paths, mode, WipMessage(description, session),
                             s1.checkpoints[c].head, s1.checkpoints[c].branch, grace)
    requires Extends(r1, r2) && Extends(r2, r3) && forall i :: 0 <= i < |e2| ==> Extends(e2[i].before, r3)
    requires r.Err? ==> s3 == s1 && r.error == if committed.Err? then committed.error else UnknownSideEffect
    requires r.Ok? ==> committed.Ok? && Finalized(s1, s3, c, committed.value, s1.checkpoints[c].branch)
    requires forall p :: p in paths ==> !IsSensitive(p)
    requires undisturbed ==>
      && script == [] && Opened(s1, r0, r1, project, session, c, s1.checkpoints[c], mode) && r3 == r2
      && (r.Ok? <==> committed.Ok? && ValidBranch(s1.checkpoints[c].branch)
                     && Reviewable(r2, c, committed.value, s1.checkpoints[c].branch))
      && (r.Ok? ==> s3.checkpoints[c].after.value.dirty == (ChangedPaths(r2) != {}))
    ensures BodyOutcome(s0, e0, s3, e2, r, project, session, operation, c, description)
    ensures undisturbed && ValidBranch(BranchName(r0)) ==>
              BodyStep(s0, r0, s3, r3, project, session, operation, c, description)
              && (HeadOf(r3) != HeadOf(r0) ==> r.Ok?)
    ensures undisturbed ==>
              QuietCommit(r1, r2, s1.checkpoints[c], paths, mode, WipMessage(description, session), committed)
  {
    hide BodyOutcome;
    hide BodyStep;
    hide WellFormed;
    hide Extends;
    hide OnlyCommits;
    hide RowAdded;
    hide Finalized;
    hide Opened;
    hide Reviewable;
    hide ValidBranch;
    hide AmendEvidence;
    hide IsSensitive;
    hide ChangedPaths;
    hide OneNewTip;
    hide SameTips;
    hide IsolatedCommit;
    ExtendsTransitive(r1, r2, r3);
    AssembleOutcome(s0, e0, s1, r1, e1, s3, r3, e2, paths, mode, committed, r, project, session, operation, c, description);
    if undisturbed && ValidBranch(BranchName(r0)) {
      AssembleStep(s0, r0, s1, r1, s3, r2, paths, mode, committed, r, project, session, operation, c, description);
    }
  }

  /** What the log promises, the moves keep. */
  lemma MovesOfBody(origin: Repo, script: seq<Interference>, past: History, now: History,
                    s: S.Store, t: S.Store, r: Result<S.Checkpoint, ErrorCode>,
                    project: Id, session: Id, operation: Id, c: Id, description: string)
    requires Accounted(origin, script, past) && Accounted(origin, script, now) && past.moves <= now.moves
    requires BodyOutcome(s, past.effects, t, now.effects, r, project, session, operation, c, description)
    ensures BodyMoves(s, past.moves, t, now.moves, r, project, session, c, description)
  {
    hide Accounted;
    hide AmendJustified;
    hide RefEffect;
    OwnMoves(origin, script, past, now);
    if r.Err? && r.error != UnknownSideEffect { OnlyRefMoves(origin, script, past, now, c); }
    forall k | |past.moves| <= k < |now.moves| && now.moves[k].Ours?
      ensures OwnMove(s, t, now.moves[k].effect, project, session, c, description)
    {
      var i :| |past.effects| <= i < |now.effects| && now.effects[i] == now.moves[k].effect;
    }
  }

  /** What stands behind an amend that a mutation made, spelled out. When the mode was chosen, the ledger held a
      recorded, succeeded mutation of this session that had moved HEAD to the checkpoint's head. And if the
      repository was the same at the five awaits up to the amend, the tip that was replaced is that head, on the
      checkpoint's branch, with this session's footer; no path of parents leads to it from a remote ref, a tag or
      another branch; and the new tip keeps its parents and its message. */
  lemma AmendedTip(s: S.Store, was: seq<Move>, t: S.Store, now: seq<Move>, r: Result<S.Checkpoint, ErrorCode>,
                   project: Id, session: Id, c: Id, description: string, k: nat)
    requires BodyMoves(s, was, t, now, r, project, session, c, description)
    requires |was| <= k < |now| && now[k].Ours? && now[k].effect.command.GitAmend?
    ensures c in t.checkpoints
    ensures var e, head, branch := now[k].effect, t.checkpoints[c].head, t.checkpoints[c].branch;
            && (exists w :: w in s.checkpoints && s.checkpoints[w].session == Some(session)
                            && s.checkpoints[w].status == S.Recorded && s.checkpoints[w].after.Some?
                            && s.checkpoints[w].before.head != s.checkpoints[w].after.value.head == head
                            && s.checkpoints[w].operation.Some? && s.checkpoints[w].operation.value in s.operations
                            && s.operations[s.checkpoints[w].operation.value].state == S.Succeeded)
            && |e.recheck| == 5
            && ((forall i :: 0 <= i < 5 ==> e.recheck[i] == e.before) ==>
                  && HeadOf(e.before) == Some(head) && BranchName(e.before) == branch && head in e.before.commits
                  && ParseFooter(e.before.commits[head].message) == Some(session)
                  && (forall n :: n in e.before.refs && (n.Remote? || n.Tag? || (n.Branch? && (branch == "HEAD" || n.name != branch))) ==>
                        !LeadsTo(e.before.commits, e.before.refs[n], head))
                  && HeadOf(e.after).Some? && HeadOf(e.after).value in e.after.commits
                  && e.after.commits[HeadOf(e.after).value].parents == e.before.commits[head].parents
                  && e.after.commits[HeadOf(e.after).value].message == e.before.commits[head].message)
  {
    hide ParseFooter;
    hide LeadsTo;
    var row := t.checkpoints[c];
    var w :| S.ProvesSessionWip(s, w, project, session, row.branch, row.head);
    assert w in s.checkpoints;
  }
}
