/** How many commits a series of file mutations leaves: one per maximal block of consecutive mutations
    by one session that changed HEAD. */
module CommitCount {
  import opened Basics
  import opened Repository
  import opened Footers
  import opened ReplayKeys
  import opened Workspaces
  import opened GitGuards
  import opened CheckpointServices
  import opened MutationModel
  import S = StoreModel

  datatype World = World(store: S.Store, repo: Repo)

  /** One mutation of the series: its operation as launched and as finished. */
  datatype Mutation = Mutation(
    session: Id, operation: Id, checkpoint: Id, description: string, running: S.Operation, finished: S.Operation)

  predicate Launched(o: S.Operation, project: Id, session: Id) {
    o.project == project && o.session == Some(session) && o.mutation && o.state == S.Running
  }

  /** A new operation is launched, its body runs undisturbed, and it finishes; it succeeded if its body
      did. */
  ghost predicate Step(w: World, m: Mutation, v: World, project: Id) {
    && m.operation !in w.store.operations && Launched(m.running, project, m.session)
    && m.finished.project == project && m.finished.session == Some(m.session) && m.finished.mutation
    && (HeadOf(v.repo) != HeadOf(w.repo) ==> m.finished.state == S.Succeeded)
    && BodyStep(AtLaunch(w.store, m), w.repo, v.store.(operations := AtLaunch(w.store, m).operations), v.repo,
                project, m.session, m.operation, m.checkpoint, m.description)
    && v.store.operations == w.store.operations[m.operation := m.finished]
  }

  function AtLaunch(s: S.Store, m: Mutation): S.Store {
    s.(operations := s.operations[m.operation := m.running])
  }

  /** Where a series starts: sessions that have never checkpointed, on a branch or a detached HEAD. */
  ghost predicate Start(w: World, project: Id, sessions: set<Id>) {
    && WellFormed(w.repo) && HeadOf(w.repo).Some? && BranchName(w.repo) != ""
    && (w.repo.head.OnBranch? ==> w.repo.head.name != "HEAD")
    && (forall x :: x in sessions ==>
          x in w.store.sessions && w.store.sessions[x].project == project && w.store.sessions[x].status == S.Active)
    && (forall k :: k in w.store.checkpoints ==> !OwnedBy(w.store.checkpoints[k], sessions))
    && OperationsExist(w.store)
  }

  predicate OwnedBy(row: S.Checkpoint, sessions: set<Id>) {
    row.session.Some? && row.session.value in sessions
  }

  /** The foreign key of the checkpoint table. */
  ghost predicate OperationsExist(s: S.Store) {
    forall k :: k in s.checkpoints && s.checkpoints[k].operation.Some? ==> s.checkpoints[k].operation.value in s.operations
  }

  ghost predicate Series(ws: seq<World>, ms: seq<Mutation>, project: Id, sessions: set<Id>) {
    && |ws| == |ms| + 1 && Start(ws[0], project, sessions)
    && forall k :: 0 <= k < |ms| ==> SeriesStep(ws, ms, project, sessions, k)
  }

  ghost predicate SeriesStep(ws: seq<World>, ms: seq<Mutation>, project: Id, sessions: set<Id>, k: nat)
    requires |ws| == |ms| + 1 && k < |ms|
  {
    && Step(ws[k], ms[k], ws[k + 1], project) && WellFormed(ws[k + 1].repo)
    && ms[k].session in sessions && ValidRequestId(ms[k].session)
    && ValidDescription(ms[k].description) && Unambiguous(ms[k].description)
  }

  /** The sessions of the mutations that changed HEAD, in order. */
  function Movers(ws: seq<World>, ms: seq<Mutation>): seq<Id>
    requires |ws| == |ms| + 1
  {
    if ms == [] then []
    else
      Movers(ws[..|ms|], ms[..|ms| - 1])
      + if HeadOf(ws[|ms|].repo) != HeadOf(ws[|ms| - 1].repo) then [ms[|ms| - 1].session] else []
  }

  /** One element for each maximal block of equal neighbours. */
  function Blocks(s: seq<Id>): seq<Id> {
    if s == [] then []
    else if |s| >= 2 && s[|s| - 2] == s[|s| - 1] then Blocks(s[..|s| - 1])
    else Blocks(s[..|s| - 1]) + [s[|s| - 1]]
  }

  /** The first-parent chain from `c` down to the commits numbered below `floor`, oldest first. */
  function Above(commits: map<CommitId, Commit>, c: CommitId, floor: CommitId): seq<CommitId>
    decreases c
  {
    if c < floor || c !in commits || commits[c].parents == [] || commits[c].parents[0] >= c then []
    else Above(commits, commits[c].parents[0], floor) + [c]
  }

  /** Where that chain ends. */
  function Below(commits: map<CommitId, Commit>, c: CommitId, floor: CommitId): CommitId
    decreases c
  {
    if c < floor || c !in commits || commits[c].parents == [] || commits[c].parents[0] >= c then c
    else Below(commits, commits[c].parents[0], floor)
  }

  function FootersOf(commits: map<CommitId, Commit>, chain: seq<CommitId>): (r: seq<Option<string>>)
    ensures |r| == |chain|
  {
    if chain == [] then []
    else
      var c := chain[|chain| - 1];
      FootersOf(commits, chain[..|chain| - 1]) + [if c in commits then ParseFooter(commits[c].message) else None]
  }

  function AsFooters(s: seq<Id>): (r: seq<Option<string>>)
    ensures |r| == |s|
  {
    if s == [] then [] else AsFooters(s[..|s| - 1]) + [Some(s[|s| - 1])]
  }

  /** The footers above the start are the blocks of the sessions that moved HEAD. */
  ghost predicate Tally(r: Repo, start: Repo, moved: seq<Id>)
    requires HeadOf(start).Some?
  {
    && HeadOf(r).Some?
    && var h := HeadOf(r).value;
    && FootersOf(r.commits, Above(r.commits, h, start.next)) == AsFooters(Blocks(moved))
    && Below(r.commits, h, start.next) == HeadOf(start).value
    && (if moved == [] then h == HeadOf(start).value else h >= start.next && h in r.commits)
  }

  /** Everything published elsewhere is older than the series. */
  ghost predicate OthersOld(r: Repo, floor: CommitId) {
    forall n :: n in r.refs && Published(n) && !(BranchName(r) != "HEAD" && n == Branch(BranchName(r))) ==>
      r.refs[n] < floor
  }

  /** The ledger proves exactly the last mover: nobody before the first move. */
  ghost predicate LedgerHolds(w: World, project: Id, sessions: set<Id>, moved: seq<Id>) {
    && OperationsExist(w.store) && HeadOf(w.repo).Some?
    && (forall x :: x in sessions ==>
          x in w.store.sessions && w.store.sessions[x].project == project && w.store.sessions[x].status == S.Active)
    && (moved == [] ==>
          forall k :: k in w.store.checkpoints && OwnedBy(w.store.checkpoints[k], sessions) ==>
            StillRow(w.store.checkpoints[k]))
    && (moved != [] ==>
          ProvenTip(w.store, project, moved[|moved| - 1], BranchName(w.repo), HeadOf(w.repo).value))
  }

  ghost predicate SeriesHolds(w: World, start: World, project: Id, sessions: set<Id>, moved: seq<Id>)
    requires HeadOf(start.repo).Some?
  {
    && WellFormed(w.repo) && HeadOf(w.repo).Some? && w.repo.next >= start.repo.next
    && BranchName(w.repo) == BranchName(start.repo) != "" && (w.repo.head.OnBranch? ==> w.repo.head.name != "HEAD")
    && Tally(w.repo, start.repo, moved) && OthersOld(w.repo, start.repo.next)
    && LedgerHolds(w, project, sessions, moved)
  }

  // ---------------------------------------------------------------- chains

  lemma {:induction false} ChainFrame(a: map<CommitId, Commit>, b: map<CommitId, Commit>, c: CommitId, floor: CommitId)
    requires forall d :: d <= c ==> (d in a <==> d in b) && (d in a ==> a[d] == b[d])
    ensures Above(a, c, floor) == Above(b, c, floor) && Below(a, c, floor) == Below(b, c, floor)
    ensures FootersOf(a, Above(a, c, floor)) == FootersOf(b, Above(b, c, floor))
    decreases c
  {
    if !(c < floor || c !in a || a[c].parents == [] || a[c].parents[0] >= c) {
      var p := a[c].parents[0];
      ChainFrame(a, b, p, floor);
      FootersAppend(a, Above(a, p, floor), c);
      FootersAppend(b, Above(b, p, floor), c);
    }
  }

  lemma FootersAppend(commits: map<CommitId, Commit>, chain: seq<CommitId>, c: CommitId)
    ensures FootersOf(commits, chain + [c])
         == FootersOf(commits, chain) + [if c in commits then ParseFooter(commits[c].message) else None]
  {
    hide ParseFooter;
    assert (chain + [c])[..|chain|] == chain;
  }

  lemma AsFootersAppend(s: seq<Id>, x: Id)
    ensures AsFooters(s + [x]) == AsFooters(s) + [Some(x)]
  {
    assert (s + [x])[..|s|] == s;
  }

  lemma {:induction false} BlocksAppend(s: seq<Id>, x: Id)
    ensures Blocks(s + [x]) == if s != [] && s[|s| - 1] == x then Blocks(s) else Blocks(s) + [x]
    ensures s != [] ==> Blocks(s) != [] && Blocks(s)[|Blocks(s)| - 1] == s[|s| - 1]
  {
    assert (s + [x])[..|s|] == s;
    if s != [] {
      var prefix, last := s[..|s| - 1], s[|s| - 1];
      assert s == prefix + [last];
      BlocksAppend(prefix, last);
    }
  }

  /** A commit on top of the tip, or in place of it. */
  lemma TipAdded(r: Repo, q: Repo, h: CommitId, c: CommitId, floor: CommitId, mode: CommitMode)
    requires WellFormed(r) && h in r.commits && c == r.next >= floor && c in q.commits
    requires q.commits == r.commits[c := q.commits[c]]
    requires q.commits[c].parents == match mode case Create => [h] case AmendSessionWip => r.commits[h].parents
    requires mode == AmendSessionWip ==> Above(r.commits, h, floor) != []
    ensures var old_ := Above(r.commits, h, floor);
            && FootersOf(q.commits, Above(q.commits, c, floor))
               == (match mode
                   case Create => FootersOf(r.commits, old_)
                   case AmendSessionWip => FootersOf(r.commits, old_[..|old_| - 1])) + [ParseFooter(q.commits[c].message)]
            && Below(q.commits, c, floor) == Below(r.commits, h, floor)
  {
    hide ParseFooter;
    var p := match mode case Create => h case AmendSessionWip => r.commits[h].parents[0];
    ChainFrame(r.commits, q.commits, p, floor);
    FootersAppend(q.commits, Above(q.commits, p, floor), c);
    assert mode == AmendSessionWip ==> Above(r.commits, h, floor) == Above(r.commits, p, floor) + [h];
  }

  lemma LastFooter(commits: map<CommitId, Commit>, chain: seq<CommitId>, s: seq<Id>)
    requires FootersOf(commits, chain) == AsFooters(s) && s != []
    ensures chain != []
    ensures FootersOf(commits, chain[..|chain| - 1]) == AsFooters(s[..|s| - 1])
    ensures var h := chain[|chain| - 1];
            h in commits && ParseFooter(commits[h].message) == Some(s[|s| - 1])
  {
    hide ParseFooter;
    var x, y := FootersOf(commits, chain[..|chain| - 1]), AsFooters(s[..|s| - 1]);
    assert FootersOf(commits, chain)[..|x|] == x && AsFooters(s)[..|y|] == y;
  }

  /** The footer of the tip is the last of the chain's. */
  lemma TipFooter(r: Repo, h: CommitId, floor: CommitId, s: seq<Id>)
    requires FootersOf(r.commits, Above(r.commits, h, floor)) == AsFooters(s) && s != []
    ensures var chain := Above(r.commits, h, floor);
            && chain != [] && chain[|chain| - 1] == h
            && FootersOf(r.commits, chain[..|chain| - 1]) == AsFooters(s[..|s| - 1])
            && h in r.commits && ParseFooter(r.commits[h].message) == Some(s[|s| - 1])
  {
    hide FootersOf;
    hide ParseFooter;
    LastFooter(r.commits, Above(r.commits, h, floor), s);
  }

  // ---------------------------------------------------------------- one step

  /** Launching a new operation proves nothing and disproves nothing. */
  lemma LaunchKeepsEvidence(s: S.Store, m: Mutation, project: Id, session: Id, branch: string, head: CommitId)
    requires OperationsExist(s) && m.operation !in s.operations && Launched(m.running, project, m.session)
    ensures ProvenTip(AtLaunch(s, m), project, session, branch, head) <==> ProvenTip(s, project, session, branch, head)
  {
    var t := AtLaunch(s, m);
    forall w ensures S.ProvesSessionWip(t, w, project, session, branch, head)
                  == S.ProvesSessionWip(s, w, project, session, branch, head) {}
  }

  /** Nothing published elsewhere reaches a tip of the series. */
  lemma NothingShared(r: Repo, floor: CommitId, head: CommitId)
    requires WellFormed(r) && OthersOld(r, floor) && head >= floor
    ensures Unshared(r, head, BranchName(r))
  {
    forall n | n in SharedRefs(r, head, BranchName(r)) ensures false {
      ReachesDown(r.commits, r.refs[n], head);
    }
    SharedByPath(r, head, BranchName(r));
  }

  lemma NobodyProven(w: World, project: Id, sessions: set<Id>, session: Id, branch: string, head: CommitId)
    requires LedgerHolds(w, project, sessions, []) && session in sessions
    ensures !ProvenTip(w.store, project, session, branch, head)
  {
    forall k ensures !S.ProvesSessionWip(w.store, k, project, session, branch, head) {}
  }

  lemma TipIsLastMovers(r: Repo, start: Repo, moved: seq<Id>)
    requires HeadOf(start).Some? && Tally(r, start, moved) && moved != []
    ensures HeadOf(r).value in r.commits
    ensures ParseFooter(r.commits[HeadOf(r).value].message) == Some(moved[|moved| - 1])
  {
    hide FootersOf;
    hide Above;
    hide Below;
    hide ParseFooter;
    LastBlock(moved);
    TipFooter(r, HeadOf(r).value, start.next, Blocks(moved));
  }

  /** The earned mode is to amend exactly when the session made the last move. */
  lemma ModeIsLastMover(w: World, start: World, m: Mutation, project: Id, sessions: set<Id>, moved: seq<Id>)
    requires HeadOf(start.repo).Some? && SeriesHolds(w, start, project, sessions, moved)
    requires m.session in sessions && m.session != "" && m.operation !in w.store.operations
    requires Launched(m.running, project, m.session)
    ensures EarnedMode(AtLaunch(w.store, m), w.repo, project, m.session) == AmendSessionWip
            <==> moved != [] && moved[|moved| - 1] == m.session
  {
    hide ParseFooter;
    hide SharedRefs;
    hide Unshared;
    hide FootersOf;
    hide Above;
    hide Below;
    hide Blocks;
    hide AsFooters;
    hide ProvenTip;
    hide OthersOld;
    hide AtLaunch;
    var h, branch := HeadOf(w.repo).value, BranchName(w.repo);
    LaunchKeepsEvidence(w.store, m, project, m.session, branch, h);
    if moved == [] {
      NobodyProven(w, project, sessions, m.session, branch, h);
    } else {
      NothingShared(w.repo, start.repo.next, h);
      TipIsLastMovers(w.repo, start.repo, moved);
    }
  }

  lemma NonEmpty(session: Id)
    requires ValidRequestId(session)
    ensures session != ""
  {
  }

  lemma LastBlock(s: seq<Id>)
    requires s != []
    ensures Blocks(s) != [] && Blocks(s)[|Blocks(s)| - 1] == s[|s| - 1]
    ensures AsFooters(Blocks(s)) == AsFooters(Blocks(s)[..|Blocks(s)| - 1]) + [Some(s[|s| - 1])]
  {
    BlocksAppend(s, s[|s| - 1]);
  }

  /** The tally after a move. */
  lemma TallyMoves(w: World, v: World, start: World, m: Mutation, project: Id, sessions: set<Id>, moved: seq<Id>)
    requires HeadOf(start.repo).Some? && SeriesHolds(w, start, project, sessions, moved)
    requires Step(w, m, v, project) && HeadOf(v.repo) != HeadOf(w.repo) && WellFormed(v.repo)
    requires m.session in sessions && ValidRequestId(m.session)
    requires ValidDescription(m.description) && Unambiguous(m.description)
    ensures Tally(v.repo, start.repo, moved + [m.session])
  {
    hide ParseFooter;
    hide SharedRefs;
    hide Unshared;
    hide FootersOf;
    hide Above;
    hide Below;
    hide Blocks;
    hide LedgerHolds;
    hide EarnedMode;
    hide WipMessage;
    hide ValidRequestId;
    hide ValidDescription;
    hide Unambiguous;
    hide AsFooters;
    NonEmpty(m.session);
    var h, c, floor := HeadOf(w.repo).value, w.repo.next, start.repo.next;
    var mode := EarnedMode(AtLaunch(w.store, m), w.repo, project, m.session);
    ModeIsLastMover(w, start, m, project, sessions, moved);
    BlocksAppend(moved, m.session);
    AsFootersAppend(Blocks(moved), m.session);
    if mode == AmendSessionWip {
      TipFooter(w.repo, h, floor, Blocks(moved));
      LastBlock(moved);
    } else {
      FooterReadBack(m.description, m.session);
    }
    TipAdded(w.repo, v.repo, h, c, floor, mode);
  }

  lemma OthersStayOld(r: Repo, q: Repo, c: Id, floor: CommitId, moves: bool, mode: CommitMode, message: string)
    requires OthersOld(r, floor) && HeadOf(r).Some?
    requires r.head.OnBranch? ==> r.head.name != "HEAD"
    requires if moves then OneNewTip(WithRef(r, c), q, mode, message) else TipsKept(r, q, c)
    ensures OthersOld(q, floor) && BranchName(q) == BranchName(r)
    ensures q.head.OnBranch? ==> q.head.name != "HEAD"
  {
    forall n | n in q.refs && Published(n) && !(BranchName(q) != "HEAD" && n == Branch(BranchName(q)))
      ensures q.refs[n] < floor
    {
      assert n != CheckpointRef(c);
      if !moves {
        assert n in q.refs - {CheckpointRef(c)} && n in r.refs - {CheckpointRef(c)};
        assert q.refs[n] == (q.refs - {CheckpointRef(c)})[n] == (r.refs - {CheckpointRef(c)})[n] == r.refs[n];
      }
    }
  }

  /** A mutation that did not move HEAD transfers nothing. */
  lemma LedgerIdle(w: World, v: World, m: Mutation, project: Id, sessions: set<Id>, moved: seq<Id>)
    requires LedgerHolds(w, project, sessions, moved)
    requires Step(w, m, v, project) && HeadOf(v.repo) == HeadOf(w.repo) && BranchName(v.repo) == BranchName(w.repo)
    ensures LedgerHolds(v, project, sessions, moved)
  {
    hide OneNewTip;
    hide EarnedMode;
    hide MovedRow;
    hide TipsKept;
    if moved != [] {
      var x, branch, h := moved[|moved| - 1], BranchName(w.repo), HeadOf(w.repo).value;
      var k :| S.ProvesSessionWip(w.store, k, project, x, branch, h);
      assert S.ProvesSessionWip(v.store, k, project, x, branch, h);
    }
  }

  /** A mutation that moved HEAD makes its session the last mover, and the ledger proves it. */
  lemma LedgerMoves(w: World, v: World, m: Mutation, project: Id, sessions: set<Id>, moved: seq<Id>)
    requires LedgerHolds(w, project, sessions, moved) && WellFormed(w.repo) && m.session in sessions
    requires Step(w, m, v, project) && HeadOf(v.repo) != HeadOf(w.repo)
    requires BranchName(v.repo) == BranchName(w.repo) != ""
    ensures LedgerHolds(v, project, sessions, moved + [m.session])
  {
    hide EarnedMode;
    hide TipsKept;
    assert HeadOf(v.repo) == Some(w.repo.next);
    assert S.ProvesSessionWip(v.store, m.checkpoint, project, m.session, BranchName(w.repo), w.repo.next);
  }

  lemma StepHolds(w: World, v: World, start: World, m: Mutation, project: Id, sessions: set<Id>, moved: seq<Id>)
    requires HeadOf(start.repo).Some? && SeriesHolds(w, start, project, sessions, moved)
    requires Step(w, m, v, project) && WellFormed(v.repo)
    requires m.session in sessions && ValidRequestId(m.session)
    requires ValidDescription(m.description) && Unambiguous(m.description)
    ensures SeriesHolds(v, start, project, sessions,
                        moved + if HeadOf(v.repo) != HeadOf(w.repo) then [m.session] else [])
  {
    hide Tally;
    hide LedgerHolds;
    hide OthersOld;
    hide ValidDescription;
    hide Unambiguous;
    hide ValidRequestId;
    hide EarnedMode;
    hide ParseFooter;
    var floor := start.repo.next;
    if HeadOf(v.repo) != HeadOf(w.repo) {
      OthersStayOld(w.repo, v.repo, m.checkpoint, floor, true,
                    EarnedMode(AtLaunch(w.store, m), w.repo, project, m.session), WipMessage(m.description, m.session));
      TallyMoves(w, v, start, m, project, sessions, moved);
      LedgerMoves(w, v, m, project, sessions, moved);
    } else {
      OthersStayOld(w.repo, v.repo, m.checkpoint, floor, false, Create, "");
      LedgerIdle(w, v, m, project, sessions, moved);
      TallyIdle(w.repo, v.repo, start.repo, moved);
      assert moved + [] == moved;
    }
  }

  lemma TallyIdle(r: Repo, q: Repo, start: Repo, moved: seq<Id>)
    requires HeadOf(start).Some? && Tally(r, start, moved)
    requires q.commits == r.commits && HeadOf(q) == HeadOf(r)
    ensures Tally(q, start, moved)
  {
  }

  lemma StartHolds(w: World, project: Id, sessions: set<Id>)
    requires Start(w, project, sessions)
    ensures SeriesHolds(w, w, project, sessions, [])
  {
    assert HeadOf(w.repo).value < w.repo.next;
  }

  lemma {:induction false} SeriesInvariant(ws: seq<World>, ms: seq<Mutation>, project: Id, sessions: set<Id>)
    requires Series(ws, ms, project, sessions)
    ensures SeriesHolds(ws[|ms|], ws[0], project, sessions, Movers(ws, ms))
  {
    hide Step;
    hide SeriesHolds;
    hide WellFormed;
    hide ValidDescription;
    hide Unambiguous;
    hide ValidRequestId;
    if ms == [] {
      StartHolds(ws[0], project, sessions);
    } else {
      var n := |ms| - 1;
      var before, first := ws[..|ms|], ms[..n];
      forall k | 0 <= k < n ensures SeriesStep(before, first, project, sessions, k) {
        assert SeriesStep(ws, ms, project, sessions, k);
      }
      SeriesInvariant(before, first, project, sessions);
      assert SeriesStep(ws, ms, project, sessions, n);
      StepHolds(ws[n], ws[n + 1], ws[0], ms[n], project, sessions, Movers(before, first));
    }
  }

  /** After any undisturbed series of mutations by fresh sessions, the commits above the starting HEAD
      are one per maximal block of consecutive HEAD-changing mutations by one session, oldest first,
      each with its own session's footer; they stand on the starting HEAD. */
  lemma CommitsAreBlocks(ws: seq<World>, ms: seq<Mutation>, project: Id, sessions: set<Id>)
    requires Series(ws, ms, project, sessions)
    ensures var r, start := ws[|ms|].repo, ws[0].repo;
            && HeadOf(r).Some?
            && var chain := Above(r.commits, HeadOf(r).value, start.next);
            && FootersOf(r.commits, chain) == AsFooters(Blocks(Movers(ws, ms)))
            && |chain| == |Blocks(Movers(ws, ms))|
            && Some(Below(r.commits, HeadOf(r).value, start.next)) == HeadOf(start)
  {
    hide Above;
    hide Below;
    hide FootersOf;
    hide AsFooters;
    hide Blocks;
    hide Movers;
    hide LedgerHolds;
    hide OthersOld;
    SeriesInvariant(ws, ms, project, sessions);
  }
}
