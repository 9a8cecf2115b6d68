/** Three runs of the services that end badly. */
module WitnessRuns {
  import opened Basics
  import opened StoreModel
  import opened AuditHistory
  import opened Lifecycle
  import opened LifecycleRuns
  import opened Reconciliation

  const ACTIVE := Session("p", Active, None)

  /** One mutation operation of one session in one store. */
  function OneRow(session: Session, st: OpState, result: Option<Payload>, rows: map<Id, Checkpoint>, log: seq<Event>): Store {
    Store(map["s" := session], map["o" := Operation("p", Some("s"), "k", "h", true, st, result, None)], map[], rows, log)
  }

  function One(s: Store, phase: Phase): System {
    System(s, map["o" := phase], multiset{}, map[])
  }

  const LOG_0: seq<Event> := [SessionEvent("s", None, Created), SessionEvent("s", Some(Created), Active)]
  const LOG_1 := LOG_0 + [OperationEvent("o", None, Received)]
  const LOG_2 := LOG_1 + [OperationEvent("o", Some(Received), Validated)]
  const LOG_3 := LOG_2 + [OperationEvent("o", Some(Validated), Dispatched)]
  const LOG_4 := LOG_3 + [OperationEvent("o", Some(Dispatched), Running)]
  const LOG_5 := LOG_4 + [CheckpointEvent("c", None, Recorded)]
  const LOG_6 := LOG_5 + [CheckpointEvent("c", Some(Recorded), Recorded)]
  const LOG_7 := LOG_5 + [OperationEvent("o", Some(Running), Unknown)]
  const LOG_8 := LOG_7 + [SessionEvent("s", Some(Active), Blocked)]

  const BEFORE := Snapshot("main", 0, false, {}, map[], false)
  const AFTER := Snapshot("main", 1, false, {}, map[], false)
  const ROW := Checkpoint("p", Some("s"), Some("o"), Mutation, "main", 0, BEFORE, None, None, Recorded)
  const SEALED_ROW := ROW.(after := Some(AFTER), diffHash := Some(NO_DIFF))
  const NO_DIFF := Digest(map[], map[])
  const UNCERTAIN := Payload("unknown", "", None)
  const REVOKED := Session("p", Blocked, Some("project_removed"))

  const LAUNCHED := [OpenSession("s", "p", None), Accept("o", "p", Some("s"), "k", "h", true), Validate("o"), Launch("o")]
  const WORKING := LAUNCHED + [Begin("o"), BodyCheckpoint("o", "c", ROW)]
  const FINALIZED := WORKING + [BodyFinalize("o", "c", AFTER, NO_DIFF)]
  const ABANDONED := WORKING + [Finish("o", Uncertain, UNCERTAIN), RevokeSession("s")]

  lemma Opens()
    ensures Next(INITIAL, OpenSession("s", "p", None))
            == System(Store(map["s" := ACTIVE], map[], map[], map[], LOG_0), map[], multiset{}, map[])
  {
    hide DriverNext;
    hide ApprovalNext;
    hide ReconcileNext;
    hide CreateOperation;
    hide Recovered;
  }

  lemma Accepts()
    ensures Next(System(Store(map["s" := ACTIVE], map[], map[], map[], LOG_0), map[], multiset{}, map[]),
                 Accept("o", "p", Some("s"), "k", "h", true))
            == One(OneRow(ACTIVE, Received, None, map[], LOG_1), Accepted)
  {
    hide DriverNext;
    hide ApprovalNext;
    hide ReconcileNext;
    hide Recovered;
    var r := CreateOperation(Store(map["s" := ACTIVE], map[], map[], map[], LOG_0), "o", "p", Some("s"), "k", "h", true);
    assert r.Inserted?;
  }

  /** The driver's steps up to its body. */
  lemma DriverSteps()
    ensures var y1, y2 := One(OneRow(ACTIVE, Received, None, map[], LOG_1), Accepted),
                          One(OneRow(ACTIVE, Validated, None, map[], LOG_2), Checked);
            && Next(y1, Validate("o")) == y2
            && Next(y2, Launch("o")) == One(OneRow(ACTIVE, Dispatched, None, map[], LOG_3), Lifecycle.Launched)
  {
    hide SideNext;
    hide ApprovalNext;
    hide ReconcileNext;
  }

  lemma BodyBegins()
    ensures Next(One(OneRow(ACTIVE, Dispatched, None, map[], LOG_3), Lifecycle.Launched), Begin("o"))
            == One(OneRow(ACTIVE, Running, None, map[], LOG_4), InBody)
  {
    hide SideNext;
    hide ReconcileNext;
    hide ApprovalNext;
  }

  lemma BodyWorks()
    ensures var y4, y5 := One(OneRow(ACTIVE, Running, None, map[], LOG_4), InBody),
                          One(OneRow(ACTIVE, Running, None, map["c" := ROW], LOG_5), InBody);
            && Next(y4, BodyCheckpoint("o", "c", ROW)) == y5
            && Next(y5, BodyFinalize("o", "c", AFTER, NO_DIFF))
               == One(OneRow(ACTIVE, Running, None, map["c" := SEALED_ROW], LOG_6), InBody)
  {
    hide CreateOperation;
    hide Recovered;
    hide ReconcileNext;
    hide ApprovalNext;
    hide DriverNext;
  }

  lemma BodyEndsUncertain()
    ensures Next(One(OneRow(ACTIVE, Running, None, map["c" := ROW], LOG_5), InBody), Finish("o", Uncertain, UNCERTAIN))
            == System(OneRow(ACTIVE, Unknown, Some(UNCERTAIN), map["c" := ROW], LOG_7), map[], multiset{}, map[])
  {
    hide SideNext;
    hide ReconcileNext;
    hide ApprovalNext;
  }

  lemma Revokes()
    ensures Next(System(OneRow(ACTIVE, Unknown, Some(UNCERTAIN), map["c" := ROW], LOG_7), map[], multiset{}, map[]), RevokeSession("s"))
            == System(OneRow(REVOKED, Unknown, Some(UNCERTAIN), map["c" := ROW], LOG_8), map[], multiset{}, map[])
  {
    hide CreateOperation;
    hide Recovered;
    hide ReconcileNext;
    hide ApprovalNext;
    hide DriverNext;
  }

  lemma Launches()
    ensures Run(INITIAL, LAUNCHED) == One(OneRow(ACTIVE, Dispatched, None, map[], LOG_3), Lifecycle.Launched)
  {
    hide Next;
    Opens();
    Accepts();
    DriverSteps();
    var y := Next(Next(INITIAL, LAUNCHED[0]), LAUNCHED[1]);
    RunTwo(INITIAL, LAUNCHED[0], LAUNCHED[1]);
    RunTwo(y, LAUNCHED[2], LAUNCHED[3]);
    RunsOn(INITIAL, [LAUNCHED[0], LAUNCHED[1]], [LAUNCHED[2], LAUNCHED[3]]);
    assert LAUNCHED == [LAUNCHED[0], LAUNCHED[1]] + [LAUNCHED[2], LAUNCHED[3]];
  }

  lemma Works()
    ensures Run(INITIAL, WORKING) == One(OneRow(ACTIVE, Running, None, map["c" := ROW], LOG_5), InBody)
  {
    hide Next;
    Launches();
    BodyBegins();
    BodyWorks();
    RunTwo(Run(INITIAL, LAUNCHED), Begin("o"), BodyCheckpoint("o", "c", ROW));
    RunsOn(INITIAL, LAUNCHED, [Begin("o"), BodyCheckpoint("o", "c", ROW)]);
  }

  /** The body made its commit and its checkpoint was finalized; the operation has not finished. */
  lemma Finalizes()
    ensures Run(INITIAL, FINALIZED) == One(OneRow(ACTIVE, Running, None, map["c" := SEALED_ROW], LOG_6), InBody)
  {
    hide Next;
    Works();
    BodyWorks();
    RunOne(Run(INITIAL, WORKING), BodyFinalize("o", "c", AFTER, NO_DIFF));
    RunsOn(INITIAL, WORKING, [BodyFinalize("o", "c", AFTER, NO_DIFF)]);
  }

  lemma Abandons()
    ensures Run(INITIAL, ABANDONED)
            == System(OneRow(REVOKED, Unknown, Some(UNCERTAIN), map["c" := ROW], LOG_8), map[], multiset{}, map[])
  {
    hide Next;
    Works();
    BodyEndsUncertain();
    Revokes();
    RunTwo(Run(INITIAL, WORKING), Finish("o", Uncertain, UNCERTAIN), RevokeSession("s"));
    RunsOn(INITIAL, WORKING, [Finish("o", Uncertain, UNCERTAIN), RevokeSession("s")]);
  }

  /** The service crashes while its one operation is dispatched or running. */
  lemma CrashesThen(steps: seq<Step>, st: OpState, rows: map<Id, Checkpoint>, log: seq<Event>, phase: Phase)
    returns (t: Store)
    requires Run(INITIAL, steps) == One(OneRow(ACTIVE, st, None, rows, log), phase) && (st == Dispatched || st == Running)
    ensures Consistent(OneRow(ACTIVE, st, None, rows, log)) && Recovered(OneRow(ACTIVE, st, None, rows, log), t)
    ensures Run(INITIAL, steps + [CrashAndRecover(t)]) == System(t, map[], multiset{}, map[])
    ensures t.sessions.Keys == {"s"} && t.sessions["s"] == Session("p", Blocked, Some("bridge_restart"))
    ensures t.operations.Keys == {"o"} && t.operations["o"].state == Unknown && t.checkpoints == rows
    ensures t.operations["o"].project == "p" && t.operations["o"].session == Some("s")
  {
    hide Consistent;
    hide Invariant;
    hide Trail;
    hide Recovered;
    hide HistoryHolds;
    hide Next;
    var y := Run(INITIAL, steps);
    Reachable(steps);
    InvariantConsistent(y);
    HistoryOf(y.store);
    t := RecoverOnly(y.store, "s", "o");
    RunsOn(INITIAL, steps, [CrashAndRecover(t)]);
    RunOne(y, CrashAndRecover(t));
    CrashStep(y, t);
  }

  lemma CrashStep(y: System, t: Store)
    requires Recovered(y.store, t)
    ensures Next(y, CrashAndRecover(t)) == System(t, map[], multiset{}, map[])
  {
    hide Recovered;
    hide CreateOperation;
    hide DriverNext;
    hide ApprovalNext;
    hide ReconcileNext;
    hide NamedByOperation;
  }

  lemma HistoryOf(s: Store)
    requires Consistent(s)
    ensures HistoryHolds(s)
  {
    hide HistoryHolds;
  }

  /** A crash between the two transactions of a dispatch: the body has not begun, and still the operation
      is unknown afterwards. */
  lemma DispatchedNotBegunRecoversToUnknown() returns (steps: seq<Step>, t: Store, id: Id)
    ensures var s := Run(INITIAL, steps).store;
            && id in s.operations && s.operations[id].mutation && !BodyBegan(s, id)
            && s.operations[id].session.Some? && s.operations[id].session.value in s.sessions
            && Recovered(s, t) && Run(INITIAL, steps + [CrashAndRecover(t)]).store == t
            && id in t.operations && t.operations[id].state == Unknown
  {
    hide Consistent;
    hide Trail;
    hide Recovered;
    hide Run;
    steps, id := LAUNCHED, "o";
    Launches();
    t := CrashesThen(steps, Dispatched, map[], LOG_3, Lifecycle.Launched);
    RowHistory(OneRow(ACTIVE, Dispatched, None, map[], LOG_3), id);
  }

  /** A crash between the finalization of a body and the end of its operation: the operation is unknown,
      it may still be reconciled, but no continuation lets it succeed. */
  lemma FinalizedButUnknown() returns (steps: seq<Step>, id: Id)
    ensures var y := Run(INITIAL, steps);
            && id in y.store.operations && y.store.operations[id].state == Unknown
            && Sealed(y.store.checkpoints, id) && Reconcilable(y.store, id) && !CanSucceed(y, id)
            && forall more :: !SucceededIn(Run(y, more), id)
  {
    hide Consistent;
    hide Recovered;
    hide Run;
    id := "o";
    Finalizes();
    var t := CrashesThen(FINALIZED, Running, map["c" := SEALED_ROW], LOG_6, InBody);
    steps := FINALIZED + [CrashAndRecover(t)];
    assert SealedBy(t.checkpoints["c"], id);
    UnknownCanSucceed(steps, id);
  }

  /** A mutation ends as unknown, with one open checkpoint, and then its project is removed: nobody can ever
      reconcile it, and however often the project is added again, it takes no new mutation. */
  lemma RevokedForever() returns (steps: seq<Step>, id: Id)
    ensures var y := Run(INITIAL, steps);
            && id in y.store.operations && y.store.operations[id].mutation
            && SoleOpen(y.store.checkpoints, id) && Lost(y, id)
            && forall more :: Lost(Run(y, more), id) && HoldsSlot(Run(y, more).store.operations[id])
  {
    hide Invariant;
    hide Run;
    steps, id := ABANDONED, "o";
    Abandons();
    Reachable(steps);
    var y := Run(INITIAL, steps);
    assert SoleOpenRow(y.store.checkpoints, "c", id);
    forall more ensures Lost(Run(y, more), id) && HoldsSlot(Run(y, more).store.operations[id]) {
      HeldForever(y, more, id);
    }
  }
}
