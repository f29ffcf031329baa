/** Concrete runs that reach the limits of shutdown: a registration it can strand, an
    operation its final snapshot can miss, and a save it leaves ahead of the store. */
module Witnesses {
  import opened Protocol
  import opened Sequencer
  import opened MemoryBroker
  import opened SnapshotStore
  import opened System
  import opened Registry
  import opened Lifecycle
  import opened Alignment
  import opened SoundRuns
  import opened Drain
  import opened Restarts

  lemma ReachableThen(s: State, a: Step)
    requires SoundlyReachable(s) && Can(s, a) && Sound(s, a)
    ensures SoundlyReachable(Do(s, a))
  {
    var run :| ReachesSoundly(INITIAL, run, s);
    OneStep(s, a);
    ConcatSound(INITIAL, run, s, [a], Do(s, a));
  }

  lemma InitialReachable()
    ensures SoundlyReachable(INITIAL)
  {
    assert ReachesSoundly(INITIAL, [], INITIAL);
  }

  const B: BoardId := "b"

  /** One hub, one board, one session; `x` and `b` say how far they are. */
  function Solo(x: Session, b: Actor, roster: map<BoardId, set<Sid>>): State {
    State([x], [b], map[(0, B) := Entry(0, 1)], map[], map[0 := 1], 1, map[], roster, map[], multiset{},
          map[], map[], map[], map[])
  }

  const JUST_ADMITTED: State :=
    Solo(Session(0, B, 0, Admitted, false, 0, false, 0), Actor(0, B, Loading, 0, {}, false), map[])

  lemma JustAdmittedReachable()
    ensures SoundlyReachable(JUST_ADMITTED)
  {
    InitialReachable();
    var a := ByHub(0, AdmitSession(B));
    ReachableThen(INITIAL, a);
    assert Do(INITIAL, a) == JUST_ADMITTED;
  }

  const STARTED: State := Solo(JUST_ADMITTED.sessions[0], Actor(0, B, Running, 0, {}, false), map[])

  lemma StartedReachable()
    ensures SoundlyReachable(STARTED)
  {
    JustAdmittedReachable();
    var s0 := JUST_ADMITTED;
    ReachableThen(s0, ByBoard(0, LoadStored));
    var s1 := Do(s0, ByBoard(0, LoadStored));
    ReachableThen(s1, ByBoard(0, HydrateFound));
    assert Do(s1, ByBoard(0, HydrateFound)) == STARTED;
  }

  lemma SoloEnumerates(s: State)
    requires s.reg == map[(0, B) := Entry(0, 1)]
    ensures Enumerates([0], OwnEntries(s.reg, 0))
    ensures OtherEntries(s.reg, 0) == map[]
  {
    assert (0, B) in OwnEntries(s.reg, 0) && OwnEntries(s.reg, 0)[(0, B)].board == 0;
  }

  lemma SoloBegins(s: State)
    requires SoundlyReachable(s) && s.reg == map[(0, B) := Entry(0, 1)] && s.shut == map[]
    ensures SoundlyReachable(s.(reg := map[], shut := map[0 := Shutdown([0], 0, 0, Pending)]))
  {
    SoloEnumerates(s);
    var begin := ByHub(0, BeginShutdown([0]));
    ReachableThen(s, begin);
    assert Do(s, begin) == s.(reg := map[], shut := map[0 := Shutdown([0], 0, 0, Pending)]);
  }

  /** From any state of the lone board that is not closing: its shutdown begins and tells
      the board to quit. */
  lemma SoloShutdown(x: Session, b: Actor, roster: map<BoardId, set<Sid>>)
    requires SoundlyReachable(Solo(x, b, roster)) && b.quitRequests == 0
    ensures SoundlyReachable(Solo(x, b.(quitRequests := 1), roster)
                             .(reg := map[], shut := map[0 := Shutdown([0], 1, 0, Pending)]))
  {
    SoloBegins(Solo(x, b, roster));
    var s := Solo(x, b, roster).(reg := map[], shut := map[0 := Shutdown([0], 0, 0, Pending)]);
    var quit := ByHub(0, QuitNext);
    ReachableThen(s, quit);
    assert Do(s, quit) == s.(boards := [b.(quitRequests := 1)], shut := map[0 := Shutdown([0], 1, 0, Pending)]);
  }

  /** A shutdown that slips in between admission and registration strands the session:
      this state is reachable, and by `LateRegistrationBlocksForever` nothing helps. */
  lemma ShutdownCanStrandRegistration()
    ensures exists s :: SoundlyReachable(s) && |s.sessions| == |s.boards| == 1 && s.sessions[0].board == 0
                        && s.sessions[0].pc.Admitted? && AfterQuit(s.boards[0].phase)
                        && 0 in s.shut && s.shut[0].verdict.Pending?
  {
    StartedReachable();
    var x, b := STARTED.sessions[0], STARTED.boards[0];
    SoloShutdown(x, b, map[]);
    var s0 := Solo(x, b.(quitRequests := 1), map[]).(reg := map[], shut := map[0 := Shutdown([0], 1, 0, Pending)]);
    ReachableThen(s0, ByBoard(0, TakeQuit));
    var s := Do(s0, ByBoard(0, TakeQuit));
    assert SoundlyReachable(s) && s.boards[0].phase.Checkpoint?;
  }

  const SERVED: State :=
    Solo(Session(0, B, 0, Registered, true, 0, false, 0), Actor(0, B, Running, 0, {0}, false), map[])

  lemma ServedReachable()
    ensures SoundlyReachable(SERVED)
  {
    StartedReachable();
    ReachableThen(STARTED, BySession(0, Register));
    assert STARTED.boards[0].clients + {0} == {0};
    assert Do(STARTED, BySession(0, Register)) == SERVED;
  }

  function Onboard(pc: Pc): State {
    Solo(Session(0, B, 0, pc, true, 0, false, 0), Actor(0, B, Running, 0, {0}, false), map[B := {0}])
  }

  lemma OnboardStep(pc: Pc, step: SessionStep, pc': Pc)
    requires SoundlyReachable(Onboard(pc)) && CanSession(Onboard(pc), 0, step)
    requires DoSession(Onboard(pc), 0, step) == Onboard(pc')
    ensures SoundlyReachable(Onboard(pc'))
  {
    ReachableThen(Onboard(pc), BySession(0, step));
  }

  lemma AnnouncedReachable()
    ensures SoundlyReachable(Onboard(Announced))
  {
    ServedReachable();
    ReachableThen(SERVED, BySession(0, SetPresence));
    var t := DoSession(SERVED, 0, SetPresence);
    assert Roster(SERVED, B) + {0} == {0};
    assert t.roster == map[B := {0}];
    assert t == Onboard(Announced);
  }

  lemma ReadingReachable()
    ensures SoundlyReachable(Onboard(Reading))
  {
    AnnouncedReachable();
    var none := Snapshot(0, []);
    OnboardStep(Announced, FetchSnapshot(none), HoldingSnapshot(none));
    OnboardStep(HoldingSnapshot(none), GiveUp(true), OnboardingRoster);
    OnboardStep(OnboardingRoster, FetchRoster, HoldingRoster({0}));
    OnboardStep(HoldingRoster({0}), GiveUp(true), Reading);
  }

  lemma ApplyingReachable(op: Op)
    requires op.id != ""
    ensures SoundlyReachable(Onboard(Applying(op)))
  {
    ReadingReachable();
    OnboardStep(Reading, ReadOp(op), Applying(op));
  }

  lemma ShutdownMisses(op: Op) returns (s: State)
    requires op.id != ""
    ensures SoundlyReachable(s) && |s.sessions| == |s.boards| == 1 && s.sessions[0].board == 0
    ensures s.boards[0].phase.Done? && !s.boards[0].lastLeft
    ensures s.sessions[0].lastSn == 1 && StoredSn(s.store, s.sessions[0].id) == 0
    ensures LeftBehind(s, op)
  {
    ApplyingReachable(op);
    var o := Onboard(Applying(op));
    SoloShutdown(o.sessions[0], o.boards[0], o.roster);
    var s0 := Solo(o.sessions[0], o.boards[0].(quitRequests := 1), o.roster)
      .(reg := map[], shut := map[0 := Shutdown([0], 1, 0, Pending)]);
    s := MissedFrom(s0, op);
  }

  /** The final snapshot of a shutdown can miss an operation: the session was inside
      `applyShapeOp` when its board took the quit and read the broker. */
  lemma ShutdownCanMissOperation(op: Op)
    requires op.id != ""
    ensures exists s :: SoundlyReachable(s) && |s.sessions| == |s.boards| == 1
                        && s.sessions[0].board == 0 && s.boards[0].phase.Done? && !s.boards[0].lastLeft
                        && s.sessions[0].lastSn > StoredSn(s.store, s.sessions[0].id)
  {
    var s := ShutdownMisses(op);
    assert s.sessions[0].lastSn > StoredSn(s.store, s.sessions[0].id);
  }

  lemma MissedFrom(s0: State, op: Op) returns (s: State)
    requires SoundlyReachable(s0) && |s0.sessions| == |s0.boards| == 1 && s0.sessions[0].board == 0
    requires s0.sessions[0].id == B && s0.sessions[0].pc == Applying(op)
    requires s0.boards[0] == Actor(0, B, Running, 1, {0}, false)
    requires s0.broker == map[] && s0.store == map[] && s0.reg == map[] && s0.hist == map[] && s0.durable == map[]
    ensures SoundlyReachable(s) && |s.sessions| == |s.boards| == 1 && s.sessions[0].board == 0
    ensures s.boards[0].phase.Done? && !s.boards[0].lastLeft
    ensures s.sessions[0].lastSn == 1 && StoredSn(s.store, s.sessions[0].id) == 0
    ensures LeftBehind(s, op)
  {
    var none := Snapshot(0, []);
    ReachableThen(s0, ByBoard(0, TakeQuit));
    var s1 := DoBoard(s0, 0, TakeQuit);
    assert s1.sessions[0].pc == Applying(op) && s1.sessions[0].id == B;
    ReachableThen(s1, ByBoard(0, ReadFinal(none)));
    s := AppliedTooLate(DoBoard(s1, 0, ReadFinal(none)), op);
  }

  lemma AppliedTooLate(s0: State, op: Op) returns (s: State)
    requires SoundlyReachable(s0) && |s0.sessions| == |s0.boards| == 1 && s0.sessions[0].board == 0
    requires s0.sessions[0].id == B && s0.sessions[0].pc == Applying(op)
    requires s0.boards[0].id == B && s0.boards[0].phase == Saving(Snapshot(0, []), []) && !s0.boards[0].lastLeft
    requires s0.broker == map[] && s0.store == map[] && s0.reg == map[] && s0.hist == map[] && s0.durable == map[]
    ensures SoundlyReachable(s) && |s.sessions| == |s.boards| == 1 && s.sessions[0].board == 0
    ensures s.boards[0].phase.Done? && !s.boards[0].lastLeft
    ensures s.sessions[0].lastSn == 1 && StoredSn(s.store, s.sessions[0].id) == 0
    ensures LeftBehind(s, op)
  {
    ReachableThen(s0, BySession(0, ApplyOp));
    var s1 := DoSession(s0, 0, ApplyOp);
    s := SavedTooSoon(s1, op);
  }

  lemma SavedTooSoon(s0: State, op: Op) returns (s: State)
    requires SoundlyReachable(s0) && |s0.sessions| == |s0.boards| == 1 && s0.sessions[0].board == 0
    requires s0.sessions[0].id == B && s0.sessions[0].pc.Publishing? && s0.sessions[0].lastSn == 1
    requires s0.boards[0].id == B && s0.boards[0].phase == Saving(Snapshot(0, []), []) && !s0.boards[0].lastLeft
    requires s0.store == map[] && s0.reg == map[] && Hist(s0, B) == [op] && s0.durable == map[]
    ensures SoundlyReachable(s) && |s.sessions| == |s.boards| == 1 && s.sessions[0].board == 0
    ensures s.boards[0].phase.Done? && !s.boards[0].lastLeft
    ensures s.sessions[0].lastSn == 1 && StoredSn(s.store, s.sessions[0].id) == 0
    ensures LeftBehind(s, op)
  {
    ReachableThen(s0, ByBoard(0, WriteFinal));
    var s1 := DoBoard(s0, 0, WriteFinal);
    ReachableThen(s1, ByBoard(0, CloseDone));
    s := DoBoard(s1, 0, CloseDone);
  }

  /** The lone session, still in `applyShapeOp`, outlived its board; its operation is not
      durable. */
  ghost predicate LeftBehind(s: State, op: Op) {
    && |s.sessions| == |s.boards| == 1 && s.sessions[0].board == 0 && s.boards[0].phase.Done?
    && s.sessions[0].pc.Publishing? && s.sessions[0].id == B && s.reg == map[]
    && Hist(s, B) == [op] && DurableLog(s, B) == []
  }

  /** Its board is done and unregistered, its session at `pc`. */
  ghost predicate Alone(s: State, pc: Pc) {
    && |s.sessions| == |s.boards| == 1 && s.sessions[0].board == 0
    && s.boards[0].phase.Done? && s.reg == map[] && s.sessions[0].pc == pc
  }

  /** The session leaves; nothing else changes. */
  lemma LeaveBehind(s0: State, p: InHand) returns (s: State)
    requires SoundlyReachable(s0) && Alone(s0, Publishing) && p in s0.savers
    ensures SoundlyReachable(s) && Alone(s, Returned) && s.durable == s0.durable && p in s.savers
  {
    s := Quietly(s0, Publishing, PublishOp, Reading);
    s := Quietly(s, Reading, StopReading, Stopping);
    s := Quietly(s, Stopping, JoinWriter, Leaving);
    s := LeaveRegistry(s);
  }

  lemma LeaveRegistry(s0: State) returns (s: State)
    requires SoundlyReachable(s0) && Alone(s0, Leaving)
    ensures SoundlyReachable(s) && Alone(s, Returned) && s.durable == s0.durable && s.savers == s0.savers
  {
    s := Quietly(s0, Leaving, RemovePresence, Releasing);
    s := ReleaseNothing(s);
    s := Quietly(s, Finishing, Return, Returned);
  }

  lemma ReleaseNothing(s: State) returns (t: State)
    requires SoundlyReachable(s) && Alone(s, Releasing)
    ensures SoundlyReachable(t) && Alone(t, Finishing) && t.durable == s.durable && t.savers == s.savers
  {
    assert OutcomeOf(s, s.sessions[0]).Unknown?;
    t := Quietly(s, Releasing, ReleaseEntry, Finishing);
  }

  lemma Quietly(s: State, pc: Pc, step: SessionStep, after: Pc) returns (t: State)
    requires SoundlyReachable(s) && Alone(s, pc) && CanSession(s, 0, step) && !step.ApplyOp?
    requires SessionAfter(s, s.sessions[0], step).pc == after
    ensures SoundlyReachable(t) && Alone(t, after) && t.durable == s.durable && t.savers == s.savers
  {
    ReachableThen(s, BySession(0, step));
    t := DoSession(s, 0, step);
  }

  lemma UnsafeToRestart(s: State, p: InHand)
    requires SoundlyReachable(s) && Alone(s, Returned) && p in s.savers && !Absorbed(s, p)
    ensures Idle(s) && !KeptUntilRestart(RestartBroker(s))
  {
    assert Idle(s);
    RestartIsSafeIff(s);
  }

  /** The condition of `RestartIsSafeIff` can fail: after such a shutdown, with nobody left,
      a periodic save can be in flight that holds what the final snapshot missed. */
  lemma RestartCanLose(op: Op)
    requires op.id != ""
    ensures exists s :: SoundlyReachable(s) && Idle(s) && !KeptUntilRestart(RestartBroker(s))
  {
    var s0 := ShutdownMisses(op);
    var snap := SnapshotReplyExists(s0, B);
    var p := InHand(B, snap, [op]);
    var s1 := ReadLeftBehind(s0, p);
    var s := LeaveBehind(s1, p);
    UnsafeToRestart(s, p);
  }

  lemma ReadLeftBehind(s0: State, p: InHand) returns (s: State)
    requires SoundlyReachable(s0) && |p.log| == 1 && LeftBehind(s0, p.log[0])
    requires p.id == B && Replies(s0.broker, ReadSnapshot(B), Contents(p.snap))
    ensures SoundlyReachable(s) && Alone(s, Publishing) && p in s.savers && !Absorbed(s, p)
  {
    assert p.log == [p.log[0]];
    ReachableThen(s0, ReadPeriodic(B, p.snap));
    s := Do(s0, ReadPeriodic(B, p.snap));
  }
}
