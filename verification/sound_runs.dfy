/** What is durable along every run in which no overtaken save lands where it does harm,
    and which runs those are. */
module SoundRuns {
  import opened Protocol
  import opened Sequencer
  import opened MemoryBroker
  import opened SnapshotStore
  import opened System
  import opened Registry
  import opened Durability
  import opened Alignment
  import opened Runs

  /** Every landing on the way is harmless. */
  ghost predicate SoundRun(s: State, run: seq<Step>)
    decreases |run|
  {
    run == [] || (Can(s, run[0]) && Sound(s, run[0]) && SoundRun(Do(s, run[0]), run[1..]))
  }

  ghost predicate ReachesSoundly(s: State, run: seq<Step>, t: State) {
    Reaches(s, run, t) && SoundRun(s, run)
  }

  ghost predicate SoundlyReachable(t: State) {
    exists run :: ReachesSoundly(INITIAL, run, t)
  }

  ghost predicate Good(s: State) { Inv(s) && InStep(s) }

  lemma StepKeepsGood(s: State, a: Step)
    requires Good(s) && Can(s, a) && Sound(s, a)
    ensures Good(Do(s, a))
  {
    StepKeepsInv(s, a);
    StepKept(s, a);
  }

  lemma {:induction false} RunKeepsGood(s: State, run: seq<Step>, t: State)
    requires Good(s) && ReachesSoundly(s, run, t)
    ensures Good(t)
    decreases |run|
  {
    if run != [] {
      StepKeepsGood(s, run[0]);
      RunKeepsGood(Do(s, run[0]), run[1..], t);
    }
  }

  lemma InitialGood()
    ensures Good(INITIAL)
  {
    InitialInv();
  }

  lemma SoundlyReachableGood(s: State)
    requires SoundlyReachable(s)
    ensures Good(s) && Reachable(s)
  {
    InitialGood();
    var run :| ReachesSoundly(INITIAL, run, s);
    RunKeepsGood(INITIAL, run, s);
  }

  // ---- Durability ----

  lemma GoodStepGrows(s: State, a: Step, id: BoardId)
    requires Good(s) && Can(s, a) && Sound(s, a)
    ensures DurableLog(s, id) <= DurableLog(Do(s, a), id)
  {
    StepGrows(s, a, id);
  }

  lemma {:induction false} RunGrows(s: State, run: seq<Step>, t: State, id: BoardId)
    requires Good(s) && ReachesSoundly(s, run, t)
    ensures DurableLog(s, id) <= DurableLog(t, id)
    decreases |run|
  {
    if run != [] {
      GoodStepGrows(s, run[0], id);
      StepKeepsGood(s, run[0]);
      RunGrows(Do(s, run[0]), run[1..], t, id);
    }
  }

  /** Main result: with any number of concurrent savers and across broker restarts, as long
      as every landing is harmless, no durable operation is ever lost or rewritten, the
      stored shapes are exactly the replay of the durable log, the stored number is its
      length, and a broker with any state extends it. */
  lemma Durable(s: State, run: seq<Step>, t: State, id: BoardId)
    requires SoundlyReachable(s) && ReachesSoundly(s, run, t)
    ensures DurableLog(s, id) <= DurableLog(t, id)
    ensures StoredSn(t.store, id) == |DurableLog(t, id)|
    ensures id in t.store ==> IsSnapshot(t.store[id], Replay(DurableLog(t, id)))
    ensures Hist(t, id) == [] || DurableLog(t, id) <= Hist(t, id)
  {
    SoundlyReachableGood(s);
    RunGrows(s, run, t, id);
    RunKeepsGood(s, run, t);
    DurableState(t, id);
  }

  lemma DurableState(t: State, id: BoardId)
    requires StoreOk(t) && InStep(t)
    ensures StoredSn(t.store, id) == |DurableLog(t, id)|
    ensures id in t.store ==> IsSnapshot(t.store[id], Replay(DurableLog(t, id)))
    ensures Hist(t, id) == [] || DurableLog(t, id) <= Hist(t, id)
  {
    assert StoredOk(t, id);
    StoredNumber(t, id);
    assert Hist(t, id) == [] || Ready(t, id);
  }

  /** A harmless save with the number already stored changes nothing, and so does the
      final save of a board. */
  lemma EqualSaveIsNoOp(s: State, p: InHand)
    requires SoundlyReachable(s) && p in s.savers && Harmless(s, p)
    requires p.id in s.store && p.snap.sn == s.store[p.id].sn
    ensures Do(s, WritePeriodic(p)).store == s.store
  {
    SoundlyReachableGood(s);
    SameSnapshotStored(s, p);
  }

  lemma SameSnapshotStored(s: State, p: InHand)
    requires StoreOk(s) && InStep(s) && IsSnapshot(p.snap, Replay(p.log)) && Harmless(s, p)
    requires p.id in s.store && p.snap.sn == s.store[p.id].sn
    ensures p.snap == s.store[p.id]
  {
    DurableState(s, p.id);
    SnapshotNumber(p.snap, p.log);
    assert p.log == DurableLog(s, p.id);
    SnapshotUnique(p.snap, s.store[p.id], Replay(p.log));
  }

  lemma EqualFinalSaveIsNoOp(s: State, r: Ref)
    requires SoundlyReachable(s) && CanBoard(s, r, WriteFinal)
    requires s.boards[r].id in s.store && s.boards[r].phase.snap.sn == s.store[s.boards[r].id].sn
    ensures DoBoard(s, r, WriteFinal).store == s.store
  {
    SoundlyReachableGood(s);
    FinalSaveStored(s, r);
  }

  lemma FinalSaveStored(s: State, r: Ref)
    requires StoreOk(s) && PhasesOk(s) && InStep(s) && CanBoard(s, r, WriteFinal)
    requires s.boards[r].id in s.store && s.boards[r].phase.snap.sn == s.store[s.boards[r].id].sn
    ensures s.boards[r].phase.snap == s.store[s.boards[r].id]
  {
    var b := s.boards[r];
    assert PhaseOk(b.phase) && BoardInStep(s, r);
    SameSnapshotStored(s, InHand(b.id, b.phase.snap, b.phase.log));
  }

  // ---- Cold start ----

  /** After a restart the broker is empty and the durable log is as it was. */
  lemma RestartState(s: State, id: BoardId)
    requires Reachable(s) && Idle(s)
    ensures var t := RestartBroker(s);
      && Get(t.broker, id) == EMPTY && Hist(t, id) == [] && Loads(t, id) == 0
      && DurableLog(t, id) == DurableLog(s, id) && StoredSn(t.store, id) == |DurableLog(s, id)|
      && (id in t.store ==> IsSnapshot(t.store[id], Replay(DurableLog(s, id))))
  {
    ReachableInv(s);
    assert StoredOk(s, id);
    StoredNumber(s, id);
  }

  predicate NoRestart(run: seq<Step>) { forall i :: 0 <= i < |run| ==> !run[i].Restart? }

  /** `first` was durable at the restart; whatever the broker holds now starts with it, and
      one hydration brought it. */
  ghost predicate Restored(s: State, id: BoardId, first: seq<Op>) {
    && first <= DurableLog(s, id)
    && (Hist(s, id) != [] ==> Loads(s, id) == 1 && first <= LoadedLog(s, id) <= Hist(s, id))
  }

  lemma HydrateRestores(s: State, r: Ref, id: BoardId, first: seq<Op>)
    requires InStep(s) && DataInv(s) && CanBoard(s, r, HydrateFound) && first != [] && Restored(s, id, first)
    ensures Restored(DoBoard(s, r, HydrateFound), id, first)
  {
    var b := s.boards[r];
    assert BoardInStep(s, r) && PhaseOk(b.phase);
    HydrateSameStore(s, r);
    HydrateKeepsLoads(s, r);
    BrokerNumber(s, b.id);
    if LoadsNow(s, b, HydrateFound) {
      HydrateLoads(s, r);
      LoadedByHydrate(s, r);
    } else {
      HydrateRefused(s, r);
      HydrateHist(s, r);
    }
  }

  lemma LoadedByHydrate(s: State, r: Ref)
    requires CanBoard(s, r, HydrateFound) && LoadsNow(s, s.boards[r], HydrateFound)
    ensures var t := DoBoard(s, r, HydrateFound);
      var id := s.boards[r].id;
      && LoadedLog(t, id) == s.boards[r].phase.log
      && Loads(t, id) == Loads(s, id) + (if s.boards[r].phase.log != [] then 1 else 0)
      && (forall other :: other != id ==>
            LoadedLog(t, other) == LoadedLog(s, other) && Loads(t, other) == Loads(s, other))
  {
  }

  lemma ApplyRestores(s: State, c: Sid, id: BoardId, first: seq<Op>)
    requires InStep(s) && BrokerOk(s) && CanSession(s, c, ApplyOp) && first != [] && Restored(s, id, first)
    ensures Restored(DoSession(s, c, ApplyOp), id, first)
  {
    assert Ready(s, s.sessions[c].id);
    AssignData(s, c);
    AssignSameStore(s, c);
  }

  /** Steps that touch neither broker nor loads; the durable log may have grown. */
  lemma SameLoadsRestore(s: State, t: State, id: BoardId, first: seq<Op>)
    requires Restored(s, id, first) && t.hist == s.hist && t.loaded == s.loaded && t.loads == s.loads
    requires DurableLog(s, id) <= DurableLog(t, id)
    ensures Restored(t, id, first)
  {
  }

  lemma BoardStepRestores(s: State, r: Ref, step: BoardStep, id: BoardId, first: seq<Op>)
    requires InStep(s) && DataInv(s) && CanBoard(s, r, step) && first != [] && Restored(s, id, first)
    ensures Restored(DoBoard(s, r, step), id, first)
  {
    if step.HydrateFound? {
      HydrateRestores(s, r, id, first);
    } else {
      BoardStepGrows(s, r, step, id);
      SameLoadsRestore(s, DoBoard(s, r, step), id, first);
    }
  }

  lemma StepRestores(s: State, a: Step, id: BoardId, first: seq<Op>)
    requires InStep(s) && DataInv(s) && Can(s, a) && Sound(s, a) && !a.Restart?
    requires first != [] && Restored(s, id, first)
    ensures Restored(Do(s, a), id, first)
  {
    StepGrows(s, a, id);
    match a
    case BySession(c, step) =>
      if step.ApplyOp? {
        ApplyRestores(s, c, id, first);
      } else {
        OtherStepSameData(s, c, step);
        SameLoadsRestore(s, Do(s, a), id, first);
      }
    case ByBoard(r, step) => BoardStepRestores(s, r, step, id, first);
    case ByHub(h, step) =>
      HubStepSameData(s, h, step);
      SameLoadsRestore(s, Do(s, a), id, first);
    case ReadPeriodic(_, _) => SameLoadsRestore(s, Do(s, a), id, first);
    case WritePeriodic(_) => SameLoadsRestore(s, Do(s, a), id, first);
  }

  lemma {:induction false} RunRestores(s: State, run: seq<Step>, t: State, id: BoardId, first: seq<Op>)
    requires Good(s) && ReachesSoundly(s, run, t) && NoRestart(run) && first != [] && Restored(s, id, first)
    ensures Restored(t, id, first)
    decreases |run|
  {
    if run != [] {
      StepRestores(s, run[0], id, first);
      StepKeepsGood(s, run[0]);
      assert forall i :: 0 <= i < |run| - 1 ==> run[1..][i] == run[i + 1];
      RunRestores(Do(s, run[0]), run[1..], t, id, first);
    }
  }

  /** Main result: after a restart that found something durable, and until the next one,
      however many boards of however many hubs race to hydrate and whichever harmless saves
      still land: a broker that holds anything was loaded by exactly one hydration, with
      everything durable at the restart, before anything was sequenced. */
  lemma ColdStartLoadsOnce(s: State, run: seq<Step>, t: State, id: BoardId)
    requires SoundlyReachable(s) && Idle(s) && DurableLog(s, id) != []
    requires ReachesSoundly(RestartBroker(s), run, t) && NoRestart(run)
    ensures Loads(t, id) <= 1
    ensures Hist(t, id) != [] ==> Loads(t, id) == 1 && DurableLog(s, id) <= LoadedLog(t, id) <= Hist(t, id)
    ensures Get(t.broker, id) == Replay(Hist(t, id))
  {
    SoundlyReachableGood(s);
    StepKeepsGood(s, Restart);
    RunRestores(RestartBroker(s), run, t, id, DurableLog(s, id));
    RunKeepsGood(RestartBroker(s), run, t);
  }

  /** Whenever an operation is sequenced, everything durable is in the broker already, and
      the operation's number is above the durable one, above everything a hydration
      brought and above every shape the broker holds. */
  lemma SequencedAfterLoad(s: State, c: Sid)
    requires SoundlyReachable(s) && CanSession(s, c, ApplyOp)
    ensures var id := s.sessions[c].id;
      var number := DoSession(s, c, ApplyOp).sessions[c].lastSn;
      && DurableLog(s, id) <= Hist(s, id) && LoadedLog(s, id) <= Hist(s, id)
      && number == |Hist(s, id)| + 1 > StoredSn(s.store, id)
      && (forall i :: i in Get(s.broker, id).shapes ==> Get(s.broker, id).shapes[i].sn < number)
  {
    SoundlyReachableGood(s);
    var id := s.sessions[c].id;
    AssignData(s, c);
    DurableState(s, id);
    assert Ready(s, id);
    BrokerNumber(s, id);
    ReplayWellFormed(Hist(s, id));
  }

  // ---- Cautious runs ----

  /** The store already holds a higher number, or this very snapshot's log. */
  predicate Absorbed(s: State, p: InHand) {
    |p.log| < |DurableLog(s, p.id)| || p.log == DurableLog(s, p.id)
  }

  ghost predicate AllAbsorbed(s: State) {
    forall p :: p in s.savers ==> Absorbed(s, p)
  }

  /** The broker restarts only when the store has caught up with every save in flight. */
  ghost predicate Cautious(s: State, run: seq<Step>)
    decreases |run|
  {
    run == []
    || (Can(s, run[0]) && (run[0].Restart? ==> AllAbsorbed(s)) && Cautious(Do(s, run[0]), run[1..]))
  }

  /** No save in flight was overtaken by a restart. */
  ghost predicate NoStray(s: State) {
    forall p :: p in s.savers ==> Absorbed(s, p) || p.log <= Hist(s, p.id)
  }

  lemma StepKeepsNoStray(s: State, a: Step)
    requires Good(s) && NoStray(s) && Can(s, a) && (a.Restart? ==> AllAbsorbed(s))
    ensures Sound(s, a) && NoStray(Do(s, a))
  {
    var t := Do(s, a);
    StepSavers(s, a);
    assert Sound(s, a);
    forall p | p in t.savers
      ensures Absorbed(t, p) || p.log <= Hist(t, p.id)
    {
      SaverNotStray(s, a, p);
    }
  }

  /** A save in flight was there before, or has just been read. */
  lemma StepSavers(s: State, a: Step)
    requires Can(s, a)
    ensures forall p :: p in Do(s, a).savers ==> p in s.savers || (p.log == Hist(s, p.id) && !a.Restart?)
  {
    match a
    case BySession(c, step) => SessionSameSavers(s, c, step);
    case ByBoard(r, step) => BoardSameSavers(s, r, step);
    case ByHub(h, step) => HubStepSameData(s, h, step);
    case _ =>
  }

  lemma SessionSameSavers(s: State, c: Sid, step: SessionStep)
    requires CanSession(s, c, step)
    ensures DoSession(s, c, step).savers == s.savers
  {
  }

  lemma BoardSameSavers(s: State, r: Ref, step: BoardStep)
    requires CanBoard(s, r, step)
    ensures DoBoard(s, r, step).savers == s.savers
  {
  }

  lemma SaverNotStray(s: State, a: Step, p: InHand)
    requires InStep(s) && DataInv(s) && Can(s, a) && Sound(s, a)
    requires Absorbed(s, p) || (p.log <= Hist(s, p.id) && !a.Restart?)
    ensures Absorbed(Do(s, a), p) || p.log <= Hist(Do(s, a), p.id)
  {
    StepGrows(s, a, p.id);
    if !a.Restart? {
      StepGrowsHist(s, a, p.id);
    }
    GrowthAbsorbs(s, Do(s, a), p);
  }

  lemma GrowthAbsorbs(s: State, t: State, p: InHand)
    requires DurableLog(s, p.id) <= DurableLog(t, p.id)
    requires Absorbed(s, p) || (p.log <= Hist(s, p.id) <= Hist(t, p.id))
    ensures Absorbed(t, p) || p.log <= Hist(t, p.id)
  {
  }

  /** If every restart waits until no save in flight is ahead of the store, every landing is
      harmless and the results about sound runs hold without further conditions. */
  lemma {:induction false} CautiousRunsAreSound(s: State, run: seq<Step>, t: State)
    requires Good(s) && NoStray(s) && Reaches(s, run, t) && Cautious(s, run)
    ensures SoundRun(s, run) && NoStray(t)
    decreases |run|
  {
    if run != [] {
      StepKeepsNoStray(s, run[0]);
      StepKeepsGood(s, run[0]);
      CautiousRunsAreSound(Do(s, run[0]), run[1..], t);
    }
  }

  // ---- When every last client has left ----

  predicate Holds(s: State, c: Sid, id: BoardId) {
    c < |s.sessions| && s.sessions[c].id == id && s.sessions[c].lastSn == |Hist(s, id)|
  }

  /** The last operation of a history was assigned to some session, or is durable. */
  ghost predicate TailHeld(s: State, id: BoardId) {
    |Hist(s, id)| <= StoredSn(s.store, id) || exists c: Sid :: Holds(s, c, id)
  }

  /** Nothing but `id`'s durable number moved, and that only up. */
  lemma QuietTail(s: State, t: State, id: BoardId)
    requires TailHeld(s, id) && |Hist(t, id)| == |Hist(s, id)| && StoredSn(s.store, id) <= StoredSn(t.store, id)
    requires |s.sessions| <= |t.sessions|
    requires forall c :: 0 <= c < |s.sessions| ==>
               t.sessions[c].id == s.sessions[c].id && t.sessions[c].lastSn == s.sessions[c].lastSn
    ensures TailHeld(t, id)
  {
    if c: Sid :| Holds(s, c, id) {
      assert Holds(t, c, id);
    }
  }

  lemma ApplyTail(s: State, c: Sid, id: BoardId)
    requires BrokerOk(s) && TailHeld(s, id) && CanSession(s, c, ApplyOp)
    ensures TailHeld(DoSession(s, c, ApplyOp), id)
  {
    var t := DoSession(s, c, ApplyOp);
    AssignData(s, c);
    AssignSameStore(s, c);
    if id == s.sessions[c].id {
      assert Holds(t, c, id);
    } else if d: Sid :| Holds(s, d, id) {
      assert Holds(t, d, id);
    }
  }

  lemma HydrateTail(s: State, r: Ref, id: BoardId)
    requires InStep(s) && DataInv(s) && TailHeld(s, id) && CanBoard(s, r, HydrateFound)
    ensures TailHeld(DoBoard(s, r, HydrateFound), id)
  {
    var t := DoBoard(s, r, HydrateFound);
    var b := s.boards[r];
    assert BoardInStep(s, r) && StoredOk(s, id);
    HydrateHist(s, r);
    HydrateSameStore(s, r);
    StoredNumber(s, id);
    if b.id != id || Hist(s, id) != [] {
      QuietTail(s, t, id);
    }
  }

  lemma SessionStepTail(s: State, c: Sid, step: SessionStep, id: BoardId)
    requires BrokerOk(s) && TailHeld(s, id) && CanSession(s, c, step)
    ensures TailHeld(DoSession(s, c, step), id)
  {
    if step.ApplyOp? {
      ApplyTail(s, c, id);
    } else {
      OtherStepSameData(s, c, step);
      QuietTail(s, DoSession(s, c, step), id);
    }
  }

  lemma BoardStepTail(s: State, r: Ref, step: BoardStep, id: BoardId)
    requires InStep(s) && DataInv(s) && TailHeld(s, id) && CanBoard(s, r, step)
    ensures TailHeld(DoBoard(s, r, step), id)
  {
    if step.HydrateFound? {
      HydrateTail(s, r, id);
    } else {
      if !step.WriteFinal? {
        PlainBoardSameData(s, r, step);
      }
      QuietTail(s, DoBoard(s, r, step), id);
    }
  }

  lemma HubStepTail(s: State, h: HubId, step: HubStep, id: BoardId)
    requires TailHeld(s, id) && CanHub(s, h, step)
    ensures TailHeld(DoHub(s, h, step), id)
  {
    HubStepSameData(s, h, step);
    QuietTail(s, DoHub(s, h, step), id);
  }

  lemma StepKeepsTail(s: State, a: Step, id: BoardId)
    requires InStep(s) && DataInv(s) && TailHeld(s, id) && Can(s, a)
    ensures TailHeld(Do(s, a), id)
  {
    match a
    case BySession(c, step) => SessionStepTail(s, c, step, id);
    case ByBoard(r, step) => BoardStepTail(s, r, step, id);
    case ByHub(h, step) => HubStepTail(s, h, step, id);
    case Restart =>
    case _ => QuietTail(s, Do(s, a), id);
  }

  lemma {:induction false} RunKeepsTail(s: State, run: seq<Step>, t: State, id: BoardId)
    requires Good(s) && TailHeld(s, id) && ReachesSoundly(s, run, t)
    ensures TailHeld(t, id)
    decreases |run|
  {
    if run != [] {
      StepKeepsTail(s, run[0], id);
      StepKeepsGood(s, run[0]);
      RunKeepsTail(Do(s, run[0]), run[1..], t, id);
    }
  }

  ghost predicate EveryoneLeftLast(s: State) {
    forall c :: 0 <= c < |s.sessions| ==>
      s.sessions[c].board < |s.boards| && s.boards[s.sessions[c].board].lastLeft
  }

  /** What an operator can check before restarting the broker: nobody is connected, and
      every board was stopped by its last client leaving, none by a shutdown. Then the
      store holds everything the broker does, and no save read since the last restart can
      do harm. */
  lemma LastLeaveLosesNothing(s: State, id: BoardId)
    requires SoundlyReachable(s) && Idle(s) && EveryoneLeftLast(s)
    ensures Hist(s, id) <= DurableLog(s, id)
    ensures forall p :: p in s.savers && p.id == id && p.log <= Hist(s, id) ==> Absorbed(s, p)
  {
    SoundlyReachableGood(s);
    SoundlyReachableTail(s, id);
    LeftLastDurable(s, id);
  }

  lemma SoundlyReachableTail(s: State, id: BoardId)
    requires SoundlyReachable(s)
    ensures TailHeld(s, id)
  {
    var run :| ReachesSoundly(INITIAL, run, s);
    InitialGood();
    RunKeepsTail(INITIAL, run, s, id);
  }

  lemma LeftLastDurable(s: State, id: BoardId)
    requires Reachable(s) && StoreOk(s) && InStep(s) && TailHeld(s, id) && Idle(s) && EveryoneLeftLast(s)
    ensures Hist(s, id) <= DurableLog(s, id)
    ensures forall p :: p in s.savers && p.id == id && p.log <= Hist(s, id) ==> Absorbed(s, p)
  {
    DurableState(s, id);
    if c: Sid :| Holds(s, c, id) {
      LastLeaveCheckpoint(s, c);
    }
    assert |Hist(s, id)| <= |DurableLog(s, id)|;
  }
}
