/** What a broker restart can cost while saves are in flight, and exactly when it costs
    nothing (internal/hub/persistence.go, internal/store/memory.go). */
module Restarts {
  import opened Protocol
  import opened Sequencer
  import opened MemoryBroker
  import opened SnapshotStore
  import opened System
  import opened Registry
  import opened Lifecycle
  import opened Channels
  import opened Durability
  import opened Naming
  import opened Alignment
  import opened Runs
  import opened SoundRuns
  import opened Drain

  // ---- Putting runs together ----

  /** Neither restarts nor lands a save. */
  predicate Calm(run: seq<Step>) { forall i :: 0 <= i < |run| ==> !run[i].Restart? && !run[i].WritePeriodic? }

  lemma OneStep(s: State, a: Step)
    requires Can(s, a)
    ensures Reaches(s, [a], Do(s, a))
  {
    assert [a][1..] == [];
    assert Reaches(Do(s, a), [], Do(s, a));
  }

  lemma {:induction false} Concat(s: State, first: seq<Step>, t: State, second: seq<Step>, u: State)
    requires Reaches(s, first, t) && Reaches(t, second, u)
    ensures Reaches(s, first + second, u)
    decreases |first|
  {
    if first == [] {
      assert first + second == second;
    } else {
      assert (first + second)[0] == first[0] && (first + second)[1..] == first[1..] + second;
      Concat(Do(s, first[0]), first[1..], t, second, u);
    }
  }

  lemma {:induction false} ConcatSound(s: State, first: seq<Step>, t: State, second: seq<Step>, u: State)
    requires ReachesSoundly(s, first, t) && ReachesSoundly(t, second, u)
    ensures ReachesSoundly(s, first + second, u)
    decreases |first|
  {
    if first == [] {
      assert first + second == second;
    } else {
      assert (first + second)[0] == first[0] && (first + second)[1..] == first[1..] + second;
      ConcatSound(Do(s, first[0]), first[1..], t, second, u);
    }
  }

  lemma {:induction false} CalmIsSound(s: State, run: seq<Step>, t: State)
    requires Reaches(s, run, t) && Calm(run)
    ensures ReachesSoundly(s, run, t)
    decreases |run|
  {
    if run != [] {
      assert forall i :: 0 <= i < |run| - 1 ==> run[1..][i] == run[i + 1];
      CalmIsSound(Do(s, run[0]), run[1..], t);
    }
  }

  /** `t` follows from `s` without a restart or a landing; the store and the saves in
      flight are untouched. */
  ghost predicate Follows(s: State, run: seq<Step>, t: State) {
    && Reaches(s, run, t) && Calm(run) && DataInv(t)
    && t.store == s.store && t.durable == s.durable && t.savers == s.savers
  }

  lemma FollowsItself(s: State)
    requires DataInv(s)
    ensures Follows(s, [], s)
  {
  }

  lemma FollowsStep(s: State, run: seq<Step>, t: State, a: Step)
    requires Follows(s, run, t) && Can(t, a) && !a.Restart? && !a.WritePeriodic?
    requires Do(t, a).store == t.store && Do(t, a).durable == t.durable && Do(t, a).savers == t.savers
    ensures Follows(s, run + [a], Do(t, a))
  {
    DataKept(t, a);
    OneStep(t, a);
    Concat(s, run, t, [a], Do(t, a));
  }

  // ---- Someone can always connect and draw ----

  /** Session `c` of board `id` is at `pc`, still connected. */
  ghost predicate At(s: State, c: Sid, id: BoardId, pc: Pc) {
    && c < |s.sessions| && s.sessions[c].id == id && s.sessions[c].pc == pc && !s.sessions[c].connClosed
    && s.sessions[c].board < |s.boards|
  }

  ghost predicate AtDoor(s: State, c: Sid, id: BoardId) {
    At(s, c, id, Admitted) && s.boards[s.sessions[c].board].phase.Running?
  }

  /** A number above every element: a hub that nobody uses yet. */
  lemma {:induction false} AboveAll(hs: set<HubId>) returns (h: HubId)
    ensures forall g :: g in hs ==> g < h
    decreases |hs|
  {
    if hs == {} {
      h := 0;
    } else {
      var g :| g in hs;
      var k := AboveAll(hs - {g});
      h := if g < k then k else g + 1;
      forall f | f in hs
        ensures f < h
      {
        assert f == g || f in hs - {g};
      }
    }
  }

  lemma FreshHub(s: State) returns (h: HubId)
    ensures h !in s.shut && forall k :: k in s.reg ==> k.0 != h
  {
    var hs := set k | k in s.reg :: k.0;
    h := AboveAll(s.shut.Keys + hs);
    assert forall k :: k in s.reg ==> k.0 in hs;
  }

  lemma AdmitFresh(s: State, h: HubId, id: BoardId)
    requires h !in s.shut && (h, id) !in s.reg
    ensures var t := DoHub(s, h, AdmitSession(id));
      && |t.sessions| == |s.sessions| + 1 && |t.boards| == |s.boards| + 1
      && t.sessions[|s.sessions|] == Session(h, id, |s.boards|, Admitted, false, 0, false, 0)
      && t.boards[|s.boards|].id == id && t.boards[|s.boards|].phase.Loading?
      && t.store == s.store && t.durable == s.durable && t.savers == s.savers && t.hist == s.hist
  {
  }

  lemma LoadFresh(s: State, r: Ref)
    requires CanBoard(s, r, LoadStored)
    ensures var t := DoBoard(s, r, LoadStored);
      && |t.boards| == |s.boards| && t.sessions == s.sessions && t.boards[r].id == s.boards[r].id
      && t.boards[r].phase == Hydrating(Find(s.store, s.boards[r].id), DurableLog(s, s.boards[r].id))
      && t.store == s.store && t.durable == s.durable && t.savers == s.savers && t.hist == s.hist
  {
  }

  lemma HydrateFresh(s: State, r: Ref)
    requires BrokerOk(s) && PhasesOk(s) && CanBoard(s, r, HydrateFound)
    ensures var t := DoBoard(s, r, HydrateFound);
      && |t.boards| == |s.boards| && t.sessions == s.sessions && t.boards[r].id == s.boards[r].id
      && t.boards[r].phase.Running?
      && t.store == s.store && t.durable == s.durable && t.savers == s.savers
      && Hist(t, s.boards[r].id)
         == if Hist(s, s.boards[r].id) == [] then s.boards[r].phase.log else Hist(s, s.boards[r].id)
  {
    HydrateHist(s, r);
    HydrateSameStore(s, r);
  }

  /** What a board that opens now makes the broker hold. */
  function Opened(s: State, id: BoardId): seq<Op> {
    if Hist(s, id) == [] then DurableLog(s, id) else Hist(s, id)
  }

  /** A connection through a fresh hub, up to where its board runs. */
  lemma OpenBoard(s: State, id: BoardId) returns (run: seq<Step>, t: State, c: Sid)
    requires DataInv(s)
    ensures Follows(s, run, t) && AtDoor(t, c, id) && Hist(t, id) == Opened(s, id)
  {
    var h := FreshHub(s);
    c := |s.sessions|;
    var r := |s.boards|;
    FollowsItself(s);
    AdmitFresh(s, h, id);
    FollowsStep(s, [], s, ByHub(h, AdmitSession(id)));
    var s1 := DoHub(s, h, AdmitSession(id));
    LoadFresh(s1, r);
    FollowsStep(s, [] + [ByHub(h, AdmitSession(id))], s1, ByBoard(r, LoadStored));
    var s2 := DoBoard(s1, r, LoadStored);
    HydrateFresh(s2, r);
    run := [] + [ByHub(h, AdmitSession(id))] + [ByBoard(r, LoadStored)];
    FollowsStep(s, run, s2, ByBoard(r, HydrateFound));
    run := run + [ByBoard(r, HydrateFound)];
    t := DoBoard(s2, r, HydrateFound);
  }

  /** How many steps of its own keep a session from reading. */
  function Distance(pc: Pc): nat {
    match pc
    case Registered => 5
    case Announced => 4
    case HoldingSnapshot(_) => 3
    case OnboardingRoster => 2
    case HoldingRoster(_) => 1
    case Publishing => 1
    case _ => 0
  }

  function Ahead(pc: Pc, snap: Snapshot): SessionStep {
    match pc
    case Registered => SetPresence
    case Announced => FetchSnapshot(snap)
    case OnboardingRoster => FetchRoster
    case Publishing => PublishOp
    case _ => GiveUp(true)
  }

  /** Steps that only move the session on. */
  predicate Onward(step: SessionStep) {
    step.Register? || step.SetPresence? || step.FetchSnapshot? || step.FetchRoster? || step == GiveUp(true)
    || step.ReadOp? || step.PublishOp?
  }

  lemma OnwardStep(s: State, c: Sid, id: BoardId, pc: Pc, step: SessionStep)
    requires At(s, c, id, pc) && CanSession(s, c, step) && Onward(step)
    ensures var t := DoSession(s, c, step);
      && At(t, c, id, SessionAfter(s, s.sessions[c], step).pc)
      && t.store == s.store && t.durable == s.durable && t.savers == s.savers && t.hist == s.hist
  {
  }

  /** One more step of the session, after a run that led to where it is. */
  lemma StepOn(s: State, run: seq<Step>, t: State, c: Sid, id: BoardId, pc: Pc, step: SessionStep) returns (u: State)
    requires Follows(s, run, t) && At(t, c, id, pc) && CanSession(t, c, step) && Onward(step)
    ensures u == DoSession(t, c, step)
    ensures Follows(s, run + [BySession(c, step)], u)
    ensures At(u, c, id, SessionAfter(t, t.sessions[c], step).pc) && u.hist == t.hist
  {
    OnwardStep(t, c, id, pc, step);
    FollowsStep(s, run, t, BySession(c, step));
    u := DoSession(t, c, step);
  }

  /** A connected session on its way gets to reading, whatever the others do. */
  lemma {:induction false} Approach(s: State, run0: seq<Step>, t0: State, c: Sid, id: BoardId, pc: Pc)
    returns (run: seq<Step>, t: State)
    requires Follows(s, run0, t0) && At(t0, c, id, pc) && (Distance(pc) > 0 || pc.Reading?)
    ensures Follows(s, run, t) && At(t, c, id, Reading) && t.hist == t0.hist
    decreases Distance(pc)
  {
    if pc.Reading? {
      run, t := run0, t0;
    } else {
      var snap := SnapshotReplyExists(t0, id);
      var step := Ahead(pc, snap);
      var t1 := StepOn(s, run0, t0, c, id, pc, step);
      run, t := Approach(s, run0 + [BySession(c, step)], t1, c, id, SessionAfter(t0, t0.sessions[c], step).pc);
    }
  }

  lemma Enter(s: State, run0: seq<Step>, t0: State, c: Sid, id: BoardId) returns (run: seq<Step>, t: State)
    requires Follows(s, run0, t0) && AtDoor(t0, c, id)
    ensures Follows(s, run, t) && At(t, c, id, Reading) && t.hist == t0.hist
  {
    var t1 := StepOn(s, run0, t0, c, id, Admitted, Register);
    run, t := Approach(s, run0 + [BySession(c, Register)], t1, c, id, Registered);
  }

  lemma ApplyOn(s: State, c: Sid, id: BoardId, op: Op)
    requires BrokerOk(s) && At(s, c, id, Applying(op))
    ensures CanSession(s, c, ApplyOp)
    ensures var t := DoSession(s, c, ApplyOp);
      && At(t, c, id, Publishing) && Hist(t, id) == Hist(s, id) + [op]
      && t.store == s.store && t.durable == s.durable && t.savers == s.savers
  {
    AssignData(s, c);
    AssignSameStore(s, c);
  }

  lemma AppendOne(s: State, run0: seq<Step>, t0: State, c: Sid, id: BoardId, op: Op) returns (run: seq<Step>, t: State)
    requires Follows(s, run0, t0) && At(t0, c, id, Reading) && op.id != ""
    ensures Follows(s, run, t) && At(t, c, id, Reading) && Hist(t, id) == Hist(t0, id) + [op]
  {
    t := StepOn(s, run0, t0, c, id, Reading, ReadOp(op));
    run := run0 + [BySession(c, ReadOp(op))];
    ApplyOn(t, c, id, op);
    FollowsStep(s, run, t, BySession(c, ApplyOp));
    run := run + [BySession(c, ApplyOp)];
    t := DoSession(t, c, ApplyOp);
    t := StepOn(s, run, t, c, id, Publishing, PublishOp);
    run := run + [BySession(c, PublishOp)];
  }

  lemma FirstThenRest(log: seq<Op>, ops: seq<Op>)
    requires ops != [] && Named(ops)
    ensures log + [ops[0]] + ops[1..] == log + ops && Named(ops[1..])
  {
  }

  lemma {:induction false} AppendAll(s: State, run0: seq<Step>, t0: State, c: Sid, id: BoardId, ops: seq<Op>)
    returns (run: seq<Step>, t: State)
    requires Follows(s, run0, t0) && At(t0, c, id, Reading) && Named(ops)
    ensures Follows(s, run, t) && Hist(t, id) == Hist(t0, id) + ops
    decreases |ops|
  {
    if ops == [] {
      run, t := run0, t0;
    } else {
      var run1, t1 := AppendOne(s, run0, t0, c, id, ops[0]);
      FirstThenRest(Hist(t0, id), ops);
      run, t := AppendAll(s, run1, t1, c, id, ops[1..]);
    }
  }

  /** From any state, someone can connect and have any operations sequenced. */
  lemma DrawOn(s: State, id: BoardId, ops: seq<Op>) returns (run: seq<Step>, t: State)
    requires DataInv(s) && Named(ops)
    ensures Follows(s, run, t) && Hist(t, id) == Opened(s, id) + ops
  {
    var run1, t1, c := OpenBoard(s, id);
    var run2, t2 := Enter(s, run1, t1, c, id);
    run, t := AppendAll(s, run2, t2, c, id, ops);
  }

  // ---- A fork can always become a loss ----

  /** Operations that lead `log` away from `other`, and at least as far. */
  lemma {:induction false} DivergingOps(other: seq<Op>, log: seq<Op>) returns (ops: seq<Op>)
    requires !(other <= log)
    ensures Named(ops) && |log + ops| >= |other| && !(other <= log + ops)
    decreases |other| - |log|
  {
    if |log| >= |other| {
      ops := [];
      assert log + ops == log;
    } else {
      var op := if other[|log|] == Del("a") then Del("b") else Del("a");
      assert (log + [op])[|log|] == op;
      var rest := DivergingOps(other, log + [op]);
      ops := [op] + rest;
      assert log + [op] + rest == log + ops;
    }
  }

  /** A periodic save that nothing overtakes. */
  lemma SaveNow(s: State, id: BoardId) returns (run: seq<Step>, t: State)
    requires DataInv(s)
    ensures ReachesSoundly(s, run, t) && NoRestart(run)
    ensures DurableLog(t, id) == if |Hist(s, id)| < |DurableLog(s, id)| then DurableLog(s, id) else Hist(s, id)
  {
    var snap := SnapshotReplyExists(s, id);
    var p := InHand(id, snap, Hist(s, id));
    ReplyIsSnapshot(s, id, snap);
    var u := Do(s, ReadPeriodic(id, snap));
    DataKept(s, ReadPeriodic(id, snap));
    t := LandSave(u, p);
    SaveKeepsStore(u, t, id, snap, Hist(s, id));
    run := [ReadPeriodic(id, snap), WritePeriodic(p)];
    TwoSteps(s, run, u, t);
  }

  lemma TwoSteps(s: State, run: seq<Step>, u: State, t: State)
    requires |run| == 2 && Can(s, run[0]) && Sound(s, run[0]) && u == Do(s, run[0])
    requires Can(u, run[1]) && Sound(u, run[1]) && t == Do(u, run[1])
    ensures ReachesSoundly(s, run, t)
  {
    assert run[1..][0] == run[1] && run[1..][1..] == [];
    assert Reaches(t, [], t) && SoundRun(t, []);
    assert Reaches(u, run[1..], t) && SoundRun(u, run[1..]);
  }

  /** When the broker's history does not extend what is durable, someone can draw and save
      so that a durable operation is gone. */
  lemma ForkLosesDurable(s: State, id: BoardId) returns (run: seq<Step>, t: State)
    requires DataInv(s) && Hist(s, id) != [] && !Ready(s, id)
    ensures ReachesSoundly(s, run, t) && NoRestart(run) && !(DurableLog(s, id) <= DurableLog(t, id))
  {
    var ops := DivergingOps(DurableLog(s, id), Hist(s, id));
    var run1, t1 := DrawOn(s, id, ops);
    assert DurableLog(t1, id) == DurableLog(s, id);
    var run2, t2 := SaveNow(t1, id);
    CalmIsSound(s, run1, t1);
    ConcatSound(s, run1, t1, run2, t2);
    run, t := run1 + run2, t2;
  }

  // ---- Drawing on a broker that was never loaded ----

  /** Someone joins the incarnation `r`, which is open. */
  lemma JoinOpen(s: State, id: BoardId, r: Ref) returns (run: seq<Step>, t: State, c: Sid)
    requires DataInv(s) && Counted(s) && Linked(s) && SessionsOk(s)
    requires r < |s.boards| && s.boards[r].id == id && Open(s, r)
    ensures Follows(s, run, t) && At(t, c, id, Admitted) && t.sessions[c].board == r
    ensures t.boards[r].id == id && t.boards[r].phase == s.boards[r].phase && t.hist == s.hist
  {
    FollowsItself(s);
    if d :| 0 <= d < |s.sessions| && s.sessions[d].board == r && s.sessions[d].pc.Admitted? {
      run, t, c := [], s, d;
    } else {
      var k :| k in s.reg && s.reg[k].board == r;
      var step := AdmitSession(id);
      FollowsStep(s, [], s, ByHub(k.0, step));
      run, t, c := [] + [ByHub(k.0, step)], DoHub(s, k.0, step), |s.sessions|;
    }
  }

  /** Its board, if it found nothing in the store, starts to run. */
  lemma StartEmpty(s: State, run0: seq<Step>, t0: State, c: Sid, id: BoardId) returns (run: seq<Step>, t: State)
    requires Follows(s, run0, t0) && At(t0, c, id, Admitted) && t0.boards[t0.sessions[c].board].id == id
    requires var phase := t0.boards[t0.sessions[c].board].phase; phase.Running? || (phase.Hydrating? && phase.log == [])
    ensures Follows(s, run, t) && AtDoor(t, c, id) && Hist(t, id) == Hist(t0, id)
  {
    var r := t0.sessions[c].board;
    run, t := run0, t0;
    if t0.boards[r].phase.Hydrating? {
      HydrateFresh(t0, r);
      FollowsStep(s, run0, t0, ByBoard(r, HydrateFound));
      run, t := run0 + [ByBoard(r, HydrateFound)], DoBoard(t0, r, HydrateFound);
    }
  }

  /** A session of `id` is about to be given a number. */
  ghost predicate Sequences(s: State, c: Sid, id: BoardId) {
    CanSession(s, c, ApplyOp) && s.sessions[c].id == id
  }

  lemma AboutToDraw(s: State, run0: seq<Step>, t0: State, c: Sid, id: BoardId) returns (run: seq<Step>, t: State)
    requires Follows(s, run0, t0) && c < |t0.sessions| && t0.sessions[c].id == id && MayDraw(t0.sessions[c])
    requires t0.sessions[c].board < |t0.boards|
    ensures Follows(s, run, t) && Sequences(t, c, id) && t.hist == t0.hist
  {
    if t0.sessions[c].pc.Applying? {
      run, t := run0, t0;
    } else {
      run, t := Approach(s, run0, t0, c, id, t0.sessions[c].pc);
      var op := Del("a");
      t := StepOn(s, run, t, c, id, Reading, ReadOp(op));
      run := run + [BySession(c, ReadOp(op))];
    }
  }

  /** A board opened before anything was stored, on which someone can draw, draws on. */
  lemma DrawUnloaded(s: State, id: BoardId) returns (run: seq<Step>, t: State, c: Sid)
    requires DataInv(s) && Counted(s) && Linked(s) && SessionsOk(s) && Hist(s, id) == [] && !Unopened(s, id)
    requires forall r :: 0 <= r < |s.boards| && s.boards[r].id == id && s.boards[r].phase.Hydrating? ==>
                           s.boards[r].phase.log == []
    ensures Follows(s, run, t) && Sequences(t, c, id) && Hist(t, id) == []
  {
    FollowsItself(s);
    if d :| 0 <= d < |s.sessions| && s.sessions[d].id == id && MayDraw(s.sessions[d]) {
      c := d;
      run, t := AboutToDraw(s, [], s, c, id);
    } else {
      var r :| 0 <= r < |s.boards| && s.boards[r].id == id && Open(s, r)
               && (s.boards[r].phase.Running? || s.boards[r].phase.Hydrating?);
      run, t, c := JoinOpen(s, id, r);
      run, t := DrawAtDoor(s, run, t, c, id);
    }
  }

  lemma DrawAtDoor(s: State, run0: seq<Step>, t0: State, c: Sid, id: BoardId) returns (run: seq<Step>, t: State)
    requires Follows(s, run0, t0) && At(t0, c, id, Admitted) && t0.boards[t0.sessions[c].board].id == id
    requires var phase := t0.boards[t0.sessions[c].board].phase; phase.Running? || (phase.Hydrating? && phase.log == [])
    ensures Follows(s, run, t) && Sequences(t, c, id) && Hist(t, id) == Hist(t0, id)
  {
    run, t := StartEmpty(s, run0, t0, c, id);
    run, t := Enter(s, run, t, c, id);
    run, t := AboutToDraw(s, run, t, c, id);
  }

  // ---- Which landings are harmless ----

  /** From `u` to `t` nothing durable of `id` was lost, and no operation of `id` is about to
      be given a number that the store already holds. */
  ghost predicate Kept(u: State, t: State, id: BoardId) {
    && DurableLog(u, id) <= DurableLog(t, id)
    && forall c: Sid :: Sequences(t, c, id) ==> StoredSn(t.store, id) <= Get(t.broker, id).sn
  }

  lemma GoodIsKept(u: State, run: seq<Step>, t: State, id: BoardId)
    requires Good(u) && ReachesSoundly(u, run, t)
    ensures Kept(u, t, id)
  {
    RunGrows(u, run, t, id);
    RunKeepsGood(u, run, t);
    NumbersAhead(t, id);
  }

  lemma NumbersAhead(t: State, id: BoardId)
    requires BrokerOk(t) && StoreOk(t) && InStep(t)
    ensures forall c: Sid :: Sequences(t, c, id) ==> StoredSn(t.store, id) <= Get(t.broker, id).sn
  {
    DurableState(t, id);
    BrokerNumber(t, id);
    forall c: Sid | Sequences(t, c, id)
      ensures StoredSn(t.store, id) <= Get(t.broker, id).sn
    {
      assert Ready(t, t.sessions[c].id);
    }
  }

  /** A board that has loaded the older snapshot but not handed it to the broker yet. */
  lemma LateHydration(u: State, id: BoardId, r: Ref) returns (run: seq<Step>, t: State)
    requires DataInv(u) && CanBoard(u, r, HydrateFound) && u.boards[r].id == id && Hist(u, id) == []
    requires u.boards[r].phase.log != [] && !(DurableLog(u, id) <= u.boards[r].phase.log)
    ensures ReachesSoundly(u, run, t) && !(DurableLog(u, id) <= DurableLog(t, id))
  {
    FollowsItself(u);
    HydrateFresh(u, r);
    FollowsStep(u, [], u, ByBoard(r, HydrateFound));
    var run1, t1 := [] + [ByBoard(r, HydrateFound)], DoBoard(u, r, HydrateFound);
    assert DurableLog(t1, id) == DurableLog(u, id);
    var run2, t2 := ForkLosesDurable(t1, id);
    CalmIsSound(u, run1, t1);
    ConcatSound(u, run1, t1, run2, t2);
    run, t := run1 + run2, t2;
  }

  lemma UnloadedReuses(u: State, id: BoardId) returns (run: seq<Step>, t: State)
    requires DataInv(u) && Counted(u) && Linked(u) && SessionsOk(u)
    requires Hist(u, id) == [] && !Unopened(u, id) && DurableLog(u, id) != []
    requires forall r :: 0 <= r < |u.boards| && u.boards[r].id == id && u.boards[r].phase.Hydrating? ==>
                           u.boards[r].phase.log == []
    ensures ReachesSoundly(u, run, t) && !Kept(u, t, id)
  {
    var c;
    run, t, c := DrawUnloaded(u, id);
    CalmIsSound(u, run, t);
    assert StoredOk(t, id) && DurableLog(t, id) == DurableLog(u, id);
    StoredNumber(t, id);
    BrokerNumber(t, id);
    assert Sequences(t, c, id);
  }

  /** Landing changes the durable log and nothing else. */
  lemma LandingState(s: State, p: InHand)
    requires StoreOk(s) && SaversOk(s) && p in s.savers
    ensures var u := LandSave(s, p);
      && DurableLog(u, p.id) == (if |p.log| < |DurableLog(s, p.id)| then DurableLog(s, p.id) else p.log)
      && Hist(u, p.id) == Hist(s, p.id) && u.boards == s.boards && u.sessions == s.sessions
      && (Unopened(u, p.id) <==> Unopened(s, p.id))
  {
    var u := LandSave(s, p);
    SaveKeepsStore(s, u, p.id, p.snap, p.log);
    assert forall r :: Open(u, r) <==> Open(s, r);
  }

  lemma HarmfulLoses(s: State, p: InHand) returns (run: seq<Step>, t: State)
    requires InStep(s) && StoreOk(s) && SaversOk(s) && p in s.savers && !Harmless(s, p)
    requires var u := LandSave(s, p); DataInv(u) && Counted(u) && Linked(u) && SessionsOk(u)
    requires DurableLog(s, p.id) <= DurableLog(LandSave(s, p), p.id)
    ensures ReachesSoundly(LandSave(s, p), run, t) && !Kept(LandSave(s, p), t, p.id)
  {
    var u := LandSave(s, p);
    LandingState(s, p);
    if Hist(u, p.id) != [] {
      run, t := ForkLosesDurable(u, p.id);
    } else if r :| 0 <= r < |u.boards| && u.boards[r].id == p.id && u.boards[r].phase.Hydrating?
                   && u.boards[r].phase.log != [] {
      assert BoardInStep(s, r);
      run, t := LateHydration(u, p.id, r);
    } else {
      run, t := UnloadedReuses(u, p.id);
    }
  }

  /** Main result: when a save that a restart may have overtaken lands, nothing durable is
      lost then or later, and no number that the store holds is given out again, if and only
      if the landing is harmless: the store already holds a higher number or this very
      snapshot, or the snapshot is a point of the broker's present history, or it extends
      what is durable before anyone can draw without loading it. */
  lemma LandingIff(s: State, p: InHand)
    requires SoundlyReachable(s) && p in s.savers
    ensures Harmless(s, p)
            <==> (DurableLog(s, p.id) <= DurableLog(LandSave(s, p), p.id)
                  && forall run, t :: ReachesSoundly(LandSave(s, p), run, t) ==> Kept(LandSave(s, p), t, p.id))
  {
    var u := LandSave(s, p);
    SoundlyReachableGood(s);
    if Harmless(s, p) {
      GoodStepGrows(s, WritePeriodic(p), p.id);
      StepKeepsGood(s, WritePeriodic(p));
      forall run, t | ReachesSoundly(u, run, t)
        ensures Kept(u, t, p.id)
      {
        GoodIsKept(u, run, t, p.id);
      }
    } else if DurableLog(s, p.id) <= DurableLog(u, p.id) {
      StepKeepsInv(s, WritePeriodic(p));
      var run, t := HarmfulLoses(s, p);
    }
  }

  // ---- Which restarts are safe ----

  /** From `s` on, until the next restart and whichever saves land when, nothing that is
      durable at any moment is lost afterwards and no stored number is given out again. */
  ghost predicate KeptUntilRestart(s: State) {
    forall run1, t1, run2, t2, id ::
      Reaches(s, run1, t1) && NoRestart(run1) && Reaches(t1, run2, t2) && NoRestart(run2) ==> Kept(t1, t2, id)
  }

  lemma {:induction false} CautiousUntilRestart(s: State, run: seq<Step>, t: State)
    requires Reaches(s, run, t) && NoRestart(run)
    ensures Cautious(s, run)
    decreases |run|
  {
    if run != [] {
      assert forall i :: 0 <= i < |run| - 1 ==> run[1..][i] == run[i + 1];
      CautiousUntilRestart(Do(s, run[0]), run[1..], t);
    }
  }

  lemma NoStrayIsKept(s: State, run1: seq<Step>, t1: State, run2: seq<Step>, t2: State, id: BoardId)
    requires Good(s) && NoStray(s)
    requires Reaches(s, run1, t1) && NoRestart(run1) && Reaches(t1, run2, t2) && NoRestart(run2)
    ensures Kept(t1, t2, id)
  {
    CautiousUntilRestart(s, run1, t1);
    CautiousRunsAreSound(s, run1, t1);
    RunKeepsGood(s, run1, t1);
    CautiousUntilRestart(t1, run2, t2);
    CautiousRunsAreSound(t1, run2, t2);
    GoodIsKept(t1, run2, t2, id);
  }

  /** The runs in which an overtaken save does its harm: at once, or after someone drew on
      the board that was loaded without it. */
  lemma OvertakenLoses(r: State, p: InHand)
    returns (run1: seq<Step>, t1: State, run2: seq<Step>, t2: State)
    requires DataInv(r) && p in r.savers && !Absorbed(r, p) && Hist(r, p.id) == []
    ensures Reaches(r, run1, t1) && NoRestart(run1) && Reaches(t1, run2, t2) && NoRestart(run2)
    ensures !(DurableLog(t1, p.id) <= DurableLog(t2, p.id))
  {
    FollowsItself(r);
    if DurableLog(r, p.id) <= p.log {
      var ops := DivergingOps(p.log, DurableLog(r, p.id));
      var run, t := DrawOn(r, p.id, ops);
      assert DurableLog(t, p.id) == DurableLog(r, p.id);
      run1, t1 := LandOn(r, run, t, p);
      run2, t2 := SaveNow(t1, p.id);
    } else {
      run1, t1 := [], r;
      run2, t2 := LandOn(r, [], r, p);
    }
  }

  lemma LandOn(s: State, run0: seq<Step>, t0: State, p: InHand) returns (run: seq<Step>, t: State)
    requires Follows(s, run0, t0) && p in s.savers
    requires |p.log| >= |DurableLog(t0, p.id)|
    ensures Reaches(s, run, t) && NoRestart(run) && DataInv(t)
    ensures DurableLog(t, p.id) == p.log && Hist(t, p.id) == Hist(t0, p.id)
  {
    var land := WritePeriodic(p);
    DataKept(t0, land);
    LandingState(t0, p);
    t := LandSave(t0, p);
    OneStep(t0, land);
    Concat(s, run0, t0, [land], t);
    run := run0 + [land];
  }

  lemma AbsorbedRestartIsSafe(s: State)
    requires Good(s) && Idle(s) && AllAbsorbed(s)
    ensures KeptUntilRestart(RestartBroker(s))
  {
    var r := RestartBroker(s);
    StepKeepsGood(s, Restart);
    assert forall p :: p in r.savers ==> Absorbed(s, p) && Absorbed(r, p);
    forall run1, t1, run2, t2, id
      | Reaches(r, run1, t1) && NoRestart(run1) && Reaches(t1, run2, t2) && NoRestart(run2)
      ensures Kept(t1, t2, id)
    {
      NoStrayIsKept(r, run1, t1, run2, t2, id);
    }
  }

  /** Main result: a restart of the broker is safe if and only if the store has caught up
      with every save in flight. Then, until the next restart, every landing is harmless;
      otherwise some run loses something durable. */
  lemma RestartIsSafeIff(s: State)
    requires SoundlyReachable(s) && Idle(s)
    ensures KeptUntilRestart(RestartBroker(s)) <==> AllAbsorbed(s)
  {
    SoundlyReachableGood(s);
    if AllAbsorbed(s) {
      AbsorbedRestartIsSafe(s);
    } else {
      var p :| p in s.savers && !Absorbed(s, p);
      var r := RestartBroker(s);
      DataKept(s, Restart);
      var run1, t1, run2, t2 := OvertakenLoses(r, p);
      assert !Kept(t1, t2, p.id);
    }
  }

  /** Unless a restart overtook it already, whether the store has caught up with a save can
      be told from the two numbers. */
  lemma AbsorbedByNumber(s: State, p: InHand)
    requires SoundlyReachable(s) && NoStray(s) && p in s.savers
    ensures Absorbed(s, p) <==> p.snap.sn <= StoredSn(s.store, p.id)
  {
    SoundlyReachableGood(s);
    AbsorbedIff(s, p);
  }

  lemma AbsorbedIff(s: State, p: InHand)
    requires StoreOk(s) && SaversOk(s) && InStep(s) && NoStray(s) && p in s.savers
    ensures Absorbed(s, p) <==> p.snap.sn <= StoredSn(s.store, p.id)
  {
    DurableState(s, p.id);
    SnapshotNumber(p.snap, p.log);
  }

  /** When the last client has left every board and no earlier restart overtook a save, the
      broker may be restarted at once. */
  lemma LastLeaveRestartIsSafe(s: State)
    requires SoundlyReachable(s) && NoStray(s) && Idle(s) && EveryoneLeftLast(s)
    ensures KeptUntilRestart(RestartBroker(s))
  {
    forall p | p in s.savers
      ensures Absorbed(s, p)
    {
      LastLeaveLosesNothing(s, p.id);
    }
    RestartIsSafeIff(s);
  }
}
