/** Wait groups, the open-board gauge and the global roster are exact in every reachable
    state. */
module Accounting {
  import opened Protocol
  import opened System
  import opened Registry
  import opened Counting
  import opened Lifecycle

  /** Each hub's wait group counts its unreturned sessions, so it never goes negative. */
  ghost predicate WaitGroups(s: State) {
    forall h :: Inflight(s, h) == Count(s.sessions, ActiveIn(h))
  }

  ghost predicate DrainedHubs(s: State) {
    forall h :: h in s.shut && s.shut[h].verdict.Drained? ==> Inflight(s, h) == 0
  }

  ghost predicate GaugeExact(s: State) {
    s.gauge == OpenBoards(s.boards)
  }

  /** Past SetPresence and before RemovePresence. */
  predicate Listed(pc: Pc) {
    !(pc.Admitted? || pc.Registered? || pc.Releasing? || pc.ClosingQuit? || pc.Unregistering? || pc.Finishing?
      || pc.Returned?)
  }

  predicate OnRoster(s: State, c: Sid, id: BoardId) {
    c < |s.sessions| && s.sessions[c].id == id && Listed(s.sessions[c].pc)
  }

  /** The broker's roster of a board is exactly the sessions, on any hub, that have
      announced themselves and not yet left. */
  ghost predicate RosterExact(s: State) {
    forall id, c: Sid :: c in Roster(s, id) <==> OnRoster(s, c, id)
  }

  ghost predicate AccountInv(s: State) {
    WaitGroups(s) && DrainedHubs(s) && GaugeExact(s) && RosterExact(s)
  }

  // ---- Steps that leave the accounts alone ----

  ghost predicate SameAccounts(s: State, t: State) {
    && t.inflight == s.inflight && t.gauge == s.gauge && t.roster == s.roster
    && |t.sessions| == |s.sessions| && |t.boards| == |s.boards|
    && (forall c :: 0 <= c < |s.sessions| ==>
          && t.sessions[c].hub == s.sessions[c].hub && t.sessions[c].id == s.sessions[c].id
          && (t.sessions[c].pc.Returned? <==> s.sessions[c].pc.Returned?)
          && (Listed(t.sessions[c].pc) <==> Listed(s.sessions[c].pc)))
    && (forall r :: 0 <= r < |s.boards| ==> (t.boards[r].phase.Done? <==> s.boards[r].phase.Done?))
  }

  lemma {:induction false} OpenPointwise(bs: seq<Actor>, cs: seq<Actor>)
    requires |bs| == |cs|
    requires forall r :: 0 <= r < |bs| ==> (bs[r].phase.Done? <==> cs[r].phase.Done?)
    ensures OpenBoards(bs) == OpenBoards(cs)
  {
    if bs != [] {
      OpenPointwise(bs[..|bs| - 1], cs[..|cs| - 1]);
    }
  }

  lemma SameAccountsKeep(s: State, t: State)
    requires WaitGroups(s) && GaugeExact(s) && RosterExact(s) && SameAccounts(s, t)
    ensures WaitGroups(t) && GaugeExact(t) && RosterExact(t)
    ensures forall h :: Inflight(t, h) == Inflight(s, h)
  {
    forall h
      ensures Count(s.sessions, ActiveIn(h)) == Count(t.sessions, ActiveIn(h))
    {
      CountPointwise(s.sessions, t.sessions, ActiveIn(h));
    }
    OpenPointwise(s.boards, t.boards);
    forall id
      ensures Roster(t, id) == Roster(s, id)
    {
    }
  }

  predicate AccountStep(step: SessionStep) {
    step.SetPresence? || step.RemovePresence? || step.Return?
  }

  lemma OtherStepAccounts(s: State, c: Sid, step: SessionStep)
    requires CanSession(s, c, step) && !AccountStep(step)
    ensures SameAccounts(s, DoSession(s, c, step))
  {
  }

  lemma RosterStepKeeps(s: State, c: Sid, step: SessionStep)
    requires AccountInv(s) && CanSession(s, c, step) && (step.SetPresence? || step.RemovePresence?)
    ensures AccountInv(DoSession(s, c, step))
  {
    var t := DoSession(s, c, step);
    forall h
      ensures Count(s.sessions, ActiveIn(h)) == Count(t.sessions, ActiveIn(h))
    {
      CountPointwise(s.sessions, t.sessions, ActiveIn(h));
    }
    OpenPointwise(s.boards, t.boards);
    assert forall h :: Inflight(t, h) == Inflight(s, h);
    RosterStepExact(s, c, step);
  }

  lemma RosterStepExact(s: State, c: Sid, step: SessionStep)
    requires RosterExact(s) && CanSession(s, c, step) && (step.SetPresence? || step.RemovePresence?)
    ensures RosterExact(DoSession(s, c, step))
  {
    var t := DoSession(s, c, step);
    forall id, d: Sid
      ensures d in Roster(t, id) <==> OnRoster(t, d, id)
    {
      assert d in Roster(s, id) <==> OnRoster(s, d, id);
    }
  }

  lemma ReturnKeeps(s: State, c: Sid)
    requires AccountInv(s) && CanSession(s, c, Return)
    ensures AccountInv(DoSession(s, c, Return))
  {
    var t := DoSession(s, c, Return);
    ReturnWaitGroups(s, c);
    OpenPointwise(s.boards, t.boards);
    assert forall id :: Roster(t, id) == Roster(s, id);
    forall id, d: Sid
      ensures d in Roster(t, id) <==> OnRoster(t, d, id)
    {
      assert d in Roster(s, id) <==> OnRoster(s, d, id);
    }
  }

  /** A returning session was counted, so the counter it decrements was positive. */
  lemma ReturnWaitGroups(s: State, c: Sid)
    requires WaitGroups(s) && CanSession(s, c, Return)
    ensures Inflight(s, s.sessions[c].hub) > 0
    ensures WaitGroups(DoSession(s, c, Return))
    ensures forall h :: Inflight(DoSession(s, c, Return), h) <= Inflight(s, h)
  {
    var t := DoSession(s, c, Return);
    CountCovers(s.sessions, c, ActiveIn(s.sessions[c].hub));
    forall h
      ensures Inflight(t, h) == Count(t.sessions, ActiveIn(h))
      ensures Inflight(t, h) <= Inflight(s, h)
    {
      CountUpdate(s.sessions, c, s.sessions[c].(pc := Returned), ActiveIn(h));
      assert Inflight(s, h) == Count(s.sessions, ActiveIn(h));
    }
  }

  lemma SessionStepsKeepAccounts(s: State, c: Sid, step: SessionStep)
    requires AccountInv(s) && CanSession(s, c, step)
    ensures AccountInv(DoSession(s, c, step))
  {
    var t := DoSession(s, c, step);
    if step.Return? {
      ReturnKeeps(s, c);
    } else if AccountStep(step) {
      RosterStepKeeps(s, c, step);
    } else {
      OtherStepAccounts(s, c, step);
      SameAccountsKeep(s, t);
    }
  }

  lemma OtherBoardStepAccounts(s: State, r: Ref, step: BoardStep)
    requires CanBoard(s, r, step) && !step.CloseDone?
    ensures SameAccounts(s, DoBoard(s, r, step))
  {
  }

  lemma CloseDoneKeeps(s: State, r: Ref)
    requires AccountInv(s) && CanBoard(s, r, CloseDone)
    ensures AccountInv(DoBoard(s, r, CloseDone))
  {
    var t := DoBoard(s, r, CloseDone);
    OpenUpdate(s.boards, r, t.boards[r]);
    assert forall id :: Roster(t, id) == Roster(s, id);
    assert forall h :: Inflight(t, h) == Inflight(s, h);
  }

  lemma BoardStepsKeepAccounts(s: State, r: Ref, step: BoardStep)
    requires AccountInv(s) && CanBoard(s, r, step)
    ensures AccountInv(DoBoard(s, r, step))
  {
    var t := DoBoard(s, r, step);
    if step.CloseDone? {
      CloseDoneKeeps(s, r);
    } else {
      OtherBoardStepAccounts(s, r, step);
      SameAccountsKeep(s, t);
    }
  }

  lemma AdmitKeepsAccounts(s: State, h: HubId, id: BoardId)
    requires AccountInv(s) && CanHub(s, h, AdmitSession(id))
    ensures AccountInv(AdmitOne(s, h, id))
  {
    AdmitWaitGroups(s, h, id);
    AdmitGauge(s, h, id);
    AdmitRoster(s, h, id);
  }

  lemma AdmitGauge(s: State, h: HubId, id: BoardId)
    requires GaugeExact(s) && CanHub(s, h, AdmitSession(id))
    ensures GaugeExact(AdmitOne(s, h, id))
  {
    OpenAppend(s.boards, Actor(h, id, Loading, 0, {}, false));
  }

  lemma AdmitRoster(s: State, h: HubId, id: BoardId)
    requires RosterExact(s) && CanHub(s, h, AdmitSession(id))
    ensures RosterExact(AdmitOne(s, h, id))
  {
    var t := AdmitOne(s, h, id);
    forall id', d: Sid
      ensures d in Roster(t, id') <==> OnRoster(t, d, id')
    {
      assert Roster(t, id') == Roster(s, id');
      assert d in Roster(s, id') <==> OnRoster(s, d, id');
    }
  }

  lemma AdmitWaitGroups(s: State, h: HubId, id: BoardId)
    requires WaitGroups(s) && DrainedHubs(s) && CanHub(s, h, AdmitSession(id))
    ensures WaitGroups(AdmitOne(s, h, id)) && DrainedHubs(AdmitOne(s, h, id))
  {
    var t := AdmitOne(s, h, id);
    forall g
      ensures Inflight(t, g) == Count(t.sessions, ActiveIn(g))
      ensures g != h ==> Inflight(t, g) == Inflight(s, g)
    {
      CountAppend(s.sessions, t.sessions[|s.sessions|], ActiveIn(g));
      assert Inflight(s, g) == Count(s.sessions, ActiveIn(g));
    }
  }

  lemma ShutdownStepsKeepAccounts(s: State, h: HubId, step: HubStep)
    requires AccountInv(s) && CanHub(s, h, step) && !step.AdmitSession?
    ensures AccountInv(DoHub(s, h, step))
  {
    var t := DoHub(s, h, step);
    assert SameAccounts(s, t);
    SameAccountsKeep(s, t);
  }

  lemma RestartKeepsAccounts(s: State)
    requires AccountInv(s) && Idle(s)
    ensures AccountInv(RestartBroker(s))
  {
    var t := RestartBroker(s);
    assert forall h :: Inflight(t, h) == Inflight(s, h);
  }

  lemma AccountsKept(s: State, a: Step)
    requires AccountInv(s) && RegistryInv(s) && Can(s, a)
    ensures AccountInv(Do(s, a))
  {
    match a
    case BySession(c, step) => SessionStepsKeepAccounts(s, c, step);
    case ByBoard(r, step) => BoardStepsKeepAccounts(s, r, step);
    case ByHub(h, step) =>
      if step.AdmitSession? {
        AdmitKeepsAccounts(s, h, step.id);
      } else {
        ShutdownStepsKeepAccounts(s, h, step);
      }
    case ReadPeriodic(_, _) => SameAccountsKeep(s, Do(s, a));
    case WritePeriodic(_) => SameAccountsKeep(s, Do(s, a));
    case Restart => RestartKeepsAccounts(s);
  }
}
