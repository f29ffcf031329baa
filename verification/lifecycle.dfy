/** The keep-open protocol between admission, release and shutdown: what every reachable
    state of the registry looks like. */
module Lifecycle {
  import opened Protocol
  import opened System
  import opened Registry
  import opened Counting

  ghost predicate Linked(s: State) {
    forall c :: 0 <= c < |s.sessions| ==>
      && s.sessions[c].board < |s.boards|
      && s.boards[s.sessions[c].board].hub == s.sessions[c].hub
      && s.boards[s.sessions[c].board].id == s.sessions[c].id
  }

  /** A registered board has not been asked to stop, and its count is exactly the number
      of its admitted, not yet released sessions: at least one. A closing hub has no
      registered board. */
  ghost predicate Counted(s: State) {
    forall k :: k in s.reg ==>
      && s.reg[k].board < |s.boards|
      && s.boards[s.reg[k].board].hub == k.0 && s.boards[s.reg[k].board].id == k.1
      && s.boards[s.reg[k].board].quitRequests == 0
      && !s.boards[s.reg[k].board].lastLeft
      && s.reg[k].count == Count(s.sessions, HoldersOf(s.reg[k].board)) >= 1
      && k.0 !in s.shut
  }

  /** While its hub is open, the board of every unreleased session is the registered one. */
  ghost predicate Anchored(s: State) {
    forall c :: 0 <= c < |s.sessions| && Holding(s.sessions[c].pc) && s.sessions[c].hub !in s.shut ==>
      (s.sessions[c].hub, s.sessions[c].id) in s.reg
      && s.reg[(s.sessions[c].hub, s.sessions[c].id)].board == s.sessions[c].board
  }

  predicate AfterQuit(p: Phase) { p.Checkpoint? || p.Saving? || p.Stopped? || p.Done? }

  ghost predicate ToldIn(d: Shutdown, r: Ref) {
    exists i :: 0 <= i < d.told && i < |d.captured| && d.captured[i] == r
  }

  /** `r` is among the boards its hub's shutdown has already told to quit. */
  ghost predicate ToldByShutdown(s: State, r: Ref)
    requires r < |s.boards|
  {
    s.boards[r].hub in s.shut && ToldIn(s.shut[s.boards[r].hub], r)
  }

  /** At most one request to stop, made by the last release or by a shutdown, never both;
      and only a board that was asked stops. */
  ghost predicate QuitOnce(s: State) {
    forall r :: 0 <= r < |s.boards| ==>
      && s.boards[r].quitRequests <= 1
      && (s.boards[r].quitRequests == 1 ==> s.boards[r].lastLeft != ToldByShutdown(s, r))
      && (AfterQuit(s.boards[r].phase) ==> s.boards[r].quitRequests == 1)
      && (s.boards[r].lastLeft ==> Count(s.sessions, HoldersOf(r)) == 0)
  }

  /** A session about to close a board's quit is the only one, and nobody has yet. */
  ghost predicate SoleCloser(s: State) {
    && (forall c :: 0 <= c < |s.sessions| && s.sessions[c].pc.ClosingQuit? ==>
          s.sessions[c].board < |s.boards|
          && s.boards[s.sessions[c].board].lastLeft && s.boards[s.sessions[c].board].quitRequests == 0)
    && (forall c, d :: 0 <= c < d < |s.sessions| && s.sessions[c].pc.ClosingQuit? && s.sessions[d].pc.ClosingQuit? ==>
          s.sessions[c].board != s.sessions[d].board)
  }

  ghost predicate ShutdownOk(s: State, h: HubId)
    requires h in s.shut
  {
    var d := s.shut[h];
    && d.told <= |d.captured| && d.awaited <= |d.captured|
    && (d.awaited > 0 ==> d.told == |d.captured|)
    && (!d.verdict.Pending? ==> d.told == |d.captured|)
    && (d.verdict.Drained? ==> d.awaited == |d.captured|)
    && (forall i :: 0 <= i < |d.captured| ==>
          && d.captured[i] < |s.boards|
          && s.boards[d.captured[i]].hub == h
          && !s.boards[d.captured[i]].lastLeft
          && s.boards[d.captured[i]].quitRequests == (if i < d.told then 1 else 0))
    && (forall i, j :: 0 <= i < j < |d.captured| ==> d.captured[i] != d.captured[j])
    && (forall i :: 0 <= i < d.awaited && i < |d.captured| ==> s.boards[d.captured[i]].phase.Done?)
  }

  ghost predicate Shutdowns(s: State) {
    forall h :: h in s.shut ==> ShutdownOk(s, h)
  }

  ghost predicate RegistryInv(s: State) {
    Linked(s) && Counted(s) && Anchored(s) && QuitOnce(s) && SoleCloser(s) && Shutdowns(s)
  }

  // ---- Steps that leave the protocol alone ----

  ghost predicate SameSkeleton(s: State, t: State) {
    && s.reg == t.reg && s.shut == t.shut
    && |s.sessions| == |t.sessions| && |s.boards| == |t.boards|
    && (forall c :: 0 <= c < |s.sessions| ==>
          && s.sessions[c].hub == t.sessions[c].hub && s.sessions[c].id == t.sessions[c].id
          && s.sessions[c].board == t.sessions[c].board
          && Holding(s.sessions[c].pc) == Holding(t.sessions[c].pc)
          && (t.sessions[c].pc.ClosingQuit? ==> s.sessions[c].pc.ClosingQuit?))
    && (forall r :: 0 <= r < |s.boards| ==>
          && s.boards[r].hub == t.boards[r].hub && s.boards[r].id == t.boards[r].id
          && s.boards[r].quitRequests == t.boards[r].quitRequests && s.boards[r].lastLeft == t.boards[r].lastLeft
          && (AfterQuit(t.boards[r].phase) ==> s.boards[r].quitRequests >= 1)
          && (s.boards[r].phase.Done? ==> t.boards[r].phase.Done?))
  }

  lemma SkeletonCounts(s: State, t: State)
    requires SameSkeleton(s, t)
    ensures forall r :: Count(s.sessions, HoldersOf(r)) == Count(t.sessions, HoldersOf(r))
  {
    forall r
      ensures Count(s.sessions, HoldersOf(r)) == Count(t.sessions, HoldersOf(r))
    {
      CountPointwise(s.sessions, t.sessions, HoldersOf(r));
    }
  }

  lemma SkeletonKeepsRegistered(s: State, t: State)
    requires RegistryInv(s) && SameSkeleton(s, t)
    ensures Linked(t) && Counted(t) && Anchored(t)
  {
    SkeletonCounts(s, t);
  }

  lemma SkeletonKeepsQuits(s: State, t: State)
    requires RegistryInv(s) && SameSkeleton(s, t)
    ensures QuitOnce(t) && SoleCloser(t)
  {
    SkeletonCounts(s, t);
    forall r | 0 <= r < |s.boards|
      ensures ToldByShutdown(s, r) == ToldByShutdown(t, r)
    {
    }
  }

  lemma SkeletonKeepsShutdowns(s: State, t: State)
    requires RegistryInv(s) && SameSkeleton(s, t)
    ensures Shutdowns(t)
  {
    forall h | h in t.shut
      ensures ShutdownOk(t, h)
    {
      assert ShutdownOk(s, h);
    }
  }

  lemma SkeletonKeeps(s: State, t: State)
    requires RegistryInv(s) && SameSkeleton(s, t)
    ensures RegistryInv(t)
  {
    SkeletonKeepsRegistered(s, t);
    SkeletonKeepsQuits(s, t);
    SkeletonKeepsShutdowns(s, t);
  }

  /** One session changed, without touching its identity or its hold; at most its
      board's client set changed with it. */
  ghost predicate SessionShape(s: State, t: State, c: Sid)
    requires c < |s.sessions| && s.sessions[c].board < |s.boards|
  {
    var r := s.sessions[c].board;
    && t.reg == s.reg && t.shut == s.shut
    && |t.sessions| == |s.sessions| && t.sessions == s.sessions[c := t.sessions[c]]
    && t.sessions[c].hub == s.sessions[c].hub && t.sessions[c].id == s.sessions[c].id
    && t.sessions[c].board == r
    && Holding(t.sessions[c].pc) == Holding(s.sessions[c].pc) && !t.sessions[c].pc.ClosingQuit?
    && |t.boards| == |s.boards| && t.boards == s.boards[r := s.boards[r].(clients := t.boards[r].clients)]
  }

  predicate PlainStep(step: SessionStep) {
    !step.ReleaseEntry? && !step.RequestQuit?
  }

  lemma PlainStepShape(s: State, c: Sid, step: SessionStep)
    requires CanSession(s, c, step) && PlainStep(step)
    ensures SessionShape(s, DoSession(s, c, step), c)
  {
  }

  lemma ShapeIsSkeleton(s: State, t: State, c: Sid)
    requires c < |s.sessions| && s.sessions[c].board < |s.boards| && SessionShape(s, t, c) && QuitOnce(s)
    ensures SameSkeleton(s, t)
  {
  }

  lemma SessionStepsKeepRegistry(s: State, c: Sid, step: SessionStep)
    requires RegistryInv(s) && CanSession(s, c, step) && PlainStep(step)
    ensures RegistryInv(DoSession(s, c, step))
  {
    PlainStepShape(s, c, step);
    ShapeIsSkeleton(s, DoSession(s, c, step), c);
    SkeletonKeeps(s, DoSession(s, c, step));
  }

  /** One board advanced; the sessions it drained or kicked kept identity and place. */
  ghost predicate BoardShape(s: State, t: State, r: Ref)
    requires r < |s.boards|
  {
    && t.reg == s.reg && t.shut == s.shut
    && |t.sessions| == |s.sessions|
    && (forall c :: 0 <= c < |s.sessions| ==>
          && t.sessions[c].hub == s.sessions[c].hub && t.sessions[c].id == s.sessions[c].id
          && t.sessions[c].board == s.sessions[c].board && t.sessions[c].pc == s.sessions[c].pc)
    && |t.boards| == |s.boards| && (forall q :: 0 <= q < |s.boards| && q != r ==> t.boards[q] == s.boards[q])
    && t.boards[r].hub == s.boards[r].hub && t.boards[r].id == s.boards[r].id
    && t.boards[r].quitRequests == s.boards[r].quitRequests && t.boards[r].lastLeft == s.boards[r].lastLeft
    && (AfterQuit(t.boards[r].phase) ==> AfterQuit(s.boards[r].phase) || s.boards[r].quitRequests > 0)
    && (s.boards[r].phase.Done? ==> t.boards[r].phase.Done?)
  }

  lemma BoardStepShape(s: State, r: Ref, step: BoardStep)
    requires CanBoard(s, r, step)
    ensures BoardShape(s, DoBoard(s, r, step), r)
  {
  }

  lemma BoardShapeIsSkeleton(s: State, t: State, r: Ref)
    requires r < |s.boards| && BoardShape(s, t, r) && QuitOnce(s)
    ensures SameSkeleton(s, t)
  {
  }

  lemma BoardStepsKeepRegistry(s: State, r: Ref, step: BoardStep)
    requires RegistryInv(s) && CanBoard(s, r, step)
    ensures RegistryInv(DoBoard(s, r, step))
  {
    BoardStepShape(s, r, step);
    BoardShapeIsSkeleton(s, DoBoard(s, r, step), r);
    SkeletonKeeps(s, DoBoard(s, r, step));
  }

  // ---- Release ----

  lemma ReleaseCounts(s: State, c: Sid, pc: Pc)
    requires c < |s.sessions| && s.sessions[c].pc.Releasing? && !Holding(pc)
    ensures forall r :: Count(s.sessions[c := s.sessions[c].(pc := pc)], HoldersOf(r))
                        == Count(s.sessions, HoldersOf(r)) - (if r == s.sessions[c].board then 1 else 0)
  {
    forall r
      ensures Count(s.sessions[c := s.sessions[c].(pc := pc)], HoldersOf(r))
              == Count(s.sessions, HoldersOf(r)) - (if r == s.sessions[c].board then 1 else 0)
    {
      CountUpdate(s.sessions, c, s.sessions[c].(pc := pc), HoldersOf(r));
    }
  }

  /** Shutdowns survive any change that leaves the boards they captured alone. */
  ghost predicate CapturedKept(s: State, t: State) {
    && t.shut == s.shut && |s.boards| <= |t.boards|
    && (forall r :: 0 <= r < |s.boards| ==>
          && t.boards[r].hub == s.boards[r].hub
          && (s.boards[r].phase.Done? ==> t.boards[r].phase.Done?)
          && (s.boards[r].hub in s.shut && !s.boards[r].lastLeft ==>
                !t.boards[r].lastLeft && t.boards[r].quitRequests == s.boards[r].quitRequests))
  }

  lemma CapturedKeptKeepsShutdowns(s: State, t: State)
    requires Shutdowns(s) && CapturedKept(s, t)
    ensures Shutdowns(t)
    ensures forall r :: 0 <= r < |s.boards| ==> ToldByShutdown(s, r) == ToldByShutdown(t, r)
  {
    forall h | h in t.shut
      ensures ShutdownOk(t, h)
    {
      assert ShutdownOk(s, h);
    }
  }

  lemma ReleaseNotLastQuits(s: State, c: Sid)
    requires QuitOnce(s) && SoleCloser(s) && Shutdowns(s) && CanSession(s, c, ReleaseEntry)
    requires !ReleaseOutcome(s.reg, (s.sessions[c].hub, s.sessions[c].id), s.sessions[c].board).LastLeft?
    ensures QuitOnce(DoSession(s, c, ReleaseEntry)) && SoleCloser(DoSession(s, c, ReleaseEntry))
    ensures Shutdowns(DoSession(s, c, ReleaseEntry))
  {
    var t := DoSession(s, c, ReleaseEntry);
    ReleaseCounts(s, c, t.sessions[c].pc);
    CapturedKeptKeepsShutdowns(s, t);
  }

  lemma ReleaseUnknown(s: State, c: Sid)
    requires Linked(s) && Counted(s) && Anchored(s) && CanSession(s, c, ReleaseEntry)
    requires ReleaseOutcome(s.reg, (s.sessions[c].hub, s.sessions[c].id), s.sessions[c].board).Unknown?
    ensures Linked(DoSession(s, c, ReleaseEntry)) && Counted(DoSession(s, c, ReleaseEntry))
    ensures Anchored(DoSession(s, c, ReleaseEntry))
  {
    ReleaseCounts(s, c, Finishing);
    ReleaseSpares(s, c, Finishing);
  }

  lemma ReleaseRemaining(s: State, c: Sid)
    requires Linked(s) && Counted(s) && CanSession(s, c, ReleaseEntry)
    requires ReleaseOutcome(s.reg, (s.sessions[c].hub, s.sessions[c].id), s.sessions[c].board).Remaining?
    ensures Linked(DoSession(s, c, ReleaseEntry)) && Counted(DoSession(s, c, ReleaseEntry))
  {
    ReleaseCounts(s, c, Unregistering);
    ReleaseSpares(s, c, Unregistering);
  }

  lemma ReleaseRemainingAnchored(s: State, c: Sid)
    requires Anchored(s) && CanSession(s, c, ReleaseEntry)
    requires ReleaseOutcome(s.reg, (s.sessions[c].hub, s.sessions[c].id), s.sessions[c].board).Remaining?
    ensures Anchored(DoSession(s, c, ReleaseEntry))
  {
  }

  /** A registered board other than the released one keeps its count. */
  lemma ReleaseSpares(s: State, c: Sid, pc: Pc)
    requires Linked(s) && Counted(s)
    requires c < |s.sessions| && s.sessions[c].pc.Releasing? && !Holding(pc)
    ensures forall k :: k in s.reg && k != (s.sessions[c].hub, s.sessions[c].id) ==>
              s.reg[k].board != s.sessions[c].board
  {
  }

  lemma ReleaseLast(s: State, c: Sid)
    requires RegistryInv(s) && CanSession(s, c, ReleaseEntry)
    requires ReleaseOutcome(s.reg, (s.sessions[c].hub, s.sessions[c].id), s.sessions[c].board).LastLeft?
    ensures RegistryInv(DoSession(s, c, ReleaseEntry))
  {
    ReleaseLastCounted(s, c);
    ReleaseLastAnchored(s, c);
    ReleaseLastQuits(s, c);
    ReleaseLastCloser(s, c);
  }

  lemma ReleaseLastCounted(s: State, c: Sid)
    requires Linked(s) && Counted(s) && CanSession(s, c, ReleaseEntry)
    requires ReleaseOutcome(s.reg, (s.sessions[c].hub, s.sessions[c].id), s.sessions[c].board).LastLeft?
    ensures Linked(DoSession(s, c, ReleaseEntry)) && Counted(DoSession(s, c, ReleaseEntry))
  {
    ReleaseCounts(s, c, ClosingQuit);
    ReleaseSpares(s, c, ClosingQuit);
  }

  lemma ReleaseLastQuits(s: State, c: Sid)
    requires Counted(s) && QuitOnce(s) && Shutdowns(s) && CanSession(s, c, ReleaseEntry)
    requires ReleaseOutcome(s.reg, (s.sessions[c].hub, s.sessions[c].id), s.sessions[c].board).LastLeft?
    ensures QuitOnce(DoSession(s, c, ReleaseEntry)) && Shutdowns(DoSession(s, c, ReleaseEntry))
  {
    ReleaseCounts(s, c, ClosingQuit);
    CapturedKeptKeepsShutdowns(s, DoSession(s, c, ReleaseEntry));
  }

  lemma ReleaseLastCloser(s: State, c: Sid)
    requires Counted(s) && SoleCloser(s) && CanSession(s, c, ReleaseEntry)
    requires ReleaseOutcome(s.reg, (s.sessions[c].hub, s.sessions[c].id), s.sessions[c].board).LastLeft?
    ensures SoleCloser(DoSession(s, c, ReleaseEntry))
  {
  }

  lemma ReleaseLastAnchored(s: State, c: Sid)
    requires RegistryInv(s) && CanSession(s, c, ReleaseEntry)
    requires ReleaseOutcome(s.reg, (s.sessions[c].hub, s.sessions[c].id), s.sessions[c].board).LastLeft?
    ensures Anchored(DoSession(s, c, ReleaseEntry))
  {
    var t := DoSession(s, c, ReleaseEntry);
    var r := s.sessions[c].board;
    ReleaseCounts(s, c, ClosingQuit);
    forall d | 0 <= d < |t.sessions| && Holding(t.sessions[d].pc)
      ensures t.sessions[d].board != r
    {
      if t.sessions[d].board == r {
        CountCovers(t.sessions, d, HoldersOf(r));
      }
    }
  }

  lemma ReleaseKeepsRegistry(s: State, c: Sid)
    requires RegistryInv(s) && CanSession(s, c, ReleaseEntry)
    ensures RegistryInv(DoSession(s, c, ReleaseEntry))
  {
    match ReleaseOutcome(s.reg, (s.sessions[c].hub, s.sessions[c].id), s.sessions[c].board)
    case Unknown =>
      ReleaseUnknown(s, c);
      ReleaseNotLastQuits(s, c);
    case Remaining =>
      ReleaseRemaining(s, c);
      ReleaseRemainingAnchored(s, c);
      ReleaseNotLastQuits(s, c);
    case LastLeft => ReleaseLast(s, c);
  }

  lemma RequestQuitKeepsRegistry(s: State, c: Sid)
    requires RegistryInv(s) && CanSession(s, c, RequestQuit)
    ensures RegistryInv(DoSession(s, c, RequestQuit))
  {
    RequestQuitCounted(s, c);
    RequestQuitQuits(s, c);
    RequestQuitSoleCloser(s, c);
  }

  lemma RequestQuitCounted(s: State, c: Sid)
    requires Linked(s) && Counted(s) && Anchored(s) && SoleCloser(s) && CanSession(s, c, RequestQuit)
    ensures Linked(DoSession(s, c, RequestQuit)) && Counted(DoSession(s, c, RequestQuit))
    ensures Anchored(DoSession(s, c, RequestQuit))
  {
    RequestQuitCounts(s, c);
  }

  lemma RequestQuitSoleCloser(s: State, c: Sid)
    requires SoleCloser(s) && CanSession(s, c, RequestQuit)
    ensures SoleCloser(DoSession(s, c, RequestQuit))
  {
  }

  lemma RequestQuitCounts(s: State, c: Sid)
    requires CanSession(s, c, RequestQuit)
    ensures forall r :: Count(s.sessions, HoldersOf(r)) == Count(DoSession(s, c, RequestQuit).sessions, HoldersOf(r))
  {
    var t := DoSession(s, c, RequestQuit);
    forall r
      ensures Count(s.sessions, HoldersOf(r)) == Count(t.sessions, HoldersOf(r))
    {
      CountPointwise(s.sessions, t.sessions, HoldersOf(r));
    }
  }

  lemma RequestQuitQuits(s: State, c: Sid)
    requires RegistryInv(s) && CanSession(s, c, RequestQuit)
    ensures QuitOnce(DoSession(s, c, RequestQuit)) && Shutdowns(DoSession(s, c, RequestQuit))
  {
    var t := DoSession(s, c, RequestQuit);
    var b := s.sessions[c].board;
    RequestQuitCounts(s, c);
    CapturedKeptKeepsShutdowns(s, t);
    if s.boards[b].hub in s.shut {
      assert ShutdownOk(s, s.boards[b].hub);
    }
    assert !ToldByShutdown(s, b);
  }

  // ---- Admission and shutdown ----

  lemma AdmitKeepsRegistry(s: State, h: HubId, id: BoardId)
    requires RegistryInv(s) && CanHub(s, h, AdmitSession(id))
    ensures RegistryInv(DoHub(s, h, AdmitSession(id)))
  {
    var t := AdmitOne(s, h, id);
    AdmitLinked(s, h, id);
    AdmitCounted(s, h, id);
    CapturedKeptKeepsShutdowns(s, t);
    AdmitQuits(s, h, id);
    AdmitCloser(s, h, id);
  }

  lemma AdmitLinked(s: State, h: HubId, id: BoardId)
    requires Linked(s) && Counted(s) && Anchored(s) && CanHub(s, h, AdmitSession(id))
    ensures Linked(AdmitOne(s, h, id)) && Anchored(AdmitOne(s, h, id))
  {
  }

  lemma AdmitCounted(s: State, h: HubId, id: BoardId)
    requires Linked(s) && Counted(s) && CanHub(s, h, AdmitSession(id))
    ensures Counted(AdmitOne(s, h, id))
  {
    var t := AdmitOne(s, h, id);
    AdmitCounts(s, h, id);
    forall k | k in s.reg && k != (h, id)
      ensures s.reg[k].board != t.sessions[|s.sessions|].board
    {
    }
  }

  lemma AdmitQuits(s: State, h: HubId, id: BoardId)
    requires Linked(s) && Counted(s) && QuitOnce(s) && Shutdowns(s) && CanHub(s, h, AdmitSession(id))
    ensures QuitOnce(AdmitOne(s, h, id))
  {
    var t := AdmitOne(s, h, id);
    AdmitCounts(s, h, id);
    AdmitKeepsOldBoards(s, h, id);
    CapturedKeptKeepsShutdowns(s, t);
    forall r | 0 <= r < |t.boards| && t.boards[r].lastLeft
      ensures Count(t.sessions, HoldersOf(r)) == 0
    {
      assert t.boards[r] == s.boards[r];
      assert Count(s.sessions, HoldersOf(r)) == 0;
    }
  }

  lemma AdmitCloser(s: State, h: HubId, id: BoardId)
    requires Counted(s) && SoleCloser(s) && CanHub(s, h, AdmitSession(id))
    ensures SoleCloser(AdmitOne(s, h, id))
  {
    AdmitKeepsOldBoards(s, h, id);
  }

  /** Admission changes no existing board and joins only one that nobody has left. */
  lemma AdmitKeepsOldBoards(s: State, h: HubId, id: BoardId)
    requires Counted(s) && CanHub(s, h, AdmitSession(id))
    ensures var t := AdmitOne(s, h, id);
      && |s.boards| <= |t.boards| <= |s.boards| + 1
      && (forall r :: 0 <= r < |s.boards| ==> t.boards[r] == s.boards[r])
      && (forall r :: |s.boards| <= r < |t.boards| ==> t.boards[r] == Actor(h, id, Loading, 0, {}, false))
      && t.sessions[|s.sessions|].board < |t.boards| && !t.boards[t.sessions[|s.sessions|].board].lastLeft
  {
  }

  lemma AdmitCounts(s: State, h: HubId, id: BoardId)
    requires Linked(s) && CanHub(s, h, AdmitSession(id))
    ensures var t := AdmitOne(s, h, id);
      && (forall r :: Count(t.sessions, HoldersOf(r))
                      == Count(s.sessions, HoldersOf(r)) + (if r == t.sessions[|s.sessions|].board then 1 else 0))
      && Count(s.sessions, HoldersOf(|s.boards|)) == 0
  {
    var t := AdmitOne(s, h, id);
    forall r
      ensures Count(t.sessions, HoldersOf(r))
              == Count(s.sessions, HoldersOf(r)) + (if r == t.sessions[|s.sessions|].board then 1 else 0)
    {
      CountAppend(s.sessions, t.sessions[|s.sessions|], HoldersOf(r));
    }
    CountNone(s.sessions, HoldersOf(|s.boards|));
  }

  lemma BeginShutdownKeepsRegistry(s: State, h: HubId, captured: seq<Ref>)
    requires RegistryInv(s) && CanHub(s, h, BeginShutdown(captured))
    ensures RegistryInv(DoHub(s, h, BeginShutdown(captured)))
  {
    BeginShutdowns(s, h, captured);
    BeginShutdownQuits(s, h, captured);
  }

  /** The captured boards are registered ones, so nobody has asked them to stop. */
  lemma BeginShutdowns(s: State, h: HubId, captured: seq<Ref>)
    requires Counted(s) && Shutdowns(s) && CanHub(s, h, BeginShutdown(captured))
    ensures Shutdowns(DoHub(s, h, BeginShutdown(captured)))
  {
    var t := DoHub(s, h, BeginShutdown(captured));
    forall i | 0 <= i < |captured|
      ensures exists k :: k in s.reg && k.0 == h && s.reg[k].board == captured[i]
    {
      assert captured[i] in captured;
      var k :| k in OwnEntries(s.reg, h) && OwnEntries(s.reg, h)[k].board == captured[i];
    }
    forall h' | h' in t.shut
      ensures ShutdownOk(t, h')
    {
      if h' != h {
        assert ShutdownOk(s, h');
      }
    }
  }

  lemma BeginShutdownQuits(s: State, h: HubId, captured: seq<Ref>)
    requires QuitOnce(s) && CanHub(s, h, BeginShutdown(captured))
    ensures QuitOnce(DoHub(s, h, BeginShutdown(captured)))
  {
    var t := DoHub(s, h, BeginShutdown(captured));
    forall r | 0 <= r < |s.boards|
      ensures ToldByShutdown(s, r) <==> ToldByShutdown(t, r)
    {
      var g := s.boards[r].hub;
      assert g != h && g in s.shut ==> t.shut[g] == s.shut[g];
    }
  }

  lemma QuitNextKeepsRegistry(s: State, h: HubId)
    requires RegistryInv(s) && CanHub(s, h, QuitNext)
    ensures RegistryInv(DoHub(s, h, QuitNext))
  {
    var t := DoHub(s, h, QuitNext);
    assert ShutdownOk(s, h);
    var b := s.shut[h].captured[s.shut[h].told];
    QuitNextShutdowns(s, h);
    QuitNextQuits(s, h);
    assert forall k :: k in s.reg ==> s.reg[k].board != b;
  }

  lemma QuitNextShutdowns(s: State, h: HubId)
    requires Shutdowns(s) && CanHub(s, h, QuitNext)
    ensures Shutdowns(DoHub(s, h, QuitNext))
  {
    var t := DoHub(s, h, QuitNext);
    assert ShutdownOk(s, h);
    assert ShutdownOk(t, h);
    forall h' | h' in t.shut && h' != h
      ensures ShutdownOk(t, h')
    {
      assert ShutdownOk(s, h');
    }
  }

  lemma TellOneMore(d: Shutdown, r: Ref)
    requires d.told < |d.captured|
    ensures ToldIn(d.(told := d.told + 1), r) <==> ToldIn(d, r) || r == d.captured[d.told]
  {
    if r == d.captured[d.told] {
      assert d.(told := d.told + 1).captured[d.told] == r;
    }
  }

  lemma QuitNextQuits(s: State, h: HubId)
    requires QuitOnce(s) && Shutdowns(s) && CanHub(s, h, QuitNext)
    ensures QuitOnce(DoHub(s, h, QuitNext))
  {
    var t := DoHub(s, h, QuitNext);
    assert ShutdownOk(s, h);
    var b := s.shut[h].captured[s.shut[h].told];
    forall r | 0 <= r < |s.boards|
      ensures ToldByShutdown(t, r) <==> ToldByShutdown(s, r) || r == b
    {
      TellOneMore(s.shut[h], r);
    }
  }

  /** Only the progress of one shutdown changed, not what it captured or told. */
  ghost predicate VerdictShape(s: State, t: State, h: HubId) {
    && h in s.shut && t.shut.Keys == s.shut.Keys
    && t.sessions == s.sessions && t.boards == s.boards && t.reg == s.reg
    && (forall g :: g in s.shut ==> t.shut[g].captured == s.shut[g].captured && t.shut[g].told == s.shut[g].told)
    && (forall g :: g in s.shut && g != h ==> t.shut[g] == s.shut[g])
  }

  lemma VerdictShapeKeeps(s: State, t: State, h: HubId)
    requires RegistryInv(s) && VerdictShape(s, t, h) && ShutdownOk(t, h)
    ensures RegistryInv(t)
  {
    forall g | g in t.shut
      ensures ShutdownOk(t, g)
    {
      assert ShutdownOk(s, g);
    }
    assert forall r :: 0 <= r < |s.boards| ==> ToldByShutdown(s, r) == ToldByShutdown(t, r);
  }

  lemma VerdictStepShape(s: State, h: HubId, step: HubStep)
    requires CanHub(s, h, step) && (step.AwaitBoard? || step.AwaitSessions? || step.Timeout?)
    ensures VerdictShape(s, DoHub(s, h, step), h)
  {
  }

  lemma AwaitBoardOk(s: State, h: HubId)
    requires CanHub(s, h, AwaitBoard) && ShutdownOk(s, h)
    ensures ShutdownOk(DoHub(s, h, AwaitBoard), h)
  {
  }

  lemma VerdictOk(s: State, h: HubId, step: HubStep)
    requires CanHub(s, h, step) && (step.AwaitSessions? || step.Timeout?) && ShutdownOk(s, h)
    ensures ShutdownOk(DoHub(s, h, step), h)
  {
  }

  lemma VerdictKeepsRegistry(s: State, h: HubId, step: HubStep)
    requires RegistryInv(s) && CanHub(s, h, step)
    requires step.AwaitBoard? || step.AwaitSessions? || step.Timeout?
    ensures RegistryInv(DoHub(s, h, step))
  {
    VerdictStepShape(s, h, step);
    if step.AwaitBoard? {
      AwaitBoardOk(s, h);
    } else {
      VerdictOk(s, h, step);
    }
    VerdictShapeKeeps(s, DoHub(s, h, step), h);
  }

  lemma HubStepsKeepRegistry(s: State, h: HubId, step: HubStep)
    requires RegistryInv(s) && CanHub(s, h, step)
    ensures RegistryInv(DoHub(s, h, step))
  {
    match step
    case AdmitSession(id) => AdmitKeepsRegistry(s, h, id);
    case BeginShutdown(captured) => BeginShutdownKeepsRegistry(s, h, captured);
    case QuitNext => QuitNextKeepsRegistry(s, h);
    case AwaitBoard => VerdictKeepsRegistry(s, h, step);
    case AwaitSessions => VerdictKeepsRegistry(s, h, step);
    case Timeout => VerdictKeepsRegistry(s, h, step);
  }

  lemma RegistryKept(s: State, a: Step)
    requires RegistryInv(s) && Can(s, a)
    ensures RegistryInv(Do(s, a))
  {
    match a
    case BySession(c, step) =>
      if step.ReleaseEntry? {
        ReleaseKeepsRegistry(s, c);
      } else if step.RequestQuit? {
        RequestQuitKeepsRegistry(s, c);
      } else {
        SessionStepsKeepRegistry(s, c, step);
      }
    case ByBoard(r, step) => BoardStepsKeepRegistry(s, r, step);
    case ByHub(h, step) => HubStepsKeepRegistry(s, h, step);
    case ReadPeriodic(_, _) => SkeletonKeeps(s, Do(s, a));
    case WritePeriodic(_) => SkeletonKeeps(s, Do(s, a));
    case Restart => SkeletonKeeps(s, Do(s, a));
  }
}
