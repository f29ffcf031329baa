/** The board goroutine's ownership discipline: fan-out set, present flag, send channel
    and connection of every client stay in step, so no channel is closed twice. */
module Channels {
  import opened Protocol
  import opened System
  import opened Registry
  import opened Lifecycle

  predicate PastReading(pc: Pc) {
    || pc.Stopping? || pc.Leaving? || pc.Releasing? || pc.ClosingQuit? || pc.Unregistering? || pc.Finishing?
    || pc.Returned?
  }

  predicate PresentOn(s: State, c: Sid, r: Ref) {
    c < |s.sessions| && s.sessions[c].board == r && s.sessions[c].present
  }

  /** The fan-out sets hold exactly the present sessions. */
  ghost predicate FanOutSets(s: State) {
    forall r, c: Sid :: 0 <= r < |s.boards| ==>
      (c in s.boards[r].clients <==> PresentOn(s, c, r))
  }

  /** Before registering: nothing to close. While present: the send channel is open.
      After: closed exactly once, and the connection is closed as well. */
  predicate SessionOk(x: Session, phase: Phase) {
    && (x.pc.Admitted? ==> !x.present && x.sendCloses == 0 && !x.connClosed)
    && (x.present ==> x.sendCloses == 0)
    && (!x.pc.Admitted? && !x.present ==> x.sendCloses == 1 && x.connClosed)
    && (PastReading(x.pc) ==> x.connClosed)
    && (!x.pc.Admitted? ==> !phase.Loading? && !phase.Hydrating?)
    && (!phase.Running? ==> !x.present)
  }

  ghost predicate SessionsOk(s: State) {
    forall c :: 0 <= c < |s.sessions| ==>
      s.sessions[c].board < |s.boards| && SessionOk(s.sessions[c], s.boards[s.sessions[c].board].phase)
  }

  ghost predicate ChannelInv(s: State) {
    FanOutSets(s) && SessionsOk(s)
  }

  /** A session step changes one session and at most its membership. */
  ghost predicate OneSession(s: State, t: State, c: Sid)
    requires c < |s.sessions| && s.sessions[c].board < |s.boards|
  {
    var r := s.sessions[c].board;
    && |t.sessions| == |s.sessions| && |t.boards| == |s.boards|
    && (forall d :: 0 <= d < |s.sessions| && d != c ==> t.sessions[d] == s.sessions[d])
    && t.sessions[c].board == r
    && (forall q :: 0 <= q < |s.boards| ==> t.boards[q].phase == s.boards[q].phase)
    && (forall q :: 0 <= q < |s.boards| && q != r ==> t.boards[q].clients == s.boards[q].clients)
    && t.boards[r].clients == (if t.sessions[c].present then s.boards[r].clients + {c} else s.boards[r].clients - {c})
    && SessionOk(t.sessions[c], s.boards[r].phase)
  }

  lemma OneSessionKeeps(s: State, t: State, c: Sid)
    requires ChannelInv(s) && c < |s.sessions| && OneSession(s, t, c)
    ensures ChannelInv(t)
  {
  }

  ghost predicate SessionChannels(s: State, c: Sid) {
    && c < |s.sessions| && s.sessions[c].board < |s.boards|
    && SessionOk(s.sessions[c], s.boards[s.sessions[c].board].phase)
    && (c in s.boards[s.sessions[c].board].clients <==> s.sessions[c].present)
  }

  lemma SessionStaysOk(s: State, c: Sid, step: SessionStep)
    requires CanSession(s, c, step) && SessionChannels(s, c)
    ensures SessionOk(SessionAfter(s, s.sessions[c], step), s.boards[s.sessions[c].board].phase)
  {
  }

  lemma OneSessionStep(s: State, c: Sid, step: SessionStep)
    requires CanSession(s, c, step) && SessionChannels(s, c)
    ensures OneSession(s, DoSession(s, c, step), c)
  {
    SessionStaysOk(s, c, step);
  }

  lemma SessionStepsKeepChannels(s: State, c: Sid, step: SessionStep)
    requires ChannelInv(s) && CanSession(s, c, step)
    ensures ChannelInv(DoSession(s, c, step))
  {
    assert SessionChannels(s, c);
    OneSessionStep(s, c, step);
    OneSessionKeeps(s, DoSession(s, c, step), c);
  }

  lemma KickKeepsChannels(s: State, r: Ref, c: Sid)
    requires ChannelInv(s) && CanBoard(s, r, Kick(c))
    ensures ChannelInv(DoBoard(s, r, Kick(c)))
  {
    assert SessionChannels(s, c);
    assert OneSession(s, DoBoard(s, r, Kick(c)), c);
    OneSessionKeeps(s, DoBoard(s, r, Kick(c)), c);
  }

  lemma DrainKeepsChannels(s: State, r: Ref)
    requires ChannelInv(s) && CanBoard(s, r, TakeQuit)
    ensures ChannelInv(DoBoard(s, r, TakeQuit))
  {
    var t := DoBoard(s, r, TakeQuit);
    forall c | 0 <= c < |s.sessions|
      ensures t.sessions[c].board < |t.boards| && SessionOk(t.sessions[c], t.boards[t.sessions[c].board].phase)
      ensures t.sessions[c].board == s.sessions[c].board
      ensures t.sessions[c].present == (s.sessions[c].present && s.sessions[c].board != r)
    {
      assert c in s.boards[r].clients <==> PresentOn(s, c, r);
      assert t.sessions[c] == if c in s.boards[r].clients then Detached(s.sessions[c], true) else s.sessions[c];
    }
  }

  /** Phases after the drain and before the loop: the client set is empty already. */
  ghost predicate PhaseMove(s: State, t: State, r: Ref)
    requires r < |s.boards|
  {
    && t.sessions == s.sessions && |t.boards| == |s.boards|
    && (forall q :: 0 <= q < |s.boards| && q != r ==> t.boards[q] == s.boards[q])
    && t.boards[r].clients == s.boards[r].clients
    && !s.boards[r].phase.Running?
    && (t.boards[r].phase.Running? || t.boards[r].phase.Loading? || t.boards[r].phase.Hydrating? ==>
          s.boards[r].phase.Loading? || s.boards[r].phase.Hydrating?)
  }

  lemma PhaseMoveKeeps(s: State, t: State, r: Ref)
    requires ChannelInv(s) && r < |s.boards| && PhaseMove(s, t, r)
    ensures ChannelInv(t)
  {
  }

  lemma PhaseMoves(s: State, r: Ref, step: BoardStep)
    requires CanBoard(s, r, step) && !step.TakeQuit? && !step.Kick?
    ensures PhaseMove(s, DoBoard(s, r, step), r)
  {
  }

  lemma BoardStepsKeepChannels(s: State, r: Ref, step: BoardStep)
    requires ChannelInv(s) && CanBoard(s, r, step)
    ensures ChannelInv(DoBoard(s, r, step))
  {
    match step
    case Kick(c) => KickKeepsChannels(s, r, c);
    case TakeQuit => DrainKeepsChannels(s, r);
    case _ =>
      PhaseMoves(s, r, step);
      PhaseMoveKeeps(s, DoBoard(s, r, step), r);
  }

  lemma AdmitKeepsChannels(s: State, h: HubId, id: BoardId)
    requires ChannelInv(s) && Linked(s) && Counted(s) && CanHub(s, h, AdmitSession(id))
    ensures ChannelInv(AdmitOne(s, h, id))
  {
    var t := AdmitOne(s, h, id);
    AdmitKeepsOldBoards(s, h, id);
    var n := |s.sessions|;
    forall c | 0 <= c < n
      ensures t.sessions[c] == s.sessions[c]
    {
    }
    forall r, c: Sid | 0 <= r < |t.boards|
      ensures c in t.boards[r].clients <==> PresentOn(t, c, r)
    {
      if r < |s.boards| {
        assert c in s.boards[r].clients <==> PresentOn(s, c, r);
      }
    }
  }

  lemma QuitNextKeepsChannels(s: State, h: HubId)
    requires ChannelInv(s) && CanHub(s, h, QuitNext)
    ensures ChannelInv(DoHub(s, h, QuitNext))
  {
    var t := DoHub(s, h, QuitNext);
    assert forall q :: 0 <= q < |s.boards| ==>
        t.boards[q].phase == s.boards[q].phase && t.boards[q].clients == s.boards[q].clients;
    assert forall q, c: Sid :: PresentOn(t, c, q) <==> PresentOn(s, c, q);
  }

  lemma HubStepsKeepChannels(s: State, h: HubId, step: HubStep)
    requires ChannelInv(s) && RegistryInv(s) && CanHub(s, h, step)
    ensures ChannelInv(DoHub(s, h, step))
  {
    if step.AdmitSession? {
      AdmitKeepsChannels(s, h, step.id);
    } else if step.QuitNext? {
      QuitNextKeepsChannels(s, h);
    }
  }

  lemma ChannelsKept(s: State, a: Step)
    requires ChannelInv(s) && RegistryInv(s) && Can(s, a)
    ensures ChannelInv(Do(s, a))
  {
    match a
    case BySession(c, step) => SessionStepsKeepChannels(s, c, step);
    case ByBoard(r, step) => BoardStepsKeepChannels(s, r, step);
    case ByHub(h, step) => HubStepsKeepChannels(s, h, step);
    case ReadPeriodic(_, _) =>
    case WritePeriodic(_) =>
    case Restart =>
  }
}
