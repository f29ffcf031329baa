/** What a connection fetches from the broker and hands to its board while it is being
    onboarded (internal/hub/client.go). */
module Handovers {
  import opened Protocol
  import opened Sequencer
  import opened MemoryBroker
  import opened System
  import opened Registry
  import opened Channels
  import opened Accounting
  import opened Durability

  // ---- The snapshot ----

  /** A snapshot of the board as it was at some point of the broker's present history. */
  ghost predicate IsPast(snap: Snapshot, log: seq<Op>) {
    snap.sn <= |log| && IsSnapshot(snap, Replay(log[..snap.sn]))
  }

  ghost predicate Held(s: State, c: Sid)
    requires c < |s.sessions|
  {
    s.sessions[c].pc.HoldingSnapshot? ==> IsPast(s.sessions[c].pc.snap, Hist(s, s.sessions[c].id))
  }

  ghost predicate HandoverInv(s: State) {
    forall c :: 0 <= c < |s.sessions| ==> Held(s, c)
  }

  lemma PastStays(snap: Snapshot, log: seq<Op>, later: seq<Op>)
    requires IsPast(snap, log) && log <= later
    ensures IsPast(snap, later)
  {
    assert later[..snap.sn] == log[..snap.sn];
  }

  /** What was just fetched is the present board. */
  lemma FetchedIsCurrent(s: State, c: Sid, snap: Snapshot)
    requires BrokerOk(s) && CanSession(s, c, FetchSnapshot(snap))
    ensures var x := DoSession(s, c, FetchSnapshot(snap)).sessions[c];
      x.pc.HoldingSnapshot? && IsSnapshot(x.pc.snap, Get(s.broker, x.id)) && x.id == s.sessions[c].id
  {
    ReplyIsSnapshot(s, s.sessions[c].id, snap);
  }

  lemma FetchedIsPast(s: State, c: Sid, snap: Snapshot)
    requires BrokerOk(s) && CanSession(s, c, FetchSnapshot(snap))
    ensures Held(DoSession(s, c, FetchSnapshot(snap)), c)
  {
    var x := DoSession(s, c, FetchSnapshot(snap)).sessions[c];
    var log := Hist(s, x.id);
    FetchedIsCurrent(s, c, snap);
    OtherStepSameData(s, c, FetchSnapshot(snap));
    SnapshotNumber(x.pc.snap, log);
    assert log[..|log|] == log;
  }

  /** Nobody else's snapshot changed, and histories only grew. */
  lemma HeldStays(s: State, t: State, c: Sid)
    requires c < |s.sessions| && c < |t.sessions| && Held(s, c)
    requires t.sessions[c].id == s.sessions[c].id
    requires t.sessions[c].pc.HoldingSnapshot? ==> t.sessions[c].pc == s.sessions[c].pc
    requires Hist(s, s.sessions[c].id) <= Hist(t, s.sessions[c].id)
    ensures Held(t, c)
  {
    if t.sessions[c].pc.HoldingSnapshot? {
      PastStays(s.sessions[c].pc.snap, Hist(s, s.sessions[c].id), Hist(t, s.sessions[c].id));
    }
  }

  lemma SessionStepsKeepHandovers(s: State, c: Sid, step: SessionStep)
    requires HandoverInv(s) && BrokerOk(s) && CanSession(s, c, step)
    ensures HandoverInv(DoSession(s, c, step))
  {
    var t := DoSession(s, c, step);
    forall d | 0 <= d < |t.sessions|
      ensures Held(t, d)
    {
      assert Held(s, d);
      SessionStepGrowsHist(s, c, step, s.sessions[d].id);
      if d == c && step.FetchSnapshot? {
        FetchedIsPast(s, c, step.snap);
      } else {
        HeldStays(s, t, d);
      }
    }
  }

  lemma BoardStepsKeepHandovers(s: State, r: Ref, step: BoardStep)
    requires HandoverInv(s) && BrokerOk(s) && PhasesOk(s) && CanBoard(s, r, step)
    ensures HandoverInv(DoBoard(s, r, step))
  {
    var t := DoBoard(s, r, step);
    forall d | 0 <= d < |t.sessions|
      ensures Held(t, d)
    {
      assert Held(s, d);
      BoardStepGrowsHist(s, r, step, s.sessions[d].id);
      HeldStays(s, t, d);
    }
  }

  lemma HubStepsKeepHandovers(s: State, h: HubId, step: HubStep)
    requires HandoverInv(s) && CanHub(s, h, step)
    ensures HandoverInv(DoHub(s, h, step))
  {
    var t := DoHub(s, h, step);
    HubStepSameData(s, h, step);
    forall d | 0 <= d < |t.sessions|
      ensures Held(t, d)
    {
      if d < |s.sessions| {
        assert Held(s, d);
      }
    }
  }

  lemma SavesKeepHandovers(s: State, a: Step)
    requires HandoverInv(s) && Can(s, a) && (a.ReadPeriodic? || a.WritePeriodic?)
    ensures HandoverInv(Do(s, a))
  {
    forall c | 0 <= c < |s.sessions|
      ensures Held(Do(s, a), c)
    {
      assert Held(s, c);
    }
  }

  lemma HandoversKept(s: State, a: Step)
    requires HandoverInv(s) && BrokerOk(s) && PhasesOk(s) && Can(s, a)
    ensures HandoverInv(Do(s, a))
  {
    match a
    case BySession(c, step) => SessionStepsKeepHandovers(s, c, step);
    case ByBoard(r, step) => BoardStepsKeepHandovers(s, r, step);
    case ByHub(h, step) => HubStepsKeepHandovers(s, h, step);
    case Restart =>
    case _ => SavesKeepHandovers(s, a);
  }

  // ---- The roster ----

  /** The roster a connection is shown lists exactly the sessions, of any hub, that have
      announced themselves on its board and not left it yet, itself among them. */
  lemma FetchedRosterIsExact(s: State, c: Sid)
    requires RosterExact(s) && CanSession(s, c, FetchRoster)
    ensures var x := DoSession(s, c, FetchRoster).sessions[c];
      && x.pc.HoldingRoster? && c in x.pc.seen
      && forall d: Sid :: d in x.pc.seen <==> OnRoster(s, d, s.sessions[c].id)
  {
    assert forall d: Sid :: d in Roster(s, s.sessions[c].id) <==> OnRoster(s, d, s.sessions[c].id);
  }

  // ---- Delivery to one client ----

  /** A personal message keeps a member, or kicks it for good; it does nothing to a client
      that is gone. */
  lemma DeliverKeepsOrKicks(s: State, c: Sid, room: bool)
    requires SessionChannels(s, c) && CanSession(s, c, Deliver(room))
    ensures var t := DoSession(s, c, Deliver(room));
      var x, y := s.sessions[c], t.sessions[c];
      && (y.present <==> x.present && room)
      && (y.present <==> c in t.boards[x.board].clients)
      && (x.present && !room ==> y.sendCloses == 1 && y.connClosed)
      && (!x.present || room ==> y.sendCloses == x.sendCloses && y.connClosed == x.connClosed)
  {
  }

  /** Every member can be kicked at any time, and nobody else; a kick removes it and closes
      its queue and its connection. */
  lemma KickIffMember(s: State, c: Sid)
    requires SessionChannels(s, c)
    ensures var r := s.sessions[c].board;
      && (CanBoard(s, r, Kick(c)) <==> s.sessions[c].present)
      && (s.sessions[c].present ==>
            var t := DoBoard(s, r, Kick(c));
            && c !in t.boards[r].clients && !t.sessions[c].present
            && t.sessions[c].sendCloses == 1 && t.sessions[c].connClosed)
  {
  }
}
