/** What every run of the whole system does for those who use it: nobody is forgotten by a
    shutdown, who left is gone, who joins is handed the board as it was, and nothing
    without a name is ever sequenced. */
module Conduct {
  import opened Protocol
  import opened MemoryBroker
  import opened System
  import opened Registry
  import opened Counting
  import opened Lifecycle
  import opened Channels
  import opened Accounting
  import opened Durability
  import opened Runs
  import opened Coverage
  import opened Departures
  import opened Handovers
  import opened Naming

  ghost predicate Proper(s: State) {
    CoverageInv(s) && DepartureInv(s) && HandoverInv(s) && NamingInv(s)
  }

  lemma StepKeepsProper(s: State, a: Step)
    requires Inv(s) && Proper(s) && Can(s, a)
    ensures Proper(Do(s, a))
  {
    CoverageKept(s, a);
    DeparturesKept(s, a);
    HandoversKept(s, a);
    NamesKept(s, a);
  }

  lemma {:induction false} RunKeepsProper(s: State, run: seq<Step>, t: State)
    requires Inv(s) && Proper(s) && Reaches(s, run, t)
    ensures Proper(t)
    decreases |run|
  {
    if run != [] {
      StepKeepsProper(s, run[0]);
      StepKeepsInv(s, run[0]);
      RunKeepsProper(Do(s, run[0]), run[1..], t);
    }
  }

  lemma InitialProper()
    ensures Proper(INITIAL)
  {
  }

  lemma ReachableProper(s: State)
    requires Reachable(s)
    ensures Inv(s) && Proper(s)
  {
    InitialInv();
    InitialProper();
    var run :| Reaches(INITIAL, run, s);
    RunKeepsInv(INITIAL, run, s);
    RunKeepsProper(INITIAL, run, s);
  }

  // ---- Shutdown ----

  /** Main result: when a shutdown has returned nil, every board its hub ever opened is done
      and has no client left, or was told to quit by its last leaver. */
  lemma ShutdownReachesEveryBoard(s: State, h: HubId, r: Ref)
    requires Reachable(s) && ReturnedNil(s, h) && r < |s.boards| && s.boards[r].hub == h
    ensures || (s.boards[r].phase.Done? && s.boards[r].clients == {})
            || (s.boards[r].lastLeft && s.boards[r].quitRequests == 1)
  {
    ReachableProper(s);
    assert ShutdownOk(s, h) && Tracked(s, r) && Told(s, r);
    ReturnedNilIsGone(s, h);
    if s.boards[r].lastLeft {
      LeaverHasTold(s, h, r);
    }
  }

  /** A board outlives the shutdown only if its last leaver had already told it to quit. */
  lemma LeaverHasTold(s: State, h: HubId, r: Ref)
    requires Linked(s) && QuitOnce(s) && r < |s.boards| && s.boards[r].hub == h && s.boards[r].lastLeft && Told(s, r)
    requires forall c :: 0 <= c < |s.sessions| && s.sessions[c].hub == h ==> s.sessions[c].pc.Returned?
    ensures s.boards[r].quitRequests == 1
  {
    forall c: Sid | c < |s.sessions| && s.sessions[c].board == r
      ensures !s.sessions[c].pc.ClosingQuit?
    {
      assert s.sessions[c].hub == h;
    }
  }

  lemma HubStepKeepsEnd(s: State, g: HubId, step: HubStep, h: HubId)
    requires CanHub(s, g, step) && h in s.shut && !s.shut[h].verdict.Pending?
    ensures h in DoHub(s, g, step).shut && DoHub(s, g, step).shut[h].verdict == s.shut[h].verdict
  {
  }

  lemma StepKeepsEnd(s: State, a: Step, h: HubId)
    requires Can(s, a) && h in s.shut && !s.shut[h].verdict.Pending?
    ensures h in Do(s, a).shut && Do(s, a).shut[h].verdict == s.shut[h].verdict
  {
    match a
    case ByHub(g, step) => HubStepKeepsEnd(s, g, step, h);
    case _ =>
  }

  /** How the first call of a shutdown ended is how it ended: nil or the context's error. */
  lemma {:induction false} VerdictIsFinal(s: State, run: seq<Step>, t: State, h: HubId)
    requires Reaches(s, run, t) && h in s.shut && !s.shut[h].verdict.Pending?
    ensures h in t.shut && t.shut[h].verdict == s.shut[h].verdict
    decreases |run|
  {
    if run != [] {
      StepKeepsEnd(s, run[0], h);
      VerdictIsFinal(Do(s, run[0]), run[1..], t, h);
    }
  }

  /** Once its context has expired, a shutdown never returns nil. */
  lemma TimeoutIsFinal(s: State, h: HubId, run: seq<Step>, t: State)
    requires CanHub(s, h, Timeout) && Reaches(DoHub(s, h, Timeout), run, t)
    ensures h in t.shut && t.shut[h].verdict.TimedOut? && !ReturnedNil(t, h)
  {
    VerdictIsFinal(DoHub(s, h, Timeout), run, t, h);
  }

  lemma TellNext(s: State, h: HubId)
    requires h in s.shut && ShutdownOk(s, h) && s.shut[h].told < |s.shut[h].captured|
    ensures CanHub(s, h, QuitNext)
    ensures var t := DoHub(s, h, QuitNext);
      h in t.shut && t.shut[h] == s.shut[h].(told := s.shut[h].told + 1)
  {
  }

  lemma ExpireNow(s: State, h: HubId)
    requires h in s.shut && s.shut[h].verdict.Pending? && s.shut[h].told == |s.shut[h].captured|
    ensures CanHub(s, h, Timeout)
    ensures var t := DoHub(s, h, Timeout); h in t.shut && t.shut[h].verdict.TimedOut?
  {
  }

  /** The shutdown tells the rest of its boards to quit and runs out of time. */
  lemma {:induction false} Expire(s: State, h: HubId) returns (run: seq<Step>, t: State)
    requires RegistryInv(s) && h in s.shut && s.shut[h].verdict.Pending?
    ensures Reaches(s, run, t) && h in t.shut && t.shut[h].verdict.TimedOut?
    decreases |s.shut[h].captured| - s.shut[h].told
  {
    assert ShutdownOk(s, h);
    if s.shut[h].told < |s.shut[h].captured| {
      TellNext(s, h);
      HubStepsKeepRegistry(s, h, QuitNext);
      run, t := Expire(DoHub(s, h, QuitNext), h);
      run := ReachesFrom(s, ByHub(h, QuitNext), run, t);
    } else {
      ExpireNow(s, h);
      t := DoHub(s, h, Timeout);
      assert Reaches(t, [], t);
      run := ReachesFrom(s, ByHub(h, Timeout), [], t);
    }
  }

  lemma ReachesFrom(s: State, a: Step, rest: seq<Step>, t: State) returns (run: seq<Step>)
    requires Can(s, a) && Reaches(Do(s, a), rest, t)
    ensures Reaches(s, run, t)
  {
    run := [a] + rest;
    assert run[0] == a && run[1..] == rest;
  }

  /** A shutdown never hangs: while it has not ended, its context can still end it, even if
      a session is stranded. */
  lemma PendingShutdownCanExpire(s: State, h: HubId)
    requires Reachable(s) && h in s.shut && s.shut[h].verdict.Pending?
    ensures exists run, t :: Reaches(s, run, t) && h in t.shut && t.shut[h].verdict.TimedOut?
  {
    ReachableInv(s);
    var run, t := Expire(s, h);
  }

  // ---- Leaving ----

  /** Main result: whoever is through its release is in no fan-out set, its queue closed
      once and its connection closed, unless its board is stopping; and so it is at the
      latest when that board is done. */
  lemma LeaversAreGone(s: State, c: Sid)
    requires Reachable(s) && c < |s.sessions| && Through(s.sessions[c].pc)
    requires var r := s.sessions[c].board; r < |s.boards| ==> !Stops(s, r) || s.boards[r].phase.Done?
    ensures s.sessions[c].board < |s.boards| && c !in s.boards[s.sessions[c].board].clients
    ensures !s.sessions[c].present && s.sessions[c].sendCloses == 1 && s.sessions[c].connClosed
  {
    ReachableProper(s);
    ThroughIsGone(s, c);
  }

  lemma ThroughIsGone(s: State, c: Sid)
    requires ChannelInv(s) && DepartureInv(s) && c < |s.sessions| && Through(s.sessions[c].pc)
    requires var r := s.sessions[c].board; r < |s.boards| ==> !Stops(s, r) || s.boards[r].phase.Done?
    ensures s.sessions[c].board < |s.boards| && c !in s.boards[s.sessions[c].board].clients
    ensures !s.sessions[c].present && s.sessions[c].sendCloses == 1 && s.sessions[c].connClosed
  {
    var r := s.sessions[c].board;
    assert Departed(s, c) && SessionOk(s.sessions[c], s.boards[r].phase);
    assert c in s.boards[r].clients <==> PresentOn(s, c, r);
  }

  /** Another session still holds the same board open. */
  predicate HoldsWith(s: State, d: Sid, c: Sid)
    requires c < |s.sessions|
  {
    d < |s.sessions| && d != c && s.sessions[d].board == s.sessions[c].board && Holding(s.sessions[d].pc)
  }

  /** Main result: what a release tells its session to do. Once the shutdown has begun,
      nothing; before, to unregister while others still hold the board, and to close its
      quit if nobody does. */
  lemma ReleaseDecides(s: State, c: Sid)
    requires Reachable(s) && CanSession(s, c, ReleaseEntry)
    ensures DoSession(s, c, ReleaseEntry).sessions[c].pc
            == if s.sessions[c].hub in s.shut then Finishing
               else if exists d: Sid :: HoldsWith(s, d, c) then Unregistering
               else ClosingQuit
  {
    ReachableInv(s);
    OthersCounted(s, c);
    CountDecides(s, c);
  }

  lemma CountDecides(s: State, c: Sid)
    requires Counted(s) && Anchored(s) && CanSession(s, c, ReleaseEntry)
    ensures DoSession(s, c, ReleaseEntry).sessions[c].pc
            == if s.sessions[c].hub in s.shut then Finishing
               else if Count(s.sessions, HoldersOf(s.sessions[c].board)) == 1 then ClosingQuit
               else Unregistering
  {
  }

  lemma OthersCounted(s: State, c: Sid)
    requires c < |s.sessions| && s.sessions[c].pc.Releasing?
    ensures Count(s.sessions, HoldersOf(s.sessions[c].board)) == 1 <==> !exists d: Sid :: HoldsWith(s, d, c)
  {
    var gone := s.sessions[c].(pc := Returned);
    var rest := s.sessions[c := gone];
    var sel := HoldersOf(s.sessions[c].board);
    CountUpdate(s.sessions, c, gone, sel);
    if d: Sid :| HoldsWith(s, d, c) {
      CountCovers(rest, d, sel);
    } else {
      forall d: Sid | d < |rest|
        ensures !Selected(rest[d], sel)
      {
        assert !HoldsWith(s, d, c);
      }
      CountNone(rest, sel);
    }
  }

  // ---- Joining ----

  /** What a connection hands to its board is a snapshot of the board at a point of the
      history that the broker still holds. */
  lemma HandsOverThePast(s: State, c: Sid, room: bool)
    requires Reachable(s) && CanSession(s, c, Deliver(room)) && s.sessions[c].pc.HoldingSnapshot?
    ensures IsPast(s.sessions[c].pc.snap, Hist(s, s.sessions[c].id))
  {
    ReachableProper(s);
    assert Held(s, c);
  }

  /** The roster it hands over is that of the moment it asked. */
  lemma RosterIsThatOfEveryHub(s: State, c: Sid)
    requires Reachable(s) && CanSession(s, c, FetchRoster)
    ensures var x := DoSession(s, c, FetchRoster).sessions[c];
      && x.pc.HoldingRoster? && c in x.pc.seen
      && forall d: Sid :: d in x.pc.seen <==> OnRoster(s, d, s.sessions[c].id)
  {
    ReachableInv(s);
    FetchedRosterIsExact(s, c);
  }

  /** A member can always be handed its snapshot and its roster. */
  lemma MembersAreServed(s: State, c: Sid, room: bool)
    requires Reachable(s) && c < |s.sessions| && s.sessions[c].present && HandsOver(s.sessions[c].pc)
    ensures CanSession(s, c, Deliver(room))
  {
    ReachableInv(s);
    assert SessionChannels(s, c);
  }

  /** A personal message keeps a member or kicks it, and is ignored once the client is gone. */
  lemma PersonalMessage(s: State, c: Sid, room: bool)
    requires Reachable(s) && CanSession(s, c, Deliver(room))
    ensures var t := DoSession(s, c, Deliver(room));
      var x, y := s.sessions[c], t.sessions[c];
      && (y.present <==> x.present && room)
      && (y.present <==> c in t.boards[x.board].clients)
      && (x.present && !room ==> y.sendCloses == 1 && y.connClosed)
      && (!x.present || room ==> y.sendCloses == x.sendCloses && y.connClosed == x.connClosed)
  {
    ReachableInv(s);
    assert SessionChannels(s, c);
    DeliverKeepsOrKicks(s, c, room);
  }

  /** A member can be kicked at any time, and only a member; a kick closes it for good. */
  lemma OnlyMembersAreKicked(s: State, c: Sid)
    requires Reachable(s) && c < |s.sessions|
    ensures s.sessions[c].board < |s.boards|
    ensures var r := s.sessions[c].board;
      && (CanBoard(s, r, Kick(c)) <==> s.sessions[c].present)
      && (s.sessions[c].present ==>
            var t := DoBoard(s, r, Kick(c));
            && c !in t.boards[r].clients && !t.sessions[c].present
            && t.sessions[c].sendCloses == 1 && t.sessions[c].connClosed)
  {
    ReachableInv(s);
    assert SessionChannels(s, c);
    KickIffMember(s, c);
  }

  // ---- Names ----

  /** No operation without a shape id is ever sequenced, so no shape without one is ever
      stored, in the broker or durably. */
  lemma NothingIsUnnamed(s: State, id: BoardId)
    requires Reachable(s)
    ensures Named(Hist(s, id)) && "" !in Get(s.broker, id).shapes
    ensures id in s.store ==> forall x :: x in s.store[id].shapes ==> x.id != ""
  {
    ReachableProper(s);
    assert Named(Hist(s, id)) && Named(DurableLog(s, id)) && StoredOk(s, id);
    NamedReplay(Hist(s, id));
    NamedReplay(DurableLog(s, id));
  }

  // ---- Periodic saves ----

  function Reads(run: seq<Step>): nat {
    if run == [] then 0 else (if run[0].ReadPeriodic? then 1 else 0) + Reads(run[1..])
  }

  function Landings(run: seq<Step>): nat {
    if run == [] then 0 else (if run[0].WritePeriodic? then 1 else 0) + Landings(run[1..])
  }

  lemma StepKeepsSaves(s: State, a: Step)
    requires Can(s, a)
    ensures |Do(s, a).savers| + (if a.WritePeriodic? then 1 else 0)
            == |s.savers| + (if a.ReadPeriodic? then 1 else 0)
  {
    if a.ByHub? {
      HubStepSameData(s, a.h, a.hub);
    }
  }

  /** Every periodic save lands at most once: those in flight are those read and not yet
      landed. */
  lemma {:induction false} SavesAreConserved(s: State, run: seq<Step>, t: State)
    requires Reaches(s, run, t)
    ensures |t.savers| + Landings(run) == |s.savers| + Reads(run)
    decreases |run|
  {
    if run != [] {
      StepKeepsSaves(s, run[0]);
      SavesAreConserved(Do(s, run[0]), run[1..], t);
    }
  }
}
