/** Every goroutine takes its steps in the order its code prescribes: a connection that of
    `Serve`, a board that of `run`, a hub that of `Shutdown` (internal/hub/hub.go,
    internal/hub/client.go, internal/hub/board.go). */
module Programs {
  import opened System
  import opened Registry
  import opened Lifecycle
  import opened Runs

  // ---- Connections ----

  /** What a connection does, step by step, whatever the outcome. */
  datatype Act =
    | Registers | Announces | Fetches | Lists | HandsOver
    | Reads | Sequences | Publishes
    | Stops | Joins | Leaves | Releases | Quits | Unregisters | Returns

  function ActOf(step: SessionStep): Act {
    match step
    case Register => Registers
    case SetPresence => Announces
    case FetchSnapshot(_) => Fetches
    case FetchRoster => Lists
    case Deliver(_) => HandsOver
    case GiveUp(_) => HandsOver
    case ReadOp(_) => Reads
    case ApplyOp => Sequences
    case PublishOp => Publishes
    case StopReading => Stops
    case JoinWriter => Joins
    case RemovePresence => Leaves
    case ReleaseEntry => Releases
    case RequestQuit => Quits
    case Unregister => Unregisters
    case BoardGone => Unregisters
    case Return => Returns
  }

  /** Joined and announced before the snapshot is fetched; the roster after the snapshot. */
  const ONBOARDING: seq<Act> := [Registers, Announces, Fetches, HandsOver, Lists, HandsOver]

  /** Each operation is sequenced and published before the next frame is read. */
  function Rounds(n: nat): seq<Act> {
    if n == 0 then [] else Rounds(n - 1) + [Reads, Sequences, Publishes]
  }

  /** Out of the roster before out of the registry. */
  const LEAVING: seq<Act> := [Stops, Joins, Leaves, Releases]

  /** The last one out closes the quit, anyone else unregisters, and after a shutdown began
      there is nothing to do. */
  function Ending(o: Outcome): seq<Act> {
    match o
    case LastLeft => [Quits]
    case Remaining => [Unregisters]
    case Unknown => []
  }

  /** All that `Serve` does with `n` operations. */
  function Script(n: nat, o: Outcome): seq<Act> {
    ONBOARDING + Rounds(n) + LEAVING + Ending(o) + [Returns]
  }

  function Bit(a: Step, c: Sid): seq<Act> {
    if a.BySession? && a.c == c then [ActOf(a.session)] else []
  }

  function Trace(run: seq<Step>, c: Sid): seq<Act> {
    if run == [] then [] else Bit(run[0], c) + Trace(run[1..], c)
  }

  /** How much of its script a session has behind it. */
  ghost predicate Fits(pc: Pc, done: seq<Act>, n: nat, o: Outcome) {
    match pc
    case Admitted => done == []
    case Registered => done == ONBOARDING[..1]
    case Announced => done == ONBOARDING[..2]
    case HoldingSnapshot(_) => done == ONBOARDING[..3]
    case OnboardingRoster => done == ONBOARDING[..4]
    case HoldingRoster(_) => done == ONBOARDING[..5]
    case Reading => done == ONBOARDING + Rounds(n)
    case Applying(_) => done == ONBOARDING + Rounds(n) + [Reads]
    case Publishing => done == ONBOARDING + Rounds(n) + [Reads, Sequences]
    case Stopping => done == ONBOARDING + Rounds(n) + LEAVING[..1]
    case Leaving => done == ONBOARDING + Rounds(n) + LEAVING[..2]
    case Releasing => done == ONBOARDING + Rounds(n) + LEAVING[..3]
    case ClosingQuit => done == ONBOARDING + Rounds(n) + LEAVING
    case Unregistering => done == ONBOARDING + Rounds(n) + LEAVING
    case Finishing => done == ONBOARDING + Rounds(n) + LEAVING + Ending(o)
    case Returned => done == Script(n, o)
  }

  lemma OnboardingFits(s: State, c: Sid, step: SessionStep, done: seq<Act>, n: nat, o: Outcome)
    requires CanSession(s, c, step) && Fits(s.sessions[c].pc, done, n, o)
    requires step.Register? || step.SetPresence? || step.FetchSnapshot? || step.FetchRoster? || step.Deliver?
             || step.GiveUp?
    ensures Fits(DoSession(s, c, step).sessions[c].pc, done + [ActOf(step)], 0, o)
  {
  }

  lemma RoundFits(s: State, c: Sid, step: SessionStep, done: seq<Act>, n: nat, o: Outcome)
    requires CanSession(s, c, step) && Fits(s.sessions[c].pc, done, n, o)
    requires step.ReadOp? || step.ApplyOp? || step.PublishOp?
    ensures Fits(DoSession(s, c, step).sessions[c].pc, done + [ActOf(step)], if step.PublishOp? then n + 1 else n, o)
  {
  }

  lemma LeavingFits(s: State, c: Sid, step: SessionStep, done: seq<Act>, n: nat, o: Outcome)
    requires CanSession(s, c, step) && Fits(s.sessions[c].pc, done, n, o)
    requires step.StopReading? || step.JoinWriter? || step.RemovePresence? || step.ReleaseEntry?
    ensures Fits(DoSession(s, c, step).sessions[c].pc, done + [ActOf(step)], n, Unknown)
  {
  }

  lemma EndingFits(s: State, c: Sid, step: SessionStep, done: seq<Act>, n: nat, o: Outcome)
    requires CanSession(s, c, step) && Fits(s.sessions[c].pc, done, n, o)
    requires step.RequestQuit? || step.Unregister? || step.BoardGone? || step.Return?
    ensures Fits(DoSession(s, c, step).sessions[c].pc, done + [ActOf(step)], n,
                 if step.RequestQuit? then LastLeft else if step.Return? then o else Remaining)
  {
  }

  lemma StepFits(s: State, c: Sid, step: SessionStep, done: seq<Act>, n: nat, o: Outcome)
    returns (n': nat, o': Outcome)
    requires CanSession(s, c, step) && Fits(s.sessions[c].pc, done, n, o)
    ensures Fits(DoSession(s, c, step).sessions[c].pc, done + [ActOf(step)], n', o')
  {
    n', o' := n, o;
    if step.ReadOp? || step.ApplyOp? || step.PublishOp? {
      RoundFits(s, c, step, done, n, o);
      n' := if step.PublishOp? then n + 1 else n;
    } else if step.StopReading? || step.JoinWriter? || step.RemovePresence? || step.ReleaseEntry? {
      LeavingFits(s, c, step, done, n, o);
      o' := Unknown;
    } else if step.RequestQuit? || step.Unregister? || step.BoardGone? || step.Return? {
      EndingFits(s, c, step, done, n, o);
      o' := if step.RequestQuit? then LastLeft else if step.Return? then o else Remaining;
    } else {
      OnboardingFits(s, c, step, done, n, o);
      n' := 0;
    }
  }

  lemma HubStepSessions(s: State, h: HubId, step: HubStep)
    requires CanHub(s, h, step)
    ensures var t := DoHub(s, h, step);
      && (forall d :: 0 <= d < |s.sessions| ==> d < |t.sessions| && t.sessions[d].pc == s.sessions[d].pc)
      && (forall d :: |s.sessions| <= d < |t.sessions| ==> t.sessions[d].pc.Admitted?)
  {
  }

  lemma SessionsStayPut(s: State, d: Sid, step: SessionStep)
    requires CanSession(s, d, step)
    ensures var t := DoSession(s, d, step);
      |t.sessions| == |s.sessions| && forall c :: 0 <= c < |s.sessions| && c != d ==> t.sessions[c] == s.sessions[c]
  {
  }

  lemma BoardStepSessions(s: State, r: Ref, step: BoardStep)
    requires CanBoard(s, r, step)
    ensures var t := DoBoard(s, r, step);
      |t.sessions| == |s.sessions| && forall c :: 0 <= c < |s.sessions| ==> t.sessions[c].pc == s.sessions[c].pc
  {
  }

  ghost predicate StaysPut(s: State, t: State, c: Sid) {
    && (c < |s.sessions| ==> c < |t.sessions| && t.sessions[c].pc == s.sessions[c].pc)
    && (|s.sessions| <= c < |t.sessions| ==> t.sessions[c].pc.Admitted?)
  }

  lemma OthersStayPut(s: State, a: Step, c: Sid)
    requires Can(s, a) && !(a.BySession? && a.c == c)
    ensures StaysPut(s, Do(s, a), c)
  {
    match a
    case BySession(d, step) => SessionsStayPut(s, d, step);
    case ByBoard(r, step) => BoardStepSessions(s, r, step);
    case ByHub(h, step) => HubStepSessions(s, h, step);
    case _ =>
  }

  /** A session that exists fits what it has done; another has done nothing. */
  ghost predicate FitsSoFar(s: State, c: Sid, done: seq<Act>, n: nat, o: Outcome) {
    if c < |s.sessions| then Fits(s.sessions[c].pc, done, n, o) else done == []
  }

  lemma AnyStepFits(s: State, a: Step, c: Sid, done: seq<Act>, n: nat, o: Outcome) returns (n': nat, o': Outcome)
    requires Can(s, a) && FitsSoFar(s, c, done, n, o)
    ensures FitsSoFar(Do(s, a), c, done + Bit(a, c), n', o')
  {
    if a.BySession? && a.c == c {
      n', o' := StepFits(s, c, a.session, done, n, o);
      SessionsStayPut(s, c, a.session);
    } else {
      n', o' := n, o;
      OthersStayPut(s, a, c);
      assert done + Bit(a, c) == done;
    }
  }

  lemma {:induction false} RunFits(s: State, run: seq<Step>, t: State, c: Sid, past: seq<Act>, n: nat, o: Outcome)
    returns (n': nat, o': Outcome)
    requires Reaches(s, run, t) && FitsSoFar(s, c, past, n, o)
    ensures FitsSoFar(t, c, past + Trace(run, c), n', o')
    decreases |run|
  {
    if run == [] {
      n', o' := n, o;
      assert past + [] == past;
    } else {
      n', o' := AnyStepFits(s, run[0], c, past, n, o);
      n', o' := RunFits(Do(s, run[0]), run[1..], t, c, past + Bit(run[0], c), n', o');
      Regroup(past, Bit(run[0], c), Trace(run[1..], c));
    }
  }

  lemma Regroup<T>(a: seq<T>, b: seq<T>, c: seq<T>)
    ensures a + b + c == a + (b + c)
  {
  }

  lemma FitsIsPrefix(pc: Pc, done: seq<Act>, n: nat, o: Outcome)
    requires Fits(pc, done, n, o)
    ensures done <= Script(if pc.Applying? || pc.Publishing? then n + 1 else n, o)
    ensures pc.Returned? ==> done == Script(n, o)
  {
    if pc.Applying? || pc.Publishing? {
      assert Rounds(n + 1) == Rounds(n) + [Reads, Sequences, Publishes];
    }
  }

  /** Main result: along any run whatever, what a connection has done so far is a prefix of
      what `Serve` prescribes, and all of it once it has returned. */
  lemma ServeFollowsScript(run: seq<Step>, t: State, c: Sid)
    requires Reaches(INITIAL, run, t) && c < |t.sessions|
    ensures exists n, o ::
      Trace(run, c) <= Script(n, o) && (t.sessions[c].pc.Returned? ==> Trace(run, c) == Script(n, o))
  {
    var n, o := RunFits(INITIAL, run, t, c, [], 0, Unknown);
    assert [] + Trace(run, c) == Trace(run, c);
    FitsIsPrefix(t.sessions[c].pc, Trace(run, c), n, o);
  }

  // ---- Boards ----

  /** What a board's goroutine does once each, in order; kicks come in between. */
  datatype Deed = Loads | Hydrates | TakesQuit | ReadsFinal | WritesFinal | ClosesDone

  const LIFE: seq<Deed> := [Loads, Hydrates, TakesQuit, ReadsFinal, WritesFinal, ClosesDone]

  function DeedOf(step: BoardStep): seq<Deed> {
    match step
    case LoadStored => [Loads]
    case HydrateFound => [Hydrates]
    case Kick(_) => []
    case TakeQuit => [TakesQuit]
    case ReadFinal(_) => [ReadsFinal]
    case WriteFinal => [WritesFinal]
    case CloseDone => [ClosesDone]
  }

  function DeedIn(a: Step, r: Ref): seq<Deed> {
    if a.ByBoard? && a.r == r then DeedOf(a.board) else []
  }

  function Deeds(run: seq<Step>, r: Ref): seq<Deed> {
    if run == [] then [] else DeedIn(run[0], r) + Deeds(run[1..], r)
  }

  function Age(p: Phase): (n: nat)
    ensures n <= |LIFE|
  {
    match p
    case Loading => 0
    case Hydrating(_, _) => 1
    case Running => 2
    case Checkpoint => 3
    case Saving(_, _) => 4
    case Stopped => 5
    case Done => 6
  }

  lemma StepAges(s: State, r: Ref, step: BoardStep)
    requires CanBoard(s, r, step)
    ensures LIFE[..Age(DoBoard(s, r, step).boards[r].phase)] == LIFE[..Age(s.boards[r].phase)] + DeedOf(step)
  {
  }

  lemma SessionStepPhases(s: State, c: Sid, step: SessionStep)
    requires CanSession(s, c, step)
    ensures var t := DoSession(s, c, step);
      |t.boards| == |s.boards| && forall q :: 0 <= q < |s.boards| ==> t.boards[q].phase == s.boards[q].phase
  {
  }

  lemma HubStepPhases(s: State, h: HubId, step: HubStep)
    requires CanHub(s, h, step)
    ensures var t := DoHub(s, h, step);
      && (forall q :: 0 <= q < |s.boards| ==> q < |t.boards| && t.boards[q].phase == s.boards[q].phase)
      && (forall q :: |s.boards| <= q < |t.boards| ==> t.boards[q].phase.Loading?)
  {
  }

  /** What a board has done so far; one that does not exist has done nothing. */
  function LifeSoFar(s: State, r: Ref): seq<Deed> {
    if r < |s.boards| then LIFE[..Age(s.boards[r].phase)] else []
  }

  lemma OtherBoardStays(s: State, q: Ref, step: BoardStep, r: Ref)
    requires CanBoard(s, q, step) && q != r
    ensures LifeSoFar(DoBoard(s, q, step), r) == LifeSoFar(s, r)
  {
  }

  lemma AnyStepAges(s: State, a: Step, r: Ref)
    requires Can(s, a)
    ensures LifeSoFar(Do(s, a), r) == LifeSoFar(s, r) + DeedIn(a, r)
  {
    match a
    case BySession(c, step) => SessionStepPhases(s, c, step);
    case ByBoard(q, step) =>
      if q == r {
        StepAges(s, r, step);
      } else {
        OtherBoardStays(s, q, step, r);
      }
    case ByHub(h, step) => HubStepPhases(s, h, step);
    case _ =>
  }

  lemma {:induction false} RunAges(s: State, run: seq<Step>, t: State, r: Ref)
    requires Reaches(s, run, t)
    ensures LifeSoFar(s, r) + Deeds(run, r) == LifeSoFar(t, r)
    decreases |run|
  {
    if run != [] {
      AnyStepAges(s, run[0], r);
      RunAges(Do(s, run[0]), run[1..], t, r);
      Regroup(LifeSoFar(s, r), DeedIn(run[0], r), Deeds(run[1..], r));
    }
  }

  /** Main result: along any run, a board loads, hydrates, runs, takes its quit, reads and
      writes its final snapshot and closes its done channel, each once and in this order. */
  lemma BoardFollowsItsLife(run: seq<Step>, t: State, r: Ref)
    requires Reaches(INITIAL, run, t) && r < |t.boards|
    ensures Deeds(run, r) <= LIFE && (t.boards[r].phase.Done? ==> Deeds(run, r) == LIFE)
  {
    RunAges(INITIAL, run, t, r);
    assert [] + Deeds(run, r) == Deeds(run, r);
  }

  // ---- Shutdowns ----

  datatype Move = Begins | Tells | Awaits | WaitsForSessions | Expires

  function MoveOf(step: HubStep): seq<Move> {
    match step
    case AdmitSession(_) => []
    case BeginShutdown(_) => [Begins]
    case QuitNext => [Tells]
    case AwaitBoard => [Awaits]
    case AwaitSessions => [WaitsForSessions]
    case Timeout => [Expires]
  }

  function MoveIn(a: Step, h: HubId): seq<Move> {
    if a.ByHub? && a.h == h then MoveOf(a.hub) else []
  }

  function Moves(run: seq<Step>, h: HubId): seq<Move> {
    if run == [] then [] else MoveIn(run[0], h) + Moves(run[1..], h)
  }

  function Times(n: nat, m: Move): (ms: seq<Move>)
    ensures |ms| == n && forall i :: 0 <= i < n ==> ms[i] == m
  {
    seq(n, _ => m)
  }

  function Last(v: Verdict): seq<Move> {
    match v
    case Pending => []
    case Drained => [WaitsForSessions]
    case TimedOut => [Expires]
  }

  /** How far a shutdown has come. */
  function Progress(s: State, h: HubId): seq<Move> {
    if h !in s.shut then []
    else Course(s.shut[h].told, s.shut[h].awaited, s.shut[h].verdict)
  }

  lemma HubStepMoves(s: State, h: HubId, step: HubStep)
    requires Shutdowns(s) && CanHub(s, h, step)
    ensures Progress(DoHub(s, h, step), h) == Progress(s, h) + MoveOf(step)
  {
    if h in s.shut {
      assert ShutdownOk(s, h);
    }
  }

  lemma AnyStepMoves(s: State, a: Step, h: HubId)
    requires Shutdowns(s) && Can(s, a)
    ensures Progress(Do(s, a), h) == Progress(s, h) + MoveIn(a, h)
  {
    if a.ByHub? {
      if a.h == h {
        HubStepMoves(s, h, a.hub);
      } else {
        OtherShutdownsStayPut(s, a.h, a.hub, h);
      }
    }
  }

  lemma OtherShutdownsStayPut(s: State, g: HubId, step: HubStep, h: HubId)
    requires CanHub(s, g, step) && g != h
    ensures h in DoHub(s, g, step).shut <==> h in s.shut
    ensures h in s.shut ==> DoHub(s, g, step).shut[h] == s.shut[h]
  {
  }

  lemma {:induction false} RunMoves(s: State, run: seq<Step>, t: State, h: HubId)
    requires RegistryInv(s) && Reaches(s, run, t)
    ensures Progress(s, h) + Moves(run, h) == Progress(t, h)
    decreases |run|
  {
    if run != [] {
      AnyStepMoves(s, run[0], h);
      RegistryKept(s, run[0]);
      RunMoves(Do(s, run[0]), run[1..], t, h);
      Regroup(Progress(s, h), MoveIn(run[0], h), Moves(run[1..], h));
    }
  }

  /** A shutdown that told `n` boards to quit, awaited `m` of them and ended so. */
  function Course(n: nat, m: nat, v: Verdict): seq<Move> {
    [Begins] + Times(n, Tells) + Times(m, Awaits) + Last(v)
  }

  /** Main result: a shutdown that returned nil began, told every board it had captured to
      quit, then waited for each of them and last for the sessions; one whose context
      expired had told them all, too, and stopped somewhere in the waiting. */
  lemma ShutdownFollowsItsCourse(run: seq<Step>, t: State, h: HubId)
    requires Reaches(INITIAL, run, t) && h in t.shut && !t.shut[h].verdict.Pending?
    ensures var d := t.shut[h];
      && d.awaited <= |d.captured| && (d.verdict.Drained? ==> d.awaited == |d.captured|)
      && Moves(run, h) == Course(|d.captured|, d.awaited, d.verdict)
  {
    InitialInv();
    RunMoves(INITIAL, run, t, h);
    RunKeepsInv(INITIAL, run, t);
    assert [] + Moves(run, h) == Moves(run, h);
    assert ShutdownOk(t, h);
  }
}
