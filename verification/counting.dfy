/** Counting sessions, for the keep-open counts and the wait groups. */
module Counting {
  import opened System
  import opened Registry

  /** Still keeping its board open: admitted and not yet through its release. */
  predicate Holding(pc: Pc) {
    !(pc.ClosingQuit? || pc.Unregistering? || pc.Finishing? || pc.Returned?)
  }

  datatype Selector = HoldersOf(r: Ref) | ActiveIn(h: HubId)

  predicate Selected(x: Session, sel: Selector) {
    match sel
    case HoldersOf(r) => x.board == r && Holding(x.pc)
    case ActiveIn(h) => x.hub == h && !x.pc.Returned?
  }

  function Weight(x: Session, sel: Selector): nat { if Selected(x, sel) then 1 else 0 }

  function Count(ss: seq<Session>, sel: Selector): nat {
    if ss == [] then 0 else Count(ss[..|ss| - 1], sel) + Weight(ss[|ss| - 1], sel)
  }

  lemma CountAppend(ss: seq<Session>, x: Session, sel: Selector)
    ensures Count(ss + [x], sel) == Count(ss, sel) + Weight(x, sel)
  {
    assert (ss + [x])[..|ss|] == ss;
  }

  lemma {:induction false} CountPointwise(ss: seq<Session>, ts: seq<Session>, sel: Selector)
    requires |ss| == |ts|
    requires forall c :: 0 <= c < |ss| ==> Weight(ss[c], sel) == Weight(ts[c], sel)
    ensures Count(ss, sel) == Count(ts, sel)
  {
    if ss != [] {
      CountPointwise(ss[..|ss| - 1], ts[..|ts| - 1], sel);
    }
  }

  lemma {:induction false} CountUpdate(ss: seq<Session>, c: nat, x: Session, sel: Selector)
    requires c < |ss|
    ensures Count(ss[c := x], sel) == Count(ss, sel) - Weight(ss[c], sel) + Weight(x, sel)
  {
    var n := |ss| - 1;
    if c == n {
      assert ss[c := x][..n] == ss[..n];
    } else {
      CountUpdate(ss[..n], c, x, sel);
      assert ss[c := x][..n] == ss[..n][c := x];
    }
  }

  lemma {:induction false} CountCovers(ss: seq<Session>, c: nat, sel: Selector)
    requires c < |ss| && Selected(ss[c], sel)
    ensures Count(ss, sel) >= 1
  {
    if c < |ss| - 1 {
      CountCovers(ss[..|ss| - 1], c, sel);
    }
  }

  lemma {:induction false} CountNone(ss: seq<Session>, sel: Selector)
    requires forall c :: 0 <= c < |ss| ==> !Selected(ss[c], sel)
    ensures Count(ss, sel) == 0
  {
    if ss != [] {
      CountNone(ss[..|ss| - 1], sel);
    }
  }

  /** Boards whose goroutine has not finished. */
  function OpenBoards(bs: seq<Actor>): nat {
    if bs == [] then 0 else OpenBoards(bs[..|bs| - 1]) + (if bs[|bs| - 1].phase.Done? then 0 else 1)
  }

  lemma OpenAppend(bs: seq<Actor>, b: Actor)
    ensures OpenBoards(bs + [b]) == OpenBoards(bs) + (if b.phase.Done? then 0 else 1)
  {
    assert (bs + [b])[..|bs|] == bs;
  }

  lemma {:induction false} OpenUpdate(bs: seq<Actor>, r: nat, b: Actor)
    requires r < |bs|
    ensures OpenBoards(bs[r := b])
            == OpenBoards(bs) - (if bs[r].phase.Done? then 0 else 1) + (if b.phase.Done? then 0 else 1)
  {
    var n := |bs| - 1;
    if r == n {
      assert bs[r := b][..n] == bs[..n];
    } else {
      OpenUpdate(bs[..n], r, b);
      assert bs[r := b][..n] == bs[..n][r := b];
    }
  }
}
