/** The shared broker (internal/broker/redis.go): a counter and a hash of
    "<sn>\n<blob>" strings, changed only by two atomic scripts. The main result is that
    it refines the in-process broker, call by call. */
module RedisBroker {
  import opened Protocol
  import opened Sequencer
  import opened SnapshotList
  import opened MemoryBroker
  import opened Decimal

  type Hash = map<string, string>

  /** The keyspace; a missing hash is an empty one. */
  datatype Keyspace = Keyspace(strings: map<string, string>, hashes: map<string, Hash>)

  function HashAt(k: Keyspace, key: string): Hash {
    if key in k.hashes then k.hashes[key] else map[]
  }

  function SeqKey(board: BoardId): string { "board:" + board + ":seq" }

  function ShapesKey(board: BoardId): string { "board:" + board + ":shapes" }

  lemma KeysInjective(a: BoardId, b: BoardId)
    requires a != b
    ensures SeqKey(a) != SeqKey(b) && ShapesKey(a) != ShapesKey(b)
  {
    assert SeqKey(a)[6..|SeqKey(a)| - 4] == a && SeqKey(b)[6..|SeqKey(b)| - 4] == b;
    assert ShapesKey(a)[6..|ShapesKey(a)| - 7] == a && ShapesKey(b)[6..|ShapesKey(b)| - 7] == b;
  }

  // ---- The scripts, over plain values ----

  function Incr(k: Keyspace, key: string): Option<nat> {
    if key !in k.strings then Some(1)
    else match ParseCounter(k.strings[key])
      case Some(n) => Some(n + 1)
      case None => None
  }

  function ApplyScript(k: Keyspace, seqKey: string, shapesKey: string, id: string, del: string, blob: string)
    : Keyspace
  {
    match Incr(k, seqKey)
    case None => k
    case Some(n) =>
      var h := HashAt(k, shapesKey);
      Keyspace(k.strings[seqKey := Print(n)],
               k.hashes[shapesKey := if del == "1" then h - {id} else h[id := LuaNumber(n) + "\n" + blob]])
  }

  /** HSET of the (field, value) pairs in order. */
  function SetPairs(h: Hash, args: seq<string>): Hash {
    if |args| < 2 then h else SetPairs(h, args[..|args| - 2])[args[|args| - 2] := args[|args| - 1]]
  }

  function HydrateScript(k: Keyspace, seqKey: string, shapesKey: string, argv: seq<string>): Keyspace
    requires |argv| % 2 == 1
  {
    if seqKey in k.strings then k
    else Keyspace(k.strings[seqKey := argv[0]],
                  k.hashes[shapesKey := SetPairs(HashAt(k, shapesKey), argv[1..])])
  }

  lemma SetPairsExtend(h: Hash, argv: seq<string>, i: nat)
    requires 1 <= i && i + 2 <= |argv|
    ensures SetPairs(h, argv[1..i + 2]) == SetPairs(h, argv[1..i])[argv[i] := argv[i + 1]]
  {
    var args := argv[1..i + 2];
    assert args[..|args| - 2] == argv[1..i];
  }

  function Pairs(xs: seq<SnapshotShape>): (args: seq<string>)
    ensures |args| == 2 * |xs|
  {
    if xs == [] then []
    else var x := xs[|xs| - 1]; Pairs(xs[..|xs| - 1]) + [x.id, Print(x.sn) + "\n" + x.shape]
  }

  /** The decodable fields of a shapes hash; a malformed one is skipped. */
  function Decode(h: Hash): map<ShapeId, Stored> {
    map id | id in h && ParseField(h[id]).Some? :: Stored(ParseField(h[id]).value.0, ParseField(h[id]).value.1)
  }

  /** A field is listed exactly if it has a newline, by the number before the first one and
      all that follows it; anything else is skipped. */
  lemma DecodeLists(h: Hash, id: ShapeId)
    ensures id in Decode(h) <==> id in h && '\n' in h[id]
    ensures id in Decode(h) ==>
      exists head :: h[id] == head + "\n" + Decode(h)[id].shape && '\n' !in head && ParseUint(head) == Decode(h)[id].sn
  {
    if id in h && ParseField(h[id]).Some? {
      ParseFieldIff(h[id], Decode(h)[id].sn, Decode(h)[id].shape);
    } else if id in h {
      ParseFieldIff(h[id], 0, "");
    }
  }

  function Counter(k: Keyspace, board: BoardId): Option<nat> {
    if SeqKey(board) !in k.strings then Some(0)
    else match ParseCounter(k.strings[SeqKey(board)])
      case Some(n) => if n < TWO_64 then Some(n) else None
      case None => None
  }

  function RedisNext(k: Keyspace, c: Call): Keyspace {
    match c
    case ApplyShape(b, Put(id, blob)) => ApplyScript(k, SeqKey(b), ShapesKey(b), id, "0", blob)
    case ApplyShape(b, Del(id)) => ApplyScript(k, SeqKey(b), ShapesKey(b), id, "1", "")
    case Hydrate(b, snap) => HydrateScript(k, SeqKey(b), ShapesKey(b), [Print(snap.sn)] + Pairs(snap.shapes))
    case ReadSnapshot(_) => k
  }

  ghost predicate RedisReplies(k: Keyspace, c: Call, r: Reply) {
    match c
    case ApplyShape(b, _) =>
      (match Incr(k, SeqKey(b)) case Some(n) => r == Assigned(n) case None => r == Failed)
    case Hydrate(b, _) => r == Loaded(SeqKey(b) !in k.strings)
    case ReadSnapshot(b) =>
      (match Counter(k, b)
       case Some(n) => r.Contents? && r.snap.sn == n && Arranges(r.snap.shapes, Decode(HashAt(k, ShapesKey(b))))
       case None => r == Failed)
  }

  /** The string is the number `n`, as 64 bits can hold it. */
  predicate IsNumber(s: string, n: nat) { s != "" && AllDigits(s) && Value(s) == n && n < TWO_64 }

  /** Whoever damaged a board's counter stops its operations, which then change nothing;
      its snapshots fail as well, and also once the counter exceeds 64 bits. */
  lemma CallsFailIff(k: Keyspace, b: BoardId, op: Op)
    ensures RedisReplies(k, ApplyShape(b, op), Failed)
            <==> SeqKey(b) in k.strings && (k.strings[SeqKey(b)] == "" || !AllDigits(k.strings[SeqKey(b)]))
    ensures RedisReplies(k, ApplyShape(b, op), Failed) ==> RedisNext(k, ApplyShape(b, op)) == k
    ensures RedisReplies(k, ReadSnapshot(b), Failed)
            <==> SeqKey(b) in k.strings && forall n: nat :: !IsNumber(k.strings[SeqKey(b)], n)
  {
    if SeqKey(b) in k.strings && Counter(k, b).Some? {
      assert IsNumber(k.strings[SeqKey(b)], Counter(k, b).value);
    }
  }

  function RedisRunAll(k: Keyspace, cs: seq<Call>): Keyspace {
    if cs == [] then k else RedisNext(RedisRunAll(k, cs[..|cs| - 1]), cs[|cs| - 1])
  }

  // ---- The same, as code that updates the keyspace in place ----

  class Server {
    var strings: map<string, string>
    var hashes: map<string, Hash>

    ghost function View(): Keyspace
      reads this
    {
      Keyspace(strings, hashes)
    }

    constructor ()
      ensures View() == Keyspace(map[], map[])
    {
      strings, hashes := map[], map[];
    }

    method RunApply(seqKey: string, shapesKey: string, id: string, del: string, blob: string) returns (sn: Option<nat>)
      modifies this
      ensures View() == ApplyScript(old(View()), seqKey, shapesKey, id, del, blob)
      ensures sn == Incr(old(View()), seqKey)
    {
      sn := Some(1);
      if seqKey in strings {
        var cur := ParseCounter(strings[seqKey]);
        if cur.None? {
          return None;
        }
        sn := Some(cur.value + 1);
      }
      strings := strings[seqKey := Print(sn.value)];
      var h := if shapesKey in hashes then hashes[shapesKey] else map[];
      if del == "1" {
        hashes := hashes[shapesKey := h - {id}];
      } else {
        hashes := hashes[shapesKey := h[id := LuaNumber(sn.value) + "\n" + blob]];
      }
    }

    method RunHydrate(seqKey: string, shapesKey: string, argv: seq<string>) returns (loaded: nat)
      requires |argv| % 2 == 1
      modifies this
      ensures View() == HydrateScript(old(View()), seqKey, shapesKey, argv)
      ensures loaded == if seqKey in old(strings) then 0 else 1
    {
      if seqKey in strings {
        return 0;
      }
      strings := strings[seqKey := argv[0]];
      var h := if shapesKey in hashes then hashes[shapesKey] else map[];
      ghost var h0 := h;
      var i := 1;
      while i < |argv|
        invariant 1 <= i <= |argv| && i % 2 == 1
        invariant h == SetPairs(h0, argv[1..i])
        invariant View() == Keyspace(old(strings)[seqKey := argv[0]], old(hashes))
      {
        h := h[argv[i] := argv[i + 1]];
        SetPairsExtend(h0, argv, i);
        i := i + 2;
      }
      assert argv[1..i] == argv[1..];
      hashes := hashes[shapesKey := h];
      loaded := 1;
    }
  }

  class Redis {
    const server: Server

    constructor (server: Server)
      ensures this.server == server
    {
      this.server := server;
    }

    method ApplyShape(boardID: BoardId, shapeID: ShapeId, shape: Blob, del: bool) returns (r: Reply)
      modifies server
      ensures var c := Call.ApplyShape(boardID, if del then Del(shapeID) else Put(shapeID, shape));
        server.View() == RedisNext(old(server.View()), c) && RedisReplies(old(server.View()), c, r)
    {
      var delArg := if del then "1" else "0";
      var sn := server.RunApply(SeqKey(boardID), ShapesKey(boardID), shapeID, delArg, shape);
      r := if sn.Some? then Assigned(sn.value) else Failed;
    }

    method Hydrate(boardID: BoardId, snap: Snapshot) returns (r: Reply)
      modifies server
      ensures var c := Call.Hydrate(boardID, snap);
        server.View() == RedisNext(old(server.View()), c) && RedisReplies(old(server.View()), c, r)
    {
      var pairs: seq<string> := [];
      for i := 0 to |snap.shapes|
        invariant pairs == Pairs(snap.shapes[..i])
      {
        var s := snap.shapes[i];
        pairs := pairs + [s.id, Print(s.sn) + "\n" + s.shape];
        assert snap.shapes[..i + 1][..i] == snap.shapes[..i];
      }
      assert snap.shapes[..|snap.shapes|] == snap.shapes;
      var loaded := server.RunHydrate(SeqKey(boardID), ShapesKey(boardID), [Print(snap.sn)] + pairs);
      r := Loaded(loaded == 1);
    }

    /** What other clients of the same server do meanwhile. */
    method Others(calls: seq<Call>)
      modifies server
      ensures server.View() == RedisRunAll(old(server.View()), calls)
    {
      for i := 0 to |calls|
        invariant server.View() == RedisRunAll(old(server.View()), calls[..i])
      {
        assert calls[..i + 1][..i] == calls[..i];
        match calls[i]
        case ApplyShape(b, Put(id, shape)) => var _ := ApplyShape(b, id, shape, false);
        case ApplyShape(b, Del(id)) => var _ := ApplyShape(b, id, "", true);
        case Hydrate(b, snap) => var _ := Hydrate(b, snap);
        case ReadSnapshot(_) =>
      }
      assert calls[..|calls|] == calls;
    }

    /** Two reads, hash first, with any calls of others in between: the shapes are those
        of the first moment, the number is that of the second. Without interference this
        is one atomic read. */
    method Snapshot(boardID: BoardId, between: seq<Call>) returns (r: Reply)
      modifies server
      ensures server.View() == RedisRunAll(old(server.View()), between)
      ensures match Counter(server.View(), boardID)
              case Some(n) =>
                r.Contents? && r.snap.sn == n
                && Arranges(r.snap.shapes, Decode(HashAt(old(server.View()), ShapesKey(boardID))))
              case None => r == Failed
      ensures between == [] ==> RedisReplies(old(server.View()), ReadSnapshot(boardID), r)
    {
      var fields := if ShapesKey(boardID) in server.hashes then server.hashes[ShapesKey(boardID)] else map[];
      var shapes := ReadFields(fields);
      Others(between);
      var cur := 0;
      if SeqKey(boardID) in server.strings {
        var n := ParseCounter(server.strings[SeqKey(boardID)]);
        if n.None? || n.value >= TWO_64 {
          return Failed;
        }
        cur := n.value;
      }
      r := Contents(Protocol.Snapshot.Snapshot(cur, shapes));
    }
  }

  /** The body of the decoding loop: a value without a newline is skipped. */
  method AppendField(xs: seq<SnapshotShape>, id: ShapeId, v: string) returns (ys: seq<SnapshotShape>)
    ensures ys == match ParseField(v)
                  case Some((n, blob)) => xs + [SnapshotShape(n, id, blob)]
                  case None => xs
  {
    ys := xs;
    var nl := IndexOf(v, '\n');
    if nl >= 0 {
      ys := ys + [SnapshotShape(ParseUint(v[..nl]), id, v[nl + 1..])];
    }
  }

  method ReadFields(fields: Hash) returns (xs: seq<SnapshotShape>)
    ensures Arranges(xs, Decode(fields))
  {
    xs := [];
    ghost var want := Decode(fields);
    var todo := fields.Keys;
    while todo != {}
      invariant todo <= fields.Keys
      invariant DistinctIds(xs)
      invariant forall x :: x in xs ==> x.id in want && x.id !in todo && want[x.id] == Stored(x.sn, x.shape)
      invariant forall id :: id in want && id !in todo ==> SnapshotShape(want[id].sn, id, want[id].shape) in xs
      decreases |todo|
    {
      var id :| id in todo;
      todo := todo - {id};
      xs := AppendField(xs, id, fields[id]);
    }
    xs := SortBySn(xs);
  }

  // ---- Refinement ----

  /** The hash that represents a board's shapes. */
  function Encode(shapes: map<ShapeId, Stored>): Hash {
    map id | id in shapes :: Print(shapes[id].sn) + "\n" + shapes[id].shape
  }

  ghost predicate RelatedBoard(k: Keyspace, id: BoardId, b: Board) {
    && b.sn < TWO_64
    && (SeqKey(id) in k.strings <==> HasState(b))
    && (HasState(b) ==> k.strings[SeqKey(id)] == Print(b.sn))
    && HashAt(k, ShapesKey(id)) == Encode(b.shapes)
    && (forall i :: i in b.shapes ==> b.shapes[i].sn < TWO_64)
  }

  /** Every board's counter and decoded hash are the in-process broker's state. */
  ghost predicate Related(k: Keyspace, m: Boards) {
    forall id :: RelatedBoard(k, id, Get(m, id))
  }

  /** The calls the refinement covers: a hydrated snapshot, whatever it lists, is not the
      blank one (number 0, no shapes), all numbers fit 64 bits, and assigned ones stay
      below Lua's printing limit. */
  ghost predicate Admissible(m: Boards, c: Call) {
    match c
    case ApplyShape(id, _) => Get(m, id).sn + 1 < LUA_LIMIT
    case Hydrate(_, snap) =>
      && (snap.sn > 0 || snap.shapes != []) && snap.sn < TWO_64
      && forall x :: x in snap.shapes ==> x.sn < TWO_64
    case ReadSnapshot(_) => true
  }

  lemma PrintParses(n: nat)
    ensures ParseCounter(Print(n)) == Some(n)
  {
    ValueOfPrint(n);
  }

  /** No field of a related hash is malformed, and decoding undoes the encoding. */
  lemma DecodeEncode(shapes: map<ShapeId, Stored>)
    requires forall id :: id in shapes ==> shapes[id].sn < TWO_64
    ensures Decode(Encode(shapes)) == shapes
    ensures forall id :: id in Encode(shapes) ==> ParseField(Encode(shapes)[id]).Some?
  {
    forall id | id in shapes
      ensures ParseField(Encode(shapes)[id]) == Some((shapes[id].sn, shapes[id].shape))
    {
      FieldRoundTrip(shapes[id].sn, shapes[id].shape);
    }
  }

  lemma {:induction false} SetPairsEncodes(xs: seq<SnapshotShape>)
    ensures SetPairs(map[], Pairs(xs)) == Encode(Load(xs))
  {
    if xs == [] {
    } else {
      var ys := xs[..|xs| - 1];
      SetPairsEncodes(ys);
      assert Pairs(xs)[..|Pairs(xs)| - 2] == Pairs(ys);
    }
  }

  lemma EncodePut(shapes: map<ShapeId, Stored>, id: ShapeId, s: Stored)
    ensures Encode(shapes[id := s]) == Encode(shapes)[id := Print(s.sn) + "\n" + s.shape]
  {
  }

  lemma EncodeDel(shapes: map<ShapeId, Stored>, id: ShapeId)
    ensures Encode(shapes - {id}) == Encode(shapes) - {id}
  {
  }

  lemma IncrRefines(k: Keyspace, id: BoardId, b: Board)
    requires RelatedBoard(k, id, b)
    ensures Incr(k, SeqKey(id)) == Some(b.sn + 1)
  {
    PrintParses(b.sn);
  }

  lemma PutRefines(k: Keyspace, b: BoardId, cur: Board, id: ShapeId, blob: Blob)
    requires RelatedBoard(k, b, cur) && cur.sn + 1 < LUA_LIMIT
    ensures RelatedBoard(RedisNext(k, ApplyShape(b, Put(id, blob))), b, Apply(cur, Put(id, blob)))
  {
    IncrRefines(k, b, cur);
    EncodePut(cur.shapes, id, Stored(cur.sn + 1, blob));
  }

  lemma DelRefines(k: Keyspace, b: BoardId, cur: Board, id: ShapeId)
    requires RelatedBoard(k, b, cur) && cur.sn + 1 < LUA_LIMIT
    ensures RelatedBoard(RedisNext(k, ApplyShape(b, Del(id))), b, Apply(cur, Del(id)))
  {
    IncrRefines(k, b, cur);
    EncodeDel(cur.shapes, id);
  }

  lemma ApplyRefines(k: Keyspace, m: Boards, b: BoardId, op: Op)
    requires Related(k, m) && Get(m, b).sn + 1 < LUA_LIMIT
    ensures RelatedBoard(RedisNext(k, ApplyShape(b, op)), b, Get(Next(m, ApplyShape(b, op)), b))
    ensures Incr(k, SeqKey(b)) == Some(Get(m, b).sn + 1)
  {
    var cur := Get(m, b);
    assert RelatedBoard(k, b, cur);
    IncrRefines(k, b, cur);
    match op
    case Put(id, blob) => PutRefines(k, b, cur, id, blob);
    case Del(id) => DelRefines(k, b, cur, id);
  }

  lemma HydrateRefines(k: Keyspace, m: Boards, b: BoardId, snap: Snapshot)
    requires Related(k, m) && Admissible(m, Hydrate(b, snap))
    ensures RelatedBoard(RedisNext(k, Hydrate(b, snap)), b, Get(Next(m, Hydrate(b, snap)), b))
    ensures HasState(Get(m, b)) <==> SeqKey(b) in k.strings
  {
    var cur := Get(m, b);
    assert RelatedBoard(k, b, cur);
    forall id
      ensures id in Load(snap.shapes) ==> Load(snap.shapes)[id].sn < TWO_64
    {
      LoadEntries(snap.shapes, id);
    }
    if |cur.shapes| > 0 {
      var id :| id in cur.shapes;
    }
    if SeqKey(b) !in k.strings {
      assert cur.shapes == map[];
      var argv := [Print(snap.sn)] + Pairs(snap.shapes);
      assert argv[1..] == Pairs(snap.shapes);
      SetPairsEncodes(snap.shapes);
      assert HashAt(k, ShapesKey(b)) == map[];
    }
  }

  /** One call: the states stay related and both brokers give the same replies. */
  lemma StepRefines(k: Keyspace, m: Boards, c: Call)
    requires Related(k, m) && Admissible(m, c)
    ensures Related(RedisNext(k, c), Next(m, c))
    ensures forall r :: RedisReplies(k, c, r) <==> Replies(m, c, r)
  {
    assert RelatedBoard(k, c.board, Get(m, c.board));
    match c
    case ApplyShape(b, op) =>
      ApplyRefines(k, m, b, op);
      OtherBoardsKept(k, m, c);
    case Hydrate(b, snap) =>
      HydrateRefines(k, m, b, snap);
      OtherBoardsKept(k, m, c);
    case ReadSnapshot(b) =>
      PrintParses(Get(m, b).sn);
      DecodeEncode(Get(m, b).shapes);
  }

  lemma OtherBoardsKept(k: Keyspace, m: Boards, c: Call)
    requires Related(k, m)
    ensures forall id :: id != c.board ==> RelatedBoard(RedisNext(k, c), id, Get(Next(m, c), id))
  {
    forall id | id != c.board
      ensures RelatedBoard(RedisNext(k, c), id, Get(Next(m, c), id))
    {
      KeysInjective(id, c.board);
      assert RelatedBoard(k, id, Get(m, id));
    }
  }

  ghost predicate AllAdmissible(m: Boards, cs: seq<Call>) {
    forall i :: 0 <= i < |cs| ==> Admissible(RunAll(m, cs[..i]), cs[i])
  }

  lemma {:induction false} RunRefines(k: Keyspace, m: Boards, cs: seq<Call>)
    requires Related(k, m) && AllAdmissible(m, cs)
    ensures Related(RedisRunAll(k, cs), RunAll(m, cs))
  {
    if cs == [] {
    } else {
      var n := |cs| - 1;
      var before := cs[..n];
      AdmissiblePrefix(m, cs, n);
      RunRefines(k, m, before);
      assert Admissible(RunAll(m, cs[..n]), cs[n]);
      StepRefines(RedisRunAll(k, before), RunAll(m, before), cs[n]);
    }
  }

  lemma AdmissiblePrefix(m: Boards, cs: seq<Call>, i: nat)
    requires AllAdmissible(m, cs) && i <= |cs|
    ensures AllAdmissible(m, cs[..i])
  {
    forall j | 0 <= j < i
      ensures Admissible(RunAll(m, cs[..i][..j]), cs[..i][j])
    {
      assert cs[..i][..j] == cs[..j];
    }
  }

  /** Main result: over every admissible sequence of calls from empty brokers, Redis and
      Memory stay in related states and every call has exactly the same possible replies. */
  lemma RedisRefinesMemory(cs: seq<Call>, i: nat, r: Reply)
    requires AllAdmissible(map[], cs) && i < |cs|
    ensures Related(RedisRunAll(Keyspace(map[], map[]), cs), RunAll(map[], cs))
    ensures RedisReplies(RedisRunAll(Keyspace(map[], map[]), cs[..i]), cs[i], r)
            <==> Replies(RunAll(map[], cs[..i]), cs[i], r)
  {
    assert Related(Keyspace(map[], map[]), map[]);
    RunRefines(Keyspace(map[], map[]), map[], cs);
    AdmissiblePrefix(map[], cs, i);
    RunRefines(Keyspace(map[], map[]), map[], cs[..i]);
    StepRefines(RedisRunAll(Keyspace(map[], map[]), cs[..i]), RunAll(map[], cs[..i]), cs[i]);
  }

  /** A related board's one snapshot is the only reply either broker can give. */
  lemma SnapshotReplyUnique(k: Keyspace, m: Boards, b: BoardId, r: Reply, r': Reply)
    requires Related(k, m) && WellFormed(Get(m, b))
    requires RedisReplies(k, ReadSnapshot(b), r) && Replies(m, ReadSnapshot(b), r')
    ensures r == r' && IsSnapshot(r.snap, Get(m, b))
  {
    StepRefines(k, m, ReadSnapshot(b));
    ArrangedIsSnapshot(r.snap.shapes, Get(m, b));
    ArrangedIsSnapshot(r'.snap.shapes, Get(m, b));
    SnapshotUnique(r.snap, r'.snap, Get(m, b));
  }

  /** Why the bound is there: the first number Lua prints with an exponent is read back
      as 0 by the next snapshot. */
  lemma ShapeNumberLostAtLimit(k: Keyspace, m: Boards, b: BoardId, id: ShapeId, blob: Blob)
    requires Related(k, m)
    ensures var h := HashAt(RedisNext(k, ApplyShape(b, Put(id, blob))), ShapesKey(b));
      var n := Get(m, b).sn + 1;
      id in Decode(h) && Decode(h)[id] == Stored(n, blob) <==> n < LUA_LIMIT
  {
    assert RelatedBoard(k, b, Get(m, b));
    PutWritesField(k, b, Get(m, b), id, blob);
    var h := HashAt(RedisNext(k, ApplyShape(b, Put(id, blob))), ShapesKey(b));
    FieldDecodesIffSmall(h, id, Get(m, b).sn + 1, blob);
  }

  lemma FieldDecodesIffSmall(h: Hash, id: ShapeId, n: nat, blob: Blob)
    requires id in h && h[id] == LuaNumber(n) + "\n" + blob
    ensures id in Decode(h) && Decode(h)[id] == Stored(n, blob) <==> n < LUA_LIMIT
  {
    LuaFieldRoundTripsIffSmall(n, blob);
  }

  lemma PutWritesField(k: Keyspace, b: BoardId, cur: Board, id: ShapeId, blob: Blob)
    requires RelatedBoard(k, b, cur)
    ensures var h := HashAt(RedisNext(k, ApplyShape(b, Put(id, blob))), ShapesKey(b));
      id in h && h[id] == LuaNumber(cur.sn + 1) + "\n" + blob
  {
    IncrRefines(k, b, cur);
  }

  /** The two hydration guards differ: a second hydration is refused by Redis and
      accepted by Memory exactly when the first snapshot was numbered 0 and empty. */
  lemma HydrateGuardsAgreeIffNumbered(b: BoardId, s: Snapshot)
    ensures var c := Hydrate(b, s);
      (SeqKey(b) in RedisNext(Keyspace(map[], map[]), c).strings <==> HasState(Get(Next(map[], c), b)))
      <==> s.sn > 0 || s.shapes != []
  {
    if s.shapes != [] {
      LoadEntries(s.shapes, s.shapes[0].id);
      assert s.shapes[0].id in Load(s.shapes);
    }
  }
}
