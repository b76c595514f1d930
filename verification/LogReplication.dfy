/** Two nodes that copy each other's history log: chunks read by the one,
    records appended by the other unless their hash is known there. */
module LogReplication {
  import opened FedTypes
  import opened HistoryLog

  /** Records are compared by `hash`; `records` are all the bodies ever written. */
  datatype World = World(hash: Bytes -> u64, decodes: Bytes -> bool, records: set<Bytes>)

  datatype Node = Node(file: Bytes, known: set<u64>)

  /** One direction of copying: what the receiver has saved as copied, where the
      sender reads on, and the chunks on their way. */
  datatype Feed = Feed(cursor: nat, up: bool, offset: nat, flight: seq<Chunk>)

  datatype Side = A | B

  /** `intoA` is the feed from B to A. */
  datatype Pair = Pair(a: Node, b: Node, intoA: Feed, intoB: Feed)

  datatype Event =
    | Append(side: Side, body: Bytes)
    | Connect(side: Side)
    | Disconnect(side: Side)
    | Serve(side: Side, max: nat)
    | Receive(side: Side)

  function Peer(s: Side): Side {
    if s == A then B else A
  }

  function NodeOf(p: Pair, s: Side): Node {
    if s == A then p.a else p.b
  }

  function FeedOf(p: Pair, s: Side): Feed {
    if s == A then p.intoA else p.intoB
  }

  function WithNode(p: Pair, s: Side, n: Node): (r: Pair)
    ensures NodeOf(r, s) == n && NodeOf(r, Peer(s)) == NodeOf(p, Peer(s)) && forall t :: FeedOf(r, t) == FeedOf(p, t)
  {
    if s == A then p.(a := n) else p.(b := n)
  }

  function WithFeed(p: Pair, s: Side, f: Feed): (r: Pair)
    ensures FeedOf(r, s) == f && FeedOf(r, Peer(s)) == FeedOf(p, Peer(s)) && forall t :: NodeOf(r, t) == NodeOf(p, t)
  {
    if s == A then p.(intoA := f) else p.(intoB := f)
  }

  function Records(n: Node): set<Bytes> {
    Elems(Split(n.file).bodies)
  }

  function Appended(w: World, n: Node, body: Bytes): Node {
    Node(n.file + Frame(body), n.known + {w.hash(body)})
  }

  function Copied(w: World, n: Node, body: Bytes): Node {
    if w.hash(body) in n.known || !w.decodes(body) then n else Appended(w, n, body)
  }

  /** Every record of a chunk in turn. */
  function CopiedAll(w: World, n: Node, bodies: seq<Bytes>): Node
    decreases |bodies|
  {
    if bodies == [] then n else CopiedAll(w, Copied(w, n, bodies[0]), bodies[1..])
  }

  predicate Enabled(w: World, p: Pair, e: Event) {
    match e
    case Append(_, body) => body in w.records
    case Connect(_) => true
    case Disconnect(_) => true
    case Serve(s, _) => FeedOf(p, s).up
    case Receive(s) => FeedOf(p, s).up && FeedOf(p, s).flight != []
  }

  function Next(w: World, p: Pair, e: Event): Pair
    requires Enabled(w, p, e)
  {
    match e
    case Append(s, body) => WithNode(p, s, Appended(w, NodeOf(p, s), body))
    case Connect(s) =>
      var f := FeedOf(p, s);
      WithFeed(p, s, f.(up := true, offset := f.cursor, flight := []))
    case Disconnect(s) => WithFeed(p, s, FeedOf(p, s).(up := false, flight := []))
    case Serve(s, max) =>
      var f := FeedOf(p, s);
      var c := Read(NodeOf(p, Peer(s)).file, f.offset, max);
      WithFeed(p, s, f.(offset := c.end, flight := f.flight + if c.frames == [] then [] else [c]))
    case Receive(s) =>
      var f := FeedOf(p, s);
      var c := f.flight[0];
      WithFeed(WithNode(p, s, CopiedAll(w, NodeOf(p, s), Split(c.frames).bodies)), s,
               f.(cursor := c.end, flight := f.flight[1..]))
  }

  // ----- the class does the copying -----

  /** The receive loop of one chunk, on the log it appends to. */
  method ReceiveChunk(w: World, store: Store, frames: Bytes) returns (added: nat)
    requires store.hash == w.hash && store.decodes == w.decodes
    modifies store
    ensures Node(store.file, store.known) == CopiedAll(w, old(Node(store.file, store.known)), Split(frames).bodies)
    ensures added == 0 <==> store.file == old(store.file)
  {
    hide Frame;
    var split := SplitFrames(frames);
    var todo := split.bodies;
    added := 0;
    while todo != []
      invariant CopiedAll(w, Node(store.file, store.known), todo) ==
        CopiedAll(w, old(Node(store.file, store.known)), split.bodies)
      invariant |store.file| >= |old(store.file)|
      invariant if added == 0 then store.file == old(store.file) else |store.file| > |old(store.file)|
      decreases |todo|
    {
      ghost var before := Node(store.file, store.known);
      var ok := store.AppendReplicated(todo[0]);
      FrameSize(todo[0]);
      assert Node(store.file, store.known) == Copied(w, before, todo[0]);
      added := added + if ok then 1 else 0;
      todo := todo[1..];
    }
  }

  // ----- what always holds -----

  /** The hash tells the records involved apart; all of them fit and decode. */
  ghost predicate Sane(w: World) {
    && (forall x, y :: x in w.records && y in w.records && w.hash(x) == w.hash(y) ==> x == y)
    && forall x :: x in w.records ==> w.decodes(x) && |x| < FRAME_LIMIT
  }

  function Hashes(w: World, bodies: set<Bytes>): set<u64> {
    set x | x in bodies :: w.hash(x)
  }

  ghost predicate NodeOk(w: World, n: Node) {
    Whole(n.file) && Records(n) <= w.records && n.known == Hashes(w, Records(n))
  }

  /** Chunks that lead from one boundary of `file` to another without a gap. */
  ghost predicate Chained(file: Bytes, from: nat, flight: seq<Chunk>, to: nat)
    decreases |flight|
  {
    if flight == [] then from == to && OnBoundary(file, to)
    else
      && flight[0].start == from && Piece(file, flight[0])
      && Chained(file, flight[0].end, flight[1..], to)
  }

  /** Records before the saved position are present here; what is under way
      continues from there. */
  ghost predicate FeedOk(f: Feed, from: Node, to: Node) {
    && OnBoundary(from.file, f.cursor)
    && Elems(Split(from.file[..f.cursor]).bodies) <= Records(to)
    && (f.up ==> Chained(from.file, f.cursor, f.flight, f.offset))
  }

  ghost predicate PairOk(w: World, p: Pair) {
    forall s :: NodeOk(w, NodeOf(p, s)) && FeedOk(FeedOf(p, s), NodeOf(p, Peer(s)), NodeOf(p, s))
  }

  lemma ElemsJoin(a: seq<Bytes>, b: seq<Bytes>)
    ensures Elems(a + b) == Elems(a) + Elems(b)
  {
  }

  lemma AppendedRecords(w: World, n: Node, body: Bytes)
    requires Whole(n.file) && |body| < FRAME_LIMIT
    ensures Records(Appended(w, n, body)) == Records(n) + {body} && Whole(Appended(w, n, body).file)
  {
    hide Split, Frame;
    AppendedIff(n.file, body);
    assert Elems([body]) == {body};
    ElemsJoin(Split(n.file).bodies, [body]);
  }

  lemma AppendedOk(w: World, n: Node, body: Bytes)
    requires Sane(w) && NodeOk(w, n) && body in w.records
    ensures NodeOk(w, Appended(w, n, body)) && Records(Appended(w, n, body)) == Records(n) + {body}
  {
    AppendedRecords(w, n, body);
  }

  /** Whatever order records come in, exactly those missing are appended. */
  lemma {:induction false} CopiedAllOk(w: World, n: Node, bodies: seq<Bytes>)
    requires Sane(w) && NodeOk(w, n) && Elems(bodies) <= w.records
    ensures var n' := CopiedAll(w, n, bodies);
      && NodeOk(w, n') && Records(n') == Records(n) + Elems(bodies)
      && n.file <= n'.file && (n' == n <==> Elems(bodies) <= Records(n))
    decreases |bodies|
  {
    hide Split, Frame;
    if bodies != [] {
      var body := bodies[0];
      assert body in Elems(bodies) && bodies == [body] + bodies[1..];
      ElemsJoin([body], bodies[1..]);
      AppendedOk(w, n, body);
      HashTells(w, n, body);
      CopiedAllOk(w, Copied(w, n, body), bodies[1..]);
      FrameSize(body);
    }
  }

  lemma HashTells(w: World, n: Node, body: Bytes)
    requires Sane(w) && NodeOk(w, n) && body in w.records
    ensures w.hash(body) in n.known <==> body in Records(n)
  {
  }

  /** Without that assumption a record that decodes is kept exactly if it is
      held already or no record held shares its hash. */
  lemma CopiedIff(w: World, n: Node, body: Bytes)
    requires Whole(n.file) && n.known == Hashes(w, Records(n)) && |body| < FRAME_LIMIT && w.decodes(body)
    ensures body in Records(Copied(w, n, body)) <==>
      (body in Records(n) || forall x :: x in Records(n) ==> w.hash(x) != w.hash(body))
  {
    AppendedRecords(w, n, body);
  }

  lemma BoundaryStays(file: Bytes, file': Bytes, at: nat)
    requires file <= file'
    requires OnBoundary(file, at)
    ensures OnBoundary(file', at) && file'[..at] == file[..at]
  {
    assert file'[..at] == file[..at];
  }

  lemma {:induction false} ChainedStays(file: Bytes, file': Bytes, from: nat, flight: seq<Chunk>, to: nat)
    requires file <= file' && Chained(file, from, flight, to)
    ensures Chained(file', from, flight, to)
    decreases |flight|
  {
    hide Whole, Split;
    if flight == [] {
      BoundaryStays(file, file', to);
    } else {
      BoundaryStays(file, file', flight[0].start);
      BoundaryStays(file, file', flight[0].end);
      assert file'[flight[0].start..flight[0].end] == file[flight[0].start..flight[0].end];
      ChainedStays(file, file', flight[0].end, flight[1..], to);
    }
  }

  /** A node whose log grows keeps both feeds sound. */
  lemma NodeGrows(w: World, p: Pair, s: Side, n: Node)
    requires PairOk(w, p) && NodeOk(w, n) && NodeOf(p, s).file <= n.file && Records(NodeOf(p, s)) <= Records(n)
    ensures PairOk(w, WithNode(p, s, n))
  {
    hide NodeOk, Records, OnBoundary;
    var p' := WithNode(p, s, n);
    forall t ensures NodeOk(w, NodeOf(p', t)) && FeedOk(FeedOf(p', t), NodeOf(p', Peer(t)), NodeOf(p', t)) {
      assert NodeOk(w, NodeOf(p, t));
      FeedStays(FeedOf(p, t), NodeOf(p, Peer(t)), NodeOf(p', Peer(t)), NodeOf(p, t), NodeOf(p', t));
    }
  }

  lemma FeedStays(f: Feed, from: Node, from': Node, to: Node, to': Node)
    requires FeedOk(f, from, to) && from.file <= from'.file && Records(to) <= Records(to')
    ensures FeedOk(f, from', to')
  {
    hide Records, OnBoundary, Split;
    BoundaryStays(from.file, from'.file, f.cursor);
    if f.up {
      ChainedStays(from.file, from'.file, f.cursor, f.flight, f.offset);
    }
  }

  lemma FeedChanges(w: World, p: Pair, s: Side, f: Feed)
    requires PairOk(w, p) && FeedOk(f, NodeOf(p, Peer(s)), NodeOf(p, s))
    ensures PairOk(w, WithFeed(p, s, f))
  {
    hide NodeOk, FeedOk;
    var p' := WithFeed(p, s, f);
    forall t ensures NodeOk(w, NodeOf(p', t)) && FeedOk(FeedOf(p', t), NodeOf(p', Peer(t)), NodeOf(p', t)) {
      assert NodeOk(w, NodeOf(p, t)) && FeedOk(FeedOf(p, t), NodeOf(p, Peer(t)), NodeOf(p, t));
    }
  }

  lemma {:induction false} ChainedEnd(file: Bytes, from: nat, flight: seq<Chunk>, to: nat)
    requires Chained(file, from, flight, to)
    ensures OnBoundary(file, to)
    decreases |flight|
  {
    if flight != [] {
      ChainedEnd(file, flight[0].end, flight[1..], to);
    }
  }

  lemma {:induction false} ChainedOn(file: Bytes, from: nat, flight: seq<Chunk>, c: Chunk)
    requires Chained(file, from, flight, c.start) && Piece(file, c)
    ensures Chained(file, from, flight + [c], c.end)
    decreases |flight|
  {
    hide Piece, Whole;
    if flight == [] {
      PieceEnds(file, c);
      assert (flight + [c])[1..] == [];
    } else {
      ChainedOn(file, flight[0].end, flight[1..], c);
      assert (flight + [c])[1..] == flight[1..] + [c];
    }
  }

  lemma PieceEnds(file: Bytes, c: Chunk)
    requires Piece(file, c)
    ensures c.start <= c.end <= |file| && OnBoundary(file, c.end)
  {
  }

  lemma ServeOk(w: World, p: Pair, s: Side, max: nat)
    requires PairOk(w, p) && Enabled(w, p, Serve(s, max))
    ensures PairOk(w, Next(w, p, Serve(s, max)))
  {
    hide NodeOk, Records, Read, Whole, Split;
    var f := FeedOf(p, s);
    var file := NodeOf(p, Peer(s)).file;
    assert FeedOk(f, NodeOf(p, Peer(s)), NodeOf(p, s));
    ChainedEnd(file, f.cursor, f.flight, f.offset);
    ReadTakes(file, f.offset, max);
    ReadKeepsBoundary(file, f.offset, max);
    var c := Read(file, f.offset, max);
    if c.frames != [] {
      ChainedOn(file, f.cursor, f.flight, c);
    } else {
      assert c.end == f.offset && f.flight + [] == f.flight;
    }
    FeedChanges(w, p, s, FeedOf(Next(w, p, Serve(s, max)), s));
  }

  /** The records of a chunk are those between its two ends. */
  lemma PieceRecords(file: Bytes, c: Chunk)
    requires Piece(file, c) && Whole(file)
    ensures Split(file[..c.end]).bodies == Split(file[..c.start]).bodies + Split(c.frames).bodies
    ensures Elems(Split(c.frames).bodies) <= Elems(Split(file).bodies)
  {
    hide Split;
    SplitJoin(file[..c.start], c.frames);
    assert file[..c.end] == file[..c.start] + c.frames;
    SplitJoin(file[..c.end], file[c.end..]);
    assert file == file[..c.end] + file[c.end..];
    ElemsJoin(Split(file[..c.start]).bodies, Split(c.frames).bodies);
    ElemsJoin(Split(file[..c.end]).bodies, Split(file[c.end..]).bodies);
  }

  lemma ReceiveOk(w: World, p: Pair, s: Side)
    requires Sane(w) && PairOk(w, p) && Enabled(w, p, Receive(s))
    ensures PairOk(w, Next(w, p, Receive(s)))
    ensures var n := NodeOf(Next(w, p, Receive(s)), s);
      NodeOf(p, s).file <= n.file && Records(NodeOf(p, s)) <= Records(n)
  {
    hide Split, OnBoundary, CopiedAll;
    var (f, n, from) := (FeedOf(p, s), NodeOf(p, s), NodeOf(p, Peer(s)));
    var c := f.flight[0];
    assert NodeOk(w, n) && NodeOk(w, from) && FeedOk(f, from, n);
    PieceRecords(from.file, c);
    CopiedAllOk(w, n, Split(c.frames).bodies);
    var n' := CopiedAll(w, n, Split(c.frames).bodies);
    NodeGrows(w, p, s, n');
    PieceEnds(from.file, c);
    ElemsJoin(Split(from.file[..c.start]).bodies, Split(c.frames).bodies);
    FeedChanges(w, WithNode(p, s, n'), s, f.(cursor := c.end, flight := f.flight[1..]));
  }

  /** Every step keeps the pair sound: hashes match the log, logs are whole, and
      no record of the peer before the saved position is missing. */
  lemma NextPairOk(w: World, p: Pair, e: Event)
    requires Sane(w) && PairOk(w, p) && Enabled(w, p, e)
    ensures PairOk(w, Next(w, p, e))
  {
    hide Whole, Split, OnBoundary, Records, CopiedAll;
    assert NodeOk(w, NodeOf(p, e.side)) && FeedOk(FeedOf(p, e.side), NodeOf(p, Peer(e.side)), NodeOf(p, e.side));
    match e
    case Append(s, body) =>
      AppendedOk(w, NodeOf(p, s), body);
      NodeGrows(w, p, s, Appended(w, NodeOf(p, s), body));
    case Connect(s) => FeedChanges(w, p, s, FeedOf(Next(w, p, e), s));
    case Disconnect(s) => FeedChanges(w, p, s, FeedOf(Next(w, p, e), s));
    case Serve(s, max) => ServeOk(w, p, s, max);
    case Receive(s) => ReceiveOk(w, p, s);
  }

  ghost predicate Legal(w: World, p: Pair, es: seq<Event>)
    decreases es
  {
    es != [] ==> Enabled(w, p, es[0]) && Legal(w, Next(w, p, es[0]), es[1..])
  }

  ghost function After(w: World, p: Pair, es: seq<Event>): Pair
    requires Legal(w, p, es)
    decreases es
  {
    if es == [] then p else After(w, Next(w, p, es[0]), es[1..])
  }

  const Start := Pair(Node([], {}), Node([], {}), Feed(0, false, 0, []), Feed(0, false, 0, []))

  lemma StartOk(w: World)
    ensures PairOk(w, Start)
  {
    assert Split([]) == Frames([], 0);
  }

  lemma {:induction false} AlwaysPairOk(w: World, p: Pair, es: seq<Event>)
    requires Sane(w) && PairOk(w, p) && Legal(w, p, es)
    ensures PairOk(w, After(w, p, es))
    decreases es
  {
    hide PairOk, Next, Enabled;
    if es != [] {
      NextPairOk(w, p, es[0]);
      AlwaysPairOk(w, Next(w, p, es[0]), es[1..]);
    }
  }

  // ----- drained -----

  /** Everything the peer has is saved as copied. */
  predicate Drained(p: Pair, s: Side) {
    FeedOf(p, s).cursor == |NodeOf(p, Peer(s)).file|
  }

  lemma DrainedHasAll(w: World, p: Pair, s: Side)
    requires PairOk(w, p) && Drained(p, s)
    ensures Records(NodeOf(p, Peer(s))) <= Records(NodeOf(p, s))
  {
    hide Split;
    var (f, from) := (FeedOf(p, s), NodeOf(p, Peer(s)));
    assert FeedOk(f, from, NodeOf(p, s));
    assert from.file[..f.cursor] == from.file;
  }

  /** After any run from empty logs that leaves both directions drained, both
      logs hold the same records, and receiving more appends nothing. */
  lemma DrainedEqual(w: World, es: seq<Event>)
    requires Sane(w) && Legal(w, Start, es)
    requires var end := After(w, Start, es); Drained(end, A) && Drained(end, B)
    ensures var end := After(w, Start, es); Records(end.a) == Records(end.b)
  {
    hide PairOk, Next, Records;
    StartOk(w);
    AlwaysPairOk(w, Start, es);
    var end := After(w, Start, es);
    DrainedHasAll(w, end, A);
    DrainedHasAll(w, end, B);
    assert NodeOf(end, A) == end.a && NodeOf(end, B) == end.b;
  }

  /** A chunk brings nothing new exactly if the peer's records in it are here;
      so between logs that hold the same records no pull appends anything. */
  lemma EqualStays(w: World, p: Pair, e: Event)
    requires Sane(w) && PairOk(w, p) && Enabled(w, p, e) && !e.Append? && Records(p.a) == Records(p.b)
    ensures var p' := Next(w, p, e); p'.a == p.a && p'.b == p.b
  {
    hide Split, CopiedAll, OnBoundary, Read;
    if e.Receive? {
      var (f, n, from) := (FeedOf(p, e.side), NodeOf(p, e.side), NodeOf(p, Peer(e.side)));
      assert NodeOk(w, n) && NodeOk(w, from) && FeedOk(f, from, n);
      PieceRecords(from.file, f.flight[0]);
      CopiedAllOk(w, n, Split(f.flight[0].frames).bodies);
    }
  }

  lemma {:induction false} EqualForever(w: World, p: Pair, es: seq<Event>)
    requires Sane(w) && PairOk(w, p) && Legal(w, p, es) && Records(p.a) == Records(p.b)
    requires forall e :: e in es ==> !e.Append?
    ensures After(w, p, es).a == p.a && After(w, p, es).b == p.b
    decreases es
  {
    hide PairOk, Next, Enabled, Records;
    if es != [] {
      assert es[0] in es && forall e :: e in es[1..] ==> e in es;
      NextPairOk(w, p, es[0]);
      EqualStays(w, p, es[0]);
      EqualForever(w, Next(w, p, es[0]), es[1..]);
    }
  }

  // ----- copying all there is -----

  /** A connection that serves until nothing is left, each chunk received as it
      comes, and no other step in between. */
  function CopyRest(w: World, from: Bytes, cursor: nat, n: Node, max: nat): (r: (Node, nat))
    requires cursor <= |from| && max >= 4
    decreases |from| - cursor
  {
    ReadTakes(from, cursor, max);
    var c := Read(from, cursor, max);
    if c.frames == [] then (n, c.end) else CopyRest(w, from, c.end, CopiedAll(w, n, Split(c.frames).bodies), max)
  }

  lemma {:induction false} CopyRestGetsAll(w: World, from: Node, cursor: nat, n: Node, max: nat)
    requires Sane(w) && NodeOk(w, from) && NodeOk(w, n) && OnBoundary(from.file, cursor) && max >= 4
    requires Elems(Split(from.file[..cursor]).bodies) <= Records(n)
    ensures var r := CopyRest(w, from.file, cursor, n, max);
      NodeOk(w, r.0) && Records(r.0) == Records(n) + Records(from) && r.1 == |from.file|
    decreases |from.file| - cursor
  {
    hide Split, CopiedAll, Read, HasFrame;
    ReadTakes(from.file, cursor, max);
    ReadKeepsBoundary(from.file, cursor, max);
    var c := Read(from.file, cursor, max);
    if c.frames == [] {
      BoundaryEnd(from.file, cursor);
      assert from.file[..cursor] == from.file;
    } else {
      PieceRecords(from.file, c);
      CopiedAllOk(w, n, Split(c.frames).bodies);
      ElemsJoin(Split(from.file[..c.start]).bodies, Split(c.frames).bodies);
      CopyRestGetsAll(w, from, c.end, CopiedAll(w, n, Split(c.frames).bodies), max);
    }
  }

  /** One pull in each direction, in either order of roles, makes the logs equal. */
  lemma TwoPullsAgree(w: World, p: Pair, s: Side, max: nat)
    requires Sane(w) && PairOk(w, p) && max >= 4
    ensures var (mine, yours) := (NodeOf(p, s), NodeOf(p, Peer(s)));
      && FeedOf(p, s).cursor <= |yours.file| && FeedOf(p, Peer(s)).cursor <= |mine.file|
      && var mine' := CopyRest(w, yours.file, FeedOf(p, s).cursor, mine, max).0;
      && FeedOf(p, Peer(s)).cursor <= |mine'.file|
      && var yours' := CopyRest(w, mine'.file, FeedOf(p, Peer(s)).cursor, yours, max).0;
      Records(mine') == Records(yours') == Records(mine) + Records(yours)
  {
    hide Split, CopyRest;
    var (mine, yours) := (NodeOf(p, s), NodeOf(p, Peer(s)));
    var (f, g) := (FeedOf(p, s), FeedOf(p, Peer(s)));
    assert NodeOk(w, mine) && NodeOk(w, yours) && FeedOk(f, yours, mine) && FeedOk(g, mine, yours);
    CopyRestGetsAll(w, yours, f.cursor, mine, max);
    var mine' := CopyRest(w, yours.file, f.cursor, mine, max).0;
    CopyRestGrows(w, yours, f.cursor, mine, max);
    BoundaryStays(mine.file, mine'.file, g.cursor);
    CopyRestGetsAll(w, mine', g.cursor, yours, max);
  }

  lemma {:induction false} CopyRestGrows(w: World, from: Node, cursor: nat, n: Node, max: nat)
    requires cursor <= |from.file| && max >= 4
    ensures n.file <= CopyRest(w, from.file, cursor, n, max).0.file
    decreases |from.file| - cursor
  {
    hide Split, CopiedAll, Read, HasFrame;
    ReadTakes(from.file, cursor, max);
    var c := Read(from.file, cursor, max);
    if c.frames != [] {
      CopiedAllGrows(w, n, Split(c.frames).bodies);
      CopyRestGrows(w, from, c.end, CopiedAll(w, n, Split(c.frames).bodies), max);
    }
  }

  lemma {:induction false} CopiedAllGrows(w: World, n: Node, bodies: seq<Bytes>)
    ensures n.file <= CopiedAll(w, n, bodies).file
    decreases |bodies|
  {
    if bodies != [] {
      CopiedAllGrows(w, Copied(w, n, bodies[0]), bodies[1..]);
    }
  }
}
