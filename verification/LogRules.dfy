/** The history log in bytes, and what copying it between two nodes does, stated
    outright. */
module LogRules {
  import opened FedTypes
  import opened ByteOrder
  import opened HistoryLog
  import opened LogReplication
  import WireRules

  // ----- frames -----

  /** A frame is the record behind its length in four bytes, the lowest first. */
  lemma FrameBytes(body: Bytes)
    ensures var f := Frame(body);
      && |f| == 4 + |body| && f[4..] == body && WireRules.Four(f, 0) == |body| % 0x1_0000_0000
  {
    hide Le, FromLe, Pow256;
    FrameLength(body, []);
    assert Frame(body) + [] == Frame(body) && body + [] == body;
    WireRules.FourIs(Frame(body)[..4]);
  }

  lemma LengthBytes(buf: Bytes)
    requires |buf| >= 4
    ensures LengthAt(buf) == WireRules.Four(buf, 0)
  {
    WireRules.FourIs(buf[..4]);
  }

  /** One record after the other is split off as long as all its bytes are there. */
  lemma SplitRule(buf: Bytes)
    ensures var (r, there) := (Split(buf), |buf| >= 4 && 4 + WireRules.Four(buf, 0) <= |buf|);
      if !there then r.bodies == [] && r.used == 0
      else
        && 0 < |r.bodies| && r.bodies[0] == buf[4..4 + WireRules.Four(buf, 0)]
        && r.bodies[1..] == Split(buf[4 + WireRules.Four(buf, 0)..]).bodies
        && r.used == 4 + WireRules.Four(buf, 0) + Split(buf[4 + WireRules.Four(buf, 0)..]).used
  {
    hide LengthAt, WireRules.Four;
    if |buf| >= 4 { LengthBytes(buf); }
  }

  // ----- reading -----

  /** A read past the end starts over. */
  lemma ReadPastEnd(file: Bytes, offset: nat, max: nat)
    requires offset > |file|
    ensures Read(file, offset, max) == Read(file, 0, max)
  {
  }

  /** A read keeps to its limit, unless it takes a single record that is larger; and
      it stops only where the next record is torn or would pass the limit. */
  lemma ReadFills(file: Bytes, offset: nat, max: nat)
    requires offset <= |file|
    ensures var c := Read(file, offset, max);
      && (|c.frames| > max ==> |Split(c.frames).bodies| == 1)
      && (HasFrame(file[c.end..]) && max >= 4 ==>
            c.end > offset && |c.frames| + 4 + LengthAt(file[c.end..]) > max)
  {
    hide Read, Taken, HasFrame, LengthAt, Split;
    ReadIs(file, offset, max);
    ReadTakes(file, offset, max);
    var (rest, r) := (file[offset..], Taken(file[offset..], max));
    assert file[Read(file, offset, max).end..] == rest[|r|..];
    TakenFills(rest, max);
  }

  lemma TakenFills(rest: Bytes, max: nat)
    ensures var r := Taken(rest, max);
      && (|r| > max ==> |Split(r).bodies| == 1)
      && (HasFrame(rest[|r|..]) && max >= 4 ==> |r| > 0 && |r| + 4 + LengthAt(rest[|r|..]) > max)
  {
    hide LengthAt;
    TakenWhole(rest, max);
    var (buf, r) := (rest[..if max <= |rest| then max else |rest|], Taken(rest, max));
    if Split(buf).bodies == [] && |buf| >= 4 && 4 + LengthAt(buf) <= |rest| {
      LengthIn(buf, rest);
      LengthIn(r, rest);
      OneFrame(rest);
      assert r == rest[..4 + LengthAt(rest)];
      assert !HasFrame(buf);
    } else {
      SplitTail(buf);
      if HasFrame(rest[|r|..]) && |r| + 4 + LengthAt(rest[|r|..]) <= |buf| {
        LengthIn(buf[|r|..], rest[|r|..]);
      }
      if r == [] && HasFrame(rest) && |buf| >= 4 { LengthIn(buf, rest); }
    }
  }

  // ----- copying -----

  function Other(s: Side): Side {
    match s case A => B case B => A
  }

  lemma AppendRule(w: World, p: Pair, s: Side, body: Bytes)
    requires Enabled(w, p, Append(s, body))
    ensures var p' := Next(w, p, Append(s, body));
      && NodeOf(p', s).file == NodeOf(p, s).file + Frame(body)
      && NodeOf(p', s).known == NodeOf(p, s).known + {w.hash(body)}
      && NodeOf(p', Other(s)) == NodeOf(p, Other(s)) && p'.intoA == p.intoA && p'.intoB == p.intoB
  {
    hide Frame;
  }

  /** A link starts to copy where the receiver has got to, with nothing on its way. */
  lemma ConnectRule(w: World, p: Pair, s: Side)
    ensures var (f, p') := (FeedOf(p, s), Next(w, p, Connect(s)));
      && FeedOf(p', s) == Feed(f.cursor, true, f.cursor, []) && FeedOf(p', Other(s)) == FeedOf(p, Other(s))
      && p'.a == p.a && p'.b == p.b
  {
  }

  lemma DisconnectRule(w: World, p: Pair, s: Side)
    ensures var (f, p') := (FeedOf(p, s), Next(w, p, Disconnect(s)));
      && FeedOf(p', s) == Feed(f.cursor, false, f.offset, []) && FeedOf(p', Other(s)) == FeedOf(p, Other(s))
      && p'.a == p.a && p'.b == p.b
  {
  }

  /** What was read next of the other's log is sent, if anything was. */
  lemma ServeRule(w: World, p: Pair, s: Side, max: nat)
    requires Enabled(w, p, Serve(s, max))
    ensures var (f, p') := (FeedOf(p, s), Next(w, p, Serve(s, max)));
      var c := Read(NodeOf(p, Other(s)).file, f.offset, max);
      && FeedOf(p', s) == Feed(f.cursor, f.up, c.end, if |c.frames| == 0 then f.flight else f.flight + [c])
      && FeedOf(p', Other(s)) == FeedOf(p, Other(s)) && p'.a == p.a && p'.b == p.b
  {
    hide Read;
    assert FeedOf(p, s).flight + [] == FeedOf(p, s).flight;
  }

  /** The first chunk is copied record by record, and then counts as copied. */
  lemma ReceiveRule(w: World, p: Pair, s: Side)
    requires Enabled(w, p, Receive(s))
    ensures var (f, p') := (FeedOf(p, s), Next(w, p, Receive(s)));
      && FeedOf(p', s) == Feed(f.flight[0].end, f.up, f.offset, f.flight[1..])
      && FeedOf(p', Other(s)) == FeedOf(p, Other(s)) && NodeOf(p', Other(s)) == NodeOf(p, Other(s))
      && NodeOf(p', s) == CopiedAll(w, NodeOf(p, s), Split(f.flight[0].frames).bodies)
  {
    hide Split, CopiedAll;
  }

  /** A record is appended if it decodes and none with its hash is known. */
  lemma CopyRule(w: World, n: Node, body: Bytes)
    ensures Copied(w, n, body) ==
      if w.hash(body) !in n.known && w.decodes(body) then Node(n.file + Frame(body), n.known + {w.hash(body)}) else n
  {
    hide Frame;
  }

  /** Whatever the records, copying some and then others is copying them all. */
  lemma {:induction false} CopyJoins(w: World, n: Node, a: seq<Bytes>, b: seq<Bytes>)
    ensures CopiedAll(w, n, a + b) == CopiedAll(w, CopiedAll(w, n, a), b)
    ensures forall x :: CopiedAll(w, n, [x]) == Copied(w, n, x)
    decreases |a|
  {
    hide Copied;
    if a == [] {
      assert a + b == b;
    } else {
      assert (a + b)[1..] == a[1..] + b;
      CopyJoins(w, Copied(w, n, a[0]), a[1..], b);
    }
  }
}
