/** The append-only history log: records framed by a 32-bit length, split
    again after any cut, and tailed in chunks. */
module HistoryLog {
  import opened FedTypes
  import opened ByteOrder

  const FRAME_LIMIT: nat := 0x1_0000_0000

  /** Record bodies and how many bytes they covered. */
  datatype Frames = Frames(bodies: seq<Bytes>, used: nat)

  /** What one read of the log gives: the bytes from `start` to `end`. */
  datatype Chunk = Chunk(start: nat, frames: Bytes, end: nat)

  /** A frame as it is written: the length is cut to 32 bits. */
  function Frame(body: Bytes): Bytes {
    Le(|body| % FRAME_LIMIT, 4) + body
  }

  function Log(bodies: seq<Bytes>): Bytes {
    if bodies == [] then [] else Frame(bodies[0]) + Log(bodies[1..])
  }

  function LengthAt(buf: Bytes): nat
    requires |buf| >= 4
  {
    FromLe(buf[..4])
  }

  /** Whether a whole frame stands at the front of `buf`. */
  predicate HasFrame(buf: Bytes) {
    |buf| >= 4 && 4 + LengthAt(buf) <= |buf|
  }

  function Split(buf: Bytes): (r: Frames)
    ensures r.used <= |buf|
    decreases |buf|
  {
    if !HasFrame(buf) then Frames([], 0)
    else
      var n := 4 + LengthAt(buf);
      var rest := Split(buf[n..]);
      Frames([buf[4..n]] + rest.bodies, n + rest.used)
  }

  /** Nothing torn at the end. */
  predicate Whole(buf: Bytes) {
    Split(buf).used == |buf|
  }

  ghost predicate Writable(bodies: seq<Bytes>) {
    forall b :: b in bodies ==> |b| < FRAME_LIMIT
  }

  // ----- framing -----

  lemma FrameLength(body: Bytes, rest: Bytes)
    ensures LengthAt(Frame(body) + rest) == |body| % FRAME_LIMIT
    ensures (Frame(body) + rest)[4..] == body + rest
  {
    hide Le, FromLe, Pow256;
    var n := |body| % FRAME_LIMIT;
    Pow256Values();
    ReadsBack(n, 4);
    assert (Frame(body) + rest)[..4] == Le(n, 4);
  }

  /** The length is read off the first four bytes. */
  lemma LengthIn(a: Bytes, b: Bytes)
    requires 4 <= |a| && 4 <= |b| && a[..4] == b[..4]
    ensures LengthAt(a) == LengthAt(b)
  {
  }

  lemma SplitFrame(body: Bytes, rest: Bytes)
    requires |body| < FRAME_LIMIT
    ensures Split(Frame(body) + rest) == Frames([body] + Split(rest).bodies, 4 + |body| + Split(rest).used)
  {
    hide Frame, LengthAt, Le;
    FrameLength(body, rest);
    var buf := Frame(body) + rest;
    assert |buf| == 4 + |body| + |rest| by { FrameSize(body); }
    assert buf[4..4 + |body|] == buf[4..][..|body|] == body;
    assert buf[4 + |body|..] == buf[4..][|body|..] == rest;
  }

  lemma FrameSize(body: Bytes)
    ensures |Frame(body)| == 4 + |body|
  {
  }

  /** A frame at the front is there whatever follows. */
  lemma FrontStays(a: Bytes, b: Bytes)
    requires HasFrame(a)
    ensures HasFrame(a + b) && LengthAt(a + b) == LengthAt(a)
    ensures var n := 4 + LengthAt(a); n <= |a| && (a + b)[4..n] == a[4..n] && (a + b)[n..] == a[n..] + b
  {
    hide LengthAt;
    LengthIn(a, a + b);
  }

  /** Splitting goes through a whole part and on to what follows. */
  lemma {:induction false} SplitJoin(a: Bytes, b: Bytes)
    requires Whole(a)
    ensures Split(a + b) == Frames(Split(a).bodies + Split(b).bodies, |a| + Split(b).used)
    decreases |a|
  {
    hide LengthAt, HasFrame;
    if a == [] {
      assert a + b == b;
    } else {
      var n := 4 + LengthAt(a);
      FrontStays(a, b);
      SplitJoin(a[n..], b);
    }
  }

  lemma FrameRebuilds(buf: Bytes)
    requires HasFrame(buf)
    ensures var n := 4 + LengthAt(buf); Frame(buf[4..n]) == buf[..4] + buf[4..n] && n - 4 < FRAME_LIMIT
  {
    hide Le, FromLe, Pow256;
    Pow256Values();
    WritesBack(buf[..4]);
  }

  /** What was split off can be written again byte for byte. */
  lemma {:induction false} SplitRebuilds(buf: Bytes)
    ensures Log(Split(buf).bodies) == buf[..Split(buf).used]
    ensures Writable(Split(buf).bodies)
    decreases |buf|
  {
    hide LengthAt, Frame;
    if HasFrame(buf) {
      var n := 4 + LengthAt(buf);
      SplitRebuilds(buf[n..]);
      FrameRebuilds(buf);
      assert buf[..4] + buf[4..n] == buf[..n];
      assert buf[..n] + buf[n..][..Split(buf[n..]).used] == buf[..Split(buf).used];
    }
  }

  /** The records of a log of which only `n` bytes were kept: those that fit
      whole, and no other. */
  lemma {:induction false} SplitCut(bodies: seq<Bytes>, n: nat)
    requires Writable(bodies) && n <= |Log(bodies)|
    ensures exists k :: 0 <= k <= |bodies| && CutAt(bodies, n, k)
  {
    hide Frame, CutAt;
    if bodies == [] {
      NothingCut();
    } else {
      FrameSize(bodies[0]);
      if n < 4 + |bodies[0]| {
        CutFirst(bodies, n);
      } else {
        SplitCut(bodies[1..], n - 4 - |bodies[0]|);
        var k :| 0 <= k <= |bodies[1..]| && CutAt(bodies[1..], n - 4 - |bodies[0]|, k);
        CutLater(bodies, n, k);
      }
    }
  }

  /** Of `n` bytes of the log just the first `k` records can be split off. */
  ghost predicate CutAt(bodies: seq<Bytes>, n: nat, k: nat)
    requires k <= |bodies| && n <= |Log(bodies)|
  {
    Fits(bodies, n, k) && Split(Log(bodies)[..n]) == Frames(bodies[..k], |Log(bodies[..k])|)
  }

  lemma NothingCut()
    ensures CutAt([], 0, 0)
  {
  }

  lemma CutFirst(bodies: seq<Bytes>, n: nat)
    requires Writable(bodies) && bodies != [] && n < 4 + |bodies[0]| && n <= |Log(bodies)|
    ensures CutAt(bodies, n, 0)
  {
    hide Frame;
    FrameSize(bodies[0]);
    TornFrame(bodies[0], Log(bodies[1..]), n);
    LogFirst(bodies, 1);
  }

  lemma CutLater(bodies: seq<Bytes>, n: nat, k: nat)
    requires Writable(bodies) && bodies != [] && 4 + |bodies[0]| <= n <= |Log(bodies)|
    requires |Log(bodies)| == 4 + |bodies[0]| + |Log(bodies[1..])|
    requires k <= |bodies[1..]| && CutAt(bodies[1..], n - 4 - |bodies[0]|, k)
    ensures k + 1 <= |bodies| && CutAt(bodies, n, k + 1)
  {
    hide Frame, Split;
    var (size, rest) := (4 + |bodies[0]|, bodies[1..]);
    FrameSize(bodies[0]);
    SplitFrame(bodies[0], Log(rest)[..n - size]);
    assert Log(bodies) == Frame(bodies[0]) + Log(rest);
    assert Log(bodies)[..n] == Frame(bodies[0]) + Log(rest)[..n - size];
    assert [bodies[0]] + rest[..k] == bodies[..k + 1];
    LogFirst(bodies, k + 1);
    if k + 1 < |bodies| { LogFirst(bodies, k + 2); }
  }

  /** Exactly the first `k` records lie within `n` bytes. */
  ghost predicate Fits(bodies: seq<Bytes>, n: nat, k: nat)
    requires k <= |bodies|
  {
    |Log(bodies[..k])| <= n && (k < |bodies| ==> n < |Log(bodies[..k + 1])|)
  }

  lemma LogFirst(bodies: seq<Bytes>, k: nat)
    requires 1 <= k <= |bodies|
    ensures |Log(bodies[..k])| == 4 + |bodies[0]| + |Log(bodies[1..][..k - 1])|
  {
    hide Frame;
    assert bodies[..k][1..] == bodies[1..][..k - 1];
    FrameSize(bodies[0]);
  }

  lemma TornFrame(body: Bytes, rest: Bytes, n: nat)
    requires |body| < FRAME_LIMIT && n < 4 + |body| && n <= |Frame(body) + rest|
    ensures !HasFrame((Frame(body) + rest)[..n])
  {
    hide Frame, LengthAt;
    FrameLength(body, rest);
    var buf := Frame(body) + rest;
    if n >= 4 {
      assert buf[..n][..4] == buf[..4];
      LengthIn(buf[..n], buf);
    }
  }

  /** The log of a list of records splits into just these. */
  lemma SplitLog(bodies: seq<Bytes>)
    requires Writable(bodies)
    ensures Split(Log(bodies)) == Frames(bodies, |Log(bodies)|)
  {
    var n := |Log(bodies)|;
    SplitCut(bodies, n);
    assert Log(bodies)[..n] == Log(bodies);
    var k :| 0 <= k <= |bodies| && CutAt(bodies, n, k);
    if k < |bodies| {
      LogGrows(bodies, k + 1);
      assert false;
    }
    assert bodies[..k] == bodies;
  }

  lemma {:induction false} LogGrows(bodies: seq<Bytes>, k: nat)
    requires k <= |bodies|
    ensures |Log(bodies[..k])| <= |Log(bodies)|
  {
    if k > 0 {
      LogFirst(bodies, k);
      LogGrows(bodies[1..], k - 1);
      FrameSize(bodies[0]);
    }
  }

  // ----- when an appended record can be read again -----

  ghost predicate ReadBack(file: Bytes, body: Bytes) {
    Split(file + Frame(body)).bodies == Split(file).bodies + [body]
  }

  /** On a whole log a record is read back exactly if its length fits 32 bits. */
  lemma AppendedIff(file: Bytes, body: Bytes)
    requires Whole(file)
    ensures ReadBack(file, body) <==> |body| < FRAME_LIMIT
    ensures |body| < FRAME_LIMIT ==> Whole(file + Frame(body))
  {
    hide Frame, LengthAt;
    SplitJoin(file, Frame(body));
    FrameSize(body);
    assert Frame(body) + [] == Frame(body);
    if |body| < FRAME_LIMIT {
      SplitFrame(body, []);
    } else {
      FrameLength(body, []);
      var first := Split(Frame(body)).bodies;
      assert first != [] && |first[0]| < |body|;
      assert (Split(file).bodies + first)[|Split(file).bodies|] == first[0];
    }
  }

  /** What is left of a log behind its last whole record. */
  function TornTail(file: Bytes): Bytes {
    file[Split(file).used..]
  }

  /** Behind a torn tail a record is read back at most where the tail ends up
      announcing its length: the four bytes of a tail that has them, else the
      bytes of the tail and the first ones of the record's own length field. */
  lemma TornReadsBack(file: Bytes, body: Bytes)
    requires !Whole(file) && ReadBack(file, body)
    ensures var buf := TornTail(file) + Frame(body);
      |buf| >= 4 && LengthAt(buf) == |body| && 4 + |body| <= |buf| && buf[4..4 + |body|] == body
  {
    hide Frame, LengthAt;
    var (whole, buf) := (file[..Split(file).used], TornTail(file) + Frame(body));
    SplitTail(file);
    assert file + Frame(body) == whole + buf;
    SplitJoin(whole, buf);
    var next := Split(buf).bodies;
    assert (Split(file).bodies + next)[|Split(file).bodies|..] == next ==
      (Split(file).bodies + [body])[|Split(file).bodies|..] == [body];
    assert HasFrame(buf);
    assert next[0] == buf[4..4 + LengthAt(buf)];
  }

  /** So every record of another length is lost behind a tail of four bytes or more ... */
  lemma LongTailLoses(file: Bytes, body: Bytes)
    requires |TornTail(file)| >= 4 && |body| != LengthAt(TornTail(file))
    ensures !ReadBack(file, body)
  {
    if ReadBack(file, body) {
      TornIffTail(file);
      TornReadsBack(file, body);
      LengthIn(TornTail(file), TornTail(file) + Frame(body));
    }
  }

  /** ... and of that length all but at most one are. */
  lemma LongTailReadsOne(file: Bytes, a: Bytes, b: Bytes)
    requires |TornTail(file)| >= 4 && ReadBack(file, a) && ReadBack(file, b)
    ensures a == b
  {
    hide Frame, LengthAt, Le, ReadBack, TornTail;
    var tail := TornTail(file);
    TornIffTail(file);
    TornReadsBack(file, a);
    TornReadsBack(file, b);
    LengthIn(tail, tail + Frame(a));
    LengthIn(tail, tail + Frame(b));
    var p := tail[4..] + Le(|a| % FRAME_LIMIT, 4);
    BehindTail(tail, a);
    BehindTail(tail, b);
    Slice(tail + Frame(a), 4, |a|);
    Slice(tail + Frame(b), 4, |b|);
    assert (p + a)[..|a|] == a && (p + b)[..|b|] == b;
    Periodic(p, a, b);
  }

  /** What follows the length a long tail announces. */
  lemma BehindTail(tail: Bytes, a: Bytes)
    requires |tail| >= 4
    ensures 4 + |a| <= |tail + Frame(a)|
    ensures (tail + Frame(a))[4..] == tail[4..] + Le(|a| % FRAME_LIMIT, 4) + a
  {
    hide Frame, Le;
    FrameIs(a);
    assert (tail + Frame(a))[4..] == tail[4..] + Frame(a);
  }

  lemma Slice(s: Bytes, i: nat, n: nat)
    requires i + n <= |s|
    ensures s[i..i + n] == s[i..][..n]
  {
  }

  lemma FrameIs(body: Bytes)
    ensures Frame(body) == Le(|body| % FRAME_LIMIT, 4) + body
  {
  }

  /** A text that continues `p` by itself is fixed by its length. */
  lemma Periodic(p: Bytes, a: Bytes, b: Bytes)
    requires |p| > 0 && |a| == |b| && (p + a)[..|a|] == a && (p + b)[..|b|] == b
    ensures a == b
  {
    forall i | 0 <= i < |a| ensures a[i] == b[i] { PeriodicAt(p, a, b, i); }
  }

  lemma {:induction false} PeriodicAt(p: Bytes, a: Bytes, b: Bytes, i: nat)
    requires |p| > 0 && |a| == |b| && (p + a)[..|a|] == a && (p + b)[..|b|] == b && i < |a|
    ensures a[i] == b[i]
  {
    assert a[i] == (p + a)[i] && b[i] == (p + b)[i];
    if i >= |p| { PeriodicAt(p, a, b, i - |p|); }
  }

  /** Behind a tail of fewer bytes every record is lost whose length fits the
      bytes of its length field that are read with the tail. */
  lemma ShortTailLoses(file: Bytes, body: Bytes)
    requires var tail := TornTail(file); 1 <= |tail| < 4 && 0 < |body| < Pow256(4 - |tail|)
    ensures !ReadBack(file, body)
  {
    hide Split, ReadBack, Le, FromLe, Pow256;
    var tail := TornTail(file);
    if ReadBack(file, body) {
      TornIffTail(file);
      TornReadsBack(file, body);
      var (buf, k) := (tail + Frame(body), 4 - |tail|);
      PowGrows(k, 4);
      Pow256Values();
      FrameIs(body);
      LePrefix(|body|, k, 4);
      assert buf[..4] == tail + Le(|body|, k);
      ReadsBack(|body|, k);
      FromLeBehind(tail, Le(|body|, k));
    }
  }

  lemma TornIffTail(file: Bytes)
    ensures Whole(file) <==> TornTail(file) == []
  {
  }

  /** Whatever two records of fewer than 256 bytes the program writes, an opened
      log reads back all it writes if and only if it has no torn tail: opening
      does not remove one. */
  lemma AppendableIff(file: Bytes, written: set<Bytes>)
    requires forall body :: body in written ==> |body| < FRAME_LIMIT
    requires exists a, b :: a in written && b in written && a != b && 0 < |a| < 256 && 0 < |b| < 256
    ensures Whole(file) <==> forall body :: body in written ==> ReadBack(file, body)
  {
    hide Split, Frame;
    if Whole(file) {
      forall body | body in written ensures ReadBack(file, body) { AppendedIff(file, body); }
    } else {
      var a, b :| a in written && b in written && a != b && 0 < |a| < 256 && 0 < |b| < 256;
      TornIffTail(file);
      if |TornTail(file)| < 4 {
        PowGrows(1, 4 - |TornTail(file)|);
        Pow256Values();
        ShortTailLoses(file, a);
      } else if ReadBack(file, a) && ReadBack(file, b) {
        LongTailReadsOne(file, a, b);
      }
    }
  }

  /** A log is a whole part and a tail without a frame at its front. */
  lemma {:induction false} SplitTail(file: Bytes)
    ensures var used := Split(file).used;
      Whole(file[..used]) && Split(file[..used]).bodies == Split(file).bodies && !HasFrame(file[used..])
    decreases |file|
  {
    hide LengthAt;
    if HasFrame(file) {
      var n := 4 + LengthAt(file);
      var used := Split(file).used;
      SplitTail(file[n..]);
      assert file[..used][4..n] == file[4..n];
      LengthIn(file[..used], file);
      assert file[..used][n..] == file[n..][..used - n] && file[used..] == file[n..][used - n..];
    }
  }

  // ----- tailing -----

  /** A read of at most `max` bytes of complete frames from `offset`; a record
      larger than that is read alone, an offset past the end starts over. */
  function Read(file: Bytes, offset: nat, max: nat): (c: Chunk)
    ensures c.start <= |file|
  {
    var start := if offset > |file| then 0 else offset;
    var buf := if start + max <= |file| then file[start..start + max] else file[start..];
    var need := if |buf| < 4 then 0 else 4 + LengthAt(buf);
    if Split(buf).bodies == [] && |buf| >= 4 && start + need <= |file| then
      Chunk(start, file[start..start + need], start + need)
    else Chunk(start, buf[..Split(buf).used], start + Split(buf).used)
  }

  /** A position between two records. */
  predicate OnBoundary(file: Bytes, at: nat) {
    at <= |file| && Whole(file[..at])
  }

  lemma OneFrame(buf: Bytes)
    requires HasFrame(buf)
    ensures var n := 4 + LengthAt(buf); Split(buf[..n]) == Frames([buf[4..n]], n)
  {
    hide LengthAt;
    var n := 4 + LengthAt(buf);
    LengthIn(buf[..n], buf);
    assert buf[..n][4..n] == buf[4..n] && buf[..n][n..] == [];
  }

  /** What a read takes of the bytes from its start on. */
  function Taken(rest: Bytes, max: nat): (r: Bytes)
    ensures |r| <= |rest|
  {
    var buf := rest[..if max <= |rest| then max else |rest|];
    if Split(buf).bodies == [] && |buf| >= 4 && 4 + LengthAt(buf) <= |rest| then rest[..4 + LengthAt(buf)]
    else buf[..Split(buf).used]
  }

  lemma ReadIs(file: Bytes, offset: nat, max: nat)
    requires offset <= |file|
    ensures var r := Taken(file[offset..], max); Read(file, offset, max) == Chunk(offset, r, offset + |r|)
  {
    hide LengthAt, Split;
    var rest := file[offset..];
    var buf := rest[..if max <= |rest| then max else |rest|];
    assert buf == if offset + max <= |file| then file[offset..offset + max] else file[offset..];
    if |buf| >= 4 && 4 + LengthAt(buf) <= |rest| {
      assert file[offset..offset + 4 + LengthAt(buf)] == rest[..4 + LengthAt(buf)];
    }
  }

  lemma TakenWhole(rest: Bytes, max: nat)
    ensures var r := Taken(rest, max); r == rest[..|r|] && Whole(r) && (r != [] <==> HasFrame(rest) && max >= 4)
  {
    hide LengthAt;
    var buf := rest[..if max <= |rest| then max else |rest|];
    SplitTail(buf);
    if |buf| >= 4 {
      LengthIn(buf, rest);
      if HasFrame(rest) { OneFrame(rest); }
    }
  }

  /** Whatever a read takes off a boundary is whole, and it takes something
      exactly if a frame stands there and four bytes may be read at all. */
  lemma ReadTakes(file: Bytes, offset: nat, max: nat)
    requires offset <= |file|
    ensures var c := Read(file, offset, max);
      && c.start == offset <= c.end <= |file| && c.frames == file[offset..c.end] && Whole(c.frames)
      && (c.end > offset <==> HasFrame(file[offset..]) && max >= 4)
  {
    hide Read, Taken, HasFrame, Whole;
    ReadIs(file, offset, max);
    TakenWhole(file[offset..], max);
    assert file[offset..][..|Taken(file[offset..], max)|] == file[offset..offset + |Taken(file[offset..], max)|];
  }

  /** Reading on from a boundary leads to a boundary, with the records between. */
  lemma ReadKeepsBoundary(file: Bytes, offset: nat, max: nat)
    requires OnBoundary(file, offset)
    ensures var c := Read(file, offset, max);
      OnBoundary(file, c.end) && Split(file[..c.end]).bodies == Split(file[..offset]).bodies + Split(c.frames).bodies
  {
    hide Read, Split;
    ReadTakes(file, offset, max);
    var c := Read(file, offset, max);
    SplitJoin(file[..offset], c.frames);
    assert file[..c.end] == file[..offset] + c.frames;
  }

  /** A boundary before which no frame is left is the end of the log's records. */
  lemma BoundaryEnd(file: Bytes, at: nat)
    requires OnBoundary(file, at) && !HasFrame(file[at..])
    ensures at == Split(file).used
  {
    SplitJoin(file[..at], file[at..]);
    assert file[..at] + file[at..] == file;
  }

  /** A chunk holds the records between two boundaries, at least one. */
  predicate Piece(file: Bytes, c: Chunk) {
    c.start < c.end && OnBoundary(file, c.start) && OnBoundary(file, c.end) && c.frames == file[c.start..c.end]
  }

  /** One node's log file with the content hashes of what is in it. */
  class Store {
    const hash: Bytes -> u64
    const decodes: Bytes -> bool
    var file: Bytes
    var known: set<u64>

    /** Opens a log: whatever can be split off is known; a torn tail stays. */
    constructor (hash: Bytes -> u64, decodes: Bytes -> bool, file: Bytes)
      ensures this.hash == hash && this.decodes == decodes && this.file == file
      ensures known == set b | b in Split(file).bodies :: hash(b)
    {
      this.hash, this.decodes, this.file := hash, decodes, file;
      new;
      var frames := SplitFrames(file);
      var k := 0;
      known := {};
      while k < |frames.bodies|
        invariant k <= |frames.bodies| && this.file == file
        invariant known == set b | b in frames.bodies[..k] :: hash(b)
      {
        known := known + {hash(frames.bodies[k])};
        assert frames.bodies[..k + 1] == frames.bodies[..k] + [frames.bodies[k]];
        k := k + 1;
      }
    }

    method AppendBody(body: Bytes)
      modifies this
      ensures file == old(file) + Frame(body) && known == old(known) + {hash(body)}
    {
      file := file + (Le(|body| % FRAME_LIMIT, 4) + body);
      known := known + {hash(body)};
    }

    /** Appends a record copied from the peer unless its hash is known. */
    method AppendReplicated(body: Bytes) returns (added: bool)
      modifies this
      ensures added == (hash(body) !in old(known) && decodes(body))
      ensures file == old(file) + if added then Frame(body) else []
      ensures known == old(known) + if added then {hash(body)} else {}
    {
      if hash(body) in known || !decodes(body) {
        return false;
      }
      AppendBody(body);
      return true;
    }

    method ReadFrames(offset: nat, max: nat) returns (c: Chunk)
      ensures c == Read(file, offset, max)
    {
      hide FromLe, Split;
      var start := if offset > |file| then 0 else offset;
      var buf := if start + max <= |file| then file[start..start + max] else file[start..];
      var frames := SplitFrames(buf);
      if frames.bodies == [] && |buf| >= 4 {
        var need := 4 + FromLe(buf[..4]);
        if start + need <= |file| {
          return Chunk(start, file[start..start + need], start + need);
        }
      }
      return Chunk(start, buf[..frames.used], start + frames.used);
    }

    /** Everything from `offset` on, in chunks; ends at the last whole record. */
    method Tail(offset: nat, max: nat) returns (chunks: seq<Chunk>, end: nat)
      requires max >= 4 && OnBoundary(file, offset)
      ensures end == Split(file).used >= offset
      ensures Joined(chunks) == file[offset..end]
      ensures Split(file).bodies == Split(file[..offset]).bodies + Split(Joined(chunks)).bodies
      ensures forall c :: c in chunks ==> Piece(file, c)
    {
      hide Read, Split;
      chunks, end := [], offset;
      while true
        invariant offset <= end && OnBoundary(file, end) && Joined(chunks) == file[offset..end]
        invariant forall c :: c in chunks ==> Piece(file, c)
        decreases |file| - end
      {
        var c := ReadFrames(end, max);
        ReadTakes(file, end, max);
        ReadKeepsBoundary(file, end, max);
        end := c.end;
        if c.frames == [] {
          break;
        }
        JoinedOn(chunks, c);
        chunks := chunks + [c];
      }
      BoundaryEnd(file, end);
      TailRecords(file, offset, end);
    }
  }

  lemma TailRecords(file: Bytes, offset: nat, end: nat)
    requires OnBoundary(file, offset) && offset <= end == Split(file).used
    ensures Split(file).bodies == Split(file[..offset]).bodies + Split(file[offset..end]).bodies
  {
    SplitTail(file);
    SplitJoin(file[..offset], file[offset..end]);
    assert file[..offset] + file[offset..end] == file[..end];
  }

  function Joined(chunks: seq<Chunk>): Bytes {
    if chunks == [] then [] else Joined(chunks[..|chunks| - 1]) + chunks[|chunks| - 1].frames
  }

  lemma JoinedOn(chunks: seq<Chunk>, c: Chunk)
    ensures Joined(chunks + [c]) == Joined(chunks) + c.frames
  {
    assert (chunks + [c])[..|chunks|] == chunks;
  }

  /** Walks over the frames of `buf`, stopping at a torn one. */
  method SplitFrames(buf: Bytes) returns (frames: Frames)
    ensures frames == Split(buf)
  {
    hide FromLe;
    var (out, pos) := ([], 0);
    while pos + 4 <= |buf|
      invariant pos <= |buf|
      invariant Split(buf) == Frames(out + Split(buf[pos..]).bodies, pos + Split(buf[pos..]).used)
      decreases |buf| - pos
    {
      var len := FromLe(buf[pos..pos + 4]);
      assert buf[pos..][..4] == buf[pos..pos + 4];
      assert LengthAt(buf[pos..]) == len;
      var end := pos + 4 + len;
      if end > |buf| {
        break;
      }
      assert buf[pos..][4..4 + len] == buf[pos + 4..end] && buf[pos..][4 + len..] == buf[end..];
      out := out + [buf[pos + 4..end]];
      pos := end;
    }
    return Frames(out, pos);
  }
}
