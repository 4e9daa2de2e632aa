/**
 Decoding over many reads compared with one scan of the whole stream.
 The reference scanner walks the stream byte by byte and knows nothing of chunks.
 */
module Streams {
  import opened Splitting
  import opened Framing

  /** A non-empty frame and the stream position of the flag that closes it. */
  datatype Frame = Frame(body: Bytes, stop: nat)

  /** One-shot scan of `x`, with `part` already read and `x[0]` at position `at`. */
  function Scan(x: Bytes, part: Bytes, at: nat): (r: seq<Frame>)
    decreases |x|
  {
    if x == [] then []
    else if x[0] == END_FLAG then
      (if part == [] then [] else [Frame(part, at)]) + Scan(x[1..], [], at + 1)
    else Scan(x[1..], part + [x[0]], at + 1)
  }

  /** The bytes read since the last flag. */
  function Pending(x: Bytes, part: Bytes): (r: Bytes)
    decreases |x|
  {
    if x == [] then part
    else if x[0] == END_FLAG then Pending(x[1..], [])
    else Pending(x[1..], part + [x[0]])
  }

  function Bodies(fs: seq<Frame>): (r: seq<Bytes>)
    ensures |r| == |fs|
  {
    seq(|fs|, i requires 0 <= i < |fs| => fs[i].body)
  }

  /** The frames that are not closed at one of the positions in `b`. */
  function Kept(fs: seq<Frame>, b: set<nat>): (r: seq<Frame>)
  {
    if fs == [] then []
    else if fs[0].stop in b then Kept(fs[1..], b)
    else [fs[0]] + Kept(fs[1..], b)
  }

  /** The stream as the decoder sees it: every read cut at its first 0 byte. */
  function Stream(chunks: seq<Bytes>): (r: Bytes)
  {
    if chunks == [] then [] else Cut(chunks[0]) + Stream(chunks[1..])
  }

  /** The positions where a read that brings data starts. */
  function Starts(chunks: seq<Bytes>, at: nat): (r: set<nat>)
    ensures forall p :: p in r ==> p >= at
  {
    if chunks == [] then {}
    else
      var d := Cut(chunks[0]);
      (if d == [] then {} else {at}) + Starts(chunks[1..], at + |d|)
  }

  /** The receive loop: the packets of all reads, and the part carried out of the last one. */
  function Feed(chunks: seq<Bytes>, part: Bytes): (r: (seq<Bytes>, Bytes))
  {
    if chunks == [] then ([], part)
    else
      var (ps, last) := Feed(chunks[1..], Carried(chunks[0], part));
      (Emitted(chunks[0], part) + ps, last)
  }

  /**
   The same from one scan of the stream: the non-empty frames but for those closed at a position in
   `cuts`, and the bytes after the last flag.
   */
  function OneShot(stream: Bytes, part: Bytes, at: nat, cuts: set<nat>): (r: (seq<Bytes>, Bytes))
  {
    (Bodies(Kept(Scan(stream, part, at), cuts)), Pending(stream, part))
  }

  function Then(here: seq<Bytes>, rest: (seq<Bytes>, Bytes)): (r: (seq<Bytes>, Bytes))
  {
    (here + rest.0, rest.1)
  }

  // ---------------------------------------------------------------- the scanner

  lemma Regrouped(a: seq<Frame>, b: seq<Frame>, c: seq<Frame>)
    ensures a + (b + c) == a + b + c
  {
  }

  lemma {:induction false} ScanConcat(a: Bytes, b: Bytes, part: Bytes, at: nat)
    ensures Scan(a + b, part, at) == Scan(a, part, at) + Scan(b, Pending(a, part), at + |a|)
    ensures Pending(a + b, part) == Pending(b, Pending(a, part))
    decreases |a|
  {
    if a == [] {
      assert a + b == b;
    } else {
      assert (a + b)[1..] == a[1..] + b;
      if a[0] == END_FLAG {
        ScanConcat(a[1..], b, [], at + 1);
        Regrouped(if part == [] then [] else [Frame(part, at)], Scan(a[1..], [], at + 1),
                  Scan(b, Pending(a, part), at + |a|));
      } else {
        ScanConcat(a[1..], b, part + [a[0]], at + 1);
      }
    }
  }

  lemma {:induction false} StopsInRange(x: Bytes, part: Bytes, at: nat)
    ensures forall f :: f in Scan(x, part, at) ==> at <= f.stop < at + |x| && x[f.stop - at] == END_FLAG
    decreases |x|
  {
    if x != [] {
      var part' := if x[0] == END_FLAG then [] else part + [x[0]];
      StopsInRange(x[1..], part', at + 1);
      forall f | f in Scan(x, part, at) ensures at <= f.stop < at + |x| && x[f.stop - at] == END_FLAG {
        if f in Scan(x[1..], part', at + 1) {
          assert x[1..][f.stop - (at + 1)] == END_FLAG;
        }
      }
    }
  }

  lemma BodiesConcat(a: seq<Frame>, b: seq<Frame>)
    ensures Bodies(a + b) == Bodies(a) + Bodies(b)
  {
  }

  lemma {:induction false} KeptConcat(a: seq<Frame>, b: seq<Frame>, s: set<nat>)
    ensures Kept(a + b, s) == Kept(a, s) + Kept(b, s)
  {
    if a == [] {
      assert a + b == b;
    } else {
      assert (a + b)[1..] == a[1..] + b;
      KeptConcat(a[1..], b, s);
    }
  }

  lemma {:induction false} KeptSame(fs: seq<Frame>, s: set<nat>, t: set<nat>)
    requires forall f :: f in fs ==> (f.stop in s <==> f.stop in t)
    ensures Kept(fs, s) == Kept(fs, t)
  {
    if fs != [] {
      KeptSame(fs[1..], s, t);
    }
  }

  lemma {:induction false} KeptAll(fs: seq<Frame>, s: set<nat>)
    ensures |Kept(fs, s)| <= |fs|
    ensures Kept(fs, s) == fs <==> forall f :: f in fs ==> f.stop !in s
    ensures |Kept(fs, s)| == |fs| ==> Kept(fs, s) == fs
  {
    if fs != [] {
      KeptAll(fs[1..], s);
    }
  }

  lemma SegmentsStep(part: Bytes, x: Bytes)
    requires x != []
    ensures x[0] == END_FLAG ==> Segments(part, x) == [part] + Segments([], x[1..])
    ensures x[0] != END_FLAG ==> Segments(part, x) == Segments(part + [x[0]], x[1..])
  {
    var r := Split(x[1..], END_FLAG);
    if x[0] == END_FLAG {
      assert part + [] == part;
      assert [] + r[0] == r[0];
    } else {
      assert part + ([x[0]] + r[0]) == (part + [x[0]]) + r[0];
    }
  }

  /** The scanner finds the closed non-empty segments and leaves the open one. */
  lemma {:induction false} ScanIsSplit(x: Bytes, part: Bytes, at: nat)
    ensures Bodies(Scan(x, part, at)) == NonEmpty(Init(Segments(part, x)))
    ensures Pending(x, part) == Last(Segments(part, x))
    decreases |x|
  {
    if x == [] {
      assert Segments(part, x) == [part + []];
      assert part + [] == part;
    } else {
      SegmentsStep(part, x);
      if x[0] == END_FLAG {
        ScanIsSplit(x[1..], [], at + 1);
        ConsInit(part, Segments([], x[1..]));
        FlagStep(x, part, at);
      } else {
        ScanIsSplit(x[1..], part + [x[0]], at + 1);
      }
    }
  }

  lemma FlagStep(x: Bytes, part: Bytes, at: nat)
    requires x != [] && x[0] == END_FLAG
    ensures Bodies(Scan(x, part, at)) == (if part == [] then [] else [part]) + Bodies(Scan(x[1..], [], at + 1))
    ensures Pending(x, part) == Pending(x[1..], [])
  {
    BodiesConcat(if part == [] then [] else [Frame(part, at)], Scan(x[1..], [], at + 1));
  }

  lemma ConsInit(part: Bytes, segs: seq<Bytes>)
    requires |segs| >= 1
    ensures NonEmpty(Init([part] + segs)) == (if part == [] then [] else [part]) + NonEmpty(Init(segs))
    ensures Init([part] + segs)[1..] == Init(segs)
    ensures Last([part] + segs) == Last(segs)
  {
    assert Init([part] + segs)[1..] == Init(segs);
  }

  // ---------------------------------------------------------------- one read

  /** A pending part is dropped by a read that starts with the flag. */
  lemma FlagFirst(d: Bytes, part: Bytes, at: nat)
    requires d != [] && d[0] == END_FLAG
    ensures Kept(Scan(d, part, at), {at}) == Scan(d[1..], [], at + 1)
  {
    var rest := Scan(d[1..], [], at + 1);
    StopsInRange(d[1..], [], at + 1);
    KeptAll(rest, {at});
    if part != [] {
      assert Scan(d, part, at)[1..] == rest;
    } else {
      assert Scan(d, part, at) == rest;
    }
  }

  lemma NoFlagFirst(d: Bytes, part: Bytes, at: nat)
    requires d == [] || d[0] != END_FLAG
    ensures Kept(Scan(d, part, at), {at}) == Scan(d, part, at)
  {
    StopsInRange(d, part, at);
    KeptAll(Scan(d, part, at), {at});
  }

  lemma EmittedIsKept(data: Bytes, part: Bytes, at: nat)
    ensures Emitted(data, part) == Bodies(Kept(Scan(Cut(data), part, at), {at}))
    ensures Carried(data, part) == Pending(Cut(data), part)
  {
    var d := Cut(data);
    ScanIsSplit(d, part, at);
    if d != [] && d[0] == END_FLAG {
      FlagFirst(d, part, at);
      SegmentsStep(part, d);
      ConsInit(part, Segments([], d[1..]));
      ScanIsSplit(d[1..], [], at + 1);
    } else {
      NoFlagFirst(d, part, at);
    }
  }

  // ---------------------------------------------------------------- whole streams

  /**
   Streaming refinement, for every list of reads: the carried part is the unterminated tail of the
   stream, and the packets are the non-empty frames of the one-shot scan minus exactly those whose
   flag is the first byte of a read.
   */
  lemma {:induction false} StreamingRefinement(chunks: seq<Bytes>, part: Bytes, at: nat)
    ensures Feed(chunks, part) == OneShot(Stream(chunks), part, at, Starts(chunks, at))
    decreases |chunks|
  {
    if chunks != [] {
      var d, rest := Cut(chunks[0]), chunks[1..];
      var here, at' := Bodies(Kept(Scan(d, part, at), {at})), at + |d|;
      calc {
        Feed(chunks, part);
        { FirstRead(chunks, part, at); }
        Then(here, Feed(rest, Pending(d, part)));
        { StreamingRefinement(rest, Pending(d, part), at'); }
        Then(here, OneShot(Stream(rest), Pending(d, part), at', Starts(rest, at')));
        { KeptSplits(d, Stream(rest), part, at, Starts(rest, at'), Stream(chunks), Starts(chunks, at)); }
        OneShot(Stream(chunks), part, at, Starts(chunks, at));
      }
    }
  }

  lemma FirstRead(chunks: seq<Bytes>, part: Bytes, at: nat)
    requires chunks != []
    ensures var d := Cut(chunks[0]);
            Feed(chunks, part) == Then(Bodies(Kept(Scan(d, part, at), {at})), Feed(chunks[1..], Pending(d, part)))
  {
    EmittedIsKept(chunks[0], part, at);
  }

  /** Losses in a stream are the losses of its first read and the losses of the rest. */
  lemma KeptSplits(d: Bytes, rest: Bytes, part: Bytes, at: nat, b: set<nat>, whole: Bytes, cuts: set<nat>)
    requires forall p :: p in b ==> p >= at + |d|
    requires whole == d + rest && cuts == (if d == [] then {} else {at}) + b
    ensures OneShot(whole, part, at, cuts) ==
            Then(Bodies(Kept(Scan(d, part, at), {at})), OneShot(rest, Pending(d, part), at + |d|, b))
  {
    var here, later := Scan(d, part, at), Scan(rest, Pending(d, part), at + |d|);
    ScanConcat(d, rest, part, at);
    KeptConcat(here, later, cuts);
    assert Kept(here, cuts) == Kept(here, {at}) by {
      StopsInRange(d, part, at);
      KeptSame(here, cuts, {at});
    }
    assert Kept(later, cuts) == Kept(later, b) by {
      StopsInRange(rest, Pending(d, part), at + |d|);
      KeptSame(later, cuts, b);
    }
    BodiesConcat(Kept(here, cuts), Kept(later, cuts));
  }

  /** No frame of the stream is closed by the first byte of a read. */
  predicate NoFrameCut(chunks: seq<Bytes>)
  {
    forall f :: f in Scan(Stream(chunks), [], 0) ==> f.stop !in Starts(chunks, 0)
  }

  /** All frames of the stream come out if and only if no frame is closed by the first byte of a read. */
  lemma NothingLostIff(chunks: seq<Bytes>)
    ensures Feed(chunks, []).0 == Bodies(Scan(Stream(chunks), [], 0)) <==> NoFrameCut(chunks)
  {
    StreamingRefinement(chunks, [], 0);
    KeptAll(Scan(Stream(chunks), [], 0), Starts(chunks, 0));
  }

  /** The loss is real: one frame, split so that its flag arrives alone. */
  lemma LoneFlagLosesFrame()
    ensures Stream([[65], [END_FLAG]]) == Stream([[65, END_FLAG]])
    ensures Feed([[65], [END_FLAG]], []).0 != Feed([[65, END_FLAG]], []).0
  {
    var x: Bytes := [65, END_FLAG];
    assert Cut([65]) == [65] && Cut([END_FLAG]) == [END_FLAG] && Cut(x) == x by {
      assert 0 !in x;
    }
    var apart, whole := [[65], [END_FLAG]], [x];
    assert apart[1..] == [[END_FLAG]] && apart[1..][1..] == [];
    assert Stream(apart[1..]) == [END_FLAG] + Stream([]);
    assert Stream(apart) == [65] + ([END_FLAG] + []);
    assert whole[1..] == [];
    assert Stream(whole) == x + [];
    NothingLostIff(apart);
    NothingLostIff(whole);
    assert x[1..] == [END_FLAG] && [] + [x[0]] == [65];
    assert Scan([END_FLAG], [65], 1) == [Frame([65], 1)] + Scan([END_FLAG][1..], [], 2);
    var f := Frame([65], 1);
    assert f in Scan(x, [], 0);
    assert Starts(apart[1..], 1) == {1} + Starts([], 2);
    assert f.stop in Starts(apart, 0);
    assert Starts(whole, 0) == {0} + Starts([], 2);
  }

  predicate NoReadStartsWithFlag(chunks: seq<Bytes>) {
    forall i :: 0 <= i < |chunks| && chunks[i] != [] ==> chunks[i][0] != END_FLAG
  }

  lemma {:induction false} StartIsNoFlag(chunks: seq<Bytes>, at: nat, p: nat)
    requires NoReadStartsWithFlag(chunks) && p in Starts(chunks, at)
    ensures at <= p < at + |Stream(chunks)| && Stream(chunks)[p - at] != END_FLAG
    decreases |chunks|
  {
    var d, rest := Cut(chunks[0]), chunks[1..];
    if p in Starts(rest, at + |d|) {
      StartIsNoFlag(rest, at + |d|, p);
      assert Stream(chunks)[p - at] == Stream(rest)[p - at - |d|];
    }
  }

  lemma StartsAreNoFlags(chunks: seq<Bytes>, at: nat)
    requires NoReadStartsWithFlag(chunks)
    ensures forall p :: p in Starts(chunks, at) ==>
              at <= p < at + |Stream(chunks)| && Stream(chunks)[p - at] != END_FLAG
  {
    forall p | p in Starts(chunks, at) ensures at <= p < at + |Stream(chunks)| && Stream(chunks)[p - at] != END_FLAG {
      StartIsNoFlag(chunks, at, p);
    }
  }

  lemma {:induction false} FlagStart(chunks: seq<Bytes>, at: nat) returns (q: nat)
    requires !NoReadStartsWithFlag(chunks)
    ensures q < |Stream(chunks)| && Stream(chunks)[q] == END_FLAG && at + q in Starts(chunks, at)
    decreases |chunks|
  {
    var c := chunks[0];
    var d := Cut(c);
    if c != [] && c[0] == END_FLAG {
      q := 0;
      assert d != [] && d[0] == END_FLAG;
    } else {
      q := FlagStart(chunks[1..], at + |d|);
      assert Stream(chunks)[|d| + q] == Stream(chunks[1..])[q];
      q := |d| + q;
    }
  }

  /** Two ways of reading one stream that cut no frame give the same packets and part. */
  lemma ChunkingIrrelevant(a: seq<Bytes>, b: seq<Bytes>)
    requires Stream(a) == Stream(b) && NoFrameCut(a) && NoFrameCut(b)
    ensures Feed(a, []) == Feed(b, [])
  {
    StreamingRefinement(a, [], 0);
    StreamingRefinement(b, [], 0);
    NothingLostIff(a);
    NothingLostIff(b);
  }

  lemma NoFlagCutsNoFrame(chunks: seq<Bytes>)
    requires NoReadStartsWithFlag(chunks)
    ensures NoFrameCut(chunks)
  {
    StopsInRange(Stream(chunks), [], 0);
    StartsAreNoFlags(chunks, 0);
  }

  // ---------------------------------------------------------------- the wire

  /** The bytes SendMessage writes for each message in turn. */
  function Wire(msgs: seq<Bytes>): (r: Bytes)
  {
    if msgs == [] then [] else msgs[0] + [END_FLAG] + Wire(msgs[1..])
  }

  function Flatten(chunks: seq<Bytes>): (r: Bytes)
  {
    if chunks == [] then [] else chunks[0] + Flatten(chunks[1..])
  }

  lemma {:induction false} StreamWithoutZeros(chunks: seq<Bytes>)
    requires 0 !in Flatten(chunks)
    ensures Stream(chunks) == Flatten(chunks)
  {
    if chunks != [] {
      assert forall x :: x in Flatten(chunks[1..]) ==> x in Flatten(chunks);
      assert forall x :: x in chunks[0] ==> x in Flatten(chunks);
      StreamWithoutZeros(chunks[1..]);
    }
  }

  lemma {:induction false} ScanMessage(m: Bytes, part: Bytes, at: nat)
    requires END_FLAG !in m
    ensures Scan(m, part, at) == [] && Pending(m, part) == part + m
    decreases |m|
  {
    if m == [] {
      assert part + m == part;
    } else {
      ScanMessage(m[1..], part + [m[0]], at + 1);
      assert (part + [m[0]]) + m[1..] == part + m;
    }
  }

  /** Messages that SendMessage can frame. */
  predicate Sendable(msgs: seq<Bytes>)
  {
    forall i :: 0 <= i < |msgs| ==> msgs[i] != [] && END_FLAG !in msgs[i] && 0 !in msgs[i]
  }

  lemma FirstMessage(msgs: seq<Bytes>, at: nat)
    requires Sendable(msgs) && msgs != []
    ensures var m, rest := msgs[0], Wire(msgs[1..]);
            && Scan(Wire(msgs), [], at) == [Frame(m, at + |m|)] + Scan(rest, [], at + |m| + 1)
            && Pending(Wire(msgs), []) == Pending(rest, [])
  {
    var m, rest := msgs[0], Wire(msgs[1..]);
    ScanMessage(m, [], at);
    assert [] + m == m;
    assert m + [END_FLAG] + rest == m + ([END_FLAG] + rest);
    ScanConcat(m, [END_FLAG] + rest, [], at);
    assert ([END_FLAG] + rest)[1..] == rest;
  }

  lemma {:induction false} ScanWire(msgs: seq<Bytes>, at: nat)
    requires Sendable(msgs)
    ensures Bodies(Scan(Wire(msgs), [], at)) == msgs
    ensures Pending(Wire(msgs), []) == []
    decreases |msgs|
  {
    if msgs != [] {
      var m, rest := msgs[0], Wire(msgs[1..]);
      ScanWire(msgs[1..], at + |m| + 1);
      FirstMessage(msgs, at);
      BodiesConcat([Frame(m, at + |m|)], Scan(rest, [], at + |m| + 1));
    }
  }

  /** On the wire every flag closes a frame. */
  lemma {:induction false} WireFlagsStop(msgs: seq<Bytes>, at: nat, q: nat) returns (f: Frame)
    requires Sendable(msgs) && q < |Wire(msgs)| && Wire(msgs)[q] == END_FLAG
    ensures f in Scan(Wire(msgs), [], at) && f.stop == at + q
    decreases |msgs|
  {
    var m, rest := msgs[0], Wire(msgs[1..]);
    FirstMessage(msgs, at);
    assert forall k :: 0 <= k < |m| ==> Wire(msgs)[k] == m[k] != END_FLAG;
    if q == |m| {
      f := Frame(m, at + |m|);
    } else {
      assert Wire(msgs)[q] == rest[q - |m| - 1];
      f := WireFlagsStop(msgs[1..], at + |m| + 1, q - |m| - 1);
    }
  }

  lemma {:induction false} WireBytes(msgs: seq<Bytes>)
    requires forall i :: 0 <= i < |msgs| ==> 0 !in msgs[i]
    ensures 0 !in Wire(msgs)
  {
    if msgs != [] {
      WireBytes(msgs[1..]);
    }
  }

  /** What was written is what is read, over exactly those chunkings in which no read starts with the flag. */
  lemma WireRoundTrip(msgs: seq<Bytes>, chunks: seq<Bytes>)
    requires Sendable(msgs) && Flatten(chunks) == Wire(msgs)
    ensures Feed(chunks, []).1 == []
    ensures Feed(chunks, []).0 == msgs <==> NoReadStartsWithFlag(chunks)
  {
    WireBytes(msgs);
    StreamWithoutZeros(chunks);
    StreamingRefinement(chunks, [], 0);
    ScanWire(msgs, 0);
    NothingLostIff(chunks);
    if NoReadStartsWithFlag(chunks) {
      NoFlagCutsNoFrame(chunks);
    } else {
      var q := FlagStart(chunks, 0);
      var f := WireFlagsStop(msgs, 0, q);
    }
  }
}
