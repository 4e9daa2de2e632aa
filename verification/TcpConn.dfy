/** The TCP receive loop and its adaptive read buffer (core/conn_tcp.go). */
module TcpConn {
  import opened Framing
  import opened Streams

  const FIRST_BUF_LEN: nat := 1024
  const MAX_BUF_LEN: nat := 4096

  /** change_buff_len: the regrow to n + n/4 is tested only when the clamp did not apply. */
  function NextLen(len: nat, n: nat): (r: nat)
  {
    if n <= 2 then len
    else
      var l := if n == len then len + len / 4 else if n < len then len - len / 4 else len;
      if l > MAX_BUF_LEN then MAX_BUF_LEN
      else if l < n then n + n / 4
      else l
  }

  /** The next length by the size of the read: nothing for up to 2 bytes, a quarter more for a full buffer, a quarter
      less for a small read, and a quarter more than the read if that would not hold it again; 4096 caps the first
      three. */
  lemma NextLenIs(len: nat, n: nat)
    requires n <= len
    ensures n <= 2 ==> NextLen(len, n) == len
    ensures 2 < n == len <= 3276 ==> NextLen(len, n) == len + len / 4
    ensures 2 < n == len && len > 3276 ==> NextLen(len, n) == 4096
    ensures 2 < n && 2 * n < len <= 5460 ==> NextLen(len, n) == len - len / 4
    ensures 2 < n < len && n <= len - len / 4 <= 4096 ==> NextLen(len, n) == len - len / 4
    ensures 2 < n < len && len - len / 4 < n && len - len / 4 <= 4096 ==> NextLen(len, n) == n + n / 4
    ensures 2 < n < len && len - len / 4 > 4096 ==> NextLen(len, n) == 4096
  {
  }

  /** The buffer length after reads of the given sizes. */
  function LenAfter(len: nat, ns: seq<nat>): (r: nat)
    decreases |ns|
  {
    if ns == [] then len else LenAfter(NextLen(len, ns[0]), ns[1..])
  }

  /** Each read fits the buffer it is made with. */
  predicate Fits(len: nat, ns: seq<nat>)
    decreases |ns|
  {
    ns == [] || (ns[0] <= len && Fits(NextLen(len, ns[0]), ns[1..]))
  }

  function Sizes(chunks: seq<Bytes>): (r: seq<nat>)
    ensures |r| == |chunks|
  {
    seq(|chunks|, i requires 0 <= i < |chunks| => |chunks[i]|)
  }

  // ---------------------------------------------------------------- bounds

  const LOW: nat := 3
  const HIGH: nat := 6825

  /** Whatever arrives, the length stays between 3 and 6825. */
  lemma {:induction false} LengthBounds(len: nat, ns: seq<nat>)
    requires LOW <= len <= HIGH && Fits(len, ns)
    ensures LOW <= LenAfter(len, ns) <= HIGH
    decreases |ns|
  {
    if ns != [] {
      LengthBounds(NextLen(len, ns[0]), ns[1..]);
    }
  }

  /** Reads of three bytes that shrink the buffer to 3. */
  function ShrinkPlan(len: nat): (ns: seq<nat>)
    requires LOW <= len <= HIGH
    ensures Fits(len, ns) && LenAfter(len, ns) == LOW
    ensures forall i :: 0 <= i < |ns| ==> ns[i] == 3
    decreases len
  {
    if len == 3 then []
    else
      var rest := ShrinkPlan(NextLen(len, 3));
      assert ([3] + rest)[1..] == rest;
      [3] + rest
  }

  /** Every read fills the buffer. */
  predicate FullReads(len: nat, ns: seq<nat>)
    decreases |ns|
  {
    ns == [] || (ns[0] == len && FullReads(NextLen(len, len), ns[1..]))
  }

  /** Full reads that bring the buffer to max_buf_len. */
  function GrowPlan(len: nat): (ns: seq<nat>)
    requires 4 <= len
    ensures FullReads(len, ns) && Fits(len, ns) && LenAfter(len, ns) == MAX_BUF_LEN
    decreases if len > MAX_BUF_LEN then 1 else MAX_BUF_LEN - len
  {
    if len == MAX_BUF_LEN then []
    else
      var rest := GrowPlan(NextLen(len, len));
      assert ([len] + rest)[1..] == rest;
      [len] + rest
  }

  lemma {:induction false} LenAfterConcat(len: nat, a: seq<nat>, b: seq<nat>)
    ensures LenAfter(len, a + b) == LenAfter(LenAfter(len, a), b)
    ensures Fits(len, a + b) <==> Fits(len, a) && Fits(LenAfter(len, a), b)
    decreases |a|
  {
    if a == [] {
      assert a + b == b;
    } else {
      assert (a + b)[1..] == a[1..] + b;
      LenAfterConcat(NextLen(len, a[0]), a[1..], b);
    }
  }

  /** Three reads from max_buf_len to the highest length. */
  lemma Peak()
    ensures Fits(MAX_BUF_LEN, [4095, 4369, 5460]) && LenAfter(MAX_BUF_LEN, [4095, 4369, 5460]) == HIGH
  {
    PeakStep(4096, 4095, [4369, 5460]);
    PeakStep(5118, 4369, [5460]);
    PeakStep(5461, 5460, []);
  }

  lemma PeakStep(len: nat, n: nat, ns: seq<nat>)
    ensures LenAfter(len, [n] + ns) == LenAfter(NextLen(len, n), ns)
    ensures Fits(len, [n] + ns) <==> n <= len && Fits(NextLen(len, n), ns)
  {
    assert ([n] + ns)[1..] == ns;
  }

  /** Both bounds are reached from the first length, so max_buf_len is no bound. */
  lemma BoundsAreReached() returns (toLow: seq<nat>, toHigh: seq<nat>)
    ensures Fits(FIRST_BUF_LEN, toLow) && LenAfter(FIRST_BUF_LEN, toLow) == LOW
    ensures Fits(FIRST_BUF_LEN, toHigh) && LenAfter(FIRST_BUF_LEN, toHigh) == HIGH > MAX_BUF_LEN
  {
    toLow := ShrinkPlan(FIRST_BUF_LEN);
    toHigh := GrowPlan(FIRST_BUF_LEN) + [4095, 4369, 5460];
    Peak();
    LenAfterConcat(FIRST_BUF_LEN, GrowPlan(FIRST_BUF_LEN), [4095, 4369, 5460]);
  }

  /** A buffer that has shrunk to 3 never grows again. */
  lemma {:induction false} Absorbing(ns: seq<nat>)
    requires Fits(LOW, ns)
    ensures LenAfter(LOW, ns) == LOW
  {
    if ns != [] {
      Absorbing(ns[1..]);
    }
  }

  lemma {:induction false} FullReadsKeepMax(ns: seq<nat>)
    requires FullReads(MAX_BUF_LEN, ns)
    ensures LenAfter(MAX_BUF_LEN, ns) == MAX_BUF_LEN
  {
    if ns != [] {
      FullReadsKeepMax(ns[1..]);
    }
  }

  /** From every length of at least 4, however many full reads come after enough of them, the length is max_buf_len. */
  lemma FullReadsReachMax(len: nat, ns: seq<nat>)
    requires 4 <= len && FullReads(len, ns) && |ns| >= |GrowPlan(len)|
    ensures LenAfter(len, ns) == MAX_BUF_LEN
  {
    var plan := GrowPlan(len);
    var more := ns[|plan|..];
    SameFullReads(len, plan, ns);
    assert ns == plan + more;
    LenAfterConcat(len, plan, more);
    FullReadsSplit(len, plan, more);
    FullReadsKeepMax(more);
  }

  lemma {:induction false} SameFullReads(len: nat, a: seq<nat>, b: seq<nat>)
    requires FullReads(len, a) && FullReads(len, b) && |a| <= |b|
    ensures a == b[..|a|]
    decreases |a|
  {
    if a != [] {
      SameFullReads(NextLen(len, len), a[1..], b[1..]);
      assert a == [a[0]] + a[1..] && b[..|a|] == [b[0]] + b[1..][..|a| - 1];
    }
  }

  lemma {:induction false} FullReadsSplit(len: nat, a: seq<nat>, b: seq<nat>)
    requires FullReads(len, a + b)
    ensures FullReads(LenAfter(len, a), b)
    decreases |a|
  {
    if a == [] {
      assert a + b == b;
    } else {
      assert (a + b)[1..] == a[1..] + b;
      FullReadsSplit(NextLen(len, len), a[1..], b);
    }
  }

  // ---------------------------------------------------------------- the connection

  lemma FeedStep(chunks: seq<Bytes>, i: nat, part: Bytes)
    requires i < |chunks|
    ensures Feed(chunks[i..], part) ==
            (Emitted(chunks[i], part) + Feed(chunks[i + 1..], Carried(chunks[i], part)).0,
             Feed(chunks[i + 1..], Carried(chunks[i], part)).1)
  {
    assert chunks[i..][0] == chunks[i] && chunks[i..][1..] == chunks[i + 1..];
  }

  class TcpSessionConn {
    var part: Bytes
    var buffLen: nat
    var handled: seq<Bytes>   // the packets given to the handler, in order

    constructor ()
      ensures part == [] && buffLen == FIRST_BUF_LEN && handled == []
    {
      part, buffLen, handled := [], FIRST_BUF_LEN, [];
    }

    method ChangeBuffLen(n: nat)
      modifies this`buffLen
      ensures buffLen == NextLen(old(buffLen), n)
    {
      if n > 2 {
        if n == buffLen {
          buffLen := buffLen + buffLen / 4;
        } else if n < buffLen {
          buffLen := buffLen - buffLen / 4;
        }
        if buffLen > MAX_BUF_LEN {
          buffLen := MAX_BUF_LEN;
        } else if buffLen < n {
          buffLen := n + n / 4;
        }
      }
    }

    /** One round of recv on what a read returned. */
    method TakeRead(chunk: Bytes)
      modifies this
      ensures handled == old(handled) + Emitted(chunk, old(part)) && part == Carried(chunk, old(part))
      ensures buffLen == NextLen(old(buffLen), |chunk|)
    {
      var packets, newPart := DecodePacket(chunk, part);
      part := newPart;
      if |packets| > 0 {
        handled := handled + packets;
      }
      ChangeBuffLen(|chunk|);
    }

    /** recv, over the reads the connection delivers before it fails. */
    method Recv(chunks: seq<Bytes>)
      requires Fits(buffLen, Sizes(chunks))
      modifies this
      ensures handled == old(handled) + Feed(chunks, old(part)).0
      ensures part == Feed(chunks, old(part)).1
      ensures buffLen == LenAfter(old(buffLen), Sizes(chunks))
    {
      ghost var sizes := Sizes(chunks);
      ghost var packetsDue := old(handled) + Feed(chunks, old(part)).0;
      ghost var partDue := Feed(chunks, old(part)).1;
      ghost var lenDue := LenAfter(old(buffLen), sizes);
      assert chunks[0..] == chunks && sizes[0..] == sizes;
      for i := 0 to |chunks|
        invariant Fits(buffLen, sizes[i..]) && LenAfter(buffLen, sizes[i..]) == lenDue
        invariant handled + Feed(chunks[i..], part).0 == packetsDue
        invariant Feed(chunks[i..], part).1 == partDue
      {
        assert sizes[i..][1..] == sizes[i + 1..];
        FeedStep(chunks, i, part);
        Regroup(handled, Emitted(chunks[i], part), Feed(chunks[i + 1..], Carried(chunks[i], part)).0);
        TakeRead(chunks[i]);
      }
      assert chunks[|chunks|..] == [];
    }
  }

  lemma Regroup(a: seq<Bytes>, b: seq<Bytes>, c: seq<Bytes>)
    ensures a + (b + c) == (a + b) + c
  {
  }

  /** End to end: what a peer writes with SendMessage is what the handler gets, when no read starts with the flag. */
  method Receive(msgs: seq<Bytes>, chunks: seq<Bytes>) returns (handled: seq<Bytes>, len: nat)
    requires Sendable(msgs) && Flatten(chunks) == Wire(msgs)
    requires Fits(FIRST_BUF_LEN, Sizes(chunks))
    ensures handled == msgs <==> NoReadStartsWithFlag(chunks)
    ensures LOW <= len <= HIGH
  {
    var conn := new TcpSessionConn();
    conn.Recv(chunks);
    WireRoundTrip(msgs, chunks);
    LengthBounds(FIRST_BUF_LEN, Sizes(chunks));
    handled, len := conn.handled, conn.buffLen;
  }
}
