/**
 The wire format: packets closed by END_FLAG, read in arbitrary chunks
 (core/decoder.go, core/conn_tcp.go).
 */
module Framing {
  import opened Splitting

  newtype byte = x: int | 0 <= x < 256
  type Bytes = seq<byte>

  const END_FLAG: byte := 1

  /** The data before the first 0 byte: the rest of a read buffer is padding. */
  function Cut(data: Bytes): (r: Bytes)
    ensures 0 !in r && r <= data
    ensures 0 !in data ==> r == data
    ensures |r| < |data| ==> data[|r|] == 0
  {
    if data == [] || data[0] == 0 then [] else [data[0]] + Cut(data[1..])
  }

  /** The segments of a chunk with the carried part put before the first one. */
  function Segments(part: Bytes, d: Bytes): (r: seq<Bytes>)
    ensures |r| >= 1
  {
    Glue([part], Split(d, END_FLAG))
  }

  function Init<T>(s: seq<T>): (r: seq<T>)
    requires |s| >= 1
  {
    s[..|s| - 1]
  }

  function Last<T>(s: seq<T>): (r: T)
    requires |s| >= 1
  {
    s[|s| - 1]
  }

  /** What one chunk adds to the output: its closed non-empty segments, but a pending part is lost
      when the chunk starts with the flag that closes it. */
  function Emitted(data: Bytes, part: Bytes): (r: seq<Bytes>)
  {
    var d := Cut(data);
    var closed := Init(Segments(part, d));
    if d != [] && d[0] == END_FLAG then
      SplitFree(d, END_FLAG);
      NonEmpty(closed[1..])
    else NonEmpty(closed)
  }

  function Carried(data: Bytes, part: Bytes): (r: Bytes)
  {
    Last(Segments(part, Cut(data)))
  }

  lemma {:induction false} LastByteIsFlag(d: Bytes)
    requires d != []
    ensures Last(d) == END_FLAG <==> Tail(d, END_FLAG) == []
  {
    assert Split(d[1..], END_FLAG) == Split(d, END_FLAG)[1..] || |Split(d[1..], END_FLAG)| == |Split(d, END_FLAG)|;
    if |d| > 1 {
      LastByteIsFlag(d[1..]);
    }
  }

  /** What the splitter has put out when it has passed the first `i` segments. */
  ghost function Done(segs: seq<Bytes>, lost: bool, i: nat): (r: seq<Bytes>)
    requires i <= |segs|
  {
    NonEmpty(if lost && i > 0 then segs[1..i] else segs[..i])
  }

  lemma DoneStep(segs: seq<Bytes>, lost: bool, i: nat)
    requires i < |segs|
    ensures Done(segs, lost, i + 1) ==
            Done(segs, lost, i) + (if segs[i] == [] || (lost && i == 0) then [] else [segs[i]])
  {
    if lost && i == 0 {
      assert segs[1..1] == [] && segs[..0] == [];
    } else {
      var k := if lost then 1 else 0;
      assert segs[k..i] + [segs[i]] == segs[k..i + 1];
      assert !lost ==> segs[..i] == segs[0..i] && segs[..i + 1] == segs[0..i + 1];
      NonEmptyConcat(segs[k..i], [segs[i]]);
    }
  }

  lemma FirstSegment(part: Bytes, d: Bytes)
    requires d != []
    ensures |Segments(part, d)| == |Split(d, END_FLAG)|
    ensures Segments(part, d)[0] == part + Split(d, END_FLAG)[0]
    ensures d[0] == END_FLAG <==> Split(d, END_FLAG)[0] == []
  {
  }

  /** DecodePacket. */
  method DecodePacket(data: Bytes, part: Bytes) returns (packets: seq<Bytes>, newPart: Bytes)
    ensures packets == Emitted(data, part)
    ensures newPart == Carried(data, part)
  {
    packets, newPart := [], [];
    var d := Cut(data);
    if |d| == 0 {
      assert part + [] == part;
      return [], part;
    }
    var dataList := Split(d, END_FLAG);
    var lastByte := d[|d| - 1];
    LastByteIsFlag(d);
    FirstSegment(part, d);
    var size := |dataList| - 1;
    if size > 0 {
      ghost var segs := Segments(part, d);
      ghost var lost := d[0] == END_FLAG;
      for i := 0 to |dataList|
        invariant packets == Done(segs, lost, if i <= size then i else size)
        invariant newPart == if i <= size then [] else Last(segs)
      {
        var packet := dataList[i];
        DoneStep(segs, lost, i);
        assert i > 0 ==> packet == segs[i];
        assert part == [] ==> part + packet == packet;
        if |packet| > 0 {
          if i == 0 && |part| > 0 {
            packet := part + packet;
            packets := packets + [packet];
          } else if i == size && lastByte != END_FLAG {
            newPart := packet;
          } else {
            packets := packets + [packet];
          }
        }
      }
      assert segs[1..size] == Init(segs)[1..];
    } else {
      SplitFree(d, END_FLAG);
      var packet := dataList[0];
      if |part| > 0 {
        packet := part + packet;
      }
      if lastByte != END_FLAG {
        newPart := packet;
      } else {
        packets := packets + [packet];
      }
    }
  }
}
