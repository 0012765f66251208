/** Stream segments: positioned slices of a byte stream, with the flags a data packet carries. */
module Segments {

  newtype byte = b: int | 0 <= b < 256

  /** The data-packet flags that matter to the receiver. */
  datatype Flags = Flags(push: bool, record: bool, close: bool) {
    predicate Any() { push || record || close }

    predicate EndsRecord() { record || close }
  }

  datatype Segment = Segment(pos: nat, data: seq<byte>, flags: Flags) {
    function End(): nat { pos + |data| }

    predicate Covers(p: nat) { pos <= p < End() }

    /** The segment carries exactly the bytes of `s` at its position. */
    predicate SliceOf(s: seq<byte>) {
      End() <= |s| && data == s[pos..End()]
    }

    /** The part of the segment at or after `at`; the source merges the rest into the header. */
    function Trim(at: nat): (r: Segment)
      requires pos <= at <= End()
    {
      Segment(at, data[at - pos..], flags)
    }
  }

  /** Total payload of a list of segments. */
  function Total(segs: seq<Segment>): nat {
    if segs == [] then 0 else |segs[0].data| + Total(segs[1..])
  }

  /** The bytes of a list of segments, in order. */
  function Flat(segs: seq<Segment>): seq<byte> {
    if segs == [] then [] else segs[0].data + Flat(segs[1..])
  }

  lemma {:induction false} FlatTotal(segs: seq<Segment>)
    ensures |Flat(segs)| == Total(segs)
  {
    if segs != [] { FlatTotal(segs[1..]); }
  }

  /** Byte strings one after the other. */
  function Join(parts: seq<seq<byte>>): seq<byte> {
    if parts == [] then [] else Join(parts[..|parts| - 1]) + parts[|parts| - 1]
  }

  lemma {:induction false} JoinFirst(parts: seq<seq<byte>>)
    requires parts != []
    ensures Join(parts) == parts[0] + Join(parts[1..])
  {
    if |parts| > 1 {
      var front, last, rest := parts[..|parts| - 1], parts[|parts| - 1], parts[1..];
      JoinFirst(front);
      assert rest[..|rest| - 1] == front[1..] && rest[|rest| - 1] == last;
      assert Join(rest) == Join(front[1..]) + last;
      assert parts[0] + Join(front[1..]) + last == parts[0] + (Join(front[1..]) + last);
    } else {
      assert parts[..0] == [] && parts[1..] == [];
    }
  }

  function Sum(sizes: seq<int>): int {
    if sizes == [] then 0 else sizes[0] + Sum(sizes[1..])
  }

  lemma {:induction false} TotalAppend(a: seq<Segment>, b: seq<Segment>)
    ensures Total(a + b) == Total(a) + Total(b)
  {
    if a == [] {
      assert a + b == b;
    } else {
      assert (a + b)[1..] == a[1..] + b;
      TotalAppend(a[1..], b);
    }
  }

  lemma {:induction false} FlatAppend(a: seq<Segment>, b: seq<Segment>)
    ensures Flat(a + b) == Flat(a) + Flat(b)
  {
    if a == [] {
      assert a + b == b;
    } else {
      assert (a + b)[1..] == a[1..] + b;
      FlatAppend(a[1..], b);
    }
  }

  lemma {:induction false} SumAppend(a: seq<int>, b: seq<int>)
    ensures Sum(a + b) == Sum(a) + Sum(b)
  {
    if a == [] {
      assert a + b == b;
    } else {
      assert (a + b)[1..] == a[1..] + b;
      SumAppend(a[1..], b);
    }
  }

  /** Trimming keeps a slice a slice. */
  lemma TrimSlice(seg: Segment, at: nat, s: seq<byte>)
    requires seg.pos <= at <= seg.End() && seg.SliceOf(s)
    ensures seg.Trim(at).SliceOf(s) && seg.Trim(at).End() == seg.End()
  {
    assert s[seg.pos..seg.End()][at - seg.pos..] == s[at..seg.End()];
  }

  /** Some segment of the list carries position `p`. */
  ghost predicate SomeCovers(segs: seq<Segment>, p: nat) {
    exists k :: 0 <= k < |segs| && segs[k].Covers(p)
  }

  lemma SomeCoversAppend(a: seq<Segment>, b: seq<Segment>, p: nat)
    ensures SomeCovers(a + b, p) <==> SomeCovers(a, p) || SomeCovers(b, p)
  {
    if SomeCovers(a, p) {
      var k :| 0 <= k < |a| && a[k].Covers(p);
      assert (a + b)[k].Covers(p);
    }
    if SomeCovers(b, p) {
      var k :| 0 <= k < |b| && b[k].Covers(p);
      assert (a + b)[|a| + k].Covers(p);
    }
  }

  /** write_data: full segments of `mtu` bytes, then a pushed remainder carrying the end flags. */
  function Cut(pos: nat, data: seq<byte>, end: Flags, mtu: nat): (segs: seq<Segment>)
    requires mtu > 0
    ensures |segs| > 0
    decreases |data|
  {
    if |data| <= mtu then [Segment(pos, data, Flags(true, end.record, end.close))]
    else [Segment(pos, data[..mtu], Flags(false, false, false))] + Cut(pos + mtu, data[mtu..], end, mtu)
  }

  /** Flags of a piece that ends at `at` when the write ends at `end`. */
  function PieceFlags(at: nat, end: nat, flags: Flags): Flags {
    if at == end then Flags(true, flags.record, flags.close) else Flags(false, false, false)
  }

  /**
   Non-empty, ascending, disjoint slices of at most `mtu` bytes that cover [pos, end); exactly the last
   one carries the end flags.
   */
  ghost predicate Pieces(segs: seq<Segment>, stream: seq<byte>, pos: nat, end: nat, flags: Flags, mtu: nat) {
    && (forall k :: 0 <= k < |segs| ==>
          && segs[k].SliceOf(stream) && pos <= segs[k].pos < segs[k].End() <= end
          && |segs[k].data| <= mtu && segs[k].flags == PieceFlags(segs[k].End(), end, flags))
    && (forall j, k :: 0 <= j < k < |segs| ==> segs[j].End() <= segs[k].pos)
    && (forall p: nat {:trigger SomeCovers(segs, p)} :: pos <= p < end ==> SomeCovers(segs, p))
  }

  /** write_data cuts stream[pos..end] into pieces: no byte is left out and none is sent twice. */
  lemma {:induction false} CutPieces(stream: seq<byte>, pos: nat, end: nat, flags: Flags, mtu: nat)
    requires mtu > 0 && pos < end <= |stream|
    ensures Pieces(Cut(pos, stream[pos..end], flags, mtu), stream, pos, end, flags, mtu)
    decreases end - pos
  {
    var segs := Cut(pos, stream[pos..end], flags, mtu);
    if end - pos > mtu {
      var rest := Cut(pos + mtu, stream[pos + mtu..end], flags, mtu);
      assert stream[pos..end][mtu..] == stream[pos + mtu..end];
      assert stream[pos..end][..mtu] == stream[pos..pos + mtu];
      CutPieces(stream, pos + mtu, end, flags, mtu);
      assert segs == [segs[0]] + rest;
      forall p: nat {:trigger SomeCovers(segs, p)} | pos <= p < end ensures SomeCovers(segs, p) {
        SomeCoversAppend([segs[0]], rest, p);
        if p < pos + mtu { assert [segs[0]][0].Covers(p); }
      }
    } else {
      forall p: nat {:trigger SomeCovers(segs, p)} | pos <= p < end ensures SomeCovers(segs, p) {
        assert segs[0].Covers(p);
      }
    }
  }
}
