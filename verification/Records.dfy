/**
 Record-oriented transfer. Records cut into segments by the sender and arriving in any order, with any
 duplicates, are handed to the reader whole, in order and unaltered.
 */
module Records {
  import opened Segments

  /** Position at which record `i` starts. */
  function Off(recs: seq<seq<byte>>, i: nat): nat
    requires i <= |recs|
  {
    |Join(recs[..i])|
  }

  ghost predicate NonEmpty(recs: seq<seq<byte>>) {
    forall i :: 0 <= i < |recs| ==> recs[i] != []
  }

  // ---------------------------------------------------------------- the sender's segments

  /** All segments of a run of write_record calls; `closing` marks the last one as the end of the stream. */
  function WriteRecords(recs: seq<seq<byte>>, closing: bool, mtu: nat): seq<Segment>
    requires mtu > 0
  {
    WriteUpTo(recs, |recs|, closing, mtu)
  }

  function WriteUpTo(recs: seq<seq<byte>>, n: nat, closing: bool, mtu: nat): seq<Segment>
    requires mtu > 0 && n <= |recs|
  {
    if n == 0 then []
    else WriteUpTo(recs, n - 1, closing, mtu)
         + Cut(Off(recs, n - 1), recs[n - 1], Flags(true, true, closing && n == |recs|), mtu)
  }

  /** `seg` is a non-empty slice inside record `i`, flagged exactly when it ends it. */
  ghost predicate OfRecord(seg: Segment, recs: seq<seq<byte>>, i: nat) {
    && i < |recs| && Off(recs, i) <= seg.pos < seg.End() <= Off(recs, i + 1)
    && seg.SliceOf(Join(recs))
    && (seg.flags.EndsRecord() <==> seg.End() == Off(recs, i + 1))
    && (seg.flags.push ==> seg.flags.EndsRecord())
    && (seg.flags.close ==> i + 1 == |recs|)
  }

  ghost predicate Fits(seg: Segment, recs: seq<seq<byte>>) {
    exists i: nat :: OfRecord(seg, recs, i)
  }

  lemma {:induction false} JoinPrefix(recs: seq<seq<byte>>, i: nat)
    requires i <= |recs|
    ensures Join(recs[..i]) <= Join(recs)
    decreases |recs|
  {
    if i < |recs| {
      JoinPrefix(recs[..|recs| - 1], i);
      assert recs[..|recs| - 1][..i] == recs[..i];
    } else {
      assert recs[..i] == recs;
    }
  }

  lemma OffStep(recs: seq<seq<byte>>, i: nat)
    requires i < |recs|
    ensures Off(recs, i + 1) == Off(recs, i) + |recs[i]| <= |Join(recs)|
    ensures Join(recs)[Off(recs, i)..Off(recs, i + 1)] == recs[i]
  {
    assert recs[..i + 1][..i] == recs[..i];
    JoinPrefix(recs, i + 1);
    assert Join(recs)[..Off(recs, i + 1)] == Join(recs[..i]) + recs[i];
  }

  lemma {:induction false} OffMonotone(recs: seq<seq<byte>>, i: nat, j: nat)
    requires NonEmpty(recs) && i < j <= |recs|
    ensures Off(recs, i) < Off(recs, j)
  {
    OffStep(recs, j - 1);
    if i < j - 1 { OffMonotone(recs, i, j - 1); }
  }

  lemma OffEnd(recs: seq<seq<byte>>)
    ensures Off(recs, |recs|) == |Join(recs)|
  {
    assert recs[..|recs|] == recs;
  }

  /** Every segment lies inside a record, and together they carry the stream up to `upTo`. */
  ghost predicate Written(segs: seq<Segment>, recs: seq<seq<byte>>, upTo: nat) {
    && (forall k :: 0 <= k < |segs| ==> Fits(segs[k], recs))
    && (forall p: nat {:trigger SomeCovers(segs, p)} :: p < upTo ==> SomeCovers(segs, p))
  }

  lemma {:induction false} WriteFits(recs: seq<seq<byte>>, n: nat, closing: bool, mtu: nat)
    requires mtu > 0 && n <= |recs| && NonEmpty(recs)
    ensures Written(WriteUpTo(recs, n, closing, mtu), recs, Off(recs, n))
  {
    if n > 0 {
      WriteFits(recs, n - 1, closing, mtu);
      var a, flags := WriteUpTo(recs, n - 1, closing, mtu), Flags(true, true, closing && n == |recs|);
      var b := Cut(Off(recs, n - 1), recs[n - 1], flags, mtu);
      OffStep(recs, n - 1);
      CutPieces(Join(recs), Off(recs, n - 1), Off(recs, n), flags, mtu);
      forall k | 0 <= k < |a + b| ensures Fits((a + b)[k], recs) {
        if k >= |a| { assert OfRecord(b[k - |a|], recs, n - 1); }
      }
      forall p: nat {:trigger SomeCovers(a + b, p)} | p < Off(recs, n) ensures SomeCovers(a + b, p) {
        SomeCoversAppend(a, b, p);
      }
    }
  }
}
