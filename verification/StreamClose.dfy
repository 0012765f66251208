/**
 Closing. A closing segment that arrives again once its bytes were consumed leaves its mere flag in the receive
 queue, or shuts reading down at once; bytes written after it are then never read. Here is what the receiver keeps
 in any case, and exactly which arrivals and reads spoil it for good.
 */
module StreamClose {
  import opened Options
  import opened Segments
  import opened Reassembly
  import opened ReassemblyProofs
  import R = ReassemblyRuns

  // ---------------------------------------------------------------- segments as they were cut

  /** The segments cut from a stream, by position: non-empty slices that do not overlap. */
  ghost predicate Parted(cut: map<nat, Segment>, stream: seq<byte>) {
    && (forall q :: q in cut ==> cut[q].pos == q && cut[q].data != [] && cut[q].SliceOf(stream))
    && (forall q, p :: q in cut && p in cut && q < p ==> cut[q].End() <= p)
  }

  ghost predicate From(cut: map<nat, Segment>, seg: Segment) {
    seg.pos in cut && cut[seg.pos] == seg
  }

  /** Some segment closes the stream at `p`. */
  ghost predicate Closes(cut: map<nat, Segment>, p: nat) {
    exists q :: q in cut && cut[q].flags.close && cut[q].End() == p
  }

  ghost predicate AllFrom(cut: map<nat, Segment>, segs: seq<Segment>) {
    forall i :: 0 <= i < |segs| ==> From(cut, segs[i])
  }

  ghost predicate Rising(readahead: seq<Segment>) {
    forall i, j :: 0 <= i < j < |readahead| ==> readahead[i].pos < readahead[j].pos
  }

  // ---------------------------------------------------------------- the receive queue

  /** Record sizes once `n` bytes of the first record are gone. */
  function Left(sizes: seq<int>, n: int): seq<int> {
    if sizes == [] then [] else if sizes[0] == n then sizes[1..] else sizes[0 := sizes[0] - n]
  }

  /** Record sizes once a segment brought the open record to `open` bytes. */
  function Ended(sizes: seq<int>, open: int, ends: bool): seq<int> {
    if ends && open > 0 then sizes + [open] else sizes
  }

  /** Closing segments in a queue that begins at `at` end where the stream was closed and, with bytes, a record. */
  ghost predicate Proper(segs: seq<Segment>, sizes: seq<int>, at: nat, cut: map<nat, Segment>) {
    segs == []
    || (var n := |segs[0].data|;
        && (segs[0].flags.close ==> Closes(cut, at + n) && (n > 0 ==> sizes != [] && sizes[0] == n))
        && Proper(segs[1..], Left(sizes, n), at + n, cut))
  }

  /** No mere closing flag stands before the end of the stream. */
  ghost predicate Clear(segs: seq<Segment>, at: nat, end: nat) {
    segs == []
    || ((segs[0].flags.close && segs[0].data == [] ==> at == end) && Clear(segs[1..], at + |segs[0].data|, end))
  }

  /** Some mere closing flag is in the queue. */
  ghost predicate Flagged(segs: seq<Segment>) {
    segs != [] && ((segs[0].flags.close && segs[0].data == []) || Flagged(segs[1..]))
  }

  /** What holds of every receiver of these segments. */
  ghost predicate Sane(s: Rx, read: seq<byte>, cut: map<nat, Segment>) {
    s.linkUp &&
    if s.endRead then Closes(cut, |read|)
    else
      && Proper(s.segments, s.recordSizes, |read|, cut)
      && Rising(s.readahead) && AllFrom(cut, s.readahead)
  }

  /** The whole stream can still be read. */
  ghost predicate Whole(s: Rx, read: seq<byte>, stream: seq<byte>) {
    if s.endRead then read == stream else Clear(s.segments, |read|, |stream|)
  }

  /** The arrival that spoils it: the closing segment just consumed comes again, and the stream goes on after it. */
  ghost predicate Repeats(s: Rx, seg: Segment, stream: seq<byte>) {
    !s.endRead && seg.flags.close && seg.End() == s.byteSeq && s.byteSeq < |stream|
  }

  lemma {:induction false} FlatEmpty(segs: seq<Segment>)
    requires Total(segs) == 0
    ensures Flat(segs) == []
  {
    if segs != [] { FlatEmpty(segs[1..]); }
  }

  lemma {:induction false} ClearAppend(segs: seq<Segment>, seg: Segment, at: nat, end: nat)
    ensures Clear(segs + [seg], at, end) <==>
            Clear(segs, at, end) && (seg.flags.close && seg.data == [] ==> at + Total(segs) == end)
  {
    if segs == [] {
      assert [] + [seg] == [seg] && [seg][1..] == [];
    } else {
      assert (segs + [seg])[1..] == segs[1..] + [seg];
      ClearAppend(segs[1..], seg, at + |segs[0].data|, end);
    }
  }

  /** Flags at the very end of the stream do no harm. */
  lemma {:induction false} ClearAtEnd(segs: seq<Segment>, at: nat)
    requires Total(segs) == 0
    ensures Clear(segs, at, at)
  {
    if segs != [] { ClearAtEnd(segs[1..], at); }
  }

  /** In a stream that goes on after the queue every mere closing flag does harm. */
  lemma {:induction false} ClearBeyond(segs: seq<Segment>, at: nat, end: nat)
    requires at + Total(segs) < end
    ensures Clear(segs, at, end) <==> !Flagged(segs)
  {
    if segs != [] { ClearBeyond(segs[1..], at + |segs[0].data|, end); }
  }

  lemma {:induction false} UnflaggedClear(segs: seq<Segment>, at: nat, end: nat)
    requires !Flagged(segs)
    ensures Clear(segs, at, end)
  {
    if segs != [] { UnflaggedClear(segs[1..], at + |segs[0].data|, end); }
  }

  /** What was closed only at its end holds no harmful flag. */
  lemma {:induction false} ProperClear(segs: seq<Segment>, sizes: seq<int>, at: nat, cut: map<nat, Segment>, end: nat)
    requires Proper(segs, sizes, at, cut) && forall p: nat :: Closes(cut, p) ==> p == end
    ensures Clear(segs, at, end)
  {
    if segs != [] { ProperClear(segs[1..], Left(sizes, |segs[0].data|), at + |segs[0].data|, cut, end); }
  }

  lemma {:induction false} ProperMore(
      segs: seq<Segment>, sizes: seq<int>, at: nat, cut: map<nat, Segment>, more: map<nat, Segment>)
    requires Proper(segs, sizes, at, cut) && forall q :: q in cut ==> q in more && more[q] == cut[q]
    ensures Proper(segs, sizes, at, more)
  {
    if segs != [] {
      ProperMore(segs[1..], Left(sizes, |segs[0].data|), at + |segs[0].data|, cut, more);
      ClosesMore(cut, more, at + |segs[0].data|);
    }
  }

  lemma ClosesMore(cut: map<nat, Segment>, more: map<nat, Segment>, p: nat)
    requires forall q :: q in cut ==> q in more && more[q] == cut[q]
    ensures Closes(cut, p) ==> Closes(more, p)
  {}

  /** A record ended later leaves the same sizes behind. */
  lemma LeftEnded(sizes: seq<int>, open: int, ends: bool, n: nat)
    requires Positive(sizes) && 0 <= open
    requires if sizes == [] then n <= open else n <= sizes[0]
    ensures Left(Ended(sizes, open, ends), n) == Ended(Left(sizes, n), if sizes == [] then open - n else open, ends)
  {
    if sizes != [] && ends && open > 0 {
      assert (sizes + [open])[1..] == sizes[1..] + [open];
      assert (sizes + [open])[0 := sizes[0] - n] == sizes[0 := sizes[0] - n] + [open];
    }
  }

  lemma AlignedLeft(segs: seq<Segment>, sizes: seq<int>, open: int)
    requires segs != [] && Aligned(segs, sizes) && Positive(sizes) && 0 <= open && Total(segs) == Sum(sizes) + open
    ensures var n, left := |segs[0].data|, Left(sizes, |segs[0].data|);
            && (if sizes == [] then n <= open else n <= sizes[0])
            && Aligned(segs[1..], left) && Positive(left)
            && Total(segs[1..]) == Sum(left) + if sizes == [] then open - n else open
  {
    var n := |segs[0].data|;
    if sizes != [] && n < sizes[0] { assert sizes[0 := sizes[0] - n][1..] == sizes[1..]; }
  }

  lemma EndedFirst(sizes: seq<int>, open: int, ends: bool)
    requires sizes != []
    ensures Ended(sizes, open, ends) != [] && Ended(sizes, open, ends)[0] == sizes[0]
  {}

  /** A segment that comes alone. */
  lemma ProperOne(sizes: seq<int>, open: int, seg: Segment, at: nat, cut: map<nat, Segment>)
    requires Positive(sizes) && 0 <= open && Sum(sizes) + open == 0
    requires seg.flags.close ==> Closes(cut, at + |seg.data|)
    ensures Proper([seg], Ended(sizes, open + |seg.data|, seg.flags.EndsRecord()), at, cut)
  {
    SumPositive(sizes);
    assert sizes == [] && [seg][1..] == [];
  }

  lemma {:induction false} ProperAppend(
      segs: seq<Segment>, sizes: seq<int>, open: int, seg: Segment, at: nat, cut: map<nat, Segment>)
    requires Proper(segs, sizes, at, cut) && Aligned(segs, sizes) && Positive(sizes) && 0 <= open
    requires Total(segs) == Sum(sizes) + open
    requires seg.flags.close ==> Closes(cut, at + Total(segs) + |seg.data|)
    ensures Proper(segs + [seg], Ended(sizes, open + |seg.data|, seg.flags.EndsRecord()), at, cut)
    decreases |segs|
  {
    hide Aligned, Positive, Ended, Left, Closes, Sum;
    if segs == [] {
      assert [] + [seg] == [seg];
      ProperOne(sizes, open, seg, at, cut);
    } else {
      var n := |segs[0].data|;
      assert (segs + [seg])[1..] == segs[1..] + [seg];
      AlignedLeft(segs, sizes, open);
      LeftEnded(sizes, open + |seg.data|, seg.flags.EndsRecord(), n);
      if sizes != [] { EndedFirst(sizes, open + |seg.data|, seg.flags.EndsRecord()); }
      ProperAppend(segs[1..], Left(sizes, n), if sizes == [] then open - n else open, seg, at + n, cut);
    }
  }

  // ---------------------------------------------------------------- arrivals

  /** The receiver between two segments it consumes. */
  ghost predicate Consuming(s: Rx, read: seq<byte>, stream: seq<byte>, cut: map<nat, Segment>) {
    !s.endRead && Sane(s, read, cut) && R.InOrder(s, read, stream) && Accounts(s)
  }

  lemma QueueEnd(s: Rx, read: seq<byte>, stream: seq<byte>)
    requires R.InOrder(s, read, stream)
    ensures |read| + Total(s.segments) == s.byteSeq <= |stream|
  {
    FlatTotal(s.segments);
  }

  lemma EnqueueProper(s: Rx, seg: Segment, at: nat, cut: map<nat, Segment>)
    requires Accounts(s) && Proper(s.segments, s.recordSizes, at, cut)
    requires seg.flags.close ==> Closes(cut, at + Total(s.segments) + |seg.data|)
    ensures var t := Enqueue(s, seg);
            && t == s.(byteSeq := t.byteSeq, available := t.available, bufferUsed := t.bufferUsed,
                       segments := s.segments + [seg], recordSizes := t.recordSizes, recordAvailable := t.recordAvailable)
            && Proper(t.segments, t.recordSizes, at, cut)
  {
    hide Proper, Aligned;
    ProperAppend(s.segments, s.recordSizes, s.recordAvailable, seg, at, cut);
  }

  lemma EnqueueSane(s: Rx, seg: Segment, read: seq<byte>, stream: seq<byte>, cut: map<nat, Segment>)
    requires Consuming(s, read, stream, cut) && seg.pos == s.byteSeq && seg.SliceOf(stream)
    requires seg.flags.close ==> Closes(cut, seg.End())
    ensures Consuming(Enqueue(s, seg), read, stream, cut)
    ensures Clear(Enqueue(s, seg).segments, |read|, |stream|) <==>
            Clear(s.segments, |read|, |stream|) && (seg.flags.close && seg.data == [] ==> s.byteSeq == |stream|)
  {
    hide Proper, Clear, Accounts, R.InOrder, Enqueue, Closes, Rising, AllFrom, Total, Segment.SliceOf;
    R.InOrderEnqueue(s, read, seg, stream);
    EnqueueAccounts(s, seg);
    QueueEnd(s, read, stream);
    EnqueueProper(s, seg, |read|, cut);
    ClearAppend(s.segments, seg, |read|, |stream|);
  }

  /** Early segments bring bytes of their own, whichever of them are consumed first. */
  ghost predicate Fresh(readahead: seq<Segment>, at: nat) {
    forall i :: 0 <= i < |readahead| ==> readahead[i].End() > at
  }

  /** Once `seg` is consumed, early segments that start beyond where it did still bring bytes. */
  lemma FreshAfter(readahead: seq<Segment>, seg: Segment, cut: map<nat, Segment>, stream: seq<byte>)
    requires Parted(cut, stream) && From(cut, seg)
    requires forall i :: 0 <= i < |readahead| ==> From(cut, readahead[i]) && readahead[i].pos > seg.pos
    ensures Fresh(readahead, seg.End())
  {}

  /** One early segment that has become contiguous is consumed. */
  lemma DrainOne(s: Rx, read: seq<byte>, stream: seq<byte>, cut: map<nat, Segment>)
    requires Consuming(s, read, stream, cut) && Parted(cut, stream) && Fresh(s.readahead, s.byteSeq)
    requires s.readahead != [] && s.readahead[0].pos <= s.byteSeq
    ensures Useful(s.readahead[0], s.byteSeq)
    ensures var seg := s.readahead[0];
            var t := s.(readahead := s.readahead[1..], bufferUsed := s.bufferUsed - |seg.data|);
            var u := Enqueue(t, seg.Trim(s.byteSeq));
            && Consuming(u, read, stream, cut) && u.readahead == t.readahead && Fresh(u.readahead, u.byteSeq)
            && u.available >= s.available
            && (Clear(u.segments, |read|, |stream|) <==> Clear(s.segments, |read|, |stream|))
  {
    var seg := s.readahead[0];
    var t := s.(readahead := s.readahead[1..], bufferUsed := s.bufferUsed - |seg.data|);
    FrontGone(s, t, read, stream, cut);
    TrimSlice(seg, s.byteSeq, stream);
    FreshAfter(t.readahead, seg, cut, stream);
    hide Sane, Proper, Accounts, R.InOrder, Parted, Clear;
    EnqueueSane(t, seg.Trim(s.byteSeq), read, stream, cut);
  }

  lemma {:induction false} DrainSane(s: Rx, last: bool, read: seq<byte>, stream: seq<byte>, cut: map<nat, Segment>)
    requires Consuming(s, read, stream, cut) && Parted(cut, stream) && Fresh(s.readahead, s.byteSeq)
    ensures var t := Drain(s, last).0;
            && Consuming(t, read, stream, cut) && t.available >= s.available
            && (Clear(t.segments, |read|, |stream|) <==> Clear(s.segments, |read|, |stream|))
    decreases |s.readahead|
  {
    hide Consuming, Parted, Fresh, Clear, Enqueue;
    if s.readahead != [] && s.readahead[0].pos <= s.byteSeq {
      var seg := s.readahead[0];
      var t := s.(readahead := s.readahead[1..], bufferUsed := s.bufferUsed - |seg.data|);
      DrainOne(s, read, stream, cut);
      DrainSane(Enqueue(t, seg.Trim(s.byteSeq)), last || seg.flags.close, read, stream, cut);
    }
  }

  lemma FrontGone(s: Rx, t: Rx, read: seq<byte>, stream: seq<byte>, cut: map<nat, Segment>)
    requires Consuming(s, read, stream, cut) && s.readahead != [] && Parted(cut, stream)
    requires t == s.(readahead := s.readahead[1..], bufferUsed := s.bufferUsed - |s.readahead[0].data|)
    ensures Consuming(t, read, stream, cut) && From(cut, s.readahead[0]) && s.readahead[0].SliceOf(stream)
    ensures forall i :: 0 <= i < |t.readahead| ==> From(cut, t.readahead[i]) && t.readahead[i].pos > s.readahead[0].pos
    ensures s.readahead[0].flags.close ==> Closes(cut, s.readahead[0].End())
  {
    hide Proper;
  }

  /** A segment that brings bytes. */
  lemma NewBytes(s: Rx, seg: Segment, read: seq<byte>, stream: seq<byte>, cut: map<nat, Segment>)
    requires Consuming(s, read, stream, cut) && Parted(cut, stream) && From(cut, seg)
    requires R.AllBeyond(s.readahead, s.byteSeq) && seg.pos <= s.byteSeq < seg.End()
    ensures var (t, last) := Drain(Enqueue(s, seg.Trim(s.byteSeq)), seg.flags.close);
            && Sane(t, read, cut) && !t.endRead && t.available > 0
            && (Whole(t, read, stream) <==> Whole(s, read, stream))
  {
    TrimSlice(seg, s.byteSeq, stream);
    FreshAfter(s.readahead, seg, cut, stream);
    assert seg.flags.close ==> Closes(cut, seg.End());
    hide Sane, Accounts, R.InOrder, Parted, Clear;
    EnqueueSane(s, seg.Trim(s.byteSeq), read, stream, cut);
    DrainSane(Enqueue(s, seg.Trim(s.byteSeq)), seg.flags.close, read, stream, cut);
    EnqueuedBytes(s, seg.Trim(s.byteSeq));
  }

  lemma EnqueuedBytes(s: Rx, seg: Segment)
    requires Accounts(s)
    ensures Enqueue(s, seg).available >= |seg.data|
  {}

  /** A segment of which only the flags are new: its bytes were the last to be consumed. */
  lemma FlagsOnly(s: Rx, seg: Segment, read: seq<byte>, stream: seq<byte>, cut: map<nat, Segment>)
    requires Consuming(s, read, stream, cut) && Parted(cut, stream) && From(cut, seg)
    requires R.AllBeyond(s.readahead, s.byteSeq) && seg.End() == s.byteSeq
    ensures var u := Enqueue(s, seg.Trim(s.byteSeq));
            && Drain(u, seg.flags.close) == (u, seg.flags.close)
            && var t := if seg.flags.close && u.available == 0 then ShutdownRead(u) else u;
               Sane(t, read, cut) && (Whole(t, read, stream) <==> Whole(s, read, stream) && !Repeats(s, seg, stream))
  {
    TrimSlice(seg, s.byteSeq, stream);
    assert seg.flags.close ==> Closes(cut, seg.End());
    var u := Enqueue(s, seg.Trim(s.byteSeq));
    hide Parted, Proper, Clear;
    EnqueueSane(s, seg.Trim(s.byteSeq), read, stream, cut);
    if seg.flags.close && u.available == 0 { EndsHere(s, seg, read, stream, cut); }
  }

  /** With nothing left to read, a mere closing flag ends reading where the stream was read to. */
  lemma EndsHere(s: Rx, seg: Segment, read: seq<byte>, stream: seq<byte>, cut: map<nat, Segment>)
    requires Consuming(s, read, stream, cut) && From(cut, seg) && seg.flags.close && seg.End() == s.byteSeq
    requires s.available == 0
    ensures |read| == s.byteSeq && Closes(cut, |read|) && (read == stream <==> s.byteSeq == |stream|)
    ensures read == stream ==> Clear(s.segments, |read|, |stream|)
  {
    FlatEmpty(s.segments);
    assert stream[..|stream|] == stream;
    ClearAtEnd(s.segments, |read|);
  }

  lemma Buffers(s: Rx, seg: Segment, read: seq<byte>, cut: map<nat, Segment>)
    requires !s.endRead && Sane(s, read, cut) && From(cut, seg)
    requires !Duplicate(s.readahead, seg, LowerBound(s.readahead, seg.pos))
    ensures var i := LowerBound(s.readahead, seg.pos);
            Sane(s.(bufferUsed := s.bufferUsed + |seg.data|, readahead := s.readahead[..i] + [seg] + s.readahead[i..]),
                 read, cut)
  {
    var i := LowerBound(s.readahead, seg.pos);
    var longer := s.readahead[..i] + [seg] + s.readahead[i..];
    hide Proper;
    assert i < |s.readahead| ==> From(cut, s.readahead[i]);
    forall j, k | 0 <= j < k < |longer| ensures longer[j].pos < longer[k].pos {
      assert longer[j] == if j < i then s.readahead[j] else if j == i then seg else s.readahead[j - 1];
      assert longer[k] == if k < i then s.readahead[k] else if k == i then seg else s.readahead[k - 1];
      assert k > i ==> s.readahead[i].pos <= s.readahead[k - 1].pos;
    }
    forall j | 0 <= j < |longer| ensures From(cut, longer[j]) {
      assert longer[j] == if j < i then s.readahead[j] else if j == i then seg else s.readahead[j - 1];
    }
  }

  lemma RecalculateSame(s: Rx, read: seq<byte>, stream: seq<byte>, cut: map<nat, Segment>)
    ensures Sane(Recalculate(s), read, cut) <==> Sane(s, read, cut)
    ensures Whole(Recalculate(s), read, stream) <==> Whole(s, read, stream)
  {}

  /** An arrival leaves the receiver sane, and the stream readable to its end unless a closing segment repeats. */
  lemma ReceiveWholeExactly(s: Rx, seg: Segment, read: seq<byte>, stream: seq<byte>, cut: map<nat, Segment>)
    requires Sane(s, read, cut) && Accounts(s) && Parted(cut, stream) && From(cut, seg)
    requires !s.endRead ==> R.InOrder(s, read, stream) && R.AllBeyond(s.readahead, s.byteSeq)
    ensures Sane(Receive(s, seg), read, cut)
    ensures Whole(Receive(s, seg), read, stream) <==> Whole(s, read, stream) && !Repeats(s, seg, stream)
  {
    hide Recalculate, Drain, Enqueue, ShutdownRead;
    if !s.endRead {
      hide Sane, Whole, Accounts;
      if seg.pos > s.byteSeq {
        var i := LowerBound(s.readahead, seg.pos);
        RecalculateSame(s, read, stream, cut);
        if !Duplicate(s.readahead, seg, i) {
          Buffers(s, seg, read, cut);
          var t := s.(bufferUsed := s.bufferUsed + |seg.data|,
                      readahead := s.readahead[..i] + [seg] + s.readahead[i..]);
          SameQueue(s, t, read, stream);
          RecalculateSame(t, read, stream, cut);
        }
      } else if !Useful(seg, s.byteSeq) {
        RecalculateSame(s, read, stream, cut);
      } else {
        var (t, last) := Drain(Enqueue(s, seg.Trim(s.byteSeq)), seg.flags.close);
        if seg.End() > s.byteSeq {
          NewBytes(s, seg, read, stream, cut);
        } else {
          FlagsOnly(s, seg, read, stream, cut);
        }
        RecalculateSame(if last && t.available == 0 then ShutdownRead(t) else t, read, stream, cut);
      }
    }
  }

  lemma SameQueue(s: Rx, t: Rx, read: seq<byte>, stream: seq<byte>)
    requires t.segments == s.segments && t.endRead == s.endRead
    ensures Whole(t, read, stream) <==> Whole(s, read, stream)
  {}

  // ---------------------------------------------------------------- reads

  /** Taking a segment changes nothing about what can be read in the end. */
  lemma TakeWhole(s: Rx, read: seq<byte>, stream: seq<byte>, cut: map<nat, Segment>)
    requires Consuming(s, read, stream, cut) && s.available > 0
    ensures TakeSegment(s).Some?
    ensures var t, data := TakeSegment(s).value.0, s.segments[0].data;
            && Sane(t, read + data, cut) && Accounts(t) && |t.segments| < |s.segments|
            && (!t.endRead ==> R.InOrder(t, read + data, stream))
            && (Whole(t, read + data, stream) <==> Whole(s, read, stream))
  {
    TakeAccounts(s);
    var t, data := TakeSegment(s).value.0, s.segments[0].data;
    assert (read + data) + Flat(s.segments[1..]) == read + (data + Flat(s.segments[1..]));
    FlatTotal(s.segments);
    hide Accounts, Aligned;
    if s.segments[0].flags.close && data == [] { assert read + data == read; }
  }

  /** Reading neither spoils nor mends, and with room for anything it takes at least one segment. */
  lemma {:induction false} ReadWholeExactly(
      s: Rx, max: int, read: seq<byte>, got: seq<byte>, stream: seq<byte>, cut: map<nat, Segment>)
    requires Sane(s, read + got, cut) && Accounts(s) && (!s.endRead ==> R.InOrder(s, read + got, stream))
    requires ReadLoop(s, max, got).Some?
    ensures var (t, out) := ReadLoop(s, max, got).value;
            && Sane(t, read + out, cut) && (Whole(t, read + out, stream) <==> Whole(s, read + got, stream))
            && |t.segments| <= |s.segments| && (max > 0 && s.available > 0 ==> |t.segments| < |s.segments|)
    decreases |s.segments|
  {
    if max > 0 && s.available > 0 {
      NotEnded(s);
      hide Sane, Whole, Accounts, R.InOrder;
      TakeWhole(s, read + got, stream, cut);
      var (t, stop) := TakeSegment(s).value;
      var data := s.segments[0].data;
      assert (read + got) + data == read + (got + data);
      if !stop { ReadWholeExactly(t, max - |data|, read, got + data, stream, cut); }
    }
  }

  lemma NotEnded(s: Rx)
    requires Accounts(s) && s.available > 0
    ensures !s.endRead
  {}

  // ---------------------------------------------------------------- what it means

  /** Once everything was read the receiver is whole; so one that is not has lost bytes for good. */
  lemma ReadIsWhole(s: Rx, read: seq<byte>, stream: seq<byte>)
    requires read == stream && Accounts(s) && (!s.endRead ==> R.InOrder(s, read, stream))
    ensures Whole(s, read, stream)
  {
    if !s.endRead {
      FlatTotal(s.segments);
      ClearAtEnd(s.segments, |read|);
    }
  }

  /** Writing more spoils it exactly when reading has ended or a mere closing flag is in the queue. */
  lemma WriteWholeExactly(s: Rx, read: seq<byte>, stream: seq<byte>, more: seq<byte>)
    requires more != [] && (if s.endRead then read <= stream else R.InOrder(s, read, stream))
    ensures Whole(s, read, stream + more) <==> Whole(s, read, stream) && !s.endRead && !Flagged(s.segments)
  {
    if s.endRead {
      assert |read| < |stream + more|;
    } else {
      FlatTotal(s.segments);
      ClearBeyond(s.segments, |read|, |stream + more|);
      if !Flagged(s.segments) { UnflaggedClear(s.segments, |read|, |stream|); }
    }
  }

  /** A stream closed nowhere but at its end is whole. */
  lemma ClosedAtEndIsWhole(s: Rx, read: seq<byte>, stream: seq<byte>, cut: map<nat, Segment>)
    requires Sane(s, read, cut) && read <= stream
    requires forall q :: q in cut && cut[q].flags.close ==> cut[q].End() == |stream|
    ensures Whole(s, read, stream)
  {
    if s.endRead {
      assert |read| == |stream|;
    } else {
      ProperClear(s.segments, s.recordSizes, |read|, cut, |stream|);
    }
  }

  lemma {:induction false} ReachesRecord(
      segs: seq<Segment>, sizes: seq<int>, open: int, at: nat, cut: map<nat, Segment>, end: nat)
    requires Proper(segs, sizes, at, cut) && Clear(segs, at, end) && at + Total(segs) <= end
    requires Aligned(segs, sizes) && Positive(sizes) && 0 <= open && Total(segs) == Sum(sizes) + open
    ensures UpToClose(segs) >= if sizes != [] then sizes[0] else Total(segs)
    decreases |segs|
  {
    SumPositive(sizes);
    if segs != [] && !segs[0].flags.close {
      var n := |segs[0].data|;
      AlignedLeft(segs, sizes, open);
      ReachesRecord(segs[1..], Left(sizes, n), if sizes == [] then open - n else open, at + n, cut, end);
    }
  }

  /** As long as the stream is whole no closing flag is inside a record: a read gets all that is pending. */
  lemma WholeSpan(s: Rx, read: seq<byte>, stream: seq<byte>, cut: map<nat, Segment>)
    requires Consuming(s, read, stream, cut) && Whole(s, read, stream)
    ensures Span(s) == Pending(s)
  {
    FlatTotal(s.segments);
    assert |read| + Total(s.segments) == s.byteSeq <= |stream|;
    ReachesRecord(s.segments, s.recordSizes, s.recordAvailable, |read|, cut, |stream|);
  }

  lemma SaneMore(s: Rx, read: seq<byte>, cut: map<nat, Segment>, more: map<nat, Segment>)
    requires Sane(s, read, cut) && forall q :: q in cut ==> q in more && more[q] == cut[q]
    ensures Sane(s, read, more)
  {
    if s.endRead { ClosesMore(cut, more, |read|); }
    else { ProperMore(s.segments, s.recordSizes, |read|, cut, more); }
  }

  // ---------------------------------------------------------------- writing after a closing write

  lemma {:induction false} EndedStays(r: R.Run, events: seq<R.Event>)
    requires r.rx.endRead
    ensures R.Play(r, events).rx.endRead && R.Play(r, events).read == r.read
    decreases |events|
  {
    if events != [] { EndedStays(r, events[..|events| - 1]); }
  }

  lemma {:induction false} PlayOn(r: R.Run, a: seq<R.Event>, b: seq<R.Event>)
    ensures R.Play(r, a + b) == R.Play(R.Play(r, a), b)
    decreases |b|
  {
    if b == [] {
      assert a + b == a;
    } else {
      assert (a + b)[..|a + b| - 1] == a + b[..|b| - 1];
      PlayOn(r, a, b[..|b| - 1]);
    }
  }

  /** Two bytes that close their stream. */
  const CLOSING: Segment := Segment(0, [1, 2], Flags(true, false, true))

  /** A receiver with `segments` to read, or none, and nothing early. */
  ghost predicate Holds(r: R.Run, segments: seq<Segment>, read: seq<byte>) {
    && r.rx.byteSeq == 2 && r.rx.segments == segments && r.rx.recordSizes == (if segments == [] then [] else [2])
    && r.rx.available == (if segments == [] then 0 else 2) && r.rx.recordAvailable == 0 && r.rx.readahead == []
    && !r.rx.endRead && r.rx.linkUp && r.read == read
  }

  lemma ClosingArrives()
    ensures Holds(R.Step(R.Start(100, 10), R.Arrive(CLOSING)), [CLOSING], [])
  {
    hide Recalculate;
    var s := R.Start(100, 10).rx;
    var t := Enqueue(s, CLOSING);
    assert CLOSING.Trim(0) == CLOSING && Drain(t, true) == (t, true);
    RecalculateOnly(t);
  }

  lemma ClosingRead(r: R.Run)
    requires Holds(r, [CLOSING], [])
    ensures Holds(R.Step(r, R.Read(2)), [], [1, 2])
  {
    hide Recalculate;
    var t := TakeSegment(r.rx).value.0;
    assert ReadLoop(r.rx, 2, []) == Some((t, [] + [1, 2]));
    RecalculateOnly(t);
  }

  lemma ClosingAgain(r: R.Run)
    requires Holds(r, [], [1, 2])
    ensures R.Step(r, R.Arrive(CLOSING)).rx.endRead && R.Step(r, R.Arrive(CLOSING)).read == [1, 2]
  {
    hide Recalculate;
    var t := Enqueue(r.rx, CLOSING.Trim(2));
    assert Drain(t, true) == (t, true) && t.available == 0;
    RecalculateOnly(ShutdownRead(t));
  }

  /** The closing segment is read, and a second copy of it shuts reading down. */
  lemma RepeatedCloseEnds()
    ensures var r := R.Play(R.Start(100, 10), [R.Arrive(CLOSING), R.Read(2), R.Arrive(CLOSING)]);
            r.rx.endRead && r.read == [1, 2]
  {
    ClosingArrives();
    hide R.Step, R.Start, Holds;
    var a, b, r := R.Arrive(CLOSING), R.Read(2), R.Start(100, 10);
    ClosingRead(R.Step(r, a));
    ClosingAgain(R.Step(R.Step(r, a), b));
    assert [a, b, a][..2] == [a, b] && [a, b][..1] == [a] && [a][..0] == [];
    assert R.Play(r, []) == r && R.Play(r, [a]) == R.Step(r, a) && R.Play(r, [a, b]) == R.Step(R.Step(r, a), b);
  }

  /** After that nothing more is read, although bytes written after the closing write may arrive. */
  lemma WriteAfterCloseIsLost(more: seq<R.Event>)
    ensures R.Play(R.Start(100, 10), [R.Arrive(CLOSING), R.Read(2), R.Arrive(CLOSING)] + more).read == [1, 2]
  {
    RepeatedCloseEnds();
    var first := [R.Arrive(CLOSING), R.Read(2), R.Arrive(CLOSING)];
    PlayOn(R.Start(100, 10), first, more);
    EndedStays(R.Play(R.Start(100, 10), first), more);
  }
}
