/**
 Where records end. Writes with and without the record and close flags are cut into segments that arrive in any
 order and any number of times, mixed with reads: the receiver sees a record end exactly where a write so flagged
 ended, and nowhere else.
 */
module RecordEnds {
  import opened Options
  import opened Segments
  import opened Reassembly
  import opened ReassemblyProofs
  import opened Records
  import R = ReassemblyRuns

  /** Segments with bytes that do not overlap. */
  ghost predicate Apart(cut: set<Segment>) {
    && (forall g :: g in cut ==> g.data != [])
    && (forall g, h :: g in cut && h in cut && g != h ==> g.End() <= h.pos || h.End() <= g.pos)
  }

  /** A segment flagged as the end of a record, or of the stream, ends at `p`. */
  ghost predicate Marked(cut: set<Segment>, p: nat) {
    exists g :: g in cut && (g.flags.record || g.flags.close) && g.End() == p
  }

  /** The first `j` record sizes add up to `d` for some `j`. */
  ghost predicate Boundary(sizes: seq<int>, d: int) {
    exists j :: 0 < j <= |sizes| && Sum(sizes[..j]) == d
  }

  /** Among the unread bytes a record ends exactly at the marks. */
  ghost predicate EndsAtMarks(s: Rx, read: nat, cut: set<Segment>) {
    forall p: nat {:trigger Marked(cut, p)} :: read < p <= s.byteSeq ==>
      (Boundary(s.recordSizes, p - read) <==> Marked(cut, p))
  }

  ghost predicate AllIn(cut: set<Segment>, segs: seq<Segment>) {
    forall i :: 0 <= i < |segs| ==> segs[i] in cut
  }

  /** Between two segments the receiver consumes. */
  ghost predicate Between(s: Rx, read: nat, cut: set<Segment>) {
    && Accounts(s) && !s.endRead && s.byteSeq == read + Total(s.segments)
    && EndsAtMarks(s, read, cut) && AllIn(cut, s.readahead)
  }

  // ---------------------------------------------------------------- sums

  lemma {:induction false} SumPrefix(sizes: seq<int>, j: nat)
    requires Positive(sizes) && j <= |sizes|
    ensures Sum(sizes[..j]) <= Sum(sizes)
  {
    assert sizes == sizes[..j] + sizes[j..];
    SumAppend(sizes[..j], sizes[j..]);
    SumPositive(sizes[j..]);
  }

  lemma BoundaryAppend(sizes: seq<int>, last: int, d: int)
    ensures Boundary(sizes + [last], d) <==> Boundary(sizes, d) || d == Sum(sizes) + last
  {
    var longer := sizes + [last];
    assert longer[..|longer|] == longer;
    SumAppend(sizes, [last]);
    assert [last][1..] == [];
    if Boundary(sizes, d) {
      var j :| 0 < j <= |sizes| && Sum(sizes[..j]) == d;
      assert longer[..j] == sizes[..j];
    }
    if Boundary(longer, d) {
      var j :| 0 < j <= |longer| && Sum(longer[..j]) == d;
      if j <= |sizes| { assert longer[..j] == sizes[..j]; }
    }
  }

  lemma BoundaryWithin(sizes: seq<int>, d: int)
    requires Positive(sizes) && Boundary(sizes, d)
    ensures 0 < d <= Sum(sizes)
  {
    var j :| 0 < j <= |sizes| && Sum(sizes[..j]) == d;
    SumPrefix(sizes, j);
    SumPositive(sizes[..j]);
  }

  /** Taking `n` bytes off the first record moves every boundary by `n`; a record that is used up leaves. */
  lemma BoundaryLess(sizes: seq<int>, n: int, d: int)
    requires sizes != [] && 0 <= n < sizes[0]
    ensures Boundary(sizes[0 := sizes[0] - n], d) <==> Boundary(sizes, d + n)
  {
    var less := sizes[0 := sizes[0] - n];
    forall j | 0 < j <= |sizes| ensures Sum(less[..j]) == Sum(sizes[..j]) - n {
      assert less[..j][1..] == sizes[..j][1..];
    }
  }

  lemma BoundaryRest(sizes: seq<int>, d: int)
    requires sizes != [] && d > 0
    ensures Boundary(sizes[1..], d) <==> Boundary(sizes, d + sizes[0])
  {
    forall j | 0 < j < |sizes| ensures Sum(sizes[..j + 1]) == sizes[0] + Sum(sizes[1..][..j]) {
      assert sizes[..j + 1][1..] == sizes[1..][..j];
    }
    assert Sum(sizes[..1]) == sizes[0] by { assert sizes[..1][1..] == []; }
    if Boundary(sizes, d + sizes[0]) {
      var j :| 0 < j <= |sizes| && Sum(sizes[..j]) == d + sizes[0];
      assert Sum(sizes[1..][..j - 1]) == d;
    }
  }

  // ---------------------------------------------------------------- arrivals

  /** No other segment ends inside one that starts at or before `at`. */
  lemma InsideUnmarked(cut: set<Segment>, g: Segment, at: nat, p: nat)
    requires Apart(cut) && g in cut && g.pos <= at < p <= g.End()
    ensures Marked(cut, p) <==> p == g.End() && (g.flags.record || g.flags.close)
  {
    if Marked(cut, p) {
      var h :| h in cut && (h.flags.record || h.flags.close) && h.End() == p;
      assert h.data != [];
      if h != g { assert g.End() <= h.pos || h.End() <= g.pos; }
    }
  }

  /** The sizes after a segment with bytes. */
  lemma EnqueueBytes(s: Rx, read: nat, cut: set<Segment>, g: Segment)
    requires Between(s, read, cut) && Apart(cut) && g in cut && g.pos <= s.byteSeq < g.End()
    ensures EndsAtMarks(Enqueue(s, g.Trim(s.byteSeq)), read, cut)
  {
    var t, seg := Enqueue(s, g.Trim(s.byteSeq)), g.Trim(s.byteSeq);
    var open := s.recordAvailable + |seg.data|;
    forall p: nat {:trigger Marked(cut, p)} | read < p <= t.byteSeq
      ensures Boundary(t.recordSizes, p - read) <==> Marked(cut, p)
    {
      hide Apart, Marked, Boundary, Aligned;
      if p > s.byteSeq { InsideUnmarked(cut, g, s.byteSeq, p); }
      BoundaryAppend(s.recordSizes, open, p - read);
      if Boundary(s.recordSizes, p - read) { BoundaryWithin(s.recordSizes, p - read); }
    }
  }

  /** A segment that comes again with nothing but its flags finds its record ended already. */
  lemma EnqueueFlags(s: Rx, read: nat, cut: set<Segment>, g: Segment)
    requires Between(s, read, cut) && g in cut && g.pos <= s.byteSeq == g.End()
    ensures Enqueue(s, g.Trim(s.byteSeq)).recordSizes == s.recordSizes
  {
    if (g.flags.record || g.flags.close) && s.recordAvailable > 0 {
      assert Marked(cut, s.byteSeq);
      SumPositive(s.recordSizes);
      assert Boundary(s.recordSizes, s.byteSeq - read);
      BoundaryWithin(s.recordSizes, s.byteSeq - read);
      assert false;
    }
  }

  lemma EnqueueBetween(s: Rx, read: nat, cut: set<Segment>, g: Segment)
    requires Between(s, read, cut) && Apart(cut) && g in cut && g.pos <= s.byteSeq <= g.End()
    ensures Between(Enqueue(s, g.Trim(s.byteSeq)), read, cut)
  {
    var seg := g.Trim(s.byteSeq);
    EnqueueAccounts(s, seg);
    TotalAppend(s.segments, [seg]);
    assert [seg][1..] == [];
    if s.byteSeq < g.End() {
      EnqueueBytes(s, read, cut, g);
    } else {
      EnqueueFlags(s, read, cut, g);
      hide Accounts;
      assert EndsAtMarks(Enqueue(s, seg), read, cut);
    }
  }

  /** The first early segment leaves the reorder buffer. */
  lemma FrontGone(s: Rx, read: nat, cut: set<Segment>)
    requires Between(s, read, cut) && s.readahead != []
    ensures s.readahead[0] in cut
    ensures Between(s.(readahead := s.readahead[1..], bufferUsed := s.bufferUsed - |s.readahead[0].data|), read, cut)
  {
    hide Aligned;
  }

  lemma {:induction false} DrainBetween(s: Rx, closed: bool, read: nat, cut: set<Segment>)
    requires Between(s, read, cut) && Apart(cut)
    ensures Between(Drain(s, closed).0, read, cut)
    decreases |s.readahead|
  {
    hide Between, Apart, Enqueue;
    if s.readahead != [] && s.readahead[0].pos <= s.byteSeq {
      var g := s.readahead[0];
      var t := s.(readahead := s.readahead[1..], bufferUsed := s.bufferUsed - |g.data|);
      FrontGone(s, read, cut);
      if Useful(g, s.byteSeq) {
        EnqueueBetween(t, read, cut, g);
        R.EnqueueReadahead(t, g.Trim(s.byteSeq));
        DrainBetween(Enqueue(t, g.Trim(s.byteSeq)), closed || g.flags.close, read, cut);
      } else {
        DrainBetween(t, closed, read, cut);
      }
    }
  }

  /** What holds of every receiver of these segments. */
  ghost predicate Kept(s: Rx, read: nat, cut: set<Segment>) {
    s.linkUp && Accounts(s) && (!s.endRead ==> Between(s, read, cut))
  }

  lemma RecalculateKept(s: Rx, read: nat, cut: set<Segment>)
    requires Kept(s, read, cut)
    ensures Kept(Recalculate(s), read, cut)
  {
    hide Aligned;
  }

  lemma ShutdownKept(s: Rx, read: nat, cut: set<Segment>)
    requires Kept(s, read, cut)
    ensures Kept(ShutdownRead(s), read, cut)
  {
    hide Between;
    ShutdownAccounts(s);
  }

  lemma ReceiveKept(s: Rx, read: nat, cut: set<Segment>, g: Segment)
    requires Kept(s, read, cut) && Apart(cut) && g in cut
    ensures Kept(Receive(s, g), read, cut)
  {
    if s.endRead {
    } else if g.pos > s.byteSeq {
      ReceiveAccounts(s, g);
      hide Accounts;
      RecalculateKept(s, read, cut);
    } else if !Useful(g, s.byteSeq) {
      RecalculateKept(s, read, cut);
    } else {
      hide Between, Accounts, Apart, Enqueue, Drain;
      EnqueueBetween(s, read, cut, g);
      var e := Enqueue(s, g.Trim(s.byteSeq));
      DrainBetween(e, g.flags.close, read, cut);
      LinkStays(s, g, g.flags.close);
      var (t, closed) := Drain(e, g.flags.close);
      BetweenAccounts(t, read, cut);
      ShutdownKept(t, read, cut);
      RecalculateKept(if closed && t.available == 0 then ShutdownRead(t) else t, read, cut);
    }
  }

  lemma BetweenAccounts(s: Rx, read: nat, cut: set<Segment>)
    requires Between(s, read, cut)
    ensures Accounts(s) && !s.endRead
  {}

  lemma LinkStays(s: Rx, g: Segment, closed: bool)
    requires g.pos <= s.byteSeq <= g.End()
    ensures Drain(Enqueue(s, g.Trim(s.byteSeq)), closed).0.linkUp == s.linkUp
  {
    DrainLink(Enqueue(s, g.Trim(s.byteSeq)), closed);
  }

  lemma {:induction false} DrainLink(s: Rx, closed: bool)
    ensures Drain(s, closed).0.linkUp == s.linkUp
    decreases |s.readahead|
  {
    if s.readahead != [] && s.readahead[0].pos <= s.byteSeq {
      var g := s.readahead[0];
      var t := s.(readahead := s.readahead[1..], bufferUsed := s.bufferUsed - |g.data|);
      if Useful(g, s.byteSeq) {
        DrainLink(Enqueue(t, g.Trim(s.byteSeq)), closed || g.flags.close);
      } else {
        DrainLink(t, closed);
      }
    }
  }

  // ---------------------------------------------------------------- reads

  /** The record sizes after a segment was taken. */
  lemma TakeMarks(s: Rx, read: nat, cut: set<Segment>)
    requires Between(s, read, cut) && s.available > 0
    ensures TakeSegment(s).Some? && s.segments != []
    ensures var t := TakeSegment(s).value.0;
            !t.endRead ==> EndsAtMarks(t, read + |s.segments[0].data|, cut)
  {
    TakeAccounts(s);
    var n := |s.segments[0].data|;
    var t := TakeSegment(s).value.0;
    if !t.endRead {
      forall p: nat {:trigger Marked(cut, p)} | read + n < p <= t.byteSeq
        ensures Boundary(t.recordSizes, p - (read + n)) <==> Marked(cut, p)
      {
        hide Marked, Boundary, Aligned, Total, Sum;
        if s.recordSizes != [] {
          if n < s.recordSizes[0] { BoundaryLess(s.recordSizes, n, p - (read + n)); }
          else { BoundaryRest(s.recordSizes, p - (read + n)); }
        } else {
          NoBoundary(p - read);
          NoBoundary(p - (read + n));
        }
      }
    }
  }

  lemma NoBoundary(d: int)
    ensures !Boundary([], d)
  {}

  lemma TakeKept(s: Rx, read: nat, cut: set<Segment>)
    requires Kept(s, read, cut) && s.available > 0
    ensures TakeSegment(s).Some? && s.segments != []
    ensures Kept(TakeSegment(s).value.0, read + |s.segments[0].data|, cut)
  {
    TakeMarks(s, read, cut);
    TakeAccounts(s);
    TakeLeaves(s);
    hide EndsAtMarks, Accounts;
    assert TakeSegment(s).value.0.linkUp == s.linkUp;
  }

  lemma {:induction false} ReadKept(s: Rx, max: int, got: seq<byte>, read: nat, cut: set<Segment>)
    requires Kept(s, read, cut) && ReadLoop(s, max, got).Some?
    ensures var (t, out) := ReadLoop(s, max, got).value;
            |out| >= |got| && Kept(t, read + |out| - |got|, cut)
    decreases |s.segments|
  {
    hide Between, Accounts, TakeSegment;
    if max > 0 && s.available > 0 {
      KeptTakes(s, read, cut);
      TakeKept(s, read, cut);
      TakeLeaves(s);
      var (t, stop) := TakeSegment(s).value;
      var data := s.segments[0].data;
      if !stop { ReadKept(t, max - |data|, got + data, read + |data|, cut); }
    }
  }

  lemma KeptTakes(s: Rx, read: nat, cut: set<Segment>)
    requires Kept(s, read, cut)
    ensures Accounts(s)
  {}

  // ---------------------------------------------------------------- runs

  ghost predicate ArrivalsIn(events: seq<R.Event>, cut: set<Segment>) {
    forall i :: 0 <= i < |events| && events[i].Arrive? ==> events[i].seg in cut
  }

  lemma {:induction false} RunKept(bufferSize: int, minBuffer: nat, events: seq<R.Event>, cut: set<Segment>)
    requires Apart(cut) && ArrivalsIn(events, cut)
    ensures var r := R.Play(R.Start(bufferSize, minBuffer), events); Kept(r.rx, |r.read|, cut)
    decreases |events|
  {
    hide Kept, Apart, Receive, ReadLoop;
    if events == [] {
      FreshKept(bufferSize, minBuffer, cut);
    } else {
      var front, e := events[..|events| - 1], events[|events| - 1];
      RunKept(bufferSize, minBuffer, front, cut);
      var r := R.Play(R.Start(bufferSize, minBuffer), front);
      match e
      case Arrive(seg) => ReceiveKept(r.rx, |r.read|, cut, seg);
      case Read(max) =>
        if ReadLoop(r.rx, max, []).Some? {
          ReadKept(r.rx, max, [], |r.read|, cut);
          var (t, out) := ReadLoop(r.rx, max, []).value;
          RecalculateKept(t, |r.read| + |out|, cut);
        }
    }
  }

  lemma FreshKept(bufferSize: int, minBuffer: nat, cut: set<Segment>)
    ensures Kept(Fresh(true, bufferSize, minBuffer), 0, cut)
  {}

  /**
   After any arrivals and reads, a record ends among the unread bytes at exactly those positions where a segment
   with the record flag or the close flag ends.
   */
  lemma RecordEndsExactly(bufferSize: int, minBuffer: nat, events: seq<R.Event>, cut: set<Segment>, p: nat)
    requires Apart(cut) && ArrivalsIn(events, cut)
    ensures var r := R.Play(R.Start(bufferSize, minBuffer), events);
            !r.rx.endRead && |r.read| < p <= r.rx.byteSeq ==>
              ((exists j :: 0 < j <= |r.rx.recordSizes| && Sum(r.rx.recordSizes[..j]) == p - |r.read|) <==>
               (exists g :: g in cut && (g.flags.record || g.flags.close) && g.End() == p))
  {
    RunKept(bufferSize, minBuffer, events, cut);
    var r := R.Play(R.Start(bufferSize, minBuffer), events);
    assert !r.rx.endRead && |r.read| < p <= r.rx.byteSeq ==>
             (Boundary(r.rx.recordSizes, p - |r.read|) <==> Marked(cut, p));
  }

  /** If no segment has either flag, no record ends: all bytes available belong to the open one. */
  lemma PlainBytes(bufferSize: int, minBuffer: nat, events: seq<R.Event>, cut: set<Segment>)
    requires Apart(cut) && ArrivalsIn(events, cut)
    requires forall g :: g in cut ==> !g.flags.record && !g.flags.close
    ensures var s := R.Play(R.Start(bufferSize, minBuffer), events).rx;
            s.recordSizes == [] && s.recordAvailable == s.available
  {
    RunKept(bufferSize, minBuffer, events, cut);
    var r := R.Play(R.Start(bufferSize, minBuffer), events);
    if r.rx.recordSizes != [] { FirstMarked(r.rx, |r.read|, cut); }
  }

  lemma FirstMarked(s: Rx, read: nat, cut: set<Segment>)
    requires Between(s, read, cut) && s.recordSizes != []
    ensures Marked(cut, read + s.recordSizes[0])
  {
    var first := s.recordSizes[0];
    SumPositive(s.recordSizes[1..]);
    assert Sum(s.recordSizes[..1]) == first by { assert s.recordSizes[..1][1..] == []; }
    assert Boundary(s.recordSizes, first);
  }

  // ---------------------------------------------------------------- mixed writes

  datatype Write = Write(data: seq<byte>, flags: Flags)

  function Datas(writes: seq<Write>): (datas: seq<seq<byte>>)
    ensures |datas| == |writes|
  {
    seq(|writes|, i requires 0 <= i < |writes| => writes[i].data)
  }

  /** The segments of the first `n` writes. */
  function CutWrites(writes: seq<Write>, n: nat, mtu: nat): seq<Segment>
    requires mtu > 0 && n <= |writes|
  {
    if n == 0 then []
    else CutWrites(writes, n - 1, mtu)
         + Cut(Off(Datas(writes), n - 1), writes[n - 1].data, writes[n - 1].flags, mtu)
  }

  ghost predicate AllBytes(writes: seq<Write>) {
    forall i :: 0 <= i < |writes| ==> writes[i].data != []
  }

  /** A write with the record flag or the close flag ended at `p`. */
  ghost predicate WriteEnds(writes: seq<Write>, n: nat, p: nat)
    requires n <= |writes|
  {
    exists i :: 0 <= i < n && (writes[i].flags.record || writes[i].flags.close) && Off(Datas(writes), i + 1) == p
  }

  /** The segments are apart, end by `upTo`, and are marked just where flagged writes ended. */
  ghost predicate CutAs(segs: seq<Segment>, writes: seq<Write>, n: nat, upTo: nat)
    requires n <= |writes|
  {
    && (forall k :: 0 <= k < |segs| ==> segs[k].data != [] && segs[k].End() <= upTo)
    && (forall j, k :: 0 <= j < k < |segs| ==> segs[j].End() <= segs[k].pos)
    && (forall p: nat {:trigger WriteEnds(writes, n, p)} :: MarkedIn(segs, p) <==> WriteEnds(writes, n, p))
  }

  ghost predicate MarkedIn(segs: seq<Segment>, p: nat) {
    exists k :: 0 <= k < |segs| && (segs[k].flags.record || segs[k].flags.close) && segs[k].End() == p
  }

  ghost function SetOf(segs: seq<Segment>): set<Segment> { set g | g in segs }

  lemma MarkedAppend(a: seq<Segment>, b: seq<Segment>, p: nat)
    ensures MarkedIn(a + b, p) <==> MarkedIn(a, p) || MarkedIn(b, p)
  {
    if MarkedIn(a, p) {
      var k :| 0 <= k < |a| && (a[k].flags.record || a[k].flags.close) && a[k].End() == p;
      assert (a + b)[k] == a[k];
    }
    if MarkedIn(b, p) {
      var k :| 0 <= k < |b| && (b[k].flags.record || b[k].flags.close) && b[k].End() == p;
      assert (a + b)[|a| + k] == b[k];
    }
  }

  lemma PiecesMarked(segs: seq<Segment>, stream: seq<byte>, pos: nat, end: nat, flags: Flags, mtu: nat, p: nat)
    requires Pieces(segs, stream, pos, end, flags, mtu) && pos < end
    ensures MarkedIn(segs, p) <==> p == end && (flags.record || flags.close)
  {
    if flags.record || flags.close {
      assert SomeCovers(segs, end - 1);
      var k :| 0 <= k < |segs| && segs[k].Covers(end - 1);
      assert segs[k].End() == end;
    }
  }

  lemma {:induction false} CutWritesAs(writes: seq<Write>, n: nat, mtu: nat)
    requires mtu > 0 && n <= |writes| && AllBytes(writes)
    ensures CutAs(CutWrites(writes, n, mtu), writes, n, Off(Datas(writes), n))
  {
    if n > 0 {
      CutWritesAs(writes, n - 1, mtu);
      var datas, w := Datas(writes), writes[n - 1];
      var pos, end := Off(datas, n - 1), Off(datas, n);
      var a, b := CutWrites(writes, n - 1, mtu), Cut(pos, w.data, w.flags, mtu);
      OffStep(datas, n - 1);
      CutPieces(Join(datas), pos, end, w.flags, mtu);
      CutAsMore(a, b, writes, n, pos, end, Join(datas), mtu);
    }
  }

  lemma CutAsMore(
      a: seq<Segment>, b: seq<Segment>, writes: seq<Write>, n: nat, pos: nat, end: nat, stream: seq<byte>, mtu: nat)
    requires 0 < n <= |writes| && CutAs(a, writes, n - 1, pos) && pos < end == Off(Datas(writes), n)
    requires Pieces(b, stream, pos, end, writes[n - 1].flags, mtu)
    ensures CutAs(a + b, writes, n, end)
  {
    forall p: nat {:trigger WriteEnds(writes, n, p)} | true ensures MarkedIn(a + b, p) <==> WriteEnds(writes, n, p) {
      MarkedAppend(a, b, p);
      PiecesMarked(b, stream, pos, end, writes[n - 1].flags, mtu, p);
      WriteEndsStep(writes, n, p);
      assert MarkedIn(a, p) <==> WriteEnds(writes, n - 1, p);
    }
  }

  lemma WriteEndsStep(writes: seq<Write>, n: nat, p: nat)
    requires 0 < n <= |writes|
    ensures WriteEnds(writes, n, p) <==>
              || WriteEnds(writes, n - 1, p)
              || ((writes[n - 1].flags.record || writes[n - 1].flags.close) && Off(Datas(writes), n) == p)
  {
    hide Off, Datas;
    if WriteEnds(writes, n, p) {
      var i :| 0 <= i < n && (writes[i].flags.record || writes[i].flags.close) && Off(Datas(writes), i + 1) == p;
      if i < n - 1 { assert WriteEnds(writes, n - 1, p); }
    }
    if WriteEnds(writes, n - 1, p) {
      var i :| 0 <= i < n - 1 && (writes[i].flags.record || writes[i].flags.close) && Off(Datas(writes), i + 1) == p;
      assert WriteEnds(writes, n, p);
    }
  }

  /** Whatever mix of writes was cut, the reader meets a record end exactly where a flagged write ended. */
  lemma MixedWritesExactly(
      writes: seq<Write>, mtu: nat, bufferSize: int, minBuffer: nat, events: seq<R.Event>, p: nat)
    requires mtu > 0 && AllBytes(writes)
    requires ArrivalsIn(events, SetOf(CutWrites(writes, |writes|, mtu)))
    ensures var r := R.Play(R.Start(bufferSize, minBuffer), events);
            !r.rx.endRead && |r.read| < p <= r.rx.byteSeq ==>
              (Boundary(r.rx.recordSizes, p - |r.read|) <==> WriteEnds(writes, |writes|, p))
  {
    var segs := CutWrites(writes, |writes|, mtu);
    var cut := SetOf(segs);
    CutWritesAs(writes, |writes|, mtu);
    CutSet(segs, writes, |writes|, Off(Datas(writes), |writes|), p);
    hide R.Play, R.Start, CutWrites;
    RecordEndsExactly(bufferSize, minBuffer, events, cut, p);
  }

  lemma CutSet(segs: seq<Segment>, writes: seq<Write>, n: nat, upTo: nat, p: nat)
    requires n <= |writes| && CutAs(segs, writes, n, upTo)
    ensures Apart(SetOf(segs)) && (Marked(SetOf(segs), p) <==> WriteEnds(writes, n, p))
  {
    var cut := SetOf(segs);
    assert MarkedIn(segs, p) <==> WriteEnds(writes, n, p);
    if MarkedIn(segs, p) {
      var k :| 0 <= k < |segs| && (segs[k].flags.record || segs[k].flags.close) && segs[k].End() == p;
      assert segs[k] in cut;
    }
    forall g, h | g in cut && h in cut && g != h ensures g.End() <= h.pos || h.End() <= g.pos {
      var j :| 0 <= j < |segs| && segs[j] == g;
      var k :| 0 <= k < |segs| && segs[k] == h;
      if j < k {} else { assert k < j; }
    }
  }
}
