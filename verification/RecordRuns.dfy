/**
 Runs of a record reader: segments of written records arrive in any order with any duplicates, and the
 reader fetches records into buffers with room for them.
 */
module RecordRuns {
  import opened Options
  import opened Segments
  import opened Reassembly
  import opened ReassemblyProofs
  import opened Records
  import Runs = ReassemblyRuns

  /** `Fetch(room)` is a read_record call whose buffer is `room` bytes larger than the pending record. */
  datatype Event = Arrive(seg: Segment) | Fetch(room: nat)

  datatype RecordRun = RecordRun(rx: Rx, records: seq<seq<byte>>, received: set<Segment>, failed: bool)

  function Step(r: RecordRun, e: Event): RecordRun {
    match e
    case Arrive(seg) => r.(rx := Receive(r.rx, seg), received := r.received + {seg})
    case Fetch(room) =>
      if r.rx.recordSizes == [] then r
      else
        match ReadRecord(r.rx, r.rx.recordSizes[0] + room)
        case Record(t, data) => r.(rx := t, records := r.records + [data])
        case NoRecord => r
        case AssertionFails => r.(failed := true)
  }

  function Play(r: RecordRun, events: seq<Event>): RecordRun {
    if events == [] then r else Step(Play(r, events[..|events| - 1]), events[|events| - 1])
  }

  function Start(bufferSize: int, minBuffer: nat): RecordRun {
    RecordRun(Fresh(true, bufferSize, minBuffer), [], {}, false)
  }

  /** No byte follows a closing segment. */
  ghost predicate CloseLast(segs: seq<Segment>) {
    segs == [] || ((segs[0].flags.close ==> Total(segs[1..]) == 0) && CloseLast(segs[1..]))
  }

  ghost predicate HasClose(segs: seq<Segment>) {
    exists i :: 0 <= i < |segs| && segs[i].flags.close
  }

  lemma {:induction false} CloseLastAppend(segs: seq<Segment>, seg: Segment)
    requires CloseLast(segs) && (HasClose(segs) ==> seg.data == [])
    ensures CloseLast(segs + [seg])
  {
    if segs == [] {
      assert (segs + [seg])[1..] == [];
    } else {
      assert (segs + [seg])[1..] == segs[1..] + [seg];
      if HasClose(segs[1..]) {
        var i :| 0 <= i < |segs[1..]| && segs[1..][i].flags.close;
        assert segs[i + 1].flags.close;
      }
      if segs[0].flags.close { TotalAppend(segs[1..], [seg]); }
      CloseLastAppend(segs[1..], seg);
    }
  }

  lemma HasCloseRest(segs: seq<Segment>)
    requires segs != []
    ensures HasClose(segs[1..]) ==> HasClose(segs)
  {
    if HasClose(segs[1..]) {
      var i :| 0 <= i < |segs[1..]| && segs[1..][i].flags.close;
      assert segs[i + 1].flags.close;
    }
  }

  lemma HasCloseAppend(segs: seq<Segment>, seg: Segment)
    ensures HasClose(segs + [seg]) <==> HasClose(segs) || seg.flags.close
  {
    var longer := segs + [seg];
    assert longer[|segs|] == seg;
    if HasClose(segs) {
      var i :| 0 <= i < |segs| && segs[i].flags.close;
      assert longer[i].flags.close;
    }
  }

  /** `k` records are complete and the open one holds `open` bytes. */
  ghost predicate Boundary(recs: seq<seq<byte>>, k: nat, open: int, at: nat) {
    && k <= |recs| && at == Off(recs, k) + open
    && 0 <= open <= (if k < |recs| then |recs[k]| - 1 else 0)
  }

  ghost predicate Sizes(sizes: seq<int>, recs: seq<seq<byte>>, n: nat) {
    n + |sizes| <= |recs| && forall j :: n <= j < n + |sizes| ==> sizes[j - n] == |recs[j]|
  }

  ghost predicate Closing(segs: seq<Segment>, done: bool) {
    CloseLast(segs) && (HasClose(segs) ==> done)
  }

  /** Where the receiver stands among the records: `n` were handed out, `recordSizes` wait, one may be open. */
  ghost predicate AtRecords(s: Rx, recs: seq<seq<byte>>, n: nat) {
    && Sizes(s.recordSizes, recs, n)
    && Boundary(recs, n + |s.recordSizes|, s.recordAvailable, s.byteSeq)
    && Closing(s.segments, n + |s.recordSizes| == |recs|)
  }

  /** A position determines its record. */
  lemma UniqueRecord(recs: seq<seq<byte>>, i: nat, a: nat, j: nat, b: nat, at: nat)
    requires NonEmpty(recs) && Boundary(recs, i, a, at) && Boundary(recs, j, b, at)
    ensures i == j && a == b
  {
    if i < j {
      OffStep(recs, i);
      if i + 1 < j { OffMonotone(recs, i + 1, j); }
    } else if j < i {
      OffStep(recs, j);
      if j + 1 < i { OffMonotone(recs, j + 1, i); }
    }
  }

  /** Segments as they may be enqueued: pieces of a record, possibly trimmed down to their flags. */
  ghost predicate Remnant(seg: Segment, recs: seq<seq<byte>>, i: nat) {
    && i < |recs| && Off(recs, i) <= seg.pos <= seg.End() <= Off(recs, i + 1)
    && (seg.flags.EndsRecord() <==> seg.End() == Off(recs, i + 1))
    && (seg.flags.close ==> i + 1 == |recs|)
    && (seg.data == [] ==> seg.End() == Off(recs, i + 1))
  }

  lemma EnqueueClosing(segs: seq<Segment>, seg: Segment, was: bool, done: bool)
    requires Closing(segs, was) && (was ==> seg.data == [] && done) && (seg.flags.close ==> done)
    ensures Closing(segs + [seg], done)
  {
    CloseLastAppend(segs, seg);
    HasCloseAppend(segs, seg);
  }

  lemma EnqueueAtRecords(s: Rx, recs: seq<seq<byte>>, n: nat, seg: Segment, i: nat)
    requires NonEmpty(recs) && AtRecords(s, recs, n) && Remnant(seg, recs, i) && seg.pos == s.byteSeq
    ensures var t := Enqueue(s, seg);
            && AtRecords(t, recs, n) && |t.recordSizes| >= |s.recordSizes|
            && (seg.flags.close ==> n + |t.recordSizes| == |recs|)
  {
    var k, t := n + |s.recordSizes|, Enqueue(s, seg);
    OffStep(recs, i);
    if seg.data == [] {
      UniqueRecord(recs, i + 1, 0, k, s.recordAvailable, s.byteSeq);
    } else {
      UniqueRecord(recs, i, seg.pos - Off(recs, i), k, s.recordAvailable, s.byteSeq);
    }
    EnqueueClosing(s.segments, seg, k == |recs|, n + |t.recordSizes| == |recs|);
  }

  ghost predicate AllFit(segs: seq<Segment>, recs: seq<seq<byte>>) {
    forall i :: 0 <= i < |segs| ==> Fits(segs[i], recs)
  }

  /** The first early segment leaves the reorder buffer, whether it brings something or not. */
  lemma FrontFits(s: Rx, t: Rx, closed: bool, recs: seq<seq<byte>>, n: nat)
    requires NonEmpty(recs) && AtRecords(s, recs, n) && AllFit(s.readahead, recs)
    requires closed ==> n + |s.recordSizes| == |recs|
    requires s.readahead != [] && s.readahead[0].pos <= s.byteSeq
    requires t == s.(readahead := s.readahead[1..], bufferUsed := t.bufferUsed)
    ensures AtRecords(t, recs, n) && AllFit(t.readahead, recs) && (closed ==> n + |t.recordSizes| == |recs|)
    ensures var seg := s.readahead[0];
            Useful(seg, s.byteSeq) ==>
              var u := Enqueue(t, seg.Trim(s.byteSeq));
              && AtRecords(u, recs, n) && AllFit(u.readahead, recs) && u.readahead == t.readahead
              && (closed || seg.flags.close ==> n + |u.recordSizes| == |recs|)
  {
    hide Fits, NonEmpty;
    if Useful(s.readahead[0], s.byteSeq) { EnqueueFits(t, s.readahead[0], recs, n); }
  }

  lemma {:induction false} DrainAtRecords(s: Rx, closed: bool, recs: seq<seq<byte>>, n: nat)
    requires NonEmpty(recs) && AtRecords(s, recs, n) && AllFit(s.readahead, recs)
    requires closed ==> n + |s.recordSizes| == |recs|
    ensures var (t, c) := Drain(s, closed);
            AtRecords(t, recs, n) && AllFit(t.readahead, recs) && (c ==> n + |t.recordSizes| == |recs|)
    decreases |s.readahead|
  {
    hide AllFit, NonEmpty, AtRecords, Enqueue;
    if s.readahead != [] && s.readahead[0].pos <= s.byteSeq {
      var seg := s.readahead[0];
      var t := s.(readahead := s.readahead[1..], bufferUsed := s.bufferUsed - |seg.data|);
      FrontFits(s, t, closed, recs, n);
      if Useful(seg, s.byteSeq) {
        DrainAtRecords(Enqueue(t, seg.Trim(s.byteSeq)), closed || seg.flags.close, recs, n);
      } else {
        DrainAtRecords(t, closed, recs, n);
      }
    }
  }

  lemma EnqueueFits(s: Rx, seg: Segment, recs: seq<seq<byte>>, n: nat)
    requires NonEmpty(recs) && AtRecords(s, recs, n) && Fits(seg, recs)
    requires seg.pos <= s.byteSeq && Useful(seg, s.byteSeq)
    ensures var t := Enqueue(s, seg.Trim(s.byteSeq));
            && AtRecords(t, recs, n) && |t.recordSizes| >= |s.recordSizes|
            && (seg.flags.close ==> n + |t.recordSizes| == |recs|)
  {
    var i :| OfRecord(seg, recs, i);
    EnqueueAtRecords(s, recs, n, seg.Trim(s.byteSeq), i);
  }

  ghost predicate Settled(r: RecordRun, recs: seq<seq<byte>>) {
    && !r.failed && Accounts(r.rx)
    && Runs.Settled(Runs.Run(r.rx, Join(r.records), r.received), Join(recs))
    && |r.records| <= |recs| && r.records == recs[..|r.records|]
    && if r.rx.endRead then r.records == recs
       else AtRecords(r.rx, recs, |r.records|) && AllFit(r.rx.readahead, recs)
  }

  /** The state rx_data leaves behind when the segment was in order, before any shutdown. */
  lemma DrainedAtRecords(s: Rx, seg: Segment, recs: seq<seq<byte>>, n: nat)
    requires NonEmpty(recs) && AtRecords(s, recs, n) && AllFit(s.readahead, recs) && Accounts(s) && !s.endRead
    requires Fits(seg, recs) && seg.pos <= s.byteSeq && Useful(seg, s.byteSeq)
    ensures var (t, closed) := Drain(Enqueue(s, seg.Trim(s.byteSeq)), seg.flags.close);
            && AtRecords(t, recs, n) && AllFit(t.readahead, recs) && !t.endRead
            && (closed && t.available == 0 ==> n == |recs|)
  {
    EnqueueFits(s, seg, recs, n);
    EnqueueAccounts(s, seg.Trim(s.byteSeq));
    var e := Enqueue(s, seg.Trim(s.byteSeq));
    DrainAtRecords(e, seg.flags.close, recs, n);
    DrainAccounts(e, seg.flags.close);
    SumPositive(Drain(e, seg.flags.close).0.recordSizes);
  }

  lemma InsertFits(segs: seq<Segment>, seg: Segment, i: nat, recs: seq<seq<byte>>)
    requires AllFit(segs, recs) && Fits(seg, recs) && i <= |segs|
    ensures AllFit(segs[..i] + [seg] + segs[i..], recs)
  {}

  lemma ArriveInOrder(s: Rx, seg: Segment, recs: seq<seq<byte>>, n: nat)
    requires NonEmpty(recs) && AtRecords(s, recs, n) && AllFit(s.readahead, recs) && Accounts(s) && !s.endRead
    requires Fits(seg, recs) && seg.pos <= s.byteSeq && Useful(seg, s.byteSeq)
    ensures var t := Receive(s, seg);
            if t.endRead then n == |recs| else AtRecords(t, recs, n) && AllFit(t.readahead, recs)
  {
    DrainedAtRecords(s, seg, recs, n);
  }

  lemma ArriveAtRecords(s: Rx, seg: Segment, recs: seq<seq<byte>>, n: nat)
    requires NonEmpty(recs) && AtRecords(s, recs, n) && AllFit(s.readahead, recs) && Accounts(s) && !s.endRead
    requires Fits(seg, recs)
    ensures var t := Receive(s, seg);
            if t.endRead then n == |recs| else AtRecords(t, recs, n) && AllFit(t.readahead, recs)
  {
    if seg.pos > s.byteSeq {
      InsertFits(s.readahead, seg, LowerBound(s.readahead, seg.pos), recs);
    } else if Useful(seg, s.byteSeq) {
      ArriveInOrder(s, seg, recs, n);
    }
  }

  lemma ArriveSettled(r: RecordRun, seg: Segment, recs: seq<seq<byte>>)
    requires NonEmpty(recs) && Settled(r, recs) && Fits(seg, recs)
    ensures Settled(Step(r, Arrive(seg)), recs)
  {
    Runs.ArriveSettled(Runs.Run(r.rx, Join(r.records), r.received), seg, Join(recs));
    ReceiveAccounts(r.rx, seg);
    if !r.rx.endRead {
      ArriveAtRecords(r.rx, seg, recs, |r.records|);
    }
  }

  /** With room for the pending record, the read loop stops exactly at its end. */
  lemma {:induction false} ReadLoopRecord(s: Rx, max: int, got: seq<byte>)
    requires Accounts(s) && CloseLast(s.segments) && s.recordSizes != [] && max >= s.recordSizes[0]
    ensures ReadLoop(s, max, got).Some?
    ensures var (t, out) := ReadLoop(s, max, got).value;
            && |out| == |got| + s.recordSizes[0] && !t.endRead
            && t.recordSizes == s.recordSizes[1..] && t.recordAvailable == s.recordAvailable
            && CloseLast(t.segments) && (HasClose(t.segments) ==> HasClose(s.segments))
    decreases |s.segments|
  {
    SumPositive(s.recordSizes[1..]);
    TakeAccounts(s);
    var (t, stop) := TakeSegment(s).value;
    var data := s.segments[0].data;
    HasCloseRest(s.segments);
    if !stop {
      var shorter := s.recordSizes[0 := s.recordSizes[0] - |data|];
      assert shorter[1..] == s.recordSizes[1..];
      ReadLoopRecord(t, max - |data|, got + data);
    }
  }

  /** When nothing follows a closing segment, a read can get what the source reports as waiting. */
  lemma SpanIsPending(s: Rx)
    requires Accounts(s) && CloseLast(s.segments)
    ensures Span(s) == Pending(s)
  {
    SumPositive(s.recordSizes);
    CloseIsEnd(s.segments);
    if s.recordSizes != [] { SumPositive(s.recordSizes[1..]); }
  }

  lemma {:induction false} CloseIsEnd(segs: seq<Segment>)
    requires CloseLast(segs)
    ensures UpToClose(segs) == Total(segs)
  {
    if segs != [] { CloseIsEnd(segs[1..]); }
  }

  /** The first |recs[n]| unread bytes after n records are record n. */
  lemma NextRecordBytes(recs: seq<seq<byte>>, n: nat, queued: seq<byte>, at: nat, out: seq<byte>)
    requires n < |recs| && at <= |Join(recs)| && Join(recs[..n]) + queued == Join(recs)[..at]
    requires out <= queued && |out| == |recs[n]|
    ensures out == recs[n]
  {
    var read := Join(recs[..n]);
    OffStep(recs, n);
    assert (read + queued)[|read|..|read| + |out|] == queued[..|out|] == out;
  }

  /** The position after one whole record was handed out. */
  lemma AfterRecord(s: Rx, t: Rx, recs: seq<seq<byte>>, n: nat)
    requires AtRecords(s, recs, n) && s.recordSizes != []
    requires t.recordSizes == s.recordSizes[1..] && t.recordAvailable == s.recordAvailable
    requires t.byteSeq == s.byteSeq && CloseLast(t.segments) && (HasClose(t.segments) ==> HasClose(s.segments))
    ensures AtRecords(t, recs, n + 1)
  {}

  lemma LoopFetches(s: Rx, room: nat, read: seq<byte>, recs: seq<seq<byte>>, n: nat) returns (t: Rx)
    requires Accounts(s) && AtRecords(s, recs, n) && s.recordSizes != []
    requires Runs.InOrder(s, read, Join(recs)) && n <= |recs| && read == Join(recs[..n])
    ensures n < |recs| && recs[n] != []
    ensures ReadLoop(s, s.recordSizes[0] + room, []) == Some((t, recs[n]))
    ensures AtRecords(t, recs, n + 1) && t.recordSizes == s.recordSizes[1..]
    ensures !t.endRead && t.readahead == s.readahead && Accounts(t)
  {
    var max := s.recordSizes[0] + room;
    ReadLoopRecord(s, max, []);
    ReadLoopBytes(s, max, []);
    t := ReadLoop(s, max, []).value.0;
    var out := ReadLoop(s, max, []).value.1;
    assert out[0..] == out;
    assert |out| == s.recordSizes[0] == |recs[n]|;
    AfterRecord(s, t, recs, n);
    NextRecordBytes(recs, n, Flat(s.segments), s.byteSeq, out);
  }

  lemma RecalculateKeeps(s: Rx, recs: seq<seq<byte>>, n: nat)
    requires AtRecords(s, recs, n) && Accounts(s)
    ensures AtRecords(Recalculate(s), recs, n) && Accounts(Recalculate(s))
  {}

  /** One read_record call hands out the next record and moves to the one after it. */
  lemma FetchRecord(s: Rx, room: nat, read: seq<byte>, recs: seq<seq<byte>>, n: nat) returns (t: Rx)
    requires Accounts(s) && AtRecords(s, recs, n) && s.recordSizes != []
    requires Runs.InOrder(s, read, Join(recs)) && n <= |recs| && read == Join(recs[..n])
    ensures n < |recs|
    ensures ReadData(s, s.recordSizes[0] + room) == Some((t, recs[n]))
    ensures ReadRecord(s, s.recordSizes[0] + room) == Record(t, recs[n])
    ensures AtRecords(t, recs, n + 1) && !t.endRead && t.readahead == s.readahead && Accounts(t)
  {
    var u := LoopFetches(s, room, read, recs, n);
    RecalculateKeeps(u, recs, n + 1);
    t := Recalculate(u);
  }

  lemma JoinPush(records: seq<seq<byte>>, next: seq<byte>)
    ensures Join(records + [next]) == Join(records) + next
  {
    assert (records + [next])[..|records|] == records;
  }

  lemma JoinNext(recs: seq<seq<byte>>, records: seq<seq<byte>>)
    requires |records| < |recs| && records == recs[..|records|]
    ensures records + [recs[|records|]] == recs[..|records| + 1]
    ensures Join(records + [recs[|records|]]) == Join(records) + recs[|records|]
  {
    hide Join;
    JoinPush(records, recs[|records|]);
    TakeNext(recs, |records|);
  }

  lemma TakeNext<T>(s: seq<T>, n: nat)
    requires n < |s|
    ensures s[..n] + [s[n]] == s[..n + 1]
  {}

  /** The byte-level invariant after a read that returned `data` and left `t`. */
  lemma ReadKeepsRun(s: Rx, t: Rx, max: int, read: seq<byte>, data: seq<byte>, received: set<Segment>, stream: seq<byte>)
    requires Accounts(s) && Runs.Settled(Runs.Run(s, read, received), stream)
    requires ReadData(s, max) == Some((t, data))
    ensures Runs.Settled(Runs.Run(t, read + data, received), stream)
  {
    Runs.ReadSettled(Runs.Run(s, read, received), max, stream);
  }

  lemma SettledInOrder(r: RecordRun, recs: seq<seq<byte>>)
    requires Settled(r, recs) && r.rx.recordSizes != []
    ensures !r.rx.endRead && Runs.InOrder(r.rx, Join(r.records), Join(recs))
  {}

  lemma FetchSettled(r: RecordRun, room: nat, recs: seq<seq<byte>>)
    requires Settled(r, recs)
    ensures Settled(Step(r, Fetch(room)), recs)
  {
    hide Accounts, Runs.Settled, AtRecords, AllFit, Join, ReadData, ReadRecord;
    if r.rx.recordSizes != [] {
      var max := r.rx.recordSizes[0] + room;
      SettledInOrder(r, recs);
      var t := FetchRecord(r.rx, room, Join(r.records), recs, |r.records|);
      ReadKeepsRun(r.rx, t, max, Join(r.records), recs[|r.records|], r.received, Join(recs));
      JoinNext(recs, r.records);
    }
  }

  ghost predicate ArrivalsFrom(events: seq<Event>, segs: seq<Segment>) {
    forall i :: 0 <= i < |events| && events[i].Arrive? ==> events[i].seg in segs
  }

  /** A written segment belongs to one of the records. */
  lemma WrittenFits(recs: seq<seq<byte>>, closing: bool, mtu: nat, seg: Segment)
    requires NonEmpty(recs) && mtu > 0 && seg in WriteRecords(recs, closing, mtu)
    ensures Fits(seg, recs)
  {
    WriteFits(recs, |recs|, closing, mtu);
    var k :| 0 <= k < |WriteRecords(recs, closing, mtu)| && WriteRecords(recs, closing, mtu)[k] == seg;
  }

  lemma StartSettled(recs: seq<seq<byte>>, bufferSize: int, minBuffer: nat)
    requires NonEmpty(recs)
    ensures Settled(Start(bufferSize, minBuffer), recs)
  {
    assert recs[..0] == [];
  }

  lemma {:induction false} RunSettled(
      recs: seq<seq<byte>>, closing: bool, mtu: nat, bufferSize: int, minBuffer: nat, events: seq<Event>)
    requires NonEmpty(recs) && mtu > 0 && ArrivalsFrom(events, WriteRecords(recs, closing, mtu))
    ensures Settled(Play(Start(bufferSize, minBuffer), events), recs)
    decreases |events|
  {
    hide Settled, Step, Start, WriteRecords, Fits, NonEmpty;
    if events == [] {
      StartSettled(recs, bufferSize, minBuffer);
    } else {
      var front, e := events[..|events| - 1], events[|events| - 1];
      RunSettled(recs, closing, mtu, bufferSize, minBuffer, front);
      var r := Play(Start(bufferSize, minBuffer), front);
      match e
      case Arrive(seg) =>
        WrittenFits(recs, closing, mtu, seg);
        ArriveSettled(r, seg, recs);
      case Fetch(room) =>
        FetchSettled(r, room, recs);
    }
  }

  /**
   Record round trip: whatever order, repetition or interleaving with reads, the records fetched are a
   prefix of the records written, boundaries intact, and no assertion of the readers fails.
   */
  lemma RecordRoundTrip(
      recs: seq<seq<byte>>, closing: bool, mtu: nat, bufferSize: int, minBuffer: nat, events: seq<Event>)
    requires NonEmpty(recs) && mtu > 0 && ArrivalsFrom(events, WriteRecords(recs, closing, mtu))
    ensures var r := Play(Start(bufferSize, minBuffer), events); r.records <= recs && !r.failed
  {
    RunSettled(recs, closing, mtu, bufferSize, minBuffer, events);
  }

  lemma {:induction false} ReceivedAre(r: RecordRun, events: seq<Event>, seg: Segment)
    requires Arrive(seg) in events
    ensures seg in Play(r, events).received
    decreases |events|
  {
    var front := events[..|events| - 1];
    if events[|events| - 1] != Arrive(seg) {
      var i :| 0 <= i < |events| && events[i] == Arrive(seg);
      assert front[i] == Arrive(seg);
      ReceivedAre(r, front, seg);
    }
  }

  /** When every written segment has arrived, the receive position is the end of the stream. */
  lemma AllArrived(r: RecordRun, recs: seq<seq<byte>>, segs: seq<Segment>)
    requires Settled(r, recs) && !r.rx.endRead && Written(segs, recs, |Join(recs)|)
    requires forall k :: 0 <= k < |segs| ==> segs[k] in r.received
    ensures r.rx.byteSeq == |Join(recs)|
  {
    var at := r.rx.byteSeq;
    if SomeCovers(segs, at) {
      var j :| 0 <= j < |segs| && segs[j].Covers(at);
      if Runs.Buffered(r.rx.readahead, segs[j]) { assert false; }
    }
  }

  /** A record boundary at the end of the stream comes after the last record. */
  lemma BoundaryAtEnd(recs: seq<seq<byte>>, k: nat, open: int)
    requires Boundary(recs, k, open, |Join(recs)|)
    ensures k == |recs|
  {
    if k < |recs| { OffStep(recs, k); }
  }

  lemma AllFetchable(r: RecordRun, recs: seq<seq<byte>>, segs: seq<Segment>)
    requires Settled(r, recs) && Written(segs, recs, |Join(recs)|)
    requires forall k :: 0 <= k < |segs| ==> segs[k] in r.received
    ensures |r.records| + |r.rx.recordSizes| == |recs| && (r.rx.endRead ==> r.records == recs)
  {
    if !r.rx.endRead {
      AllArrived(r, recs, segs);
      hide Written, Join, Runs.Settled;
      BoundaryAtEnd(recs, |r.records| + |r.rx.recordSizes|, r.rx.recordAvailable);
    }
  }

  /**
   Nothing is withheld: once every written segment has arrived at least once, the records already fetched
   and the records waiting to be fetched are all that were written.
   */
  lemma RecordsComplete(
      recs: seq<seq<byte>>, closing: bool, mtu: nat, bufferSize: int, minBuffer: nat, events: seq<Event>)
    requires NonEmpty(recs) && mtu > 0 && ArrivalsFrom(events, WriteRecords(recs, closing, mtu))
    requires forall seg :: seg in WriteRecords(recs, closing, mtu) ==> Arrive(seg) in events
    ensures var r := Play(Start(bufferSize, minBuffer), events);
            |r.records| + |r.rx.recordSizes| == |recs| && (r.rx.endRead ==> r.records == recs)
  {
    RunSettled(recs, closing, mtu, bufferSize, minBuffer, events);
    hide Play, Start, WriteRecords, Settled, Written;
    var start, segs := Start(bufferSize, minBuffer), WriteRecords(recs, closing, mtu);
    var r := Play(start, events);
    forall k | 0 <= k < |segs| ensures segs[k] in r.received { ReceivedAre(start, events, segs[k]); }
    OffEnd(recs);
    WriteFits(recs, |recs|, closing, mtu);
    hide Join, Off;
    AllFetchable(r, recs, segs);
  }
}
