/**
 Whole runs of the receiver: any interleaving of arrivals (any order, duplicates, overlaps) with reads.
 The bytes handed out are a prefix of the sender's stream and the receive position is exactly the first gap.
 */
module ReassemblyRuns {
  import opened Options
  import opened Segments
  import opened Reassembly
  import opened ReassemblyProofs
  import Window

  datatype Event = Arrive(seg: Segment) | Read(max: int)

  /** A receiver with the history of its run: bytes handed to the reader and segments passed to rx_data. */
  datatype Run = Run(rx: Rx, read: seq<byte>, received: set<Segment>)

  function Step(r: Run, e: Event): Run {
    match e
    case Arrive(seg) => Run(Receive(r.rx, seg), r.read, r.received + {seg})
    case Read(max) =>
      match ReadData(r.rx, max)
      case None => r
      case Some((t, got)) => Run(t, r.read + got, r.received)
  }

  function Play(r: Run, events: seq<Event>): Run {
    if events == [] then r else Step(Play(r, events[..|events| - 1]), events[|events| - 1])
  }

  function Start(bufferSize: int, minBuffer: nat): Run {
    Run(Fresh(true, bufferSize, minBuffer), [], {})
  }

  ghost predicate Sorted(segs: seq<Segment>) {
    forall i, j :: 0 <= i < j < |segs| ==> segs[i].pos <= segs[j].pos
  }

  ghost predicate AllBeyond(segs: seq<Segment>, at: nat) {
    forall i :: 0 <= i < |segs| ==> segs[i].pos > at
  }

  ghost predicate CoveredBy(received: set<Segment>, p: nat) {
    exists g :: g in received && g.Covers(p)
  }

  /** Some buffered segment starts where `g` does, has its flags and reaches at least as far. */
  ghost predicate Buffered(readahead: seq<Segment>, g: Segment) {
    exists i :: 0 <= i < |readahead| && StandsFor(readahead[i], g)
  }

  predicate StandsFor(seg: Segment, g: Segment) {
    seg.pos == g.pos && seg.flags == g.flags && |seg.data| >= |g.data|
  }

  ghost predicate InOrder(s: Rx, read: seq<byte>, stream: seq<byte>) {
    s.byteSeq <= |stream| && read + Flat(s.segments) == stream[..s.byteSeq]
  }

  ghost predicate Slices(segs: seq<Segment>, received: set<Segment>, stream: seq<byte>) {
    forall i :: 0 <= i < |segs| ==> segs[i].SliceOf(stream) && segs[i] in received
  }

  /** Every received segment is consumed or represented in the reorder buffer. */
  ghost predicate Tracked(at: nat, readahead: seq<Segment>, received: set<Segment>) {
    forall g {:trigger Buffered(readahead, g)} :: g in received ==> g.End() <= at || Buffered(readahead, g)
  }

  ghost predicate Covered(received: set<Segment>, at: nat) {
    forall p: nat :: p < at ==> CoveredBy(received, p)
  }

  /** The invariant while reading is open; `Settled` adds that a gap precedes the reorder buffer. */
  ghost predicate Consistent(s: Rx, read: seq<byte>, received: set<Segment>, stream: seq<byte>) {
    && InOrder(s, read, stream)
    && Sorted(s.readahead) && Slices(s.readahead, received, stream)
    && Tracked(s.byteSeq, s.readahead, received)
    && Covered(received, s.byteSeq)
  }

  ghost predicate Settled(r: Run, stream: seq<byte>) {
    if r.rx.endRead then r.read <= stream
    else Consistent(r.rx, r.read, r.received, stream) && AllBeyond(r.rx.readahead, r.rx.byteSeq)
  }

  lemma InOrderEnqueue(s: Rx, read: seq<byte>, seg: Segment, stream: seq<byte>)
    requires InOrder(s, read, stream) && seg.pos == s.byteSeq && seg.SliceOf(stream)
    ensures InOrder(Enqueue(s, seg), read, stream)
  {
    var at, end := s.byteSeq, seg.End();
    calc {
      read + Flat(s.segments + [seg]);
      { FlatAppend(s.segments, [seg]); assert Flat([seg]) == seg.data + [] == seg.data; }
      read + (Flat(s.segments) + seg.data);
      (read + Flat(s.segments)) + seg.data;
      stream[..at] + stream[at..end];
      stream[..end];
    }
  }

  lemma CoveredExtend(received: set<Segment>, at: nat, seg: Segment)
    requires Covered(received, at) && seg in received && seg.pos <= at
    ensures seg.End() >= at ==> Covered(received, seg.End())
  {
    forall p: nat | at <= p < seg.End() ensures CoveredBy(received, p) { assert seg.Covers(p); }
  }

  /** Once the position has passed the first buffered segment, that segment may go. */
  lemma DropFront(readahead: seq<Segment>, at: nat, received: set<Segment>)
    requires readahead != [] && readahead[0].End() <= at && Tracked(at, readahead, received)
    ensures Tracked(at, readahead[1..], received)
  {
    forall g | g in received && g.End() > at ensures Buffered(readahead[1..], g) {
      assert Buffered(readahead, g);
      var i :| 0 <= i < |readahead| && StandsFor(readahead[i], g);
      assert readahead[1..][i - 1] == readahead[i];
    }
  }

  /** The first early segment brings something new and is enqueued. */
  lemma FrontEnqueued(s: Rx, t: Rx, read: seq<byte>, received: set<Segment>, stream: seq<byte>)
    requires Consistent(s, read, received, stream) && s.readahead != [] && s.readahead[0].pos <= s.byteSeq
    requires Useful(s.readahead[0], s.byteSeq)
    requires t == s.(readahead := s.readahead[1..], bufferUsed := t.bufferUsed)
    ensures Consistent(Enqueue(t, s.readahead[0].Trim(s.byteSeq)), read, received, stream)
  {
    var seg := s.readahead[0];
    assert seg.SliceOf(stream) && seg in received;
    hide Covered, Tracked, Buffered;
    TrimSlice(seg, s.byteSeq, stream);
    InOrderEnqueue(t, read, seg.Trim(s.byteSeq), stream);
    CoveredExtend(received, s.byteSeq, seg);
    DropFront(s.readahead, seg.End(), received);
    RestSlices(s.readahead, received, stream);
  }

  lemma RestSlices(readahead: seq<Segment>, received: set<Segment>, stream: seq<byte>)
    requires readahead != [] && Slices(readahead, received, stream) && Sorted(readahead)
    ensures Slices(readahead[1..], received, stream) && Sorted(readahead[1..])
  {}

  lemma FrontDropped(s: Rx, t: Rx, read: seq<byte>, received: set<Segment>, stream: seq<byte>)
    requires Consistent(s, read, received, stream) && s.readahead != [] && s.readahead[0].pos <= s.byteSeq
    requires !Useful(s.readahead[0], s.byteSeq)
    requires t == s.(readahead := s.readahead[1..], bufferUsed := t.bufferUsed)
    ensures Consistent(t, read, received, stream)
  {
    DropFront(s.readahead, s.byteSeq, received);
    hide Covered, Tracked, Buffered;
    RestSlices(s.readahead, received, stream);
  }

  lemma {:induction false} DrainConsistent(
      s: Rx, closed: bool, read: seq<byte>, received: set<Segment>, stream: seq<byte>)
    requires Consistent(s, read, received, stream)
    ensures var t := Drain(s, closed).0;
            Consistent(t, read, received, stream) && AllBeyond(t.readahead, t.byteSeq)
    decreases |s.readahead|
  {
    if s.readahead != [] && s.readahead[0].pos <= s.byteSeq {
      hide Consistent, Enqueue;
      var seg := s.readahead[0];
      var t := s.(readahead := s.readahead[1..], bufferUsed := s.bufferUsed - |seg.data|);
      if Useful(seg, s.byteSeq) {
        FrontEnqueued(s, t, read, received, stream);
        EnqueueReadahead(t, seg.Trim(s.byteSeq));
        DrainConsistent(Enqueue(t, seg.Trim(s.byteSeq)), closed || seg.flags.close, read, received, stream);
      } else {
        FrontDropped(s, t, read, received, stream);
        DrainConsistent(t, closed, read, received, stream);
      }
    }
  }

  lemma EnqueueReadahead(s: Rx, seg: Segment)
    ensures Enqueue(s, seg).readahead == s.readahead
  {}

  lemma TrackedInsert(at: nat, readahead: seq<Segment>, i: nat, seg: Segment, received: set<Segment>)
    requires i <= |readahead| && Tracked(at, readahead, received)
    ensures Tracked(at, readahead[..i] + [seg] + readahead[i..], received + {seg})
  {
    var longer := readahead[..i] + [seg] + readahead[i..];
    assert longer[i] == seg;
    forall g | g in received && g.End() > at ensures Buffered(longer, g) {
      assert Buffered(readahead, g);
      var j :| 0 <= j < |readahead| && StandsFor(readahead[j], g);
      assert longer[if j < i then j else j + 1] == readahead[j];
    }
  }

  lemma CoveredMore(received: set<Segment>, at: nat, seg: Segment)
    requires Covered(received, at)
    ensures Covered(received + {seg}, at)
  {
    forall p: nat | p < at ensures CoveredBy(received + {seg}, p) {
      assert CoveredBy(received, p);
      var g :| g in received && g.Covers(p);
      assert g in received + {seg};
    }
  }

  lemma InsertSorted(readahead: seq<Segment>, seg: Segment)
    requires Sorted(readahead)
    ensures var i := LowerBound(readahead, seg.pos); Sorted(readahead[..i] + [seg] + readahead[i..])
  {
    var i := LowerBound(readahead, seg.pos);
    var longer := readahead[..i] + [seg] + readahead[i..];
    forall j, k | 0 <= j < k < |longer| ensures longer[j].pos <= longer[k].pos {
      var a, b := if j < i then j else j - 1, if k < i then k else k - 1;
      assert j != i ==> longer[j] == readahead[a];
      assert k != i ==> longer[k] == readahead[b];
      assert k > i ==> readahead[i].pos <= readahead[b].pos;
    }
  }

  lemma ArriveBeyond(r: Run, seg: Segment, stream: seq<byte>)
    requires !r.rx.endRead && Settled(r, stream) && seg.SliceOf(stream) && seg.pos > r.rx.byteSeq
    ensures Settled(Step(r, Arrive(seg)), stream)
  {
    var s := r.rx;
    var i := LowerBound(s.readahead, seg.pos);
    CoveredMore(r.received, s.byteSeq, seg);
    if Duplicate(s.readahead, seg, i) {
      hide Covered, Sorted;
      assert StandsFor(s.readahead[i], seg);
      assert Buffered(s.readahead, seg);
    } else {
      hide Covered, Sorted, Tracked, Slices, AllBeyond;
      TrackedInsert(s.byteSeq, s.readahead, i, seg, r.received);
      InsertSorted(s.readahead, seg);
      InsertSlices(s.readahead, i, seg, s.byteSeq, r.received, stream);
    }
  }

  lemma InsertSlices(readahead: seq<Segment>, i: nat, seg: Segment, at: nat, received: set<Segment>, stream: seq<byte>)
    requires i <= |readahead| && Slices(readahead, received, stream) && seg.SliceOf(stream)
    requires AllBeyond(readahead, at) && seg.pos > at
    ensures Slices(readahead[..i] + [seg] + readahead[i..], received + {seg}, stream)
    ensures AllBeyond(readahead[..i] + [seg] + readahead[i..], at)
  {}

  lemma ArriveUseful(r: Run, seg: Segment, stream: seq<byte>)
    requires !r.rx.endRead && Settled(r, stream) && seg.SliceOf(stream)
    requires seg.pos <= r.rx.byteSeq && Useful(seg, r.rx.byteSeq)
    ensures var t := Drain(Enqueue(r.rx, seg.Trim(r.rx.byteSeq)), seg.flags.close).0;
            Consistent(t, r.read, r.received + {seg}, stream) && AllBeyond(t.readahead, t.byteSeq)
  {
    var s, received := r.rx, r.received + {seg};
    CoveredMore(r.received, s.byteSeq, seg);
    TrimSlice(seg, s.byteSeq, stream);
    InOrderEnqueue(s, r.read, seg.Trim(s.byteSeq), stream);
    CoveredExtend(received, s.byteSeq, seg);
    DrainConsistent(Enqueue(s, seg.Trim(s.byteSeq)), seg.flags.close, r.read, received, stream);
  }

  /** One arrival of any slice of the stream keeps the invariant. */
  lemma ArriveSettled(r: Run, seg: Segment, stream: seq<byte>)
    requires Settled(r, stream) && seg.SliceOf(stream)
    ensures Settled(Step(r, Arrive(seg)), stream)
  {
    if r.rx.endRead {
    } else if seg.pos > r.rx.byteSeq {
      ArriveBeyond(r, seg, stream);
    } else if Useful(seg, r.rx.byteSeq) {
      ArriveUseful(r, seg, stream);
      var t := Drain(Enqueue(r.rx, seg.Trim(r.rx.byteSeq)), seg.flags.close).0;
      assert InOrder(t, r.read, stream);
    } else {
      CoveredMore(r.received, r.rx.byteSeq, seg);
    }
  }

  /** Moving bytes from the queue to the reader keeps their order. */
  lemma ReadInOrder(s: Rx, t: Rx, read: seq<byte>, out: seq<byte>, stream: seq<byte>)
    requires InOrder(s, read, stream) && out <= Flat(s.segments)
    ensures read + out <= stream
    ensures t.byteSeq == s.byteSeq && out + Flat(t.segments) == Flat(s.segments) ==> InOrder(t, read + out, stream)
  {
    assert read + out <= read + Flat(s.segments);
    assert (read + out) + Flat(t.segments) == read + (out + Flat(t.segments));
  }

  lemma ReadSettled(r: Run, max: int, stream: seq<byte>)
    requires Settled(r, stream) && Accounts(r.rx)
    ensures Settled(Step(r, Read(max)), stream)
  {
    if ReadLoop(r.rx, max, []).Some? {
      ReadLoopBytes(r.rx, max, []);
      var (t, out) := ReadLoop(r.rx, max, []).value;
      assert out[0..] == out;
      if r.rx.endRead {
        assert out == [];
        assert r.read + out == r.read;
      } else {
        ReadInOrder(r.rx, t, r.read, out, stream);
      }
    }
  }

  ghost predicate SlicesOf(events: seq<Event>, stream: seq<byte>) {
    forall i :: 0 <= i < |events| && events[i].Arrive? ==> events[i].seg.SliceOf(stream)
  }

  /** The reassembly invariant and the accounting hold in every state a run can reach. */
  lemma {:induction false} RunSettled(bufferSize: int, minBuffer: nat, events: seq<Event>, stream: seq<byte>)
    requires SlicesOf(events, stream)
    ensures var r := Play(Start(bufferSize, minBuffer), events); Settled(r, stream) && Accounts(r.rx)
    decreases |events|
  {
    if events == [] {
      assert Flat([]) == [] && stream[..0] == [];
    } else {
      var front, e := events[..|events| - 1], events[|events| - 1];
      RunSettled(bufferSize, minBuffer, front, stream);
      var r := Play(Start(bufferSize, minBuffer), front);
      match e
      case Arrive(seg) =>
        ArriveSettled(r, seg, stream);
        ReceiveAccounts(r.rx, seg);
      case Read(max) =>
        ReadSettled(r, max, stream);
        if ReadLoop(r.rx, max, []).Some? { ReadLoopBytes(r.rx, max, []); }
    }
  }

  /**
   Reassembly safety: bytes already read followed by the bytes waiting to be read are the first
   `byteSeq` bytes of the sender's stream; after reading was shut down, what was read is still a prefix.
   */
  lemma ReassemblySafety(bufferSize: int, minBuffer: nat, events: seq<Event>, stream: seq<byte>)
    requires SlicesOf(events, stream)
    ensures var r := Play(Start(bufferSize, minBuffer), events);
            && r.read <= stream
            && (!r.rx.endRead ==> r.rx.byteSeq <= |stream| && r.read + Flat(r.rx.segments) == stream[..r.rx.byteSeq])
  {
    RunSettled(bufferSize, minBuffer, events, stream);
  }

  /**
   Reassembly exactness: the receive position is the smallest position no received segment covers; the reorder buffer
   is sorted, starts strictly beyond it, and stands for every received segment that goes on beyond it, flags included.
   */
  lemma ReassemblyExactness(bufferSize: int, minBuffer: nat, events: seq<Event>, stream: seq<byte>)
    requires SlicesOf(events, stream)
    ensures var r := Play(Start(bufferSize, minBuffer), events);
            !r.rx.endRead ==>
              && Covered(r.received, r.rx.byteSeq) && !CoveredBy(r.received, r.rx.byteSeq)
              && Sorted(r.rx.readahead) && AllBeyond(r.rx.readahead, r.rx.byteSeq)
              && (forall g {:trigger Buffered(r.rx.readahead, g)} :: g in r.received && g.End() > r.rx.byteSeq
                    ==> Buffered(r.rx.readahead, g))
  {
    RunSettled(bufferSize, minBuffer, events, stream);
    var r := Play(Start(bufferSize, minBuffer), events);
    if !r.rx.endRead {
      forall g | g in r.received ensures !g.Covers(r.rx.byteSeq) {
        if Buffered(r.rx.readahead, g) {}
      }
    }
  }

  // ---------------------------------------------------------------- the end of reading

  lemma BeyondIsLeft(s: Rx, closed: bool)
    requires AllBeyond(s.readahead, s.byteSeq)
    ensures Drain(s, closed) == (s, closed)
  {}

  ghost predicate SameSetup(s: Rx, t: Rx) {
    t.linkUp == s.linkUp && t.bufferSize == s.bufferSize && t.minBuffer == s.minBuffer
  }

  lemma {:induction false} DrainKeepsBytes(s: Rx, closed: bool)
    ensures Drain(s, closed).0.available >= s.available && Drain(s, closed).0.endRead == s.endRead
    ensures SameSetup(s, Drain(s, closed).0)
    decreases |s.readahead|
  {
    if s.readahead != [] && s.readahead[0].pos <= s.byteSeq {
      var seg := s.readahead[0];
      var t := s.(readahead := s.readahead[1..], bufferUsed := s.bufferUsed - |seg.data|);
      if Useful(seg, s.byteSeq) {
        DrainKeepsBytes(Enqueue(t, seg.Trim(s.byteSeq)), closed || seg.flags.close);
      } else {
        DrainKeepsBytes(t, closed);
      }
    }
  }

  /** On a stream that is up, an arrival ends reading exactly when it closes where everything was read already. */
  lemma ReceiveEndsExactly(s: Rx, seg: Segment)
    requires Accounts(s) && (!s.endRead ==> AllBeyond(s.readahead, s.byteSeq))
    ensures Receive(s, seg).endRead <==>
              s.endRead || (s.linkUp && seg.flags.close && seg.End() == s.byteSeq && s.available == 0)
  {
    if !s.endRead && seg.pos <= s.byteSeq && Useful(seg, s.byteSeq) {
      var e := Enqueue(s, seg.Trim(s.byteSeq));
      DrainKeepsBytes(e, seg.flags.close);
      if seg.End() == s.byteSeq { BeyondIsLeft(e, seg.flags.close); }
    }
  }

  lemma ReceiveSetup(s: Rx, seg: Segment)
    ensures SameSetup(s, Receive(s, seg))
  {
    if seg.pos <= s.byteSeq && Useful(seg, s.byteSeq) {
      DrainKeepsBytes(Enqueue(s, seg.Trim(s.byteSeq)), seg.flags.close);
    }
  }

  lemma {:induction false} ReadSetup(s: Rx, max: int, got: seq<byte>)
    requires ReadLoop(s, max, got).Some?
    ensures SameSetup(s, ReadLoop(s, max, got).value.0)
    decreases |s.segments|
  {
    if max > 0 && s.available > 0 {
      var (t, stop) := TakeSegment(s).value;
      assert SameSetup(s, t) && |t.segments| < |s.segments|;
      if !stop { ReadSetup(t, max - |s.segments[0].data|, got + s.segments[0].data); }
    }
  }

  lemma StepSetup(r: Run, e: Event)
    ensures SameSetup(r.rx, Step(r, e).rx)
  {
    hide ReadLoop, Receive;
    match e
    case Arrive(seg) => ReceiveSetup(r.rx, seg);
    case Read(max) => if ReadLoop(r.rx, max, []).Some? { ReadSetup(r.rx, max, []); }
  }

  lemma {:induction false} RunSetup(bufferSize: int, minBuffer: nat, events: seq<Event>)
    ensures SameSetup(Fresh(true, bufferSize, minBuffer), Play(Start(bufferSize, minBuffer), events).rx)
    decreases |events|
  {
    hide Step;
    if events != [] {
      RunSetup(bufferSize, minBuffer, events[..|events| - 1]);
      StepSetup(Play(Start(bufferSize, minBuffer), events[..|events| - 1]), events[|events| - 1]);
    }
  }

  /** Over runs: the end of the stream shuts reading down as soon as nothing is left to read, and nothing else does. */
  lemma ArrivalEndsExactly(bufferSize: int, minBuffer: nat, events: seq<Event>, stream: seq<byte>, seg: Segment)
    requires SlicesOf(events, stream)
    ensures var r := Play(Start(bufferSize, minBuffer), events);
            Step(r, Arrive(seg)).rx.endRead <==>
              r.rx.endRead || (seg.flags.close && seg.End() == r.rx.byteSeq && Flat(r.rx.segments) == [])
  {
    RunSettled(bufferSize, minBuffer, events, stream);
    RunSetup(bufferSize, minBuffer, events);
    var r := Play(Start(bufferSize, minBuffer), events);
    FlatTotal(r.rx.segments);
    ReceiveEndsExactly(r.rx, seg);
  }

  lemma {:induction false} DrainExtends(s: Rx, closed: bool)
    ensures s.segments <= Drain(s, closed).0.segments
    decreases |s.readahead|
  {
    if s.readahead != [] && s.readahead[0].pos <= s.byteSeq {
      var seg := s.readahead[0];
      var t := s.(readahead := s.readahead[1..], bufferUsed := s.bufferUsed - |seg.data|);
      if Useful(seg, s.byteSeq) {
        DrainExtends(Enqueue(t, seg.Trim(s.byteSeq)), closed || seg.flags.close);
      } else {
        DrainExtends(t, closed);
      }
    }
  }

  /**
   A segment at or before the receive position is taken, cut down to what is new, exactly when it brings bytes, or any
   flag right at the position; one beyond it leaves what is readable as it is.
   */
  lemma ArrivalTakenExactly(s: Rx, seg: Segment)
    requires !s.endRead
    ensures var t := Receive(s, seg);
            var news := seg.pos <= s.byteSeq
              && (seg.End() > s.byteSeq
                  || (seg.End() == s.byteSeq && (seg.flags.push || seg.flags.record || seg.flags.close)));
            if news then
              t.endRead || s.segments + [Segment(s.byteSeq, seg.data[s.byteSeq - seg.pos..], seg.flags)] <= t.segments
            else
              t.segments == s.segments && t.byteSeq == s.byteSeq && !t.endRead
  {
    if seg.pos <= s.byteSeq && Useful(seg, s.byteSeq) {
      DrainExtends(Enqueue(s, seg.Trim(s.byteSeq)), seg.flags.close);
    }
  }

  // ---------------------------------------------------------------- the window

  ghost predicate Advertised(s: Rx) {
    s.windowByte == Window.Exponent(Window.FreeSpace(s.bufferSize, s.bufferUsed, s.available, s.minBuffer))
  }

  lemma RecalculateAdvertises(s: Rx)
    ensures Advertised(Recalculate(s))
  {}

  /** Every event that changes the state advertises the window anew. */
  lemma StepAdvertises(r: Run, e: Event)
    ensures Advertised(Step(r, e).rx) || (Step(r, e).rx == r.rx && (r.rx.endRead || r.rx.available > 0))
  {
    hide Recalculate, Advertised, Drain, Enqueue, ShutdownRead, TakeSegment, LowerBound, Duplicate;
    match e
    case Arrive(seg) =>
      var s := r.rx;
      RecalculateAdvertises(s);
      if s.endRead {
      } else if seg.pos > s.byteSeq {
        var i := LowerBound(s.readahead, seg.pos);
        RecalculateAdvertises(s.(bufferUsed := s.bufferUsed + |seg.data|,
                                 readahead := s.readahead[..i] + [seg] + s.readahead[i..]));
      } else if Useful(seg, s.byteSeq) {
        var (t, closed) := Drain(Enqueue(s, seg.Trim(s.byteSeq)), seg.flags.close);
        RecalculateAdvertises(if closed && t.available == 0 then ShutdownRead(t) else t);
      }
    case Read(max) =>
      if ReadLoop(r.rx, max, []).Some? { RecalculateAdvertises(ReadLoop(r.rx, max, []).value.0); }
  }

  lemma {:induction false} RunAdvertises(bufferSize: int, minBuffer: nat, events: seq<Event>)
    requires events != []
    ensures Advertised(Play(Start(bufferSize, minBuffer), events).rx)
    decreases |events|
  {
    hide Step, Advertised;
    var front := events[..|events| - 1];
    if front != [] { RunAdvertises(bufferSize, minBuffer, front); }
    StepAdvertises(Play(Start(bufferSize, minBuffer), front), events[|events| - 1]);
  }

  /**
   After any events the window the sender reads from the advertised byte is at most the free space of the receive
   buffer and at least half of it. When everything buffered is early, the minimum buffer counts as free.
   */
  lemma WindowFollowsBuffer(bufferSize: int, minBuffer: nat, events: seq<Event>)
    requires events != [] && bufferSize < Window.SHIFT_LIMIT && minBuffer < Window.SHIFT_LIMIT
    ensures var s := Play(Start(bufferSize, minBuffer), events).rx;
            var room := if s.bufferUsed < bufferSize then bufferSize - s.bufferUsed else 0;
            var free := if s.available == 0 && s.bufferUsed > 0 && room < minBuffer then minBuffer else room;
            0 <= s.available <= s.bufferUsed && Window.Decode(s.windowByte) <= free <= 2 * Window.Decode(s.windowByte)
  {
    RunAccounts(bufferSize, minBuffer, events);
    RunSetup(bufferSize, minBuffer, events);
    RunAdvertises(bufferSize, minBuffer, events);
    var s := Play(Start(bufferSize, minBuffer), events).rx;
    Window.WindowAgreement(Window.FreeSpace(bufferSize, s.bufferUsed, s.available, minBuffer));
  }

  lemma {:induction false} RunAccounts(bufferSize: int, minBuffer: nat, events: seq<Event>)
    ensures Accounts(Play(Start(bufferSize, minBuffer), events).rx)
    decreases |events|
  {
    hide Accounts, Receive, ReadLoop;
    if events == [] {
      FreshAccounts(bufferSize, minBuffer);
    } else {
      var front, e := events[..|events| - 1], events[|events| - 1];
      RunAccounts(bufferSize, minBuffer, front);
      var s := Play(Start(bufferSize, minBuffer), front).rx;
      match e
      case Arrive(seg) => ReceiveAccounts(s, seg);
      case Read(max) =>
        if ReadLoop(s, max, []).Some? {
          ReadLoopBytes(s, max, []);
          RecalculateAccounts(ReadLoop(s, max, []).value.0);
        }
    }
  }

  lemma FreshAccounts(bufferSize: int, minBuffer: nat)
    ensures Accounts(Fresh(true, bufferSize, minBuffer))
  {}
}
