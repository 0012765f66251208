/** The receive half of base_stream, updated in place. Every method is tied to its value-level counterpart. */
module StreamReceivers {
  import opened Options
  import opened Segments
  import R = Reassembly
  import opened ReassemblyProofs
  import Runs = ReassemblyRuns
  import Window

  lemma {:induction false} LowerBoundUnique(segs: seq<Segment>, pos: nat, i: nat)
    requires i <= |segs|
    requires forall j :: 0 <= j < i ==> segs[j].pos < pos
    requires i < |segs| ==> segs[i].pos >= pos
    ensures i == R.LowerBound(segs, pos)
  {}

  lemma {:induction false} DrainSorted(s: R.Rx, closed: bool)
    requires Runs.Sorted(s.readahead)
    ensures Runs.Sorted(R.Drain(s, closed).0.readahead)
    decreases |s.readahead|
  {
    if s.readahead != [] && s.readahead[0].pos <= s.byteSeq {
      var seg := s.readahead[0];
      var t := s.(readahead := s.readahead[1..], bufferUsed := s.bufferUsed - |seg.data|);
      if R.Useful(seg, s.byteSeq) {
        DrainSorted(R.Enqueue(t, seg.Trim(s.byteSeq)), closed || seg.flags.close);
      } else {
        DrainSorted(t, closed);
      }
    }
  }

  lemma ReceiveSorted(s: R.Rx, seg: Segment)
    requires Runs.Sorted(s.readahead)
    ensures Runs.Sorted(R.Receive(s, seg).readahead)
  {
    if s.endRead {
    } else if seg.pos > s.byteSeq {
      Runs.InsertSorted(s.readahead, seg);
    } else if R.Useful(seg, s.byteSeq) {
      DrainSorted(R.Enqueue(s, seg.Trim(s.byteSeq)), seg.flags.close);
    }
  }

  class StreamReceiver {
    var byteSeq: nat
    var available: int
    var recordAvailable: int
    var bufferUsed: int
    var windowByte: nat
    var readahead: seq<Segment>
    var segments: seq<Segment>
    var recordSizes: seq<int>
    var endRead: bool
    var linkUp: bool
    const bufferSize: int
    const minBuffer: nat

    ghost function State(): R.Rx
      reads this
    {
      R.Rx(byteSeq, available, recordAvailable, bufferUsed, windowByte, readahead, segments, recordSizes,
           endRead, linkUp, bufferSize, minBuffer)
    }

    ghost predicate Valid()
      reads this
    {
      Accounts(State()) && Runs.Sorted(readahead)
    }

    constructor (linkUp: bool, bufferSize: int, minBuffer: nat)
      ensures Valid() && State() == R.Fresh(linkUp, bufferSize, minBuffer)
    {
      byteSeq, available, recordAvailable, bufferUsed, windowByte := 0, 0, 0, 0, 0;
      readahead, segments, recordSizes, endRead := [], [], [], false;
      this.linkUp := linkUp;
      this.bufferSize := bufferSize;
      this.minBuffer := minBuffer;
    }

    method RecalculateReceiveWindow()
      modifies this`windowByte
      ensures State() == R.Recalculate(old(State()))
    {
      var rwin := if bufferSize - bufferUsed > 0 then bufferSize - bufferUsed else 0;
      if available == 0 && bufferUsed > 0 {
        rwin := if rwin > minBuffer then rwin else minBuffer;
      }
      windowByte := Window.FindExponent(rwin);
    }

    method ShutdownRead()
      modifies this
      ensures State() == R.ShutdownRead(old(State()))
    {
      if linkUp && !endRead {
        available, recordAvailable, bufferUsed := 0, 0, 0;
        readahead, segments, recordSizes := [], [], [];
        endRead := true;
      }
    }

    method EnqueueSegment(seg: Segment, wasClosed: bool) returns (closed: bool)
      modifies this
      ensures State() == R.Enqueue(old(State()), seg)
      ensures closed == (wasClosed || seg.flags.close)
    {
      var actualSize := |seg.data|;
      segments := segments + [seg];
      byteSeq := byteSeq + actualSize;
      available := available + actualSize;
      recordAvailable := recordAvailable + actualSize;
      bufferUsed := bufferUsed + actualSize;
      if (seg.flags.record || seg.flags.close) && recordAvailable > 0 {
        recordSizes := recordSizes + [recordAvailable];
        recordAvailable := 0;
      }
      closed := wasClosed || seg.flags.close;
    }

    /** Binary search for the place of an out-of-order segment. */
    method LowerBound(pos: nat) returns (i: nat)
      requires Runs.Sorted(readahead)
      ensures i == R.LowerBound(readahead, pos)
    {
      i := 0;
      var hi := |readahead|;
      while i < hi
        invariant i <= hi <= |readahead|
        invariant forall j :: 0 <= j < i ==> readahead[j].pos < pos
        invariant forall j :: hi <= j < |readahead| ==> readahead[j].pos >= pos
      {
        var mid := (i + hi) / 2;
        if readahead[mid].pos < pos {
          i := mid + 1;
        } else {
          hi := mid;
        }
      }
      LowerBoundUnique(readahead, pos, i);
    }

    /** The loop of rx_data that pulls contiguous segments out of the reorder buffer. */
    method DrainReadahead(wasClosed: bool) returns (closed: bool)
      modifies this
      ensures (State(), closed) == R.Drain(old(State()), wasClosed)
    {
      closed := wasClosed;
      while readahead != []
        invariant R.Drain(State(), closed) == R.Drain(old(State()), wasClosed)
        decreases |readahead|
      {
        var head := readahead[0];
        if head.pos > byteSeq {
          break;
        }
        bufferUsed := bufferUsed - |head.data|;
        readahead := readahead[1..];
        var actSize := |head.data| + head.pos - byteSeq;
        if actSize < 0 || (actSize == 0 && !head.flags.Any()) {
          continue;
        }
        closed := EnqueueSegment(head.Trim(byteSeq), closed);
      }
    }

    /** rx_data on a segment at or before the receive position. */
    method ReceiveInOrder(seg: Segment)
      requires !endRead && seg.pos <= byteSeq
      modifies this
      ensures State() == R.Receive(old(State()), seg)
    {
      var actSize := |seg.data| + seg.pos - byteSeq;
      if actSize < 0 || (actSize == 0 && !seg.flags.Any()) {
        RecalculateReceiveWindow();
        return;
      }
      var closed := EnqueueSegment(seg.Trim(byteSeq), false);
      closed := DrainReadahead(closed);
      if closed && available == 0 {
        ShutdownRead();
      }
      RecalculateReceiveWindow();
    }

    /** rx_data on a segment beyond the receive position. */
    method ReceiveAhead(seg: Segment)
      requires !endRead && seg.pos > byteSeq && Runs.Sorted(readahead)
      modifies this
      ensures State() == R.Receive(old(State()), seg)
    {
      var i := LowerBound(seg.pos);
      if i < |readahead| && readahead[i].pos == seg.pos
         && |seg.data| <= |readahead[i].data| && seg.flags == readahead[i].flags {
        RecalculateReceiveWindow();
        return;
      }
      bufferUsed := bufferUsed + |seg.data|;
      readahead := readahead[..i] + [seg] + readahead[i..];
      RecalculateReceiveWindow();
    }

    /** rx_data */
    method ReceiveData(seg: Segment)
      requires Valid()
      modifies this
      ensures Valid() && State() == R.Receive(old(State()), seg)
    {
      ReceiveAccounts(State(), seg);
      ReceiveSorted(State(), seg);
      if endRead {
        return;
      }
      if seg.pos <= byteSeq {
        ReceiveInOrder(seg);
      } else {
        ReceiveAhead(seg);
      }
    }

    /** One iteration of read_data. The assertions are those of the source; they hold in every valid state. */
    method TakeSegment() returns (seg: Segment, stop: bool)
      requires Accounts(State()) && available > 0
      modifies this
      ensures old(segments) != [] && seg == old(segments)[0]
      ensures R.TakeSegment(old(State())) == Some((State(), stop))
    {
      TakeAccounts(State());
      assert !endRead;
      assert segments != [];
      seg := segments[0];
      segments := segments[1..];
      var size := |seg.data|;
      available := available - size;
      bufferUsed := bufferUsed - size;
      assert available >= 0;
      if recordSizes != [] {
        var head := recordSizes[0] - size;
        assert head >= 0;
        if head == 0 {
          recordSizes := recordSizes[1..];
          return seg, true;
        }
        recordSizes := recordSizes[0 := head];
      } else {
        recordAvailable := recordAvailable - size;
        assert recordAvailable >= 0;
      }
      if seg.flags.close {
        ShutdownRead();
      }
      return seg, false;
    }

    /** The loop of read_data. */
    method ReadLoop(max: int) returns (got: seq<byte>)
      requires Accounts(State()) && R.ReadLoop(State(), max, []).Some?
      modifies this
      ensures R.ReadLoop(old(State()), max, []) == Some((State(), got))
    {
      got := [];
      var room := max;
      while room > 0 && available > 0
        invariant Accounts(State()) && R.ReadLoop(State(), room, got) == R.ReadLoop(old(State()), max, [])
        decreases |segments|
      {
        TakeAccounts(State());
        var seg, stop := TakeSegment();
        assert room >= |seg.data|;
        got := got + seg.data;
        room := room - |seg.data|;
        if stop {
          break;
        }
      }
    }

    /** read_data; the caller's buffer must not end inside a segment. */
    method ReadData(max: int) returns (got: seq<byte>)
      requires Valid() && (max <= 0 || max >= Span(State()) || CutsAtSegment(segments, max))
      modifies this
      ensures Valid() && R.ReadData(old(State()), max) == Some((State(), got))
    {
      ReadDataSucceedsExactly(State(), max);
      ReadLoopBytes(State(), max, []);
      got := ReadLoop(max);
      RecalculateReceiveWindow();
    }

    /**
     read_record; None when no record is complete. The rest of a record longer than the buffer is dropped.
     The buffer must have room for the record, or end at one of its segments with at most 2^30 bytes to skip.
     */
    method ReadRecord(max: int) returns (data: Option<seq<byte>>)
      requires Valid()
      requires recordSizes != [] ==>
                 Span(State()) == recordSizes[0] && max > 0 && SkipsRest(State(), max)
      modifies this
      ensures Valid()
      ensures data.None? <==> old(recordSizes) == []
      ensures data.None? ==> State() == old(State())
      ensures data.Some? ==> R.ReadRecord(old(State()), max) == R.Record(State(), data.value)
    {
      if recordSizes == [] {
        return None;
      }
      var before := |recordSizes|;
      ReadRecordSucceedsExactly(State(), max);
      ReadDataSucceedsExactly(State(), max);
      var got := ReadData(max);
      assert got != [];
      if |recordSizes| == before {
        ReadDataSucceedsExactly(State(), R.SKIP_SIZE);
        var skipped := ReadData(R.SKIP_SIZE);
        assert skipped != [];
      }
      assert |recordSizes| == before - 1;
      data := Some(got);
    }
  }
}
