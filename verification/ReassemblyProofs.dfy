/**
 The accounting of the receiving end, which every arrival and every read keep, and the exact conditions
 under which the readers meet the assertions of the source.
 */
module ReassemblyProofs {
  import opened Options
  import opened Segments
  import opened Reassembly

  // ---------------------------------------------------------------- accounting

  /** The segments split exactly at the ends of the complete records, as read_data consumes them. */
  ghost predicate Aligned(segs: seq<Segment>, sizes: seq<int>) {
    sizes == []
    || (segs != []
        && var n := |segs[0].data|;
           if n < sizes[0] then Aligned(segs[1..], sizes[0 := sizes[0] - n])
           else n == sizes[0] && Aligned(segs[1..], sizes[1..]))
  }

  ghost predicate Positive(sizes: seq<int>) {
    forall i :: 0 <= i < |sizes| ==> sizes[i] > 0
  }

  ghost predicate Accounts(s: Rx) {
    && s.available == Total(s.segments) == Sum(s.recordSizes) + s.recordAvailable
    && s.bufferUsed == s.available + Total(s.readahead)
    && s.recordAvailable >= 0
    && Positive(s.recordSizes)
    && Aligned(s.segments, s.recordSizes)
    && (s.endRead ==> s.segments == [] && s.readahead == [] && s.recordSizes == [] && s.recordAvailable == 0)
  }

  lemma {:induction false} AlignedAppend(segs: seq<Segment>, sizes: seq<int>, seg: Segment)
    requires Aligned(segs, sizes)
    ensures Aligned(segs + [seg], sizes)
    decreases |segs|
  {
    if sizes != [] {
      assert (segs + [seg])[1..] == segs[1..] + [seg];
      var n := |segs[0].data|;
      AlignedAppend(segs[1..], if n < sizes[0] then sizes[0 := sizes[0] - n] else sizes[1..], seg);
    }
  }

  lemma {:induction false} AlignedRest(segs: seq<Segment>, sizes: seq<int>, last: int)
    requires Aligned(segs, sizes) && Positive(sizes) && last > 0
    requires Total(segs) == Sum(sizes) + last
    ensures Aligned(segs, sizes + [last])
    decreases |segs|
  {
    var n := |segs[0].data|;
    if sizes == [] {
      if n < last {
        AlignedRest(segs[1..], [], last - n);
        assert [] + [last - n] == ([] + [last])[0 := last - n];
      } else {
        assert ([] + [last])[1..] == [];
      }
    } else if n < sizes[0] {
      var cut := sizes[0 := sizes[0] - n];
      assert cut[1..] == sizes[1..];
      AlignedRest(segs[1..], cut, last);
      assert cut + [last] == (sizes + [last])[0 := sizes[0] - n];
    } else {
      AlignedRest(segs[1..], sizes[1..], last);
      assert sizes[1..] + [last] == (sizes + [last])[1..];
    }
  }

  lemma EnqueueAccounts(s: Rx, seg: Segment)
    requires Accounts(s) && !s.endRead
    ensures Accounts(Enqueue(s, seg))
  {
    TotalAppend(s.segments, [seg]);
    AlignedAppend(s.segments, s.recordSizes, seg);
    var open := s.recordAvailable + |seg.data|;
    if seg.flags.EndsRecord() && open > 0 {
      SumAppend(s.recordSizes, [open]);
      AlignedRest(s.segments + [seg], s.recordSizes, open);
    }
  }

  lemma {:induction false} DrainAccounts(s: Rx, closed: bool)
    requires Accounts(s) && !s.endRead
    ensures Accounts(Drain(s, closed).0) && !Drain(s, closed).0.endRead
    decreases |s.readahead|
  {
    if s.readahead != [] && s.readahead[0].pos <= s.byteSeq {
      var seg := s.readahead[0];
      var t := s.(readahead := s.readahead[1..], bufferUsed := s.bufferUsed - |seg.data|);
      if Useful(seg, s.byteSeq) {
        EnqueueAccounts(t, seg.Trim(s.byteSeq));
        DrainAccounts(Enqueue(t, seg.Trim(s.byteSeq)), closed || seg.flags.close);
      } else {
        DrainAccounts(t, closed);
      }
    }
  }

  lemma ShutdownAccounts(s: Rx)
    requires Accounts(s)
    ensures Accounts(ShutdownRead(s))
  {}

  lemma RecalculateAccounts(s: Rx)
    ensures Accounts(Recalculate(s)) <==> Accounts(s)
  {}

  /** Receive accounting is kept by every arrival. */
  lemma ReceiveAccounts(s: Rx, seg: Segment)
    requires Accounts(s)
    ensures Accounts(Receive(s, seg))
  {
    if !s.endRead && seg.pos <= s.byteSeq && Useful(seg, s.byteSeq) {
      EnqueueAccounts(s, seg.Trim(s.byteSeq));
      hide Accounts, Enqueue, Drain;
      DrainAccounts(Enqueue(s, seg.Trim(s.byteSeq)), seg.flags.close);
      var (t, closed) := Drain(Enqueue(s, seg.Trim(s.byteSeq)), seg.flags.close);
      ShutdownAccounts(t);
      RecalculateAccounts(if closed && t.available == 0 then ShutdownRead(t) else t);
    } else if !s.endRead && seg.pos > s.byteSeq {
      TotalInsert(s.readahead, LowerBound(s.readahead, seg.pos), seg);
    }
  }

  lemma TotalInsert(segs: seq<Segment>, i: nat, seg: Segment)
    requires i <= |segs|
    ensures Total(segs[..i] + [seg] + segs[i..]) == Total(segs) + |seg.data|
  {
    TotalAppend(segs[..i] + [seg], segs[i..]);
    TotalAppend(segs[..i], [seg]);
    TotalAppend(segs[..i], segs[i..]);
    assert segs == segs[..i] + segs[i..];
    assert Total([seg]) == |seg.data| by { assert [seg][1..] == []; }
  }

  /** No assertion of read_data fails, whichever segment it takes next. */
  lemma TakeAccounts(s: Rx)
    requires Accounts(s) && s.available > 0
    ensures TakeSegment(s).Some? && Accounts(TakeSegment(s).value.0)
  {
    hide CloseAfter;
    var seg, n := s.segments[0], |s.segments[0].data|;
    var t := s.(segments := s.segments[1..], available := s.available - n, bufferUsed := s.bufferUsed - n);
    if s.recordSizes != [] {
      var rest := s.recordSizes[0 := s.recordSizes[0] - n];
      assert rest[1..] == s.recordSizes[1..];
      if s.recordSizes[0] > n { CloseAccounts(t.(recordSizes := rest), seg); }
    } else {
      CloseAccounts(t.(recordAvailable := t.recordAvailable - n), seg);
    }
  }

  lemma CloseAccounts(s: Rx, seg: Segment)
    requires Accounts(s)
    ensures Accounts(CloseAfter(s, seg))
  {}

  /** What one iteration of read_data leaves in place. */
  lemma TakeLeaves(s: Rx)
    requires TakeSegment(s).Some?
    ensures s.segments != [] && Flat(s.segments) == s.segments[0].data + Flat(s.segments[1..])
    ensures var t := TakeSegment(s).value.0;
            && (t.endRead ==> t.segments == []) && |t.segments| < |s.segments|
            && (!t.endRead ==> !s.endRead && t.byteSeq == s.byteSeq && t.readahead == s.readahead
                               && t.segments == s.segments[1..])
  {}

  lemma SliceSplit<T>(got: seq<T>, data: seq<T>, out: seq<T>)
    requires got + data <= out
    ensures got <= out && out[|got|..] == data + out[|got + data|..]
  {
    assert out == got + data + out[|got + data|..];
  }

  /** Where the bytes of one read come from, and what it leaves in place. */
  lemma {:induction false} ReadLoopBytes(s: Rx, max: int, got: seq<byte>)
    requires Accounts(s) && ReadLoop(s, max, got).Some?
    ensures var (t, out) := ReadLoop(s, max, got).value;
            && Accounts(t) && got <= out && out[|got|..] <= Flat(s.segments)
            && (!t.endRead ==> && !s.endRead && t.byteSeq == s.byteSeq && t.readahead == s.readahead
                               && out[|got|..] + Flat(t.segments) == Flat(s.segments))
    decreases |s.segments|
  {
    hide Accounts, TakeSegment;
    if max > 0 && s.available > 0 {
      TakeAccounts(s);
      TakeLeaves(s);
      var (t, stop) := TakeSegment(s).value;
      var data := s.segments[0].data;
      if stop {
        assert (got + data)[|got|..] == data;
      } else {
        ReadLoopBytes(t, max - |data|, got + data);
        SliceSplit(got, data, ReadLoop(t, max - |data|, got + data).value.1);
      }
    } else {
      assert got[|got|..] == [];
    }
  }

  /** What the source reports as waiting: the first complete record, or all there is. */
  function Pending(s: Rx): int {
    if s.recordSizes != [] then s.recordSizes[0] else s.available
  }

  /** Bytes up to the end of the first closing segment. */
  function UpToClose(segs: seq<Segment>): nat {
    if segs == [] then 0
    else |segs[0].data| + if segs[0].flags.close then 0 else UpToClose(segs[1..])
  }

  /** What a read can get at once: a record, or all there is, but nothing beyond a closing segment. */
  function Span(s: Rx): int {
    if s.linkUp && UpToClose(s.segments) < Pending(s) then UpToClose(s.segments) else Pending(s)
  }

  lemma {:induction false} SumPositive(sizes: seq<int>)
    requires Positive(sizes)
    ensures Sum(sizes) >= |sizes|
  {
    if sizes != [] { SumPositive(sizes[1..]); }
  }

  /** With room for everything buffered, the read loop returns just that much. */
  lemma {:induction false} SpanIsRead(s: Rx, max: int, got: seq<byte>)
    requires Accounts(s) && max >= s.available
    ensures ReadLoop(s, max, got).Some? && |ReadLoop(s, max, got).value.1| == |got| + Span(s)
    decreases |s.segments|
  {
    SumPositive(s.recordSizes);
    if max > 0 && s.available > 0 {
      TakeAccounts(s);
      var (t, stop) := TakeSegment(s).value;
      if !stop { SpanIsRead(t, max - |s.segments[0].data|, got + s.segments[0].data); }
    }
  }

  /** `max` is where some segment ends. */
  ghost predicate CutsAtSegment(segs: seq<Segment>, max: int) {
    exists k :: 0 <= k <= |segs| && Total(segs[..k]) == max
  }

  lemma {:induction false} ReadLoopExact(s: Rx, max: int, got: seq<byte>, full: int, got': seq<byte>)
    requires Accounts(s) && full >= s.available
    requires ReadLoop(s, full, got').Some?
    ensures var span := |ReadLoop(s, full, got').value.1| - |got'|;
            ReadLoop(s, max, got).Some? <==> max <= 0 || max >= span || CutsAtSegment(s.segments, max)
    decreases |s.segments|
  {
    hide Accounts;
    var segs := s.segments;
    if max > 0 && s.available > 0 {
      TakeAccounts(s);
      var (t, stop) := TakeSegment(s).value;
      var data := segs[0].data;
      CutAfterFirst(segs, max);
      if max < |data| {
        ReadLoopBytes(s, full, got');
        if !stop { ReadLoopBytes(t, full - |data|, got' + data); }
      } else if !stop {
        assert Total(segs[1..][..0]) == 0;
        ReadLoopExact(t, max - |data|, got + data, full - |data|, got' + data);
      }
    }
  }

  lemma CutAfterFirst(segs: seq<Segment>, max: int)
    requires segs != [] && max > 0
    ensures CutsAtSegment(segs, max) <==> CutsAtSegment(segs[1..], max - |segs[0].data|)
  {
    if CutsAtSegment(segs, max) {
      var k :| 0 <= k <= |segs| && Total(segs[..k]) == max;
      assert segs[..k][1..] == segs[1..][..k - 1];
    }
    if CutsAtSegment(segs[1..], max - |segs[0].data|) {
      var k :| 0 <= k <= |segs[1..]| && Total(segs[1..][..k]) == max - |segs[0].data|;
      assert segs[..k + 1][1..] == segs[1..][..k];
      assert Total(segs[..k + 1]) == max;
    }
  }

  /**
   read_data meets its own assertions exactly when the caller's buffer is empty, has room for the pending
   record (or, without one, for all there is; up to a closing segment), or ends where a segment ends.
   */
  lemma ReadDataSucceedsExactly(s: Rx, max: int)
    requires Accounts(s)
    ensures ReadData(s, max).Some? <==> max <= 0 || max >= Span(s) || CutsAtSegment(s.segments, max)
  {
    SpanIsRead(s, s.available, []);
    ReadLoopExact(s, max, [], s.available, []);
  }

  /** A buffer of one byte for a segment of two: the assertion on the remaining room fails. */
  lemma ShortReadFails()
    ensures var s := Receive(Fresh(true, 100, 10), Segment(0, [1, 2], Flags(true, false, false)));
            Accounts(s) && ReadData(s, 1).None?
  {
    hide Recalculate;
    var s, seg := Fresh(true, 100, 10), Segment(0, [1, 2], Flags(true, false, false));
    ReceiveAccounts(s, seg);
    var t := Enqueue(s, seg);
    assert seg.Trim(0) == seg && Drain(t, false) == (t, false);
    RecalculateOnly(t);
  }

  lemma RecalculateOnly(s: Rx)
    ensures Recalculate(s) == s.(windowByte := Recalculate(s).windowByte)
  {}

  // ---------------------------------------------------------------- records

  /** With room for the pending record, the read loop stops exactly at its end. */
  lemma {:induction false} ReadWhole(s: Rx, max: int, got: seq<byte>)
    requires Accounts(s) && s.recordSizes != [] && Span(s) == s.recordSizes[0] && max >= s.recordSizes[0]
    ensures ReadLoop(s, max, got).Some?
    ensures var (t, out) := ReadLoop(s, max, got).value;
            && |out| == |got| + s.recordSizes[0] && !t.endRead
            && t.recordSizes == s.recordSizes[1..] && t.recordAvailable == s.recordAvailable
    decreases |s.segments|
  {
    SumPositive(s.recordSizes[1..]);
    TakeAccounts(s);
    var (t, stop) := TakeSegment(s).value;
    var data := s.segments[0].data;
    if !stop {
      assert s.recordSizes[0 := s.recordSizes[0] - |data|][1..] == s.recordSizes[1..];
      ReadWhole(t, max - |data|, got + data);
    }
  }

  /** A buffer that ends at a segment inside the pending record takes exactly that much of it. */
  lemma {:induction false} ReadPart(s: Rx, max: int, got: seq<byte>)
    requires Accounts(s) && s.recordSizes != [] && Span(s) == s.recordSizes[0] && 0 <= max < s.recordSizes[0]
    requires ReadLoop(s, max, got).Some?
    ensures var (t, out) := ReadLoop(s, max, got).value;
            && |out| == |got| + max && !t.endRead
            && t.recordSizes == s.recordSizes[0 := s.recordSizes[0] - max] && Span(t) == t.recordSizes[0]
    decreases |s.segments|
  {
    SumPositive(s.recordSizes[1..]);
    if max > 0 {
      TakeAccounts(s);
      var (t, stop) := TakeSegment(s).value;
      var data := s.segments[0].data;
      var shorter := s.recordSizes[0 := s.recordSizes[0] - |data|];
      assert shorter[1..] == s.recordSizes[1..];
      ReadPart(t, max - |data|, got + data);
    }
  }

  lemma FirstPositive(s: Rx)
    requires Accounts(s) && s.recordSizes != []
    ensures s.recordSizes[0] > 0
  {}

  /** What is skipped behind the buffer must be no more than the one skipping read takes. */
  ghost predicate SkipsRest(s: Rx, max: int)
    requires s.recordSizes != []
  {
    max >= s.recordSizes[0] || (CutsAtSegment(s.segments, max) && s.recordSizes[0] - max <= 0x4000_0000)
  }

  /** The second read of read_record on what is left of the record. */
  lemma SkipExactly(s: Rx)
    requires Accounts(s) && s.recordSizes != [] && Span(s) == s.recordSizes[0]
    ensures s.recordSizes[0] <= SKIP_SIZE ==>
              && ReadLoop(s, SKIP_SIZE, []).Some? && |ReadLoop(s, SKIP_SIZE, []).value.1| == s.recordSizes[0]
              && !ReadLoop(s, SKIP_SIZE, []).value.0.endRead
              && ReadLoop(s, SKIP_SIZE, []).value.0.recordSizes == s.recordSizes[1..]
    ensures s.recordSizes[0] > SKIP_SIZE && ReadLoop(s, SKIP_SIZE, []).Some? ==>
              |ReadLoop(s, SKIP_SIZE, []).value.0.recordSizes| == |s.recordSizes|
  {
    hide Accounts, Span;
    if s.recordSizes[0] <= SKIP_SIZE { ReadWhole(s, SKIP_SIZE, []); }
    else if ReadLoop(s, SKIP_SIZE, []).Some? { ReadPart(s, SKIP_SIZE, []); }
  }

  /**
   read_record on a record with no closing flag inside it meets its assertions exactly when the buffer is non-empty
   and has room for the record, or ends at one of its segments with no more than 2^30 bytes to skip; it then returns
   the front of the record and drops the rest of it.
   */
  lemma ReadRecordSucceedsExactly(s: Rx, max: int)
    requires Accounts(s) && s.recordSizes != [] && Span(s) == s.recordSizes[0]
    ensures ReadRecord(s, max).Record? <==> max > 0 && SkipsRest(s, max)
    ensures ReadRecord(s, max).Record? ==>
              && ReadRecord(s, max).rx.recordSizes == s.recordSizes[1..]
              && ReadRecord(s, max).data <= Flat(s.segments)
              && |ReadRecord(s, max).data| == (if max < s.recordSizes[0] then max else s.recordSizes[0])
              && !ReadRecord(s, max).rx.endRead
  {
    hide Accounts, Window.Exponent, Window.FreeSpace;
    FirstPositive(s);
    ReadDataSucceedsExactly(s, max);
    if ReadLoop(s, max, []).Some? {
      ReadLoopBytes(s, max, []);
      var (t, out) := ReadLoop(s, max, []).value;
      assert out[0..] == out;
      if max >= s.recordSizes[0] {
        ReadWhole(s, max, []);
      } else if max > 0 {
        ReadPart(s, max, []);
        RecalculateAccounts(t);
        SkipExactly(Recalculate(t));
        assert t.recordSizes[1..] == s.recordSizes[1..];
      }
    }
  }
}
