/**
 The receive half of a stream on values: in-order delivery, the reorder buffer, record sizes and
 buffer accounting. `StreamReceiver` is the class that refines these functions.
 */
module Reassembly {
  import opened Options
  import opened Segments
  import Window

  datatype Rx = Rx(
    byteSeq: nat,               // next byte position expected
    available: int,             // bytes in `segments`
    recordAvailable: int,       // bytes of the record still open
    bufferUsed: int,            // bytes in `segments` and `readahead`
    windowByte: nat,            // advertised exponent
    readahead: seq<Segment>,    // received out of order
    segments: seq<Segment>,     // received in order, not yet read
    recordSizes: seq<int>,      // unread bytes of each complete record
    endRead: bool,
    linkUp: bool,
    bufferSize: int,
    minBuffer: nat)

  function Fresh(linkUp: bool, bufferSize: int, minBuffer: nat): Rx {
    Rx(0, 0, 0, 0, 0, [], [], [], false, linkUp, bufferSize, minBuffer)
  }

  function Recalculate(s: Rx): Rx {
    s.(windowByte := Window.Exponent(Window.FreeSpace(s.bufferSize, s.bufferUsed, s.available, s.minBuffer)))
  }

  /** shutdown(read) */
  function ShutdownRead(s: Rx): Rx {
    if s.linkUp && !s.endRead then
      s.(available := 0, recordAvailable := 0, bufferUsed := 0,
         readahead := [], segments := [], recordSizes := [], endRead := true)
    else s
  }

  /** rx_enqueue_segment */
  function Enqueue(s: Rx, seg: Segment): Rx {
    var n := |seg.data|;
    var open := s.recordAvailable + n;
    var complete := seg.flags.EndsRecord() && open > 0;
    s.(byteSeq := s.byteSeq + n,
       available := s.available + n,
       bufferUsed := s.bufferUsed + n,
       segments := s.segments + [seg],
       recordSizes := if complete then s.recordSizes + [open] else s.recordSizes,
       recordAvailable := if complete then 0 else open)
  }

  /** Does a segment at or before `at` bring anything new: bytes, or flags on an empty rest? */
  predicate Useful(seg: Segment, at: nat)
    requires seg.pos <= at
  {
    seg.End() > at || (seg.End() == at && seg.flags.Any())
  }

  /** Pull everything that has become contiguous out of the reorder buffer. */
  function Drain(s: Rx, closed: bool): (Rx, bool)
    decreases |s.readahead|
  {
    if s.readahead == [] || s.readahead[0].pos > s.byteSeq then (s, closed)
    else
      var seg := s.readahead[0];
      var t := s.(readahead := s.readahead[1..], bufferUsed := s.bufferUsed - |seg.data|);
      if !Useful(seg, s.byteSeq) then Drain(t, closed)
      else Drain(Enqueue(t, seg.Trim(s.byteSeq)), closed || seg.flags.close)
  }

  /** First index whose segment starts at or after `pos` (std::lower_bound on a sorted buffer). */
  function LowerBound(segs: seq<Segment>, pos: nat): (i: nat)
    ensures i <= |segs|
    ensures forall j :: 0 <= j < i ==> segs[j].pos < pos
    ensures i < |segs| ==> segs[i].pos >= pos
  {
    if segs == [] || segs[0].pos >= pos then 0 else 1 + LowerBound(segs[1..], pos)
  }

  predicate Duplicate(readahead: seq<Segment>, seg: Segment, i: nat) {
    i < |readahead| && readahead[i].pos == seg.pos
    && |seg.data| <= |readahead[i].data| && readahead[i].flags == seg.flags
  }

  /** rx_data */
  function Receive(s: Rx, seg: Segment): Rx {
    if s.endRead then s
    else if seg.pos <= s.byteSeq then
      if !Useful(seg, s.byteSeq) then Recalculate(s)
      else
        var (t, closed) := Drain(Enqueue(s, seg.Trim(s.byteSeq)), seg.flags.close);
        Recalculate(if closed && t.available == 0 then ShutdownRead(t) else t)
    else
      var i := LowerBound(s.readahead, seg.pos);
      if Duplicate(s.readahead, seg, i) then Recalculate(s)
      else Recalculate(s.(bufferUsed := s.bufferUsed + |seg.data|,
                          readahead := s.readahead[..i] + [seg] + s.readahead[i..]))
  }

  /** A closing segment that has been read shuts reading down. */
  function CloseAfter(s: Rx, seg: Segment): Rx {
    if seg.flags.close then ShutdownRead(s) else s
  }

  /**
   One iteration of read_data: take the first segment; None when an assertion fails. The flag says whether
   the segment ended a record, where reading stops.
   */
  function TakeSegment(s: Rx): Option<(Rx, bool)> {
    if s.endRead || s.segments == [] then None
    else
      var seg, n := s.segments[0], |s.segments[0].data|;
      var t := s.(segments := s.segments[1..], available := s.available - n, bufferUsed := s.bufferUsed - n);
      if t.available < 0 then None
      else if t.recordSizes != [] then
        var head := t.recordSizes[0] - n;
        if head < 0 then None
        else if head == 0 then Some((t.(recordSizes := t.recordSizes[1..]), true))
        else Some((CloseAfter(t.(recordSizes := t.recordSizes[0 := head]), seg), false))
      else if t.recordAvailable < n then None
      else Some((CloseAfter(t.(recordAvailable := t.recordAvailable - n), seg), false))
  }

  /** The loop of read_data; None when an assertion fails or the buffer ends inside a segment. */
  function ReadLoop(s: Rx, max: int, got: seq<byte>): Option<(Rx, seq<byte>)>
    decreases |s.segments|
  {
    if max <= 0 || s.available <= 0 then Some((s, got))
    else
      match TakeSegment(s)
      case None => None
      case Some((t, stop)) =>
        var data := s.segments[0].data;
        if max < |data| then None
        else if stop then Some((t, got + data))
        else ReadLoop(t, max - |data|, got + data)
  }

  /** read_data */
  function ReadData(s: Rx, max: int): Option<(Rx, seq<byte>)> {
    match ReadLoop(s, max, [])
    case None => None
    case Some((t, got)) => Some((Recalculate(t), got))
  }

  datatype RecordRead = NoRecord | AssertionFails | Record(rx: Rx, data: seq<byte>)

  /** Size passed to read_data to skip the rest of a record. */
  const SKIP_SIZE: int := 0x4000_0000

  /** read_record into a buffer of `max` bytes. */
  function ReadRecord(s: Rx, max: int): RecordRead {
    if s.recordSizes == [] then NoRecord
    else
      match ReadData(s, max)
      case None => AssertionFails
      case Some((t, got)) =>
        if got == [] then AssertionFails
        else if |t.recordSizes| != |s.recordSizes| then
          if |t.recordSizes| == |s.recordSizes| - 1 then Record(t, got) else AssertionFails
        else
          match ReadData(t, SKIP_SIZE)
          case None => AssertionFails
          case Some((u, skipped)) =>
            if skipped != [] && |u.recordSizes| == |s.recordSizes| - 1 then Record(u, got) else AssertionFails
  }
}
