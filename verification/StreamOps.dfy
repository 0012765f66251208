/** The operations of streams and channels keep the invariant: writing, acknowledgment, loss, expiry, priorities. */
module StreamOps {
  import opened Options
  import opened Segments
  import opened StreamLayer
  import opened StreamInvariants
  import opened StreamSteps

  // ---------------------------------------------------------------- tx_enqueue_packet

  lemma {:induction false} QueueIndexBounds<K>(queue: seq<Frame<K>>, pos: nat)
    requires Sorted(queue)
    ensures var i := QueueIndex(queue, pos);
            && (forall j :: 0 <= j < i ==> queue[j].seg.pos <= pos)
            && (forall j :: i <= j < |queue| ==> queue[j].seg.pos > pos)
  {
    if queue != [] && queue[0].seg.pos <= pos {
      QueueIndexBounds(queue[1..], pos);
      forall j | 0 <= j < |queue| ensures j < QueueIndex(queue, pos) <==> queue[j].seg.pos <= pos {
        if j > 0 { assert queue[j] == queue[1..][j - 1]; }
      }
    }
  }

  /**
   A frame joins the queue by position and behind every frame of the same position (first in, first out on
   ties); the others keep their order.
   */
  lemma InsertFrameFifo<K>(queue: seq<Frame<K>>, f: Frame<K>) returns (i: nat)
    requires Sorted(queue)
    ensures Sorted(InsertFrame(queue, f))
    ensures i <= |queue| && InsertFrame(queue, f) == queue[..i] + [f] + queue[i..]
    ensures forall j :: 0 <= j < |queue| ==> (j < i <==> queue[j].seg.pos <= f.seg.pos)
  {
    i := QueueIndex(queue, f.seg.pos);
    QueueIndexBounds(queue, f.seg.pos);
  }

  lemma InsertFrameMembers<K>(queue: seq<Frame<K>>, f: Frame<K>, j: nat)
    requires j < |queue| + 1
    ensures var i := QueueIndex(queue, f.seg.pos);
            InsertFrame(queue, f)[j] == if j < i then queue[j] else if j == i then f else queue[j - 1]
  {}

  lemma InsertFrameHolds<K>(queue: seq<Frame<K>>, f: Frame<K>, p: nat)
    ensures InQueue(queue, p) || (f.kind == Data && f.seg.pos == p) ==> InQueue(InsertFrame(queue, f), p)
  {
    var i := QueueIndex(queue, f.seg.pos);
    if InQueue(queue, p) {
      var j :| 0 <= j < |queue| && queue[j].kind == Data && queue[j].seg.pos == p;
      assert InsertFrame(queue, f)[if j < i then j else j + 1] == queue[j];
    } else if f.kind == Data && f.seg.pos == p {
      assert InsertFrame(queue, f)[i] == f;
    }
  }

  /** A stream with a frame inserted is well-formed. */
  lemma InsertStreamOk<K, C>(k: K, s: Stream<K, C>, f: Frame<K>)
    requires StreamOk(k, s) && FrameOk(k, s, f) && f.kind != Attach
    ensures StreamOk(k, s.(queue := InsertFrame(s.queue, f)))
  {
    var t := s.(queue := InsertFrame(s.queue, f));
    var i := InsertFrameFifo(s.queue, f);
    forall j | 0 <= j < |t.queue| ensures FrameOk(k, t, t.queue[j]) && t.queue[j].kind != Attach {
      InsertFrameMembers(s.queue, f, j);
    }
  }

  /** Replacing a stream by a well-formed one with the same standing and shape keeps the invariant. */
  lemma StreamKeeps<K, C>(l: Layer<K, C>, k: K, t: Stream<K, C>)
    requires Inv(l) && k in l.streams && StreamOk(k, t) && Extends(l.streams[k].segments, t.segments)
    requires t.slots == l.streams[k].slots && t.current == l.streams[k].current && t.init == l.streams[k].init
    requires t.enqueued == l.streams[k].enqueued && t.priority == l.streams[k].priority
    requires t.queue == [] ==> l.streams[k].queue == []
    requires forall p :: p in t.waiting ==> InQueue(t.queue, p) || OnChannel(l, k, p)
    ensures Inv(l.SetStream(k, t))
  {
    StreamFrames(l, k, t);
    StreamConserved(l, k, t);
    StreamShape(l, k, t);
    KeepShape(l, l.SetStream(k, t));
    StreamStanding(l, k, t);
    KeepSchedule(l, l.SetStream(k, t));
  }

  lemma StreamStanding<K, C>(l: Layer<K, C>, k: K, t: Stream<K, C>)
    requires k in l.streams && t.slots == l.streams[k].slots && t.current == l.streams[k].current
    requires t.enqueued == l.streams[k].enqueued && t.priority == l.streams[k].priority
    requires t.queue == [] ==> l.streams[k].queue == []
    ensures SameSchedule(l, l.SetStream(k, t))
  {}

  lemma StreamFacts<K, C>(l: Layer<K, C>, k: K)
    requires Inv(l) && k in l.streams
    ensures StreamOk(k, l.streams[k]) && SlotsOk(l.streams[k])
    ensures forall p :: p in l.streams[k].waiting ==> InQueue(l.streams[k].queue, p) || OnChannel(l, k, p)
  {
    forall p | p in l.streams[k].waiting ensures InQueue(l.streams[k].queue, p) || OnChannel(l, k, p) {
      assert Held(l, k, p);
    }
  }

  /** The stream after a frame joined its queue, before it gets in line. */
  ghost function Queued<K, C>(l: Layer<K, C>, k: K, f: Frame<K>): Layer<K, C>
    requires k in l.streams
  {
    l.SetStream(k, l.streams[k].(queue := InsertFrame(l.streams[k].queue, f)))
  }

  lemma QueuedKeeps<K, C>(l: Layer<K, C>, k: K, f: Frame<K>)
    requires Inv(l) && k in l.streams && FrameOk(k, l.streams[k], f) && f.kind != Attach
    ensures Inv(Queued(l, k, f)) && (f.kind == Data ==> InQueue(Queued(l, k, f).streams[k].queue, f.seg.pos))
  {
    hide Inv;
    StreamFacts(l, k);
    var s := l.streams[k];
    InsertStreamOk(k, s, f);
    InsertFrameHolds(s.queue, f, f.seg.pos);
    forall p | p in s.waiting ensures InQueue(InsertFrame(s.queue, f), p) || OnChannel(l, k, p) {
      InsertFrameHolds(s.queue, f, p);
    }
    StreamKeeps(l, k, s.(queue := InsertFrame(s.queue, f)));
  }

  lemma EnqueueFrameKeeps<K, C>(l: Layer<K, C>, k: K, f: Frame<K>)
    requires Inv(l) && k in l.streams && FrameOk(k, l.streams[k], f) && f.kind != Attach
    ensures Inv(EnqueueFrame(l, k, f))
  {
    hide Inv;
    QueuedKeeps(l, k, f);
    LinkNowKeeps(Queued(l, k, f), k);
  }

  // ---------------------------------------------------------------- write_data

  /** A new segment at the end of the stream is recorded and queued in one go. */
  lemma RecordStreamOk<K, C>(k: K, s: Stream<K, C>, seg: Segment)
    requires StreamOk(k, s) && seg.pos == s.byteSeq && seg.data != []
    ensures StreamOk(k, RecordSegment(s, seg)) && Extends(s.segments, RecordSegment(s, seg).segments)
    ensures FrameOk(k, RecordSegment(s, seg), Frame(k, Data, seg, false))
  {
    var t := RecordSegment(s, seg);
    assert seg.pos !in s.segments;
    SizeWithout(t.segments, t.waiting, seg.pos);
    assert t.waiting - {seg.pos} == s.waiting;
    SizeExtend(s.segments, t.segments, s.waiting);
  }

  /** write_data on one segment up to the moment the stream gets in line. */
  lemma WrittenBeforeLink<K, C>(l: Layer<K, C>, k: K, seg: Segment) returns (r: Layer<K, C>)
    requires Inv(l) && k in l.streams && seg.pos == l.streams[k].byteSeq && seg.data != []
    ensures k in r.streams && Inv(r) && WriteSegment(l, k, seg) == LinkNow(r, k)
    ensures var t := RecordSegment(l.streams[k], seg);
            r == l.SetStream(k, t.(queue := InsertFrame(t.queue, Frame(k, Data, seg, false))))
  {
    hide Inv;
    StreamFacts(l, k);
    var s, f := l.streams[k], Frame(k, Data, seg, false);
    var t := RecordSegment(s, seg);
    RecordStreamOk(k, s, seg);
    InsertStreamOk(k, t, f);
    var u := t.(queue := InsertFrame(t.queue, f));
    forall p | p in u.waiting ensures InQueue(u.queue, p) || OnChannel(l, k, p) {
      InsertFrameHolds(s.queue, f, p);
    }
    StreamKeeps(l, k, u);
    assert l.SetStream(k, t).SetStream(k, u) == l.SetStream(k, u);
    r := l.SetStream(k, u);
  }

  lemma RecordedKeeps<K, C>(l: Layer<K, C>, k: K, seg: Segment)
    requires Inv(l) && k in l.streams && seg.pos == l.streams[k].byteSeq && seg.data != []
    ensures Inv(Queued(l.SetStream(k, RecordSegment(l.streams[k], seg)), k, Frame(k, Data, seg, false)))
  {
    hide Inv;
    var r := WrittenBeforeLink(l, k, seg);
    assert Queued(l.SetStream(k, RecordSegment(l.streams[k], seg)), k, Frame(k, Data, seg, false)) == r;
  }

  lemma WriteSegmentKeeps<K, C>(l: Layer<K, C>, k: K, seg: Segment)
    requires Inv(l) && k in l.streams && seg.pos == l.streams[k].byteSeq && seg.data != []
    ensures Inv(WriteSegment(l, k, seg))
  {
    hide Inv;
    var r := WrittenBeforeLink(l, k, seg);
    LinkNowKeeps(r, k);
  }

  // ---------------------------------------------------------------- packets leaving the table

  /** A table entry whose segment is acknowledged, was reported missed, or is queued again. */
  ghost predicate Expendable<K, C>(l: Layer<K, C>, c: C, n: nat)
    requires c in l.channels && n in l.channels[c].waitingAck
  {
    var f := l.channels[c].waitingAck[n];
    n in l.channels[c].missed || f.kind != Data || f.owner !in l.streams
    || f.seg.pos !in l.streams[f.owner].waiting || InQueue(l.streams[f.owner].queue, f.seg.pos)
  }

  lemma ForgetKeeps<K, C>(l: Layer<K, C>, c: C, n: nat)
    requires Inv(l) && c in l.channels && n in l.channels[c].waitingAck && Expendable(l, c, n)
    ensures Inv(Forget(l, c, {n}))
  {
    var r := Forget(l, c, {n});
    ForgetShape(l, c, n);
    KeepShape(l, r);
    KeepSchedule(l, r);
    ForgetFrames(l, c, n);
    forall k, p | k in r.streams && p in r.streams[k].waiting ensures Held(r, k, p) {
      assert Held(l, k, p);
      if !InQueue(l.streams[k].queue, p) { ForgetOther(l, c, n, k, p); }
    }
  }

  lemma ForgetShape<K, C>(l: Layer<K, C>, c: C, n: nat)
    requires c in l.channels
    ensures SameShape(l, Forget(l, c, {n})) && SameSchedule(l, Forget(l, c, {n}))
  {}

  lemma ForgetFrames<K, C>(l: Layer<K, C>, c: C, n: nat)
    requires FramesOk(l) && c in l.channels
    ensures FramesOk(Forget(l, c, {n}))
  {
    var r := Forget(l, c, {n});
    forall d | d in r.channels ensures ChannelOk(r, d) { assert ChannelOk(l, d); }
  }

  lemma ForgetOther<K, C>(l: Layer<K, C>, c: C, n: nat, k: K, p: nat)
    requires c in l.channels && n in l.channels[c].waitingAck && OnChannel(l, k, p)
    requires var f := l.channels[c].waitingAck[n];
             n in l.channels[c].missed || f.kind != Data || f.owner != k || f.seg.pos != p
    ensures OnChannel(Forget(l, c, {n}), k, p)
  {
    var r := Forget(l, c, {n});
    var d :| d in l.channels && Outstanding(l.channels[d], k, p);
    var m :| m in l.channels[d].waitingAck && m !in l.channels[d].missed
      && l.channels[d].waitingAck[m].kind == Data && l.channels[d].waitingAck[m].owner == k
      && l.channels[d].waitingAck[m].seg.pos == p;
    assert m in r.channels[d].waitingAck;
    assert Outstanding(r.channels[d], k, p);
  }

  /** Packet `m` of channel `d`, never reported missed, carries the same segment as packet `n` of `c`. */
  ghost predicate Twin<K, C>(l: Layer<K, C>, c: C, n: nat, d: C, m: nat)
    requires c in l.channels && n in l.channels[c].waitingAck
  {
    var f := l.channels[c].waitingAck[n];
    && (d != c || m != n) && d in l.channels && m in l.channels[d].waitingAck && m !in l.channels[d].missed
    && l.channels[d].waitingAck[m].kind == Data && l.channels[d].waitingAck[m].owner == f.owner
    && l.channels[d].waitingAck[m].seg.pos == f.seg.pos
  }

  ghost predicate Spare<K, C>(l: Layer<K, C>, c: C, n: nat)
    requires c in l.channels && n in l.channels[c].waitingAck
  {
    exists d, m :: d in l.channels && m in l.channels[d].waitingAck && Twin(l, c, n, d, m)
  }

  lemma SpareHolds<K, C>(l: Layer<K, C>, c: C, n: nat, k: K, p: nat)
    requires c in l.channels && n in l.channels[c].waitingAck && Spare(l, c, n) && k in l.streams && Held(l, k, p)
    ensures k in Forget(l, c, {n}).streams && Held(Forget(l, c, {n}), k, p)
  {
    var r, f := Forget(l, c, {n}), l.channels[c].waitingAck[n];
    if !InQueue(l.streams[k].queue, p) {
      if n in l.channels[c].missed || f.kind != Data || f.owner != k || f.seg.pos != p {
        ForgetOther(l, c, n, k, p);
      } else {
        var d, m :| d in l.channels && m in l.channels[d].waitingAck && Twin(l, c, n, d, m);
        assert m in r.channels[d].waitingAck;
        assert Outstanding(r.channels[d], k, p);
      }
    }
  }

  lemma SpareKeeps<K, C>(l: Layer<K, C>, c: C, n: nat)
    requires Inv(l) && c in l.channels && n in l.channels[c].waitingAck && Spare(l, c, n)
    ensures Inv(Forget(l, c, {n}))
  {
    hide TablesOk, ActiveOk, ScheduleOk, FramesOk, Spare, Held;
    var r := Forget(l, c, {n});
    ForgetShape(l, c, n);
    KeepShape(l, r);
    KeepSchedule(l, r);
    ForgetFrames(l, c, n);
    forall k, p | k in r.streams && p in r.streams[k].waiting ensures Held(r, k, p) {
      assert Held(l, k, p);
      SpareHolds(l, c, n, k, p);
    }
  }

  /** Without a spare the segment is held by nothing once the packet is gone. */
  lemma ExpiryLoses<K, C>(l: Layer<K, C>, c: C, n: nat)
    requires c in l.channels && n in l.channels[c].waitingAck && !Expendable(l, c, n) && !Spare(l, c, n)
    ensures !Conserved(Forget(l, c, {n}))
  {
    var r, f := Forget(l, c, {n}), l.channels[c].waitingAck[n];
    if OnChannel(r, f.owner, f.seg.pos) {
      var d :| d in r.channels && Outstanding(r.channels[d], f.owner, f.seg.pos);
      var m :| m in r.channels[d].waitingAck && m !in r.channels[d].missed
        && r.channels[d].waitingAck[m].kind == Data && r.channels[d].waitingAck[m].owner == f.owner
        && r.channels[d].waitingAck[m].seg.pos == f.seg.pos;
      assert Twin(l, c, n, d, m);
    }
    assert !Held(r, f.owner, f.seg.pos);
  }

  /**
   Expiry keeps every unacknowledged segment held if and only if the packet was reported missed, carries no
   segment that is waited for, or carries one that is queued or on the wire elsewhere.
   */
  lemma ExpireKeepsExactly<K, C>(l: Layer<K, C>, c: C, n: nat)
    requires Inv(l) && c in l.channels
    ensures Inv(Expire(l, c, n)) <==> n !in l.channels[c].waitingAck || Expendable(l, c, n) || Spare(l, c, n)
  {
    hide Inv;
    if n !in l.channels[c].waitingAck {
      assert l.channels[c].waitingAck - {n} == l.channels[c].waitingAck;
      assert Forget(l, c, {n}) == l;
    } else if Expendable(l, c, n) {
      ForgetKeeps(l, c, n);
    } else if Spare(l, c, n) {
      SpareKeeps(l, c, n);
    } else {
      ExpiryLoses(l, c, n);
      ConservedOf(Forget(l, c, {n}));
    }
  }

  lemma ConservedOf<K, C>(l: Layer<K, C>)
    ensures Inv(l) ==> Conserved(l)
  {}

  /** A host with one byte on the wire: expiry without a report of loss forgets it. */
  lemma EarlyExpiryLoses() returns (l: Layer<int, int>)
    ensures Inv(l) && 5 in l.channels && !Inv(Expire(l, 5, 1))
  {
    var seg := Segment(0, [7], Flags(true, false, false));
    var f := Frame(0, Data, seg, false);
    var idle: TxSlot<int> := TxSlot(None, 0, None, false);
    var rx: RxSlot<int> := RxSlot(None, 0, 0);
    var s: Stream<int, int> := Stream(1, [], {0}, 1, false, [TxSlot(Some(5), 1, Some(1), true), idle], [rx, rx],
                                      Some(0), false, 0, false, map[0 := seg]);
    l := Layer(map[0 := s], map[5 := Channel(map[1 := (0, 0)], map[], 2, 0, [], map[1 := f], 2, 0, {}, map[1 := f])], false);
    SizeWithout(s.segments, s.waiting, 0);
    OneByteInFlight(l, seg, f, s);
    OneByteForgotten(l, seg, f, s);
  }

  /** A host with the one segment `seg` of stream 0 in packet 1 of channel 5. */
  ghost predicate OneByte(l: Layer<int, int>, seg: Segment, f: Frame<int>, s: Stream<int, int>) {
    && seg == Segment(0, [7], Flags(true, false, false)) && f == Frame(0, Data, seg, false)
    && s == Stream(1, [], {0}, 1, false, [TxSlot(Some(5), 1, Some(1), true), TxSlot(None, 0, None, false)], s.rxSlots,
                   Some(0), false, 0, false, map[0 := seg])
    && l.streams == map[0 := s] && l.channels.Keys == {5} && !l.failed && SizeOf(s.segments, {0}) == 1
    && l.channels[5] == Channel(map[1 := (0, 0)], map[], 2, 0, [], map[1 := f], 2, 0, {}, map[1 := f])
  }

  lemma OneByteTables(l: Layer<int, int>, seg: Segment, f: Frame<int>, s: Stream<int, int>)
    requires OneByte(l, seg, f, s)
    ensures TablesOk(l) && ActiveOk(l)
  {
    assert SidAgrees(l, 5, 1) && SlotAgrees(l, 0, 0);
  }

  lemma OneByteFrames(l: Layer<int, int>, seg: Segment, f: Frame<int>, s: Stream<int, int>)
    requires OneByte(l, seg, f, s)
    ensures FramesOk(l) && Conserved(l)
  {
    assert StreamOk(0, s) && ChannelOk(l, 5);
    assert 1 in l.channels[5].waitingAck && l.channels[5].waitingAck[1] == f && 1 !in l.channels[5].missed;
    assert Outstanding(l.channels[5], 0, 0);
  }

  lemma OneByteInFlight(l: Layer<int, int>, seg: Segment, f: Frame<int>, s: Stream<int, int>)
    requires OneByte(l, seg, f, s)
    ensures Inv(l)
  {
    OneByteTables(l, seg, f, s);
    OneByteFrames(l, seg, f, s);
    assert ScheduleOk(l);
    hide TablesOk, ActiveOk, ScheduleOk, FramesOk, Conserved;
  }

  lemma OneByteForgotten(l: Layer<int, int>, seg: Segment, f: Frame<int>, s: Stream<int, int>)
    requires OneByte(l, seg, f, s) && Inv(l)
    ensures !Inv(Expire(l, 5, 1))
  {
    hide Inv;
    assert !Expendable(l, 5, 1) && !Spare(l, 5, 1);
    ExpireKeepsExactly(l, 5, 1);
  }

  /** In particular a packet reported missed may expire. */
  lemma ExpireKeeps<K, C>(l: Layer<K, C>, c: C, n: nat)
    requires Inv(l) && c in l.channels && (n in l.channels[c].waitingAck ==> n in l.channels[c].missed)
    ensures Inv(Expire(l, c, n))
  {
    hide Inv;
    ExpireKeepsExactly(l, c, n);
  }

  // ---------------------------------------------------------------- missed

  /** The channel notes that a packet was reported missed. */
  ghost function Mark<K, C>(l: Layer<K, C>, c: C, n: nat): Layer<K, C>
    requires c in l.channels
  {
    l.SetChannel(c, l.channels[c].(missed := l.channels[c].missed + {n}))
  }

  lemma MarkShape<K, C>(l: Layer<K, C>, c: C, n: nat)
    requires c in l.channels
    ensures SameShape(l, Mark(l, c, n)) && SameSchedule(l, Mark(l, c, n))
  {}

  lemma MarkFrames<K, C>(l: Layer<K, C>, c: C, n: nat)
    requires FramesOk(l) && c in l.channels && n in l.channels[c].waitingAck
    ensures FramesOk(Mark(l, c, n))
  {
    var r := Mark(l, c, n);
    assert n < l.channels[c].txSeq by { assert ChannelOk(l, c); }
    forall d | d in r.channels ensures ChannelOk(r, d) {
      hide StreamOk;
      assert ChannelOk(l, d);
    }
  }

  lemma MarkOther<K, C>(l: Layer<K, C>, c: C, n: nat, k: K, p: nat)
    requires c in l.channels && n in l.channels[c].waitingAck && OnChannel(l, k, p)
    requires var f := l.channels[c].waitingAck[n];
             n in l.channels[c].missed || f.kind != Data || f.owner != k || f.seg.pos != p
    ensures OnChannel(Mark(l, c, n), k, p)
  {
    var r := Mark(l, c, n);
    var d :| d in l.channels && Outstanding(l.channels[d], k, p);
    var m :| m in l.channels[d].waitingAck && m !in l.channels[d].missed
      && l.channels[d].waitingAck[m].kind == Data && l.channels[d].waitingAck[m].owner == k
      && l.channels[d].waitingAck[m].seg.pos == p;
    assert m in r.channels[d].waitingAck && m !in r.channels[d].missed;
    assert Outstanding(r.channels[d], k, p);
  }

  lemma MarkKeeps<K, C>(l: Layer<K, C>, c: C, n: nat)
    requires Inv(l) && c in l.channels && n in l.channels[c].waitingAck && Expendable(l, c, n)
    ensures Inv(Mark(l, c, n))
  {
    var r := Mark(l, c, n);
    MarkShape(l, c, n);
    KeepShape(l, r);
    KeepSchedule(l, r);
    MarkFrames(l, c, n);
    forall k, p | k in r.streams && p in r.streams[k].waiting ensures Held(r, k, p) {
      assert Held(l, k, p);
      if !InQueue(l.streams[k].queue, p) { MarkOther(l, c, n, k, p); }
    }
  }

  lemma EntryFacts<K, C>(l: Layer<K, C>, c: C, n: nat)
    requires Inv(l) && c in l.channels && n in l.channels[c].waitingAck
    ensures var f := l.channels[c].waitingAck[n];
            f.owner in l.streams && !f.late && FrameOk(f.owner, l.streams[f.owner], f)
  {
    assert ChannelOk(l, c);
  }

  /** The segment of a missed data packet is back in the queue at the moment the packet stops counting. */
  lemma QueuedAndMarked<K, C>(l: Layer<K, C>, c: C, n: nat)
    requires Inv(l) && c in l.channels && n in l.channels[c].waitingAck && l.channels[c].waitingAck[n].kind == Data
    ensures var f := l.channels[c].waitingAck[n];
            f.owner in l.streams && Inv(Queued(Mark(l, c, n), f.owner, f.(late := true)))
  {
    hide Inv;
    EntryFacts(l, c, n);
    var f := l.channels[c].waitingAck[n];
    var late := f.(late := true);
    QueuedKeeps(l, f.owner, late);
    MarkKeeps(Queued(l, f.owner, late), c, n);
    assert Queued(Mark(l, c, n), f.owner, late) == Mark(Queued(l, f.owner, late), c, n);
  }

  /** A missed packet stops counting as outstanding, and its segment is back in the queue at that moment. */
  lemma MissedKeeps<K, C>(l: Layer<K, C>, c: C, n: nat)
    requires Inv(l) && c in l.channels
    ensures Inv(Missed(l, c, n))
  {
    hide Inv;
    if n in l.channels[c].waitingAck {
      EntryFacts(l, c, n);
      var f := l.channels[c].waitingAck[n];
      var late := f.(late := true);
      match f.kind {
        case Data => {
          QueuedAndMarked(l, c, n);
          LinkNowKeeps(Queued(Mark(l, c, n), f.owner, late), f.owner);
        }
        case Attach => {
          MarkKeeps(l, c, n);
          LinkKeeps(Mark(l, c, n), f.owner);
        }
        case Datagram => {
          MarkKeeps(l, c, n);
          ForgetKeeps(Mark(l, c, n), c, n);
        }
      }
    }
  }

  // ---------------------------------------------------------------- acknowledged

  lemma ActivateKeeps<K, C>(l: Layer<K, C>, c: C, k: K, rxSeq: nat)
    requires Inv(l) && k in l.streams
    ensures Inv(Activate(l, c, k, rxSeq))
  {
    var s := l.streams[k];
    if l.Current(k) == Some(c) && !s.slots[s.current.value].Acknowledged() {
      var i := s.current.value;
      var t := Activated(s, i, rxSeq);
      var r := l.SetStream(k, t);
      ActiveShape(l, k, i, rxSeq);
      StreamFacts(l, k);
      ActiveStreamOk(k, s, t);
      StreamFrames(l, k, t);
      StreamConserved(l, k, t);
      ActiveSchedule(l, k, i, rxSeq);
      KeepSchedule(l, r);
      LinkKeeps(r, k);
    }
  }

  lemma ActiveStreamOk<K, C>(k: K, s: Stream<K, C>, t: Stream<K, C>)
    requires StreamOk(k, s) && t == s.(slots := t.slots, init := t.init)
    ensures StreamOk(k, t) && Extends(s.segments, t.segments)
  {
    forall j | 0 <= j < |t.queue| ensures FrameOk(k, t, t.queue[j]) { assert FrameOk(k, s, s.queue[j]); }
  }

  /** set_active on slot `i`. */
  ghost function Activated<K, C>(s: Stream<K, C>, i: nat, rxSeq: nat): Stream<K, C>
    requires i < |s.slots|
  {
    s.(slots := s.slots[i := s.slots[i].(sidSeq := Some(rxSeq), active := true)], init := false)
  }

  lemma ActiveSchedule<K, C>(l: Layer<K, C>, k: K, i: nat, rxSeq: nat)
    requires k in l.streams && i < |l.streams[k].slots| && l.streams[k].current == Some(i)
    ensures SameSchedule(l, l.SetStream(k, Activated(l.streams[k], i, rxSeq)))
  {}

  ghost predicate SameSlots<C>(a: seq<TxSlot<C>>, b: seq<TxSlot<C>>) {
    && |a| == |b|
    && forall i :: 0 <= i < |a| ==> a[i].channel == b[i].channel && a[i].sid == b[i].sid
  }

  /** Channels, ids and current slots are as they were. */
  ghost predicate SameAttachments<K, C>(l: Layer<K, C>, r: Layer<K, C>) {
    && r.streams.Keys == l.streams.Keys && r.channels.Keys == l.channels.Keys
    && (forall k :: k in l.streams ==>
          r.streams[k].current == l.streams[k].current && SameSlots(l.streams[k].slots, r.streams[k].slots))
    && (forall c :: c in l.channels ==> r.channels[c].txSids == l.channels[c].txSids)
  }

  lemma SidStill<K, C>(l: Layer<K, C>, r: Layer<K, C>, c: C, sid: nat)
    requires SameAttachments(l, r) && c in l.channels && sid in l.channels[c].txSids && SidAgrees(l, c, sid)
    ensures SidAgrees(r, c, sid)
  {
    var (k, i) := l.channels[c].txSids[sid];
    assert SameSlots(l.streams[k].slots, r.streams[k].slots);
  }

  lemma SlotStill<K, C>(l: Layer<K, C>, r: Layer<K, C>, k: K, i: nat)
    requires SameAttachments(l, r) && k in l.streams && i < |l.streams[k].slots| && l.streams[k].slots[i].InUse()
    requires SlotAgrees(l, k, i)
    ensures SlotAgrees(r, k, i)
  {}

  lemma SlotsStill<K, C>(l: Layer<K, C>, r: Layer<K, C>, k: K)
    requires SameAttachments(l, r) && k in l.streams && SlotsOk(l.streams[k])
    ensures SlotsOk(r.streams[k])
  {}

  lemma KeepTables<K, C>(l: Layer<K, C>, r: Layer<K, C>)
    requires TablesOk(l) && SameAttachments(l, r)
    ensures TablesOk(r)
  {
    forall c, sid | c in r.channels && sid in r.channels[c].txSids ensures SidAgrees(r, c, sid) {
      hide SidAgrees, SlotAgrees, SlotsOk;
      SidStill(l, r, c, sid);
    }
    forall k, i | k in r.streams && 0 <= i < |r.streams[k].slots| && r.streams[k].slots[i].InUse()
      ensures SlotAgrees(r, k, i)
    {
      hide SidAgrees, SlotAgrees, SlotsOk;
      SlotStill(l, r, k, i);
    }
    forall k | k in r.streams ensures SlotsOk(r.streams[k]) {
      hide SidAgrees, SlotAgrees, SlotsOk;
      SlotsStill(l, r, k);
    }
  }

  lemma SlotsFact<K, C>(l: Layer<K, C>, k: K)
    requires TablesOk(l) && k in l.streams
    ensures SlotsOk(l.streams[k])
  {}

  lemma ActiveShape<K, C>(l: Layer<K, C>, k: K, i: nat, rxSeq: nat)
    requires TablesOk(l) && ActiveOk(l) && k in l.streams && i < |l.streams[k].slots|
    requires l.streams[k].current == Some(i)
    ensures TablesOk(l.SetStream(k, Activated(l.streams[k], i, rxSeq)))
    ensures ActiveOk(l.SetStream(k, Activated(l.streams[k], i, rxSeq)))
  {
    hide TablesOk;
    var r := l.SetStream(k, Activated(l.streams[k], i, rxSeq));
    KeepTables(l, r);
    SlotsFact(l, k);
    forall m | m in r.streams ensures SlotActive(r.streams[m]) {
      assert SlotActive(l.streams[m]);
    }
  }

  /** Removing an acknowledged segment from the waiting set takes exactly its size off the total. */
  lemma AckedStreamOk<K, C>(k: K, s: Stream<K, C>, seg: Segment)
    requires StreamOk(k, s) && seg.pos in s.waiting && s.segments[seg.pos] == seg
    ensures StreamOk(k, s.(waiting := s.waiting - {seg.pos}, waitingSize := s.waitingSize - |seg.data|))
  {
    var t := s.(waiting := s.waiting - {seg.pos}, waitingSize := s.waitingSize - |seg.data|);
    SizeWithout(s.segments, s.waiting, seg.pos);
    forall j | 0 <= j < |t.queue| ensures FrameOk(k, t, t.queue[j]) { assert FrameOk(k, s, s.queue[j]); }
  }

  /** The layer once the acknowledged segment no longer counts as waiting. */
  ghost function AfterAck<K, C>(l: Layer<K, C>, f: Frame<K>): Layer<K, C>
    requires f.owner in l.streams
  {
    var s := l.streams[f.owner];
    if f.kind == Data && f.seg.pos in s.waiting
    then l.SetStream(f.owner, s.(waiting := s.waiting - {f.seg.pos}, waitingSize := s.waitingSize - |f.seg.data|))
    else l
  }

  /** The packet leaves the table and its segment the waiting set; between the two nothing would hold it. */
  lemma AfterAckKeeps<K, C>(l: Layer<K, C>, c: C, n: nat)
    requires Inv(l) && c in l.channels && n in l.channels[c].waitingAck
    ensures var f := l.channels[c].waitingAck[n];
            f.owner in l.streams && Inv(AfterAck(Forget(l, c, {n}), f))
            && AfterAck(Forget(l, c, {n}), f).streams[f.owner].waitingSize >= 0
  {
    hide Inv, StreamOk;
    EntryFacts(l, c, n);
    var f := l.channels[c].waitingAck[n];
    var s := l.streams[f.owner];
    StreamFacts(l, f.owner);
    if f.kind == Data && f.seg.pos in s.waiting {
      var t := s.(waiting := s.waiting - {f.seg.pos}, waitingSize := s.waitingSize - |f.seg.data|);
      AckedStreamOk(f.owner, s, f.seg);
      StreamKeeps(l, f.owner, t);
      ForgetKeeps(l.SetStream(f.owner, t), c, n);
      ForgetCommutes(l, c, n, f.owner, t);
    } else {
      ForgetKeeps(l, c, n);
    }
    WaitingSizeOk(AfterAck(Forget(l, c, {n}), f), f.owner);
  }

  lemma ForgetCommutes<K, C>(l: Layer<K, C>, c: C, n: nat, k: K, t: Stream<K, C>)
    requires c in l.channels && k in l.streams
    ensures Forget(l.SetStream(k, t), c, {n}) == Forget(l, c, {n}).SetStream(k, t)
  {}

  lemma WaitingSizeOk<K, C>(l: Layer<K, C>, k: K)
    requires Inv(l) && k in l.streams
    ensures l.streams[k].waitingSize >= 0
  {
    assert StreamOk(k, l.streams[k]);
  }

  lemma AcknowledgedKeeps<K, C>(l: Layer<K, C>, c: C, n: nat, rxSeq: nat)
    requires Inv(l) && c in l.channels
    ensures Inv(Acknowledged(l, c, n, rxSeq))
  {
    hide Inv, Activate;
    if n in l.channels[c].waitingAck {
      AfterAckKeeps(l, c, n);
      var f := l.channels[c].waitingAck[n];
      var k, r := f.owner, AfterAck(Forget(l, c, {n}), f);
      assert r.Check(true) == r && r.SetStream(k, r.streams[k]) == r;
      if f.kind != Datagram { ActivateKeeps(r, c, k, rxSeq); }
    }
  }
}
