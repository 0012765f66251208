/**
 Sender, network and receivers together. The network may lose, reorder and repeat packets: a packet that was
 ever sent can arrive at any later time, any number of times. A packet is acknowledged only after it arrived.
 */
module EndToEnd {
  import opened Options
  import opened Segments
  import opened StreamLayer
  import opened StreamInvariants
  import opened StreamSteps
  import opened StreamHomes
  import opened StreamHistory
  import opened StreamTeardown
  import opened StreamRuns
  import Reassembly
  import ReassemblyProofs
  import R = ReassemblyRuns

  datatype Sys<K, C> = Sys(
    layer: Layer<K, C>,
    written: map<K, seq<byte>>,      // bytes the application wrote to each stream
    rx: map<K, R.Run>,               // the receiving end of each stream
    accepted: set<(C, nat)>)         // packets that arrived

  datatype Event<K, C> =
    | Local(op: Op<K, C>)
    | Deliver(c: C, n: nat)
    | Read(k: K, max: int)

  ghost predicate Sent<K, C>(l: Layer<K, C>, c: C, n: nat) { c in l.channels && n in l.channels[c].sent }

  ghost function Step<K, C>(s: Sys<K, C>, e: Event<K, C>): Sys<K, C> {
    match e
    case Local(op) =>
      if !Enabled(s.layer, op) || s.layer.failed || (op.Acked? && (op.c, op.n) !in s.accepted) then s
      else
        s.(layer := Do(s.layer, op),
           written := if op.Write? && op.k in s.written then s.written[op.k := s.written[op.k] + op.data] else s.written)
    case Deliver(c, n) =>
      if !Sent(s.layer, c, n) then s
      else
        var f := s.layer.channels[c].sent[n];
        s.(rx := if f.kind == Data && f.owner in s.rx then s.rx[f.owner := R.Step(s.rx[f.owner], R.Arrive(f.seg))] else s.rx,
           accepted := s.accepted + {(c, n)})
    case Read(k, max) =>
      if k in s.rx then s.(rx := s.rx[k := R.Step(s.rx[k], R.Read(max))]) else s
  }

  ghost function Play<K, C>(s: Sys<K, C>, events: seq<Event<K, C>>): Sys<K, C> {
    if events == [] then s else Step(Play(s, events[..|events| - 1]), events[|events| - 1])
  }

  ghost function Start<K, C>(priorities: map<K, nat>, channels: set<C>, bufferSize: int, minBuffer: nat): Sys<K, C> {
    Sys(Initial(priorities, channels), map k | k in priorities :: [],
        map k | k in priorities :: R.Start(bufferSize, minBuffer), {})
  }

  // ---------------------------------------------------------------- what a stream wrote

  ghost predicate Touches(segments: map<nat, Segment>, p: nat) {
    exists q :: q in segments && segments[q].Covers(p)
  }

  /** The segments cut so far are slices of the stream and leave out no byte of it. */
  ghost predicate Cuts<K, C>(s: Stream<K, C>, stream: seq<byte>) {
    && s.byteSeq <= |stream|
    && (forall q :: q in s.segments ==>
          s.segments[q].pos == q && s.segments[q].End() <= s.byteSeq && s.segments[q].data != []
          && s.segments[q].SliceOf(stream))
    && (forall p: nat {:trigger Touches(s.segments, p)} :: p < s.byteSeq ==> Touches(s.segments, p))
  }

  function RecordAll<K, C>(s: Stream<K, C>, segs: seq<Segment>): Stream<K, C>
    decreases |segs|
  {
    if segs == [] then s else RecordAll(RecordSegment(s, segs[0]), segs[1..])
  }

  /** What writing adds: old segments stay, new ones wait for acknowledgment. */
  ghost predicate Grows<K, C>(s: Stream<K, C>, t: Stream<K, C>) {
    && Extends(s.segments, t.segments) && s.waiting <= t.waiting
    && forall q :: q in t.segments ==> q in s.segments || q in t.waiting
  }

  lemma RecordCuts<K, C>(s: Stream<K, C>, seg: Segment, stream: seq<byte>)
    requires Cuts(s, stream) && seg.pos == s.byteSeq && seg.data != [] && seg.SliceOf(stream)
    ensures Cuts(RecordSegment(s, seg), stream) && Grows(s, RecordSegment(s, seg))
  {
    var t := RecordSegment(s, seg);
    forall p: nat {:trigger Touches(t.segments, p)} | p < t.byteSeq ensures Touches(t.segments, p) {
      if p < s.byteSeq {
        assert Touches(s.segments, p);
        var q :| q in s.segments && s.segments[q].Covers(p);
        assert t.segments[q].Covers(p);
      } else {
        assert t.segments[seg.pos].Covers(p);
      }
    }
  }

  /** The first segment of a write, and the rest of it. */
  lemma CutHead(pos: nat, stream: seq<byte>, end: Flags, mtu: nat)
    requires pos < |stream| && mtu > 0
    ensures var segs := Cut(pos, stream[pos..], end, mtu);
            var next := if |stream| - pos > mtu then pos + mtu else |stream|;
            && segs[0].pos == pos && segs[0].End() == next && segs[0].SliceOf(stream)
            && segs[1..] == if next < |stream| then Cut(next, stream[next..], end, mtu) else []
  {
    var data := stream[pos..];
    if |data| > mtu {
      assert data[..mtu] == stream[pos..pos + mtu] && data[mtu..] == stream[pos + mtu..];
    } else {
      assert data == stream[pos..|stream|];
    }
  }

  lemma GrowsThen<K, C>(s: Stream<K, C>, t: Stream<K, C>, u: Stream<K, C>)
    requires Grows(s, t) && Grows(t, u)
    ensures Grows(s, u)
  {}

  lemma {:induction false} RecordCut<K, C>(s: Stream<K, C>, stream: seq<byte>, end: Flags, mtu: nat)
    requires Cuts(s, stream) && s.byteSeq < |stream| && mtu > 0
    ensures var t := RecordAll(s, Cut(s.byteSeq, stream[s.byteSeq..], end, mtu));
            Cuts(t, stream) && t.byteSeq == |stream| && Grows(s, t)
    decreases |stream| - s.byteSeq
  {
    hide Cuts, Cut, Grows;
    var segs := Cut(s.byteSeq, stream[s.byteSeq..], end, mtu);
    CutHead(s.byteSeq, stream, end, mtu);
    var t := RecordSegment(s, segs[0]);
    RecordCuts(s, segs[0], stream);
    if t.byteSeq < |stream| {
      RecordCut(t, stream, end, mtu);
      GrowsThen(s, t, RecordAll(s, segs));
    } else {
      assert RecordAll(t, []) == t;
    }
  }

  /** Writing records segments; the rest of write_data touches no history. */
  lemma {:induction false} WriteAllHistory<K, C>(l: Layer<K, C>, k: K, segs: seq<Segment>)
    requires k in l.streams
    ensures SameHistory(l.SetStream(k, RecordAll(l.streams[k], segs)), WriteAll(l, k, segs))
    decreases |segs|
  {
    hide SameHistory, WriteSegment;
    if segs == [] {
      OneStreamHistory(l, k, l.streams[k]);
      assert l.SetStream(k, l.streams[k]) == l;
    } else {
      var l1 := l.SetStream(k, RecordSegment(l.streams[k], segs[0]));
      var r := WriteSegment(l, k, segs[0]);
      WriteSegmentHistory(l, k, segs[0]);
      HistoryKeys(l1, r);
      WriteAllHistory(r, k, segs[1..]);
      RecordTail(l1, r, k, segs[1..]);
      var a := l1.SetStream(k, RecordAll(l1.streams[k], segs[1..]));
      HistoryThen(a, r.SetStream(k, RecordAll(r.streams[k], segs[1..])), WriteAll(r, k, segs[1..]));
      assert a == l.SetStream(k, RecordAll(l.streams[k], segs));
    }
  }

  lemma WriteSegmentHistory<K, C>(l: Layer<K, C>, k: K, seg: Segment)
    requires k in l.streams
    ensures SameHistory(l.SetStream(k, RecordSegment(l.streams[k], seg)), WriteSegment(l, k, seg))
  {
    hide SameHistory, EnqueueFrame;
    EnqueueFrameHistory(l.SetStream(k, RecordSegment(l.streams[k], seg)), k, Frame(k, Data, seg, false));
  }

  lemma RecordTail<K, C>(l: Layer<K, C>, r: Layer<K, C>, k: K, segs: seq<Segment>)
    requires SameHistory(l, r) && k in l.streams
    ensures k in r.streams
    ensures SameHistory(l.SetStream(k, RecordAll(l.streams[k], segs)), r.SetStream(k, RecordAll(r.streams[k], segs)))
  {
    RecordAllSame(l.streams[k], r.streams[k], segs);
  }

  lemma {:induction false} RecordAllSame<K, C>(s: Stream<K, C>, t: Stream<K, C>, segs: seq<Segment>)
    requires s.byteSeq == t.byteSeq && s.segments == t.segments && s.waiting == t.waiting
    requires |s.slots| == |t.slots| && |s.rxSlots| == |t.rxSlots|
    ensures var a, b := RecordAll(s, segs), RecordAll(t, segs);
            a.byteSeq == b.byteSeq && a.segments == b.segments && a.waiting == b.waiting
            && |a.slots| == |b.slots| && |a.rxSlots| == |b.rxSlots|
    decreases |segs|
  {
    if segs != [] { RecordAllSame(RecordSegment(s, segs[0]), RecordSegment(t, segs[0]), segs[1..]); }
  }

  // ---------------------------------------------------------------- the invariant

  /** Every segment of the stream is still waited for, or arrived. */
  ghost predicate Traced<K, C>(s: Stream<K, C>, received: set<Segment>) {
    forall q :: q in s.segments ==> q in s.waiting || s.segments[q] in received
  }

  ghost predicate StreamTraced<K, C>(s: Sys<K, C>, k: K)
    requires k in s.layer.streams && k in s.written && k in s.rx
  {
    var t := s.layer.streams[k];
    && Cuts(t, s.written[k]) && t.byteSeq == |s.written[k]| && Traced(t, s.rx[k].received)
    && R.Settled(s.rx[k], s.written[k]) && ReassemblyProofs.Accounts(s.rx[k].rx)
  }

  ghost predicate Arrived<K, C>(s: Sys<K, C>, c: C, n: nat) {
    Sent(s.layer, c, n) &&
    var f := s.layer.channels[c].sent[n];
    f.kind == Data ==> f.owner in s.rx && f.seg in s.rx[f.owner].received
  }

  ghost predicate Keys<K, C>(s: Sys<K, C>) {
    s.written.Keys == s.layer.streams.Keys && s.rx.Keys == s.layer.streams.Keys
  }

  ghost predicate SysOk<K, C>(s: Sys<K, C>) {
    && Sound(s.layer) && Keys(s)
    && (forall k :: k in s.layer.streams ==> StreamTraced(s, k))
    && (forall a :: a in s.accepted ==> Arrived(s, a.0, a.1))
  }

  /** A run stays settled when the sender writes more. */
  lemma SettledExtend(r: R.Run, stream: seq<byte>, more: seq<byte>)
    requires R.Settled(r, stream)
    ensures R.Settled(r, stream + more)
  {
    if !r.rx.endRead {
      assert (stream + more)[..r.rx.byteSeq] == stream[..r.rx.byteSeq];
      forall i | 0 <= i < |r.rx.readahead| ensures r.rx.readahead[i].SliceOf(stream + more) {
        var g := r.rx.readahead[i];
        assert g.SliceOf(stream);
        assert (stream + more)[g.pos..g.End()] == stream[g.pos..g.End()];
      }
    } else {
      assert r.read <= stream <= stream + more;
    }
  }

  lemma CutsExtend<K, C>(s: Stream<K, C>, stream: seq<byte>, more: seq<byte>)
    requires Cuts(s, stream)
    ensures Cuts(s, stream + more)
  {
    forall q | q in s.segments ensures s.segments[q].SliceOf(stream + more) {
      var g := s.segments[q];
      assert g.SliceOf(stream);
      assert (stream + more)[g.pos..g.End()] == stream[g.pos..g.End()];
    }
  }

  /** Steps that leave the history of writes alone. */
  lemma OpHistory<K, C>(l: Layer<K, C>, op: Op<K, C>)
    requires Enabled(l, op) && !op.Write? && !op.Acked?
    ensures SameHistory(l, Do(l, op))
  {
    hide SameHistory, Walkable;
    match op
    case WriteDatagram(k, data, mtu) => DatagramHistory(l, k, data, mtu);
    case Allow(c, allowance) => ChannelHistory(l, c, l.channels[c].(allowance := allowance));
    case Ready(c) => ReadyHistory(l, c);
    case WindowGrows(k) => LinkNowHistory(l, k);
    case Piggyback(k, piggyback) => OneStreamHistory(l, k, l.streams[k].(piggyback := piggyback));
    case Lost(c, n) => MissedHistory(l, c, n);
    case Expired(c, n) => ChannelHistory(l, c, Forget(l, c, {n}).channels[c]);
    case AttachTo(k, c) => AttachForHistory(l, k, c);
    case ClearTx(k, i, order) => ClearHistory(l, k, i, order);
    case Prioritise(k, priority) => SetPriorityHistory(l, k, priority);
    case AttachRx(k, i, c, sid, seqNo) => RxAttachHistory(l, k, i, c, sid, seqNo);
    case ClearRx(k, i) => RxClearHistory(l, k, i);
    case StopChannel(c, walk, rxWalk) => StopHistory(l, c, walk, rxWalk);
    case Detach(c, walk, order) => DetachAllHistory(l, c, walk, order);
  }

  lemma ReadyHistory<K, C>(l: Layer<K, C>, c: C)
    requires c in l.channels
    ensures SameHistory(l, GotReady(l, c))
  {
    if l.channels[c].sending != [] { ServeHistory(l, c); }
  }

  lemma {:induction false} FragmentsHistory<K, C>(l: Layer<K, C>, k: K, fragments: seq<Segment>)
    requires k in l.streams
    ensures SameHistory(l, EnqueueFragments(l, k, fragments))
    decreases |fragments|
  {
    if fragments != [] {
      var f := Frame(k, Datagram, fragments[0].(pos := l.streams[k].byteSeq), false);
      EnqueueFrameHistory(l, k, f);
      FragmentsHistory(EnqueueFrame(l, k, f), k, fragments[1..]);
      HistoryThen(l, EnqueueFrame(l, k, f), EnqueueFragments(l, k, fragments));
    }
  }

  lemma DatagramHistory<K, C>(l: Layer<K, C>, k: K, data: seq<byte>, mtu: nat)
    requires k in l.streams && mtu > 0
    ensures SameHistory(l, SendDatagram(l, k, data, mtu))
  {
    var fragments := Cut(0, data, Flags(false, false, false), mtu);
    FragmentsHistory(l, k, fragments);
    var r := EnqueueFragments(l, k, fragments);
    LinkNowHistory(r, k);
    HistoryThen(l, r, LinkNow(r, k));
  }

  // ---------------------------------------------------------------- steps

  lemma TracedSame<K, C>(s: Sys<K, C>, r: Sys<K, C>, k: K)
    requires k in s.layer.streams && k in s.written && k in s.rx && StreamTraced(s, k)
    requires k in r.layer.streams && k in r.written && k in r.rx
    requires r.layer.streams[k].byteSeq == s.layer.streams[k].byteSeq
    requires r.layer.streams[k].segments == s.layer.streams[k].segments
    requires r.layer.streams[k].waiting == s.layer.streams[k].waiting
    requires r.written[k] == s.written[k] && r.rx[k] == s.rx[k]
    ensures StreamTraced(r, k)
  {}

  lemma ArrivedStays<K, C>(s: Sys<K, C>, r: Sys<K, C>, c: C, n: nat)
    requires Arrived(s, c, n) && Advanced(s.layer, r.layer)
    requires forall k :: k in s.rx ==> k in r.rx && s.rx[k].received <= r.rx[k].received
    ensures Arrived(r, c, n)
  {}

  lemma LayerKeys<K, C>(s: Sys<K, C>, r: Sys<K, C>)
    requires Keys(s) && r.layer.streams.Keys == s.layer.streams.Keys && r.rx.Keys == s.rx.Keys
    requires r.written.Keys == s.written.Keys
    ensures Keys(r)
  {}

  lemma HistoryKeys<K, C>(l: Layer<K, C>, r: Layer<K, C>)
    requires SameHistory(l, r)
    ensures r.streams.Keys == l.streams.Keys
  {}

  lemma PlainStep<K, C>(s: Sys<K, C>, op: Op<K, C>)
    requires SysOk(s) && Enabled(s.layer, op) && !s.layer.failed && !op.Write? && !op.Acked?
    ensures SysOk(s.(layer := Do(s.layer, op)))
  {
    hide Sound, Advanced, Enabled, Do, Arrived, StreamTraced;
    var r := s.(layer := Do(s.layer, op));
    StepSound(s.layer, op);
    OpHistory(s.layer, op);
    LayerKeys(s, r);
    forall k | k in r.layer.streams ensures StreamTraced(r, k) { TracedSame(s, r, k); }
    forall a | a in r.accepted ensures Arrived(r, a.0, a.1) { ArrivedStays(s, r, a.0, a.1); }
  }

  lemma WroteTraced<K, C>(s: Sys<K, C>, r: Sys<K, C>, op: Op<K, C>)
    requires op.Write? && op.data != [] && op.mtu > 0 && Keys(s)
    requires op.k in s.layer.streams && StreamTraced(s, op.k)
    requires r == s.(layer := r.layer, written := s.written[op.k := s.written[op.k] + op.data])
    requires r.layer == WriteAll(s.layer, op.k, Cut(s.layer.streams[op.k].byteSeq, op.data, op.end, op.mtu))
    ensures op.k in r.layer.streams && op.k in r.written && op.k in r.rx && StreamTraced(r, op.k)
  {
    var k, t := op.k, s.layer.streams[op.k];
    var segs := Cut(t.byteSeq, op.data, op.end, op.mtu);
    WriteAllHistory(s.layer, k, segs);
    CutsExtend(t, s.written[k], op.data);
    assert r.written[k][t.byteSeq..] == op.data;
    RecordCut(t, r.written[k], op.end, op.mtu);
    SettledExtend(s.rx[k], s.written[k], op.data);
    var u := RecordAll(t, segs);
    assert r.layer.streams[k].segments == u.segments && r.layer.streams[k].waiting == u.waiting;
    assert r.layer.streams[k].byteSeq == u.byteSeq;
    forall q | q in u.segments ensures q in u.waiting || u.segments[q] in r.rx[k].received {
      if q in t.segments { assert q in t.waiting || t.segments[q] in s.rx[k].received; }
    }
  }

  lemma WriteStep<K, C>(s: Sys<K, C>, op: Op<K, C>)
    requires SysOk(s) && Enabled(s.layer, op) && !s.layer.failed && op.Write?
    ensures SysOk(Step(s, Local(op)))
  {
    hide Sound, Advanced, Arrived, StreamTraced, SameHistory;
    var r := Step(s, Local(op));
    var segs := Cut(s.layer.streams[op.k].byteSeq, op.data, op.end, op.mtu);
    StepSound(s.layer, op);
    WriteAllHistory(s.layer, op.k, segs);
    WrittenOthers(s.layer, op.k, RecordAll(s.layer.streams[op.k], segs), r.layer);
    assert r.written.Keys == s.written.Keys;
    LayerKeys(s, r);
    forall k | k in r.layer.streams ensures StreamTraced(r, k) {
      if k == op.k { WroteTraced(s, r, op); } else { TracedSame(s, r, k); }
    }
    forall a | a in r.accepted ensures Arrived(r, a.0, a.1) { ArrivedStays(s, r, a.0, a.1); }
  }

  lemma WrittenOthers<K, C>(l: Layer<K, C>, k: K, t: Stream<K, C>, r: Layer<K, C>)
    requires k in l.streams && SameHistory(l.SetStream(k, t), r)
    ensures r.streams.Keys == l.streams.Keys
    ensures forall m :: m in l.streams && m != k ==>
              && r.streams[m].byteSeq == l.streams[m].byteSeq && r.streams[m].segments == l.streams[m].segments
              && r.streams[m].waiting == l.streams[m].waiting
  {}

  /** The packet acknowledged carries the segment that arrived with it. */
  lemma AckedEntry<K, C>(l: Layer<K, C>, c: C, n: nat)
    requires Sound(l) && c in l.channels && n in l.channels[c].waitingAck
    ensures var f := l.channels[c].waitingAck[n];
            && n in l.channels[c].sent && l.channels[c].sent[n] == f && f.owner in l.streams
            && (f.kind == Data ==> f.seg.pos in l.streams[f.owner].segments
                                   && l.streams[f.owner].segments[f.seg.pos] == f.seg)
  {
    SoundChannel(l, c);
  }

  lemma AckStep<K, C>(s: Sys<K, C>, op: Op<K, C>)
    requires SysOk(s) && Enabled(s.layer, op) && !s.layer.failed && op.Acked? && (op.c, op.n) in s.accepted
    ensures SysOk(s.(layer := Do(s.layer, op)))
  {
    hide Sound, Advanced, StreamTraced, SameHistory, Acknowledged;
    var l, r := s.layer, s.(layer := Do(s.layer, op));
    StepSound(l, op);
    AcknowledgedHistory(l, op.c, op.n, op.rxSeq);
    ReleasedFacts(l, op.c, op.n, r.layer);
    LayerKeys(s, r);
    forall k | k in r.layer.streams ensures StreamTraced(r, k) {
      AckTraced(s, r, op.c, op.n, k);
    }
    forall a | a in r.accepted ensures Arrived(r, a.0, a.1) {
      hide Arrived;
      ArrivedStays(s, r, a.0, a.1);
    }
  }

  lemma ReleasedFacts<K, C>(l: Layer<K, C>, c: C, n: nat, r: Layer<K, C>)
    requires c in l.channels && SameHistory(Released(l, c, n), r)
    ensures r.streams.Keys == l.streams.Keys
    ensures forall k :: k in l.streams ==>
              && r.streams[k].byteSeq == l.streams[k].byteSeq && r.streams[k].segments == l.streams[k].segments
              && r.streams[k].waiting == Released(l, c, n).streams[k].waiting
  {}

  lemma AckTraced<K, C>(s: Sys<K, C>, r: Sys<K, C>, c: C, n: nat, k: K)
    requires Sound(s.layer) && k in s.layer.streams && k in s.written && k in s.rx && StreamTraced(s, k)
    requires c in s.layer.channels && Arrived(s, c, n) && r == s.(layer := r.layer) && k in r.layer.streams
    requires r.layer.streams[k].byteSeq == s.layer.streams[k].byteSeq
    requires r.layer.streams[k].segments == s.layer.streams[k].segments
    requires r.layer.streams[k].waiting == Released(s.layer, c, n).streams[k].waiting
    ensures StreamTraced(r, k)
  {
    hide Sound;
    if n in s.layer.channels[c].waitingAck { AckedEntry(s.layer, c, n); }
  }

  /** One receiver moves on: it forgets no segment and stays consistent with what was written. */
  lemma ReceiverStep<K, C>(s: Sys<K, C>, k: K, run: R.Run)
    requires SysOk(s) && k in s.rx && k in s.written && s.rx[k].received <= run.received
    requires R.Settled(run, s.written[k]) && ReassemblyProofs.Accounts(run.rx)
    ensures SysOk(s.(rx := s.rx[k := run]))
  {
    hide Sound, Advanced, Arrived, R.Settled, ReassemblyProofs.Accounts, Cuts;
    var r := s.(rx := s.rx[k := run]);
    AdvancedSelf(s.layer);
    forall m | m in r.layer.streams ensures StreamTraced(r, m) {
      assert StreamTraced(s, m);
    }
    forall a | a in r.accepted ensures Arrived(r, a.0, a.1) { ArrivedStays(s, r, a.0, a.1); }
  }

  lemma ReceiverFacts<K, C>(s: Sys<K, C>, k: K)
    requires SysOk(s) && k in s.layer.streams
    ensures k in s.rx && k in s.written && R.Settled(s.rx[k], s.written[k]) && ReassemblyProofs.Accounts(s.rx[k].rx)
    ensures Cuts(s.layer.streams[k], s.written[k])
  {
    assert StreamTraced(s, k);
  }

  /** A packet now counts as arrived. */
  lemma AcceptStep<K, C>(s: Sys<K, C>, c: C, n: nat)
    requires SysOk(s) && Arrived(s, c, n)
    ensures SysOk(s.(accepted := s.accepted + {(c, n)}))
  {
    hide Sound, Advanced, StreamTraced;
    var r := s.(accepted := s.accepted + {(c, n)});
    forall m | m in r.layer.streams ensures StreamTraced(r, m) { TracedSame(s, r, m); }
    AdvancedSelf(s.layer);
    forall a | a in r.accepted ensures Arrived(r, a.0, a.1) {
      ArrivedStays(s, r, a.0, a.1);
    }
  }

  lemma DeliverStep<K, C>(s: Sys<K, C>, c: C, n: nat)
    requires SysOk(s)
    ensures SysOk(Step(s, Deliver(c, n)))
  {
    hide SysOk, R.Settled, ReassemblyProofs.Accounts;
    if Sent(s.layer, c, n) {
      var f := s.layer.channels[c].sent[n];
      SentFrame(s, c, n);
      var k := f.owner;
      ReceiverFacts(s, k);
      if f.kind == Data {
        var run := R.Step(s.rx[k], R.Arrive(f.seg));
        R.ArriveSettled(s.rx[k], f.seg, s.written[k]);
        ReassemblyProofs.ReceiveAccounts(s.rx[k].rx, f.seg);
        ReceiverStep(s, k, run);
        AcceptStep(s.(rx := s.rx[k := run]), c, n);
      } else {
        AcceptStep(s, c, n);
      }
    }
  }

  lemma SentFrame<K, C>(s: Sys<K, C>, c: C, n: nat)
    requires SysOk(s) && Sent(s.layer, c, n)
    ensures var f := s.layer.channels[c].sent[n];
            && f.owner in s.layer.streams
            && (f.kind == Data ==> f.seg.pos in s.layer.streams[f.owner].segments
                                   && s.layer.streams[f.owner].segments[f.seg.pos] == f.seg)
  {
    SoundChannel(s.layer, c);
  }

  lemma ReadRun(run: R.Run, max: int, stream: seq<byte>)
    requires R.Settled(run, stream) && ReassemblyProofs.Accounts(run.rx)
    ensures R.Settled(R.Step(run, R.Read(max)), stream) && ReassemblyProofs.Accounts(R.Step(run, R.Read(max)).rx)
    ensures R.Step(run, R.Read(max)).received == run.received
  {
    R.ReadSettled(run, max, stream);
    hide R.Settled;
    if Reassembly.ReadLoop(run.rx, max, []).Some? { ReassemblyProofs.ReadLoopBytes(run.rx, max, []); }
  }

  lemma ReadStep<K, C>(s: Sys<K, C>, k: K, max: int)
    requires SysOk(s)
    ensures SysOk(Step(s, Read(k, max)))
  {
    hide SysOk, R.Settled, ReassemblyProofs.Accounts, R.Step;
    if k in s.rx {
      RxKnown(s, k);
      ReceiverFacts(s, k);
      ReadRun(s.rx[k], max, s.written[k]);
      ReceiverStep(s, k, R.Step(s.rx[k], R.Read(max)));
    }
  }

  lemma RxKnown<K, C>(s: Sys<K, C>, k: K)
    requires SysOk(s) && k in s.rx
    ensures k in s.layer.streams
  {}

  lemma StepOk<K, C>(s: Sys<K, C>, e: Event<K, C>)
    requires SysOk(s)
    ensures SysOk(Step(s, e))
  {
    hide SysOk;
    match e
    case Deliver(c, n) => DeliverStep(s, c, n);
    case Read(k, max) => ReadStep(s, k, max);
    case Local(op) =>
      if Enabled(s.layer, op) && !s.layer.failed {
        if op.Write? { WriteStep(s, op); }
        else if op.Acked? { if (op.c, op.n) in s.accepted { AckStep(s, op); } }
        else { PlainStep(s, op); }
      }
  }

  lemma FreshReceiver(bufferSize: int, minBuffer: nat)
    ensures R.Settled(R.Start(bufferSize, minBuffer), [])
    ensures ReassemblyProofs.Accounts(R.Start(bufferSize, minBuffer).rx)
  {
    hide R.Settled, ReassemblyProofs.Accounts;
    R.RunSettled(bufferSize, minBuffer, [], []);
    assert R.Play(R.Start(bufferSize, minBuffer), []) == R.Start(bufferSize, minBuffer);
  }

  lemma StartOk<K, C>(priorities: map<K, nat>, channels: set<C>, bufferSize: int, minBuffer: nat)
    ensures SysOk(Start<K, C>(priorities, channels, bufferSize, minBuffer))
  {
    var s := Start<K, C>(priorities, channels, bufferSize, minBuffer);
    InitialHealthy<K, C>(priorities, channels);
    SoundIsHealthy(s.layer);
    hide Sound;
    FreshReceiver(bufferSize, minBuffer);
    hide R.Settled, ReassemblyProofs.Accounts, R.Start;
    forall k | k in s.layer.streams ensures StreamTraced(s, k) {
      FreshTraced(s, k, priorities[k]);
    }
  }

  lemma FreshTraced<K, C>(s: Sys<K, C>, k: K, priority: nat)
    requires k in s.layer.streams && s.layer.streams[k] == FreshStream(priority)
    requires k in s.written && s.written[k] == [] && k in s.rx
    requires R.Settled(s.rx[k], []) && ReassemblyProofs.Accounts(s.rx[k].rx)
    ensures StreamTraced(s, k)
  {}

  /** Every state of sender, network and receivers that a run can reach is consistent. */
  lemma {:induction false} RunOk<K, C>(
      priorities: map<K, nat>, channels: set<C>, bufferSize: int, minBuffer: nat, events: seq<Event<K, C>>)
    ensures SysOk(Play(Start(priorities, channels, bufferSize, minBuffer), events))
    decreases |events|
  {
    hide SysOk, Step;
    if events == [] {
      StartOk<K, C>(priorities, channels, bufferSize, minBuffer);
    } else {
      RunOk(priorities, channels, bufferSize, minBuffer, events[..|events| - 1]);
      StepOk(Play(Start(priorities, channels, bufferSize, minBuffer), events[..|events| - 1]), events[|events| - 1]);
    }
  }

  // ---------------------------------------------------------------- the results

  /** A queued data frame of the stream carries position `p`. */
  ghost predicate QueuedByte<K, C>(s: Stream<K, C>, p: nat) {
    exists j :: 0 <= j < |s.queue| && s.queue[j].kind == Data && s.queue[j].seg.Covers(p)
  }

  /** A packet of `k` that was neither acknowledged nor reported missed carries position `p`. */
  ghost predicate InFlight<K, C>(l: Layer<K, C>, k: K, p: nat) {
    exists c, n :: c in l.channels && n in l.channels[c].waitingAck && n !in l.channels[c].missed
      && l.channels[c].waitingAck[n].kind == Data && l.channels[c].waitingAck[n].owner == k
      && l.channels[c].waitingAck[n].seg.Covers(p)
  }

  lemma HeldByte<K, C>(l: Layer<K, C>, k: K, q: nat, p: nat)
    requires Sound(l) && k in l.streams && q in l.streams[k].segments && l.streams[k].segments[q].Covers(p)
    requires q in l.streams[k].waiting
    ensures QueuedByte(l.streams[k], p) || InFlight(l, k, p)
  {
    SoundStream(l, k);
    hide Sound;
    assert Held(l, k, q);
    var s := l.streams[k];
    if InQueue(s.queue, q) {
      var j :| 0 <= j < |s.queue| && s.queue[j].kind == Data && s.queue[j].seg.pos == q;
      assert FrameOk(k, s, s.queue[j]);
    } else {
      var c :| c in l.channels && Outstanding(l.channels[c], k, q);
      var n :| n in l.channels[c].waitingAck && n !in l.channels[c].missed
        && l.channels[c].waitingAck[n].kind == Data && l.channels[c].waitingAck[n].owner == k
        && l.channels[c].waitingAck[n].seg.pos == q;
      SentHere(l, c, n);
    }
  }

  lemma SentHere<K, C>(l: Layer<K, C>, c: C, n: nat)
    requires Sound(l) && c in l.channels && n in l.channels[c].waitingAck
    ensures Sent(l, c, n) && l.channels[c].sent[n] == l.channels[c].waitingAck[n]
    ensures var f := l.channels[c].waitingAck[n];
            f.kind == Data ==> f.owner in l.streams && f.seg.pos in l.streams[f.owner].segments
                               && l.streams[f.owner].segments[f.seg.pos] == f.seg
  {
    SoundChannel(l, c);
  }

  /**
   Nothing is lost: whatever the network and the scheduler did, every byte ever written is in a segment that
   arrived, in the stream's transmit queue, or in a packet that was neither acknowledged nor missed.
   */
  lemma NothingLost<K, C>(
      priorities: map<K, nat>, channels: set<C>, bufferSize: int, minBuffer: nat, events: seq<Event<K, C>>, k: K, p: nat)
    requires var s := Play(Start(priorities, channels, bufferSize, minBuffer), events); k in s.written && p < |s.written[k]|
    ensures var s := Play(Start(priorities, channels, bufferSize, minBuffer), events);
            && k in s.rx && k in s.layer.streams
            && (R.CoveredBy(s.rx[k].received, p) || QueuedByte(s.layer.streams[k], p) || InFlight(s.layer, k, p))
  {
    hide Sound, Play, Start;
    RunOk(priorities, channels, bufferSize, minBuffer, events);
    var s := Play(Start(priorities, channels, bufferSize, minBuffer), events);
    assert StreamTraced(s, k);
    var t := s.layer.streams[k];
    assert Touches(t.segments, p);
    var q :| q in t.segments && t.segments[q].Covers(p);
    if q in t.waiting { HeldByte(s.layer, k, q, p); }
  }

  /** Bytes come out in the order written, whatever happened on the way. */
  lemma DeliveredInOrder<K, C>(
      priorities: map<K, nat>, channels: set<C>, bufferSize: int, minBuffer: nat, events: seq<Event<K, C>>, k: K)
    requires k in Play(Start(priorities, channels, bufferSize, minBuffer), events).rx
    ensures var s := Play(Start(priorities, channels, bufferSize, minBuffer), events);
            && k in s.written && s.rx[k].read <= s.written[k]
            && (!s.rx[k].rx.endRead ==>
                  s.rx[k].rx.byteSeq <= |s.written[k]|
                  && s.rx[k].read + Flat(s.rx[k].rx.segments) == s.written[k][..s.rx[k].rx.byteSeq])
  {
    hide SysOk, Play, Start;
    RunOk(priorities, channels, bufferSize, minBuffer, events);
    var s := Play(Start(priorities, channels, bufferSize, minBuffer), events);
    RxKnown(s, k);
    ReceiverFacts(s, k);
  }

  /** A byte written and not waited for has arrived. */
  lemma ArrivedByte<K, C>(s: Sys<K, C>, k: K, p: nat)
    requires SysOk(s) && k in s.layer.streams && k in s.rx && k in s.written && p < |s.written[k]|
    requires s.layer.streams[k].waiting == {}
    ensures R.CoveredBy(s.rx[k].received, p)
  {
    assert StreamTraced(s, k);
    var t := s.layer.streams[k];
    assert Touches(t.segments, p);
    var q :| q in t.segments && t.segments[q].Covers(p);
    assert t.segments[q] in s.rx[k].received;
  }

  /** Once the sender waits for no acknowledgment, everything written has been read or is ready to be read. */
  lemma AcknowledgedMeansDelivered<K, C>(
      priorities: map<K, nat>, channels: set<C>, bufferSize: int, minBuffer: nat, events: seq<Event<K, C>>, k: K)
    requires var s := Play(Start(priorities, channels, bufferSize, minBuffer), events);
             && k in s.layer.streams && s.layer.streams[k].waiting == {} && k in s.rx && !s.rx[k].rx.endRead
    ensures var s := Play(Start(priorities, channels, bufferSize, minBuffer), events);
            k in s.written && s.rx[k].read + Flat(s.rx[k].rx.segments) == s.written[k]
  {
    hide SysOk, Play, Start;
    RunOk(priorities, channels, bufferSize, minBuffer, events);
    var s := Play(Start(priorities, channels, bufferSize, minBuffer), events);
    ReceiverFacts(s, k);
    var r := s.rx[k];
    if r.rx.byteSeq < |s.written[k]| {
      ArrivedByte(s, k, r.rx.byteSeq);
      var g :| g in r.received && g.Covers(r.rx.byteSeq);
      NotBeyond(r, s.written[k], g);
    }
    assert s.written[k][..|s.written[k]|] == s.written[k];
  }

  /** No segment that arrived covers the receive position. */
  lemma NotBeyond(r: R.Run, stream: seq<byte>, g: Segment)
    requires R.Settled(r, stream) && !r.rx.endRead && g in r.received
    ensures !g.Covers(r.rx.byteSeq)
  {
    if R.Buffered(r.rx.readahead, g) {}
  }
}
