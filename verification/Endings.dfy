/**
 How reading ends, over whole runs of sender, network and receivers: which events take from a stream, for good, the
 chance to be read to its end.
 */
module Endings {
  import opened Options
  import opened Segments
  import opened StreamLayer
  import opened StreamHistory
  import opened StreamSteps
  import opened EndToEnd
  import opened StreamClose
  import SR = StreamRuns
  import Rx = Reassembly
  import Proofs = ReassemblyProofs
  import R = ReassemblyRuns

  // ---------------------------------------------------------------- segments over a step

  lemma HistorySegments<K, C>(l: Layer<K, C>, r: Layer<K, C>, k: K)
    requires SameHistory(l, r) && k in l.streams
    ensures k in r.streams && r.streams[k].segments == l.streams[k].segments
    ensures r.streams[k].waiting == l.streams[k].waiting
  {}

  lemma AckExtends<K, C>(l: Layer<K, C>, op: SR.Op<K, C>, k: K)
    requires op.Acked? && SR.Enabled(l, op) && k in l.streams
    ensures k in SR.Do(l, op).streams && SR.Do(l, op).streams[k].segments == l.streams[k].segments
  {
    hide SameHistory;
    AcknowledgedHistory(l, op.c, op.n, op.rxSeq);
    HistorySegments(Released(l, op.c, op.n), SR.Do(l, op), k);
  }

  /** Only writing cuts segments. */
  lemma SegmentsSame<K, C>(l: Layer<K, C>, op: SR.Op<K, C>, k: K)
    requires SR.Enabled(l, op) && !op.Write? && k in l.streams
    ensures k in SR.Do(l, op).streams && SR.Do(l, op).streams[k].segments == l.streams[k].segments
  {
    if op.Acked? {
      AckExtends(l, op, k);
    } else {
      OpHistory(l, op);
      HistorySegments(l, SR.Do(l, op), k);
    }
  }

  /** Only writing to a stream cuts segments of it. */
  lemma CutsElsewhere<K, C>(s: Sys<K, C>, e: Event<K, C>, k: K)
    requires SysOk(s) && k in s.layer.streams && !(e.Local? && e.op.Write? && e.op.k == k)
    ensures k in Step(s, e).layer.streams && Step(s, e).layer.streams[k].segments == s.layer.streams[k].segments
    ensures k in s.written ==> k in Step(s, e).written && Step(s, e).written[k] == s.written[k]
  {
    hide SysOk, SR.Enabled, SR.Do;
    if e.Local? && SR.Enabled(s.layer, e.op) && !s.layer.failed
       && !(e.op.Acked? && (e.op.c, e.op.n) !in s.accepted) {
      if e.op.Write? { OtherWrite(s.layer, e.op, k); } else { SegmentsSame(s.layer, e.op, k); }
    }
  }

  lemma OtherWrite<K, C>(l: Layer<K, C>, op: SR.Op<K, C>, k: K)
    requires op.Write? && SR.Enabled(l, op) && k in l.streams && op.k != k
    ensures k in SR.Do(l, op).streams && SR.Do(l, op).streams[k].segments == l.streams[k].segments
  {
    hide SameHistory, Cut, RecordAll, SR.WriteAll;
    var segs := Cut(l.streams[op.k].byteSeq, op.data, op.end, op.mtu);
    WriteAllHistory(l, op.k, segs);
    HistorySegments(l.SetStream(op.k, RecordAll(l.streams[op.k], segs)), SR.Do(l, op), k);
  }

  lemma LocalRx<K, C>(s: Sys<K, C>, op: SR.Op<K, C>)
    ensures Step(s, Local(op)).rx == s.rx && Step(s, Local(op)).accepted == s.accepted
  {
    hide SR.Enabled, SR.Do;
  }

  lemma DeliverIs<K, C>(s: Sys<K, C>, c: C, n: nat, k: K)
    requires k in s.rx
    ensures var t := Step(s, Deliver(c, n));
            && t.layer == s.layer && t.written == s.written && k in t.rx
            && if !Sent(s.layer, c, n) then t.rx[k] == s.rx[k]
               else
                 var f := s.layer.channels[c].sent[n];
                 t.rx[k] == if f.kind == Data && f.owner == k then R.Step(s.rx[k], R.Arrive(f.seg)) else s.rx[k]
  {
    hide R.Step;
  }

  lemma ReadIs<K, C>(s: Sys<K, C>, k: K, max: int)
    requires k in s.rx
    ensures Step(s, Read(k, max)) == s.(rx := s.rx[k := R.Step(s.rx[k], R.Read(max))])
  {
    hide R.Step;
  }

  lemma StepStreams<K, C>(s: Sys<K, C>, e: Event<K, C>)
    requires SysOk(s)
    ensures Step(s, e).layer.streams.Keys == s.layer.streams.Keys
  {
    StepOk(s, e);
    StepKeys(s, e);
  }

  lemma StepKeys<K, C>(s: Sys<K, C>, e: Event<K, C>)
    requires Keys(s) && Keys(Step(s, e))
    ensures Step(s, e).layer.streams.Keys == s.layer.streams.Keys
  {
    hide SR.Do, SR.Enabled;
  }

  // ---------------------------------------------------------------- writing

  lemma PartedMore(cut: map<nat, Segment>, stream: seq<byte>, more: seq<byte>)
    requires Parted(cut, stream)
    ensures Parted(cut, stream + more)
  {
    forall q | q in cut ensures cut[q].SliceOf(stream + more) {
      var g := cut[q];
      assert g.SliceOf(stream);
      assert (stream + more)[g.pos..g.End()] == stream[g.pos..g.End()];
    }
  }

  lemma {:induction false} RecordParted<K, C>(s: Stream<K, C>, stream: seq<byte>, end: Flags, mtu: nat)
    requires Cuts(s, stream) && s.byteSeq < |stream| && mtu > 0 && Parted(s.segments, stream)
    ensures Parted(RecordAll(s, Cut(s.byteSeq, stream[s.byteSeq..], end, mtu)).segments, stream)
    decreases |stream| - s.byteSeq
  {
    var segs := Cut(s.byteSeq, stream[s.byteSeq..], end, mtu);
    CutHead(s.byteSeq, stream, end, mtu);
    var t := RecordSegment(s, segs[0]);
    OneParted(s, segs[0], stream);
    hide Cuts, Cut, Parted;
    RecordCuts(s, segs[0], stream);
    if t.byteSeq < |stream| {
      RecordParted(t, stream, end, mtu);
    } else {
      assert RecordAll(t, []) == t;
    }
  }

  lemma OneParted<K, C>(s: Stream<K, C>, seg: Segment, stream: seq<byte>)
    requires Cuts(s, stream) && Parted(s.segments, stream)
    requires seg.pos == s.byteSeq && seg.data != [] && seg.SliceOf(stream)
    ensures Parted(RecordSegment(s, seg).segments, stream)
  {}

  /** A write keeps the segments and cuts new ones that do not overlap. */
  lemma WriteParts<K, C>(s: Sys<K, C>, op: SR.Op<K, C>)
    requires SysOk(s) && op.Write? && SR.Enabled(s.layer, op) && op.k in s.written
    requires Parted(s.layer.streams[op.k].segments, s.written[op.k])
    ensures op.k in SR.Do(s.layer, op).streams
    ensures var cut := SR.Do(s.layer, op).streams[op.k].segments;
            Parted(cut, s.written[op.k] + op.data) && Extends(s.layer.streams[op.k].segments, cut)
  {
    ReceiverFacts(s, op.k);
    StreamLength(s, op.k);
    var t, stream := s.layer.streams[op.k], s.written[op.k] + op.data;
    var segs := Cut(t.byteSeq, op.data, op.end, op.mtu);
    assert stream[t.byteSeq..] == op.data;
    hide SysOk, Cuts, Cut, Parted, SameHistory, RecordAll, SR.WriteAll;
    CutsExtend(t, s.written[op.k], op.data);
    PartedMore(t.segments, s.written[op.k], op.data);
    RecordParted(t, stream, op.end, op.mtu);
    RecordCut(t, stream, op.end, op.mtu);
    WriteAllHistory(s.layer, op.k, segs);
    HistorySegments(s.layer.SetStream(op.k, RecordAll(t, segs)), SR.Do(s.layer, op), op.k);
  }

  lemma StreamLength<K, C>(s: Sys<K, C>, k: K)
    requires SysOk(s) && k in s.layer.streams && k in s.written
    ensures |s.written[k]| == s.layer.streams[k].byteSeq
  {
    assert StreamTraced(s, k);
  }

  // ---------------------------------------------------------------- one receiver

  /** The receiver of these segments is sane and got nothing but them. */
  ghost predicate Sourced(r: R.Run, cut: map<nat, Segment>) {
    Sane(r.rx, r.read, cut) && forall g :: g in r.received ==> From(cut, g)
  }

  lemma ArriveExactly(r: R.Run, seg: Segment, stream: seq<byte>, cut: map<nat, Segment>)
    requires Sourced(r, cut) && R.Settled(r, stream) && Proofs.Accounts(r.rx) && Parted(cut, stream) && From(cut, seg)
    ensures var t := R.Step(r, R.Arrive(seg));
            && Sourced(t, cut)
            && (Whole(t.rx, t.read, stream) <==> Whole(r.rx, r.read, stream) && !Repeats(r.rx, seg, stream))
  {
    hide Sane, Whole, Proofs.Accounts, Parted, Rx.Receive, Repeats;
    ReceiveWholeExactly(r.rx, seg, r.read, stream, cut);
  }

  lemma ReadExactly(r: R.Run, max: int, stream: seq<byte>, cut: map<nat, Segment>)
    requires Sourced(r, cut) && R.Settled(r, stream) && Proofs.Accounts(r.rx)
    ensures var t := R.Step(r, R.Read(max));
            Sourced(t, cut) && (Whole(t.rx, t.read, stream) <==> Whole(r.rx, r.read, stream))
  {
    if Rx.ReadLoop(r.rx, max, []).Some? {
      assert r.read + [] == r.read;
      hide Sane, Whole, Proofs.Accounts;
      ReadWholeExactly(r.rx, max, r.read, [], stream, cut);
      var (t, out) := Rx.ReadLoop(r.rx, max, []).value;
      RecalculateSame(t, r.read + out, stream, cut);
    }
  }

  lemma SourcedMore(r: R.Run, cut: map<nat, Segment>, more: map<nat, Segment>)
    requires Sourced(r, cut) && Extends(cut, more)
    ensures Sourced(r, more)
  {
    hide Sane;
    SaneMore(r.rx, r.read, cut, more);
  }

  lemma WriteExactly(r: R.Run, stream: seq<byte>, more: seq<byte>)
    requires R.Settled(r, stream) && more != []
    ensures Whole(r.rx, r.read, stream + more) <==>
            Whole(r.rx, r.read, stream) && !r.rx.endRead && !Flagged(r.rx.segments)
  {
    WriteWholeExactly(r.rx, r.read, stream, more);
  }

  // ---------------------------------------------------------------- one step of everything

  ghost predicate Origins<K, C>(s: Sys<K, C>, k: K) {
    && k in s.layer.streams && k in s.rx && k in s.written
    && Parted(s.layer.streams[k].segments, s.written[k]) && Sourced(s.rx[k], s.layer.streams[k].segments)
  }

  /** The stream can still be read to its end. */
  ghost predicate Unspoilt<K, C>(s: Sys<K, C>, k: K) {
    k in s.rx && k in s.written && Whole(s.rx[k].rx, s.rx[k].read, s.written[k])
  }

  /**
   The events that spoil it: the closing segment just consumed arrives again while the stream goes on behind it, or
   more is written when reading has ended or such a repeated segment is waiting to be read.
   */
  ghost predicate Spoils<K, C>(s: Sys<K, C>, e: Event<K, C>, k: K) {
    k in s.rx && k in s.written &&
    match e
    case Deliver(c, n) =>
      Sent(s.layer, c, n) &&
      var f := s.layer.channels[c].sent[n];
      f.kind == Data && f.owner == k && Repeats(s.rx[k].rx, f.seg, s.written[k])
    case Local(op) =>
      && op.Write? && op.k == k && SR.Enabled(s.layer, op) && !s.layer.failed
      && (s.rx[k].rx.endRead || Flagged(s.rx[k].rx.segments))
    case Read(_, _) => false
  }

  lemma ReadElsewhere<K, C>(s: Sys<K, C>, m: K, max: int, k: K)
    requires k in s.rx
    ensures var t := Step(s, Read(m, max));
            t.layer == s.layer && t.written == s.written && k in t.rx && (m != k ==> t.rx[k] == s.rx[k])
  {
    hide R.Step;
  }

  lemma ReadStepExactly<K, C>(s: Sys<K, C>, m: K, max: int, k: K)
    requires SysOk(s) && Origins(s, k)
    ensures var t := Step(s, Read(m, max)); Origins(t, k) && (Unspoilt(t, k) <==> Unspoilt(s, k))
  {
    hide SysOk, Whole, Sourced, R.Step, Step, R.Settled, Proofs.Accounts, Cuts, Parted;
    ReceiverFacts(s, k);
    ReadElsewhere(s, m, max, k);
    if m == k {
      ReadIs(s, k, max);
      ReadExactly(s.rx[k], max, s.written[k], s.layer.streams[k].segments);
    }
  }

  lemma DeliverStepExactly<K, C>(s: Sys<K, C>, c: C, n: nat, k: K)
    requires SysOk(s) && Origins(s, k)
    ensures var e: Event<K, C> := Deliver(c, n);
            Origins(Step(s, e), k) && (Unspoilt(Step(s, e), k) <==> Unspoilt(s, k) && !Spoils(s, e, k))
  {
    hide SysOk, Whole, Sourced, R.Step, Step, R.Settled, Proofs.Accounts, Cuts, Parted, Repeats;
    ReceiverFacts(s, k);
    DeliverIs(s, c, n, k);
    if Sent(s.layer, c, n) {
      SentFrame(s, c, n);
      var f := s.layer.channels[c].sent[n];
      if f.kind == Data && f.owner == k {
        ArriveExactly(s.rx[k], f.seg, s.written[k], s.layer.streams[k].segments);
      }
    }
  }

  lemma PlainStepExactly<K, C>(s: Sys<K, C>, e: Event<K, C>, k: K)
    requires SysOk(s) && Origins(s, k) && e.Local? && !(e.op.Write? && e.op.k == k)
    ensures Origins(Step(s, e), k) && (Unspoilt(Step(s, e), k) <==> Unspoilt(s, k))
  {
    hide SysOk, Whole, Sourced, Step, Parted;
    CutsElsewhere(s, e, k);
    LocalRx(s, e.op);
  }

  lemma WriteStepExactly<K, C>(s: Sys<K, C>, op: SR.Op<K, C>, k: K)
    requires SysOk(s) && Origins(s, k) && op.Write? && op.k == k
    ensures var e: Event<K, C> := Local(op);
            Origins(Step(s, e), k) && (Unspoilt(Step(s, e), k) <==> Unspoilt(s, k) && !Spoils(s, e, k))
  {
    hide SysOk, Whole, Sourced, Parted, SR.Do;
    if SR.Enabled(s.layer, op) && !s.layer.failed {
      ReceiverFacts(s, k);
      hide R.Settled, Proofs.Accounts, Cuts;
      WriteParts(s, op);
      SourcedMore(s.rx[k], s.layer.streams[k].segments, SR.Do(s.layer, op).streams[k].segments);
      WriteExactly(s.rx[k], s.written[k], op.data);
    }
  }

  /** A step spoils a stream exactly when it is one of those events, and nothing mends one that is spoilt. */
  lemma StepUnspoiltExactly<K, C>(s: Sys<K, C>, e: Event<K, C>, k: K)
    requires SysOk(s) && Origins(s, k)
    ensures Origins(Step(s, e), k)
    ensures Unspoilt(Step(s, e), k) <==> Unspoilt(s, k) && !Spoils(s, e, k)
  {
    hide SysOk, Origins, Unspoilt, Step;
    match e
    case Deliver(c, n) => DeliverStepExactly(s, c, n, k);
    case Read(m, max) => ReadStepExactly(s, m, max, k);
    case Local(op) => if op.Write? && op.k == k { WriteStepExactly(s, op, k); } else { PlainStepExactly(s, e, k); }
  }

  // ---------------------------------------------------------------- runs

  lemma StartUnspoilt<K, C>(priorities: map<K, nat>, channels: set<C>, bufferSize: int, minBuffer: nat, k: K)
    requires k in Start(priorities, channels, bufferSize, minBuffer).layer.streams
    ensures Origins(Start(priorities, channels, bufferSize, minBuffer), k)
    ensures Unspoilt(Start(priorities, channels, bufferSize, minBuffer), k)
  {
    var s := Start(priorities, channels, bufferSize, minBuffer);
    assert s.layer.streams[k] == SR.FreshStream(priorities[k]);
  }

  /** Some event of the run spoils the stream. */
  ghost predicate SpoiltIn<K, C>(s: Sys<K, C>, events: seq<Event<K, C>>, k: K) {
    exists n :: 0 <= n < |events| && Spoils(Play(s, events[..n]), events[n], k)
  }

  lemma SpoiltLast<K, C>(s: Sys<K, C>, events: seq<Event<K, C>>, k: K)
    requires events != []
    ensures var front, last := events[..|events| - 1], |events| - 1;
            SpoiltIn(s, events, k) <==> SpoiltIn(s, front, k) || Spoils(Play(s, front), events[last], k)
  {
    hide Play, Spoils;
    var front, last := events[..|events| - 1], |events| - 1;
    forall n | 0 <= n < last ensures front[..n] == events[..n] && front[n] == events[n] {}
    if SpoiltIn(s, front, k) {
      var n :| 0 <= n < |front| && Spoils(Play(s, front[..n]), front[n], k);
      assert Spoils(Play(s, events[..n]), events[n], k);
    }
    if SpoiltIn(s, events, k) {
      var n :| 0 <= n < |events| && Spoils(Play(s, events[..n]), events[n], k);
      if n < last { assert Spoils(Play(s, front[..n]), front[n], k); }
    }
  }

  /** Over whole runs, a stream can be read to its end exactly as long as no event has spoilt it. */
  lemma {:induction false} RunUnspoiltExactly<K, C>(
      priorities: map<K, nat>, channels: set<C>, bufferSize: int, minBuffer: nat, events: seq<Event<K, C>>, k: K)
    requires k in Play(Start(priorities, channels, bufferSize, minBuffer), events).layer.streams
    ensures Origins(Play(Start(priorities, channels, bufferSize, minBuffer), events), k)
    ensures Unspoilt(Play(Start(priorities, channels, bufferSize, minBuffer), events), k) <==>
            !SpoiltIn(Start(priorities, channels, bufferSize, minBuffer), events, k)
    decreases |events|
  {
    hide SysOk, Step, Origins, Unspoilt, SpoiltIn, Spoils;
    var s := Start<K, C>(priorities, channels, bufferSize, minBuffer);
    if events == [] {
      StartUnspoilt<K, C>(priorities, channels, bufferSize, minBuffer, k);
      NoEvents(s, k);
    } else {
      var front, e := events[..|events| - 1], events[|events| - 1];
      RunOk(priorities, channels, bufferSize, minBuffer, front);
      StepStreams(Play(s, front), e);
      RunUnspoiltExactly(priorities, channels, bufferSize, minBuffer, front, k);
      StepUnspoiltExactly(Play(s, front), e, k);
      SpoiltLast(s, events, k);
    }
  }

  lemma NoEvents<K, C>(s: Sys<K, C>, k: K)
    ensures !SpoiltIn(s, [], k)
  {}

  /** A receiver that has stopped reading has read everything if and only if no event of the run spoilt the stream. */
  lemma EndMeansAllReadExactly<K, C>(
      priorities: map<K, nat>, channels: set<C>, bufferSize: int, minBuffer: nat, events: seq<Event<K, C>>, k: K)
    requires var s := Play(Start(priorities, channels, bufferSize, minBuffer), events);
             k in s.layer.streams && k in s.rx && k in s.written && s.rx[k].rx.endRead
    ensures var s := Play(Start(priorities, channels, bufferSize, minBuffer), events);
            s.rx[k].read == s.written[k] <==>
              !SpoiltIn(Start(priorities, channels, bufferSize, minBuffer), events, k)
  {
    hide Play, Start, Origins, SpoiltIn;
    RunUnspoiltExactly(priorities, channels, bufferSize, minBuffer, events, k);
  }

  /** write_data is meant to refuse to write after a closing write; the code does not set the flag it checks. */
  ghost predicate NothingAfterClose<K, C>(s: Sys<K, C>, k: K) {
    && k in s.layer.streams && k in s.written
    && forall q :: q in s.layer.streams[k].segments && s.layer.streams[k].segments[q].flags.close ==>
         s.layer.streams[k].segments[q].End() == |s.written[k]|
  }

  /** In particular a stream that is closed nowhere but at its end is never spoilt. */
  lemma ClosedAtEnd<K, C>(s: Sys<K, C>, k: K)
    requires SysOk(s) && Origins(s, k) && NothingAfterClose(s, k)
    ensures Unspoilt(s, k)
  {
    ReceiverFacts(s, k);
    hide SysOk, Cuts, Proofs.Accounts;
    ReadPrefix(s.rx[k], s.written[k]);
    hide R.Settled, Sane;
    ClosedAtEndIsWhole(s.rx[k].rx, s.rx[k].read, s.written[k], s.layer.streams[k].segments);
  }

  lemma ReadPrefix(r: R.Run, stream: seq<byte>)
    requires R.Settled(r, stream)
    ensures r.read <= stream
  {
    if !r.rx.endRead { assert r.read <= r.read + Flat(r.rx.segments) == stream[..r.rx.byteSeq] <= stream; }
  }
}
