/** Whole runs of the sending side: any sequence of writes, acks, losses, attachments, priorities and teardowns. */
module StreamRuns {
  import opened Options
  import opened Segments
  import opened StreamLayer
  import opened StreamInvariants
  import opened StreamSteps
  import opened StreamOps
  import opened StreamAttach
  import opened StreamHomes
  import opened StreamTeardown
  import opened StreamHistory

  /** Everything that can happen to streams and channels. `C` names a channel, `K` a stream. */
  datatype Op<K, C> =
    | Write(k: K, data: seq<byte>, end: Flags, mtu: nat)
    | WriteDatagram(k: K, data: seq<byte>, mtu: nat)
    | Allow(c: C, allowance: nat)               // flow control changes its mind
    | Ready(c: C)                               // the channel reports that it may transmit
    | WindowGrows(k: K)                         // the peer advertises more room for the stream
    | Piggyback(k: K, piggyback: bool)
    | Acked(c: C, n: nat, rxSeq: nat)
    | Lost(c: C, n: nat)
    | Expired(c: C, n: nat)
    | AttachTo(k: K, c: C)
    | ClearTx(k: K, i: nat, order: seq<nat>)
    | Prioritise(k: K, priority: nat)
    | AttachRx(k: K, i: nat, c: C, sid: nat, seqNo: nat)
    | ClearRx(k: K, i: nat)
    | StopChannel(c: C, walk: seq<SidWalk>, rxWalk: seq<nat>)
    | Detach(c: C, walk: seq<SidWalk>, order: seq<nat>)

  /** write_data on the segments it cuts. */
  function WriteAll<K(==), C(==)>(l: Layer<K, C>, k: K, segs: seq<Segment>): Layer<K, C>
    decreases |segs|
  {
    if segs == [] || k !in l.streams then l else WriteAll(WriteSegment(l, k, segs[0]), k, segs[1..])
  }

  /** write_datagram: fragments take the stream's position but no bytes of it. */
  function EnqueueFragments<K(==), C(==)>(l: Layer<K, C>, k: K, fragments: seq<Segment>): Layer<K, C>
    decreases |fragments|
  {
    if fragments == [] || k !in l.streams then l
    else
      var f := Frame(k, Datagram, fragments[0].(pos := l.streams[k].byteSeq), false);
      EnqueueFragments(EnqueueFrame(l, k, f), k, fragments[1..])
  }

  function SendDatagram<K(==), C(==)>(l: Layer<K, C>, k: K, data: seq<byte>, mtu: nat): Layer<K, C>
    requires mtu > 0
  {
    var r := EnqueueFragments(l, k, Cut(0, data, Flags(false, false, false), mtu));
    if k in r.streams then LinkNow(r, k) else r
  }

  /** When an operation can happen: it names streams, channels, slots and orders that there are. */
  ghost predicate Enabled<K, C>(l: Layer<K, C>, op: Op<K, C>) {
    match op
    case Write(k, data, _, mtu) => k in l.streams && data != [] && mtu > 0
    case WriteDatagram(k, _, mtu) => k in l.streams && mtu > 0
    case Allow(c, _) => c in l.channels
    case Ready(c) => c in l.channels
    case WindowGrows(k) => k in l.streams
    case Piggyback(k, _) => k in l.streams
    case Acked(c, _, _) => c in l.channels
    case Lost(c, _) => c in l.channels
    case Expired(c, n) => c in l.channels && (n in l.channels[c].waitingAck ==> n in l.channels[c].missed)
    case AttachTo(k, c) => k in l.streams && c in l.channels
    case ClearTx(k, i, _) => k in l.streams && i < |l.streams[k].slots|
    case Prioritise(k, _) => k in l.streams
    case AttachRx(k, i, c, sid, _) =>
      k in l.streams && i < |l.streams[k].rxSlots| && c in l.channels
    case ClearRx(k, i) => k in l.streams && i < |l.streams[k].rxSlots|
    case StopChannel(c, walk, rxWalk) =>
      && c in l.channels && WalksAll(l, c, walk) && Walkable(l, c, l.channels[c].txSids, walk)
      && Walks(rxWalk, l.channels[c].rxSids)
    case Detach(c, walk, order) =>
      && c in l.channels && WalksAll(l, c, walk) && Walks(order, l.channels[c].waitingAck)
      && Walkable(Restore(l, c, map[]), c, l.channels[c].txSids, walk)
  }

  ghost function Do<K, C>(l: Layer<K, C>, op: Op<K, C>): Layer<K, C>
    requires Enabled(l, op)
  {
    match op
    case Write(k, data, end, mtu) => WriteAll(l, k, Cut(l.streams[k].byteSeq, data, end, mtu))
    case WriteDatagram(k, data, mtu) => SendDatagram(l, k, data, mtu)
    case Allow(c, allowance) => l.SetChannel(c, l.channels[c].(allowance := allowance))
    case Ready(c) => GotReady(l, c)
    case WindowGrows(k) => LinkNow(l, k)
    case Piggyback(k, piggyback) => l.SetStream(k, l.streams[k].(piggyback := piggyback))
    case Acked(c, n, rxSeq) => Acknowledged(l, c, n, rxSeq)
    case Lost(c, n) => Missed(l, c, n)
    case Expired(c, n) => Expire(l, c, n)
    case AttachTo(k, c) => AttachFor(l, k, c)
    case ClearTx(k, i, order) => Clear(l, k, i, order)
    case Prioritise(k, priority) => SetPriority(l, k, priority)
    case AttachRx(k, i, c, sid, seqNo) => RxAttach(l, k, i, c, sid, seqNo)
    case ClearRx(k, i) => RxClear(l, k, i)
    case StopChannel(c, walk, rxWalk) => Stop(l, c, walk, rxWalk)
    case Detach(c, walk, order) => DetachAll(l, c, walk, order)
  }

  /** A failed assertion stops the host. */
  ghost function Step<K, C>(l: Layer<K, C>, op: Op<K, C>): Layer<K, C> {
    if Enabled(l, op) && !l.failed then Do(l, op) else l
  }

  ghost function Play<K, C>(l: Layer<K, C>, ops: seq<Op<K, C>>): Layer<K, C> {
    if ops == [] then l else Step(Play(l, ops[..|ops| - 1]), ops[|ops| - 1])
  }

  ghost function FreshStream<K, C>(priority: nat): Stream<K, C> {
    var slot: TxSlot<C> := TxSlot(None, 0, None, false);
    var rxSlot: RxSlot<C> := RxSlot(None, 0, 0);
    Stream(0, [], {}, 0, false, [slot, slot], [rxSlot, rxSlot], None, true, priority, false, map[])
  }

  ghost function FreshChannel<K>(): Channel<K> {
    Channel(map[], map[], 1, 0, [], map[], 1, 0, {}, map[])
  }

  /** Streams with their priorities and channels before anything happened. */
  ghost function Initial<K, C>(priorities: map<K, nat>, channels: set<C>): Layer<K, C> {
    Layer(map k | k in priorities :: FreshStream(priorities[k]), map c | c in channels :: FreshChannel(), false)
  }

  /** The invariant of runs. */
  ghost predicate Healthy<K, C>(l: Layer<K, C>) {
    Inv(l) && Homed(l) && ReceiveOk(l)
  }

  /** What holds even of a host that stopped: all but the receive tables, which the last step left half done. */
  ghost predicate Sound<K, C>(l: Layer<K, C>) {
    Inv(l.(failed := false)) && Homed(l) && (!l.failed ==> ReceiveOk(l))
  }

  lemma SoundIsHealthy<K, C>(l: Layer<K, C>)
    ensures Healthy(l) <==> Sound(l) && !l.failed
  {
    hide Homed, ReceiveOk;
    if !l.failed { assert l.(failed := false) == l; }
  }

  lemma InitialHealthy<K, C>(priorities: map<K, nat>, channels: set<C>)
    ensures Healthy(Initial<K, C>(priorities, channels))
  {
    var l := Initial<K, C>(priorities, channels);
    forall k | k in l.streams
      ensures SlotsOk(l.streams[k]) && SlotActive(l.streams[k]) && StreamOk(k, l.streams[k]) && EnqueuedOk(l, k)
    {
      assert l.streams[k] == FreshStream(priorities[k]);
    }
    forall c | c in l.channels ensures LineOk(l, c) && ChannelOk(l, c) {
      assert l.channels[c] == FreshChannel();
    }
  }

  // ---------------------------------------------------------------- writing

  /** Segments that follow one another from `pos` on. */
  ghost predicate Consecutive(segs: seq<Segment>, pos: nat) {
    segs == [] || (segs[0].pos == pos && segs[0].data != [] && Consecutive(segs[1..], segs[0].End()))
  }

  lemma {:induction false} CutConsecutive(pos: nat, data: seq<byte>, end: Flags, mtu: nat)
    requires mtu > 0 && data != []
    ensures Consecutive(Cut(pos, data, end, mtu), pos)
    decreases |data|
  {
    var segs := Cut(pos, data, end, mtu);
    if |data| > mtu {
      CutConsecutive(pos + mtu, data[mtu..], end, mtu);
      assert segs[1..] == Cut(pos + mtu, data[mtu..], end, mtu);
    } else {
      assert segs[1..] == [];
    }
  }

  /** Healthy, and `l` is carried over to `r`: the form in which the proofs below chain steps. */
  ghost predicate Good<K, C>(l: Layer<K, C>, r: Layer<K, C>) {
    Inv(r) && Carries(l, r)
  }

  lemma GoodHealthy<K, C>(l: Layer<K, C>, r: Layer<K, C>)
    requires Healthy(l) && Good(l, r)
    ensures Healthy(r) && Advanced(l, r)
  {
    hide Inv, Carries, Homed, ReceiveOk;
    CarriesHome(l, r);
    CarriesCounters(l, r);
  }

  lemma WriteSegmentByteSeq<K, C>(l: Layer<K, C>, k: K, seg: Segment)
    requires Inv(l) && k in l.streams && seg.pos == l.streams[k].byteSeq && seg.data != []
    ensures k in WriteSegment(l, k, seg).streams
    ensures WriteSegment(l, k, seg).streams[k].byteSeq == seg.End()
  {
    hide Inv;
    var r := WrittenBeforeLink(l, k, seg);
    LinkNowHistory(r, k);
  }

  lemma {:induction false} WriteAllGood<K, C>(l: Layer<K, C>, k: K, segs: seq<Segment>)
    requires Inv(l) && k in l.streams && Consecutive(segs, l.streams[k].byteSeq)
    ensures Good(l, WriteAll(l, k, segs))
    decreases |segs|
  {
    hide Inv, Carries;
    if segs == [] {
      CarriesSelf(l);
    } else {
      WriteSegmentKeeps(l, k, segs[0]);
      WriteSegmentCarries(l, k, segs[0]);
      WriteSegmentByteSeq(l, k, segs[0]);
      var r := WriteSegment(l, k, segs[0]);
      WriteAllGood(r, k, segs[1..]);
      CarriesThen(l, r, WriteAll(r, k, segs[1..]));
    }
  }

  lemma {:induction false} FragmentsGood<K, C>(l: Layer<K, C>, k: K, fragments: seq<Segment>)
    requires Inv(l) && k in l.streams
    ensures Good(l, EnqueueFragments(l, k, fragments)) && k in EnqueueFragments(l, k, fragments).streams
    decreases |fragments|
  {
    hide Inv, Carries;
    if fragments == [] {
      CarriesSelf(l);
    } else {
      var f := Frame(k, Datagram, fragments[0].(pos := l.streams[k].byteSeq), false);
      EnqueueFrameKeeps(l, k, f);
      EnqueueFrameCarries(l, k, f);
      EnqueueFrameHistory(l, k, f);
      var r := EnqueueFrame(l, k, f);
      FragmentsGood(r, k, fragments[1..]);
      CarriesThen(l, r, EnqueueFragments(r, k, fragments[1..]));
    }
  }

  lemma DatagramGood<K, C>(l: Layer<K, C>, k: K, data: seq<byte>, mtu: nat)
    requires Inv(l) && k in l.streams && mtu > 0
    ensures Good(l, SendDatagram(l, k, data, mtu))
  {
    hide Inv, Carries;
    var fragments := Cut(0, data, Flags(false, false, false), mtu);
    FragmentsGood(l, k, fragments);
    var r := EnqueueFragments(l, k, fragments);
    LinkNowKeeps(r, k);
    LinkNowCarries(r, k);
    CarriesThen(l, r, LinkNow(r, k));
  }

  // ---------------------------------------------------------------- the other steps

  lemma AllowGood<K, C>(l: Layer<K, C>, c: C, allowance: nat)
    requires Inv(l) && c in l.channels
    ensures Good(l, l.SetChannel(c, l.channels[c].(allowance := allowance)))
  {
    var r := l.SetChannel(c, l.channels[c].(allowance := allowance));
    ChannelCarries(l, c, r.channels[c]);
    AllowSame(l, c, allowance);
    hide TablesOk, ActiveOk, ScheduleOk, FramesOk, Conserved, Carries;
    KeepShape(l, r);
    KeepFrames(l, r);
    KeepSchedule(l, r);
  }

  lemma AllowSame<K, C>(l: Layer<K, C>, c: C, allowance: nat)
    requires c in l.channels
    ensures var r := l.SetChannel(c, l.channels[c].(allowance := allowance));
            SameShape(l, r) && SameFrames(l, r) && SameSchedule(l, r)
  {}

  lemma PiggybackGood<K, C>(l: Layer<K, C>, k: K, piggyback: bool)
    requires Inv(l) && k in l.streams
    ensures Good(l, l.SetStream(k, l.streams[k].(piggyback := piggyback)))
  {
    hide Inv, Carries;
    var t := l.streams[k].(piggyback := piggyback);
    StreamCarries(l, k, t);
    StreamFacts(l, k);
    PiggybackStreamOk(k, l.streams[k], piggyback);
    StreamKeeps(l, k, t);
  }

  lemma PiggybackStreamOk<K, C>(k: K, s: Stream<K, C>, piggyback: bool)
    requires StreamOk(k, s)
    ensures StreamOk(k, s.(piggyback := piggyback))
  {
    var t := s.(piggyback := piggyback);
    forall j | 0 <= j < |t.queue| ensures FrameOk(k, t, t.queue[j]) { assert FrameOk(k, s, s.queue[j]); }
  }

  lemma ReadyGood<K, C>(l: Layer<K, C>, c: C)
    requires Inv(l) && c in l.channels
    ensures Good(l, GotReady(l, c))
  {
    hide Inv, Carries;
    CarriesSelf(l);
    if l.channels[c].sending != [] {
      ServeKeeps(l, c);
      ServeCarries(l, c);
    }
  }

  /** Steps that move no attachment. */
  lemma OpGood<K, C>(l: Layer<K, C>, op: Op<K, C>)
    requires Inv(l) && Enabled(l, op)
    requires !op.AttachTo? && !op.ClearTx? && !op.AttachRx? && !op.ClearRx? && !op.StopChannel? && !op.Detach?
    ensures Good(l, Do(l, op))
  {
    hide Inv, Carries;
    match op
    case Write(k, data, end, mtu) =>
      CutConsecutive(l.streams[k].byteSeq, data, end, mtu);
      WriteAllGood(l, k, Cut(l.streams[k].byteSeq, data, end, mtu));
    case WriteDatagram(k, data, mtu) => DatagramGood(l, k, data, mtu);
    case Allow(c, allowance) => AllowGood(l, c, allowance);
    case Ready(c) => ReadyGood(l, c);
    case WindowGrows(k) => LinkNowKeeps(l, k); LinkNowCarries(l, k);
    case Piggyback(k, piggyback) => PiggybackGood(l, k, piggyback);
    case Acked(c, n, rxSeq) => AcknowledgedKeeps(l, c, n, rxSeq); AcknowledgedCarries(l, c, n, rxSeq);
    case Lost(c, n) => MissedKeeps(l, c, n); MissedCarries(l, c, n);
    case Expired(c, n) => ExpireKeeps(l, c, n); ForgetCarries(l, c, {n});
    case Prioritise(k, priority) => SetPriorityKeeps(l, k, priority); SetPriorityCarries(l, k, priority);
  }

  lemma ClearTxHealthy<K, C>(l: Layer<K, C>, k: K, i: nat, order: seq<nat>)
    requires Healthy(l) && k in l.streams && i < |l.streams[k].slots|
    ensures Healthy(Clear(l, k, i, order)) && Advanced(l, Clear(l, k, i, order))
  {
    hide Inv, Homed, ReceiveOk;
    ClearAnyKeeps(l, k, i, order);
    AdvancedSelf(l);
    if l.streams[k].slots[i].InUse() {
      UnlinkKeeps(l, k, i);
      var c := l.streams[k].slots[i].channel.value;
      if Walks(order, l.channels[c].waitingAck) { ClearHomes(l, k, i, order, c); }
    }
  }

  lemma ReceiveHealthy<K, C>(l: Layer<K, C>, r: Layer<K, C>)
    requires Healthy(l) && OnlyReceive(l, r) && !r.failed && ReceiveOk(r)
    ensures Healthy(r) && Advanced(l, r)
  {
    hide Inv, Homed, ReceiveOk, OnlyReceive;
    OnlyReceiveKeeps(l, r);
    OnlyReceiveCounters(l, r);
  }

  lemma ClearRxHealthy<K, C>(l: Layer<K, C>, k: K, i: nat)
    requires Healthy(l) && k in l.streams && i < |l.streams[k].rxSlots|
    ensures Healthy(RxClear(l, k, i)) && Advanced(l, RxClear(l, k, i))
  {
    NotFailed(l);
    hide Inv, Homed, ReceiveOk, OnlyReceive, RxClear;
    RxClearKeeps(l, k, i);
    RxClearOnly(l, k, i);
    ReceiveHealthy(l, RxClear(l, k, i));
  }

  /** An attach packet from the peer: the assertion of set_active fails on a taken id, and only there. */
  lemma AttachRxSound<K, C>(l: Layer<K, C>, k: K, i: nat, c: C, sid: nat, seqNo: nat)
    requires Healthy(l) && k in l.streams && i < |l.streams[k].rxSlots| && c in l.channels
    ensures Sound(RxAttach(l, k, i, c, sid, seqNo)) && Advanced(l, RxAttach(l, k, i, c, sid, seqNo))
    ensures RxAttach(l, k, i, c, sid, seqNo).failed <==> IdTaken(l, k, i, c, sid)
  {
    NotFailed(l);
    hide Inv, Homed, ReceiveOk, OnlyReceive, IdTaken, RxAttach;
    RxAttachFailsExactly(l, k, i, c, sid, seqNo);
    RxAttachOnly(l, k, i, c, sid, seqNo);
    ReceiveSound(l, RxAttach(l, k, i, c, sid, seqNo));
  }

  lemma ReceiveSound<K, C>(l: Layer<K, C>, r: Layer<K, C>)
    requires Healthy(l) && OnlyReceive(l, r) && (!r.failed ==> ReceiveOk(r))
    ensures Sound(r) && Advanced(l, r)
  {
    hide Inv, ReceiveOk, OnlyReceive, Homed;
    OnlyReceiveCounters(l, r);
    var u := r.(failed := false);
    FailedOnly(l, r);
    OnlyReceiveKeeps(l, u);
    HomedStays(u, r);
  }

  lemma FailedOnly<K, C>(l: Layer<K, C>, r: Layer<K, C>)
    requires OnlyReceive(l, r)
    ensures OnlyReceive(l, r.(failed := false))
  {}

  lemma HomedStays<K, C>(l: Layer<K, C>, r: Layer<K, C>)
    requires Homed(l) && r.streams == l.streams && r.channels == l.channels
    ensures Homed(r)
  {
    forall c, n | c in r.channels && n in r.channels[c].waitingAck ensures HomedAt(r, c, n) {
      assert HomedAt(l, c, n);
      assert l.Current(l.channels[c].waitingAck[n].owner) == r.Current(l.channels[c].waitingAck[n].owner);
    }
  }

  lemma AttachmentHealthy<K, C>(l: Layer<K, C>, op: Op<K, C>)
    requires Healthy(l) && Enabled(l, op) && (op.AttachTo? || op.StopChannel? || op.Detach?)
    ensures Healthy(Do(l, op)) && Advanced(l, Do(l, op))
  {
    hide Inv, Homed, ReceiveOk, Advanced, Walkable, WalksAll, Walks;
    match op
    case AttachTo(k, c) => AttachForKeeps(l, k, c); AttachForHomes(l, k, c);
    case StopChannel(c, walk, rxWalk) => StopEmpties(l, c, walk, rxWalk);
    case Detach(c, walk, order) => DetachAllKeeps(l, c, walk, order);
  }

  lemma OpHealthy<K, C>(l: Layer<K, C>, op: Op<K, C>)
    requires Healthy(l) && Enabled(l, op)
    requires !op.AttachTo? && !op.ClearTx? && !op.AttachRx? && !op.ClearRx? && !op.StopChannel? && !op.Detach?
    ensures Healthy(Do(l, op)) && Advanced(l, Do(l, op))
  {
    hide Inv, Homed, ReceiveOk, Advanced, Enabled, Do;
    OpGood(l, op);
    GoodHealthy(l, Do(l, op));
  }

  /** The one step that fails: an attach packet whose id another slot holds. */
  ghost predicate Trips<K, C>(l: Layer<K, C>, op: Op<K, C>) {
    op.AttachRx? && Enabled(l, op) && !l.failed && IdTaken(l, op.k, op.i, op.c, op.sid)
  }

  /**
   Every step keeps the invariant; it neither reuses a stream counter nor takes a packet off the wire. No
   assertion fails but that of set_active, on an attach packet whose id another slot holds.
   */
  lemma StepSound<K, C>(l: Layer<K, C>, op: Op<K, C>)
    requires Sound(l)
    ensures Sound(Step(l, op)) && Advanced(l, Step(l, op))
    ensures Step(l, op).failed <==> l.failed || Trips(l, op)
  {
    AdvancedSelf(l);
    SoundIsHealthy(l);
    SoundIsHealthy(Step(l, op));
    hide Healthy, Sound, Advanced, IdTaken;
    if Enabled(l, op) && !l.failed {
      match op
      case ClearTx(k, i, order) => ClearTxHealthy(l, k, i, order);
      case AttachTo(_, _) => AttachmentHealthy(l, op);
      case StopChannel(_, _, _) => AttachmentHealthy(l, op);
      case Detach(_, _, _) => AttachmentHealthy(l, op);
      case AttachRx(k, i, c, sid, seqNo) => AttachRxSound(l, k, i, c, sid, seqNo);
      case ClearRx(k, i) => ClearRxHealthy(l, k, i);
      case _ => OpHealthy(l, op);
    }
  }

  lemma {:induction false} RunSound<K, C>(priorities: map<K, nat>, channels: set<C>, ops: seq<Op<K, C>>)
    ensures Sound(Play(Initial(priorities, channels), ops))
    decreases |ops|
  {
    hide Sound, Step;
    if ops == [] {
      InitialHealthy(priorities, channels);
      SoundIsHealthy(Initial(priorities, channels));
    } else {
      RunSound(priorities, channels, ops[..|ops| - 1]);
      StepSound(Play(Initial(priorities, channels), ops[..|ops| - 1]), ops[|ops| - 1]);
    }
  }

  /**
   In every state a run can reach, unless an attach packet on a taken id has stopped the host, no assertion
   has failed, the attachment tables agree with the slots in both directions, every line is ascending in
   priority value and holds exactly the enqueued streams, and every unacknowledged segment is queued or in a
   packet that was not reported missed.
   */
  lemma RunHealthy<K, C>(priorities: map<K, nat>, channels: set<C>, ops: seq<Op<K, C>>)
    ensures Healthy(Play(Initial(priorities, channels), ops)) || Play(Initial(priorities, channels), ops).failed
  {
    RunSound(priorities, channels, ops);
    SoundIsHealthy(Play(Initial(priorities, channels), ops));
  }

  /** Some step of the run is an attach packet whose id another slot holds at that time. */
  ghost predicate Tripped<K, C>(l: Layer<K, C>, ops: seq<Op<K, C>>) {
    exists n :: 0 <= n < |ops| && Trips(Play(l, ops[..n]), ops[n])
  }

  lemma TrippedLast<K, C>(l: Layer<K, C>, ops: seq<Op<K, C>>)
    requires ops != []
    ensures var front, last := ops[..|ops| - 1], |ops| - 1;
            Tripped(l, ops) <==> Tripped(l, front) || Trips(Play(l, front), ops[last])
  {
    hide Play, Trips;
    var front, last := ops[..|ops| - 1], |ops| - 1;
    forall n | 0 <= n < last ensures front[..n] == ops[..n] && front[n] == ops[n] {}
    if Tripped(l, front) {
      var n :| 0 <= n < |front| && Trips(Play(l, front[..n]), front[n]);
      assert Trips(Play(l, ops[..n]), ops[n]);
    }
    if Tripped(l, ops) {
      var n :| 0 <= n < |ops| && Trips(Play(l, ops[..n]), ops[n]);
      if n < last { assert Trips(Play(l, front[..n]), front[n]); }
    }
  }

  /** A run fails an assertion exactly when one of its steps is an attach packet on a taken id. */
  lemma {:induction false} RunFailsExactly<K, C>(priorities: map<K, nat>, channels: set<C>, ops: seq<Op<K, C>>)
    ensures Play(Initial(priorities, channels), ops).failed <==> Tripped(Initial(priorities, channels), ops)
    decreases |ops|
  {
    hide Sound, Step, Trips;
    var l := Initial(priorities, channels);
    if ops != [] {
      hide Tripped, Initial;
      var front := ops[..|ops| - 1];
      RunFailsExactly(priorities, channels, front);
      RunSound(priorities, channels, front);
      StepSound(Play(l, front), ops[|ops| - 1]);
      TrippedLast(l, ops);
    }
  }

  lemma PlayTwo<K, C>(l: Layer<K, C>, a: Op<K, C>, b: Op<K, C>)
    ensures Play(l, [a, b]) == Step(Step(l, a), b)
  {
    hide Step;
    assert [a, b][..1] == [a] && [a][..0] == [];
    assert Play(l, []) == l;
    assert Play(l, [a]) == Step(l, a);
  }

  lemma TakesId<K, C>(l: Layer<K, C>, k: K, i: nat, c: C, sid: nat, seqNo: nat)
    requires k in l.streams && i < |l.streams[k].rxSlots| && c in l.channels && l.streams[k].rxSlots[i].channel == None
    requires sid !in l.channels[c].rxSids
    ensures var r := RxAttach(l, k, i, c, sid, seqNo);
            c in r.channels && sid in r.channels[c].rxSids && r.channels[c].rxSids[sid] == (k, i)
  {}

  /** Two streams that attach one after the other under one id stop the host. */
  lemma SecondAttachTrips<K, C>(l: Layer<K, C>, k: K, m: K, c: C, sid: nat)
    requires Healthy(l) && k in l.streams && m in l.streams && m != k && c in l.channels && sid !in l.channels[c].rxSids
    requires |l.streams[k].rxSlots| > 0 && |l.streams[m].rxSlots| > 0 && l.streams[k].rxSlots[0].channel == None
    ensures Play(l, [AttachRx(k, 0, c, sid, 1), AttachRx(m, 0, c, sid, 2)]).failed
  {
    hide Inv, Homed, ReceiveOk, Sound, RxAttach, Step, Trips, SameHistory;
    SoundIsHealthy(l);
    var first, second := AttachRx(k, 0, c, sid, 1), AttachRx(m, 0, c, sid, 2);
    PlayTwo(l, first, second);
    TakesId(l, k, 0, c, sid, 1);
    RxAttachHistory(l, k, 0, c, sid, 1);
    hide Play, Healthy;
    StepSound(l, first);
    StepAttach(l, k, c, sid);
    NotTripped(l, k, c, sid);
    TripsHere(l, RxAttach(l, k, 0, c, sid, 1), k, m, c, sid);
    StepSound(Step(l, first), second);
  }

  lemma StepAttach<K, C>(l: Layer<K, C>, k: K, c: C, sid: nat)
    requires k in l.streams && |l.streams[k].rxSlots| > 0 && c in l.channels && !l.failed
    ensures Step(l, AttachRx(k, 0, c, sid, 1)) == RxAttach(l, k, 0, c, sid, 1)
  {}

  lemma NotTripped<K, C>(l: Layer<K, C>, k: K, c: C, sid: nat)
    requires c in l.channels && sid !in l.channels[c].rxSids
    ensures !Trips(l, AttachRx(k, 0, c, sid, 1))
  {}

  lemma TripsHere<K, C>(l: Layer<K, C>, r: Layer<K, C>, k: K, m: K, c: C, sid: nat)
    requires SameHistory(l, r) && !r.failed && m in l.streams && m != k && |l.streams[m].rxSlots| > 0
    requires c in r.channels && sid in r.channels[c].rxSids && r.channels[c].rxSids[sid] == (k, 0)
    ensures Trips(r, AttachRx(m, 0, c, sid, 2))
  {}

  /** It can happen from the start: two streams of the peer attach under id 5, as when an id is used again. */
  lemma AttachOnTakenId()
    ensures Play(Initial(map[0 := 0, 1 := 0], {7}), [AttachRx(0, 0, 7, 5, 1), AttachRx(1, 0, 7, 5, 2)]).failed
  {
    var l: Layer<int, int> := Initial(map[0 := 0, 1 := 0], {7});
    InitialHealthy<int, int>(map[0 := 0, 1 := 0], {7});
    hide Healthy, Play;
    assert l.streams[0] == FreshStream(0) && l.streams[1] == FreshStream(0) && l.channels[7] == FreshChannel();
    SecondAttachTrips(l, 0, 1, 7, 5);
  }

  /** Later in a run: nothing sent is unsent, and stream counters have only grown. */
  lemma {:induction false} PlayAdvances<K, C>(l: Layer<K, C>, ops: seq<Op<K, C>>)
    requires Sound(l)
    ensures Sound(Play(l, ops)) && Advanced(l, Play(l, ops))
    decreases |ops|
  {
    hide Sound, Step, Advanced;
    if ops == [] {
      AdvancedSelf(l);
    } else {
      PlayAdvances(l, ops[..|ops| - 1]);
      StepSound(Play(l, ops[..|ops| - 1]), ops[|ops| - 1]);
      AdvancedThen(l, Play(l, ops[..|ops| - 1]), Play(l, ops));
    }
  }

  /** Two attachments to one channel, however far apart in a run, take different stream counters. */
  lemma CountersUnique<K, C>(l: Layer<K, C>, k: K, c: C, ops: seq<Op<K, C>>)
    requires Healthy(l) && k in l.streams && c in l.channels && AttachFor(l, k, c) != l
    ensures c in Play(AttachFor(l, k, c), ops).channels && AllocateSid(l.channels[c]).Some?
    ensures AllocateSid(Play(AttachFor(l, k, c), ops).channels[c]).Some? ==>
              AllocateSid(Play(AttachFor(l, k, c), ops).channels[c]).value > AllocateSid(l.channels[c]).value
  {
    hide Inv, Homed, ReceiveOk, Step, AttachFor, Sound;
    AttachForKeeps(l, k, c);
    AttachForHomes(l, k, c);
    SoundIsHealthy(AttachFor(l, k, c));
    PlayAdvances(AttachFor(l, k, c), ops);
  }

  // ---------------------------------------------------------------- what a sound host gives

  lemma SoundChannel<K, C>(l: Layer<K, C>, c: C)
    requires Sound(l) && c in l.channels
    ensures ChannelOk(l, c)
  {
    assert ChannelOk(l.(failed := false), c);
  }

  lemma SoundStream<K, C>(l: Layer<K, C>, k: K)
    requires Sound(l) && k in l.streams
    ensures StreamOk(k, l.streams[k])
    ensures forall p :: p in l.streams[k].waiting ==> Held(l, k, p)
  {
    var u := l.(failed := false);
    assert StreamOk(k, u.streams[k]);
    forall p | p in l.streams[k].waiting ensures Held(l, k, p) {
      assert Held(u, k, p);
      if !InQueue(l.streams[k].queue, p) {
        var c :| c in u.channels && Outstanding(u.channels[c], k, p);
        assert c in l.channels && Outstanding(l.channels[c], k, p);
      }
    }
  }
}
