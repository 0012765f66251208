/**
 The sending side of a host on values: streams that cut writes into frames, and channels that carry them,
 remember them until they are acknowledged, and schedule the streams. `K` names streams, `C` channels.
 Assertions of the source set `failed`; StreamRuns says exactly when one can fail.
 */
module StreamLayer {
  import opened Options
  import opened Segments

  /** Kinds of frame a stream puts on a channel. */
  datatype Kind = Data | Attach | Datagram

  datatype Frame<K> = Frame(owner: K, kind: Kind, seg: Segment, late: bool)

  /** A transmit attachment point; `sidSeq` is None until the attachment is acknowledged. */
  datatype TxSlot<C> = TxSlot(channel: Option<C>, sid: nat, sidSeq: Option<nat>, active: bool) {
    predicate InUse() { channel.Some? }
    predicate Acknowledged() { sidSeq.Some? }
  }

  datatype RxSlot<C> = RxSlot(channel: Option<C>, sid: nat, sidSeq: nat)

  datatype Stream<K, C> = Stream(
    byteSeq: nat,                 // next byte position to assign
    queue: seq<Frame<K>>,         // frames to transmit
    waiting: set<nat>,            // positions of segments not yet acknowledged
    waitingSize: int,
    enqueued: bool,               // in the sending queue of the channel of `current`
    slots: seq<TxSlot<C>>,
    rxSlots: seq<RxSlot<C>>,
    current: Option<nat>,         // slot used for transmission
    init: bool,                   // no attachment acknowledged yet
    priority: nat,
    piggyback: bool,              // an attach frame may carry data to the channel at hand
    segments: map<nat, Segment>)  // history: every segment cut, by position

  datatype Channel<K> = Channel(
    txSids: map<nat, (K, nat)>,
    rxSids: map<nat, (K, nat)>,
    sidCounter: nat,
    sidAcked: nat,
    sending: seq<K>,
    waitingAck: map<nat, Frame<K>>,
    txSeq: nat,
    allowance: nat,               // packets flow control lets out now (may_transmit)
    missed: set<nat>,             // history: sequence numbers reported missed
    sent: map<nat, Frame<K>>)     // history: every packet put on the wire

  datatype Layer<K(==), C(==)> = Layer(streams: map<K, Stream<K, C>>, channels: map<C, Channel<K>>, failed: bool) {

    predicate On(k: K, i: nat, c: C) {
      k in streams && i < |streams[k].slots| && streams[k].slots[i].channel == Some(c)
    }

    /** The channel the stream transmits on. */
    function Current(k: K): Option<C>
      requires k in streams
    {
      var s := streams[k];
      if s.current.Some? && s.current.value < |s.slots| then s.slots[s.current.value].channel else None
    }

    function Check(b: bool): Layer<K, C> { this.(failed := failed || !b) }

    function SetStream(k: K, s: Stream<K, C>): Layer<K, C> { this.(streams := streams[k := s]) }

    function SetChannel(c: C, ch: Channel<K>): Layer<K, C> { this.(channels := channels[c := ch]) }
  }

  const ATTACH_SEGMENT: Segment := Segment(0, [], Flags(false, false, false))

  // ---------------------------------------------------------------- sending queue

  /** First place whose stream has at least this priority value. */
  function PriorityIndex<K(==), C(==)>(l: Layer<K, C>, sending: seq<K>, priority: nat): (i: nat)
    ensures i <= |sending|
  {
    if sending == [] || (sending[0] in l.streams && l.streams[sending[0]].priority >= priority) then 0
    else 1 + PriorityIndex(l, sending[1..], priority)
  }

  function Without<K(==)>(sending: seq<K>, k: K): seq<K> {
    if sending == [] then []
    else if sending[0] == k then Without(sending[1..], k)
    else [sending[0]] + Without(sending[1..], k)
  }

  /** enqueue_stream */
  function EnqueueStream<K(==), C(==)>(l: Layer<K, C>, c: C, k: K): Layer<K, C>
    requires k in l.streams && c in l.channels
  {
    var ch := l.channels[c];
    var i := PriorityIndex(l, ch.sending, l.streams[k].priority);
    l.SetChannel(c, ch.(sending := ch.sending[..i] + [k] + ch.sending[i..]))
  }

  /** dequeue_stream */
  function DequeueStream<K(==), C(==)>(l: Layer<K, C>, c: C, k: K): Layer<K, C>
    requires c in l.channels
  {
    l.SetChannel(c, l.channels[c].(sending := Without(l.channels[c].sending, k)))
  }

  /** tx_enqueue_channel(false); on a detached stream attach_for_transmit does nothing by itself. */
  function Link<K(==), C(==)>(l: Layer<K, C>, k: K): Layer<K, C>
    requires k in l.streams
  {
    match l.Current(k)
    case None => l
    case Some(c) =>
      if c !in l.channels then l.Check(false)
      else if l.streams[k].enqueued || l.streams[k].queue == [] then l
      else
        var l' := EnqueueStream(l, c, k);
        l'.SetStream(k, l'.streams[k].(enqueued := true))
  }

  // ---------------------------------------------------------------- transmission

  /** transmit: assign the next sequence number. */
  function Transmit<K(==), C(==)>(l: Layer<K, C>, c: C, f: Frame<K>): Layer<K, C>
    requires c in l.channels
  {
    var ch := l.channels[c];
    l.SetChannel(c, ch.(
      txSeq := ch.txSeq + 1,
      allowance := if ch.allowance > 0 then ch.allowance - 1 else 0,
      sent := ch.sent[ch.txSeq := f],
      waitingAck := ch.waitingAck[ch.txSeq := f]))
  }

  /** Leading data frames that were acknowledged in the meantime are dropped. */
  function DropAcked<K>(queue: seq<Frame<K>>, waiting: set<nat>): seq<Frame<K>> {
    if queue != [] && queue[0].kind == Data && queue[0].seg.pos !in waiting then DropAcked(queue[1..], waiting)
    else queue
  }

  /** tx_data on the head of the queue, then back in line if there is more. */
  function SendHead<K(==), C(==)>(l: Layer<K, C>, c: C, k: K): Layer<K, C>
    requires k in l.streams && c in l.channels && l.streams[k].queue != []
  {
    var s := l.streams[k];
    var l1 := l.SetStream(k, s.(queue := s.queue[1..]));
    var l2 := Transmit(l1, c, s.queue[0].(late := false));
    Link(l2, k)
  }

  /** One transmission used up allowance, or put nothing back in line. */
  predicate Progress<K(==)>(before: Channel<K>, after: Channel<K>, line: seq<K>) {
    after.allowance < before.allowance || after.allowance == 0
    || (after.allowance == before.allowance && after.sending == line)
  }

  /** The state in which transmit_on may be called. */
  predicate CanTransmit<K(==), C(==)>(l: Layer<K, C>, c: C, k: K) {
    k in l.streams && c in l.channels && l.streams[k].enqueued && l.Current(k) == Some(c) && l.streams[k].queue != []
  }

  /** transmit_on, called on the stream that was just taken from the front of the sending queue. */
  function TransmitOn<K(==), C(==)>(l: Layer<K, C>, c: C, k: K): (r: Layer<K, C>)
    ensures c in l.channels ==> c in r.channels && Progress(l.channels[c], r.channels[c], l.channels[c].sending)
  {
    if !CanTransmit(l, c, k) then l.Check(false)
    else
      var s := l.streams[k];
      var t := s.(enqueued := false, queue := DropAcked(s.queue, s.waiting));
      var l1 := l.SetStream(k, t);
      if t.queue == [] then l1
      else
        var slot, head := t.slots[t.current.value], t.queue[0];
        if slot.Acknowledged() then
          SendHead(l1.Check(!t.init && slot.active), c, k)
        else if head.kind == Data && head.seg.pos <= 0xffff && t.piggyback then
          SendHead(l1, c, k)
        else
          Transmit(l1, c, Frame(k, Attach, ATTACH_SEGMENT, false))
  }

  /** One pass of the loop in got_ready_transmit. */
  function ServeFront<K(==), C(==)>(l: Layer<K, C>, c: C): (r: Layer<K, C>)
    requires c in l.channels && l.channels[c].sending != []
    ensures c in r.channels && Progress(l.channels[c], r.channels[c], l.channels[c].sending[1..])
  {
    var ch := l.channels[c];
    TransmitOn(l.SetChannel(c, ch.(sending := ch.sending[1..])), c, ch.sending[0])
  }

  /** The do-while loop of got_ready_transmit. */
  function Serve<K(==), C(==)>(l: Layer<K, C>, c: C): Layer<K, C>
    requires c in l.channels && l.channels[c].sending != []
    decreases l.channels[c].allowance, |l.channels[c].sending|
  {
    var r := ServeFront(l, c);
    if r.channels[c].sending != [] && r.channels[c].allowance > 0 then Serve(r, c) else r
  }

  /** got_ready_transmit */
  function GotReady<K(==), C(==)>(l: Layer<K, C>, c: C): Layer<K, C>
    requires c in l.channels
  {
    if l.channels[c].sending == [] then l else Serve(l, c)
  }

  /** tx_enqueue_channel(true): get in line and transmit at once if flow control allows. */
  function LinkNow<K(==), C(==)>(l: Layer<K, C>, k: K): Layer<K, C>
    requires k in l.streams
  {
    var r := Link(l, k);
    match r.Current(k)
    case None => r
    case Some(c) => if c in r.channels && r.channels[c].allowance > 0 then GotReady(r, c) else r
  }

  // ---------------------------------------------------------------- stream queue

  /** Number of leading frames that stay before a new frame at `pos`. */
  function QueueIndex<K>(queue: seq<Frame<K>>, pos: nat): (i: nat)
    ensures i <= |queue|
  {
    if queue == [] || queue[0].seg.pos > pos then 0 else 1 + QueueIndex(queue[1..], pos)
  }

  function InsertFrame<K>(queue: seq<Frame<K>>, f: Frame<K>): seq<Frame<K>> {
    var i := QueueIndex(queue, f.seg.pos);
    queue[..i] + [f] + queue[i..]
  }

  /** tx_enqueue_packet */
  function EnqueueFrame<K(==), C(==)>(l: Layer<K, C>, k: K, f: Frame<K>): Layer<K, C>
    requires k in l.streams
  {
    var s := l.streams[k];
    LinkNow(l.SetStream(k, s.(queue := InsertFrame(s.queue, f))), k)
  }

  /** The part of write_data before the segment is queued. */
  function RecordSegment<K, C>(s: Stream<K, C>, seg: Segment): Stream<K, C> {
    s.(byteSeq := s.byteSeq + |seg.data|,
       waiting := s.waiting + {seg.pos},
       waitingSize := s.waitingSize + |seg.data|,
       segments := s.segments[seg.pos := seg])
  }

  /** One iteration of write_data. */
  function WriteSegment<K(==), C(==)>(l: Layer<K, C>, k: K, seg: Segment): Layer<K, C>
    requires k in l.streams
  {
    EnqueueFrame(l.SetStream(k, RecordSegment(l.streams[k], seg)), k, Frame(k, Data, seg, false))
  }

  // ---------------------------------------------------------------- acknowledgment, loss, expiry

  /** Packets a stream is told about: set_active on the first ack of an attachment. */
  function Activate<K(==), C(==)>(l: Layer<K, C>, c: C, k: K, rxSeq: nat): Layer<K, C>
    requires k in l.streams
  {
    var s := l.streams[k];
    if l.Current(k) != Some(c) || s.slots[s.current.value].Acknowledged() then l
    else
      var i := s.current.value;
      var slot := s.slots[i].(sidSeq := Some(rxSeq), active := true);
      Link(l.SetStream(k, s.(slots := s.slots[i := slot], init := false)), k)
  }

  /** base_stream::acknowledged */
  function StreamAcknowledged<K(==), C(==)>(l: Layer<K, C>, c: C, f: Frame<K>, rxSeq: nat): Layer<K, C>
    requires f.owner in l.streams
  {
    var k, s := f.owner, l.streams[f.owner];
    match f.kind
    case Data =>
      var done := f.seg.pos in s.waiting;
      var t := if done then s.(waiting := s.waiting - {f.seg.pos}, waitingSize := s.waitingSize - |f.seg.data|) else s;
      Activate(l.SetStream(k, t).Check(t.waitingSize >= 0), c, k, rxSeq)
    case Attach => Activate(l, c, k, rxSeq)
    case Datagram => l
  }

  function Forget<K(==), C(==)>(l: Layer<K, C>, c: C, seqs: set<nat>): Layer<K, C>
    requires c in l.channels
  {
    l.SetChannel(c, l.channels[c].(waitingAck := l.channels[c].waitingAck - seqs))
  }

  /** stream_channel::acknowledged for one packet */
  function Acknowledged<K(==), C(==)>(l: Layer<K, C>, c: C, seqNo: nat, rxSeq: nat): Layer<K, C>
    requires c in l.channels
  {
    if seqNo !in l.channels[c].waitingAck then l
    else
      var f := l.channels[c].waitingAck[seqNo];
      var l1 := Forget(l, c, {seqNo});
      if f.owner in l1.streams then StreamAcknowledged(l1, c, f, rxSeq) else l1.Check(false)
  }

  /** base_stream::missed; true tells the channel to keep the packet until it expires. */
  function StreamMissed<K(==), C(==)>(l: Layer<K, C>, f: Frame<K>): (Layer<K, C>, bool)
    requires f.owner in l.streams
  {
    match f.kind
    case Data => (EnqueueFrame(l, f.owner, f), true)
    case Attach => (Link(l, f.owner), true)
    case Datagram => (l, false)
  }

  /**
   stream_channel::missed for one packet. The source marks a copy of the table entry late, so the entry
   itself keeps `late == false`.
   */
  function Missed<K(==), C(==)>(l: Layer<K, C>, c: C, seqNo: nat): Layer<K, C>
    requires c in l.channels
  {
    if seqNo !in l.channels[c].waitingAck then l
    else
      var f := l.channels[c].waitingAck[seqNo];
      if f.late then l
      else if f.owner !in l.streams then l.Check(false)
      else
        var ch := l.channels[c];
        var (r, keep) := StreamMissed(l.SetChannel(c, ch.(missed := ch.missed + {seqNo})), f.(late := true));
        if keep || c !in r.channels then r else Forget(r, c, {seqNo})
  }

  /** stream_channel::expire for one packet */
  function Expire<K(==), C(==)>(l: Layer<K, C>, c: C, seqNo: nat): Layer<K, C>
    requires c in l.channels
  {
    Forget(l, c, {seqNo})
  }

  // ---------------------------------------------------------------- attachments

  /** First stream counter at or after `sid` whose 16-bit id is free; None when `tries` are used up. */
  function FreeCounter<V>(txSids: map<nat, V>, sid: nat, tries: int): (r: Option<nat>)
    ensures r.Some? ==> r.value >= sid && Sid16(r.value) !in txSids
    decreases if tries > 0 then tries else 0
  {
    if Sid16(sid) !in txSids then Some(sid)
    else if tries <= 0 then None
    else FreeCounter(txSids, sid + 1, tries - 1)
  }

  /** A local stream id is the low 16 bits of a stream counter. */
  function Sid16(counter: nat): nat { counter % 0x1_0000 }

  const MAX_SID_SKIP: int := 16

  /** How many taken ids the search may pass before it gives up. */
  function SearchBound(counter: nat, acked: nat): int {
    var tries := 0x7ff0 - (counter - acked);
    if tries < MAX_SID_SKIP then tries else MAX_SID_SKIP
  }

  /** allocate_transmit_sid; None where the source gives up with a fatal error. */
  function AllocateSid<K>(ch: Channel<K>): Option<nat> {
    FreeCounter(ch.txSids, ch.sidCounter, SearchBound(ch.sidCounter, ch.sidAcked))
  }

  /** First slot not in use. */
  function FreeSlot<C>(slots: seq<TxSlot<C>>): (i: nat)
    ensures i <= |slots| && (i < |slots| ==> !slots[i].InUse())
  {
    if slots == [] || !slots[0].InUse() then 0 else 1 + FreeSlot(slots[1..])
  }

  /** The body of attach_for_transmit once a channel is there: take a free id and slot and get in line. */
  function AttachFor<K(==), C(==)>(l: Layer<K, C>, k: K, c: C): Layer<K, C>
    requires k in l.streams && c in l.channels
  {
    var s, ch := l.streams[k], l.channels[c];
    var i := FreeSlot(s.slots);
    match AllocateSid(ch)
    case None => l
    case Some(counter) =>
      if s.current.Some? || i == |s.slots| then l
      else
        var sid := Sid16(counter);
        var slot := TxSlot(Some(c), sid, None, false);
        var l1 := l.SetStream(k, s.(slots := s.slots[i := slot], current := Some(i)))
                   .SetChannel(c, ch.(txSids := ch.txSids[sid := (k, i)], sidCounter := counter + 1))
                   .Check(sid !in ch.txSids && k !in ch.sending);
        LinkNow(l1, k)
  }

  /** stream_tx_attachment::clear up to the packets in waiting_ack_. */
  function Unlink<K(==), C(==)>(l: Layer<K, C>, k: K, i: nat): Layer<K, C>
    requires k in l.streams && i < |l.streams[k].slots| && l.streams[k].slots[i].InUse()
    requires l.streams[k].slots[i].channel.value in l.channels
  {
    var s := l.streams[k];
    var slot, c := s.slots[i], s.slots[i].channel.value;
    var ch := l.channels[c];
    var l1 := l.Check(slot.sid in ch.txSids && ch.txSids[slot.sid] == (k, i));
    var l2 := l1.SetStream(k, s.(
      current := if s.current == Some(i) then None else s.current,
      slots := s.slots[i := slot.(channel := None, active := false)],
      enqueued := false));
    l2.SetChannel(c, ch.(txSids := ch.txSids - {slot.sid}, sending := Without(ch.sending, k)))
  }

  /** Return a packet of a detached stream to it: what clear and detach_all do with one table entry. */
  function GiveBack<K(==), C(==)>(l: Layer<K, C>, f: Frame<K>): Layer<K, C>
    requires f.owner in l.streams
  {
    if f.late then l else StreamMissed(l, f.(late := true)).0
  }

  /** The loop of clear over a copy of waiting_ack_, visiting `order`. */
  function Reclaim<K(==), C(==)>(l: Layer<K, C>, c: C, k: K, copy: map<nat, Frame<K>>, order: seq<nat>): Layer<K, C>
    requires k in l.streams && c in l.channels && forall n :: n in order ==> n in copy
    decreases |order|
  {
    if order == [] then l
    else
      var f := copy[order[0]];
      if f.owner != k then Reclaim(l, c, k, copy, order[1..])
      else
        var r := GiveBack(l, f);
        if k in r.streams && c in r.channels then Reclaim(Forget(r, c, {order[0]}), c, k, copy, order[1..])
        else r.Check(false)
  }

  /** `order` lists every key of the map once: some order in which a hash map may be walked. */
  predicate Walks<V>(order: seq<nat>, m: map<nat, V>) {
    && (forall n :: n in order ==> n in m)
    && (forall n :: n in m ==> n in order)
    && (forall i, j :: 0 <= i < j < |order| ==> order[i] != order[j])
  }

  /** stream_tx_attachment::clear */
  function Clear<K(==), C(==)>(l: Layer<K, C>, k: K, i: nat, order: seq<nat>): Layer<K, C>
    requires k in l.streams && i < |l.streams[k].slots|
  {
    match l.streams[k].slots[i].channel
    case None => l
    case Some(c) =>
      if c !in l.channels then l.Check(false)
      else if !Walks(order, l.channels[c].waitingAck) then l
      else Reclaim(Unlink(l, k, i), c, k, l.channels[c].waitingAck, order)
  }

  /** set_priority */
  function SetPriority<K(==), C(==)>(l: Layer<K, C>, k: K, priority: nat): Layer<K, C>
    requires k in l.streams
  {
    var s := l.streams[k];
    if s.priority == priority then l
    else
      var l1 := l.SetStream(k, s.(priority := priority));
      if !s.enqueued then l1
      else
        match l1.Current(k)
        case None => l1.Check(false)
        case Some(c) => if c in l1.channels then EnqueueStream(DequeueStream(l1, c, k), c, k) else l1.Check(false)
  }

  // ---------------------------------------------------------------- receive attachments

  /** stream_rx_attachment::set_active */
  function RxSetActive<K(==), C(==)>(l: Layer<K, C>, k: K, i: nat, c: C, sid: nat, seqNo: nat): Layer<K, C>
    requires k in l.streams && i < |l.streams[k].rxSlots| && c in l.channels
  {
    var s, ch := l.streams[k], l.channels[c];
    var ok := s.rxSlots[i].channel.None? && sid !in ch.rxSids;
    l.SetStream(k, s.(rxSlots := s.rxSlots[i := RxSlot(Some(c), sid, seqNo)]))
     .SetChannel(c, ch.(rxSids := if sid in ch.rxSids then ch.rxSids else ch.rxSids[sid := (k, i)]))
     .Check(ok)
  }

  /** stream_rx_attachment::clear */
  function RxClear<K(==), C(==)>(l: Layer<K, C>, k: K, i: nat): Layer<K, C>
    requires k in l.streams && i < |l.streams[k].rxSlots|
  {
    var s := l.streams[k];
    var slot := s.rxSlots[i];
    match slot.channel
    case None => l
    case Some(c) =>
      if c !in l.channels then l.Check(false)
      else
        var ch := l.channels[c];
        l.SetStream(k, s.(rxSlots := s.rxSlots[i := slot.(channel := None)]))
         .SetChannel(c, ch.(rxSids := ch.rxSids - {slot.sid}))
         .Check(slot.sid in ch.rxSids && ch.rxSids[slot.sid] == (k, i))
  }

  /** An attach packet for a known stream: redundant, or it replaces what the slot held. */
  function RxAttach<K(==), C(==)>(l: Layer<K, C>, k: K, i: nat, c: C, sid: nat, seqNo: nat): Layer<K, C>
    requires k in l.streams && i < |l.streams[k].rxSlots| && c in l.channels
  {
    var s := l.streams[k];
    var slot := s.rxSlots[i];
    if slot.channel == Some(c) && slot.sid == sid then
      var first := if slot.sidSeq < seqNo then slot.sidSeq else seqNo;
      l.SetStream(k, s.(rxSlots := s.rxSlots[i := slot.(sidSeq := first)]))
    else
      var l1 := RxClear(l, k, i);
      if k in l1.streams && i < |l1.streams[k].rxSlots| && c in l1.channels then RxSetActive(l1, k, i, c, sid, seqNo)
      else l1.Check(false)
  }

  // ---------------------------------------------------------------- a channel going down

  /** One pass over a copy of transmit_sids_: the id, and the order in which clear walks the packets. */
  datatype SidWalk = SidWalk(sid: nat, order: seq<nat>)

  /** Clear the attachments of `walk`, as stop and detach_all do. */
  function ClearSids<K(==), C(==)>(l: Layer<K, C>, c: C, copy: map<nat, (K, nat)>, walk: seq<SidWalk>): Layer<K, C>
    requires forall w :: w in walk ==> w.sid in copy
    decreases |walk|
  {
    if walk == [] then l
    else
      var (k, i) := copy[walk[0].sid];
      if l.On(k, i, c) then ClearSids(Clear(l, k, i, walk[0].order), c, copy, walk[1..])
      else l.Check(false)
  }

  function RxClearSids<K(==), C(==)>(l: Layer<K, C>, c: C, copy: map<nat, (K, nat)>, walk: seq<nat>): Layer<K, C>
    requires forall sid :: sid in walk ==> sid in copy
    decreases |walk|
  {
    if walk == [] then l
    else
      var (k, i) := copy[walk[0]];
      if k in l.streams && i < |l.streams[k].rxSlots| && l.streams[k].rxSlots[i].channel == Some(c)
      then RxClearSids(RxClear(l, k, i), c, copy, walk[1..])
      else l.Check(false)
  }

  /** stream_channel::stop */
  function Stop<K(==), C(==)>(l: Layer<K, C>, c: C, walk: seq<SidWalk>, rxWalk: seq<nat>): Layer<K, C>
    requires c in l.channels && (forall w :: w in walk ==> w.sid in l.channels[c].txSids)
  {
    var r := ClearSids(l, c, l.channels[c].txSids, walk);
    if c in r.channels && (forall sid :: sid in rxWalk ==> sid in r.channels[c].rxSids)
    then RxClearSids(r, c, r.channels[c].rxSids, rxWalk)
    else r
  }

  /** The loop at the end of detach_all. */
  function GiveAllBack<K(==), C(==)>(l: Layer<K, C>, copy: map<nat, Frame<K>>, order: seq<nat>): Layer<K, C>
    requires forall n :: n in order ==> n in copy
    decreases |order|
  {
    if order == [] then l
    else if copy[order[0]].owner !in l.streams then l.Check(false)
    else GiveAllBack(GiveBack(l, copy[order[0]]), copy, order[1..])
  }

  /** stream_channel::detach_all */
  function DetachAll<K(==), C(==)>(l: Layer<K, C>, c: C, walk: seq<SidWalk>, order: seq<nat>): Layer<K, C>
    requires c in l.channels && (forall w :: w in walk ==> w.sid in l.channels[c].txSids)
    requires forall n :: n in order ==> n in l.channels[c].waitingAck
  {
    var ch := l.channels[c];
    var r := ClearSids(l.SetChannel(c, ch.(waitingAck := map[])), c, ch.txSids, walk);
    if c in r.channels then GiveAllBack(r.Check(r.channels[c].txSids == map[]), ch.waitingAck, order)
    else r.Check(false)
  }
}
