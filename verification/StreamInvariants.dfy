/** What every step of the sending side keeps: attachment tables, the sending queues and the frames themselves. */
module StreamInvariants {
  import opened Options
  import opened Segments
  import opened StreamLayer

  // ---------------------------------------------------------------- attachment tables

  /** A slot is in use exactly when it is the current one. */
  ghost predicate SlotsOk<K, C>(s: Stream<K, C>) {
    && |s.slots| == 2
    && (s.current.Some? ==> s.current.value < 2)
    && (forall i :: 0 <= i < 2 ==> (s.slots[i].InUse() <==> s.current == Some(i)))
  }

  ghost predicate TablesOk<K, C>(l: Layer<K, C>) {
    && (forall k :: k in l.streams ==> SlotsOk(l.streams[k]))
    && (forall c, sid :: c in l.channels && sid in l.channels[c].txSids ==> SidAgrees(l, c, sid))
    && (forall k, i :: k in l.streams && 0 <= i < |l.streams[k].slots| && l.streams[k].slots[i].InUse()
          ==> SlotAgrees(l, k, i))
  }

  /** The table entry names a slot attached to this channel under this id. */
  ghost predicate SidAgrees<K, C>(l: Layer<K, C>, c: C, sid: nat)
    requires c in l.channels && sid in l.channels[c].txSids
  {
    var (k, i) := l.channels[c].txSids[sid];
    l.On(k, i, c) && l.streams[k].slots[i].sid == sid
  }

  /** The slot is listed in its channel's table under its id. */
  ghost predicate SlotAgrees<K, C>(l: Layer<K, C>, k: K, i: nat)
    requires k in l.streams && i < |l.streams[k].slots| && l.streams[k].slots[i].InUse()
  {
    var slot := l.streams[k].slots[i];
    var c := slot.channel.value;
    c in l.channels && slot.sid in l.channels[c].txSids && l.channels[c].txSids[slot.sid] == (k, i)
  }

  /** The code relies on this when it transmits: an acknowledged attachment is active and past init. */
  ghost predicate ActiveOk<K, C>(l: Layer<K, C>) {
    forall k :: k in l.streams ==> SlotActive(l.streams[k])
  }

  ghost predicate SlotActive<K, C>(s: Stream<K, C>) {
    forall i :: 0 <= i < |s.slots| && s.slots[i].InUse() && s.slots[i].Acknowledged() ==> s.slots[i].active && !s.init
  }

  // ---------------------------------------------------------------- sending queues

  ghost predicate Distinct<K>(line: seq<K>) {
    forall i, j :: 0 <= i < j < |line| ==> line[i] != line[j]
  }

  ghost predicate Ascending<K, C>(l: Layer<K, C>, line: seq<K>) {
    && (forall i :: 0 <= i < |line| ==> line[i] in l.streams)
    && (forall i, j :: 0 <= i < j < |line| ==> l.streams[line[i]].priority <= l.streams[line[j]].priority)
  }

  ghost predicate LineOk<K, C>(l: Layer<K, C>, c: C)
    requires c in l.channels
  {
    var line := l.channels[c].sending;
    && Distinct(line) && Ascending(l, line)
    && (forall i :: 0 <= i < |line| ==> l.streams[line[i]].enqueued && l.Current(line[i]) == Some(c))
  }

  ghost predicate EnqueuedOk<K, C>(l: Layer<K, C>, k: K)
    requires k in l.streams
  {
    l.streams[k].enqueued ==>
      && l.streams[k].queue != []
      && l.Current(k).Some? && l.Current(k).value in l.channels
      && k in l.channels[l.Current(k).value].sending
  }

  /** Each queue is ascending in priority value and holds each stream once, and only when it is enqueued. */
  ghost predicate ScheduleOk<K, C>(l: Layer<K, C>) {
    && (forall c :: c in l.channels ==> LineOk(l, c))
    && (forall k :: k in l.streams ==> EnqueuedOk(l, k))
  }

  // ---------------------------------------------------------------- frames

  ghost predicate Sorted<K>(queue: seq<Frame<K>>) {
    forall i, j :: 0 <= i < j < |queue| ==> queue[i].seg.pos <= queue[j].seg.pos
  }

  /** A data frame carries a segment its stream cut. */
  ghost predicate FrameOk<K, C>(k: K, s: Stream<K, C>, f: Frame<K>) {
    f.owner == k && (f.kind == Data ==> f.seg.pos in s.segments && s.segments[f.seg.pos] == f.seg)
  }

  ghost function SizeOf(segments: map<nat, Segment>, at: set<nat>): nat
    requires at <= segments.Keys
  {
    if at == {} then 0
    else
      var p :| p in at;
      |segments[p].data| + SizeOf(segments, at - {p})
  }

  lemma {:induction false} SizeWithout(segments: map<nat, Segment>, at: set<nat>, p: nat)
    requires at <= segments.Keys && p in at
    ensures SizeOf(segments, at) == |segments[p].data| + SizeOf(segments, at - {p})
    decreases at
  {
    var q :| q in at && SizeOf(segments, at) == |segments[q].data| + SizeOf(segments, at - {q});
    if q != p {
      SizeWithout(segments, at - {q}, p);
      SizeWithout(segments, at - {p}, q);
      assert at - {q} - {p} == at - {p} - {q};
    }
  }

  lemma {:induction false} SizeExtend(segments: map<nat, Segment>, longer: map<nat, Segment>, at: set<nat>)
    requires at <= segments.Keys && at <= longer.Keys && forall p :: p in at ==> longer[p] == segments[p]
    ensures SizeOf(longer, at) == SizeOf(segments, at)
    decreases at
  {
    if at != {} {
      var p :| p in at;
      SizeWithout(segments, at, p);
      SizeWithout(longer, at, p);
      SizeExtend(segments, longer, at - {p});
    }
  }

  ghost predicate SegmentsOk<K, C>(s: Stream<K, C>) {
    forall p :: p in s.segments ==>
      s.segments[p].pos == p && s.segments[p].data != [] && s.segments[p].End() <= s.byteSeq
  }

  ghost predicate StreamOk<K, C>(k: K, s: Stream<K, C>) {
    && Sorted(s.queue)
    && (forall j :: 0 <= j < |s.queue| ==> FrameOk(k, s, s.queue[j]) && s.queue[j].kind != Attach)
    && SegmentsOk(s)
    && s.waiting <= s.segments.Keys && s.waitingSize == SizeOf(s.segments, s.waiting)
  }

  ghost predicate ChannelOk<K, C>(l: Layer<K, C>, c: C)
    requires c in l.channels
  {
    var ch := l.channels[c];
    && (forall n :: n in ch.sent ==>
          n < ch.txSeq && !ch.sent[n].late && ch.sent[n].owner in l.streams
          && FrameOk(ch.sent[n].owner, l.streams[ch.sent[n].owner], ch.sent[n]))
    && (forall n :: n in ch.waitingAck ==> n in ch.sent && ch.waitingAck[n] == ch.sent[n])
    && (forall n :: n in ch.missed ==> n < ch.txSeq)
  }

  ghost predicate FramesOk<K, C>(l: Layer<K, C>) {
    && (forall k :: k in l.streams ==> StreamOk(k, l.streams[k]))
    && (forall c :: c in l.channels ==> ChannelOk(l, c))
  }

  ghost predicate InQueue<K>(queue: seq<Frame<K>>, p: nat) {
    exists j :: 0 <= j < |queue| && queue[j].kind == Data && queue[j].seg.pos == p
  }

  /** A table entry for the segment that was never reported missed. */
  ghost predicate Outstanding<K>(ch: Channel<K>, k: K, p: nat) {
    exists n :: n in ch.waitingAck && n !in ch.missed
      && ch.waitingAck[n].kind == Data && ch.waitingAck[n].owner == k && ch.waitingAck[n].seg.pos == p
  }

  ghost predicate OnChannel<K, C>(l: Layer<K, C>, k: K, p: nat) {
    exists c :: c in l.channels && Outstanding(l.channels[c], k, p)
  }

  ghost predicate Held<K, C>(l: Layer<K, C>, k: K, p: nat)
    requires k in l.streams
  {
    InQueue(l.streams[k].queue, p) || OnChannel(l, k, p)
  }

  /** Conservation: every unacknowledged segment is queued or outstanding on some channel. */
  ghost predicate Conserved<K, C>(l: Layer<K, C>) {
    forall k, p :: k in l.streams && p in l.streams[k].waiting ==> Held(l, k, p)
  }

  ghost predicate Inv<K, C>(l: Layer<K, C>) {
    !l.failed && TablesOk(l) && ActiveOk(l) && ScheduleOk(l) && FramesOk(l) && Conserved(l)
  }
}
