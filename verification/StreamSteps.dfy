/** Each step of the sending side keeps the invariant. */
module StreamSteps {
  import opened Options
  import opened Segments
  import opened StreamLayer
  import opened StreamInvariants

  // ---------------------------------------------------------------- framing

  ghost predicate SameShape<K, C>(l: Layer<K, C>, r: Layer<K, C>) {
    && r.streams.Keys == l.streams.Keys && r.channels.Keys == l.channels.Keys
    && (forall k :: k in l.streams ==>
          r.streams[k].slots == l.streams[k].slots && r.streams[k].current == l.streams[k].current
          && r.streams[k].init == l.streams[k].init)
    && (forall c :: c in l.channels ==> r.channels[c].txSids == l.channels[c].txSids)
  }

  ghost predicate SameFrames<K, C>(l: Layer<K, C>, r: Layer<K, C>) {
    && r.streams.Keys == l.streams.Keys && r.channels.Keys == l.channels.Keys
    && (forall k :: k in l.streams ==>
          && r.streams[k].queue == l.streams[k].queue && r.streams[k].waiting == l.streams[k].waiting
          && r.streams[k].waitingSize == l.streams[k].waitingSize
          && r.streams[k].segments == l.streams[k].segments && r.streams[k].byteSeq == l.streams[k].byteSeq)
    && (forall c :: c in l.channels ==>
          && r.channels[c].waitingAck == l.channels[c].waitingAck && r.channels[c].sent == l.channels[c].sent
          && r.channels[c].missed == l.channels[c].missed && r.channels[c].txSeq == l.channels[c].txSeq)
  }

  ghost predicate SameSchedule<K, C>(l: Layer<K, C>, r: Layer<K, C>) {
    && r.streams.Keys == l.streams.Keys && r.channels.Keys == l.channels.Keys
    && (forall k :: k in l.streams ==>
          && r.streams[k].enqueued == l.streams[k].enqueued && r.streams[k].priority == l.streams[k].priority
          && (r.streams[k].queue == [] ==> l.streams[k].queue == [])
          && r.Current(k) == l.Current(k))
    && (forall c :: c in l.channels ==> r.channels[c].sending == l.channels[c].sending)
  }

  lemma KeepShape<K, C>(l: Layer<K, C>, r: Layer<K, C>)
    requires TablesOk(l) && ActiveOk(l) && SameShape(l, r)
    ensures TablesOk(r) && ActiveOk(r)
  {
    forall c, sid | c in r.channels && sid in r.channels[c].txSids ensures SidAgrees(r, c, sid) {
      assert SidAgrees(l, c, sid);
    }
    forall k, i | k in r.streams && 0 <= i < |r.streams[k].slots| && r.streams[k].slots[i].InUse()
      ensures SlotAgrees(r, k, i)
    {
      assert SlotAgrees(l, k, i);
    }
    forall k | k in r.streams ensures SlotsOk(r.streams[k]) && SlotActive(r.streams[k]) {
      assert SlotsOk(l.streams[k]) && SlotActive(l.streams[k]);
    }
  }

  lemma KeepFrames<K, C>(l: Layer<K, C>, r: Layer<K, C>)
    requires FramesOk(l) && Conserved(l) && SameFrames(l, r)
    ensures FramesOk(r) && Conserved(r)
  {
    forall k | k in r.streams ensures StreamOk(k, r.streams[k]) {
      assert StreamOk(k, l.streams[k]);
    }
    forall c | c in r.channels ensures ChannelOk(r, c) {
      assert ChannelOk(l, c);
    }
    forall k, p | k in r.streams && p in r.streams[k].waiting ensures Held(r, k, p) {
      assert Held(l, k, p);
      if !InQueue(l.streams[k].queue, p) {
        var c :| c in l.channels && Outstanding(l.channels[c], k, p);
        assert Outstanding(r.channels[c], k, p);
      }
    }
  }

  lemma KeepSchedule<K, C>(l: Layer<K, C>, r: Layer<K, C>)
    requires ScheduleOk(l) && SameSchedule(l, r)
    ensures ScheduleOk(r)
  {
    forall c | c in r.channels ensures LineOk(r, c) {
      assert LineOk(l, c);
    }
    forall k | k in r.streams ensures EnqueuedOk(r, k) {
      assert EnqueuedOk(l, k);
    }
  }

  // ---------------------------------------------------------------- getting in line

  /** The place found for a stream keeps the line ascending, before all streams of its own priority. */
  lemma {:induction false} PriorityIndexBounds<K, C>(l: Layer<K, C>, line: seq<K>, priority: nat)
    requires Ascending(l, line)
    ensures var i := PriorityIndex(l, line, priority);
            && (forall j :: 0 <= j < i ==> l.streams[line[j]].priority < priority)
            && (forall j :: i <= j < |line| ==> l.streams[line[j]].priority >= priority)
  {
    if line != [] && l.streams[line[0]].priority < priority {
      PriorityIndexBounds(l, line[1..], priority);
      forall j | 0 <= j < |line|
        ensures j < PriorityIndex(l, line, priority) <==> l.streams[line[j]].priority < priority
      {
        if j > 0 { assert line[j] == line[1..][j - 1]; }
      }
    }
  }

  lemma InsertAscending<K, C>(l: Layer<K, C>, line: seq<K>, k: K)
    requires Ascending(l, line) && k in l.streams
    ensures var i := PriorityIndex(l, line, l.streams[k].priority); Ascending(l, line[..i] + [k] + line[i..])
  {
    PriorityIndexBounds(l, line, l.streams[k].priority);
  }

  lemma InsertDistinct<K>(line: seq<K>, i: nat, k: K)
    requires Distinct(line) && i <= |line| && k !in line
    ensures Distinct(line[..i] + [k] + line[i..])
  {}

  /** A stream's current channel is known. */
  lemma SlotInTable<K, C>(l: Layer<K, C>, k: K)
    requires TablesOk(l) && k in l.streams && l.Current(k).Some?
    ensures l.Current(k).value in l.channels && l.streams[k].current.Some?
    ensures l.streams[k].current.value < |l.streams[k].slots|
  {
    assert SlotsOk(l.streams[k]);
    assert SlotAgrees(l, k, l.streams[k].current.value);
  }

  /** What a line needs to know of its members. */
  ghost predicate SameStanding<K, C>(l: Layer<K, C>, r: Layer<K, C>, k: K) {
    && k in l.streams && k in r.streams
    && r.streams[k].enqueued == l.streams[k].enqueued && r.streams[k].priority == l.streams[k].priority
    && r.Current(k) == l.Current(k)
  }

  lemma LineUnchanged<K, C>(l: Layer<K, C>, r: Layer<K, C>, c: C)
    requires c in l.channels && c in r.channels && LineOk(l, c)
    requires r.channels[c].sending == l.channels[c].sending
    requires forall i :: 0 <= i < |l.channels[c].sending| ==> SameStanding(l, r, l.channels[c].sending[i])
    ensures LineOk(r, c)
  {}

  function Insert<K>(line: seq<K>, i: nat, k: K): seq<K>
    requires i <= |line|
  {
    line[..i] + [k] + line[i..]
  }

  lemma LineInserted<K, C>(l: Layer<K, C>, r: Layer<K, C>, c: C, k: K)
    requires c in l.channels && c in r.channels && LineOk(l, c) && k in l.streams && k in r.streams
    requires k !in l.channels[c].sending
    requires r.channels[c].sending ==
               Insert(l.channels[c].sending, PriorityIndex(l, l.channels[c].sending, l.streams[k].priority), k)
    requires forall i :: 0 <= i < |l.channels[c].sending| ==> SameStanding(l, r, l.channels[c].sending[i])
    requires r.streams[k].enqueued && r.Current(k) == Some(c) && r.streams[k].priority == l.streams[k].priority
    ensures LineOk(r, c)
  {
    var line := l.channels[c].sending;
    var i := PriorityIndex(l, line, l.streams[k].priority);
    InsertAscending(l, line, k);
    InsertDistinct(line, i, k);
    hide Ascending, Distinct;
    var longer := r.channels[c].sending;
    forall j | 0 <= j < |longer|
      ensures longer[j] in r.streams && r.streams[longer[j]].enqueued && r.Current(longer[j]) == Some(c)
      ensures longer[j] in l.streams && r.streams[longer[j]].priority == l.streams[longer[j]].priority
    {
      InsertedFrom(line, i, k, j);
    }
    AscendingSame(l, r, longer);
  }

  /** Each member of the longer line is the new one or was there before. */
  lemma InsertedFrom<K>(line: seq<K>, i: nat, k: K, j: nat)
    requires i <= |line| && j < |Insert(line, i, k)|
    ensures if j == i then Insert(line, i, k)[j] == k
            else Insert(line, i, k)[j] == line[if j < i then j else j - 1]
  {}

  lemma AscendingSame<K, C>(l: Layer<K, C>, r: Layer<K, C>, line: seq<K>)
    requires Ascending(l, line)
    requires forall j :: 0 <= j < |line| ==>
               line[j] in r.streams && r.streams[line[j]].priority == l.streams[line[j]].priority
    ensures Ascending(r, line)
  {}

  lemma InsertMembers<K>(line: seq<K>, i: nat, k: K, m: K)
    requires i <= |line|
    ensures m in Insert(line, i, k) <==> m == k || m in line
  {
    if m in line {
      var j :| 0 <= j < |line| && line[j] == m;
      assert Insert(line, i, k)[if j < i then j else j + 1] == m;
    }
    assert Insert(line, i, k)[i] == k;
  }

  /** tx_enqueue_channel gives an idle stream with something to send its place in line. */
  lemma LinkSchedule<K, C>(l: Layer<K, C>, c: C, k: K)
    requires ScheduleOk(l) && k in l.streams && c in l.channels
    requires l.Current(k) == Some(c) && l.streams[k].queue != [] && !l.streams[k].enqueued
    ensures ScheduleOk(Link(l, k))
  {
    var r, line := Link(l, k), l.channels[c].sending;
    assert k !in line by { assert LineOk(l, c); }
    forall d | d in r.channels ensures LineOk(r, d) {
      assert LineOk(l, d);
      if d == c { LineInserted(l, r, c, k); } else { LineUnchanged(l, r, d); }
    }
    forall m | m in r.streams ensures EnqueuedOk(r, m) {
      assert EnqueuedOk(l, m);
      InsertMembers(line, PriorityIndex(l, line, l.streams[k].priority), k, m);
    }
  }

  /** Changing only queue positions and the enqueued flag touches neither tables nor frames. */
  lemma LinePlaces<K, C>(l: Layer<K, C>, c: C, sending: seq<K>, k: K, enqueued: bool)
    requires k in l.streams && c in l.channels
    ensures SameFrames(l, l.SetChannel(c, l.channels[c].(sending := sending))
                           .SetStream(k, l.streams[k].(enqueued := enqueued)))
  {}

  lemma PlacesShape<K, C>(l: Layer<K, C>, c: C, ch: Channel<K>, k: K, t: Stream<K, C>)
    requires k in l.streams && c in l.channels && ch.txSids == l.channels[c].txSids
    requires t.slots == l.streams[k].slots && t.current == l.streams[k].current && t.init == l.streams[k].init
    ensures SameShape(l, l.SetChannel(c, ch).SetStream(k, t))
  {}

  lemma LinkFrame<K, C>(l: Layer<K, C>, k: K)
    requires k in l.streams
    ensures SameShape(l, Link(l, k)) && SameFrames(l, Link(l, k))
  {
    if l.Current(k).Some? && l.Current(k).value in l.channels && !l.streams[k].enqueued && l.streams[k].queue != [] {
      var c := l.Current(k).value;
      var sending := EnqueueStream(l, c, k).channels[c].sending;
      LinePlaces(l, c, sending, k, true);
      PlacesShape(l, c, l.channels[c].(sending := sending), k, l.streams[k].(enqueued := true));
    }
  }

  lemma LinkKeeps<K, C>(l: Layer<K, C>, k: K)
    requires Inv(l) && k in l.streams
    ensures Inv(Link(l, k))
  {
    var r := Link(l, k);
    LinkFrame(l, k);
    KeepShape(l, r);
    KeepFrames(l, r);
    if l.Current(k).Some? {
      SlotInTable(l, k);
      if !l.streams[k].enqueued && l.streams[k].queue != [] {
        LinkSchedule(l, l.Current(k).value, k);
      }
    }
  }

  // ---------------------------------------------------------------- changing one stream or one channel

  ghost predicate Extends(a: map<nat, Segment>, b: map<nat, Segment>) {
    forall p :: p in a ==> p in b && b[p] == a[p]
  }

  /** A stream may change as long as it stays well-formed and forgets no segment. */
  lemma StreamFrames<K, C>(l: Layer<K, C>, k: K, t: Stream<K, C>)
    requires FramesOk(l) && k in l.streams && StreamOk(k, t) && Extends(l.streams[k].segments, t.segments)
    ensures FramesOk(l.SetStream(k, t))
  {
    var r := l.SetStream(k, t);
    forall m | m in r.streams ensures StreamOk(m, r.streams[m]) {
      assert m != k ==> StreamOk(m, l.streams[m]);
    }
    forall c | c in r.channels ensures ChannelOk(r, c) {
      assert ChannelOk(l, c);
    }
  }

  lemma StreamConserved<K, C>(l: Layer<K, C>, k: K, t: Stream<K, C>)
    requires Conserved(l) && k in l.streams
    requires forall p :: p in t.waiting ==> InQueue(t.queue, p) || OnChannel(l, k, p)
    ensures Conserved(l.SetStream(k, t))
  {
    var r := l.SetStream(k, t);
    forall m, p | m in r.streams && p in r.streams[m].waiting ensures Held(r, m, p) {
      if m != k { assert Held(l, m, p); }
      assert OnChannel(l, m, p) ==> OnChannel(r, m, p) by {
        if OnChannel(l, m, p) {
          var c :| c in l.channels && Outstanding(l.channels[c], m, p);
          assert c in r.channels && Outstanding(r.channels[c], m, p);
        }
      }
    }
  }

  /** A stream out of line may change anything but its priority and channel. */
  lemma StreamSchedule<K, C>(l: Layer<K, C>, k: K, t: Stream<K, C>)
    requires ScheduleOk(l) && k in l.streams && !l.streams[k].enqueued && !t.enqueued
    ensures ScheduleOk(l.SetStream(k, t))
  {
    var r := l.SetStream(k, t);
    forall c | c in r.channels ensures LineOk(r, c) {
      assert LineOk(l, c);
      LineUnchanged(l, r, c);
    }
    forall m | m in r.streams ensures EnqueuedOk(r, m) {
      assert EnqueuedOk(l, m);
    }
  }

  // ---------------------------------------------------------------- transmission

  lemma TransmitFrames<K, C>(l: Layer<K, C>, c: C, f: Frame<K>)
    requires FramesOk(l) && c in l.channels && !f.late
    requires f.owner in l.streams && FrameOk(f.owner, l.streams[f.owner], f)
    ensures FramesOk(Transmit(l, c, f))
  {
    var r := Transmit(l, c, f);
    forall d | d in r.channels ensures ChannelOk(r, d) {
      assert ChannelOk(l, d);
    }
  }

  /** The channel still remembers everything it remembered. */
  ghost predicate Remembers<K>(ch: Channel<K>, later: Channel<K>) {
    forall n :: n in ch.waitingAck && n !in ch.missed ==>
      n in later.waitingAck && later.waitingAck[n] == ch.waitingAck[n] && n !in later.missed
  }

  lemma OutstandingStays<K>(ch: Channel<K>, later: Channel<K>, k: K, p: nat)
    requires Remembers(ch, later) && Outstanding(ch, k, p)
    ensures Outstanding(later, k, p)
  {
    var n :| n in ch.waitingAck && n !in ch.missed
      && ch.waitingAck[n].kind == Data && ch.waitingAck[n].owner == k && ch.waitingAck[n].seg.pos == p;
    assert n in later.waitingAck && n !in later.missed;
  }

  lemma OnChannelStays<K, C>(l: Layer<K, C>, r: Layer<K, C>, k: K, p: nat)
    requires OnChannel(l, k, p)
    requires forall c :: c in l.channels ==> c in r.channels && Remembers(l.channels[c], r.channels[c])
    ensures OnChannel(r, k, p)
  {
    var c :| c in l.channels && Outstanding(l.channels[c], k, p);
    OutstandingStays(l.channels[c], r.channels[c], k, p);
    assert c in r.channels;
  }

  lemma TransmitRemembers<K, C>(l: Layer<K, C>, c: C, f: Frame<K>)
    requires c in l.channels && ChannelOk(l, c)
    ensures Remembers(l.channels[c], Transmit(l, c, f).channels[c])
  {}

  lemma TransmitOutstanding<K, C>(l: Layer<K, C>, c: C, f: Frame<K>, k: K, p: nat)
    requires c in l.channels && ChannelOk(l, c) && OnChannel(l, k, p)
    ensures OnChannel(Transmit(l, c, f), k, p)
  {
    TransmitRemembers(l, c, f);
    OnChannelStays(l, Transmit(l, c, f), k, p);
  }

  lemma TransmittedIsOutstanding<K, C>(l: Layer<K, C>, c: C, f: Frame<K>)
    requires FramesOk(l) && c in l.channels && f.kind == Data
    ensures OnChannel(Transmit(l, c, f), f.owner, f.seg.pos)
  {
    var r, n := Transmit(l, c, f), l.channels[c].txSeq;
    assert ChannelOk(l, c);
    assert n in r.channels[c].waitingAck && n !in r.channels[c].missed;
    assert Outstanding(r.channels[c], f.owner, f.seg.pos);
  }

  lemma TransmitConserved<K, C>(l: Layer<K, C>, c: C, f: Frame<K>)
    requires FramesOk(l) && Conserved(l) && c in l.channels
    ensures Conserved(Transmit(l, c, f))
  {
    var r := Transmit(l, c, f);
    forall k, p | k in r.streams && p in r.streams[k].waiting ensures Held(r, k, p) {
      assert Held(l, k, p);
      if OnChannel(l, k, p) { TransmitOutstanding(l, c, f, k, p); }
    }
  }

  lemma TransmitKeeps<K, C>(l: Layer<K, C>, c: C, f: Frame<K>)
    requires Inv(l) && c in l.channels && !f.late
    requires f.owner in l.streams && FrameOk(f.owner, l.streams[f.owner], f)
    ensures Inv(Transmit(l, c, f))
  {
    TransmitFrames(l, c, f);
    TransmitConserved(l, c, f);
    TransmitRest(l, c, f);
    KeepShape(l, Transmit(l, c, f));
    KeepSchedule(l, Transmit(l, c, f));
  }

  lemma TransmitRest<K, C>(l: Layer<K, C>, c: C, f: Frame<K>)
    requires c in l.channels
    ensures SameShape(l, Transmit(l, c, f)) && SameSchedule(l, Transmit(l, c, f))
  {}

  /** Garbage collection: all acknowledged segments leave the head of the queue, up to the first frame that is none. */
  lemma {:induction false} DropAckedSuffix<K>(queue: seq<Frame<K>>, waiting: set<nat>) returns (i: nat)
    ensures i <= |queue| && DropAcked(queue, waiting) == queue[i..]
    ensures forall j :: 0 <= j < i ==> queue[j].kind == Data && queue[j].seg.pos !in waiting
    ensures i < |queue| && queue[i].kind == Data ==> queue[i].seg.pos in waiting
  {
    i := 0;
    if queue != [] && queue[0].kind == Data && queue[0].seg.pos !in waiting {
      i := DropAckedSuffix(queue[1..], waiting);
      i := i + 1;
    }
  }

  /** Garbage collection drops only acknowledged segments. */
  lemma DropAckedKeeps<K>(queue: seq<Frame<K>>, waiting: set<nat>, p: nat)
    requires p in waiting && InQueue(queue, p)
    ensures InQueue(DropAcked(queue, waiting), p)
  {
    var i := DropAckedSuffix(queue, waiting);
    var j :| 0 <= j < |queue| && queue[j].kind == Data && queue[j].seg.pos == p;
    assert queue[i..][j - i] == queue[j];
  }

  lemma SuffixOk<K, C>(k: K, s: Stream<K, C>, i: nat, enqueued: bool)
    requires StreamOk(k, s) && i <= |s.queue|
    ensures StreamOk(k, s.(queue := s.queue[i..], enqueued := enqueued))
  {
    var t := s.(queue := s.queue[i..], enqueued := enqueued);
    forall j | 0 <= j < |t.queue| ensures FrameOk(k, t, t.queue[j]) && t.queue[j].kind != Attach {
      assert t.queue[j] == s.queue[i + j];
    }
  }

  // ---------------------------------------------------------------- serving the front of the line

  /** got_ready_transmit takes the first stream and transmit_on drops its acknowledged frames. */
  ghost function Begun<K, C>(s: Stream<K, C>): Stream<K, C> {
    s.(enqueued := false, queue := DropAcked(s.queue, s.waiting))
  }

  ghost function Begin<K, C>(l: Layer<K, C>, c: C): Layer<K, C>
    requires c in l.channels && l.channels[c].sending != [] && l.channels[c].sending[0] in l.streams
  {
    var ch := l.channels[c];
    l.SetChannel(c, ch.(sending := ch.sending[1..])).SetStream(ch.sending[0], Begun(l.streams[ch.sending[0]]))
  }

  /** The assertions at the top of transmit_on hold for the stream at the front. */
  lemma FrontMayTransmit<K, C>(l: Layer<K, C>, c: C)
    requires Inv(l) && c in l.channels && l.channels[c].sending != []
    ensures var k := l.channels[c].sending[0];
            && CanTransmit(l.SetChannel(c, l.channels[c].(sending := l.channels[c].sending[1..])), c, k)
            && (forall m :: m in l.channels[c].sending ==> l.streams[k].priority <= l.streams[m].priority)
  {
    assert LineOk(l, c);
    var k := l.channels[c].sending[0];
    assert EnqueuedOk(l, k);
    forall m | m in l.channels[c].sending ensures m in l.streams && l.streams[k].priority <= l.streams[m].priority {
      var j :| 0 <= j < |l.channels[c].sending| && l.channels[c].sending[j] == m;
    }
  }

  lemma BeginSchedule<K, C>(l: Layer<K, C>, c: C)
    requires ScheduleOk(l) && c in l.channels && l.channels[c].sending != [] && l.channels[c].sending[0] in l.streams
    ensures ScheduleOk(Begin(l, c))
  {
    var r, line := Begin(l, c), l.channels[c].sending;
    assert LineOk(l, c);
    forall d | d in r.channels ensures LineOk(r, d) {
      assert LineOk(l, d);
      if d == c { LineShortened(l, r, c); } else { LineUnchanged(l, r, d); }
    }
    forall m | m in r.streams ensures EnqueuedOk(r, m) {
      assert EnqueuedOk(l, m);
      if m in line && m != line[0] {
        var j :| 0 <= j < |line| && line[j] == m;
        assert line[1..][j - 1] == m;
      }
    }
  }

  lemma LineShortened<K, C>(l: Layer<K, C>, r: Layer<K, C>, c: C)
    requires c in l.channels && c in r.channels && LineOk(l, c) && l.channels[c].sending != []
    requires r.channels[c].sending == l.channels[c].sending[1..]
    requires forall i :: 0 < i < |l.channels[c].sending| ==> SameStanding(l, r, l.channels[c].sending[i])
    ensures LineOk(r, c)
  {
    var line := l.channels[c].sending;
    forall i | 0 <= i < |line[1..]| ensures line[1..][i] == line[i + 1] {}
  }

  lemma BeginKeeps<K, C>(l: Layer<K, C>, c: C)
    requires Inv(l) && c in l.channels && l.channels[c].sending != []
    ensures l.channels[c].sending[0] in l.streams && Inv(Begin(l, c))
  {
    assert LineOk(l, c);
    var k := l.channels[c].sending[0];
    BeginSchedule(l, c);
    BeginFrames(l, c, k);
    BeginShape(l, c);
    KeepShape(l, Begin(l, c));
  }

  lemma BeginShape<K, C>(l: Layer<K, C>, c: C)
    requires c in l.channels && l.channels[c].sending != [] && l.channels[c].sending[0] in l.streams
    ensures SameShape(l, Begin(l, c))
  {}

  lemma BeginFrames<K, C>(l: Layer<K, C>, c: C, k: K)
    requires FramesOk(l) && Conserved(l) && c in l.channels && l.channels[c].sending != []
    requires k == l.channels[c].sending[0] && k in l.streams
    ensures FramesOk(Begin(l, c)) && Conserved(Begin(l, c))
  {
    var l1 := l.SetChannel(c, l.channels[c].(sending := l.channels[c].sending[1..]));
    KeepFrames(l, l1);
    var s, t := l.streams[k], Begun(l.streams[k]);
    assert StreamOk(k, s);
    var i := DropAckedSuffix(s.queue, s.waiting);
    SuffixOk(k, s, i, false);
    StreamFrames(l1, k, t);
    forall p | p in t.waiting ensures InQueue(t.queue, p) || OnChannel(l1, k, p) {
      assert Held(l1, k, p);
      if InQueue(s.queue, p) { DropAckedKeeps(s.queue, s.waiting, p); }
    }
    StreamConserved(l1, k, t);
  }

  // ---------------------------------------------------------------- tx_data

  /** The head of the queue has just been put on the wire; taking it off the queue loses nothing. */
  lemma PopSent<K, C>(l: Layer<K, C>, k: K)
    requires Inv(l) && k in l.streams && !l.streams[k].enqueued && l.streams[k].queue != []
    requires l.streams[k].queue[0].kind == Data ==> OnChannel(l, k, l.streams[k].queue[0].seg.pos)
    ensures Inv(l.SetStream(k, l.streams[k].(queue := l.streams[k].queue[1..])))
  {
    var s := l.streams[k];
    var t := s.(queue := s.queue[1..]);
    assert StreamOk(k, s);
    SuffixOk(k, s, 1, false);
    StreamFrames(l, k, t);
    forall p | p in t.waiting ensures InQueue(t.queue, p) || OnChannel(l, k, p) {
      assert Held(l, k, p);
      if InQueue(s.queue, p) {
        var j :| 0 <= j < |s.queue| && s.queue[j].kind == Data && s.queue[j].seg.pos == p;
        if j > 0 { assert t.queue[j - 1] == s.queue[j]; }
      }
    }
    StreamConserved(l, k, t);
    StreamSchedule(l, k, t);
    StreamShape(l, k, t);
    KeepShape(l, l.SetStream(k, t));
  }

  lemma StreamShape<K, C>(l: Layer<K, C>, k: K, t: Stream<K, C>)
    requires k in l.streams
    requires t.slots == l.streams[k].slots && t.current == l.streams[k].current && t.init == l.streams[k].init
    ensures SameShape(l, l.SetStream(k, t))
  {}

  lemma HeadOk<K, C>(l: Layer<K, C>, k: K)
    requires Inv(l) && k in l.streams && l.streams[k].queue != []
    ensures FrameOk(k, l.streams[k], l.streams[k].queue[0]) && FramesOk(l)
  {
    assert StreamOk(k, l.streams[k]);
  }

  /** The head of the queue goes on the wire; the stream is not back in line yet. */
  lemma SentKeeps<K, C>(l: Layer<K, C>, c: C, k: K)
    requires Inv(l) && k in l.streams && c in l.channels && !l.streams[k].enqueued && l.streams[k].queue != []
    ensures var s := l.streams[k];
            Inv(Transmit(l.SetStream(k, s.(queue := s.queue[1..])), c, s.queue[0].(late := false)))
  {
    hide Inv;
    var s := l.streams[k];
    var f := s.queue[0].(late := false);
    HeadOk(l, k);
    TransmitKeeps(l, c, f);
    if f.kind == Data { TransmittedIsOutstanding(l, c, f); }
    PopSent(Transmit(l, c, f), k);
    var popped := s.(queue := s.queue[1..]);
    assert Transmit(l.SetStream(k, popped), c, f) == Transmit(l, c, f).SetStream(k, popped);
  }

  lemma SendHeadKeeps<K, C>(l: Layer<K, C>, c: C, k: K)
    requires Inv(l) && k in l.streams && c in l.channels && !l.streams[k].enqueued && l.streams[k].queue != []
    ensures Inv(SendHead(l, c, k))
  {
    hide Inv;
    var s := l.streams[k];
    SentKeeps(l, c, k);
    LinkKeeps(Transmit(l.SetStream(k, s.(queue := s.queue[1..])), c, s.queue[0].(late := false)), k);
  }

  /** What transmit_on finds once the acknowledged frames are gone. */
  lemma BegunReady<K, C>(l: Layer<K, C>, c: C)
    requires Inv(l) && c in l.channels && l.channels[c].sending != []
    ensures l.channels[c].sending[0] in l.streams
    ensures var k := l.channels[c].sending[0]; var t := Begin(l, c).streams[k];
            && c in Begin(l, c).channels && !t.enqueued
            && t.current.Some? && t.current.value < |t.slots|
            && (t.slots[t.current.value].Acknowledged() ==> t.slots[t.current.value].active && !t.init)
  {
    FrontMayTransmit(l, c);
    var k := l.channels[c].sending[0];
    assert SlotsOk(l.streams[k]) && SlotActive(l.streams[k]);
  }

  /** One pass of the loop in got_ready_transmit. */
  lemma ServeFrontKeeps<K, C>(l: Layer<K, C>, c: C)
    requires Inv(l) && c in l.channels && l.channels[c].sending != []
    ensures Inv(ServeFront(l, c))
  {
    hide Inv;
    FrontMayTransmit(l, c);
    BeginKeeps(l, c);
    BegunReady(l, c);
    var k, r := l.channels[c].sending[0], Begin(l, c);
    var t := r.streams[k];
    if t.queue != [] {
      assert r.Check(true) == r;
      if t.slots[t.current.value].Acknowledged()
         || (t.queue[0].kind == Data && t.queue[0].seg.pos <= 0xffff && t.piggyback) {
        SendHeadKeeps(r, c, k);
      } else {
        TransmitKeeps(r, c, Frame(k, Attach, ATTACH_SEGMENT, false));
      }
    }
  }

  lemma {:induction false} ServeKeeps<K, C>(l: Layer<K, C>, c: C)
    requires Inv(l) && c in l.channels && l.channels[c].sending != []
    ensures Inv(Serve(l, c))
    decreases l.channels[c].allowance, |l.channels[c].sending|
  {
    hide Inv;
    ServeFrontKeeps(l, c);
    var r := ServeFront(l, c);
    if r.channels[c].sending != [] && r.channels[c].allowance > 0 {
      ServeKeeps(r, c);
    }
  }

  /** Getting in line and transmitting at once, whatever flow control allows, keeps the invariant. */
  lemma LinkNowKeeps<K, C>(l: Layer<K, C>, k: K)
    requires Inv(l) && k in l.streams
    ensures Inv(LinkNow(l, k))
  {
    hide Inv;
    LinkKeeps(l, k);
    var r := Link(l, k);
    if r.Current(k).Some? {
      var c := r.Current(k).value;
      if c in r.channels && r.channels[c].sending != [] { ServeKeeps(r, c); }
    }
  }

  /** transmit_on on the front of the line, in terms of the host once the acknowledged frames are gone. */
  lemma ServesAs<K, C>(l: Layer<K, C>, c: C)
    requires Inv(l) && c in l.channels && l.channels[c].sending != []
    ensures l.channels[c].sending[0] in l.streams
    ensures var k, b := l.channels[c].sending[0], Begin(l, c);
            var t := b.streams[k];
            && t.current.Some? && t.current.value < |t.slots|
            && TransmitOn(l.SetChannel(c, l.channels[c].(sending := l.channels[c].sending[1..])), c, k) ==
                 if t.queue == [] then b
                 else if t.slots[t.current.value].Acknowledged()
                         || (t.queue[0].kind == Data && t.queue[0].seg.pos <= 0xffff && t.piggyback) then SendHead(b, c, k)
                 else Transmit(b, c, Frame(k, Attach, ATTACH_SEGMENT, false))
  {
    hide Inv, SendHead, Transmit;
    FrontMayTransmit(l, c);
    BegunReady(l, c);
    var b := Begin(l, c);
    assert b.Check(true) == b;
  }
}
