/**
 What goes on the wire, told from the packets sent, the queues and the positions waited for: only what a stream
 still waits for, lowest position first, numbered one by one and paid for by flow control.
 */
module StreamSending {
  import opened Options
  import opened Segments
  import opened StreamLayer
  import opened StreamInvariants
  import opened StreamSteps
  import opened StreamOps

  // ---------------------------------------------------------------- what sending means

  /**
   A channel gives its packets the next numbers, remembers each until it is acknowledged and takes none back; its
   attachments stay.
   */
  ghost predicate Sent<K>(ch: Channel<K>, later: Channel<K>) {
    && later.txSids == ch.txSids && later.rxSids == ch.rxSids && later.sidCounter == ch.sidCounter
    && ch.txSeq <= later.txSeq && later.missed == ch.missed
    && (forall n :: n in later.sent <==> n in ch.sent || ch.txSeq <= n < later.txSeq)
    && (forall n :: n in ch.sent ==> later.sent[n] == ch.sent[n])
    && (forall n :: n in later.waitingAck <==> n in ch.waitingAck || ch.txSeq <= n < later.txSeq)
    && (forall n :: n in later.waitingAck ==>
          later.waitingAck[n] == if n in ch.waitingAck then ch.waitingAck[n] else later.sent[n])
  }

  /** Nothing at a lower position is left in the queue. */
  ghost predicate NoneBefore<K>(queue: seq<Frame<K>>, pos: nat) {
    forall j :: 0 <= j < |queue| ==> queue[j].seg.pos >= pos
  }

  /**
   A frame its owner has reason to send on this channel: a segment it waits for, with none before it in the queue,
   or an attachment that was not acknowledged yet.
   */
  ghost predicate Wanted<K, C>(l: Layer<K, C>, c: C, f: Frame<K>) {
    && f.owner in l.streams && !f.late && l.Current(f.owner) == Some(c)
    && var s := l.streams[f.owner];
    && (f.kind == Data ==> f.seg.pos in s.waiting && f.seg.pos < s.byteSeq && NoneBefore(s.queue, f.seg.pos))
    && (f.kind == Attach ==> s.current.Some? && s.current.value < |s.slots| && !s.slots[s.current.value].Acknowledged())
  }

  ghost predicate AllWanted<K, C>(l: Layer<K, C>, r: Layer<K, C>) {
    forall c, n :: c in l.channels && c in r.channels && n in r.channels[c].sent && l.channels[c].txSeq <= n
      ==> Wanted(r, c, r.channels[c].sent[n])
  }

  /** A stream that is only written to and served: attachments and priority stay, and what is queued anew comes last. */
  ghost predicate Served<K, C>(s: Stream<K, C>, t: Stream<K, C>) {
    && t.slots == s.slots && t.rxSlots == s.rxSlots && t.current == s.current && t.init == s.init
    && t.priority == s.priority && t.piggyback == s.piggyback
    && s.byteSeq <= t.byteSeq && s.waiting <= t.waiting
    && (forall j :: 0 <= j < |t.queue| ==> t.queue[j] in s.queue || t.queue[j].seg.pos >= s.byteSeq)
  }

  /** The frame is among the packets sent between the two states. */
  ghost predicate WentOut<K, C>(l: Layer<K, C>, r: Layer<K, C>, f: Frame<K>) {
    exists c, n :: c in l.channels && c in r.channels && n in r.channels[c].sent && l.channels[c].txSeq <= n
      && r.channels[c].sent[n] == f.(late := false)
  }

  /** A queued frame is still queued, was sent, or carries a segment acknowledged in the meantime. */
  ghost predicate Settled<K, C>(l: Layer<K, C>, r: Layer<K, C>, k: K, f: Frame<K>)
    requires k in l.streams && k in r.streams
  {
    f in r.streams[k].queue || WentOut(l, r, f) || (f.kind == Data && f.seg.pos !in l.streams[k].waiting)
  }

  ghost predicate AllSettled<K, C>(l: Layer<K, C>, r: Layer<K, C>) {
    forall k, f :: k in l.streams && k in r.streams && f in l.streams[k].queue ==> Settled(l, r, k, f)
  }

  ghost predicate Sends<K, C>(l: Layer<K, C>, r: Layer<K, C>) {
    && r.streams.Keys == l.streams.Keys && r.channels.Keys == l.channels.Keys
    && (forall k :: k in l.streams ==> Served(l.streams[k], r.streams[k]))
    && (forall c :: c in l.channels ==> Sent(l.channels[c], r.channels[c]))
    && AllWanted(l, r) && AllSettled(l, r)
  }

  /** Each packet costs one unit of what flow control allows. */
  ghost predicate Paid<K, C>(l: Layer<K, C>, r: Layer<K, C>) {
    && r.channels.Keys == l.channels.Keys
    && forall c :: c in l.channels ==>
         r.channels[c].txSeq + r.channels[c].allowance == l.channels[c].txSeq + l.channels[c].allowance
  }

  /** Called with flow control shut, a turn of the channel still sends one packet. */
  ghost predicate OneForFree<K, C>(l: Layer<K, C>, r: Layer<K, C>, c: C) {
    && c in l.channels && r.channels.Keys == l.channels.Keys
    && r.channels[c].allowance == 0 && r.channels[c].txSeq <= l.channels[c].txSeq + 1
    && forall d :: d in l.channels && d != c ==> r.channels[d].txSeq == l.channels[d].txSeq
  }

  // ---------------------------------------------------------------- one step after another

  lemma SentThen<K>(a: Channel<K>, b: Channel<K>, d: Channel<K>)
    requires Sent(a, b) && Sent(b, d)
    ensures Sent(a, d)
  {}

  lemma ServedThen<K, C>(a: Stream<K, C>, b: Stream<K, C>, d: Stream<K, C>)
    requires Served(a, b) && Served(b, d)
    ensures Served(a, d)
  {
    forall j | 0 <= j < |d.queue| ensures d.queue[j] in a.queue || d.queue[j].seg.pos >= a.byteSeq {
      if d.queue[j] in b.queue {
        var i :| 0 <= i < |b.queue| && b.queue[i] == d.queue[j];
      }
    }
  }

  /** What was sent for good reason was so in the light of all that follows. */
  lemma WantedStays<K, C>(l: Layer<K, C>, r: Layer<K, C>, c: C, f: Frame<K>)
    requires Wanted(l, c, f) && f.owner in r.streams && Served(l.streams[f.owner], r.streams[f.owner])
    ensures Wanted(r, c, f)
  {
    var s, t := l.streams[f.owner], r.streams[f.owner];
    if f.kind == Data {
      forall j | 0 <= j < |t.queue| ensures t.queue[j].seg.pos >= f.seg.pos {
        if t.queue[j] in s.queue {
          var i :| 0 <= i < |s.queue| && s.queue[i] == t.queue[j];
        }
      }
    }
  }

  lemma WantedThen<K, C>(a: Layer<K, C>, b: Layer<K, C>, d: Layer<K, C>)
    requires Sends(a, b) && Sends(b, d)
    ensures AllWanted(a, d)
  {
    forall c, n | c in a.channels && c in d.channels && n in d.channels[c].sent && a.channels[c].txSeq <= n
      ensures Wanted(d, c, d.channels[c].sent[n])
    {
      hide Wanted, Served, AllSettled;
      assert Sent(b.channels[c], d.channels[c]);
      if n in b.channels[c].sent {
        var f := b.channels[c].sent[n];
        assert Wanted(b, c, f);
        WantedOwner(b, c, f);
        WantedStays(b, d, c, f);
      }
    }
  }

  lemma WantedOwner<K, C>(l: Layer<K, C>, c: C, f: Frame<K>)
    requires Wanted(l, c, f)
    ensures f.owner in l.streams
  {}

  lemma WentOutBefore<K, C>(a: Layer<K, C>, b: Layer<K, C>, d: Layer<K, C>, f: Frame<K>)
    requires WentOut(a, b, f) && d.channels.Keys == b.channels.Keys
    requires forall c :: c in b.channels ==> Sent(b.channels[c], d.channels[c])
    ensures WentOut(a, d, f)
  {
    var c, n :| c in a.channels && c in b.channels && n in b.channels[c].sent && a.channels[c].txSeq <= n
      && b.channels[c].sent[n] == f.(late := false);
    assert Sent(b.channels[c], d.channels[c]);
    assert n in d.channels[c].sent && d.channels[c].sent[n] == b.channels[c].sent[n];
  }

  lemma WentOutAfter<K, C>(a: Layer<K, C>, b: Layer<K, C>, d: Layer<K, C>, f: Frame<K>)
    requires WentOut(b, d, f) && b.channels.Keys == a.channels.Keys
    requires forall c :: c in a.channels ==> a.channels[c].txSeq <= b.channels[c].txSeq
    ensures WentOut(a, d, f)
  {}

  lemma NextNumbers<K, C>(l: Layer<K, C>, r: Layer<K, C>)
    requires Sends(l, r)
    ensures forall c :: c in l.channels ==> c in r.channels && l.channels[c].txSeq <= r.channels[c].txSeq
  {
    hide Served, AllWanted, AllSettled;
    forall c | c in l.channels ensures c in r.channels && l.channels[c].txSeq <= r.channels[c].txSeq {
      assert Sent(l.channels[c], r.channels[c]);
    }
  }

  lemma SettledThen<K, C>(a: Layer<K, C>, b: Layer<K, C>, d: Layer<K, C>)
    requires Sends(a, b) && Sends(b, d)
    ensures AllSettled(a, d)
  {
    hide WentOut, AllWanted, Sent, Settled;
    NextNumbers(a, b);
    forall k, f | k in a.streams && k in d.streams && f in a.streams[k].queue ensures Settled(a, d, k, f) {
      hide Served;
      assert Settled(a, b, k, f);
      if f in b.streams[k].queue { assert Settled(b, d, k, f); }
      assert a.streams[k].waiting <= b.streams[k].waiting by { WaitsOn(a, b, k); }
      FrameThen(a, b, d, k, f);
    }
  }

  lemma WaitsOn<K, C>(l: Layer<K, C>, r: Layer<K, C>, k: K)
    requires Sends(l, r) && k in l.streams
    ensures l.streams[k].waiting <= r.streams[k].waiting
  {
    assert Served(l.streams[k], r.streams[k]);
  }

  lemma FrameThen<K, C>(a: Layer<K, C>, b: Layer<K, C>, d: Layer<K, C>, k: K, f: Frame<K>)
    requires k in a.streams && k in b.streams && k in d.streams && Settled(a, b, k, f)
    requires f in b.streams[k].queue ==> Settled(b, d, k, f)
    requires a.streams[k].waiting <= b.streams[k].waiting
    requires b.channels.Keys == a.channels.Keys && d.channels.Keys == b.channels.Keys
    requires forall c :: c in b.channels ==> Sent(b.channels[c], d.channels[c])
    requires forall c :: c in a.channels ==> a.channels[c].txSeq <= b.channels[c].txSeq
    ensures Settled(a, d, k, f)
  {
    hide WentOut, Sent;
    if WentOut(a, b, f) { WentOutBefore(a, b, d, f); }
    if WentOut(b, d, f) { WentOutAfter(a, b, d, f); }
  }

  lemma SendsThen<K, C>(a: Layer<K, C>, b: Layer<K, C>, d: Layer<K, C>)
    requires Sends(a, b) && Sends(b, d)
    ensures Sends(a, d)
  {
    WantedThen(a, b, d);
    SettledThen(a, b, d);
    hide Sent, Served, AllWanted, AllSettled;
    forall k | k in a.streams ensures Served(a.streams[k], d.streams[k]) {
      ServedThen(a.streams[k], b.streams[k], d.streams[k]);
    }
    forall c | c in a.channels ensures Sent(a.channels[c], d.channels[c]) {
      SentThen(a.channels[c], b.channels[c], d.channels[c]);
    }
  }

  lemma PaidThen<K, C>(a: Layer<K, C>, b: Layer<K, C>, d: Layer<K, C>)
    requires Paid(a, b) && Paid(b, d)
    ensures Paid(a, d)
  {}

  // ---------------------------------------------------------------- steps that send nothing

  /** No number beyond the next one is in use. */
  ghost predicate Numbers<K>(ch: Channel<K>) {
    forall n :: n in ch.sent || n in ch.waitingAck ==> n < ch.txSeq
  }

  ghost predicate AllNumbers<K, C>(l: Layer<K, C>) {
    forall c :: c in l.channels ==> Numbers(l.channels[c])
  }

  lemma InvNumbers<K, C>(l: Layer<K, C>)
    requires Inv(l)
    ensures AllNumbers(l)
  {
    forall c | c in l.channels ensures Numbers(l.channels[c]) { assert ChannelOk(l, c); }
  }

  /** Only lines change, and streams as far as serving allows. */
  lemma Unsent<K, C>(l: Layer<K, C>, r: Layer<K, C>)
    requires AllNumbers(l)
    requires r.streams.Keys == l.streams.Keys && r.channels.Keys == l.channels.Keys
    requires forall k :: k in l.streams ==> Served(l.streams[k], r.streams[k])
    requires forall c :: c in l.channels ==> r.channels[c] == l.channels[c].(sending := r.channels[c].sending)
    requires forall k, f :: k in l.streams && f in l.streams[k].queue ==>
               f in r.streams[k].queue || (f.kind == Data && f.seg.pos !in l.streams[k].waiting)
    ensures Sends(l, r) && Paid(l, r) && AllNumbers(r)
  {
    hide Served, Sent, Numbers, WentOut, AllWanted;
    NothingNew(l, r);
    forall c | c in l.channels ensures Sent(l.channels[c], r.channels[c]) && Numbers(r.channels[c]) {
      assert Numbers(l.channels[c]);
      LineOnly(l.channels[c], r.channels[c].sending);
    }
    assert AllSettled(l, r);
  }

  lemma LineOnly<K>(ch: Channel<K>, sending: seq<K>)
    requires Numbers(ch)
    ensures Sent(ch, ch.(sending := sending)) && Numbers(ch.(sending := sending))
  {}

  lemma NothingNew<K, C>(l: Layer<K, C>, r: Layer<K, C>)
    requires AllNumbers(l) && r.channels.Keys == l.channels.Keys
    requires forall c :: c in l.channels ==> r.channels[c].sent == l.channels[c].sent
    ensures AllWanted(l, r)
  {
    hide Wanted;
  }

  lemma ServedSelf<K, C>(s: Stream<K, C>, enqueued: bool)
    ensures Served(s, s.(enqueued := enqueued))
  {}

  /** Getting in line changes the line of one channel and the flag of one stream. */
  lemma LinkChanges<K, C>(l: Layer<K, C>, k: K)
    requires k in l.streams && (l.Current(k).Some? ==> l.Current(k).value in l.channels)
    ensures var r := Link(l, k);
            && r.streams == l.streams[k := l.streams[k].(enqueued := r.streams[k].enqueued)] && r.failed == l.failed
            && r.channels.Keys == l.channels.Keys
            && (forall d :: d in l.channels ==>
                  && r.channels[d] == l.channels[d].(sending := r.channels[d].sending)
                  && (l.Current(k) != Some(d) ==> r.channels[d] == l.channels[d]))
            && (r.streams[k].enqueued <==>
                  l.streams[k].enqueued || (l.Current(k).Some? && l.streams[k].queue != []))
  {
    hide PriorityIndex;
  }

  lemma LinkSends<K, C>(l: Layer<K, C>, k: K)
    requires AllNumbers(l) && k in l.streams && (l.Current(k).Some? ==> l.Current(k).value in l.channels)
    ensures Sends(l, Link(l, k)) && Paid(l, Link(l, k)) && AllNumbers(Link(l, k))
  {
    hide Link, Sends, Paid, AllNumbers, Served;
    LinkChanges(l, k);
    var r := Link(l, k);
    forall m | m in l.streams ensures Served(l.streams[m], r.streams[m]) {
      ServedSelf(l.streams[m], r.streams[m].enqueued);
    }
    Unsent(l, r);
  }

  // ---------------------------------------------------------------- one packet

  lemma TransmitSent<K, C>(l: Layer<K, C>, c: C, f: Frame<K>)
    requires AllNumbers(l) && c in l.channels
    ensures forall d :: d in l.channels ==> Sent(l.channels[d], Transmit(l, c, f).channels[d])
    ensures AllNumbers(Transmit(l, c, f)) && (l.channels[c].allowance > 0 ==> Paid(l, Transmit(l, c, f)))
  {
    var r := Transmit(l, c, f);
    forall d | d in l.channels ensures Sent(l.channels[d], r.channels[d]) && Numbers(r.channels[d]) {
      assert Numbers(l.channels[d]);
    }
  }

  /** A frame leaves the queue, or an attach packet is made, and goes out on channel `c`. */
  lemma OneSends<K, C>(l: Layer<K, C>, c: C, k: K, t: Stream<K, C>, f: Frame<K>)
    requires AllNumbers(l) && k in l.streams && c in l.channels && Served(l.streams[k], t)
    requires forall g :: g in l.streams[k].queue ==> g in t.queue || g.(late := false) == f
    requires Wanted(l.SetStream(k, t), c, f)
    ensures Sends(l, Transmit(l.SetStream(k, t), c, f)) && AllNumbers(Transmit(l.SetStream(k, t), c, f))
    ensures l.channels[c].allowance > 0 ==> Paid(l, Transmit(l.SetStream(k, t), c, f))
  {
    var b := l.SetStream(k, t);
    var r := Transmit(b, c, f);
    var n := l.channels[c].txSeq;
    TransmitSent(b, c, f);
    forall m | m in l.streams ensures Served(l.streams[m], r.streams[m]) {
      if m != k { ServedSelf(l.streams[m], l.streams[m].enqueued); }
    }
    assert c in r.channels && n in r.channels[c].sent && r.channels[c].sent[n] == f;
    WantedHere(b, c, f);
    assert AllWanted(l, r) by {
      forall d, m | d in l.channels && d in r.channels && m in r.channels[d].sent && l.channels[d].txSeq <= m
        ensures Wanted(r, d, r.channels[d].sent[m])
      {
        hide Wanted, Served, Sent;
        assert Numbers(l.channels[d]);
        assert d == c && m == n;
      }
    }
    assert AllSettled(l, r) by {
      forall m, g | m in l.streams && m in r.streams && g in l.streams[m].queue ensures Settled(l, r, m, g) {
        hide Wanted, Served, Sent, Numbers;
        if m == k && g !in t.queue {
          assert WentOut(l, r, g);
        }
      }
    }
    hide Wanted, Served, Sent, Numbers, AllWanted, AllSettled;
  }

  lemma WantedHere<K, C>(l: Layer<K, C>, c: C, f: Frame<K>)
    requires Wanted(l, c, f) && c in l.channels
    ensures Wanted(Transmit(l, c, f), c, f)
  {
    assert Transmit(l, c, f).Current(f.owner) == l.Current(f.owner);
  }

  // ---------------------------------------------------------------- serving a line

  lemma BeginSends<K, C>(l: Layer<K, C>, c: C)
    requires Inv(l) && c in l.channels && l.channels[c].sending != []
    ensures l.channels[c].sending[0] in l.streams
    ensures Sends(l, Begin(l, c)) && Paid(l, Begin(l, c)) && AllNumbers(Begin(l, c))
  {
    hide Inv, AllNumbers, Sends, Paid, Served, Begun;
    FrontMayTransmit(l, c);
    InvNumbers(l);
    var k, r := l.channels[c].sending[0], Begin(l, c);
    BegunServed(l.streams[k]);
    forall m | m in l.streams ensures Served(l.streams[m], r.streams[m]) {
      if m != k { ServedSelf(l.streams[m], l.streams[m].enqueued); }
    }
    Unsent(l, r);
  }

  lemma BegunServed<K, C>(s: Stream<K, C>)
    ensures Served(s, Begun(s))
    ensures forall f :: f in s.queue ==> f in Begun(s).queue || (f.kind == Data && f.seg.pos !in s.waiting)
  {
    var i := DropAckedSuffix(s.queue, s.waiting);
    var rest := s.queue[i..];
    forall j | 0 <= j < |rest| ensures rest[j] in s.queue { assert rest[j] == s.queue[i + j]; }
    forall f | f in s.queue ensures f in rest || (f.kind == Data && f.seg.pos !in s.waiting) {
      var j :| 0 <= j < |s.queue| && s.queue[j] == f;
      if j >= i { assert rest[j - i] == f; }
    }
  }

  /** The head of the queue may be sent: its stream waits for it, and nothing before it is queued. */
  lemma HeadWanted<K, C>(l: Layer<K, C>, c: C, k: K)
    requires Inv(l) && k in l.streams && l.streams[k].queue != [] && l.Current(k) == Some(c)
    requires l.streams[k].queue[0].kind == Data ==> l.streams[k].queue[0].seg.pos in l.streams[k].waiting
    ensures var s := l.streams[k];
            Wanted(l.SetStream(k, s.(queue := s.queue[1..])), c, s.queue[0].(late := false))
  {
    var s := l.streams[k];
    assert StreamOk(k, s);
    var f := s.queue[0].(late := false);
    assert FrameOk(k, s, s.queue[0]) && s.queue[0].kind != Attach;
    assert NoneBefore(s.queue[1..], f.seg.pos);
    assert l.SetStream(k, s.(queue := s.queue[1..])).Current(k) == l.Current(k);
  }

  lemma PopServed<K, C>(s: Stream<K, C>)
    requires s.queue != []
    ensures Served(s, s.(queue := s.queue[1..]))
    ensures forall g :: g in s.queue ==> g in s.queue[1..] || g == s.queue[0]
  {
    forall g | g in s.queue ensures g in s.queue[1..] || g == s.queue[0] {
      var j :| 0 <= j < |s.queue| && s.queue[j] == g;
      if j > 0 { assert s.queue[1..][j - 1] == g; }
    }
    forall j | 0 <= j < |s.queue[1..]| ensures s.queue[1..][j] in s.queue { assert s.queue[1..][j] == s.queue[j + 1]; }
  }

  lemma SendHeadSends<K, C>(l: Layer<K, C>, c: C, k: K)
    requires Inv(l) && k in l.streams && c in l.channels && l.streams[k].queue != [] && l.Current(k) == Some(c)
    requires l.streams[k].queue[0].kind == Data ==> l.streams[k].queue[0].seg.pos in l.streams[k].waiting
    ensures Sends(l, SendHead(l, c, k)) && (l.channels[c].allowance > 0 ==> Paid(l, SendHead(l, c, k)))
  {
    hide Inv, AllNumbers, Sends, Wanted, Served, Link;
    InvNumbers(l);
    HeadWanted(l, c, k);
    var s := l.streams[k];
    PopServed(s);
    OneSends(l, c, k, s.(queue := s.queue[1..]), s.queue[0].(late := false));
    var r := Transmit(l.SetStream(k, s.(queue := s.queue[1..])), c, s.queue[0].(late := false));
    assert r.Current(k) == Some(c);
    LinkSends(r, k);
    SendsThen(l, r, Link(r, k));
    if l.channels[c].allowance > 0 { PaidThen(l, r, Link(r, k)); }
  }

  lemma AttachSends<K, C>(l: Layer<K, C>, c: C, k: K)
    requires Inv(l) && k in l.streams && c in l.channels && l.Current(k) == Some(c)
    requires !l.streams[k].slots[l.streams[k].current.value].Acknowledged()
    ensures var f := Frame(k, Attach, ATTACH_SEGMENT, false);
            Sends(l, Transmit(l, c, f)) && (l.channels[c].allowance > 0 ==> Paid(l, Transmit(l, c, f)))
  {
    hide Inv, AllNumbers, Sends;
    InvNumbers(l);
    var s := l.streams[k];
    ServedSelf(s, s.enqueued);
    assert l.SetStream(k, s) == l;
    OneSends(l, c, k, s, Frame(k, Attach, ATTACH_SEGMENT, false));
  }

  /** What the front stream finds when it is served: its attachment, and a head it still waits for. */
  lemma HeadOfTurn<K, C>(l: Layer<K, C>, c: C)
    requires Inv(l) && c in l.channels && l.channels[c].sending != []
    ensures l.channels[c].sending[0] in l.streams && Begin(l, c).Current(l.channels[c].sending[0]) == Some(c)
    ensures var t := Begin(l, c).streams[l.channels[c].sending[0]];
            t.queue != [] && t.queue[0].kind == Data ==> t.queue[0].seg.pos in t.waiting
  {
    hide Inv;
    FrontMayTransmit(l, c);
    var k := l.channels[c].sending[0];
    var i := DropAckedSuffix(l.streams[k].queue, l.streams[k].waiting);
  }

  /** One transmission of the front stream. */
  lemma ServeFrontWanted<K, C>(l: Layer<K, C>, c: C)
    requires Inv(l) && c in l.channels && l.channels[c].sending != []
    ensures Sends(l, ServeFront(l, c)) && (l.channels[c].allowance > 0 ==> Paid(l, ServeFront(l, c)))
    ensures l.channels[c].allowance == 0 ==> OneForFree(l, ServeFront(l, c), c)
  {
    hide Inv, Sends, Paid, Begin;
    ServesAs(l, c);
    BeginSends(l, c);
    BeginKeeps(l, c);
    HeadOfTurn(l, c);
    BeginIs(l, c);
    var k, b := l.channels[c].sending[0], Begin(l, c);
    var t, r := b.streams[k], ServeFront(l, c);
    if t.queue != [] {
      if r == SendHead(b, c, k) {
        SendHeadSends(b, c, k);
        SendHeadNumber(b, c, k);
      } else {
        AttachSends(b, c, k);
      }
      SendsThen(l, b, r);
      if l.channels[c].allowance > 0 { PaidThen(l, b, r); }
    }
  }

  lemma BeginIs<K, C>(l: Layer<K, C>, c: C)
    requires c in l.channels && l.channels[c].sending != [] && l.channels[c].sending[0] in l.streams
    ensures Begin(l, c).streams.Keys == l.streams.Keys
    ensures Begin(l, c).channels == l.channels[c := l.channels[c].(sending := l.channels[c].sending[1..])]
  {}

  lemma SendHeadNumber<K, C>(l: Layer<K, C>, c: C, k: K)
    requires k in l.streams && c in l.channels && l.streams[k].queue != []
    ensures SendHead(l, c, k).channels.Keys == l.channels.Keys
    ensures SendHead(l, c, k).channels[c].txSeq == l.channels[c].txSeq + 1
    ensures l.channels[c].allowance == 0 ==> SendHead(l, c, k).channels[c].allowance == 0
    ensures forall d :: d in l.channels && d != c ==> SendHead(l, c, k).channels[d].txSeq == l.channels[d].txSeq
  {}

  lemma {:induction false} ServeWanted<K, C>(l: Layer<K, C>, c: C)
    requires Inv(l) && c in l.channels && l.channels[c].sending != []
    ensures Sends(l, Serve(l, c)) && (l.channels[c].allowance > 0 ==> Paid(l, Serve(l, c)))
    ensures l.channels[c].allowance == 0 ==> OneForFree(l, Serve(l, c), c)
    decreases l.channels[c].allowance, |l.channels[c].sending|
  {
    hide Inv, Sends, Paid;
    ServeFrontKeeps(l, c);
    ServeFrontWanted(l, c);
    var r := ServeFront(l, c);
    if r.channels[c].sending != [] && r.channels[c].allowance > 0 {
      ServeWanted(r, c);
      SendsThen(l, r, Serve(r, c));
      PaidThen(l, r, Serve(r, c));
    }
  }

  lemma LinkNowSends<K, C>(l: Layer<K, C>, k: K)
    requires Inv(l) && k in l.streams
    ensures Sends(l, LinkNow(l, k)) && Paid(l, LinkNow(l, k))
  {
    hide Inv, Sends, Paid, AllNumbers, Link;
    InvNumbers(l);
    KnownChannel(l, k);
    LinkKeeps(l, k);
    LinkSends(l, k);
    var r := Link(l, k);
    if r.Current(k).Some? {
      var c := r.Current(k).value;
      if c in r.channels && r.channels[c].allowance > 0 && r.channels[c].sending != [] {
        ServeWanted(r, c);
        SendsThen(l, r, Serve(r, c));
        PaidThen(l, r, Serve(r, c));
      }
    }
  }

  lemma KnownChannel<K, C>(l: Layer<K, C>, k: K)
    requires Inv(l) && k in l.streams
    ensures l.Current(k).Some? ==> l.Current(k).value in l.channels
    ensures k in Link(l, k).streams
  {
    if l.Current(k).Some? { SlotInTable(l, k); }
  }

  // ---------------------------------------------------------------- the operations that send

  /** A frame that joins the queue at the end of the stream. */
  lemma JoinedServed<K, C>(s: Stream<K, C>, t: Stream<K, C>, f: Frame<K>)
    requires f.seg.pos >= s.byteSeq
    requires t == s.(byteSeq := t.byteSeq, queue := InsertFrame(s.queue, f), waiting := t.waiting,
                     waitingSize := t.waitingSize, segments := t.segments)
    requires s.byteSeq <= t.byteSeq && s.waiting <= t.waiting
    ensures Served(s, t) && f in t.queue && forall g :: g in s.queue ==> g in t.queue
  {
    var i := QueueIndex(s.queue, f.seg.pos);
    forall j | 0 <= j < |t.queue| ensures t.queue[j] in s.queue || t.queue[j] == f {
      InsertFrameMembers(s.queue, f, j);
    }
    InsertFrameMembers(s.queue, f, i);
    forall g | g in s.queue ensures g in t.queue {
      var j :| 0 <= j < |s.queue| && s.queue[j] == g;
      InsertFrameMembers(s.queue, f, if j < i then j else j + 1);
    }
  }

  lemma OneServed<K, C>(l: Layer<K, C>, k: K, t: Stream<K, C>)
    requires AllNumbers(l) && k in l.streams && Served(l.streams[k], t)
    requires forall g :: g in l.streams[k].queue ==> g in t.queue
    ensures Sends(l, l.SetStream(k, t)) && Paid(l, l.SetStream(k, t))
  {
    hide AllNumbers, Sends, Paid, Served;
    var r := l.SetStream(k, t);
    forall m | m in l.streams ensures Served(l.streams[m], r.streams[m]) {
      if m != k { ServedSelf(l.streams[m], l.streams[m].enqueued); }
    }
    Unsent(l, r);
  }

  lemma WriteSegmentSends<K, C>(l: Layer<K, C>, k: K, seg: Segment)
    requires Inv(l) && k in l.streams && seg.pos == l.streams[k].byteSeq && seg.data != []
    ensures Sends(l, WriteSegment(l, k, seg)) && Paid(l, WriteSegment(l, k, seg))
  {
    hide Inv, Sends, Paid, AllNumbers, Served;
    InvNumbers(l);
    var r := WrittenBeforeLink(l, k, seg);
    JoinedServed(l.streams[k], r.streams[k], Frame(k, Data, seg, false));
    OneServed(l, k, r.streams[k]);
    LinkNowSends(r, k);
    SendsThen(l, r, LinkNow(r, k));
    PaidThen(l, r, LinkNow(r, k));
  }

  /** A datagram fragment at the end of the stream is queued, and queued it stays or out it goes. */
  lemma EnqueueLastSends<K, C>(l: Layer<K, C>, k: K, f: Frame<K>)
    requires Inv(l) && k in l.streams && FrameOk(k, l.streams[k], f) && f.kind == Datagram
    requires f.seg.pos == l.streams[k].byteSeq
    ensures Sends(l, EnqueueFrame(l, k, f)) && Paid(l, EnqueueFrame(l, k, f))
    ensures k in EnqueueFrame(l, k, f).streams
    ensures f in EnqueueFrame(l, k, f).streams[k].queue || WentOut(l, EnqueueFrame(l, k, f), f)
  {
    hide Inv, Sends, Paid, AllNumbers, Served, WentOut;
    InvNumbers(l);
    QueuedKeeps(l, k, f);
    var q := Queued(l, k, f);
    JoinedServed(l.streams[k], q.streams[k], f);
    OneServed(l, k, q.streams[k]);
    LinkNowSends(q, k);
    SendsThen(l, q, LinkNow(q, k));
    PaidThen(l, q, LinkNow(q, k));
    SettledOne(q, LinkNow(q, k), k, f);
    NextNumbers(l, q);
    if WentOut(q, LinkNow(q, k), f) { WentOutAfter(l, q, LinkNow(q, k), f); }
  }

  lemma SettledOne<K, C>(l: Layer<K, C>, r: Layer<K, C>, k: K, f: Frame<K>)
    requires Sends(l, r) && k in l.streams && f in l.streams[k].queue
    ensures k in r.streams && Settled(l, r, k, f)
  {
    hide Served, Sent, AllWanted, Settled;
  }
}
