/**
 No stream is forgotten. A stream that is attached and has something to send is in its channel's line, or
 waits for the acknowledgment of an attachment that is under way; so serving a line stops only when flow
 control stops it or when there is nothing left to send.
 */
module StreamProgress {
  import opened Options
  import opened Segments
  import opened StreamLayer
  import opened StreamInvariants
  import opened StreamSteps
  import opened StreamOps
  import opened StreamAttach
  import opened StreamHomes
  import opened StreamTeardown
  import opened StreamHistory
  import opened StreamRuns

  /** An attach packet of `k` whose acknowledgment, or loss, will wake the stream. */
  ghost predicate Knocking<K>(ch: Channel<K>, k: K) {
    exists n :: n in ch.waitingAck && n !in ch.missed && ch.waitingAck[n].owner == k && ch.waitingAck[n].kind == Attach
  }

  ghost predicate Awake<K, C>(l: Layer<K, C>, k: K)
    requires k in l.streams
  {
    var s := l.streams[k];
    l.Current(k).None? || s.queue == [] || s.enqueued
    || (!s.slots[s.current.value].Acknowledged() && l.Current(k).value in l.channels
        && Knocking(l.channels[l.Current(k).value], k))
  }

  ghost predicate OthersAwake<K, C>(l: Layer<K, C>, k: K) {
    forall m :: m in l.streams && m != k ==> Awake(l, m)
  }

  ghost predicate AllAwake<K, C>(l: Layer<K, C>) {
    forall m :: m in l.streams ==> Awake(l, m)
  }

  /** Streams other than `k`, and their packets, are as they were. */
  ghost predicate Undisturbed<K, C>(l: Layer<K, C>, r: Layer<K, C>, k: K) {
    && r.streams.Keys == l.streams.Keys && r.channels.Keys == l.channels.Keys
    && (forall m :: m in l.streams && m != k ==> SameBusiness(l, r, m))
    && (forall c :: c in l.channels ==> KeepsPackets(l.channels[c], r.channels[c], k))
  }

  ghost predicate SameBusiness<K, C>(l: Layer<K, C>, r: Layer<K, C>, m: K)
    requires m in l.streams && m in r.streams
  {
    && r.streams[m].queue == l.streams[m].queue && r.streams[m].slots == l.streams[m].slots
    && r.streams[m].current == l.streams[m].current && r.streams[m].enqueued == l.streams[m].enqueued
  }

  /** Packets of streams other than `k` stay in the table, and none is newly marked missed. */
  ghost predicate KeepsPackets<K>(ch: Channel<K>, later: Channel<K>, k: K) {
    forall n :: n in ch.waitingAck && ch.waitingAck[n].owner != k && n !in ch.missed ==>
      n in later.waitingAck && later.waitingAck[n] == ch.waitingAck[n] && n !in later.missed
  }

  lemma AwakeStays<K, C>(l: Layer<K, C>, r: Layer<K, C>, k: K, m: K)
    requires Undisturbed(l, r, k) && m in l.streams && m != k && Awake(l, m)
    ensures Awake(r, m)
  {
    assert SameBusiness(l, r, m);
    var s := l.streams[m];
    if l.Current(m).Some? && s.queue != [] && !s.enqueued {
      var c := l.Current(m).value;
      var n :| n in l.channels[c].waitingAck && n !in l.channels[c].missed
        && l.channels[c].waitingAck[n].owner == m && l.channels[c].waitingAck[n].kind == Attach;
      assert KeepsPackets(l.channels[c], r.channels[c], k);
      assert n in r.channels[c].waitingAck;
    }
  }

  lemma OthersStay<K, C>(l: Layer<K, C>, r: Layer<K, C>, k: K)
    requires Undisturbed(l, r, k) && OthersAwake(l, k)
    ensures OthersAwake(r, k)
  {
    hide Undisturbed, Awake;
    UndisturbedKeys(l, r, k);
    forall m | m in r.streams && m != k ensures Awake(r, m) { AwakeStays(l, r, k, m); }
  }

  lemma UndisturbedKeys<K, C>(l: Layer<K, C>, r: Layer<K, C>, k: K)
    requires Undisturbed(l, r, k)
    ensures r.streams.Keys == l.streams.Keys && r.channels.Keys == l.channels.Keys
  {}

  lemma StreamUndisturbed<K, C>(l: Layer<K, C>, k: K, t: Stream<K, C>)
    requires k in l.streams
    ensures Undisturbed(l, l.SetStream(k, t), k)
  {}

  lemma ChannelUndisturbed<K, C>(l: Layer<K, C>, c: C, ch: Channel<K>, k: K)
    requires c in l.channels && KeepsPackets(l.channels[c], ch, k)
    ensures Undisturbed(l, l.SetChannel(c, ch), k)
  {}

  lemma Everyone<K, C>(l: Layer<K, C>, k: K)
    requires AllAwake(l)
    ensures OthersAwake(l, k)
  {}

  lemma Together<K, C>(l: Layer<K, C>, k: K)
    requires OthersAwake(l, k) && (k in l.streams ==> Awake(l, k))
    ensures AllAwake(l)
  {}

  // ---------------------------------------------------------------- getting in line and being served

  /** Getting in line wakes a stream, whatever happened to it before. */
  lemma LinkWakes<K, C>(l: Layer<K, C>, k: K)
    requires Inv(l) && k in l.streams && OthersAwake(l, k)
    ensures AllAwake(Link(l, k))
  {
    hide Inv, AllAwake, OthersAwake, Undisturbed;
    var r := Link(l, k);
    if l.Current(k).None? {
      assert Awake(r, k);
      Together(r, k);
    } else {
      SlotKnown(l, k);
      var c := l.Current(k).value;
      if l.streams[k].enqueued || l.streams[k].queue == [] {
        Together(r, k);
      } else {
        var l1 := EnqueueStream(l, c, k);
        ChannelUndisturbed(l, c, l1.channels[c], k);
        OthersStay(l, l1, k);
        StreamUndisturbed(l1, k, l1.streams[k].(enqueued := true));
        OthersStay(l1, r, k);
        assert Awake(r, k);
        Together(r, k);
      }
    }
  }

  lemma SlotKnown<K, C>(l: Layer<K, C>, k: K)
    requires Inv(l) && k in l.streams && l.Current(k).Some?
    ensures l.Current(k).value in l.channels && l.streams[k].current.Some?
    ensures l.streams[k].current.value < |l.streams[k].slots|
  {
    SlotInTable(l, k);
  }

  lemma TransmitUndisturbed<K, C>(l: Layer<K, C>, c: C, f: Frame<K>, k: K)
    requires c in l.channels && ChannelOk(l, c)
    ensures Undisturbed(l, Transmit(l, c, f), k)
  {
    ChannelUndisturbed(l, c, Transmit(l, c, f).channels[c], k);
  }

  lemma ChannelFacts<K, C>(l: Layer<K, C>, c: C)
    requires Inv(l) && c in l.channels
    ensures ChannelOk(l, c)
  {}

  lemma SendHeadWakes<K, C>(l: Layer<K, C>, c: C, k: K)
    requires Inv(l) && OthersAwake(l, k)
    requires k in l.streams && c in l.channels && !l.streams[k].enqueued && l.streams[k].queue != []
    ensures AllAwake(SendHead(l, c, k))
  {
    hide Inv, AllAwake, OthersAwake, Undisturbed, ChannelOk;
    var s := l.streams[k];
    var r := Transmit(l.SetStream(k, s.(queue := s.queue[1..])), c, s.queue[0].(late := false));
    ChannelFacts(l, c);
    SentKeeps(l, c, k);
    PopUndisturbed(l, c, k, s.(queue := s.queue[1..]), s.queue[0].(late := false));
    OthersStay(l, r, k);
    LinkWakes(r, k);
  }

  lemma PopUndisturbed<K, C>(l: Layer<K, C>, c: C, k: K, t: Stream<K, C>, f: Frame<K>)
    requires k in l.streams && c in l.channels && ChannelOk(l, c)
    ensures Undisturbed(l, Transmit(l.SetStream(k, t), c, f), k)
  {
    assert l.channels[c].txSeq !in l.channels[c].waitingAck;
    hide ChannelOk;
  }

  /** An attach packet on the wire is what the stream waits for. */
  lemma AttachKnocks<K, C>(l: Layer<K, C>, c: C, k: K)
    requires Inv(l) && c in l.channels && k in l.streams
    ensures var r := Transmit(l, c, Frame(k, Attach, ATTACH_SEGMENT, false)); Knocking(r.channels[c], k)
  {
    ChannelFacts(l, c);
    var r, n := Transmit(l, c, Frame(k, Attach, ATTACH_SEGMENT, false)), l.channels[c].txSeq;
    assert n in r.channels[c].waitingAck && n !in r.channels[c].missed;
  }

  lemma BeginUndisturbed<K, C>(l: Layer<K, C>, c: C)
    requires c in l.channels && l.channels[c].sending != [] && l.channels[c].sending[0] in l.streams
    ensures Undisturbed(l, Begin(l, c), l.channels[c].sending[0])
  {}

  lemma ServeFrontWakes<K, C>(l: Layer<K, C>, c: C)
    requires Inv(l) && AllAwake(l) && c in l.channels && l.channels[c].sending != []
    ensures AllAwake(ServeFront(l, c))
  {
    hide Inv, AllAwake, OthersAwake, Undisturbed;
    FrontMayTransmit(l, c);
    BeginKeeps(l, c);
    BegunReady(l, c);
    var k, r := l.channels[c].sending[0], Begin(l, c);
    Everyone(l, k);
    BeginUndisturbed(l, c);
    OthersStay(l, r, k);
    assert r.Check(true) == r;
    var t := r.streams[k];
    if t.queue == [] {
      assert Awake(r, k);
      Together(r, k);
    } else if t.slots[t.current.value].Acknowledged()
              || (t.queue[0].kind == Data && t.queue[0].seg.pos <= 0xffff && t.piggyback) {
      SendHeadWakes(r, c, k);
    } else {
      var f := Frame(k, Attach, ATTACH_SEGMENT, false);
      ChannelFacts(r, c);
      TransmitUndisturbed(r, c, f, k);
      OthersStay(r, Transmit(r, c, f), k);
      AttachKnocks(r, c, k);
      assert Transmit(r, c, f).Current(k) == Some(c);
      assert Awake(Transmit(r, c, f), k);
      Together(Transmit(r, c, f), k);
    }
  }

  lemma {:induction false} ServeWakes<K, C>(l: Layer<K, C>, c: C)
    requires Inv(l) && AllAwake(l) && c in l.channels && l.channels[c].sending != []
    ensures AllAwake(Serve(l, c))
    decreases l.channels[c].allowance, |l.channels[c].sending|
  {
    hide Inv, AllAwake;
    ServeFrontKeeps(l, c);
    ServeFrontWakes(l, c);
    var r := ServeFront(l, c);
    if r.channels[c].sending != [] && r.channels[c].allowance > 0 { ServeWakes(r, c); }
  }

  lemma GotReadyWakes<K, C>(l: Layer<K, C>, c: C)
    requires Inv(l) && AllAwake(l) && c in l.channels
    ensures AllAwake(GotReady(l, c))
  {
    hide Inv, AllAwake;
    if l.channels[c].sending != [] { ServeWakes(l, c); }
  }

  lemma LinkNowWakes<K, C>(l: Layer<K, C>, k: K)
    requires Inv(l) && k in l.streams && OthersAwake(l, k)
    ensures AllAwake(LinkNow(l, k))
  {
    hide Inv, AllAwake, OthersAwake;
    LinkWakes(l, k);
    LinkKeeps(l, k);
    var r := Link(l, k);
    if r.Current(k).Some? && r.Current(k).value in r.channels { GotReadyWakes(r, r.Current(k).value); }
  }

  /** A stream may change in any way if it gets in line afterwards. */
  lemma ChangedWakes<K, C>(l: Layer<K, C>, k: K, t: Stream<K, C>)
    requires OthersAwake(l, k) && k in l.streams && Inv(l.SetStream(k, t))
    ensures AllAwake(LinkNow(l.SetStream(k, t), k)) && AllAwake(Link(l.SetStream(k, t), k))
  {
    hide Inv, AllAwake, OthersAwake, Undisturbed;
    StreamUndisturbed(l, k, t);
    OthersStay(l, l.SetStream(k, t), k);
    LinkNowWakes(l.SetStream(k, t), k);
    LinkWakes(l.SetStream(k, t), k);
  }

  // ---------------------------------------------------------------- the operations

  lemma WriteSegmentWakes<K, C>(l: Layer<K, C>, k: K, seg: Segment)
    requires Inv(l) && AllAwake(l) && k in l.streams && seg.pos == l.streams[k].byteSeq && seg.data != []
    ensures AllAwake(WriteSegment(l, k, seg))
  {
    hide Inv, AllAwake, OthersAwake;
    var r := WrittenBeforeLink(l, k, seg);
    Everyone(l, k);
    ChangedWakes(l, k, r.streams[k]);
  }

  lemma EnqueueFrameWakes<K, C>(l: Layer<K, C>, k: K, f: Frame<K>)
    requires OthersAwake(l, k) && k in l.streams && Inv(Queued(l, k, f))
    ensures AllAwake(EnqueueFrame(l, k, f))
  {
    hide Inv, AllAwake, OthersAwake;
    ChangedWakes(l, k, Queued(l, k, f).streams[k]);
  }

  lemma MarkUndisturbed<K, C>(l: Layer<K, C>, c: C, n: nat, k: K)
    requires c in l.channels && n in l.channels[c].waitingAck && l.channels[c].waitingAck[n].owner == k
    ensures Undisturbed(l, Mark(l, c, n), k) && Undisturbed(l, Forget(l, c, {n}), k)
  {
    ChannelUndisturbed(l, c, Mark(l, c, n).channels[c], k);
    ChannelUndisturbed(l, c, Forget(l, c, {n}).channels[c], k);
  }

  /** A datagram that leaves the table wakes nobody and puts nobody to sleep. */
  lemma DatagramGone<K, C>(l: Layer<K, C>, r: Layer<K, C>, c: C, n: nat)
    requires AllAwake(l) && c in l.channels && n in l.channels[c].waitingAck
    requires l.channels[c].waitingAck[n].kind == Datagram || n in l.channels[c].missed
    requires r.streams == l.streams && c in r.channels && r == l.SetChannel(c, r.channels[c])
    requires r.channels[c].waitingAck == l.channels[c].waitingAck - {n}
    requires r.channels[c].missed <= l.channels[c].missed + {n}
    ensures AllAwake(r)
  {
    forall m | m in r.streams ensures Awake(r, m) {
      assert Awake(l, m);
      var s := l.streams[m];
      if l.Current(m).Some? && s.queue != [] && !s.enqueued {
        var d := l.Current(m).value;
        var i :| i in l.channels[d].waitingAck && i !in l.channels[d].missed
          && l.channels[d].waitingAck[i].owner == m && l.channels[d].waitingAck[i].kind == Attach;
        assert i in r.channels[d].waitingAck && i !in r.channels[d].missed;
      }
    }
  }

  lemma MissedWakes<K, C>(l: Layer<K, C>, c: C, n: nat)
    requires Inv(l) && AllAwake(l) && c in l.channels
    ensures AllAwake(Missed(l, c, n))
  {
    hide Inv, AllAwake, OthersAwake, Undisturbed;
    if n in l.channels[c].waitingAck {
      EntryFacts(l, c, n);
      var f := l.channels[c].waitingAck[n];
      var k, m := f.owner, Mark(l, c, n);
      Everyone(l, k);
      MarkUndisturbed(l, c, n, k);
      OthersStay(l, m, k);
      match f.kind {
        case Data => {
          QueuedAndMarked(l, c, n);
          EnqueueFrameWakes(m, k, f.(late := true));
        }
        case Attach => {
          MarkKeeps(l, c, n);
          LinkWakes(m, k);
        }
        case Datagram => {
          DatagramGone(l, Forget(m, c, {n}), c, n);
        }
      }
    }
  }

  lemma ExpireWakes<K, C>(l: Layer<K, C>, c: C, n: nat)
    requires AllAwake(l) && c in l.channels && (n in l.channels[c].waitingAck ==> n in l.channels[c].missed)
    ensures AllAwake(Expire(l, c, n))
  {
    hide AllAwake;
    if n in l.channels[c].waitingAck {
      DatagramGone(l, Forget(l, c, {n}), c, n);
    } else {
      assert l.channels[c].waitingAck - {n} == l.channels[c].waitingAck;
      assert Forget(l, c, {n}) == l;
    }
  }

  /** An acknowledged attachment needs no packet to wake its stream. */
  lemma AckedStaysAwake<K, C>(l: Layer<K, C>, r: Layer<K, C>, k: K)
    requires k in l.streams && k in r.streams && Awake(l, k) && r.streams[k].queue == l.streams[k].queue
    requires r.streams[k].slots == l.streams[k].slots && r.streams[k].current == l.streams[k].current
    requires r.streams[k].enqueued == l.streams[k].enqueued
    requires l.Current(k).Some? ==> l.streams[k].slots[l.streams[k].current.value].Acknowledged()
    ensures Awake(r, k)
  {}

  lemma ActivateWakes<K, C>(l: Layer<K, C>, c: C, k: K, rxSeq: nat)
    requires Inv(l) && k in l.streams && OthersAwake(l, k) && l.Current(k) == Some(c)
    requires l.streams[k].slots[l.streams[k].current.value].Acknowledged() ==> Awake(l, k)
    ensures AllAwake(Activate(l, c, k, rxSeq))
  {
    hide Inv, AllAwake, OthersAwake;
    var s := l.streams[k];
    if s.slots[s.current.value].Acknowledged() {
      Together(l, k);
    } else {
      ActivatedInv(l, c, k, rxSeq);
      ChangedWakes(l, k, Activated(s, s.current.value, rxSeq));
    }
  }

  lemma ActivatedInv<K, C>(l: Layer<K, C>, c: C, k: K, rxSeq: nat)
    requires Inv(l) && k in l.streams && l.Current(k) == Some(c)
    ensures Inv(l.SetStream(k, Activated(l.streams[k], l.streams[k].current.value, rxSeq)))
  {
    var s, i := l.streams[k], l.streams[k].current.value;
    var t := Activated(s, i, rxSeq);
    StreamFacts(l, k);
    hide TablesOk, ActiveOk, ScheduleOk, FramesOk, Conserved;
    ActiveShape(l, k, i, rxSeq);
    ActiveStreamOk(k, s, t);
    StreamFrames(l, k, t);
    StreamConserved(l, k, t);
    ActiveSchedule(l, k, i, rxSeq);
    KeepSchedule(l, l.SetStream(k, t));
  }

  lemma AcknowledgedWakes<K, C>(l: Layer<K, C>, c: C, n: nat, rxSeq: nat)
    requires Inv(l) && Homed(l) && AllAwake(l) && c in l.channels
    ensures AllAwake(Acknowledged(l, c, n, rxSeq))
  {
    hide Inv, AllAwake, OthersAwake, Undisturbed;
    if n in l.channels[c].waitingAck {
      assert HomedAt(l, c, n);
      AfterAckKeeps(l, c, n);
      var f := l.channels[c].waitingAck[n];
      var k, l1 := f.owner, Forget(l, c, {n});
      var r := AfterAck(l1, f);
      assert r.Check(true) == r && r.SetStream(k, r.streams[k]) == r;
      if f.kind == Datagram {
        DatagramGone(l, l1, c, n);
      } else {
        Everyone(l, k);
        MarkUndisturbed(l, c, n, k);
        OthersStay(l, l1, k);
        StreamUndisturbed(l1, k, r.streams[k]);
        OthersStay(l1, r, k);
        assert r.Current(k) == Some(c);
        if r.streams[k].slots[r.streams[k].current.value].Acknowledged() {
          OneAwake(l, k);
          AckedStaysAwake(l, r, k);
        }
        hide AfterAck, Activate;
        ActivateWakes(r, c, k, rxSeq);
      }
    }
  }

  lemma OneAwake<K, C>(l: Layer<K, C>, k: K)
    requires AllAwake(l) && k in l.streams
    ensures Awake(l, k)
  {}

  lemma SetPriorityWakes<K, C>(l: Layer<K, C>, k: K, priority: nat)
    requires Inv(l) && AllAwake(l) && k in l.streams
    ensures AllAwake(SetPriority(l, k, priority))
  {
    hide Inv, AllAwake, OthersAwake, Undisturbed;
    var s := l.streams[k];
    if s.priority != priority {
      Everyone(l, k);
      OneAwake(l, k);
      if s.enqueued {
        EnqueuedFacts(l, k);
        var c := l.Current(k).value;
        Rejoins(l, c, k, priority);
        SteppedKeeps(l, c, k, priority);
        var d := DequeueStream(l, c, k);
        ChannelUndisturbed(l, c, d.channels[c], k);
        OthersStay(l, d, k);
        StreamUndisturbed(d, k, s.(priority := priority, enqueued := false));
        OthersStay(d, Stepped(l, c, k, priority), k);
        LinkWakes(Stepped(l, c, k, priority), k);
      } else {
        var r := l.SetStream(k, s.(priority := priority));
        StreamUndisturbed(l, k, s.(priority := priority));
        OthersStay(l, r, k);
        assert r.Current(k) == l.Current(k);
        assert Awake(r, k);
        Together(r, k);
      }
    }
  }

  lemma AttachForWakes<K, C>(l: Layer<K, C>, k: K, c: C)
    requires Inv(l) && AllAwake(l) && k in l.streams && c in l.channels
    ensures AllAwake(AttachFor(l, k, c))
  {
    hide Inv, AllAwake, OthersAwake, Undisturbed, LinkNow, AttachFor, AllocateSid;
    AttachForIs(l, k, c);
    if l.streams[k].current == None && AllocateSid(l.channels[c]).Some? {
      var counter := AllocateSid(l.channels[c]).value;
      AllocatedFree(l.channels[c]);
      AttachedKeeps(l, k, c, counter);
      var r := Attached(l, k, c, counter);
      var l1 := l.SetStream(k, r.streams[k]);
      Everyone(l, k);
      StreamUndisturbed(l, k, r.streams[k]);
      OthersStay(l, l1, k);
      ChannelUndisturbed(l1, c, r.channels[c], k);
      OthersStay(l1, r, k);
      LinkNowWakes(r, k);
    }
  }

  /** A detached stream needs no waking, and its packets wake nobody else. */
  lemma UnlinkWakes<K, C>(l: Layer<K, C>, k: K, i: nat, c: C)
    requires Inv(l) && OthersAwake(l, k) && k in l.streams && i < |l.streams[k].slots|
    requires l.streams[k].slots[i].channel == Some(c) && c in l.channels
    ensures OthersAwake(Unlink(l, k, i), k)
  {
    hide Inv, OthersAwake, Undisturbed;
    var r := Unlink(l, k, i);
    var l1 := l.SetStream(k, r.streams[k]);
    StreamUndisturbed(l, k, r.streams[k]);
    OthersStay(l, l1, k);
    ChannelUndisturbed(l1, c, r.channels[c], k);
    OthersStay(l1, l1.SetChannel(c, r.channels[c]), k);
    CheckAwake(l1.SetChannel(c, r.channels[c]), r, k);
  }

  lemma CheckAwake<K, C>(l: Layer<K, C>, r: Layer<K, C>, k: K)
    requires OthersAwake(l, k) && r.streams == l.streams && r.channels == l.channels
    ensures OthersAwake(r, k)
  {
    forall m | m in r.streams && m != k ensures Awake(r, m) {
      assert Awake(l, m) && l.Current(m) == r.Current(m);
    }
  }

  lemma ClearWakes<K, C>(l: Layer<K, C>, k: K, i: nat, order: seq<nat>)
    requires Inv(l) && AllAwake(l) && k in l.streams && i < |l.streams[k].slots|
    ensures AllAwake(Clear(l, k, i, order))
  {
    hide Inv, AllAwake, OthersAwake, Undisturbed;
    if l.streams[k].slots[i].InUse() {
      UnlinkKeeps(l, k, i);
      var c := l.streams[k].slots[i].channel.value;
      if Walks(order, l.channels[c].waitingAck) {
        var queue := ClearKeeps(l, k, i, order, c);
        var u, gone := Unlink(l, k, i), Owned(l.channels[c].waitingAck, order, k);
        Everyone(l, k);
        UnlinkWakes(l, k, i, c);
        UnlinkTableSame(l, k, i, c);
        ReturnedWakes(u, k, c, queue, gone);
      }
    }
  }

  lemma UnlinkTableSame<K, C>(l: Layer<K, C>, k: K, i: nat, c: C)
    requires k in l.streams && i < |l.streams[k].slots| && l.streams[k].slots[i].channel == Some(c) && c in l.channels
    ensures c in Unlink(l, k, i).channels && Unlink(l, k, i).channels[c].waitingAck == l.channels[c].waitingAck
  {}

  lemma ReturnedWakes<K, C>(l: Layer<K, C>, k: K, c: C, queue: seq<Frame<K>>, gone: set<nat>)
    requires OthersAwake(l, k) && k in l.streams && c in l.channels && l.Current(k) == None
    requires forall n :: n in gone && n in l.channels[c].waitingAck ==> l.channels[c].waitingAck[n].owner == k
    ensures AllAwake(Returned(l, c, k, queue, gone))
  {
    hide AllAwake, OthersAwake, Undisturbed;
    var l1 := l.SetStream(k, l.streams[k].(queue := queue));
    var r := Returned(l, c, k, queue, gone);
    StreamUndisturbed(l, k, l1.streams[k]);
    OthersStay(l, l1, k);
    ChannelUndisturbed(l1, c, r.channels[c], k);
    OthersStay(l1, r, k);
    assert r.Current(k) == None;
    assert Awake(r, k);
    Together(r, k);
  }

  lemma PlainSame<K, C>(l: Layer<K, C>, r: Layer<K, C>)
    requires AllAwake(l) && r.streams.Keys == l.streams.Keys && r.channels.Keys == l.channels.Keys
    requires forall m :: m in l.streams ==> SameBusiness(l, r, m)
    requires forall c :: c in l.channels ==>
               r.channels[c].waitingAck == l.channels[c].waitingAck && r.channels[c].missed == l.channels[c].missed
    ensures AllAwake(r)
  {
    forall m | m in r.streams ensures Awake(r, m) {
      assert Awake(l, m) && SameBusiness(l, r, m);
      if l.Current(m).Some? && l.Current(m).value in l.channels && Knocking(l.channels[l.Current(m).value], m) {
        assert Knocking(r.channels[l.Current(m).value], m);
      }
    }
  }

  // ---------------------------------------------------------------- runs

  lemma {:induction false} WriteAllWakes<K, C>(l: Layer<K, C>, k: K, segs: seq<Segment>)
    requires Inv(l) && AllAwake(l) && k in l.streams && Consecutive(segs, l.streams[k].byteSeq)
    ensures AllAwake(WriteAll(l, k, segs))
    decreases |segs|
  {
    hide Inv, AllAwake;
    if segs != [] {
      WriteSegmentKeeps(l, k, segs[0]);
      WriteSegmentWakes(l, k, segs[0]);
      WriteSegmentByteSeq(l, k, segs[0]);
      WriteAllWakes(WriteSegment(l, k, segs[0]), k, segs[1..]);
    }
  }

  lemma {:induction false} FragmentsWake<K, C>(l: Layer<K, C>, k: K, fragments: seq<Segment>)
    requires Inv(l) && AllAwake(l) && k in l.streams
    ensures AllAwake(EnqueueFragments(l, k, fragments))
    decreases |fragments|
  {
    hide Inv, AllAwake, OthersAwake;
    if fragments != [] {
      var f := Frame(k, Datagram, fragments[0].(pos := l.streams[k].byteSeq), false);
      Everyone(l, k);
      QueuedKeeps(l, k, f);
      EnqueueFrameWakes(l, k, f);
      EnqueueFrameKeeps(l, k, f);
      EnqueueFrameHistory(l, k, f);
      FragmentsWake(EnqueueFrame(l, k, f), k, fragments[1..]);
    }
  }

  lemma DatagramWakes<K, C>(l: Layer<K, C>, k: K, data: seq<byte>, mtu: nat)
    requires Inv(l) && AllAwake(l) && k in l.streams && mtu > 0
    ensures AllAwake(SendDatagram(l, k, data, mtu))
  {
    hide Inv, AllAwake, OthersAwake, Carries;
    var fragments := Cut(0, data, Flags(false, false, false), mtu);
    FragmentsGood(l, k, fragments);
    FragmentsWake(l, k, fragments);
    var r := EnqueueFragments(l, k, fragments);
    Everyone(r, k);
    LinkNowWakes(r, k);
  }

  lemma {:induction false} ClearSidsWake<K, C>(l: Layer<K, C>, c: C, copy: map<nat, (K, nat)>, walk: seq<SidWalk>)
    requires Healthy(l) && AllAwake(l) && StillListed(l, c, copy, walk) && Walkable(l, c, copy, walk)
    ensures AllAwake(ClearSids(l, c, copy, walk))
    decreases |walk|
  {
    hide Inv, Homed, ReceiveOk, AllAwake, Clear, Walks, Swept;
    if walk != [] {
      var (k, i) := copy[walk[0].sid];
      ListedSlot(l, c, walk[0].sid);
      ClearListed(l, c, walk[0].sid, walk[0].order);
      ClearWakes(l, k, i, walk[0].order);
      var r := Clear(l, k, i, walk[0].order);
      SweptListed(l, r, c, copy, walk);
      ClearSidsWake(r, c, copy, walk[1..]);
    }
  }

  lemma OnlyReceiveWakes<K, C>(l: Layer<K, C>, r: Layer<K, C>)
    requires AllAwake(l) && OnlyReceive(l, r)
    ensures AllAwake(r)
  {
    hide AllAwake;
    forall m | m in l.streams ensures SameBusiness(l, r, m) {}
    PlainSame(l, r);
  }

  lemma StopWakes<K, C>(l: Layer<K, C>, c: C, walk: seq<SidWalk>, rxWalk: seq<nat>)
    requires Healthy(l) && AllAwake(l) && c in l.channels
    requires WalksAll(l, c, walk) && Walkable(l, c, l.channels[c].txSids, walk) && Walks(rxWalk, l.channels[c].rxSids)
    ensures AllAwake(Stop(l, c, walk, rxWalk))
  {
    hide Inv, Homed, ReceiveOk, AllAwake, ClearSids, RxClearSids, OnlyReceive, Walkable, Advanced;
    var r := ClearSids(l, c, l.channels[c].txSids, walk);
    ClearSidsKeep(l, c, l.channels[c].txSids, walk);
    ClearSidsWake(l, c, l.channels[c].txSids, walk);
    NotFailed(r);
    RxWalkAll(r, c, rxWalk);
    RxClearSidsKeep(r, c, r.channels[c].rxSids, rxWalk);
    OnlyReceiveWakes(r, RxClearSids(r, c, r.channels[c].rxSids, rxWalk));
  }

  // ---------------------------------------------------------------- detach_all

  /** Detaching channel `c` does not concern streams attached elsewhere; its own streams stay or are detached. */
  ghost predicate Away<K, C>(l: Layer<K, C>, x: Layer<K, C>, c: C) {
    && x.streams.Keys == l.streams.Keys && x.channels.Keys == l.channels.Keys
    && (forall m :: m in l.streams ==>
          if l.Current(m) == Some(c) then x.Current(m) == Some(c) || x.Current(m) == None else SameBusiness(l, x, m))
    && (forall d :: d in l.channels && d != c ==> x.channels[d] == l.channels[d])
  }

  lemma AwayUnlink<K, C>(l: Layer<K, C>, x: Layer<K, C>, c: C, k: K, i: nat)
    requires Away(l, x, c) && k in x.streams && i < |x.streams[k].slots| && c in x.channels
    requires x.streams[k].slots[i].channel == Some(c) && x.Current(k) == Some(c) && SlotsOk(x.streams[k])
    ensures Away(l, Unlink(x, k, i), c)
  {
    var r := Unlink(x, k, i);
    assert r.Current(k) == None;
    forall m | m in l.streams && m != k ensures r.streams[m] == x.streams[m] && r.Current(m) == x.Current(m) {}
  }

  lemma {:induction false} AwaySids<K, C>(
      l: Layer<K, C>, x: Layer<K, C>, c: C, copy: map<nat, (K, nat)>, walk: seq<SidWalk>, pending: map<nat, Frame<K>>)
    requires StillListed(x, c, copy, walk) && Walkable(x, c, copy, walk)
    requires x.channels[c].waitingAck == map[] && Inv(Restore(x, c, pending)) && OwnersHere(x, c, pending)
    requires Homed(x) && ReceiveOk(x) && Away(l, x, c)
    ensures Away(l, ClearSids(x, c, copy, walk), c)
    decreases |walk|
  {
    hide Inv, OwnersHere, Homed, ReceiveOk, Away, Swept;
    if walk != [] {
      var (k, i) := copy[walk[0].sid];
      NothingToWalk(walk[0].order, x.channels[c].waitingAck);
      ClearListedAside(x, c, walk[0].sid, pending);
      AwayStep(l, x, c, walk[0].sid, pending);
      hide Clear, Walks;
      SidsStep(walk);
      var r := Clear(x, k, i, []);
      SweptListed(x, r, c, copy, walk);
      AwaySids(l, r, c, copy, walk[1..], pending);
    }
  }

  lemma AwayStep<K, C>(l: Layer<K, C>, x: Layer<K, C>, c: C, sid: nat, pending: map<nat, Frame<K>>)
    requires c in x.channels && x.channels[c].waitingAck == map[] && Inv(Restore(x, c, pending)) && Away(l, x, c)
    requires sid in x.channels[c].txSids
    ensures var (k, i) := x.channels[c].txSids[sid]; x.On(k, i, c) && Away(l, Clear(x, k, i, []), c)
  {
    hide Inv, Away;
    var (k, i) := x.channels[c].txSids[sid];
    var whole := Restore(x, c, pending);
    ListedSlot(whole, c, sid);
    SlotsFactInv(whole, k);
    ClearAside(x, k, i, c, pending);
    AwayUnlink(l, x, c, k, i);
  }

  lemma AwayGiveBack<K, C>(l: Layer<K, C>, x: Layer<K, C>, c: C, f: Frame<K>)
    requires Away(l, x, c) && f.owner in l.streams && l.Current(f.owner) == Some(c)
    requires f.owner in x.streams && x.Current(f.owner) == None && !f.late
    ensures Away(l, GiveBack(x, f), c) && GiveBack(x, f).streams.Keys == x.streams.Keys
    ensures forall m :: m in x.streams ==> GiveBack(x, f).Current(m) == x.Current(m)
  {
    hide GiveBack;
    GiveBackDetached(x, f);
    AwayQueue(l, x, c, f.owner, InsertFrame(x.streams[f.owner].queue, f.(late := true)));
  }

  lemma AwayQueue<K, C>(l: Layer<K, C>, x: Layer<K, C>, c: C, k: K, queue: seq<Frame<K>>)
    requires Away(l, x, c) && k in l.streams && l.Current(k) == Some(c) && k in x.streams && x.Current(k) == None
    ensures Away(l, x.SetStream(k, x.streams[k].(queue := queue)), c)
    ensures forall m :: m in x.streams ==> x.SetStream(k, x.streams[k].(queue := queue)).Current(m) == x.Current(m)
  {}

  lemma {:induction false} AwayGiveAll<K, C>(l: Layer<K, C>, x: Layer<K, C>, c: C, copy: map<nat, Frame<K>>, order: seq<nat>)
    requires Away(l, x, c) && (forall n :: n in order ==> n in copy)
    requires forall n :: n in copy ==>
               !copy[n].late && copy[n].owner in l.streams && l.Current(copy[n].owner) == Some(c)
               && copy[n].owner in x.streams && x.Current(copy[n].owner) == None
    ensures Away(l, GiveAllBack(x, copy, order), c)
    decreases |order|
  {
    hide Away, GiveBack;
    if order != [] {
      AwayGiveBack(l, x, c, copy[order[0]]);
      AwayGiveAll(l, GiveBack(x, copy[order[0]]), c, copy, order[1..]);
    }
  }

  lemma AwaySelf<K, C>(l: Layer<K, C>, c: C)
    requires c in l.channels
    ensures Away(l, Restore(l, c, map[]), c)
  {}

  /** Streams elsewhere stay awake, and the channel's own streams are detached. */
  lemma AwayWakes<K, C>(l: Layer<K, C>, r: Layer<K, C>, c: C)
    requires AllAwake(l) && Away(l, r, c) && Dead(r, c)
    ensures AllAwake(r)
  {
    forall m | m in r.streams ensures Awake(r, m) {
      assert Awake(l, m);
      if l.Current(m) != Some(c) {
        assert SameBusiness(l, r, m);
        if l.Current(m).Some? && l.Current(m).value in l.channels && Knocking(l.channels[l.Current(m).value], m) {
          assert Knocking(r.channels[l.Current(m).value], m);
        }
      }
    }
  }

  lemma DetachAllWakes<K, C>(l: Layer<K, C>, c: C, walk: seq<SidWalk>, order: seq<nat>)
    requires Healthy(l) && AllAwake(l) && c in l.channels && WalksAll(l, c, walk)
    requires Walks(order, l.channels[c].waitingAck)
    requires Walkable(Restore(l, c, map[]), c, l.channels[c].txSids, walk)
    ensures AllAwake(DetachAll(l, c, walk, order))
  {
    hide Inv, Homed, ReceiveOk, AllAwake, OwnersHere, ClearSids, GiveAllBack, Walkable, Sids, Away, Dead, SentKept;
    var e, pending, copy := Restore(l, c, map[]), l.channels[c].waitingAck, l.channels[c].txSids;
    AwaySelf(l, c);
    OwnersAtHome(l, c);
    AsideHomes(l, c);
    assert Restore(e, c, pending) == l;
    SidsCovered(l, c, walk);
    AwaySids(l, e, c, copy, walk, pending);
    var r := ClearSids(e, c, copy, walk);
    AllCleared(l, c, walk);
    PendingFacts(l, c);
    AwayGiveAll(l, r, c, pending, order);
    DetachAllKeeps(l, c, walk, order);
    assert r.Check(true) == r by { NotFailed(Restore(r, c, pending)); }
    EmptyTableIsDead(DetachAll(l, c, walk, order), c);
    AwayWakes(l, DetachAll(l, c, walk, order), c);
  }

  lemma PendingFacts<K, C>(l: Layer<K, C>, c: C)
    requires Healthy(l) && c in l.channels
    ensures forall n :: n in l.channels[c].waitingAck ==>
              var f := l.channels[c].waitingAck[n]; !f.late && f.owner in l.streams && l.Current(f.owner) == Some(c)
  {
    hide Inv;
    forall n | n in l.channels[c].waitingAck
      ensures var f := l.channels[c].waitingAck[n]; !f.late && f.owner in l.streams && l.Current(f.owner) == Some(c)
    {
      EntryFacts(l, c, n);
      assert HomedAt(l, c, n);
    }
  }

  // ---------------------------------------------------------------- results

  lemma AllowWakes<K, C>(l: Layer<K, C>, c: C, allowance: nat)
    requires AllAwake(l) && c in l.channels
    ensures AllAwake(l.SetChannel(c, l.channels[c].(allowance := allowance)))
  {
    hide AllAwake;
    PlainSame(l, l.SetChannel(c, l.channels[c].(allowance := allowance)));
  }

  lemma PiggybackWakes<K, C>(l: Layer<K, C>, k: K, piggyback: bool)
    requires AllAwake(l) && k in l.streams
    ensures AllAwake(l.SetStream(k, l.streams[k].(piggyback := piggyback)))
  {
    hide AllAwake;
    PlainSame(l, l.SetStream(k, l.streams[k].(piggyback := piggyback)));
  }

  lemma StepWakes<K, C>(l: Layer<K, C>, op: Op<K, C>)
    requires Sound(l) && AllAwake(l)
    ensures AllAwake(Step(l, op))
  {
    SoundIsHealthy(l);
    hide Inv, Homed, ReceiveOk, AllAwake, Walkable, OnlyReceive, Sound;
    if Enabled(l, op) && !l.failed {
      match op
      case Write(k, data, end, mtu) =>
        CutConsecutive(l.streams[k].byteSeq, data, end, mtu);
        WriteAllWakes(l, k, Cut(l.streams[k].byteSeq, data, end, mtu));
      case WriteDatagram(k, data, mtu) => DatagramWakes(l, k, data, mtu);
      case Allow(c, allowance) => AllowWakes(l, c, allowance);
      case Ready(c) => GotReadyWakes(l, c);
      case WindowGrows(k) => Everyone(l, k); LinkNowWakes(l, k);
      case Piggyback(k, piggyback) => PiggybackWakes(l, k, piggyback);
      case Acked(c, n, rxSeq) => AcknowledgedWakes(l, c, n, rxSeq);
      case Lost(c, n) => MissedWakes(l, c, n);
      case Expired(c, n) => ExpireWakes(l, c, n);
      case AttachTo(k, c) => AttachForWakes(l, k, c);
      case ClearTx(k, i, order) => ClearWakes(l, k, i, order);
      case Prioritise(k, priority) => SetPriorityWakes(l, k, priority);
      case AttachRx(k, i, c, sid, seqNo) =>
        RxAttachOnly(l, k, i, c, sid, seqNo);
        OnlyReceiveWakes(l, RxAttach(l, k, i, c, sid, seqNo));
      case ClearRx(k, i) =>
        RxClearOnly(l, k, i);
        OnlyReceiveWakes(l, RxClear(l, k, i));
      case StopChannel(c, walk, rxWalk) => StopWakes(l, c, walk, rxWalk);
      case Detach(c, walk, order) => DetachAllWakes(l, c, walk, order);
    }
  }

  /** In every reachable state, an attached stream with something to send is in line or about to be woken. */
  lemma {:induction false} RunAwake<K, C>(priorities: map<K, nat>, channels: set<C>, ops: seq<Op<K, C>>)
    ensures AllAwake(Play(Initial(priorities, channels), ops))
    decreases |ops|
  {
    hide Sound, Step, AllAwake;
    if ops == [] {
      InitialAwake<K, C>(priorities, channels);
    } else {
      RunSound(priorities, channels, ops[..|ops| - 1]);
      RunAwake(priorities, channels, ops[..|ops| - 1]);
      StepWakes(Play(Initial(priorities, channels), ops[..|ops| - 1]), ops[|ops| - 1]);
    }
  }

  lemma InitialAwake<K, C>(priorities: map<K, nat>, channels: set<C>)
    ensures AllAwake(Initial<K, C>(priorities, channels))
  {
    var l := Initial<K, C>(priorities, channels);
    forall k | k in l.streams ensures Awake(l, k) { assert l.streams[k] == FreshStream(priorities[k]); }
  }

  lemma {:induction false} ServeStops<K, C>(l: Layer<K, C>, c: C)
    requires c in l.channels && l.channels[c].sending != []
    ensures c in Serve(l, c).channels
    ensures Serve(l, c).channels[c].sending == [] || Serve(l, c).channels[c].allowance == 0
    decreases l.channels[c].allowance, |l.channels[c].sending|
  {
    var r := ServeFront(l, c);
    if r.channels[c].sending != [] && r.channels[c].allowance > 0 { ServeStops(r, c); }
  }

  /**
   Work is conserved: after any run that has not stopped the host, serving a channel's line stops with flow
   control shut, or with every stream attached to the channel out of things to send or waiting for its
   attachment to be acknowledged.
   */
  lemma WorkConserving<K, C>(priorities: map<K, nat>, channels: set<C>, ops: seq<Op<K, C>>, c: C, k: K)
    requires c in Play(Initial(priorities, channels), ops).channels && !Play(Initial(priorities, channels), ops).failed
    requires var r := GotReady(Play(Initial(priorities, channels), ops), c);
             && c in r.channels && r.channels[c].allowance > 0
             && k in r.streams && r.Current(k) == Some(c) && r.streams[k].queue != []
    ensures var r := GotReady(Play(Initial(priorities, channels), ops), c);
            && r.streams[k].current.Some? && r.streams[k].current.value < |r.streams[k].slots|
            && !r.streams[k].slots[r.streams[k].current.value].Acknowledged() && Knocking(r.channels[c], k)
  {
    var l := Play(Initial(priorities, channels), ops);
    RunHealthy(priorities, channels, ops);
    RunAwake(priorities, channels, ops);
    hide Play, Initial, Inv, AllAwake;
    GotReadyWakes(l, c);
    ReadyKeeps(l, c);
    if l.channels[c].sending != [] { ServeStops(l, c); }
    var r := GotReady(l, c);
    assert r.channels[c].sending == [];
    SlotKnown(r, k);
    OneAwake(r, k);
    if r.streams[k].enqueued { InLine(r, k); }
  }

  /**
   With flow control still open, every segment that a stream with an acknowledged attachment waits for is on
   the wire, in a packet that was not reported missed.
   */
  lemma AllOnTheWire<K, C>(priorities: map<K, nat>, channels: set<C>, ops: seq<Op<K, C>>, c: C, k: K, p: nat)
    requires c in Play(Initial(priorities, channels), ops).channels && !Play(Initial(priorities, channels), ops).failed
    requires var r := GotReady(Play(Initial(priorities, channels), ops), c);
             && c in r.channels && r.channels[c].allowance > 0 && k in r.streams && r.Current(k) == Some(c)
             && r.streams[k].current.Some? && r.streams[k].current.value < |r.streams[k].slots|
             && r.streams[k].slots[r.streams[k].current.value].Acknowledged() && p in r.streams[k].waiting
    ensures OnChannel(GotReady(Play(Initial(priorities, channels), ops), c), k, p)
  {
    var l := Play(Initial(priorities, channels), ops);
    var r := GotReady(l, c);
    RunHealthy(priorities, channels, ops);
    hide Play, Initial, Inv, GotReady;
    if r.streams[k].queue != [] { WorkConserving(priorities, channels, ops, c, k); }
    ReadyKeeps(l, c);
    StreamFacts(r, k);
  }

  lemma ReadyKeeps<K, C>(l: Layer<K, C>, c: C)
    requires Inv(l) && c in l.channels
    ensures Inv(GotReady(l, c))
  {
    hide Inv;
    if l.channels[c].sending != [] { ServeKeeps(l, c); }
  }

  lemma InLine<K, C>(l: Layer<K, C>, k: K)
    requires Inv(l) && k in l.streams && l.streams[k].enqueued
    ensures l.Current(k).Some? && l.Current(k).value in l.channels && l.channels[l.Current(k).value].sending != []
  {
    assert EnqueuedOk(l, k);
  }
}
