/**
 What moves with a stream: every packet in a channel's table belongs to a stream that transmits on that
 channel, receive attachments agree with the receive tables, and stream counters never go back.
 */
module StreamHomes {
  import opened Options
  import opened Segments
  import opened StreamLayer
  import opened StreamInvariants
  import opened StreamSteps
  import opened StreamOps
  import opened StreamAttach

  ghost predicate HomedAt<K, C>(l: Layer<K, C>, c: C, n: nat)
    requires c in l.channels && n in l.channels[c].waitingAck
  {
    var k := l.channels[c].waitingAck[n].owner;
    k in l.streams && l.Current(k) == Some(c)
  }

  /** Every packet awaiting acknowledgment belongs to a stream attached to that channel. */
  ghost predicate Homed<K, C>(l: Layer<K, C>) {
    forall c, n :: c in l.channels && n in l.channels[c].waitingAck ==> HomedAt(l, c, n)
  }

  ghost predicate RxListed<K, C>(l: Layer<K, C>, k: K, i: nat)
    requires k in l.streams && i < |l.streams[k].rxSlots| && l.streams[k].rxSlots[i].channel.Some?
  {
    var slot := l.streams[k].rxSlots[i];
    var c := slot.channel.value;
    c in l.channels && slot.sid in l.channels[c].rxSids && l.channels[c].rxSids[slot.sid] == (k, i)
  }

  ghost predicate RxSlotHas<K, C>(l: Layer<K, C>, c: C, sid: nat)
    requires c in l.channels && sid in l.channels[c].rxSids
  {
    var (k, i) := l.channels[c].rxSids[sid];
    && k in l.streams && i < |l.streams[k].rxSlots|
    && l.streams[k].rxSlots[i].channel == Some(c) && l.streams[k].rxSlots[i].sid == sid
  }

  /** receive_sids_ names a slot exactly when the slot is active under that id. */
  ghost predicate ReceiveOk<K, C>(l: Layer<K, C>) {
    && (forall k, i :: k in l.streams && 0 <= i < |l.streams[k].rxSlots| && l.streams[k].rxSlots[i].channel.Some?
          ==> RxListed(l, k, i))
    && (forall c, sid :: c in l.channels && sid in l.channels[c].rxSids ==> RxSlotHas(l, c, sid))
  }

  /** Nothing that was put on the wire is taken back. */
  ghost predicate SentKept<K>(ch: Channel<K>, later: Channel<K>) {
    forall n :: n in ch.sent ==> n in later.sent && later.sent[n] == ch.sent[n]
  }

  /** Everyone stays attached as before, and only streams attached to a channel put packets in its table. */
  ghost predicate Carries<K, C>(l: Layer<K, C>, r: Layer<K, C>) {
    && r.streams.Keys == l.streams.Keys && r.channels.Keys == l.channels.Keys
    && (forall k :: k in l.streams ==> r.Current(k) == l.Current(k) && r.streams[k].rxSlots == l.streams[k].rxSlots)
    && (forall c :: c in l.channels ==>
          && r.channels[c].rxSids == l.channels[c].rxSids && r.channels[c].sidCounter == l.channels[c].sidCounter
          && SentKept(l.channels[c], r.channels[c]))
    && (forall c, n :: c in r.channels && n in r.channels[c].waitingAck ==> Came(l, r, c, n))
  }

  ghost predicate Came<K, C>(l: Layer<K, C>, r: Layer<K, C>, c: C, n: nat)
    requires c in r.channels && n in r.channels[c].waitingAck
  {
    || (c in l.channels && n in l.channels[c].waitingAck && l.channels[c].waitingAck[n] == r.channels[c].waitingAck[n])
    || HomedAt(r, c, n)
  }

  lemma CarriesThen<K, C>(a: Layer<K, C>, b: Layer<K, C>, d: Layer<K, C>)
    requires Carries(a, b) && Carries(b, d)
    ensures Carries(a, d)
  {
    hide Came, HomedAt, SentKept;
    forall c | c in a.channels ensures SentKept(a.channels[c], d.channels[c]) {
      SentKeptThen(a.channels[c], b.channels[c], d.channels[c]);
    }
    forall c, n | c in d.channels && n in d.channels[c].waitingAck ensures Came(a, d, c, n) {
      assert Came(b, d, c, n);
      CameThen(a, b, d, c, n);
    }
  }

  lemma SentKeptThen<K>(a: Channel<K>, b: Channel<K>, d: Channel<K>)
    requires SentKept(a, b) && SentKept(b, d)
    ensures SentKept(a, d)
  {}

  lemma CameThen<K, C>(a: Layer<K, C>, b: Layer<K, C>, d: Layer<K, C>, c: C, n: nat)
    requires c in d.channels && n in d.channels[c].waitingAck && Came(b, d, c, n)
    requires c in b.channels && n in b.channels[c].waitingAck ==> Came(a, b, c, n)
    requires d.streams.Keys == b.streams.Keys && forall k :: k in b.streams ==> d.Current(k) == b.Current(k)
    ensures Came(a, d, c, n)
  {}

  lemma CarriesHome<K, C>(l: Layer<K, C>, r: Layer<K, C>)
    requires Homed(l) && ReceiveOk(l) && Carries(l, r)
    ensures Homed(r) && ReceiveOk(r)
  {
    forall c, n | c in r.channels && n in r.channels[c].waitingAck ensures HomedAt(r, c, n) {
      assert Came(l, r, c, n);
      if !HomedAt(r, c, n) { assert HomedAt(l, c, n); }
    }
    forall k, i | k in r.streams && 0 <= i < |r.streams[k].rxSlots| && r.streams[k].rxSlots[i].channel.Some?
      ensures RxListed(r, k, i)
    {
      assert RxListed(l, k, i);
    }
    forall c, sid | c in r.channels && sid in r.channels[c].rxSids ensures RxSlotHas(r, c, sid) {
      assert RxSlotHas(l, c, sid);
    }
  }

  lemma CarriesSelf<K, C>(l: Layer<K, C>)
    ensures Carries(l, l)
  {
    forall c, n | c in l.channels && n in l.channels[c].waitingAck ensures Came(l, l, c, n) {}
  }

  lemma StreamCarries<K, C>(l: Layer<K, C>, k: K, t: Stream<K, C>)
    requires k in l.streams && t.rxSlots == l.streams[k].rxSlots
    requires t.current == l.streams[k].current && SameSlots(l.streams[k].slots, t.slots)
    ensures Carries(l, l.SetStream(k, t))
  {
    var r := l.SetStream(k, t);
    forall c, n | c in r.channels && n in r.channels[c].waitingAck ensures Came(l, r, c, n) {}
  }

  lemma ChannelCarries<K, C>(l: Layer<K, C>, c: C, ch: Channel<K>)
    requires c in l.channels && ch.rxSids == l.channels[c].rxSids && ch.sidCounter == l.channels[c].sidCounter
    requires SentKept(l.channels[c], ch)
    requires forall n :: n in ch.waitingAck ==>
               || (n in l.channels[c].waitingAck && l.channels[c].waitingAck[n] == ch.waitingAck[n])
               || (ch.waitingAck[n].owner in l.streams && l.Current(ch.waitingAck[n].owner) == Some(c))
    ensures Carries(l, l.SetChannel(c, ch))
  {
    var r := l.SetChannel(c, ch);
    forall d, n | d in r.channels && n in r.channels[d].waitingAck ensures Came(l, r, d, n) {}
  }

  lemma CheckCarries<K, C>(l: Layer<K, C>, b: bool)
    ensures Carries(l, l.Check(b))
  {
    forall c, n | c in l.channels && n in l.channels[c].waitingAck ensures Came(l, l.Check(b), c, n) {}
  }

  lemma LinkCarries<K, C>(l: Layer<K, C>, k: K)
    requires k in l.streams
    ensures Carries(l, Link(l, k))
  {
    hide Carries;
    CarriesSelf(l);
    CheckCarries(l, false);
    if l.Current(k).Some? && l.Current(k).value in l.channels && !l.streams[k].enqueued && l.streams[k].queue != [] {
      var c := l.Current(k).value;
      var l1 := EnqueueStream(l, c, k);
      ChannelCarries(l, c, l1.channels[c]);
      StreamCarries(l1, k, l1.streams[k].(enqueued := true));
      CarriesThen(l, l1, Link(l, k));
    }
  }

  lemma SendHeadCarries<K, C>(l: Layer<K, C>, c: C, k: K)
    requires k in l.streams && c in l.channels && l.streams[k].queue != [] && l.streams[k].queue[0].owner == k
    requires l.Current(k) == Some(c) && ChannelOk(l, c)
    ensures Carries(l, SendHead(l, c, k))
  {
    hide Carries;
    var s := l.streams[k];
    var l1 := l.SetStream(k, s.(queue := s.queue[1..]));
    var f := s.queue[0].(late := false);
    StreamCarries(l, k, s.(queue := s.queue[1..]));
    ChannelCarries(l1, c, Transmit(l1, c, f).channels[c]);
    LinkCarries(Transmit(l1, c, f), k);
    CarriesThen(l, l1, Transmit(l1, c, f));
    CarriesThen(l, Transmit(l1, c, f), SendHead(l, c, k));
  }

  lemma BegunHead<K, C>(l: Layer<K, C>, c: C)
    requires Inv(l) && c in l.channels && l.channels[c].sending != []
    ensures l.channels[c].sending[0] in l.streams && Inv(Begin(l, c))
    ensures c in Begin(l, c).channels && ChannelOk(Begin(l, c), c)
    ensures var t := Begin(l, c).streams[l.channels[c].sending[0]]; t.queue != [] ==> t.queue[0].owner == l.channels[c].sending[0]
  {
    BeginKeeps(l, c);
    var k := l.channels[c].sending[0];
    if Begin(l, c).streams[k].queue != [] { HeadOk(Begin(l, c), k); }
  }

  lemma ServeFrontCarries<K, C>(l: Layer<K, C>, c: C)
    requires Inv(l) && c in l.channels && l.channels[c].sending != []
    ensures Carries(l, ServeFront(l, c))
  {
    hide Inv, Carries;
    FrontMayTransmit(l, c);
    BegunHead(l, c);
    BegunReady(l, c);
    var k, r, ch := l.channels[c].sending[0], Begin(l, c), l.channels[c];
    var l1 := l.SetChannel(c, ch.(sending := ch.sending[1..]));
    ChannelCarries(l, c, l1.channels[c]);
    StreamCarries(l1, k, Begun(l.streams[k]));
    CarriesThen(l, l1, r);
    var t := r.streams[k];
    if t.queue != [] {
      assert r.Check(true) == r;
      if t.slots[t.current.value].Acknowledged()
         || (t.queue[0].kind == Data && t.queue[0].seg.pos <= 0xffff && t.piggyback) {
        SendHeadCarries(r, c, k);
      } else {
        ChannelCarries(r, c, Transmit(r, c, Frame(k, Attach, ATTACH_SEGMENT, false)).channels[c]);
      }
      CarriesThen(l, r, ServeFront(l, c));
    }
  }

  lemma {:induction false} ServeCarries<K, C>(l: Layer<K, C>, c: C)
    requires Inv(l) && c in l.channels && l.channels[c].sending != []
    ensures Carries(l, Serve(l, c))
    decreases l.channels[c].allowance, |l.channels[c].sending|
  {
    hide Inv, Carries;
    ServeFrontKeeps(l, c);
    ServeFrontCarries(l, c);
    var r := ServeFront(l, c);
    if r.channels[c].sending != [] && r.channels[c].allowance > 0 {
      ServeCarries(r, c);
      CarriesThen(l, r, Serve(r, c));
    }
  }

  lemma LinkNowCarries<K, C>(l: Layer<K, C>, k: K)
    requires Inv(l) && k in l.streams
    ensures Carries(l, LinkNow(l, k))
  {
    hide Inv, Carries;
    LinkKeeps(l, k);
    LinkCarries(l, k);
    var r := Link(l, k);
    if r.Current(k).Some? {
      var c := r.Current(k).value;
      if c in r.channels && r.channels[c].sending != [] {
        ServeCarries(r, c);
        if r.channels[c].allowance > 0 { CarriesThen(l, r, Serve(r, c)); }
      }
    }
  }

  // ---------------------------------------------------------------- the operations

  lemma EnqueueFrameCarries<K, C>(l: Layer<K, C>, k: K, f: Frame<K>)
    requires Inv(l) && k in l.streams && FrameOk(k, l.streams[k], f) && f.kind != Attach
    ensures Carries(l, EnqueueFrame(l, k, f))
  {
    hide Inv, Carries;
    QueuedKeeps(l, k, f);
    StreamCarries(l, k, Queued(l, k, f).streams[k]);
    LinkNowCarries(Queued(l, k, f), k);
    CarriesThen(l, Queued(l, k, f), EnqueueFrame(l, k, f));
  }

  lemma WriteSegmentCarries<K, C>(l: Layer<K, C>, k: K, seg: Segment)
    requires Inv(l) && k in l.streams && seg.pos == l.streams[k].byteSeq && seg.data != []
    ensures Carries(l, WriteSegment(l, k, seg))
  {
    hide Inv, Carries;
    var r := WrittenBeforeLink(l, k, seg);
    StreamCarries(l, k, r.streams[k]);
    LinkNowCarries(r, k);
    CarriesThen(l, r, WriteSegment(l, k, seg));
  }

  lemma ForgetCarries<K, C>(l: Layer<K, C>, c: C, seqs: set<nat>)
    requires c in l.channels
    ensures Carries(l, Forget(l, c, seqs))
  {
    ChannelCarries(l, c, Forget(l, c, seqs).channels[c]);
  }

  lemma MissedCarries<K, C>(l: Layer<K, C>, c: C, n: nat)
    requires Inv(l) && c in l.channels
    ensures Carries(l, Missed(l, c, n))
  {
    hide Inv, Carries;
    if n in l.channels[c].waitingAck {
      EntryFacts(l, c, n);
      var f := l.channels[c].waitingAck[n];
      var late, m := f.(late := true), Mark(l, c, n);
      ChannelCarries(l, c, m.channels[c]);
      match f.kind {
        case Data => {
          var q := Queued(m, f.owner, late);
          QueuedAndMarked(l, c, n);
          StreamCarries(m, f.owner, q.streams[f.owner]);
          CarriesThen(l, m, q);
          LinkNowCarries(q, f.owner);
          CarriesThen(l, q, LinkNow(q, f.owner));
        }
        case Attach => {
          LinkCarries(m, f.owner);
          CarriesThen(l, m, Link(m, f.owner));
        }
        case Datagram => {
          ForgetCarries(m, c, {n});
          CarriesThen(l, m, Forget(m, c, {n}));
        }
      }
    } else {
      CarriesSelf(l);
    }
  }

  lemma ActivateCarries<K, C>(l: Layer<K, C>, c: C, k: K, rxSeq: nat)
    requires k in l.streams
    ensures Carries(l, Activate(l, c, k, rxSeq))
  {
    hide Carries;
    var s := l.streams[k];
    CarriesSelf(l);
    if l.Current(k) == Some(c) && !s.slots[s.current.value].Acknowledged() {
      var r := l.SetStream(k, Activated(s, s.current.value, rxSeq));
      StreamCarries(l, k, Activated(s, s.current.value, rxSeq));
      LinkCarries(r, k);
      CarriesThen(l, r, Link(r, k));
    }
  }

  lemma AcknowledgedCarries<K, C>(l: Layer<K, C>, c: C, n: nat, rxSeq: nat)
    requires Inv(l) && c in l.channels
    ensures Carries(l, Acknowledged(l, c, n, rxSeq))
  {
    hide Inv, Carries;
    if n in l.channels[c].waitingAck {
      EntryFacts(l, c, n);
      var f, r := l.channels[c].waitingAck[n], Forget(l, c, {n});
      ForgetCarries(l, c, {n});
      var s := l.streams[f.owner];
      match f.kind {
        case Data => {
          var t := if f.seg.pos in s.waiting
            then s.(waiting := s.waiting - {f.seg.pos}, waitingSize := s.waitingSize - |f.seg.data|) else s;
          var u := r.SetStream(f.owner, t).Check(t.waitingSize >= 0);
          StreamCarries(r, f.owner, t);
          CheckCarries(r.SetStream(f.owner, t), t.waitingSize >= 0);
          ActivateCarries(u, c, f.owner, rxSeq);
          CarriesThen(l, r, r.SetStream(f.owner, t));
          CarriesThen(l, r.SetStream(f.owner, t), u);
          CarriesThen(l, u, Activate(u, c, f.owner, rxSeq));
        }
        case Attach => {
          ActivateCarries(r, c, f.owner, rxSeq);
          CarriesThen(l, r, Activate(r, c, f.owner, rxSeq));
        }
        case Datagram => {}
      }
    } else {
      CarriesSelf(l);
    }
  }

  lemma SetPriorityCarries<K, C>(l: Layer<K, C>, k: K, priority: nat)
    requires Inv(l) && k in l.streams
    ensures Carries(l, SetPriority(l, k, priority))
  {
    hide Inv, Carries;
    var s := l.streams[k];
    CarriesSelf(l);
    if s.priority != priority {
      var r := l.SetStream(k, s.(priority := priority));
      StreamCarries(l, k, s.(priority := priority));
      if s.enqueued {
        EnqueuedFacts(l, k);
        var c := l.Current(k).value;
        var d := DequeueStream(r, c, k);
        ChannelCarries(r, c, d.channels[c]);
        ChannelCarries(d, c, EnqueueStream(d, c, k).channels[c]);
        CarriesThen(l, r, d);
        CarriesThen(l, d, EnqueueStream(d, c, k));
      }
    }
  }

  // ---------------------------------------------------------------- attachments

  lemma AttachedHomes<K, C>(l: Layer<K, C>, k: K, c: C, counter: nat)
    requires Homed(l) && ReceiveOk(l) && k in l.streams && c in l.channels && |l.streams[k].slots| == 2
    requires l.streams[k].current == None
    ensures Homed(Attached(l, k, c, counter)) && ReceiveOk(Attached(l, k, c, counter))
  {
    var r := Attached(l, k, c, counter);
    forall d, n | d in r.channels && n in r.channels[d].waitingAck ensures HomedAt(r, d, n) {
      assert HomedAt(l, d, n);
    }
    ReceiveSame(l, r);
  }

  lemma ReceiveSame<K, C>(l: Layer<K, C>, r: Layer<K, C>)
    requires ReceiveOk(l) && r.streams.Keys == l.streams.Keys && r.channels.Keys == l.channels.Keys
    requires forall k :: k in l.streams ==> r.streams[k].rxSlots == l.streams[k].rxSlots
    requires forall c :: c in l.channels ==> r.channels[c].rxSids == l.channels[c].rxSids
    ensures ReceiveOk(r)
  {
    forall k, i | k in r.streams && 0 <= i < |r.streams[k].rxSlots| && r.streams[k].rxSlots[i].channel.Some?
      ensures RxListed(r, k, i)
    {
      assert RxListed(l, k, i);
    }
    forall c, sid | c in r.channels && sid in r.channels[c].rxSids ensures RxSlotHas(r, c, sid) {
      assert RxSlotHas(l, c, sid);
    }
  }

  /** Attaching moves the stream counter past the number it took. */
  lemma AttachForHomes<K, C>(l: Layer<K, C>, k: K, c: C)
    requires Inv(l) && Homed(l) && ReceiveOk(l) && k in l.streams && c in l.channels
    ensures Homed(AttachFor(l, k, c)) && ReceiveOk(AttachFor(l, k, c))
    ensures Advanced(l, AttachFor(l, k, c))
    ensures AttachFor(l, k, c) != l ==>
              && AllocateSid(l.channels[c]).Some?
              && l.channels[c].sidCounter <= AllocateSid(l.channels[c]).value < AttachFor(l, k, c).channels[c].sidCounter
  {
    hide Inv, Homed, ReceiveOk, Carries, AttachFor, Attached, LinkNow, AllocateSid, Advanced;
    AttachForIs(l, k, c);
    AdvancedSelf(l);
    if l.streams[k].current == None && AllocateSid(l.channels[c]).Some? {
      var counter := AllocateSid(l.channels[c]).value;
      AllocatedFree(l.channels[c]);
      AttachedKnown(l, k, c, counter);
      AttachedAdvances(l, k, c, counter);
      AttachedKeeps(l, k, c, counter);
      AttachedHomes(l, k, c, counter);
      var r := Attached(l, k, c, counter);
      LinkNowCarries(r, k);
      CarriesHome(r, LinkNow(r, k));
      CarriesCounters(r, LinkNow(r, k));
      AdvancedThen(l, r, LinkNow(r, k));
    }
  }

  lemma AdvancedSelf<K, C>(l: Layer<K, C>)
    ensures Advanced(l, l)
  {}

  lemma AdvancedThen<K, C>(a: Layer<K, C>, b: Layer<K, C>, d: Layer<K, C>)
    requires Advanced(a, b) && Advanced(b, d)
    ensures Advanced(a, d)
  {}

  lemma AttachedAdvances<K, C>(l: Layer<K, C>, k: K, c: C, counter: nat)
    requires k in l.streams && c in l.channels && |l.streams[k].slots| == 2 && counter >= l.channels[c].sidCounter
    ensures var r := Attached(l, k, c, counter);
            c in r.channels && r.channels[c].sidCounter == counter + 1 && Advanced(l, r)
  {}

  /** Stream counters never go back, and packets once sent stay sent. */
  ghost predicate Advanced<K, C>(l: Layer<K, C>, r: Layer<K, C>) {
    && r.channels.Keys == l.channels.Keys
    && forall c :: c in l.channels ==>
         r.channels[c].sidCounter >= l.channels[c].sidCounter && SentKept(l.channels[c], r.channels[c])
  }

  lemma CarriesCounters<K, C>(l: Layer<K, C>, r: Layer<K, C>)
    requires Carries(l, r)
    ensures Advanced(l, r)
    ensures forall c :: c in l.channels ==> r.channels[c].sidCounter == l.channels[c].sidCounter
  {}

  /** Packets of a cleared stream are gone from its channel; no other channel had any. */
  lemma ClearHomes<K, C>(l: Layer<K, C>, k: K, i: nat, order: seq<nat>, c: C)
    requires Inv(l) && Homed(l) && ReceiveOk(l)
    requires k in l.streams && i < |l.streams[k].slots| && l.streams[k].slots[i].channel == Some(c)
    requires c in l.channels && Walks(order, l.channels[c].waitingAck)
    ensures Homed(Clear(l, k, i, order)) && ReceiveOk(Clear(l, k, i, order))
    ensures Cleared(l, Clear(l, k, i, order), c, k, l.streams[k].slots[i].sid)
  {
    var queue := ClearKeeps(l, k, i, order, c);
    assert SlotsOk(l.streams[k]);
    assert l.Current(k) == Some(c);
    ReturnedHomes(l, k, i, c, queue, Owned(l.channels[c].waitingAck, order, k));
  }

  /** What clear leaves behind. */
  ghost predicate Cleared<K, C>(l: Layer<K, C>, r: Layer<K, C>, c: C, k: K, sid: nat) {
    && r.streams.Keys == l.streams.Keys && r.channels.Keys == l.channels.Keys && c in l.channels && k in l.streams
    && r.Current(k) == None && (forall m :: m in l.streams && m != k ==> r.Current(m) == l.Current(m))
    && r.channels[c].txSids == l.channels[c].txSids - {sid}
    && r.channels[c].rxSids == l.channels[c].rxSids
    && (forall d :: d in l.channels ==>
          r.channels[d].sidCounter == l.channels[d].sidCounter && r.channels[d].sent == l.channels[d].sent)
    && (forall n :: n in r.channels[c].waitingAck ==>
          n in l.channels[c].waitingAck && r.channels[c].waitingAck[n] == l.channels[c].waitingAck[n])
  }

  lemma ReturnedHomes<K, C>(l: Layer<K, C>, k: K, i: nat, c: C, queue: seq<Frame<K>>, gone: set<nat>)
    requires Homed(l) && ReceiveOk(l) && k in l.streams && i < |l.streams[k].slots| && c in l.channels
    requires l.streams[k].slots[i].channel == Some(c) && l.Current(k) == Some(c) && SlotsOk(l.streams[k])
    requires forall n :: n in l.channels[c].waitingAck && l.channels[c].waitingAck[n].owner == k ==> n in gone
    ensures k in Unlink(l, k, i).streams && c in Unlink(l, k, i).channels
    ensures Homed(Returned(Unlink(l, k, i), c, k, queue, gone))
    ensures ReceiveOk(Returned(Unlink(l, k, i), c, k, queue, gone))
    ensures Cleared(l, Returned(Unlink(l, k, i), c, k, queue, gone), c, k, l.streams[k].slots[i].sid)
  {
    hide Homed, ReceiveOk, Cleared;
    var r := Returned(Unlink(l, k, i), c, k, queue, gone);
    ReturnedCleared(l, k, i, c, queue, gone);
    ReturnedHomed(l, r, k, c);
    ReceiveSame(l, r);
  }

  lemma ReturnedCleared<K, C>(l: Layer<K, C>, k: K, i: nat, c: C, queue: seq<Frame<K>>, gone: set<nat>)
    requires k in l.streams && i < |l.streams[k].slots| && c in l.channels
    requires l.streams[k].slots[i].channel == Some(c) && l.Current(k) == Some(c) && SlotsOk(l.streams[k])
    ensures k in Unlink(l, k, i).streams && c in Unlink(l, k, i).channels
    ensures Cleared(l, Returned(Unlink(l, k, i), c, k, queue, gone), c, k, l.streams[k].slots[i].sid)
  {
    var r := Returned(Unlink(l, k, i), c, k, queue, gone);
    forall m | m in l.streams && m != k ensures r.Current(m) == l.Current(m) {}
  }

  /** Where `k` was cleared off `c`, only its own packets left. */
  lemma ReturnedHomed<K, C>(l: Layer<K, C>, r: Layer<K, C>, k: K, c: C)
    requires Homed(l) && k in l.streams && c in l.channels && l.Current(k) == Some(c)
    requires r.streams.Keys == l.streams.Keys && r.channels.Keys == l.channels.Keys
    requires forall m :: m in l.streams && m != k ==> r.Current(m) == l.Current(m)
    requires forall d :: d in l.channels && d != c ==> r.channels[d] == l.channels[d]
    requires forall n :: n in r.channels[c].waitingAck ==>
               n in l.channels[c].waitingAck && r.channels[c].waitingAck[n] == l.channels[c].waitingAck[n]
               && l.channels[c].waitingAck[n].owner != k
    ensures Homed(r)
  {
    forall d, n | d in r.channels && n in r.channels[d].waitingAck ensures HomedAt(r, d, n) {
      assert HomedAt(l, d, n);
    }
  }

  // ---------------------------------------------------------------- receive attachments

  /** A table entry for another slot still agrees when only slot (k, i) changed. */
  lemma RxSlotStays<K, C>(l: Layer<K, C>, r: Layer<K, C>, k: K, i: nat, d: C, sid: nat)
    requires k in l.streams && i < |l.streams[k].rxSlots| && d in l.channels && sid in l.channels[d].rxSids
    requires r.streams.Keys == l.streams.Keys && (forall m :: m in l.streams && m != k ==> r.streams[m] == l.streams[m])
    requires |r.streams[k].rxSlots| == |l.streams[k].rxSlots|
    requires r.streams[k].rxSlots == l.streams[k].rxSlots[i := r.streams[k].rxSlots[i]]
    requires RxSlotHas(l, d, sid) && l.channels[d].rxSids[sid] != (k, i)
    requires d in r.channels && sid in r.channels[d].rxSids && r.channels[d].rxSids[sid] == l.channels[d].rxSids[sid]
    ensures RxSlotHas(r, d, sid)
  {
    var (m, j) := l.channels[d].rxSids[sid];
    assert m != k || j != i;
  }

  /** Clearing and attaching receive slots never disagrees with the table. */
  lemma RxClearKeeps<K, C>(l: Layer<K, C>, k: K, i: nat)
    requires ReceiveOk(l) && k in l.streams && i < |l.streams[k].rxSlots|
    ensures ReceiveOk(RxClear(l, k, i)) && RxClear(l, k, i).failed == l.failed
  {
    if l.streams[k].rxSlots[i].channel.Some? {
      assert RxListed(l, k, i);
      var r := RxClear(l, k, i);
      forall m, j | m in r.streams && 0 <= j < |r.streams[m].rxSlots| && r.streams[m].rxSlots[j].channel.Some?
        ensures RxListed(r, m, j)
      {
        assert RxListed(l, m, j);
      }
      forall d, sid | d in r.channels && sid in r.channels[d].rxSids ensures RxSlotHas(r, d, sid) {
        hide RxListed;
        RxSlotStays(l, r, k, i, d, sid);
      }
    }
  }

  lemma RxSetActiveKeeps<K, C>(l: Layer<K, C>, k: K, i: nat, c: C, sid: nat, seqNo: nat)
    requires ReceiveOk(l) && k in l.streams && i < |l.streams[k].rxSlots| && c in l.channels
    requires l.streams[k].rxSlots[i].channel.None? && sid !in l.channels[c].rxSids
    ensures ReceiveOk(RxSetActive(l, k, i, c, sid, seqNo))
  {
    var r := RxSetActive(l, k, i, c, sid, seqNo);
    forall m, j | m in r.streams && 0 <= j < |r.streams[m].rxSlots| && r.streams[m].rxSlots[j].channel.Some?
      ensures RxListed(r, m, j)
    {
      if m != k || j != i { assert RxListed(l, m, j); }
    }
    forall d, n | d in r.channels && n in r.channels[d].rxSids ensures RxSlotHas(r, d, n) {
      hide RxListed;
      if d != c || n != sid {
        assert RxSlotHas(l, d, n) && l.channels[d].rxSids[n] != (k, i);
        RxSlotStays(l, r, k, i, d, n);
      }
    }
  }

  /** The peer names an id that another slot holds already. */
  ghost predicate IdTaken<K, C>(l: Layer<K, C>, k: K, i: nat, c: C, sid: nat)
    requires c in l.channels
  {
    sid in l.channels[c].rxSids && l.channels[c].rxSids[sid] != (k, i)
  }

  lemma RxFacts<K, C>(l: Layer<K, C>, k: K, i: nat, c: C, sid: nat)
    requires ReceiveOk(l) && k in l.streams && i < |l.streams[k].rxSlots| && c in l.channels
    ensures l.streams[k].rxSlots[i].channel.Some? ==> RxListed(l, k, i)
    ensures sid in l.channels[c].rxSids ==> RxSlotHas(l, c, sid)
  {}

  lemma RxClearTable<K, C>(l: Layer<K, C>, k: K, i: nat, c: C, sid: nat)
    requires k in l.streams && i < |l.streams[k].rxSlots| && c in l.channels
    requires l.streams[k].rxSlots[i].channel.Some? ==> RxListed(l, k, i)
    requires sid in l.channels[c].rxSids ==> RxSlotHas(l, c, sid)
    requires l.streams[k].rxSlots[i].channel != Some(c) || l.streams[k].rxSlots[i].sid != sid
    ensures k in RxClear(l, k, i).streams && c in RxClear(l, k, i).channels
    ensures |RxClear(l, k, i).streams[k].rxSlots| == |l.streams[k].rxSlots|
    ensures RxClear(l, k, i).streams[k].rxSlots[i].channel.None?
    ensures sid in RxClear(l, k, i).channels[c].rxSids <==> IdTaken(l, k, i, c, sid)
  {}

  /** An attach packet trips the assertion of set_active exactly when its id belongs to another slot. */
  lemma RxAttachFailsExactly<K, C>(l: Layer<K, C>, k: K, i: nat, c: C, sid: nat, seqNo: nat)
    requires ReceiveOk(l) && !l.failed && k in l.streams && i < |l.streams[k].rxSlots| && c in l.channels
    ensures RxAttach(l, k, i, c, sid, seqNo).failed <==> IdTaken(l, k, i, c, sid)
    ensures !IdTaken(l, k, i, c, sid) ==> ReceiveOk(RxAttach(l, k, i, c, sid, seqNo))
  {
    var slot := l.streams[k].rxSlots[i];
    hide ReceiveOk;
    if slot.channel == Some(c) && slot.sid == sid {
      RxFacts(l, k, i, c, sid);
      Redundant(l, k, i, if slot.sidSeq < seqNo then slot.sidSeq else seqNo);
    } else {
      RxClearKeeps(l, k, i);
      RxFacts(l, k, i, c, sid);
      RxClearTable(l, k, i, c, sid);
      if !IdTaken(l, k, i, c, sid) { RxSetActiveKeeps(RxClear(l, k, i), k, i, c, sid, seqNo); }
    }
  }

  lemma Redundant<K, C>(l: Layer<K, C>, k: K, i: nat, seqNo: nat)
    requires ReceiveOk(l) && k in l.streams && i < |l.streams[k].rxSlots|
    ensures var s := l.streams[k]; ReceiveOk(l.SetStream(k, s.(rxSlots := s.rxSlots[i := s.rxSlots[i].(sidSeq := seqNo)])))
  {
    var s := l.streams[k];
    var r := l.SetStream(k, s.(rxSlots := s.rxSlots[i := s.rxSlots[i].(sidSeq := seqNo)]));
    forall m, j | m in r.streams && 0 <= j < |r.streams[m].rxSlots| && r.streams[m].rxSlots[j].channel.Some?
      ensures RxListed(r, m, j)
    {
      assert RxListed(l, m, j);
    }
    forall d, n | d in r.channels && n in r.channels[d].rxSids ensures RxSlotHas(r, d, n) {
      var (m, j) := l.channels[d].rxSids[n];
      assert RxSlotHas(l, d, n);
      assert m == k && j == i ==> r.streams[m].rxSlots[j].channel == l.streams[m].rxSlots[j].channel;
    }
  }

  /** Everything but receive attachments is as it was. */
  ghost predicate OnlyReceive<K, C>(l: Layer<K, C>, r: Layer<K, C>) {
    && r.streams.Keys == l.streams.Keys && r.channels.Keys == l.channels.Keys
    && (forall k :: k in l.streams ==> r.streams[k] == l.streams[k].(rxSlots := r.streams[k].rxSlots))
    && (forall c :: c in l.channels ==> r.channels[c] == l.channels[c].(rxSids := r.channels[c].rxSids))
  }

  lemma OnlyAt<K, C>(l: Layer<K, C>, k: K, rxSlots: seq<RxSlot<C>>, c: C, rxSids: map<nat, (K, nat)>, ok: bool)
    requires k in l.streams && c in l.channels
    ensures OnlyReceive(l, l.SetStream(k, l.streams[k].(rxSlots := rxSlots))
                            .SetChannel(c, l.channels[c].(rxSids := rxSids)).Check(ok))
  {}

  lemma OnlyThen<K, C>(a: Layer<K, C>, b: Layer<K, C>, d: Layer<K, C>)
    requires OnlyReceive(a, b) && OnlyReceive(b, d)
    ensures OnlyReceive(a, d)
  {}

  lemma RxClearOnly<K, C>(l: Layer<K, C>, k: K, i: nat)
    requires k in l.streams && i < |l.streams[k].rxSlots|
    ensures OnlyReceive(l, RxClear(l, k, i)) && k in RxClear(l, k, i).streams
    ensures |RxClear(l, k, i).streams[k].rxSlots| == |l.streams[k].rxSlots|
  {
    var s := l.streams[k];
    var slot := s.rxSlots[i];
    if slot.channel.Some? && slot.channel.value in l.channels {
      hide OnlyReceive;
      var c := slot.channel.value;
      var ch := l.channels[c];
      OnlyAt(l, k, s.rxSlots[i := slot.(channel := None)], c, ch.rxSids - {slot.sid},
             slot.sid in ch.rxSids && ch.rxSids[slot.sid] == (k, i));
    }
  }

  lemma RxAttachOnly<K, C>(l: Layer<K, C>, k: K, i: nat, c: C, sid: nat, seqNo: nat)
    requires k in l.streams && i < |l.streams[k].rxSlots| && c in l.channels
    ensures OnlyReceive(l, RxAttach(l, k, i, c, sid, seqNo))
  {
    var s := l.streams[k];
    var slot := s.rxSlots[i];
    if slot.channel == Some(c) && slot.sid == sid {
      var first := if slot.sidSeq < seqNo then slot.sidSeq else seqNo;
      OnlyAt(l, k, s.rxSlots[i := slot.(sidSeq := first)], c, l.channels[c].rxSids, true);
    } else {
      RxClearOnly(l, k, i);
      var l1 := RxClear(l, k, i);
      assert c in l1.channels;
      hide OnlyReceive, RxClear;
      var t, ch := l1.streams[k], l1.channels[c];
      OnlyAt(l1, k, t.rxSlots[i := RxSlot(Some(c), sid, seqNo)], c,
             if sid in ch.rxSids then ch.rxSids else ch.rxSids[sid := (k, i)],
             t.rxSlots[i].channel.None? && sid !in ch.rxSids);
      OnlyThen(l, l1, RxSetActive(l1, k, i, c, sid, seqNo));
    }
  }

  lemma OnlyReceiveKeeps<K, C>(l: Layer<K, C>, r: Layer<K, C>)
    requires Inv(l) && Homed(l) && OnlyReceive(l, r) && !r.failed
    ensures Inv(r) && Homed(r)
  {
    hide TablesOk, ActiveOk, ScheduleOk, FramesOk, Conserved;
    KeepShape(l, r);
    KeepFrames(l, r);
    KeepSchedule(l, r);
    forall d, n | d in r.channels && n in r.channels[d].waitingAck ensures HomedAt(r, d, n) {
      assert HomedAt(l, d, n);
    }
  }
}
