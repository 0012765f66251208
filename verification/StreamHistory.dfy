/** What streams remember of their writes changes only by writing and by acknowledgment, whatever else happens. */
module StreamHistory {
  import opened Options
  import opened StreamLayer

  ghost predicate SameHistory<K, C>(l: Layer<K, C>, r: Layer<K, C>) {
    && r.streams.Keys == l.streams.Keys && r.channels.Keys == l.channels.Keys
    && forall k :: k in l.streams ==>
         && r.streams[k].byteSeq == l.streams[k].byteSeq && r.streams[k].segments == l.streams[k].segments
         && r.streams[k].waiting == l.streams[k].waiting
         && |r.streams[k].slots| == |l.streams[k].slots| && |r.streams[k].rxSlots| == |l.streams[k].rxSlots|
  }

  lemma HistoryThen<K, C>(a: Layer<K, C>, b: Layer<K, C>, d: Layer<K, C>)
    requires SameHistory(a, b) && SameHistory(b, d)
    ensures SameHistory(a, d)
  {}

  lemma OneStreamHistory<K, C>(l: Layer<K, C>, k: K, t: Stream<K, C>)
    requires k in l.streams && t.byteSeq == l.streams[k].byteSeq && t.segments == l.streams[k].segments
    requires t.waiting == l.streams[k].waiting
    requires |t.slots| == |l.streams[k].slots| && |t.rxSlots| == |l.streams[k].rxSlots|
    ensures SameHistory(l, l.SetStream(k, t))
  {}

  lemma ChannelHistory<K, C>(l: Layer<K, C>, c: C, ch: Channel<K>)
    requires c in l.channels
    ensures SameHistory(l, l.SetChannel(c, ch))
  {}

  lemma LinkHistory<K, C>(l: Layer<K, C>, k: K)
    requires k in l.streams
    ensures SameHistory(l, Link(l, k))
  {
    if l.Current(k).Some? && l.Current(k).value in l.channels && !l.streams[k].enqueued && l.streams[k].queue != [] {
      hide SameHistory;
      var c := l.Current(k).value;
      var l1 := EnqueueStream(l, c, k);
      ChannelHistory(l, c, l1.channels[c]);
      OneStreamHistory(l1, k, l1.streams[k].(enqueued := true));
      HistoryThen(l, l1, Link(l, k));
    }
  }

  lemma SendHeadHistory<K, C>(l: Layer<K, C>, c: C, k: K)
    requires k in l.streams && c in l.channels && l.streams[k].queue != []
    ensures SameHistory(l, SendHead(l, c, k))
  {
    hide SameHistory;
    var s := l.streams[k];
    var l1 := l.SetStream(k, s.(queue := s.queue[1..]));
    var l2 := Transmit(l1, c, s.queue[0].(late := false));
    OneStreamHistory(l, k, s.(queue := s.queue[1..]));
    ChannelHistory(l1, c, l2.channels[c]);
    LinkHistory(l2, k);
    HistoryThen(l, l1, l2);
    HistoryThen(l, l2, SendHead(l, c, k));
  }

  lemma CheckHistory<K, C>(l: Layer<K, C>, b: bool)
    ensures SameHistory(l, l.Check(b))
  {}

  lemma TransmitOnHistory<K, C>(l: Layer<K, C>, c: C, k: K)
    ensures SameHistory(l, TransmitOn(l, c, k))
  {
    hide SameHistory;
    CheckHistory(l, false);
    if CanTransmit(l, c, k) {
      var s := l.streams[k];
      var t := s.(enqueued := false, queue := DropAcked(s.queue, s.waiting));
      var l1 := l.SetStream(k, t);
      OneStreamHistory(l, k, t);
      if t.queue != [] {
        var slot, head := t.slots[t.current.value], t.queue[0];
        var l2 := l1.Check(!t.init && slot.active);
        CheckHistory(l1, !t.init && slot.active);
        HistoryThen(l, l1, l2);
        SendHeadHistory(l2, c, k);
        SendHeadHistory(l1, c, k);
        HistoryThen(l, l2, SendHead(l2, c, k));
        HistoryThen(l, l1, SendHead(l1, c, k));
        var attach := Transmit(l1, c, Frame(k, Attach, ATTACH_SEGMENT, false));
        ChannelHistory(l1, c, attach.channels[c]);
        HistoryThen(l, l1, attach);
      }
    }
  }

  lemma {:induction false} ServeHistory<K, C>(l: Layer<K, C>, c: C)
    requires c in l.channels && l.channels[c].sending != []
    ensures SameHistory(l, Serve(l, c))
    decreases l.channels[c].allowance, |l.channels[c].sending|
  {
    hide SameHistory;
    var ch := l.channels[c];
    var l1 := l.SetChannel(c, ch.(sending := ch.sending[1..]));
    ChannelHistory(l, c, l1.channels[c]);
    TransmitOnHistory(l1, c, ch.sending[0]);
    var r := ServeFront(l, c);
    HistoryThen(l, l1, r);
    if r.channels[c].sending != [] && r.channels[c].allowance > 0 {
      ServeHistory(r, c);
      HistoryThen(l, r, Serve(r, c));
    }
  }

  lemma LinkNowHistory<K, C>(l: Layer<K, C>, k: K)
    requires k in l.streams
    ensures SameHistory(l, LinkNow(l, k))
  {
    hide SameHistory;
    LinkHistory(l, k);
    var r := Link(l, k);
    if k in r.streams && r.Current(k).Some? {
      var c := r.Current(k).value;
      if c in r.channels && r.channels[c].sending != [] {
        ServeHistory(r, c);
        HistoryThen(l, r, Serve(r, c));
      }
    }
  }

  lemma EnqueueFrameHistory<K, C>(l: Layer<K, C>, k: K, f: Frame<K>)
    requires k in l.streams
    ensures SameHistory(l, EnqueueFrame(l, k, f))
  {
    hide SameHistory;
    var s := l.streams[k];
    var l1 := l.SetStream(k, s.(queue := InsertFrame(s.queue, f)));
    OneStreamHistory(l, k, l1.streams[k]);
    LinkNowHistory(l1, k);
    HistoryThen(l, l1, LinkNow(l1, k));
  }

  lemma StreamMissedHistory<K, C>(l: Layer<K, C>, f: Frame<K>)
    requires f.owner in l.streams
    ensures SameHistory(l, StreamMissed(l, f).0)
  {
    EnqueueFrameHistory(l, f.owner, f);
    LinkHistory(l, f.owner);
  }

  lemma MissedHistory<K, C>(l: Layer<K, C>, c: C, n: nat)
    requires c in l.channels
    ensures SameHistory(l, Missed(l, c, n))
  {
    if n in l.channels[c].waitingAck && l.channels[c].waitingAck[n].owner in l.streams {
      var f, ch := l.channels[c].waitingAck[n], l.channels[c];
      var l1 := l.SetChannel(c, ch.(missed := ch.missed + {n}));
      ChannelHistory(l, c, l1.channels[c]);
      StreamMissedHistory(l1, f.(late := true));
      var r := StreamMissed(l1, f.(late := true)).0;
      hide SameHistory;
      HistoryThen(l, l1, r);
      if c in r.channels {
        ChannelHistory(r, c, Forget(r, c, {n}).channels[c]);
        HistoryThen(l, r, Forget(r, c, {n}));
      }
    }
  }

  lemma ActivateHistory<K, C>(l: Layer<K, C>, c: C, k: K, rxSeq: nat)
    requires k in l.streams
    ensures SameHistory(l, Activate(l, c, k, rxSeq))
  {
    var s := l.streams[k];
    if l.Current(k) == Some(c) && !s.slots[s.current.value].Acknowledged() {
      var i := s.current.value;
      var t := s.(slots := s.slots[i := s.slots[i].(sidSeq := Some(rxSeq), active := true)], init := false);
      OneStreamHistory(l, k, t);
      LinkHistory(l.SetStream(k, t), k);
      HistoryThen(l, l.SetStream(k, t), Link(l.SetStream(k, t), k));
    }
  }

  /** `l` with the waiting set of `k` replaced. */
  ghost function Waits<K, C>(l: Layer<K, C>, k: K, waiting: set<nat>): Layer<K, C>
    requires k in l.streams
  {
    l.SetStream(k, l.streams[k].(waiting := waiting))
  }

  /** All that an acknowledgment changes: a data packet in the table releases the position it carries. */
  ghost function Released<K, C>(l: Layer<K, C>, c: C, n: nat): Layer<K, C>
    requires c in l.channels
  {
    if n !in l.channels[c].waitingAck then l
    else
      var f := l.channels[c].waitingAck[n];
      if f.owner !in l.streams || f.kind != Data then l
      else Waits(l, f.owner, l.streams[f.owner].waiting - {f.seg.pos})
  }

  lemma ReleasedHistory<K, C>(l: Layer<K, C>, c: C, f: Frame<K>, t: Stream<K, C>, l1: Layer<K, C>, ok: bool)
    requires f.owner in l.streams && c in l.channels && c in l1.channels && l1 == l.SetChannel(c, l1.channels[c])
    requires t == l.streams[f.owner].(waiting := l.streams[f.owner].waiting - {f.seg.pos}, waitingSize := t.waitingSize)
    ensures SameHistory(Waits(l, f.owner, l.streams[f.owner].waiting - {f.seg.pos}), l1.SetStream(f.owner, t).Check(ok))
  {}

  lemma AcknowledgedHistory<K, C>(l: Layer<K, C>, c: C, n: nat, rxSeq: nat)
    requires c in l.channels
    ensures SameHistory(Released(l, c, n), Acknowledged(l, c, n, rxSeq))
  {
    hide SameHistory, Activate;
    CheckHistory(l, true);
    if n in l.channels[c].waitingAck {
      var f, l1 := l.channels[c].waitingAck[n], Forget(l, c, {n});
      ChannelHistory(l, c, l1.channels[c]);
      if f.owner !in l.streams {
        CheckHistory(l1, false);
        HistoryThen(l, l1, l1.Check(false));
      } else if f.kind == Data {
        var s := l.streams[f.owner];
        var t := if f.seg.pos in s.waiting
          then s.(waiting := s.waiting - {f.seg.pos}, waitingSize := s.waitingSize - |f.seg.data|) else s;
        assert t.waiting == s.waiting - {f.seg.pos};
        var l2 := l1.SetStream(f.owner, t).Check(t.waitingSize >= 0);
        ReleasedHistory(l, c, f, t, l1, t.waitingSize >= 0);
        ActivateHistory(l2, c, f.owner, rxSeq);
        HistoryThen(Released(l, c, n), l2, Activate(l2, c, f.owner, rxSeq));
      } else if f.kind == Attach {
        ActivateHistory(l1, c, f.owner, rxSeq);
        HistoryThen(l, l1, Activate(l1, c, f.owner, rxSeq));
      }
    } else {
      assert l.Check(true) == l;
    }
  }

  lemma SetPriorityHistory<K, C>(l: Layer<K, C>, k: K, priority: nat)
    requires k in l.streams
    ensures SameHistory(l, SetPriority(l, k, priority))
  {
    hide SameHistory;
    var s := l.streams[k];
    var l1 := l.SetStream(k, s.(priority := priority));
    OneStreamHistory(l, k, s);
    assert l.SetStream(k, s) == l;
    OneStreamHistory(l, k, s.(priority := priority));
    CheckHistory(l1, false);
    HistoryThen(l, l1, l1.Check(false));
    if l1.Current(k).Some? && l1.Current(k).value in l1.channels {
      var c := l1.Current(k).value;
      var l2 := DequeueStream(l1, c, k);
      ChannelHistory(l1, c, l2.channels[c]);
      ChannelHistory(l2, c, EnqueueStream(l2, c, k).channels[c]);
      HistoryThen(l, l1, l2);
      HistoryThen(l, l2, EnqueueStream(l2, c, k));
    }
  }

  lemma AttachForHistory<K, C>(l: Layer<K, C>, k: K, c: C)
    requires k in l.streams && c in l.channels
    ensures SameHistory(l, AttachFor(l, k, c))
  {
    hide SameHistory, LinkNow, AllocateSid;
    var s, ch := l.streams[k], l.channels[c];
    var i := FreeSlot(s.slots);
    OneStreamHistory(l, k, s);
    assert l.SetStream(k, s) == l;
    if AllocateSid(ch).Some? && s.current.None? && i < |s.slots| {
      var counter := AllocateSid(ch).value;
      var sid := Sid16(counter);
      var slot := TxSlot(Some(c), sid, None, false);
      var l0 := l.SetStream(k, s.(slots := s.slots[i := slot], current := Some(i)));
      var l1 := l0.SetChannel(c, ch.(txSids := ch.txSids[sid := (k, i)], sidCounter := counter + 1));
      var l2 := l1.Check(sid !in ch.txSids && k !in ch.sending);
      OneStreamHistory(l, k, l0.streams[k]);
      ChannelHistory(l0, c, l1.channels[c]);
      CheckHistory(l1, sid !in ch.txSids && k !in ch.sending);
      HistoryThen(l, l0, l1);
      HistoryThen(l, l1, l2);
      LinkNowHistory(l2, k);
      HistoryThen(l, l2, LinkNow(l2, k));
    }
  }

  lemma UnlinkHistory<K, C>(l: Layer<K, C>, k: K, i: nat)
    requires k in l.streams && i < |l.streams[k].slots| && l.streams[k].slots[i].InUse()
    requires l.streams[k].slots[i].channel.value in l.channels
    ensures SameHistory(l, Unlink(l, k, i))
  {}

  lemma {:induction false} ReclaimHistory<K, C>(l: Layer<K, C>, c: C, k: K, copy: map<nat, Frame<K>>, order: seq<nat>)
    requires k in l.streams && c in l.channels && forall n :: n in order ==> n in copy
    ensures SameHistory(l, Reclaim(l, c, k, copy, order))
    decreases |order|
  {
    if order != [] {
      var f := copy[order[0]];
      if f.owner != k {
        ReclaimHistory(l, c, k, copy, order[1..]);
      } else {
        StreamMissedHistory(l, f.(late := true));
        var r := GiveBack(l, f);
        var s := Forget(r, c, {order[0]});
        ChannelHistory(r, c, s.channels[c]);
        HistoryThen(l, r, s);
        ReclaimHistory(s, c, k, copy, order[1..]);
        hide SameHistory;
        HistoryThen(l, s, Reclaim(s, c, k, copy, order[1..]));
      }
    }
  }

  lemma ClearHistory<K, C>(l: Layer<K, C>, k: K, i: nat, order: seq<nat>)
    requires k in l.streams && i < |l.streams[k].slots|
    ensures SameHistory(l, Clear(l, k, i, order))
  {
    var slot := l.streams[k].slots[i];
    if slot.InUse() && slot.channel.value in l.channels && Walks(order, l.channels[slot.channel.value].waitingAck) {
      var c := slot.channel.value;
      UnlinkHistory(l, k, i);
      ReclaimHistory(Unlink(l, k, i), c, k, l.channels[c].waitingAck, order);
      HistoryThen(l, Unlink(l, k, i), Clear(l, k, i, order));
    }
  }

  lemma {:induction false} ClearSidsHistory<K, C>(l: Layer<K, C>, c: C, copy: map<nat, (K, nat)>, walk: seq<SidWalk>)
    requires forall w :: w in walk ==> w.sid in copy
    ensures SameHistory(l, ClearSids(l, c, copy, walk))
    decreases |walk|
  {
    if walk != [] {
      var (k, i) := copy[walk[0].sid];
      if l.On(k, i, c) {
        hide SameHistory;
        ClearHistory(l, k, i, walk[0].order);
        ClearSidsHistory(Clear(l, k, i, walk[0].order), c, copy, walk[1..]);
        HistoryThen(l, Clear(l, k, i, walk[0].order), ClearSids(l, c, copy, walk));
      }
    }
  }

  lemma RxStepHistory<K, C>(l: Layer<K, C>, k: K, t: Stream<K, C>, c: C, ch: Channel<K>, ok: bool)
    requires k in l.streams && c in l.channels && t == l.streams[k].(rxSlots := t.rxSlots)
    requires |t.rxSlots| == |l.streams[k].rxSlots|
    ensures SameHistory(l, l.SetStream(k, t).SetChannel(c, ch).Check(ok))
  {}

  lemma RxClearHistory<K, C>(l: Layer<K, C>, k: K, i: nat)
    requires k in l.streams && i < |l.streams[k].rxSlots|
    ensures SameHistory(l, RxClear(l, k, i))
  {
    var s := l.streams[k];
    var slot := s.rxSlots[i];
    if slot.channel.Some? && slot.channel.value in l.channels {
      hide SameHistory;
      var c := slot.channel.value;
      var ch := l.channels[c];
      RxStepHistory(l, k, s.(rxSlots := s.rxSlots[i := slot.(channel := None)]), c,
                    ch.(rxSids := ch.rxSids - {slot.sid}), slot.sid in ch.rxSids && ch.rxSids[slot.sid] == (k, i));
    }
  }

  lemma RxAttachHistory<K, C>(l: Layer<K, C>, k: K, i: nat, c: C, sid: nat, seqNo: nat)
    requires k in l.streams && i < |l.streams[k].rxSlots| && c in l.channels
    ensures SameHistory(l, RxAttach(l, k, i, c, sid, seqNo))
  {
    hide SameHistory, RxClear, RxSetActive;
    var s := l.streams[k];
    var slot := s.rxSlots[i];
    if slot.channel == Some(c) && slot.sid == sid {
      var first := if slot.sidSeq < seqNo then slot.sidSeq else seqNo;
      OneStreamHistory(l, k, s.(rxSlots := s.rxSlots[i := slot.(sidSeq := first)]));
    } else {
      var l1 := RxClear(l, k, i);
      RxClearHistory(l, k, i);
      SlotCounts(l, l1, k);
      RxSetActiveHistory(l1, k, i, c, sid, seqNo);
      HistoryThen(l, l1, RxSetActive(l1, k, i, c, sid, seqNo));
    }
  }

  lemma SlotCounts<K, C>(l: Layer<K, C>, r: Layer<K, C>, k: K)
    requires SameHistory(l, r) && k in l.streams
    ensures k in r.streams && r.channels.Keys == l.channels.Keys && |r.streams[k].rxSlots| == |l.streams[k].rxSlots|
  {}

  lemma RxSetActiveHistory<K, C>(l: Layer<K, C>, k: K, i: nat, c: C, sid: nat, seqNo: nat)
    requires k in l.streams && i < |l.streams[k].rxSlots| && c in l.channels
    ensures SameHistory(l, RxSetActive(l, k, i, c, sid, seqNo))
  {
    hide SameHistory;
    var t, ch := l.streams[k], l.channels[c];
    RxStepHistory(l, k, t.(rxSlots := t.rxSlots[i := RxSlot(Some(c), sid, seqNo)]), c,
                  ch.(rxSids := if sid in ch.rxSids then ch.rxSids else ch.rxSids[sid := (k, i)]),
                  t.rxSlots[i].channel.None? && sid !in ch.rxSids);
  }

  lemma {:induction false} RxClearSidsHistory<K, C>(l: Layer<K, C>, c: C, copy: map<nat, (K, nat)>, walk: seq<nat>)
    requires forall sid :: sid in walk ==> sid in copy
    ensures SameHistory(l, RxClearSids(l, c, copy, walk))
    decreases |walk|
  {
    if walk != [] {
      var (k, i) := copy[walk[0]];
      if k in l.streams && i < |l.streams[k].rxSlots| && l.streams[k].rxSlots[i].channel == Some(c) {
        hide SameHistory;
        RxClearHistory(l, k, i);
        RxClearSidsHistory(RxClear(l, k, i), c, copy, walk[1..]);
        HistoryThen(l, RxClear(l, k, i), RxClearSids(l, c, copy, walk));
      }
    }
  }

  lemma StopHistory<K, C>(l: Layer<K, C>, c: C, walk: seq<SidWalk>, rxWalk: seq<nat>)
    requires c in l.channels && (forall w :: w in walk ==> w.sid in l.channels[c].txSids)
    ensures SameHistory(l, Stop(l, c, walk, rxWalk))
  {
    ClearSidsHistory(l, c, l.channels[c].txSids, walk);
    var r := ClearSids(l, c, l.channels[c].txSids, walk);
    if c in r.channels && (forall sid :: sid in rxWalk ==> sid in r.channels[c].rxSids) {
      RxClearSidsHistory(r, c, r.channels[c].rxSids, rxWalk);
      HistoryThen(l, r, Stop(l, c, walk, rxWalk));
    }
  }

  lemma {:induction false} GiveAllBackHistory<K, C>(l: Layer<K, C>, copy: map<nat, Frame<K>>, order: seq<nat>)
    requires forall n :: n in order ==> n in copy
    ensures SameHistory(l, GiveAllBack(l, copy, order))
    decreases |order|
  {
    if order != [] && copy[order[0]].owner in l.streams {
      var f := copy[order[0]];
      StreamMissedHistory(l, f.(late := true));
      GiveAllBackHistory(GiveBack(l, f), copy, order[1..]);
      HistoryThen(l, GiveBack(l, f), GiveAllBack(l, copy, order));
    }
  }

  lemma DetachAllHistory<K, C>(l: Layer<K, C>, c: C, walk: seq<SidWalk>, order: seq<nat>)
    requires c in l.channels && (forall w :: w in walk ==> w.sid in l.channels[c].txSids)
    requires forall n :: n in order ==> n in l.channels[c].waitingAck
    ensures SameHistory(l, DetachAll(l, c, walk, order))
  {
    var ch := l.channels[c];
    var l1 := l.SetChannel(c, ch.(waitingAck := map[]));
    ChannelHistory(l, c, l1.channels[c]);
    hide SameHistory, ClearSids, GiveAllBack;
    ClearSidsHistory(l1, c, ch.txSids, walk);
    var r := ClearSids(l1, c, ch.txSids, walk);
    HistoryThen(l, l1, r);
    CheckHistory(r, false);
    HistoryThen(l, r, r.Check(false));
    if c in r.channels {
      var q := r.Check(r.channels[c].txSids == map[]);
      CheckHistory(r, r.channels[c].txSids == map[]);
      HistoryThen(l, r, q);
      GiveAllBackHistory(q, ch.waitingAck, order);
      HistoryThen(l, q, GiveAllBack(q, ch.waitingAck, order));
    }
  }
}
