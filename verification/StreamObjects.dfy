/**
 The objects of the sending side: streams and channels that refer to one another and are updated in place.
 `ss` and `cs` name the objects of one host; `View` is their value as one layer. Each method is proved against
 the function of StreamLayer of the same step, and the assertions of the source hold in the bodies.
 */
module StreamObjects {
  import opened Options
  import opened Segments
  import opened StreamLayer
  import opened StreamInvariants
  import opened StreamSteps
  import opened StreamOps
  import opened StreamAttach
  import opened StreamHomes
  import opened StreamTeardown
  import opened StreamRuns
  import opened StreamHistory

  type PacketFrame = Frame<BaseStream>

  /** The host's streams and channels as one value. */
  ghost function View(ss: set<BaseStream>, cs: set<StreamChannel>): Layer<BaseStream, StreamChannel>
    reads ss, cs
  {
    Layer(map s | s in ss :: s.Value(), map c | c in cs :: c.Value(), false)
  }

  /** The value of the host, object by object. */
  lemma ViewIs(ss: set<BaseStream>, cs: set<StreamChannel>)
    ensures View(ss, cs).streams.Keys == ss && View(ss, cs).channels.Keys == cs && !View(ss, cs).failed
    ensures forall s :: s in ss ==> View(ss, cs).streams[s] == s.Value()
    ensures forall c :: c in cs ==> View(ss, cs).channels[c] == c.Value()
  {}

  /** Only stream `s` changed since the host was worth `before`. */
  lemma OneStream(before: Layer<BaseStream, StreamChannel>, ss: set<BaseStream>, cs: set<StreamChannel>, s: BaseStream)
    requires s in ss && before.streams.Keys == ss && before.channels.Keys == cs && !before.failed
    requires forall x :: x in ss && x != s ==> before.streams[x] == x.Value()
    requires forall c :: c in cs ==> before.channels[c] == c.Value()
    ensures View(ss, cs) == before.SetStream(s, s.Value())
  {
    assert View(ss, cs).streams == before.SetStream(s, s.Value()).streams;
    assert View(ss, cs).channels == before.channels;
  }

  /** Only channel `c` changed. */
  lemma OneChannel(before: Layer<BaseStream, StreamChannel>, ss: set<BaseStream>, cs: set<StreamChannel>, c: StreamChannel)
    requires c in cs && before.streams.Keys == ss && before.channels.Keys == cs && !before.failed
    requires forall s :: s in ss ==> before.streams[s] == s.Value()
    requires forall x :: x in cs && x != c ==> before.channels[x] == x.Value()
    ensures View(ss, cs) == before.SetChannel(c, c.Value())
  {
    assert View(ss, cs).channels == before.SetChannel(c, c.Value()).channels;
    assert View(ss, cs).streams == before.streams;
  }

  /** An ascending line is cut by a priority in just one place. */
  lemma CutPlace<K, C>(l: Layer<K, C>, line: seq<K>, priority: nat, i: nat)
    requires Ascending(l, line) && i <= |line|
    requires forall j :: 0 <= j < i ==> l.streams[line[j]].priority < priority
    requires forall j :: i <= j < |line| ==> l.streams[line[j]].priority >= priority
    ensures i == PriorityIndex(l, line, priority)
  {
    PriorityIndexBounds(l, line, priority);
    var k := PriorityIndex(l, line, priority);
    assert i < |line| ==> l.streams[line[i]].priority >= priority;
    assert k < |line| ==> l.streams[line[k]].priority >= priority;
  }

  /** On a detached stream attach_for_transmit does nothing by itself. */
  lemma DetachedLink<K, C>(l: Layer<K, C>, k: K)
    requires k in l.streams
    ensures l.streams[k].current.None? ==> Link(l, k) == l && LinkNow(l, k) == l
  {}

  lemma LinkNowIs<K, C>(l: Layer<K, C>, k: K, c: C)
    requires k in l.streams && k in Link(l, k).streams && Link(l, k).Current(k) == Some(c) && c in Link(l, k).channels
    ensures LinkNow(l, k) == if Link(l, k).channels[c].allowance > 0 then GotReady(Link(l, k), c) else Link(l, k)
  {}

  lemma LinkKnown<K, C>(l: Layer<K, C>, k: K)
    requires Inv(l) && k in l.streams && l.streams[k].current.Some?
    ensures var s := l.streams[k];
            && s.current.value < |s.slots| && s.slots[s.current.value].channel.Some?
            && l.Current(k) == s.slots[s.current.value].channel && l.Current(k).value in l.channels
            && Ascending(l, l.channels[l.Current(k).value].sending)
    ensures k in Link(l, k).streams && Link(l, k).Current(k) == l.Current(k)
    ensures Link(l, k).channels.Keys == l.channels.Keys
  {
    CurrentFacts(l, k);
    hide Inv;
    LinkFrame(l, k);
  }

  /** The assertions of tx_enqueue_channel. */
  lemma CurrentFacts<K, C>(l: Layer<K, C>, k: K)
    requires Inv(l) && k in l.streams
    ensures var s := l.streams[k];
            s.current.Some? ==>
              && s.current.value < |s.slots| && s.slots[s.current.value].channel.Some?
              && s.slots[s.current.value].channel.value in l.channels
              && Ascending(l, l.channels[s.slots[s.current.value].channel.value].sending)
  {
    if l.streams[k].current.Some? {
      assert SlotsOk(l.streams[k]);
      SlotInTable(l, k);
      assert LineOk(l, l.Current(k).value);
    }
  }

  lemma AfterAckSize<K, C>(l: Layer<K, C>, f: Frame<K>)
    requires f.owner in l.streams && Inv(AfterAck(l, f))
    ensures AfterAck(l, f).streams[f.owner].waitingSize >= 0 && !l.failed
    ensures l.SetStream(f.owner, l.streams[f.owner]) == l
  {
    assert StreamOk(f.owner, AfterAck(l, f).streams[f.owner]);
  }

  lemma ActivatedKeeps<K, C>(l: Layer<K, C>, c: C, k: K, rxSeq: nat)
    requires Inv(l) && k in l.streams && l.Current(k) == Some(c)
    requires !l.streams[k].slots[l.streams[k].current.value].Acknowledged()
    ensures Inv(l.SetStream(k, Activated(l.streams[k], l.streams[k].current.value, rxSeq)))
  {
    var s, i := l.streams[k], l.streams[k].current.value;
    ActiveShape(l, k, i, rxSeq);
    StreamFacts(l, k);
    hide TablesOk, ActiveOk, ScheduleOk, FramesOk, Conserved;
    var t := Activated(s, i, rxSeq);
    ActiveStreamOk(k, s, t);
    StreamFrames(l, k, t);
    StreamConserved(l, k, t);
    ActiveSchedule(l, k, i, rxSeq);
    KeepSchedule(l, l.SetStream(k, t));
  }

  /** A stream that changes priority may step out of its line and in again. */
  lemma RejoinReady<K, C>(l: Layer<K, C>, k: K, priority: nat)
    requires Inv(l) && k in l.streams && l.streams[k].enqueued
    ensures var s := l.streams[k];
            && s.current.Some? && s.current.value < |s.slots| && s.slots[s.current.value].channel.Some?
            && l.Current(k) == s.slots[s.current.value].channel && l.Current(k).value in l.channels
    ensures var l1, c := l.SetStream(k, l.streams[k].(priority := priority)), l.Current(k).value;
            && l1.Current(k) == l.Current(k)
            && Ascending(DequeueStream(l1, c, k), DequeueStream(l1, c, k).channels[c].sending)
  {
    EnqueuedFacts(l, k);
    CurrentFacts(l, k);
    hide Inv;
    var line := l.channels[l.Current(k).value].sending;
    WithoutAscending(l, line, k);
    forall i | 0 <= i < |Without(line, k)| ensures Without(line, k)[i] != k {
      WithoutMembers(line, k, Without(line, k)[i]);
    }
  }

  lemma CurrentInUse<K, C>(l: Layer<K, C>, k: K)
    requires Inv(l) && k in l.streams && l.streams[k].current.Some?
    ensures l.streams[k].current.value < |l.streams[k].slots| && l.streams[k].slots[l.streams[k].current.value].InUse()
  {
    assert SlotsOk(l.streams[k]);
  }

  /** stream_channel::acknowledged on a range. */
  ghost function AcknowledgedRange<K, C>(l: Layer<K, C>, c: C, txseq: nat, npackets: nat, rxackseq: nat): Layer<K, C>
    decreases npackets
  {
    if npackets == 0 || c !in l.channels then l
    else AcknowledgedRange(Acknowledged(l, c, txseq, rxackseq), c, txseq + 1, npackets - 1, rxackseq)
  }

  /** stream_channel::missed on a range. */
  ghost function MissedRange<K, C>(l: Layer<K, C>, c: C, txseq: nat, npackets: nat): Layer<K, C>
    decreases npackets
  {
    if npackets == 0 || c !in l.channels then l
    else MissedRange(Missed(l, c, txseq), c, txseq + 1, npackets - 1)
  }

  /** `n` sequence numbers from `first` on. */
  ghost function Range(first: nat, n: nat): (r: set<nat>)
    ensures forall i :: i in r <==> first <= i < first + n
  {
    if n == 0 then {} else Range(first, n - 1) + {first + n - 1}
  }

  lemma MissedReady<K, C>(l: Layer<K, C>, c: C, n: nat)
    requires Inv(l) && c in l.channels && n in l.channels[c].waitingAck
    ensures var f := l.channels[c].waitingAck[n];
            && f.owner in l.streams && !f.late
            && Inv(if f.kind == Data then Queued(Mark(l, c, n), f.owner, f.(late := true)) else Mark(l, c, n))
    ensures forall f: Frame<K> :: f.owner in l.streams ==> c in StreamMissed(Mark(l, c, n), f).0.channels
  {
    hide Inv;
    EntryFacts(l, c, n);
    if l.channels[c].waitingAck[n].kind == Data { QueuedAndMarked(l, c, n); } else { MarkKeeps(l, c, n); }
    forall f: Frame<K> | f.owner in l.streams ensures c in StreamMissed(Mark(l, c, n), f).0.channels {
      StreamMissedHistory(Mark(l, c, n), f);
    }
  }

  /** Walking one more packet of the copied table. */
  lemma {:induction false} ReclaimAppend<K, C>(l: Layer<K, C>, c: C, k: K, copy: map<nat, Frame<K>>, order: seq<nat>, n: nat)
    requires k in l.streams && c in l.channels && n in copy && forall m :: m in order ==> m in copy
    ensures k in Reclaim(l, c, k, copy, order).streams && c in Reclaim(l, c, k, copy, order).channels
    ensures Reclaim(l, c, k, copy, order + [n]) == Reclaim(Reclaim(l, c, k, copy, order), c, k, copy, [n])
    decreases |order|
  {
    if order == [] {
      assert order + [n] == [n];
    } else {
      assert (order + [n])[1..] == order[1..] + [n];
      var f := copy[order[0]];
      if f.owner != k {
        ReclaimAppend(l, c, k, copy, order[1..], n);
      } else {
        StreamMissedHistory(l, f.(late := true));
        ReclaimAppend(Forget(GiveBack(l, f), c, {order[0]}), c, k, copy, order[1..], n);
      }
    }
  }

  /** One packet of the copy: what clear does with it, and why it may. */
  lemma ReclaimOne<K, C>(l: Layer<K, C>, c: C, k: K, copy: map<nat, Frame<K>>, n: nat)
    requires Inv(l) && k in l.streams && c in l.channels && l.Current(k) == None
    requires n in copy && n in l.channels[c].waitingAck && l.channels[c].waitingAck[n] == copy[n]
    ensures var f := copy[n];
            if f.owner != k then Reclaim(l, c, k, copy, [n]) == l
            else
              && !f.late && c in GiveBack(l, f).channels && Inv(Forget(GiveBack(l, f), c, {n}))
              && Reclaim(l, c, k, copy, [n]) == Forget(GiveBack(l, f), c, {n})
              && Inv(if f.kind == Data then Queued(l, k, f.(late := true)) else l)
              && k in Forget(GiveBack(l, f), c, {n}).streams && Forget(GiveBack(l, f), c, {n}).Current(k) == None
              && GiveBack(l, f).channels == l.channels
  {
    hide Inv;
    var f := copy[n];
    EntryFacts(l, c, n);
    if f.owner == k {
      ReturnKeeps(l, c, n);
      GiveBackDetached(l, f);
      if f.kind == Data { QueuedKeeps(l, k, f.(late := true)); }
      assert [n][1..] == [];
    } else {
      assert [n][1..] == [];
    }
  }

  /** Halfway through the loop of clear: `todo` of the copy is left and `order` was walked. */
  ghost predicate Reclaiming<K, C>(
    l: Layer<K, C>, r: Layer<K, C>, c: C, k: K, copy: map<nat, Frame<K>>, todo: set<nat>, order: seq<nat>)
  {
    && k in l.streams && c in l.channels && k in r.streams && c in r.channels
    && (copy != map[] ==> Inv(r) && r.Current(k) == None)
    && (forall n :: n in todo ==> n in copy && n in r.channels[c].waitingAck && r.channels[c].waitingAck[n] == copy[n])
    && (forall n :: n in copy ==> (n in order <==> n !in todo)) && (forall n :: n in order ==> n in copy)
    && (forall a, b :: 0 <= a < b < |order| ==> order[a] != order[b])
    && r == Reclaim(l, c, k, copy, order)
  }

  lemma ReclaimingStart<K, C>(l: Layer<K, C>, c: C, k: K, copy: map<nat, Frame<K>>)
    requires k in l.streams && c in l.channels && l.channels[c].waitingAck == copy
    requires copy != map[] ==> Inv(l) && l.Current(k) == None
    ensures Reclaiming(l, l, c, k, copy, copy.Keys, [])
  {
    hide Inv;
    ReclaimNothing(l, c, k, copy);
  }

  lemma ReclaimingStep<K, C>(
      l: Layer<K, C>, r: Layer<K, C>, c: C, k: K, copy: map<nat, Frame<K>>, todo: set<nat>, order: seq<nat>, n: nat)
    requires Reclaiming(l, r, c, k, copy, todo, order) && n in todo && n in copy && c in r.channels
    ensures var f := copy[n];
            if f.owner != k then Reclaiming(l, r, c, k, copy, todo - {n}, order + [n])
            else
              && !f.late && c in GiveBack(r, f).channels && GiveBack(r, f).channels == r.channels
              && Inv(if f.kind == Data then Queued(r, k, f.(late := true)) else r)
              && Reclaiming(l, Forget(GiveBack(r, f), c, {n}), c, k, copy, todo - {n}, order + [n])
  {
    hide Inv, Reclaim, GiveBack;
    ReclaimOne(r, c, k, copy, n);
    ReclaimAppend(l, c, k, copy, order, n);
  }

  lemma ReclaimingEnd<K, C>(l: Layer<K, C>, r: Layer<K, C>, c: C, k: K, copy: map<nat, Frame<K>>, order: seq<nat>)
    requires Reclaiming(l, r, c, k, copy, {}, order)
    ensures Walks(order, copy) && k in l.streams && c in l.channels && r == Reclaim(l, c, k, copy, order)
  {
    hide Inv, Reclaim;
  }

  lemma UnlinkIs<K, C>(l: Layer<K, C>, k: K, i: nat)
    requires k in l.streams && i < |l.streams[k].slots| && l.streams[k].slots[i].InUse() && SlotAgrees(l, k, i)
    requires l.streams[k].current == Some(i)
    ensures var s := l.streams[k];
            var c := s.slots[i].channel.value;
            var ch := l.channels[c];
            var t := s.(current := None, slots := s.slots[i := s.slots[i].(channel := None, active := false)], enqueued := false);
            Unlink(l, k, i) ==
              l.SetStream(k, t).SetChannel(c, ch.(txSids := ch.txSids - {s.slots[i].sid}, sending := Without(ch.sending, k)))
  {}

  lemma ReclaimNothing<K, C>(l: Layer<K, C>, c: C, k: K, copy: map<nat, Frame<K>>)
    requires k in l.streams && c in l.channels
    ensures Reclaim(l, c, k, copy, []) == l
  {}

  lemma UnlinkReady<K, C>(l: Layer<K, C>, k: K, i: nat)
    requires TablesOk(l) && k in l.streams && i < |l.streams[k].slots| && l.streams[k].slots[i].InUse()
    ensures l.streams[k].current == Some(i) && SlotAgrees(l, k, i)
  {
    assert SlotsOk(l.streams[k]);
  }

  /** Clearing one more attachment of the copied table. */
  lemma {:induction false} ClearSidsAppend<K, C>(
      l: Layer<K, C>, c: C, copy: map<nat, (K, nat)>, walk: seq<SidWalk>, w: SidWalk)
    requires w.sid in copy && (forall v :: v in walk ==> v.sid in copy) && Walkable(l, c, copy, walk)
    requires var r, (k, i) := ClearSids(l, c, copy, walk), copy[w.sid];
             r.On(k, i, c) && c in r.channels && Walks(w.order, r.channels[c].waitingAck)
    ensures forall v :: v in walk + [w] ==> v.sid in copy
    ensures Walkable(l, c, copy, walk + [w])
    ensures var r, (k, i) := ClearSids(l, c, copy, walk), copy[w.sid];
            ClearSids(l, c, copy, walk + [w]) == Clear(r, k, i, w.order)
    decreases |walk|
  {
    if walk == [] {
      assert walk + [w] == [w] && [w][1..] == [];
    } else {
      assert (walk + [w])[1..] == walk[1..] + [w];
      var (k, i) := copy[walk[0].sid];
      ClearSidsAppend(Clear(l, k, i, walk[0].order), c, copy, walk[1..], w);
    }
  }

  lemma {:induction false} GiveAllAppend<K, C>(l: Layer<K, C>, copy: map<nat, Frame<K>>, order: seq<nat>, n: nat)
    requires n in copy && (forall m :: m in order ==> m in copy) && (forall m :: m in copy ==> copy[m].owner in l.streams)
    ensures copy[n].owner in GiveAllBack(l, copy, order).streams
    ensures GiveAllBack(l, copy, order + [n]) == GiveBack(GiveAllBack(l, copy, order), copy[n])
    decreases |order|
  {
    if order == [] {
      assert order + [n] == [n] && [n][1..] == [];
    } else {
      assert (order + [n])[1..] == order[1..] + [n];
      var f := copy[order[0]];
      StreamMissedHistory(l, f.(late := true));
      GiveAllAppend(GiveBack(l, f), copy, order[1..], n);
    }
  }

  lemma SidsAppend(walk: seq<SidWalk>, w: SidWalk)
    requires DistinctSids(walk) && w.sid !in Sids(walk)
    ensures DistinctSids(walk + [w]) && Sids(walk + [w]) == Sids(walk) + {w.sid}
  {
    forall i | 0 <= i < |walk| ensures walk[i].sid != w.sid { assert walk[i] in walk; }
  }

  lemma NothingCleared<K, C>(l: Layer<K, C>, c: C, copy: map<nat, (K, nat)>)
    ensures ClearSids(l, c, copy, []) == l && Sids([]) == {} && Walkable(l, c, copy, [])
  {}

  lemma SweptTable<K, C>(l: Layer<K, C>, r: Layer<K, C>, c: C, sid: nat)
    requires Swept(l, r, c, {sid})
    ensures c in l.channels && c in r.channels && r.channels[c].txSids == l.channels[c].txSids - {sid}
  {}

  /** Every id of the walk stands for a slot attached to the channel when its turn comes. */
  ghost predicate RxWalkable<K, C>(l: Layer<K, C>, c: C, copy: map<nat, (K, nat)>, walk: seq<nat>)
    requires forall sid :: sid in walk ==> sid in copy
    decreases |walk|
  {
    walk == [] ||
    var (k, i) := copy[walk[0]];
    && k in l.streams && i < |l.streams[k].rxSlots| && l.streams[k].rxSlots[i].channel == Some(c)
    && RxWalkable(RxClear(l, k, i), c, copy, walk[1..])
  }

  lemma {:induction false} RxClearAppend<K, C>(l: Layer<K, C>, c: C, copy: map<nat, (K, nat)>, walk: seq<nat>, sid: nat)
    requires sid in copy && (forall n :: n in walk ==> n in copy) && RxWalkable(l, c, copy, walk)
    requires var r, (k, i) := RxClearSids(l, c, copy, walk), copy[sid];
             k in r.streams && i < |r.streams[k].rxSlots| && r.streams[k].rxSlots[i].channel == Some(c)
    ensures forall n :: n in walk + [sid] ==> n in copy
    ensures RxWalkable(l, c, copy, walk + [sid])
    ensures var r, (k, i) := RxClearSids(l, c, copy, walk), copy[sid];
            RxClearSids(l, c, copy, walk + [sid]) == RxClear(r, k, i)
    decreases |walk|
  {
    if walk == [] {
      assert walk + [sid] == [sid] && [sid][1..] == [];
    } else {
      assert (walk + [sid])[1..] == walk[1..] + [sid];
      var (k, i) := copy[walk[0]];
      RxClearAppend(RxClear(l, k, i), c, copy, walk[1..], sid);
    }
  }

  // ---------------------------------------------------------------- the loops of stop and detach_all

  /** Halfway through the transmit attachments: `todo` is left of the copy and `walk` has been cleared. */
  ghost predicate Clearing<K, C>(
    l: Layer<K, C>, r: Layer<K, C>, c: C, copy: map<nat, (K, nat)>, todo: set<nat>, walk: seq<SidWalk>)
  {
    && Healthy(r) && c in r.channels && c in l.channels && copy == l.channels[c].txSids
    && (forall sid :: sid in todo ==> sid in copy && sid in r.channels[c].txSids && r.channels[c].txSids[sid] == copy[sid])
    && DistinctSids(walk) && Sids(walk) == copy.Keys - todo && (forall w :: w in walk ==> w.sid in copy)
    && Walkable(l, c, copy, walk) && r == ClearSids(l, c, copy, walk)
  }

  lemma ClearingStart<K, C>(l: Layer<K, C>, c: C, copy: map<nat, (K, nat)>)
    requires Healthy(l) && c in l.channels && copy == l.channels[c].txSids
    ensures Clearing(l, l, c, copy, copy.Keys, [])
  {
    hide Healthy;
    NothingCleared(l, c, copy);
  }

  lemma ClearingSlot<K, C>(
      l: Layer<K, C>, r: Layer<K, C>, c: C, copy: map<nat, (K, nat)>, todo: set<nat>, walk: seq<SidWalk>, sid: nat)
    requires Clearing(l, r, c, copy, todo, walk) && sid in todo
    ensures sid in copy && c in r.channels && Inv(r) && TablesOk(r)
    ensures var (k, i) := copy[sid]; r.On(k, i, c)
  {
    hide Inv, Walkable, ClearSids;
    ListedSlot(r, c, sid);
    HealthyTables(r);
  }

  lemma ClearingStep<K, C>(
      l: Layer<K, C>, r: Layer<K, C>, c: C, copy: map<nat, (K, nat)>, todo: set<nat>, walk: seq<SidWalk>,
      sid: nat, order: seq<nat>)
    requires Clearing(l, r, c, copy, todo, walk) && sid in todo && sid in copy
    requires var (k, i) := copy[sid]; r.On(k, i, c)
    requires c in r.channels && Walks(order, r.channels[c].waitingAck)
    ensures var (k, i) := copy[sid];
            Clearing(l, Clear(r, k, i, order), c, copy, todo - {sid}, walk + [SidWalk(sid, order)])
  {
    hide Inv, Homed, ReceiveOk, Walks, Walkable, ClearSids, Clear, Sids, Swept;
    ClearListed(r, c, sid, order);
    var (k, i) := copy[sid];
    SweptTable(r, Clear(r, k, i, order), c, sid);
    SidsAppend(walk, SidWalk(sid, order));
    ClearSidsAppend(l, c, copy, walk, SidWalk(sid, order));
    assert copy.Keys - todo + {sid} == copy.Keys - (todo - {sid});
  }

  lemma ClearingEnd<K, C>(l: Layer<K, C>, r: Layer<K, C>, c: C, copy: map<nat, (K, nat)>, walk: seq<SidWalk>)
    requires Clearing(l, r, c, copy, {}, walk)
    ensures c in l.channels && copy == l.channels[c].txSids && WalksAll(l, c, walk)
    ensures Walkable(l, c, copy, walk) && r == ClearSids(l, c, copy, walk)
  {
    hide Healthy, Walkable, ClearSids;
  }

  /** Halfway through the receive attachments. */
  ghost predicate RxClearing<K, C>(
    l: Layer<K, C>, r: Layer<K, C>, c: C, copy: map<nat, (K, nat)>, todo: set<nat>, walk: seq<nat>)
  {
    && !r.failed && ReceiveOk(r) && c in r.channels
    && (forall sid :: sid in todo ==> sid in copy && sid in r.channels[c].rxSids && r.channels[c].rxSids[sid] == copy[sid])
    && (forall n :: n in copy ==> (n in walk <==> n !in todo)) && (forall n :: n in walk ==> n in copy)
    && (forall a, b :: 0 <= a < b < |walk| ==> walk[a] != walk[b])
    && RxWalkable(l, c, copy, walk) && r == RxClearSids(l, c, copy, walk)
  }

  lemma RxClearingStart<K, C>(l: Layer<K, C>, c: C, copy: map<nat, (K, nat)>)
    requires !l.failed && ReceiveOk(l) && c in l.channels && copy == l.channels[c].rxSids
    ensures RxClearing(l, l, c, copy, copy.Keys, [])
  {}

  lemma RxClearingStep<K, C>(
      l: Layer<K, C>, r: Layer<K, C>, c: C, copy: map<nat, (K, nat)>, todo: set<nat>, walk: seq<nat>, sid: nat)
    requires RxClearing(l, r, c, copy, todo, walk) && sid in todo && sid in copy
    ensures var (k, i) := copy[sid];
            && k in r.streams && i < |r.streams[k].rxSlots| && r.streams[k].rxSlots[i].channel == Some(c)
            && RxListed(r, k, i) && RxClearing(l, RxClear(r, k, i), c, copy, todo - {sid}, walk + [sid])
  {
    hide ReceiveOk, RxWalkable, RxClearSids, RxClear, OnlyReceive;
    var (k, i) := copy[sid];
    RxClearListed(r, c, sid);
    RxFacts(r, k, i, c, sid);
    RxClearAppend(l, c, copy, walk, sid);
  }

  lemma RxClearingEnd<K, C>(l: Layer<K, C>, r: Layer<K, C>, c: C, copy: map<nat, (K, nat)>, walk: seq<nat>)
    requires RxClearing(l, r, c, copy, {}, walk)
    ensures Walks(walk, copy) && r == RxClearSids(l, c, copy, walk)
  {}

  /** Halfway through the first loop of detach_all on `l`, whose packets are aside. */
  ghost predicate Aside<K, C>(l: Layer<K, C>, r: Layer<K, C>, c: C, todo: set<nat>, walk: seq<SidWalk>) {
    && c in l.channels && c in r.channels && r.channels[c].waitingAck == map[]
    && Inv(Restore(r, c, l.channels[c].waitingAck)) && OwnersHere(r, c, l.channels[c].waitingAck)
    && Homed(r) && ReceiveOk(r)
    && (forall sid :: sid in todo ==> sid in l.channels[c].txSids && sid in r.channels[c].txSids
                                      && r.channels[c].txSids[sid] == l.channels[c].txSids[sid])
    && DistinctSids(walk) && Sids(walk) == l.channels[c].txSids.Keys - todo
    && (forall w :: w in walk ==> w.sid in l.channels[c].txSids)
    && Walkable(Restore(l, c, map[]), c, l.channels[c].txSids, walk)
    && r == ClearSids(Restore(l, c, map[]), c, l.channels[c].txSids, walk)
    && r.channels[c].txSids.Keys == todo
  }

  lemma AsideStart<K, C>(l: Layer<K, C>, c: C)
    requires Healthy(l) && c in l.channels
    ensures Aside(l, Restore(l, c, map[]), c, l.channels[c].txSids.Keys, [])
  {
    hide Inv, Homed, ReceiveOk, OwnersHere;
    assert Restore(Restore(l, c, map[]), c, l.channels[c].waitingAck) == l;
    OwnersAtHome(l, c);
    AsideHomes(l, c);
    NothingCleared(Restore(l, c, map[]), c, l.channels[c].txSids);
  }

  lemma AsideTables<K, C>(l: Layer<K, C>, c: C, pending: map<nat, Frame<K>>)
    requires c in l.channels && Inv(Restore(l, c, pending))
    ensures TablesOk(l)
  {
    var whole := Restore(l, c, pending);
    AsideShape(l, c, pending);
    assert ActiveOk(whole) && TablesOk(whole);
    hide TablesOk, ActiveOk, Inv;
    KeepShape(whole, l);
  }

  lemma AsideShape<K, C>(l: Layer<K, C>, c: C, pending: map<nat, Frame<K>>)
    requires c in l.channels
    ensures SameShape(Restore(l, c, pending), l)
  {}

  lemma AsideStep<K, C>(l: Layer<K, C>, r: Layer<K, C>, c: C, todo: set<nat>, walk: seq<SidWalk>, sid: nat)
    requires Aside(l, r, c, todo, walk) && sid in todo
    ensures c in l.channels && sid in l.channels[c].txSids && c in r.channels && r.channels[c].waitingAck == map[]
    ensures TablesOk(r)
    ensures var (k, i) := l.channels[c].txSids[sid];
            r.On(k, i, c) && Aside(l, Clear(r, k, i, []), c, todo - {sid}, walk + [SidWalk(sid, [])])
  {
    hide Inv, Homed, ReceiveOk, OwnersHere, Walkable, ClearSids, Clear, Sids, Swept, TablesOk;
    var pending, copy := l.channels[c].waitingAck, l.channels[c].txSids;
    AsideTables(r, c, pending);
    ClearListedAside(r, c, sid, pending);
    var (k, i) := copy[sid];
    SweptTable(r, Clear(r, k, i, []), c, sid);
    SidsAppend(walk, SidWalk(sid, []));
    ClearSidsAppend(Restore(l, c, map[]), c, copy, walk, SidWalk(sid, []));
    assert copy.Keys - todo + {sid} == copy.Keys - (todo - {sid});
  }

  lemma AsideEnd<K, C>(l: Layer<K, C>, r: Layer<K, C>, c: C, walk: seq<SidWalk>)
    requires Aside(l, r, c, {}, walk)
    ensures c in r.channels && c in l.channels && r.channels[c].txSids == map[] && r.channels[c].waitingAck == map[]
    ensures GivingBack(r, r, c, l.channels[c].waitingAck, l.channels[c].waitingAck.Keys, [])
  {
    hide Inv, Homed, ReceiveOk, OwnersHere, Walkable, ClearSids;
    assert r.channels[c].txSids == map[];
    OwnersDetached(r, c, l.channels[c].waitingAck);
    var copy := l.channels[c].waitingAck;
    assert copy - (copy.Keys - copy.Keys) == copy;
  }

  lemma AsideGiven<K, C>(l: Layer<K, C>, r: Layer<K, C>, c: C, walk: seq<SidWalk>, order: seq<nat>)
    requires Healthy(l) && Aside(l, r, c, {}, walk) && c in l.channels && Walks(order, l.channels[c].waitingAck)
    ensures WalksAll(l, c, walk) && Walkable(Restore(l, c, map[]), c, l.channels[c].txSids, walk)
    ensures DetachAll(l, c, walk, order) == GiveAllBack(r, l.channels[c].waitingAck, order)
    ensures var q := DetachAll(l, c, walk, order);
            Healthy(q) && c in q.channels && q.channels[c].txSids == map[] && q.channels[c].waitingAck == map[]
  {
    hide Inv, Homed, ReceiveOk, OwnersHere, Walkable, ClearSids, GiveAllBack, Advanced;
    assert r.channels[c].txSids == map[];
    assert r.Check(true) == r by { NotFailed(Restore(r, c, l.channels[c].waitingAck)); }
    DetachAllKeeps(l, c, walk, order);
  }

  /** Halfway through the second loop of detach_all: `todo` of `copy` is still to be given back. */
  ghost predicate GivingBack<K, C>(
    l: Layer<K, C>, r: Layer<K, C>, c: C, copy: map<nat, Frame<K>>, todo: set<nat>, order: seq<nat>)
  {
    && c in r.channels && r.channels[c].waitingAck == map[]
    && Inv(Restore(r, c, copy - (copy.Keys - todo)))
    && (forall n :: n in copy ==> copy[n].owner in l.streams && copy[n].owner in r.streams && r.Current(copy[n].owner) == None)
    && (forall n :: n in copy ==> (n in order <==> n !in todo)) && (forall n :: n in order ==> n in copy)
    && (forall a, b :: 0 <= a < b < |order| ==> order[a] != order[b])
    && r == GiveAllBack(l, copy, order)
  }

  lemma GivingBackStep<K, C>(
      l: Layer<K, C>, r: Layer<K, C>, c: C, copy: map<nat, Frame<K>>, todo: set<nat>, order: seq<nat>, n: nat)
    requires GivingBack(l, r, c, copy, todo, order) && n in todo && todo <= copy.Keys
    ensures var f := copy[n];
            && f.owner in r.streams && !f.late && GiveBack(r, f) == StreamMissed(r, f.(late := true)).0
            && r.streams[f.owner].current.None?
            && GivingBack(l, GiveBack(r, f), c, copy, todo - {n}, order + [n])
  {
    hide Inv, Carries, GiveAllBack;
    var pending, f := copy - (copy.Keys - todo), copy[n];
    var whole := Restore(r, c, pending);
    EntryFacts(whole, c, n);
    GiveBackAside(r, c, pending, n);
    DetachedSlot(whole, f.owner);
    GiveAllAppend(l, copy, order, n);
    assert pending - {n} == copy - (copy.Keys - (todo - {n}));
  }

  lemma DetachedSlot<K, C>(l: Layer<K, C>, k: K)
    requires Inv(l) && k in l.streams && l.Current(k) == None
    ensures l.streams[k].current.None?
  {
    assert SlotsOk(l.streams[k]);
  }

  lemma GivingBackEnd<K, C>(l: Layer<K, C>, r: Layer<K, C>, c: C, copy: map<nat, Frame<K>>, order: seq<nat>)
    requires GivingBack(l, r, c, copy, {}, order)
    ensures Walks(order, copy) && r == GiveAllBack(l, copy, order)
  {}

  lemma HealthyTables<K, C>(l: Layer<K, C>)
    requires Inv(l)
    ensures TablesOk(l)
  {}

  lemma FrontKnown<K, C>(l: Layer<K, C>, c: C)
    requires Inv(l) && c in l.channels && l.channels[c].sending != []
    ensures l.channels[c].sending[0] in l.streams
  {
    FrontMayTransmit(l, c);
  }

  /** The first segment write_data cuts, and the rest. */
  lemma CutStep(pos: nat, data: seq<byte>, end: Flags, mtu: nat)
    requires mtu > 0 && data != []
    ensures var last := |data| <= mtu;
            var size := if last then |data| else mtu;
            var seg := Segment(pos, data[..size], if last then Flags(true, end.record, end.close) else Flags(false, false, false));
            Cut(pos, data, end, mtu) == [seg] + (if last then [] else Cut(pos + size, data[size..], end, mtu))
  {
    if |data| <= mtu { assert data[..|data|] == data; }
  }

  lemma {:induction false} WithoutAppend<K>(line: seq<K>, k: K, m: K)
    ensures Without(line + [m], k) == Without(line, k) + (if m == k then [] else [m])
  {
    if line == [] {
      assert line + [m] == [m];
    } else {
      assert (line + [m])[1..] == line[1..] + [m];
      WithoutAppend(line[1..], k, m);
    }
  }

  class StreamChannel {
    var txSids: map<nat, (BaseStream, nat)>
    var rxSids: map<nat, (BaseStream, nat)>
    var sidCounter: nat
    var sidAcked: nat
    var sending: seq<BaseStream>
    var waitingAck: map<nat, PacketFrame>
    var txSeq: nat
    var allowance: nat
    ghost var missed: set<nat>
    ghost var sent: map<nat, PacketFrame>

    ghost function Value(): Channel<BaseStream>
      reads this
    {
      Channel(txSids, rxSids, sidCounter, sidAcked, sending, waitingAck, txSeq, allowance, missed, sent)
    }

    constructor ()
      ensures Value() == FreshChannel()
    {
      txSids, rxSids, sidCounter, sidAcked, sending := map[], map[], 1, 0, [];
      waitingAck, txSeq, allowance, missed, sent := map[], 1, 0, {}, map[];
    }

    /** upper_bound finds the place by bisection; the stream goes before others of its priority. */
    method EnqueueStream(s: BaseStream, ghost ss: set<BaseStream>, ghost cs: set<StreamChannel>)
      requires this in cs && s in ss && Ascending(View(ss, cs), sending)
      modifies this`sending
      ensures View(ss, cs) == StreamLayer.EnqueueStream(old(View(ss, cs)), this, s)
    {
      ghost var l := View(ss, cs);
      ViewIs(ss, cs);
      hide View;
      assert forall i :: 0 <= i < |sending| ==> sending[i] in ss && l.streams[sending[i]].priority == sending[i].priority;
      var lo := 0;
      var hi := |sending|;
      while lo < hi
        invariant 0 <= lo <= hi <= |sending|
        invariant forall j :: 0 <= j < lo ==> sending[j].priority < s.priority
        invariant forall j :: hi <= j < |sending| ==> sending[j].priority >= s.priority
      {
        var mid := (lo + hi) / 2;
        if sending[mid].priority >= s.priority {
          hi := mid;
        } else {
          lo := mid + 1;
        }
      }
      CutPlace(l, sending, s.priority, lo);
      sending := sending[..lo] + [s] + sending[lo..];
      OneChannel(old(View(ss, cs)), ss, cs, this);
    }

    method DequeueStream(s: BaseStream, ghost ss: set<BaseStream>, ghost cs: set<StreamChannel>)
      requires this in cs
      modifies this`sending
      ensures View(ss, cs) == StreamLayer.DequeueStream(old(View(ss, cs)), this, s)
    {
      var rest: seq<BaseStream> := [];
      for i := 0 to |sending|
        invariant sending == old(sending) && rest == Without(sending[..i], s)
      {
        WithoutAppend(sending[..i], s, sending[i]);
        assert sending[..i + 1] == sending[..i] + [sending[i]];
        if sending[i] != s {
          rest := rest + [sending[i]];
        }
      }
      assert sending[..|sending|] == sending;
      sending := rest;
      OneChannel(old(View(ss, cs)), ss, cs, this);
    }

    /** channel_transmit, and the packet's entry in waiting_ack_. */
    method Transmit(f: PacketFrame, ghost ss: set<BaseStream>, ghost cs: set<StreamChannel>)
      requires this in cs
      modifies this
      ensures View(ss, cs) == StreamLayer.Transmit(old(View(ss, cs)), this, f)
    {
      ghost var l := View(ss, cs);
      ViewIs(ss, cs);
      hide View;
      sent := sent[txSeq := f];
      waitingAck := waitingAck[txSeq := f];
      txSeq := txSeq + 1;
      allowance := if allowance > 0 then allowance - 1 else 0;
      OneChannel(l, ss, cs, this);
    }

    /** allocate_transmit_sid without the counter update, which the caller does. */
    method AllocateTransmitSid() returns (sid: Option<nat>)
      ensures sid == AllocateSid(Value()) && (sid.Some? ==> Sid16(sid.value) !in txSids)
    {
      var next := sidCounter;
      if Sid16(next) in txSids {
        var maxSearch := 0x7ff0 - (sidCounter - sidAcked);
        maxSearch := if maxSearch < MAX_SID_SKIP then maxSearch else MAX_SID_SKIP;
        while Sid16(next) in txSids
          invariant AllocateSid(Value()) == FreeCounter(txSids, next, maxSearch)
          decreases maxSearch
        {
          if maxSearch <= 0 { return None; }
          maxSearch := maxSearch - 1;
          next := next + 1;
        }
      }
      return Some(next);
    }

    /** The id of `counter` now stands for slot `slot` of `s`. */
    method Register(s: BaseStream, slot: nat, counter: nat, ghost ss: set<BaseStream>, ghost cs: set<StreamChannel>)
      requires this in cs
      modifies this
      ensures var l := old(View(ss, cs)); var ch := l.channels[this];
              View(ss, cs) == l.SetChannel(this, ch.(txSids := ch.txSids[Sid16(counter) := (s, slot)], sidCounter := counter + 1))
    {
      ghost var l := View(ss, cs);
      ViewIs(ss, cs);
      hide View;
      txSids := txSids[Sid16(counter) := (s, slot)];
      sidCounter := counter + 1;
      OneChannel(l, ss, cs, this);
    }

    /** An id and a stream leave the tables of the channel. */
    method Unregister(sid: nat, s: BaseStream, ghost ss: set<BaseStream>, ghost cs: set<StreamChannel>)
      requires this in cs
      modifies this`txSids, this`sending
      ensures var l := old(View(ss, cs)); var ch := l.channels[this];
              View(ss, cs) == l.SetChannel(this, ch.(txSids := ch.txSids - {sid}, sending := Without(ch.sending, s)))
      ensures waitingAck == old(waitingAck)
    {
      ghost var l := View(ss, cs);
      ViewIs(ss, cs);
      hide View;
      txSids := txSids - {sid};
      OneChannel(l, ss, cs, this);
      DequeueStream(s, ss, cs);
    }

    /** stop: clear the attachments of both tables; the walks tell in which order. */
    method Stop(ghost ss: set<BaseStream>, ghost cs: set<StreamChannel>)
      returns (ghost walk: seq<SidWalk>, ghost rxWalk: seq<nat>)
      requires this in cs && Healthy(View(ss, cs))
      modifies ss, cs
      ensures var l := old(View(ss, cs));
              && WalksAll(l, this, walk) && Walkable(l, this, l.channels[this].txSids, walk)
              && Walks(rxWalk, l.channels[this].rxSids)
              && View(ss, cs) == StreamLayer.Stop(l, this, walk, rxWalk)
      ensures Healthy(View(ss, cs)) && Dead(View(ss, cs), this) && rxSids == map[]
    {
      ghost var l := View(ss, cs);
      hide Inv, Homed, ReceiveOk, Walkable, ClearSids, RxClearSids, Dead;
      walk := ClearAttachments(ss, cs);
      ClearSidsKeep(l, this, l.channels[this].txSids, walk);
      rxWalk := ClearReceiveAttachments(ss, cs);
      StopEmpties(l, this, walk, rxWalk);
    }

    /** The loop of stop over a copy of transmit_sids_. */
    method ClearAttachments(ghost ss: set<BaseStream>, ghost cs: set<StreamChannel>) returns (ghost walk: seq<SidWalk>)
      requires this in cs && Healthy(View(ss, cs))
      modifies ss, cs
      ensures var l := old(View(ss, cs));
              && WalksAll(l, this, walk) && Walkable(l, this, l.channels[this].txSids, walk)
              && View(ss, cs) == ClearSids(l, this, l.channels[this].txSids, walk)
    {
      ghost var l := View(ss, cs);
      hide Healthy, Clearing, StreamLayer.Clear, TablesOk, Inv, Walkable, ClearSids;
      var copy := txSids;
      var todo := copy.Keys;
      walk := [];
      ClearingStart(l, this, copy);
      while todo != {}
        invariant todo <= copy.Keys && Clearing(l, View(ss, cs), this, copy, todo, walk)
        decreases todo
      {
        var sid :| sid in todo;
        ghost var before := View(ss, cs);
        var (stream, i) := copy[sid];
        ClearingSlot(l, before, this, copy, todo, walk, sid);
        assert stream.slots[i].channel == Some(this);
        ghost var order := stream.Clear(i, ss, cs);
        ClearingStep(l, before, this, copy, todo, walk, sid, order);
        walk := walk + [SidWalk(sid, order)];
        todo := todo - {sid};
      }
      ClearingEnd(l, View(ss, cs), this, copy, walk);
    }

    /** The loop of stop over a copy of receive_sids_. */
    method ClearReceiveAttachments(ghost ss: set<BaseStream>, ghost cs: set<StreamChannel>) returns (ghost walk: seq<nat>)
      requires this in cs && ReceiveOk(View(ss, cs)) && !View(ss, cs).failed
      modifies ss, cs
      ensures Walks(walk, old(rxSids)) && View(ss, cs) == RxClearSids(old(View(ss, cs)), this, old(rxSids), walk)
    {
      ghost var l := View(ss, cs);
      hide RxClearing, ReceiveOk, RxClear, RxClearSids;
      var copy := rxSids;
      var todo := copy.Keys;
      walk := [];
      RxClearingStart(l, this, copy);
      while todo != {}
        invariant todo <= copy.Keys && RxClearing(l, View(ss, cs), this, copy, todo, walk)
        decreases todo
      {
        var sid :| sid in todo;
        ghost var before := View(ss, cs);
        var (stream, i) := copy[sid];
        RxClearingStep(l, before, this, copy, todo, walk, sid);
        assert stream.rxSlots[i].channel == Some(this);
        stream.ClearReceive(i, this, ss, cs);
        walk := walk + [sid];
        todo := todo - {sid};
      }
      RxClearingEnd(l, View(ss, cs), this, copy, walk);
    }

    /** detach_all: the packets are set aside first and given back last. */
    method DetachAll(ghost ss: set<BaseStream>, ghost cs: set<StreamChannel>)
      returns (ghost walk: seq<SidWalk>, ghost order: seq<nat>)
      requires this in cs && Healthy(View(ss, cs))
      modifies ss, cs
      ensures var l := old(View(ss, cs));
              && WalksAll(l, this, walk) && Walkable(Restore(l, this, map[]), this, l.channels[this].txSids, walk)
              && Walks(order, l.channels[this].waitingAck)
              && View(ss, cs) == StreamLayer.DetachAll(l, this, walk, order)
      ensures Healthy(View(ss, cs)) && txSids == map[] && waitingAck == map[]
    {
      ghost var l := View(ss, cs);
      ViewIs(ss, cs);
      hide View, Healthy, Aside, StreamLayer.DetachAll, Walkable, ClearSids, GiveAllBack;
      var copy := waitingAck;
      waitingAck := map[];
      OneChannel(l, ss, cs, this);
      AsideStart(l, this);
      walk := ClearAside(l, copy, ss, cs);
      ghost var r := View(ss, cs);
      ViewIs(ss, cs);
      AsideEnd(l, r, this, walk);
      assert txSids == map[];
      order := GiveAllPacketsBack(copy, ss, cs);
      ViewIs(ss, cs);
      AsideGiven(l, r, this, walk, order);
    }

    /** The first loop of detach_all, over a copy of transmit_sids_. */
    method ClearAside(ghost l: Layer<BaseStream, StreamChannel>, ghost pending: map<nat, PacketFrame>,
                      ghost ss: set<BaseStream>, ghost cs: set<StreamChannel>) returns (ghost walk: seq<SidWalk>)
      requires this in cs && this in l.channels && l.channels[this].txSids == txSids
      requires Aside(l, View(ss, cs), this, txSids.Keys, [])
      modifies ss, cs
      ensures Aside(l, View(ss, cs), this, {}, walk)
    {
      hide Aside, StreamLayer.Clear, TablesOk, Inv;
      var copy := txSids;
      var todo := copy.Keys;
      walk := [];
      while todo != {}
        invariant todo <= copy.Keys && Aside(l, View(ss, cs), this, todo, walk)
        decreases todo
      {
        var sid :| sid in todo;
        ghost var before := View(ss, cs);
        var (stream, i) := copy[sid];
        AsideStep(l, before, this, todo, walk, sid);
        assert stream.slots[i].channel == Some(this) && waitingAck == map[];
        ghost var order := stream.Clear(i, ss, cs);
        NothingToWalk(order, before.channels[this].waitingAck);
        walk := walk + [SidWalk(sid, [])];
        todo := todo - {sid};
      }
    }

    /** The second loop of detach_all. */
    method GiveAllPacketsBack(copy: map<nat, PacketFrame>, ghost ss: set<BaseStream>, ghost cs: set<StreamChannel>)
      returns (ghost order: seq<nat>)
      requires this in cs && waitingAck == map[] && GivingBack(View(ss, cs), View(ss, cs), this, copy, copy.Keys, [])
      modifies ss, cs
      ensures Walks(order, copy) && View(ss, cs) == GiveAllBack(old(View(ss, cs)), copy, order)
    {
      ghost var l := View(ss, cs);
      hide GivingBack, Inv, GiveAllBack;
      var todo := copy.Keys;
      order := [];
      while todo != {}
        invariant todo <= copy.Keys && GivingBack(l, View(ss, cs), this, copy, todo, order)
        decreases todo
      {
        var n :| n in todo;
        ghost var before := View(ss, cs);
        var p := copy[n];
        GivingBackStep(l, before, this, copy, todo, order, n);
        assert !p.late;
        var keep := p.owner.Missed(p.(late := true), ss, cs);
        order := order + [n];
        todo := todo - {n};
      }
      GivingBackEnd(l, View(ss, cs), this, copy, order);
    }

    /** got_ready_transmit: serve the front of the line, at least once, while flow control allows. */
    method GotReadyTransmit(ghost ss: set<BaseStream>, ghost cs: set<StreamChannel>)
      requires this in cs && Inv(View(ss, cs))
      modifies ss, cs
      ensures View(ss, cs) == GotReady(old(View(ss, cs)), this)
      decreases 3
    {
      hide Inv, View, ServeFront;
      ViewIs(ss, cs);
      if sending == [] { return; }
      var more := true;
      while more
        invariant View(ss, cs).channels.Keys == cs && View(ss, cs).channels[this] == Value()
        invariant Inv(View(ss, cs)) && (more ==> sending != [])
        invariant Serve(old(View(ss, cs)), this) == if more then Serve(View(ss, cs), this) else View(ss, cs)
        decreases if more then 1 else 0, allowance, |sending|
      {
        ViewIs(ss, cs);
        ServeOne(ss, cs);
        ViewIs(ss, cs);
        more := sending != [] && allowance > 0;
      }
    }

    /** One pass of the loop: the front of the line transmits. */
    method ServeOne(ghost ss: set<BaseStream>, ghost cs: set<StreamChannel>)
      requires this in cs && Inv(View(ss, cs)) && sending != []
      modifies ss, cs
      ensures View(ss, cs).channels.Keys == cs && old(View(ss, cs)).channels.Keys == cs
      ensures old(View(ss, cs)).channels[this].sending == old(sending)
      ensures View(ss, cs) == ServeFront(old(View(ss, cs)), this) && Inv(View(ss, cs))
      decreases 3, 0
    {
      hide Inv, View, StreamLayer.TransmitOn;
      ghost var before := View(ss, cs);
      ViewIs(ss, cs);
      ServeFrontKeeps(before, this);
      FrontKnown(before, this);
      var stream := sending[0];
      sending := sending[1..];
      OneChannel(before, ss, cs, this);
      stream.TransmitOn(this, before, ss, cs);
      ViewIs(ss, cs);
    }

    /** acknowledged: `npackets` packets from `txseq` on. */
    method Acknowledged(txseq: nat, npackets: nat, rxackseq: nat,
                        ghost ss: set<BaseStream>, ghost cs: set<StreamChannel>)
      requires this in cs && Inv(View(ss, cs))
      modifies ss, cs
      ensures Inv(View(ss, cs))
      ensures View(ss, cs) == AcknowledgedRange(old(View(ss, cs)), this, txseq, npackets, rxackseq)
    {
      hide Inv, StreamLayer.Acknowledged;
      for i := 0 to npackets
        invariant Inv(View(ss, cs))
        invariant AcknowledgedRange(old(View(ss, cs)), this, txseq, npackets, rxackseq) ==
                    AcknowledgedRange(View(ss, cs), this, txseq + i, npackets - i, rxackseq)
      {
        AcknowledgedKeeps(View(ss, cs), this, txseq + i, rxackseq);
        AcknowledgedOne(txseq + i, rxackseq, ss, cs);
      }
    }

    /** Find and remove one packet, and tell its stream. */
    method AcknowledgedOne(n: nat, rxackseq: nat, ghost ss: set<BaseStream>, ghost cs: set<StreamChannel>)
      requires this in cs && Inv(View(ss, cs))
      modifies ss, cs
      ensures View(ss, cs) == StreamLayer.Acknowledged(old(View(ss, cs)), this, n, rxackseq)
    {
      hide View, Inv, StreamAcknowledged, AfterAck;
      ghost var l := View(ss, cs);
      ViewIs(ss, cs);
      if n !in waitingAck { return; }
      AfterAckKeeps(l, this, n);
      var p := waitingAck[n];
      waitingAck := waitingAck - {n};
      OneChannel(l, ss, cs, this);
      p.owner.Acknowledged(this, p, rxackseq, ss, cs);
    }

    /** missed: packets stay in the table unless their stream gives them up. */
    method Missed(txseq: nat, npackets: nat, ghost ss: set<BaseStream>, ghost cs: set<StreamChannel>)
      requires this in cs && Inv(View(ss, cs))
      modifies ss, cs
      ensures Inv(View(ss, cs)) && View(ss, cs) == MissedRange(old(View(ss, cs)), this, txseq, npackets)
    {
      hide Inv, StreamLayer.Missed;
      for i := 0 to npackets
        invariant Inv(View(ss, cs))
        invariant MissedRange(old(View(ss, cs)), this, txseq, npackets) ==
                    MissedRange(View(ss, cs), this, txseq + i, npackets - i)
      {
        MissedKeeps(View(ss, cs), this, txseq + i);
        MissedOne(txseq + i, ss, cs);
      }
    }

    method MissedOne(n: nat, ghost ss: set<BaseStream>, ghost cs: set<StreamChannel>)
      requires this in cs && Inv(View(ss, cs))
      modifies ss, cs
      ensures View(ss, cs) == StreamLayer.Missed(old(View(ss, cs)), this, n)
    {
      hide View, Inv, StreamMissed, Queued;
      ghost var l := View(ss, cs);
      ViewIs(ss, cs);
      if n !in waitingAck { return; }
      var p := waitingAck[n];
      MissedReady(l, this, n);
      if p.late { return; }
      missed := missed + {n};
      OneChannel(l, ss, cs, this);
      assert View(ss, cs) == Mark(l, this, n);
      var keep := p.owner.Missed(p.(late := true), ss, cs);
      if !keep {
        ghost var before := View(ss, cs);
        ViewIs(ss, cs);
        waitingAck := waitingAck - {n};
        OneChannel(before, ss, cs, this);
      }
    }

    /** expire: remove packets whatever became of them. */
    method Expire(txseq: nat, npackets: nat, ghost ss: set<BaseStream>, ghost cs: set<StreamChannel>)
      requires this in cs
      modifies this`waitingAck
      ensures View(ss, cs) == Forget(old(View(ss, cs)), this, Range(txseq, npackets))
    {
      for i := 0 to npackets
        invariant waitingAck == old(waitingAck) - Range(txseq, i)
      {
        waitingAck := waitingAck - {txseq + i};
      }
      OneChannel(old(View(ss, cs)), ss, cs, this);
    }
  }

  class BaseStream {
    var byteSeq: nat
    var queue: seq<PacketFrame>
    var waiting: set<nat>
    var waitingSize: int
    var enqueued: bool
    var slots: seq<TxSlot<StreamChannel>>
    var rxSlots: seq<RxSlot<StreamChannel>>
    var current: Option<nat>
    var init: bool
    var priority: nat
    var piggyback: bool
    ghost var segments: map<nat, Segment>

    ghost function Value(): Stream<BaseStream, StreamChannel>
      reads this
    {
      Stream(byteSeq, queue, waiting, waitingSize, enqueued, slots, rxSlots, current, init, priority, piggyback, segments)
    }

    constructor (priority: nat)
      ensures Value() == FreshStream(priority)
    {
      byteSeq, queue, waiting, waitingSize, enqueued := 0, [], {}, 0, false;
      slots := [TxSlot(None, 0, None, false), TxSlot(None, 0, None, false)];
      rxSlots := [RxSlot(None, 0, 0), RxSlot(None, 0, 0)];
      current, init, this.priority, piggyback, segments := None, true, priority, false, map[];
    }

    /** tx_enqueue_channel */
    method TxEnqueueChannel(immediately: bool, ghost ss: set<BaseStream>, ghost cs: set<StreamChannel>)
      requires this in ss && (current.None? || Inv(View(ss, cs)))
      modifies ss, cs
      ensures View(ss, cs) == if immediately then LinkNow(old(View(ss, cs)), this) else Link(old(View(ss, cs)), this)
      decreases if immediately then 4 else 0
    {
      hide Inv, Link, LinkNow;
      ghost var l := View(ss, cs);
      DetachedLink(l, this);
      if current.None? { return; }
      LinkKeeps(l, this);
      LinkKnown(l, this);
      var channel := slots[current.value].channel.value;
      GetInLine(channel, ss, cs);
      LinkNowIs(l, this, channel);
      if immediately && channel.allowance > 0 {
        channel.GotReadyTransmit(ss, cs);
      }
    }

    /** Getting in line on `channel`, unless the stream is there already or has nothing to send. */
    method GetInLine(channel: StreamChannel, ghost ss: set<BaseStream>, ghost cs: set<StreamChannel>)
      requires this in ss && channel in cs && Ascending(View(ss, cs), channel.sending)
      requires View(ss, cs).Current(this) == Some(channel)
      modifies this`enqueued, channel`sending
      ensures View(ss, cs) == Link(old(View(ss, cs)), this)
      decreases 0
    {
      if !enqueued && queue != [] {
        channel.EnqueueStream(this, ss, cs);
        ghost var before := View(ss, cs);
        ViewIs(ss, cs);
        enqueued := true;
        OneStream(before, ss, cs, this);
      }
    }

    /** Takes the head of the queue and does tx_data on it. */
    method TxData(channel: StreamChannel, ghost ss: set<BaseStream>, ghost cs: set<StreamChannel>)
      requires this in ss && channel in cs && Inv(View(ss, cs)) && !enqueued && queue != []
      modifies ss, cs
      ensures View(ss, cs) == SendHead(old(View(ss, cs)), channel, this)
      decreases 1
    {
      hide View, Inv;
      ghost var l := View(ss, cs);
      ViewIs(ss, cs);
      SentKeeps(l, channel, this);
      var p := queue[0];
      queue := queue[1..];
      OneStream(l, ss, cs, this);
      channel.Transmit(p.(late := false), ss, cs);
      TxEnqueueChannel(false, ss, cs);
    }

    /** transmit_on: `whole` is the host before the channel took this stream off its line. */
    method TransmitOn(channel: StreamChannel, ghost whole: Layer<BaseStream, StreamChannel>,
                      ghost ss: set<BaseStream>, ghost cs: set<StreamChannel>)
      requires this in ss && channel in cs && Inv(whole) && channel in whole.channels
      requires whole.channels[channel].sending != [] && whole.channels[channel].sending[0] == this
      requires View(ss, cs) ==
                 whole.SetChannel(channel, whole.channels[channel].(sending := whole.channels[channel].sending[1..]))
      modifies ss, cs
      ensures View(ss, cs) == StreamLayer.TransmitOn(old(View(ss, cs)), channel, this)
      decreases 2
    {
      hide View, Inv, SendHead, StreamLayer.Transmit, StreamLayer.TransmitOn;
      ghost var l := View(ss, cs);
      ViewIs(ss, cs);
      FrontMayTransmit(whole, channel);
      BegunReady(whole, channel);
      ServesAs(whole, channel);
      BeginKeeps(whole, channel);
      assert enqueued && current.Some? && slots[current.value].channel == Some(channel) && queue != [];
      enqueued := false;
      DropAckedHead();
      OneStream(l, ss, cs, this);
      assert View(ss, cs) == Begin(whole, channel);
      if queue == [] { return; }
      var slot := slots[current.value];
      if slot.Acknowledged() {
        assert !init && slot.active;
        TxData(channel, ss, cs);
      } else if queue[0].kind == Data && queue[0].seg.pos <= 0xffff && piggyback {
        TxData(channel, ss, cs);
      } else {
        channel.Transmit(Frame(this, Attach, ATTACH_SEGMENT, false), ss, cs);
      }
    }

    /** The garbage collection at the top of transmit_on. */
    method DropAckedHead()
      modifies this`queue
      ensures queue == DropAcked(old(queue), waiting)
      decreases 0
    {
      while queue != [] && queue[0].kind == Data && queue[0].seg.pos !in waiting
        invariant DropAcked(queue, waiting) == DropAcked(old(queue), waiting)
        decreases |queue|
      {
        queue := queue[1..];
      }
    }

    /** tx_enqueue_packet */
    method TxEnqueuePacket(p: PacketFrame, ghost ss: set<BaseStream>, ghost cs: set<StreamChannel>)
      requires this in ss && (current.None? || Inv(Queued(View(ss, cs), this, p)))
      modifies ss, cs
      ensures View(ss, cs) == EnqueueFrame(old(View(ss, cs)), this, p)
    {
      hide View, Inv, LinkNow;
      ghost var l := View(ss, cs);
      ViewIs(ss, cs);
      var i := QueuePlace(p.seg.pos);
      queue := queue[..i] + [p] + queue[i..];
      OneStream(l, ss, cs, this);
      TxEnqueueChannel(true, ss, cs);
    }

    /** The scan of tx_enqueue_packet: the place behind all frames up to this position. */
    method QueuePlace(pos: nat) returns (i: nat)
      ensures i == QueueIndex(queue, pos)
    {
      i := 0;
      while i < |queue| && queue[i].seg.pos <= pos
        invariant i <= |queue| && QueueIndex(queue, pos) == i + QueueIndex(queue[i..], pos)
      {
        assert queue[i..][1..] == queue[i + 1..];
        i := i + 1;
      }
    }

    /** write_data */
    method WriteData(data: seq<byte>, end: Flags, mtu: nat, ghost ss: set<BaseStream>, ghost cs: set<StreamChannel>)
      returns (actualSize: nat)
      requires this in ss && Inv(View(ss, cs)) && mtu > 0 && data != []
      modifies ss, cs
      ensures actualSize == |data| && Inv(View(ss, cs))
      ensures View(ss, cs) == WriteAll(old(View(ss, cs)), this, Cut(old(byteSeq), data, end, mtu))
    {
      hide Inv, StreamLayer.WriteSegment;
      var rest := data;
      actualSize := 0;
      while rest != []
        invariant Inv(View(ss, cs)) && actualSize + |rest| == |data|
        invariant WriteAll(old(View(ss, cs)), this, Cut(old(byteSeq), data, end, mtu)) ==
                    if rest == [] then View(ss, cs) else WriteAll(View(ss, cs), this, Cut(byteSeq, rest, end, mtu))
        decreases |rest|
      {
        var last := |rest| <= mtu;
        var size := if last then |rest| else mtu;
        var flags := if last then Flags(true, end.record, end.close) else Flags(false, false, false);
        var seg := Segment(byteSeq, rest[..size], flags);
        CutStep(byteSeq, rest, end, mtu);
        ghost var before := View(ss, cs);
        WriteSegmentKeeps(before, this, seg);
        WriteSegmentByteSeq(before, this, seg);
        WriteSegment(seg, ss, cs);
        rest := rest[size..];
        actualSize := actualSize + size;
      }
    }

    /** One pass of the loop in write_data. */
    method WriteSegment(seg: Segment, ghost ss: set<BaseStream>, ghost cs: set<StreamChannel>)
      requires this in ss && Inv(View(ss, cs)) && seg.pos == byteSeq && seg.data != []
      modifies ss, cs
      ensures View(ss, cs) == StreamLayer.WriteSegment(old(View(ss, cs)), this, seg)
    {
      hide View, Inv, Queued, EnqueueFrame, RecordSegment;
      ghost var l := View(ss, cs);
      ViewIs(ss, cs);
      RecordedKeeps(l, this, seg);
      Record(seg);
      OneStream(l, ss, cs, this);
      TxEnqueuePacket(Frame(this, Data, seg, false), ss, cs);
    }

    /** Accounts for the bytes of one segment. */
    method Record(seg: Segment)
      modifies this
      ensures Value() == RecordSegment(old(Value()), seg)
    {
      byteSeq := byteSeq + |seg.data|;
      waiting := waiting + {seg.pos};
      waitingSize := waitingSize + |seg.data|;
      segments := segments[seg.pos := seg];
    }

    /** acknowledged: a packet of this stream has left the table of `channel`. */
    method Acknowledged(channel: StreamChannel, pkt: PacketFrame, rxSeq: nat,
                        ghost ss: set<BaseStream>, ghost cs: set<StreamChannel>)
      requires this in ss && channel in cs && pkt.owner == this
      requires Inv(AfterAck(View(ss, cs), pkt))
      modifies ss, cs
      ensures View(ss, cs) == StreamAcknowledged(old(View(ss, cs)), channel, pkt, rxSeq)
    {
      hide View, Inv, Activate;
      ghost var l := View(ss, cs);
      ViewIs(ss, cs);
      AfterAckSize(l, pkt);
      if pkt.kind == Datagram { return; }
      if pkt.kind == Data {
        if pkt.seg.pos in waiting {
          waiting := waiting - {pkt.seg.pos};
          waitingSize := waitingSize - |pkt.seg.data|;
        }
        OneStream(l, ss, cs, this);
        assert waitingSize >= 0;
      }
      SetActive(channel, rxSeq, ss, cs);
    }

    /** The part of acknowledged shared by data and attach packets. */
    method SetActive(channel: StreamChannel, rxSeq: nat, ghost ss: set<BaseStream>, ghost cs: set<StreamChannel>)
      requires this in ss && channel in cs && Inv(View(ss, cs))
      modifies ss, cs
      ensures View(ss, cs) == Activate(old(View(ss, cs)), channel, this, rxSeq)
    {
      hide View, Inv, Link;
      ghost var l := View(ss, cs);
      ViewIs(ss, cs);
      CurrentFacts(l, this);
      if current.Some? && slots[current.value].channel == Some(channel) && !slots[current.value].Acknowledged() {
        ActivatedKeeps(l, channel, this, rxSeq);
        var i := current.value;
        slots := slots[i := slots[i].(sidSeq := Some(rxSeq), active := true)];
        init := false;
        OneStream(l, ss, cs, this);
        TxEnqueueChannel(false, ss, cs);
      }
    }

    /** missed */
    method Missed(pkt: PacketFrame, ghost ss: set<BaseStream>, ghost cs: set<StreamChannel>) returns (keep: bool)
      requires this in ss && pkt.owner == this && pkt.late
      requires current.None? || Inv(if pkt.kind == Data then Queued(View(ss, cs), this, pkt) else View(ss, cs))
      modifies ss, cs
      ensures (View(ss, cs), keep) == StreamMissed(old(View(ss, cs)), pkt)
    {
      hide Inv;
      match pkt.kind {
        case Data =>
          TxEnqueuePacket(pkt, ss, cs);
          return true;
        case Attach =>
          TxEnqueueChannel(false, ss, cs);
          return true;
        case Datagram =>
          return false;
      }
    }

    /** set_priority */
    method SetPriority(newPriority: nat, ghost ss: set<BaseStream>, ghost cs: set<StreamChannel>)
      requires this in ss && Inv(View(ss, cs))
      modifies ss, cs
      ensures View(ss, cs) == StreamLayer.SetPriority(old(View(ss, cs)), this, newPriority)
    {
      hide View, Inv, StreamLayer.EnqueueStream, StreamLayer.DequeueStream, Ascending;
      ghost var l := View(ss, cs);
      ViewIs(ss, cs);
      if priority != newPriority {
        if enqueued { RejoinReady(l, this, newPriority); }
        priority := newPriority;
        OneStream(l, ss, cs, this);
        if enqueued {
          var channel := slots[current.value].channel.value;
          channel.DequeueStream(this, ss, cs);
          ViewIs(ss, cs);
          channel.EnqueueStream(this, ss, cs);
        }
      }
    }

    /** attach_for_transmit once `channel` is there; a stream with no free id stays detached. */
    method AttachForTransmit(channel: StreamChannel, ghost ss: set<BaseStream>, ghost cs: set<StreamChannel>)
      requires this in ss && channel in cs && Inv(View(ss, cs))
      modifies ss, cs
      ensures View(ss, cs) == AttachFor(old(View(ss, cs)), this, channel)
    {
      hide Inv, AttachFor, View;
      ViewIs(ss, cs);
      AttachForIs(View(ss, cs), this, channel);
      if current.Some? {
        CurrentInUse(View(ss, cs), this);
        assert slots[current.value].InUse();
        return;
      }
      TakeSlot(channel, ss, cs);
    }

    /** A free id and slot for a detached stream, which then gets in line. */
    method TakeSlot(channel: StreamChannel, ghost ss: set<BaseStream>, ghost cs: set<StreamChannel>)
      requires this in ss && channel in cs && Inv(View(ss, cs)) && current.None?
      modifies ss, cs
      ensures View(ss, cs) == AttachFor(old(View(ss, cs)), this, channel)
    {
      hide Inv, LinkNow, AllocateSid, Attached, AttachFor, FreeSlot, View, Sid16;
      ghost var l := View(ss, cs);
      ViewIs(ss, cs);
      var sid := channel.AllocateTransmitSid();
      AttachForIs(l, this, channel);
      if sid.None? { return; }
      AttachedKeeps(l, this, channel, sid.value);
      var slot := FindFreeSlot();
      assert Sid16(sid.value) !in channel.txSids && this !in channel.sending;
      AttachSlot(channel, slot, sid.value, ss, cs);
      ViewIs(ss, cs);
      TxEnqueueChannel(true, ss, cs);
    }

    /** The scan for an attachment slot that is not in use. */
    method FindFreeSlot() returns (slot: nat)
      requires FreeSlot(slots) < |slots|
      ensures slot == FreeSlot(slots)
    {
      slot := 0;
      while slots[slot].InUse()
        invariant slot < |slots| && FreeSlot(slots) == slot + FreeSlot(slots[slot..])
        decreases |slots| - slot
      {
        assert slots[slot..][1..] == slots[slot + 1..];
        slot := slot + 1;
      }
    }

    /** set_attaching on slot `slot`, which becomes the current one. */
    method AttachSlot(channel: StreamChannel, slot: nat, counter: nat,
                      ghost ss: set<BaseStream>, ghost cs: set<StreamChannel>)
      requires this in ss && channel in cs && |slots| == 2 && slot == 0
      modifies this, channel
      ensures View(ss, cs) == Attached(old(View(ss, cs)), this, channel, counter)
    {
      ghost var l := View(ss, cs);
      ViewIs(ss, cs);
      slots := slots[slot := TxSlot(Some(channel), Sid16(counter), None, false)];
      current := Some(slot);
      OneStream(l, ss, cs, this);
      hide View;
      channel.Register(this, slot, counter, ss, cs);
    }

    /** stream_tx_attachment::clear up to the loop over the packets. */
    method Unlink(i: nat, channel: StreamChannel, ghost ss: set<BaseStream>, ghost cs: set<StreamChannel>)
      requires this in ss && channel in cs && TablesOk(View(ss, cs)) && i < |slots| && slots[i].channel == Some(channel)
      modifies this, channel
      ensures View(ss, cs) == StreamLayer.Unlink(old(View(ss, cs)), this, i)
      ensures channel.waitingAck == old(channel.waitingAck)
    {
      hide TablesOk, View, StreamLayer.Unlink;
      ghost var l := View(ss, cs);
      ViewIs(ss, cs);
      UnlinkReady(l, this, i);
      UnlinkIs(l, this, i);
      assert slots[i].sid in channel.txSids && channel.txSids[slots[i].sid] == (this, i);
      var sid := slots[i].sid;
      DropSlot(i, ss, cs);
      channel.Unregister(sid, this, ss, cs);
    }

    /** The stream's own part of clear. */
    method DropSlot(i: nat, ghost ss: set<BaseStream>, ghost cs: set<StreamChannel>)
      requires this in ss && i < |slots| && current == Some(i)
      modifies this
      ensures var l := old(View(ss, cs));
              var s := l.streams[this];
              var t := s.(current := None, slots := s.slots[i := s.slots[i].(channel := None, active := false)], enqueued := false);
              View(ss, cs) == l.SetStream(this, t)
    {
      ghost var l := View(ss, cs);
      ViewIs(ss, cs);
      hide View;
      if current == Some(i) { current := None; }
      slots := slots[i := slots[i].(channel := None, active := false)];
      enqueued := false;
      OneStream(l, ss, cs, this);
    }

    /** stream_tx_attachment::clear; `order` tells how the copy of the packet table was walked. */
    method Clear(i: nat, ghost ss: set<BaseStream>, ghost cs: set<StreamChannel>) returns (ghost order: seq<nat>)
      requires this in ss && i < |slots| && TablesOk(View(ss, cs))
      requires Inv(View(ss, cs)) || (slots[i].InUse() && slots[i].channel.value.waitingAck == map[])
      modifies ss, cs
      ensures View(ss, cs) == StreamLayer.Clear(old(View(ss, cs)), this, i, order)
      ensures old(slots[i].InUse()) ==>
                old(slots[i].channel.value) in cs && Walks(order, old(slots[i].channel.value.waitingAck))
    {
      hide Inv, StreamLayer.Unlink, Reclaim, TablesOk;
      ghost var l := View(ss, cs);
      order := [];
      if !slots[i].InUse() { return; }
      UnlinkReady(l, this, i);
      if Inv(l) { UnlinkKeeps(l, this, i); }
      var channel := slots[i].channel.value;
      var copy := channel.waitingAck;
      Unlink(i, channel, ss, cs);
      order := GivePacketsBack(channel, copy, ss, cs);
    }

    /** The loop over a copy of waiting_ack_. */
    method GivePacketsBack(channel: StreamChannel, copy: map<nat, PacketFrame>,
                           ghost ss: set<BaseStream>, ghost cs: set<StreamChannel>)
      returns (ghost order: seq<nat>)
      requires this in ss && channel in cs && channel.waitingAck == copy
      requires copy != map[] ==> Inv(View(ss, cs)) && View(ss, cs).Current(this) == None
      modifies ss, cs
      ensures Walks(order, copy)
      ensures View(ss, cs) == Reclaim(old(View(ss, cs)), channel, this, copy, order)
    {
      hide View, Inv, Reclaim, GiveBack, Reclaiming;
      ghost var l := View(ss, cs);
      ViewIs(ss, cs);
      order := [];
      var todo := copy.Keys;
      ReclaimingStart(l, channel, this, copy);
      while todo != {}
        invariant todo <= copy.Keys && Reclaiming(l, View(ss, cs), channel, this, copy, todo, order)
        decreases todo
      {
        var n :| n in todo;
        ghost var before := View(ss, cs);
        ViewIs(ss, cs);
        ReclaimingStep(l, before, channel, this, copy, todo, order, n);
        var p := copy[n];
        if p.owner == this { TakeBack(p, n, channel, ss, cs); }
        order := order + [n];
        todo := todo - {n};
      }
      ReclaimingEnd(l, View(ss, cs), channel, this, copy, order);
    }

    /** One packet comes back to its stream and leaves the table. */
    method TakeBack(p: PacketFrame, n: nat, channel: StreamChannel,
                    ghost ss: set<BaseStream>, ghost cs: set<StreamChannel>)
      requires this in ss && channel in cs && p.owner == this && !p.late
      requires Inv(if p.kind == Data then Queued(View(ss, cs), this, p.(late := true)) else View(ss, cs))
      requires channel in GiveBack(View(ss, cs), p).channels
      requires GiveBack(View(ss, cs), p).channels == View(ss, cs).channels
      modifies ss, cs
      ensures View(ss, cs) == Forget(GiveBack(old(View(ss, cs)), p), channel, {n})
      ensures channel.waitingAck == old(channel.waitingAck) - {n}
    {
      hide View, Inv, StreamMissed;
      ghost var l := View(ss, cs);
      ViewIs(ss, cs);
      var keep := Missed(p.(late := true), ss, cs);
      ghost var before := View(ss, cs);
      ViewIs(ss, cs);
      assert before.channels[channel] == l.channels[channel];
      channel.waitingAck := channel.waitingAck - {n};
      OneChannel(before, ss, cs, channel);
    }

    /** stream_rx_attachment::clear */
    method ClearReceive(i: nat, channel: StreamChannel, ghost ss: set<BaseStream>, ghost cs: set<StreamChannel>)
      requires this in ss && channel in cs && i < |rxSlots| && rxSlots[i].channel == Some(channel)
      requires RxListed(View(ss, cs), this, i)
      modifies this, channel
      ensures View(ss, cs) == RxClear(old(View(ss, cs)), this, i)
    {
      ghost var l := View(ss, cs);
      ViewIs(ss, cs);
      hide View;
      assert rxSlots[i].sid in channel.rxSids && channel.rxSids[rxSlots[i].sid] == (this, i);
      channel.rxSids := channel.rxSids - {rxSlots[i].sid};
      OneChannel(l, ss, cs, channel);
      ghost var before := View(ss, cs);
      ViewIs(ss, cs);
      rxSlots := rxSlots[i := rxSlots[i].(channel := None)];
      OneStream(before, ss, cs, this);
    }
  }

  lemma InitialIs<K, C>(priorities: map<K, nat>, channels: set<C>)
    ensures var l := Initial<K, C>(priorities, channels);
            && l.streams.Keys == priorities.Keys && l.channels.Keys == channels && !l.failed
            && (forall k :: k in priorities ==> l.streams[k] == FreshStream(priorities[k]))
            && (forall c :: c in channels ==> l.channels[c] == FreshChannel())
  {}

  lemma LayersEqual<K, C>(l: Layer<K, C>, r: Layer<K, C>)
    requires l.streams.Keys == r.streams.Keys && l.channels.Keys == r.channels.Keys && l.failed == r.failed
    requires forall k :: k in l.streams ==> l.streams[k] == r.streams[k]
    requires forall c :: c in l.channels ==> l.channels[c] == r.channels[c]
    ensures l == r
  {
    assert l.streams == r.streams && l.channels == r.channels;
  }

  /** A host of fresh objects is healthy, so every method may be called on it. */
  lemma FreshHostHealthy(ss: set<BaseStream>, cs: set<StreamChannel>)
    requires forall s :: s in ss ==> s.Value() == FreshStream(s.priority)
    requires forall c :: c in cs ==> c.Value() == FreshChannel()
    ensures Healthy(View(ss, cs))
  {
    var priorities := map s | s in ss :: s.priority;
    InitialHealthy<BaseStream, StreamChannel>(priorities, cs);
    ViewIs(ss, cs);
    InitialIs<BaseStream, StreamChannel>(priorities, cs);
    hide Healthy, View, Initial;
    LayersEqual(View(ss, cs), Initial(priorities, cs));
  }
}
