/**
 The effect of each event on streams and channels, told from their fields: which packets go out, which segments are
 released, which attachments come about, and what does not change.
 */
module StreamEffects {
  import opened Options
  import opened Segments
  import opened StreamLayer
  import opened StreamInvariants
  import opened StreamSteps
  import opened StreamOps
  import opened StreamAttach
  import opened StreamHomes
  import opened StreamTeardown
  import opened StreamRuns
  import opened StreamSending
  import History = StreamHistory
  import Progress = StreamProgress

  // ---------------------------------------------------------------- events that send nothing

  ghost predicate Silent<K, C>(l: Layer<K, C>, r: Layer<K, C>) {
    && r.channels.Keys == l.channels.Keys
    && forall c :: c in l.channels ==>
         && r.channels[c].sent == l.channels[c].sent && r.channels[c].txSeq == l.channels[c].txSeq
         && r.channels[c].allowance == l.channels[c].allowance
  }

  lemma SilentThen<K, C>(a: Layer<K, C>, b: Layer<K, C>, d: Layer<K, C>)
    requires Silent(a, b) && Silent(b, d)
    ensures Silent(a, d)
  {}

  /** The same slots, in use as before. */
  ghost predicate SameUse<K, C>(l: Layer<K, C>, r: Layer<K, C>) {
    && r.streams.Keys == l.streams.Keys
    && forall k :: k in l.streams ==>
         r.streams[k].slots == l.streams[k].slots && r.streams[k].current == l.streams[k].current
  }

  ghost predicate AllSlotsOk<K, C>(l: Layer<K, C>) {
    forall k :: k in l.streams ==> SlotsOk(l.streams[k])
  }

  /** A packet given back to a detached stream is queued at most. */
  lemma GiveBackSilent<K, C>(l: Layer<K, C>, f: Frame<K>)
    requires f.owner in l.streams && l.Current(f.owner) == None
    ensures Silent(l, GiveBack(l, f)) && SameUse(l, GiveBack(l, f)) && GiveBack(l, f).channels == l.channels
  {
    if !f.late { GiveBackDetached(l, f); }
  }

  lemma SameUseCurrent<K, C>(l: Layer<K, C>, r: Layer<K, C>, k: K)
    requires SameUse(l, r) && k in l.streams
    ensures k in r.streams && r.Current(k) == l.Current(k)
  {}

  lemma {:induction false} ReclaimSilent<K, C>(l: Layer<K, C>, c: C, k: K, copy: map<nat, Frame<K>>, order: seq<nat>)
    requires k in l.streams && c in l.channels && l.Current(k) == None && forall n :: n in order ==> n in copy
    ensures Silent(l, Reclaim(l, c, k, copy, order)) && SameUse(l, Reclaim(l, c, k, copy, order))
    decreases |order|
  {
    hide Silent, SameUse, GiveBack;
    if order == [] {
      SilentSelf(l);
    } else {
      var f := copy[order[0]];
      if f.owner != k {
        ReclaimSilent(l, c, k, copy, order[1..]);
      } else {
        GiveBackSilent(l, f);
        var b := GiveBack(l, f);
        SameUseCurrent(l, b, k);
        var r := Forget(b, c, {order[0]});
        ForgetSilent(b, c, {order[0]});
        SameUseCurrent(b, r, k);
        ReclaimSilent(r, c, k, copy, order[1..]);
        var end := Reclaim(r, c, k, copy, order[1..]);
        SilentThen(l, b, r);
        SilentThen(l, r, end);
        SameUseThen(l, b, r);
        SameUseThen(l, r, end);
      }
    }
  }

  lemma SilentSelf<K, C>(l: Layer<K, C>)
    ensures Silent(l, l) && SameUse(l, l)
  {}

  lemma SameUseThen<K, C>(a: Layer<K, C>, b: Layer<K, C>, d: Layer<K, C>)
    requires SameUse(a, b) && SameUse(b, d)
    ensures SameUse(a, d)
  {}

  lemma ForgetSilent<K, C>(l: Layer<K, C>, c: C, seqs: set<nat>)
    requires c in l.channels
    ensures Silent(l, Forget(l, c, seqs)) && SameUse(l, Forget(l, c, seqs))
  {}

  lemma UnlinkSilent<K, C>(l: Layer<K, C>, k: K, i: nat)
    requires AllSlotsOk(l) && k in l.streams && i < |l.streams[k].slots| && l.streams[k].slots[i].InUse()
    requires l.streams[k].slots[i].channel.value in l.channels
    ensures Silent(l, Unlink(l, k, i)) && AllSlotsOk(Unlink(l, k, i))
    ensures k in Unlink(l, k, i).streams && Unlink(l, k, i).Current(k) == None
  {
    var r := Unlink(l, k, i);
    assert SlotsOk(l.streams[k]);
    forall m | m in r.streams ensures SlotsOk(r.streams[m]) {
      if m != k { assert SlotsOk(l.streams[m]); }
    }
  }

  lemma UsedOk<K, C>(l: Layer<K, C>, r: Layer<K, C>)
    requires AllSlotsOk(l) && SameUse(l, r)
    ensures AllSlotsOk(r)
  {
    forall k | k in r.streams ensures SlotsOk(r.streams[k]) { assert SlotsOk(l.streams[k]); }
  }

  lemma ClearSilent<K, C>(l: Layer<K, C>, k: K, i: nat, order: seq<nat>)
    requires AllSlotsOk(l) && k in l.streams && i < |l.streams[k].slots|
    ensures Silent(l, Clear(l, k, i, order)) && AllSlotsOk(Clear(l, k, i, order))
  {
    hide AllSlotsOk, Silent, SameUse, Walks, Reclaim, Unlink;
    SilentSelf(l);
    CheckSilent(l, false);
    UsedOk(l, l.Check(false));
    var slot := l.streams[k].slots[i];
    if slot.InUse() && slot.channel.value in l.channels && Walks(order, l.channels[slot.channel.value].waitingAck) {
      var c := slot.channel.value;
      UnlinkSilent(l, k, i);
      var u, r := Unlink(l, k, i), Clear(l, k, i, order);
      UnlinkKnows(l, k, i, order);
      ReclaimSilent(u, c, k, l.channels[c].waitingAck, order);
      SilentThen(l, u, r);
      UsedOk(u, r);
    }
  }

  lemma UnlinkKnows<K, C>(l: Layer<K, C>, k: K, i: nat, order: seq<nat>)
    requires k in l.streams && i < |l.streams[k].slots| && l.streams[k].slots[i].InUse()
    requires l.streams[k].slots[i].channel.value in l.channels
    requires Walks(order, l.channels[l.streams[k].slots[i].channel.value].waitingAck)
    ensures l.streams[k].slots[i].channel.value in Unlink(l, k, i).channels
    ensures forall n :: n in order ==> n in l.channels[l.streams[k].slots[i].channel.value].waitingAck
  {}

  lemma CheckSilent<K, C>(l: Layer<K, C>, b: bool)
    ensures Silent(l, l.Check(b)) && SameUse(l, l.Check(b))
  {}

  lemma {:induction false} ClearSidsSilent<K, C>(l: Layer<K, C>, c: C, copy: map<nat, (K, nat)>, walk: seq<SidWalk>)
    requires AllSlotsOk(l) && forall w :: w in walk ==> w.sid in copy
    ensures Silent(l, ClearSids(l, c, copy, walk))
    decreases |walk|
  {
    hide AllSlotsOk, Silent, Clear;
    SilentSelf(l);
    CheckSilent(l, false);
    if walk != [] {
      var (k, i) := copy[walk[0].sid];
      if l.On(k, i, c) {
        ClearSilent(l, k, i, walk[0].order);
        var r := Clear(l, k, i, walk[0].order);
        ClearSidsSilent(r, c, copy, walk[1..]);
        SilentThen(l, r, ClearSids(r, c, copy, walk[1..]));
      }
    }
  }

  lemma OnlyReceiveSilent<K, C>(l: Layer<K, C>, r: Layer<K, C>)
    requires OnlyReceive(l, r)
    ensures Silent(l, r)
  {}

  lemma {:induction false} RxClearSidsSilent<K, C>(l: Layer<K, C>, c: C, copy: map<nat, (K, nat)>, walk: seq<nat>)
    requires forall sid :: sid in walk ==> sid in copy
    ensures Silent(l, RxClearSids(l, c, copy, walk))
    decreases |walk|
  {
    hide Silent, RxClear, OnlyReceive;
    SilentSelf(l);
    CheckSilent(l, false);
    if walk != [] {
      var (k, i) := copy[walk[0]];
      if k in l.streams && i < |l.streams[k].rxSlots| && l.streams[k].rxSlots[i].channel == Some(c) {
        RxClearOnly(l, k, i);
        var r := RxClear(l, k, i);
        OnlyReceiveSilent(l, r);
        RxClearSidsSilent(r, c, copy, walk[1..]);
        SilentThen(l, r, RxClearSids(r, c, copy, walk[1..]));
      }
    }
  }

  lemma {:induction false} GiveAllBackSilent<K, C>(l: Layer<K, C>, copy: map<nat, Frame<K>>, order: seq<nat>)
    requires forall n :: n in order ==> n in copy && copy[n].owner in l.streams && l.Current(copy[n].owner) == None
    ensures Silent(l, GiveAllBack(l, copy, order))
    decreases |order|
  {
    hide Silent, SameUse, GiveBack;
    SilentSelf(l);
    if order != [] {
      var r := GiveBack(l, copy[order[0]]);
      GiveBackSilent(l, copy[order[0]]);
      forall n | n in order[1..] ensures n in copy && copy[n].owner in r.streams && r.Current(copy[n].owner) == None {
        SameUseCurrent(l, r, copy[n].owner);
      }
      GiveAllBackSilent(r, copy, order[1..]);
      SilentThen(l, r, GiveAllBack(r, copy, order[1..]));
    }
  }

  lemma InvSlots<K, C>(l: Layer<K, C>)
    requires Inv(l)
    ensures AllSlotsOk(l) && !l.failed
  {}

  lemma WalkListed<K, C>(l: Layer<K, C>, c: C, walk: seq<SidWalk>)
    requires c in l.channels && WalksAll(l, c, walk)
    ensures forall w :: w in walk ==> w.sid in l.channels[c].txSids
  {}

  lemma StopSilent<K, C>(l: Layer<K, C>, c: C, walk: seq<SidWalk>, rxWalk: seq<nat>)
    requires Inv(l) && c in l.channels && WalksAll(l, c, walk)
    ensures Silent(l, Stop(l, c, walk, rxWalk))
  {
    hide Inv, Silent, AllSlotsOk, ClearSids, RxClearSids, WalksAll;
    WalkListed(l, c, walk);
    InvSlots(l);
    ClearSidsSilent(l, c, l.channels[c].txSids, walk);
    var r := ClearSids(l, c, l.channels[c].txSids, walk);
    if c in r.channels && (forall sid :: sid in rxWalk ==> sid in r.channels[c].rxSids) {
      RxClearSidsSilent(r, c, r.channels[c].rxSids, rxWalk);
      SilentThen(l, r, RxClearSids(r, c, r.channels[c].rxSids, rxWalk));
    }
  }

  lemma DetachSilent<K, C>(l: Layer<K, C>, c: C, walk: seq<SidWalk>, order: seq<nat>)
    requires Inv(l) && Homed(l) && ReceiveOk(l)
    requires c in l.channels && WalksAll(l, c, walk) && Walks(order, l.channels[c].waitingAck)
    requires Walkable(Restore(l, c, map[]), c, l.channels[c].txSids, walk)
    ensures Silent(l, DetachAll(l, c, walk, order))
  {
    InvSlots(l);
    hide Inv, Homed, ReceiveOk, Silent, AllSlotsOk, ClearSids, GiveAllBack, Walkable, WalksAll, SentKept;
    var e, copy := Restore(l, c, map[]), l.channels[c].waitingAck;
    RestoreSilent(l, c);
    AllCleared(l, c, walk);
    var r := ClearSids(e, c, l.channels[c].txSids, walk);
    ClearSidsSilent(e, c, l.channels[c].txSids, walk);
    GiveAllBackSilent(r, copy, order);
    SilentThen(l, e, r);
    SilentThen(l, r, GiveAllBack(r, copy, order));
    assert r.Check(true) == r;
  }

  lemma RestoreSilent<K, C>(l: Layer<K, C>, c: C)
    requires c in l.channels && AllSlotsOk(l)
    ensures Silent(l, Restore(l, c, map[])) && AllSlotsOk(Restore(l, c, map[]))
  {
    UsedOk(l, Restore(l, c, map[]));
  }

  // ---------------------------------------------------------------- acknowledgment

  /** The attachment the stream transmits on is on `c` and was not acknowledged yet. */
  ghost predicate Unconfirmed<K, C>(l: Layer<K, C>, c: C, k: K) {
    k in l.streams && l.Current(k) == Some(c) && l.streams[k].slots[l.streams[k].current.value].sidSeq == None
  }

  /** If `first`, the current attachment is active from now on and `rxSeq` is the number it was acknowledged under. */
  ghost predicate Confirms<K, C>(s: Stream<K, C>, t: Stream<K, C>, first: bool, rxSeq: nat) {
    && (t.init <==> s.init && !first) && (t.enqueued <==> s.enqueued || (first && s.queue != []))
    && if first then
         && s.current.Some? && s.current.value < |s.slots|
         && t.slots == s.slots[s.current.value := s.slots[s.current.value].(sidSeq := Some(rxSeq), active := true)]
       else t.slots == s.slots
  }

  ghost predicate OnlyLines<K, C>(l: Layer<K, C>, r: Layer<K, C>) {
    && r.channels.Keys == l.channels.Keys
    && forall d :: d in l.channels ==> r.channels[d] == l.channels[d].(sending := r.channels[d].sending)
  }

  /** The first acknowledgment of an attachment stores the number it was received under, and that is all. */
  lemma ActivateChanges<K, C>(l: Layer<K, C>, c: C, k: K, rxSeq: nat)
    requires k in l.streams && (l.Current(k).Some? ==> l.Current(k).value in l.channels)
    ensures var r, s := Activate(l, c, k, rxSeq), l.streams[k];
            && r.streams == l.streams[k := r.streams[k]] && OnlyLines(l, r)
            && r.streams[k] ==
                 s.(slots := r.streams[k].slots, init := r.streams[k].init, enqueued := r.streams[k].enqueued)
            && Confirms(s, r.streams[k], Unconfirmed(l, c, k), rxSeq)
  {
    hide Link;
    var s := l.streams[k];
    if Unconfirmed(l, c, k) {
      var i := s.current.value;
      var t := s.(slots := s.slots[i := s.slots[i].(sidSeq := Some(rxSeq), active := true)], init := false);
      assert l.SetStream(k, t).Current(k) == l.Current(k);
      LinkChanges(l.SetStream(k, t), k);
    } else {
      assert l.streams == l.streams[k := s];
    }
  }

  /** Packet `n` leaves the table of channel `c`; nothing is sent, and no other table changes. */
  ghost predicate LeavesTable<K, C>(l: Layer<K, C>, r: Layer<K, C>, c: C, n: nat) {
    && Silent(l, r)
    && forall d :: d in l.channels ==>
         && r.channels[d].missed == l.channels[d].missed
         && r.channels[d].waitingAck == l.channels[d].waitingAck - if d == c then {n} else {}
  }

  /** The stream no longer waits for the segment of the frame; its queue and its record of writes stay. */
  ghost predicate Releases<K, C>(s: Stream<K, C>, t: Stream<K, C>, f: Frame<K>) {
    && t.queue == s.queue && t.byteSeq == s.byteSeq && t.segments == s.segments && t.current == s.current
    && t.priority == s.priority && t.rxSlots == s.rxSlots
    && t.waiting == (if f.kind == Data then s.waiting - {f.seg.pos} else s.waiting)
    && t.waitingSize == s.waitingSize - if f.kind == Data && f.seg.pos in s.waiting then |f.seg.data| else 0
  }

  lemma AckIs<K, C>(l: Layer<K, C>, c: C, n: nat, rxSeq: nat)
    requires Inv(l) && c in l.channels && n in l.channels[c].waitingAck
    ensures var f := l.channels[c].waitingAck[n];
            var m := AfterAck(Forget(l, c, {n}), f);
            && f.owner in m.streams && !m.failed
            && Acknowledged(l, c, n, rxSeq) == if f.kind == Datagram then m else Activate(m, c, f.owner, rxSeq)
  {
    hide Inv, AllSlotsOk, Activate;
    AfterAckKeeps(l, c, n);
    InvSlots(AfterAck(Forget(l, c, {n}), l.channels[c].waitingAck[n]));
    var f := l.channels[c].waitingAck[n];
    var m := AfterAck(Forget(l, c, {n}), f);
    assert m.Check(true) == m && m.SetStream(f.owner, m.streams[f.owner]) == m;
  }

  /**
   An acknowledgment takes exactly its packet from the table and its segment from those waited for; the first one for
   the current attachment stores the number it was received under, makes the attachment active and ends `init`.
   */
  lemma AckReleases<K, C>(l: Layer<K, C>, c: C, n: nat, rxSeq: nat)
    requires Inv(l) && c in l.channels && n in l.channels[c].waitingAck
    ensures var f, r := l.channels[c].waitingAck[n], Acknowledged(l, c, n, rxSeq);
            && LeavesTable(l, r, c, n) && r.streams.Keys == l.streams.Keys && f.owner in l.streams
            && (forall m :: m in l.streams && m != f.owner ==> r.streams[m] == l.streams[m])
            && Releases(l.streams[f.owner], r.streams[f.owner], f)
            && Confirms(l.streams[f.owner], r.streams[f.owner], f.kind != Datagram && Unconfirmed(l, c, f.owner), rxSeq)
  {
    hide Inv, Activate, AfterAck, Acknowledged, LeavesTable, Releases, Forget, Confirms, Unconfirmed, OnlyLines;
    EntryFacts(l, c, n);
    AckIs(l, c, n, rxSeq);
    var f, r := l.channels[c].waitingAck[n], Acknowledged(l, c, n, rxSeq);
    KnownChannel(l, f.owner);
    ForgetTable(l, c, n);
    var m := AfterAck(Forget(l, c, {n}), f);
    AfterAckIs(l, c, n);
    var s, u := l.streams[f.owner], m.streams[f.owner];
    if f.kind != Datagram {
      ActivateChanges(m, c, f.owner, rxSeq);
      ReleasesStill(s, u, r.streams[f.owner], f);
      ConfirmsStill(s, u, r.streams[f.owner], Unconfirmed(m, c, f.owner), rxSeq);
      UnconfirmedStill(l, m, c, f.owner);
      LinesOnly(l, Forget(l, c, {n}), m, r, c, n);
    } else {
      NothingConfirmed(s, u, rxSeq);
      OnlyLinesSelf(m);
      LinesOnly(l, Forget(l, c, {n}), m, m, c, n);
    }
  }

  lemma ConfirmsStill<K, C>(s: Stream<K, C>, m: Stream<K, C>, t: Stream<K, C>, first: bool, rxSeq: nat)
    requires Confirms(m, t, first, rxSeq) && m == s.(waiting := m.waiting, waitingSize := m.waitingSize)
    ensures Confirms(s, t, first, rxSeq)
  {}

  lemma NothingConfirmed<K, C>(s: Stream<K, C>, t: Stream<K, C>, rxSeq: nat)
    requires t == s.(waiting := t.waiting, waitingSize := t.waitingSize)
    ensures Confirms(s, t, false, rxSeq)
  {}

  lemma UnconfirmedStill<K, C>(l: Layer<K, C>, m: Layer<K, C>, c: C, k: K)
    requires k in l.streams && k in m.streams
    requires m.streams[k] == l.streams[k].(waiting := m.streams[k].waiting, waitingSize := m.streams[k].waitingSize)
    ensures Unconfirmed(m, c, k) <==> Unconfirmed(l, c, k)
  {}

  lemma AfterAckIs<K, C>(l: Layer<K, C>, c: C, n: nat)
    requires c in l.channels && n in l.channels[c].waitingAck && l.channels[c].waitingAck[n].owner in l.streams
    ensures var f := l.channels[c].waitingAck[n];
            var m, k := AfterAck(Forget(l, c, {n}), f), f.owner;
            && m.channels == Forget(l, c, {n}).channels && m.streams == l.streams[k := m.streams[k]]
            && m.Current(k) == l.Current(k) && Releases(l.streams[k], m.streams[k], f)
            && m.streams[k] == l.streams[k].(waiting := m.streams[k].waiting, waitingSize := m.streams[k].waitingSize)
  {
    var f := l.channels[c].waitingAck[n];
    assert l.streams[f.owner := l.streams[f.owner]] == l.streams;
  }

  lemma ReleasesStill<K, C>(s: Stream<K, C>, m: Stream<K, C>, t: Stream<K, C>, f: Frame<K>)
    requires Releases(s, m, f) && t == m.(slots := t.slots, init := t.init, enqueued := t.enqueued)
    ensures Releases(s, t, f)
  {}

  lemma ForgetTable<K, C>(l: Layer<K, C>, c: C, n: nat)
    requires c in l.channels
    ensures LeavesTable(l, Forget(l, c, {n}), c, n)
    ensures Forget(l, c, {n}).streams == l.streams && Forget(l, c, {n}).channels.Keys == l.channels.Keys
  {
    forall d | d in l.channels && d != c ensures l.channels[d].waitingAck - {} == l.channels[d].waitingAck {}
  }

  lemma OnlyLinesSelf<K, C>(l: Layer<K, C>)
    ensures OnlyLines(l, l)
  {}

  lemma LinesOnly<K, C>(l: Layer<K, C>, m: Layer<K, C>, u: Layer<K, C>, r: Layer<K, C>, c: C, n: nat)
    requires LeavesTable(l, m, c, n) && OnlyLines(u, r) && u.channels == m.channels
    ensures LeavesTable(l, r, c, n)
  {}

  // ---------------------------------------------------------------- what goes out in one event

  /** New packets take the next numbers, and each was worth sending. */
  ghost predicate OnlyWanted<K, C>(l: Layer<K, C>, r: Layer<K, C>) {
    && r.channels.Keys == l.channels.Keys && AllWanted(l, r)
    && forall c :: c in l.channels ==> Numbered(l.channels[c], r.channels[c])
  }

  ghost predicate Numbered<K>(ch: Channel<K>, later: Channel<K>) {
    && ch.txSeq <= later.txSeq
    && (forall n :: n in later.sent <==> n in ch.sent || ch.txSeq <= n < later.txSeq)
    && (forall n :: n in ch.sent ==> later.sent[n] == ch.sent[n])
  }

  lemma SilentWanted<K, C>(l: Layer<K, C>, r: Layer<K, C>)
    requires AllNumbers(l) && Silent(l, r)
    ensures OnlyWanted(l, r) && Paid(l, r)
  {
    NothingNew(l, r);
    hide AllWanted;
    forall c | c in l.channels ensures Numbered(l.channels[c], r.channels[c]) { assert Numbers(l.channels[c]); }
  }

  /** Some preparation that sends nothing, then a step that sends. */
  lemma ThenSends<K, C>(l: Layer<K, C>, q: Layer<K, C>, r: Layer<K, C>)
    requires AllNumbers(l) && Silent(l, q) && Sends(q, r)
    ensures OnlyWanted(l, r)
  {
    forall c | c in l.channels ensures Numbered(l.channels[c], r.channels[c]) {
      hide AllWanted, AllSettled, Served;
      assert Sent(q.channels[c], r.channels[c]);
    }
    forall c, n | c in l.channels && c in r.channels && n in r.channels[c].sent && l.channels[c].txSeq <= n
      ensures Wanted(r, c, r.channels[c].sent[n])
    {
      hide Wanted, AllSettled, Served, Sent;
      assert q.channels[c].txSeq <= n;
    }
  }

  lemma ThenPaid<K, C>(l: Layer<K, C>, q: Layer<K, C>, r: Layer<K, C>)
    requires Silent(l, q) && Paid(q, r)
    ensures Paid(l, r)
  {}

  // ---------------------------------------------------------------- loss

  lemma MarkSilent<K, C>(l: Layer<K, C>, c: C, n: nat)
    requires c in l.channels
    ensures Silent(l, Mark(l, c, n))
  {}

  lemma QueuedSilent<K, C>(l: Layer<K, C>, k: K, f: Frame<K>)
    requires k in l.streams
    ensures Silent(l, Queued(l, k, f)) && Queued(l, k, f).channels == l.channels
    ensures Queued(l, k, f).streams == l.streams[k := Queued(l, k, f).streams[k]]
    ensures f in Queued(l, k, f).streams[k].queue
    ensures Queued(l, k, f).streams[k] == l.streams[k].(queue := Queued(l, k, f).streams[k].queue)
  {
    var i := QueueIndex(l.streams[k].queue, f.seg.pos);
    InsertFrameMembers(l.streams[k].queue, f, i);
  }

  /** After the report exactly this packet counts as missed besides those that did before. */
  ghost predicate Reported<K, C>(l: Layer<K, C>, r: Layer<K, C>, c: C, n: nat) {
    && r.channels.Keys == l.channels.Keys
    && forall d :: d in l.channels ==> r.channels[d].missed == l.channels[d].missed + if d == c then {n} else {}
  }

  lemma SendsMissed<K, C>(l: Layer<K, C>, q: Layer<K, C>, r: Layer<K, C>, c: C, n: nat)
    requires Reported(l, q, c, n) && Sends(q, r)
    ensures Reported(l, r, c, n)
  {
    forall d | d in l.channels ensures r.channels[d].missed == q.channels[d].missed {
      hide AllWanted, AllSettled, Served;
      assert Sent(q.channels[d], r.channels[d]);
    }
  }

  /** A lost segment is back in the queue of its stream, or out again already in a packet with a new number. */
  lemma LossRequeues<K, C>(l: Layer<K, C>, c: C, n: nat)
    requires Inv(l) && c in l.channels && n in l.channels[c].waitingAck && l.channels[c].waitingAck[n].kind == Data
    ensures var f, r := l.channels[c].waitingAck[n], Missed(l, c, n);
            && f.owner in l.streams && f.owner in r.streams && Reported(l, r, c, n) && OnlyWanted(l, r) && Paid(l, r)
            && (f.(late := true) in r.streams[f.owner].queue || WentOut(l, r, f)
                || f.seg.pos !in l.streams[f.owner].waiting)
  {
    hide Inv, Silent, Sends, OnlyWanted, Paid, AllNumbers, WentOut, Reported, LinkNow, Queued, Mark;
    InvNumbers(l);
    EntryFacts(l, c, n);
    QueuedAndMarked(l, c, n);
    var f := l.channels[c].waitingAck[n];
    var late := f.(late := true);
    var m := Mark(l, c, n);
    MarkSilent(l, c, n);
    MarkIs(l, c, n);
    var q := Queued(m, f.owner, late);
    QueuedSilent(m, f.owner, late);
    var r := LinkNow(q, f.owner);
    LossIs(l, c, n);
    LinkNowSends(q, f.owner);
    SilentThen(l, m, q);
    ThenSends(l, q, r);
    ThenPaid(l, q, r);
    ReportedStill(l, m, q, c, n);
    SendsMissed(l, q, r, c, n);
    SettledOne(q, r, f.owner, late);
    NumbersThen(l, q);
    if WentOut(q, r, late) { LateOut(l, q, r, f); }
  }

  lemma LossIs<K, C>(l: Layer<K, C>, c: C, n: nat)
    requires c in l.channels && n in l.channels[c].waitingAck && l.channels[c].waitingAck[n].kind == Data
    requires !l.channels[c].waitingAck[n].late && l.channels[c].waitingAck[n].owner in l.streams
    ensures var f := l.channels[c].waitingAck[n];
            && f.owner in Mark(l, c, n).streams
            && f.owner in Queued(Mark(l, c, n), f.owner, f.(late := true)).streams
            && Missed(l, c, n) == LinkNow(Queued(Mark(l, c, n), f.owner, f.(late := true)), f.owner)
  {
    hide LinkNow;
  }

  lemma MarkIs<K, C>(l: Layer<K, C>, c: C, n: nat)
    requires c in l.channels
    ensures Mark(l, c, n).streams == l.streams && Reported(l, Mark(l, c, n), c, n)
  {
    forall d | d in l.channels && d != c ensures l.channels[d].missed + {} == l.channels[d].missed {}
  }

  lemma ReportedStill<K, C>(l: Layer<K, C>, m: Layer<K, C>, q: Layer<K, C>, c: C, n: nat)
    requires Reported(l, m, c, n) && q.channels == m.channels
    ensures Reported(l, q, c, n)
  {}

  lemma NumbersThen<K, C>(l: Layer<K, C>, q: Layer<K, C>)
    requires Silent(l, q)
    ensures q.channels.Keys == l.channels.Keys
    ensures forall c :: c in l.channels ==> l.channels[c].txSeq <= q.channels[c].txSeq
  {}

  lemma LateOut<K, C>(l: Layer<K, C>, q: Layer<K, C>, r: Layer<K, C>, f: Frame<K>)
    requires WentOut(q, r, f.(late := true)) && q.channels.Keys == l.channels.Keys
    requires forall c :: c in l.channels ==> l.channels[c].txSeq <= q.channels[c].txSeq
    ensures WentOut(l, r, f)
  {
    WentOutAfter(l, q, r, f.(late := true));
    assert f.(late := true).(late := false) == f.(late := false);
  }

  /** The stream got in line if it has a channel and something to send; nothing else changed. */
  ghost predicate InLineAgain<K, C>(l: Layer<K, C>, r: Layer<K, C>, k: K) {
    && k in l.streams && k in r.streams
    && r.streams == l.streams[k := l.streams[k].(enqueued := r.streams[k].enqueued)]
    && (r.streams[k].enqueued <==> l.streams[k].enqueued || (l.Current(k).Some? && l.streams[k].queue != []))
  }

  ghost predicate SameTables<K, C>(l: Layer<K, C>, r: Layer<K, C>) {
    && r.channels.Keys == l.channels.Keys
    && forall d :: d in l.channels ==> r.channels[d].waitingAck == l.channels[d].waitingAck
  }

  /** A lost attach packet stays in the table and its stream gets back in line to try again. */
  lemma AttachLossRetries<K, C>(l: Layer<K, C>, c: C, n: nat)
    requires Inv(l) && c in l.channels && n in l.channels[c].waitingAck && l.channels[c].waitingAck[n].kind == Attach
    ensures var r := Missed(l, c, n);
            && Reported(l, r, c, n) && Silent(l, r) && SameTables(l, r)
            && InLineAgain(l, r, l.channels[c].waitingAck[n].owner)
  {
    hide Inv, Silent, Reported, SameTables, InLineAgain, Link, Mark, OnlyLines;
    EntryFacts(l, c, n);
    var k := l.channels[c].waitingAck[n].owner;
    KnownChannel(l, k);
    AttachLossIs(l, c, n);
    var m := Mark(l, c, n);
    MarkSilent(l, c, n);
    MarkIs(l, c, n);
    MarkTables(l, c, n, k);
    LinkLines(m, k);
    var r := Link(m, k);
    LinesReported(l, m, r, c, n);
    SilentThen(l, m, r);
    InLineStill(l, m, r, k);
  }

  lemma AttachLossIs<K, C>(l: Layer<K, C>, c: C, n: nat)
    requires c in l.channels && n in l.channels[c].waitingAck && l.channels[c].waitingAck[n].kind == Attach
    requires !l.channels[c].waitingAck[n].late && l.channels[c].waitingAck[n].owner in l.streams
    ensures l.channels[c].waitingAck[n].owner in Mark(l, c, n).streams
    ensures Missed(l, c, n) == Link(Mark(l, c, n), l.channels[c].waitingAck[n].owner)
  {
    hide Link;
  }

  lemma MarkTables<K, C>(l: Layer<K, C>, c: C, n: nat, k: K)
    requires c in l.channels && k in l.streams
    ensures SameTables(l, Mark(l, c, n)) && k in Mark(l, c, n).streams && Mark(l, c, n).Current(k) == l.Current(k)
    ensures Mark(l, c, n).channels.Keys == l.channels.Keys
  {}

  lemma LinkLines<K, C>(l: Layer<K, C>, k: K)
    requires k in l.streams && (l.Current(k).Some? ==> l.Current(k).value in l.channels)
    ensures OnlyLines(l, Link(l, k)) && Silent(l, Link(l, k)) && InLineAgain(l, Link(l, k), k)
  {
    LinkChanges(l, k);
    hide Link;
  }

  lemma LinesReported<K, C>(l: Layer<K, C>, m: Layer<K, C>, r: Layer<K, C>, c: C, n: nat)
    requires Reported(l, m, c, n) && SameTables(l, m) && OnlyLines(m, r)
    ensures Reported(l, r, c, n) && SameTables(l, r)
  {}

  lemma InLineStill<K, C>(l: Layer<K, C>, m: Layer<K, C>, r: Layer<K, C>, k: K)
    requires InLineAgain(m, r, k) && m.streams == l.streams && m.Current(k) == l.Current(k)
    ensures InLineAgain(l, r, k)
  {}

  /** A lost datagram is forgotten: it leaves the table, and nothing else happens. */
  lemma DatagramLossForgets<K, C>(l: Layer<K, C>, c: C, n: nat)
    requires Inv(l) && c in l.channels && n in l.channels[c].waitingAck && l.channels[c].waitingAck[n].kind == Datagram
    ensures var r := Missed(l, c, n);
            && r.streams == l.streams && Reported(l, r, c, n) && Silent(l, r) && r.channels.Keys == l.channels.Keys
            && forall d :: d in l.channels ==>
                 r.channels[d].waitingAck == l.channels[d].waitingAck - if d == c then {n} else {}
  {
    hide Inv, Reported;
    EntryFacts(l, c, n);
    MarkIs(l, c, n);
    DatagramLossIs(l, c, n);
  }

  lemma DatagramLossIs<K, C>(l: Layer<K, C>, c: C, n: nat)
    requires c in l.channels && n in l.channels[c].waitingAck && l.channels[c].waitingAck[n].kind == Datagram
    requires !l.channels[c].waitingAck[n].late && l.channels[c].waitingAck[n].owner in l.streams
    ensures var m, r := Mark(l, c, n), Missed(l, c, n);
            && r.streams == l.streams && (Reported(l, m, c, n) ==> Reported(l, r, c, n)) && Silent(l, r)
            && forall d :: d in l.channels ==>
                 r.channels[d].waitingAck == l.channels[d].waitingAck - if d == c then {n} else {}
  {
    var m := Mark(l, c, n);
    ForgetTable(m, c, n);
    assert Missed(l, c, n) == Forget(m, c, {n});
  }

  // ---------------------------------------------------------------- stream ids

  /** How far beyond the counter the search for an id goes. */
  function Reach<K>(ch: Channel<K>): nat {
    var room := 0x7ff0 - (ch.sidCounter - ch.sidAcked);
    if room < 0 then 0 else if room < 16 then room else 16
  }

  /** The id of the counter, its low 16 bits, is in use. */
  predicate Taken<V>(txSids: map<nat, V>, counter: nat) { counter % 0x1_0000 in txSids }

  /** `n` is the first counter within reach whose low 16 bits are no id in use. */
  ghost predicate FirstFree<K>(ch: Channel<K>, n: nat) {
    && ch.sidCounter <= n <= ch.sidCounter + Reach(ch) && !Taken(ch.txSids, n)
    && forall m: nat :: ch.sidCounter <= m < n ==> Taken(ch.txSids, m)
  }

  ghost predicate NoneFree<K>(ch: Channel<K>) {
    forall m: nat :: ch.sidCounter <= m <= ch.sidCounter + Reach(ch) ==> Taken(ch.txSids, m)
  }

  lemma {:induction false} CounterFound<V>(txSids: map<nat, V>, sid: nat, tries: int)
    ensures var r, last := FreeCounter(txSids, sid, tries), sid + if tries > 0 then tries else 0;
            if r.Some? then
              && sid <= r.value <= last && !Taken(txSids, r.value)
              && (forall m: nat :: sid <= m < r.value ==> Taken(txSids, m))
            else forall m: nat :: sid <= m <= last ==> Taken(txSids, m)
    decreases if tries > 0 then tries else 0
  {
    if Sid16(sid) in txSids && tries > 0 { CounterFound(txSids, sid + 1, tries - 1); }
  }

  /** An id is found if and only if some counter within reach is free, and then it is the first one. */
  lemma AllocateSidExactly<K>(ch: Channel<K>)
    ensures AllocateSid(ch).Some? ==> FirstFree(ch, AllocateSid(ch).value)
    ensures AllocateSid(ch) == None <==> NoneFree(ch)
    ensures forall n: nat {:trigger FirstFree(ch, n)} :: FirstFree(ch, n) ==> AllocateSid(ch) == Some(n)
  {
    CounterFound(ch.txSids, ch.sidCounter, SearchBound(ch.sidCounter, ch.sidAcked));
  }

  // ---------------------------------------------------------------- attaching

  /** Stream `k` is attached to `c` under the id of counter `n`; all other attachments are as they were. */
  ghost predicate Attaches<K, C>(l: Layer<K, C>, r: Layer<K, C>, k: K, c: C, n: nat) {
    && r.streams.Keys == l.streams.Keys && r.channels.Keys == l.channels.Keys && k in l.streams && c in l.channels
    && (forall m :: m in l.streams && m != k ==>
          r.streams[m].slots == l.streams[m].slots && r.streams[m].current == l.streams[m].current)
    && (forall d :: d in l.channels && d != c ==>
          r.channels[d].txSids == l.channels[d].txSids && r.channels[d].sidCounter == l.channels[d].sidCounter)
    && var t := r.streams[k];
    && t.current == Some(0) && t.slots != [] && t.slots[0] == TxSlot(Some(c), n % 0x1_0000, None, false)
    && r.channels[c].txSids == l.channels[c].txSids[n % 0x1_0000 := (k, 0)] && r.channels[c].sidCounter == n + 1
  }

  lemma AttachedIs<K, C>(l: Layer<K, C>, k: K, c: C, n: nat)
    requires k in l.streams && c in l.channels && |l.streams[k].slots| == 2
    ensures Attaches(l, Attached(l, k, c, n), k, c, n) && Silent(l, Attached(l, k, c, n))
    ensures k in Attached(l, k, c, n).streams
  {}

  lemma AttachesThen<K, C>(l: Layer<K, C>, q: Layer<K, C>, r: Layer<K, C>, k: K, c: C, n: nat)
    requires Attaches(l, q, k, c, n) && Sends(q, r)
    ensures Attaches(l, r, k, c, n)
  {
    hide Sends;
    forall m | m in l.streams { SendsSlots(q, r, m); }
    forall d | d in l.channels { SendsTables(q, r, d); }
    SendsKeys(q, r);
  }

  lemma SendsKeys<K, C>(l: Layer<K, C>, r: Layer<K, C>)
    requires Sends(l, r)
    ensures r.streams.Keys == l.streams.Keys && r.channels.Keys == l.channels.Keys
  {}

  lemma SendsSlots<K, C>(l: Layer<K, C>, r: Layer<K, C>, k: K)
    requires Sends(l, r) && k in l.streams
    ensures k in r.streams && r.streams[k].slots == l.streams[k].slots && r.streams[k].current == l.streams[k].current
  {
    hide Sent, AllWanted, AllSettled;
    assert Served(l.streams[k], r.streams[k]);
  }

  lemma SendsTables<K, C>(l: Layer<K, C>, r: Layer<K, C>, c: C)
    requires Sends(l, r) && c in l.channels
    ensures c in r.channels && r.channels[c].txSids == l.channels[c].txSids
    ensures r.channels[c].sidCounter == l.channels[c].sidCounter
  {
    hide Served, AllWanted, AllSettled;
    assert Sent(l.channels[c], r.channels[c]);
  }

  /**
   A detached stream is attached under the first free id, if there is one within reach, and transmits at once what
   flow control allows; an attached one, or one without a free id, stays as it is.
   */
  lemma AttachTakesFirstFree<K, C>(l: Layer<K, C>, k: K, c: C)
    requires Inv(l) && k in l.streams && c in l.channels
    ensures l.streams[k].current.Some? || NoneFree(l.channels[c]) ==> AttachFor(l, k, c) == l
    ensures forall n: nat :: l.streams[k].current.None? && FirstFree(l.channels[c], n) ==>
              Attaches(l, AttachFor(l, k, c), k, c, n)
    ensures OnlyWanted(l, AttachFor(l, k, c)) && Paid(l, AttachFor(l, k, c))
  {
    hide Inv, AttachFor, Attached, LinkNow, AllocateSid, FirstFree, NoneFree, Attaches;
    hide Sends, Silent, OnlyWanted, Paid, AllNumbers;
    AttachForIs(l, k, c);
    AllocateSidExactly(l.channels[c]);
    AllocatedFree(l.channels[c]);
    InvNumbers(l);
    SilentSelf(l);
    SilentWanted(l, l);
    if l.streams[k].current == None && AllocateSid(l.channels[c]).Some? {
      var n := AllocateSid(l.channels[c]).value;
      AttachedKeeps(l, k, c, n);
      AttachedIs(l, k, c, n);
      var q := Attached(l, k, c, n);
      LinkNowSends(q, k);
      ThenSends(l, q, LinkNow(q, k));
      ThenPaid(l, q, LinkNow(q, k));
      AttachesThen(l, q, LinkNow(q, k), k, c, n);
    }
  }

  // ---------------------------------------------------------------- the line

  /** The line without its `j`-th member. */
  function Others<K>(line: seq<K>, j: nat): seq<K>
    requires j < |line|
  {
    line[..j] + line[j + 1..]
  }

  lemma {:induction false} WithoutOne<K>(line: seq<K>, k: K, j: nat)
    requires Distinct(line) && j < |line| && line[j] == k
    ensures Without(line, k) == Others(line, j)
  {
    if j == 0 {
      WithoutNone(line[1..], k);
    } else {
      WithoutOne(line[1..], k, j - 1);
      assert line[..j] == [line[0]] + line[1..][..j - 1] && line[j + 1..] == line[1..][j..];
    }
  }

  lemma {:induction false} WithoutNone<K>(line: seq<K>, k: K)
    requires forall j :: 0 <= j < |line| ==> line[j] != k
    ensures Without(line, k) == line
  {
    if line != [] {
      WithoutNone(line[1..], k);
      assert [line[0]] + line[1..] == line;
    }
  }

  /** All before place `i` have a smaller priority value, all from there on at least this one. */
  ghost predicate PlaceFor<K, C>(l: Layer<K, C>, line: seq<K>, i: nat, priority: nat) {
    && i <= |line|
    && (forall m :: 0 <= m < i ==> line[m] in l.streams && l.streams[line[m]].priority < priority)
    && (forall m :: i <= m < |line| ==> line[m] in l.streams && l.streams[line[m]].priority >= priority)
  }

  /** Getting in line puts a stream before all of at least its priority value and behind the others. */
  lemma JoinsLine<K, C>(l: Layer<K, C>, c: C, k: K) returns (i: nat)
    requires Inv(l) && k in l.streams && c in l.channels && l.Current(k) == Some(c)
    requires !l.streams[k].enqueued && l.streams[k].queue != []
    ensures var line := l.channels[c].sending;
            && k !in line && PlaceFor(l, line, i, l.streams[k].priority)
            && Link(l, k).streams == l.streams[k := l.streams[k].(enqueued := true)]
            && Link(l, k).channels == l.channels[c := l.channels[c].(sending := line[..i] + [k] + line[i..])]
  {
    assert LineOk(l, c);
    var line := l.channels[c].sending;
    PriorityIndexBounds(l, line, l.streams[k].priority);
    i := PriorityIndex(l, line, l.streams[k].priority);
  }

  /** The new priority is stored, in line or out of it; in line the stream moves to the place it calls for. */
  lemma PriorityMoves<K, C>(l: Layer<K, C>, k: K, priority: nat) returns (j: nat, i: nat)
    requires Inv(l) && k in l.streams
    ensures SetPriority(l, k, priority).streams == l.streams[k := l.streams[k].(priority := priority)]
    ensures !l.streams[k].enqueued ==> SetPriority(l, k, priority).channels == l.channels
    ensures l.streams[k].enqueued && l.streams[k].priority != priority ==>
              l.Current(k).Some? && l.Current(k).value in l.channels
              && var ch := l.channels[l.Current(k).value];
              && j < |ch.sending| && ch.sending[j] == k
              && var rest := Others(ch.sending, j);
              && PlaceFor(l, rest, i, priority)
              && SetPriority(l, k, priority).channels ==
                   l.channels[l.Current(k).value := ch.(sending := rest[..i] + [k] + rest[i..])]
  {
    hide Inv, LineOk, Distinct, Ascending, Without, PriorityIndex, Others, PlaceFor;
    i, j := 0, 0;
    var s := l.streams[k];
    if s.priority == priority {
      assert s == s.(priority := priority) && l.streams == l.streams[k := s];
    } else if s.enqueued {
      EnqueuedFacts(l, k);
      var c := l.Current(k).value;
      LineFacts(l, c);
      var line := l.channels[c].sending;
      j :| 0 <= j < |line| && line[j] == k;
      WithoutOne(line, k, j);
      RestAscending(l, line, k, j, priority);
      i := PlaceFound(l, Others(line, j), k, priority);
      PriorityIs(l, c, k, priority);
    }
  }

  lemma LineFacts<K, C>(l: Layer<K, C>, c: C)
    requires Inv(l) && c in l.channels
    ensures Distinct(l.channels[c].sending) && Ascending(l, l.channels[c].sending)
    ensures forall k :: k in l.streams && l.streams[k].enqueued && l.Current(k) == Some(c) ==>
              k in l.channels[c].sending
  {
    assert LineOk(l, c);
    forall k | k in l.streams && l.streams[k].enqueued && l.Current(k) == Some(c) ensures k in l.channels[c].sending {
      assert EnqueuedOk(l, k);
    }
  }

  lemma PriorityIs<K, C>(l: Layer<K, C>, c: C, k: K, priority: nat)
    requires k in l.streams && l.streams[k].enqueued && l.Current(k) == Some(c) && c in l.channels
    requires l.streams[k].priority != priority && forall m :: m in Without(l.channels[c].sending, k) ==> m in l.streams
    ensures var t := l.streams[k].(priority := priority);
            var rest := Without(l.channels[c].sending, k);
            var i := PriorityIndex(l.SetStream(k, t), rest, priority);
            && SetPriority(l, k, priority).streams == l.streams[k := t]
            && SetPriority(l, k, priority).channels ==
                 l.channels[c := l.channels[c].(sending := rest[..i] + [k] + rest[i..])]
  {
    hide PriorityIndex, Without;
    var l1 := l.SetStream(k, l.streams[k].(priority := priority));
    assert l1.Current(k) == Some(c);
    PriorityIndexSame(l1, DequeueStream(l1, c, k), Without(l.channels[c].sending, k), priority);
  }

  lemma PlaceFound<K, C>(l: Layer<K, C>, rest: seq<K>, k: K, priority: nat) returns (i: nat)
    requires k in l.streams && Ascending(l.SetStream(k, l.streams[k].(priority := priority)), rest) && k !in rest
    ensures PlaceFor(l, rest, i, priority)
    ensures i == PriorityIndex(l.SetStream(k, l.streams[k].(priority := priority)), rest, priority)
  {
    var l1 := l.SetStream(k, l.streams[k].(priority := priority));
    PriorityIndexBounds(l1, rest, priority);
    i := PriorityIndex(l1, rest, priority);
  }

  lemma RestAscending<K, C>(l: Layer<K, C>, line: seq<K>, k: K, j: nat, priority: nat)
    requires Distinct(line) && Ascending(l, line) && j < |line| && line[j] == k && k in l.streams
    ensures Ascending(l.SetStream(k, l.streams[k].(priority := priority)), Others(line, j)) && k !in Others(line, j)
    ensures forall m :: m in Others(line, j) ==> m in l.streams
  {
    var rest := Others(line, j);
    forall m | 0 <= m < |rest| ensures rest[m] == line[if m < j then m else m + 1] {}
  }

  // ---------------------------------------------------------------- detaching

  /** The queue gained the data packets of `k` among those walked, marked late, and nothing else. */
  ghost predicate GivenBack<K>(
      queue: seq<Frame<K>>, later: seq<Frame<K>>, copy: map<nat, Frame<K>>, order: seq<nat>, k: K)
    requires forall n :: n in order ==> n in copy
  {
    && (forall f :: f in queue ==> f in later)
    && (forall n :: n in order && copy[n].owner == k && copy[n].kind == Data ==> copy[n].(late := true) in later)
    && (forall f :: f in later ==> f in queue || FromTable(f, copy, order, k))
  }

  ghost predicate FromTable<K>(f: Frame<K>, copy: map<nat, Frame<K>>, order: seq<nat>, k: K)
    requires forall n :: n in order ==> n in copy
  {
    exists n :: n in order && copy[n].owner == k && copy[n].kind == Data && f == copy[n].(late := true)
  }

  lemma InsertedMembers<K>(queue: seq<Frame<K>>, g: Frame<K>, f: Frame<K>)
    ensures f in InsertFrame(queue, g) <==> f in queue || f == g
  {
    var i, longer := QueueIndex(queue, g.seg.pos), InsertFrame(queue, g);
    InsertFrameMembers(queue, g, i);
    if f in longer {
      var j :| 0 <= j < |longer| && longer[j] == f;
      InsertFrameMembers(queue, g, j);
    }
    if f in queue {
      var j :| 0 <= j < |queue| && queue[j] == f;
      InsertFrameMembers(queue, g, if j < i then j else j + 1);
    }
  }

  /** The queue with the frame marked late, if it carries data. */
  ghost predicate OneBack<K>(queue: seq<Frame<K>>, next: seq<Frame<K>>, f: Frame<K>) {
    && (forall g :: g in queue ==> g in next)
    && (f.kind == Data ==> f.(late := true) in next)
    && (forall g :: g in next ==> g in queue || (f.kind == Data && g == f.(late := true)))
  }

  lemma GiveBackQueue<K, C>(l: Layer<K, C>, f: Frame<K>)
    requires f.owner in l.streams && l.Current(f.owner) == None && !f.late
    ensures f.owner in GiveBack(l, f).streams
    ensures OneBack(l.streams[f.owner].queue, GiveBack(l, f).streams[f.owner].queue, f)
  {
    GiveBackDetached(l, f);
    var queue, late := l.streams[f.owner].queue, f.(late := true);
    if f.kind == Data {
      InsertedMembers(queue, late, late);
      forall g | g in queue ensures g in InsertFrame(queue, late) { InsertedMembers(queue, late, g); }
      forall g | g in InsertFrame(queue, late) ensures g in queue || g == late { InsertedMembers(queue, late, g); }
    }
  }

  lemma {:induction false} ReclaimQueue<K, C>(l: Layer<K, C>, c: C, k: K, copy: map<nat, Frame<K>>, order: seq<nat>)
    requires k in l.streams && c in l.channels && l.Current(k) == None
    requires forall n :: n in order ==> n in copy && !copy[n].late
    ensures k in Reclaim(l, c, k, copy, order).streams
    ensures GivenBack(l.streams[k].queue, Reclaim(l, c, k, copy, order).streams[k].queue, copy, order, k)
    decreases |order|
  {
    hide Silent, SameUse, GiveBack, GivenBack;
    if order == [] {
      NothingBack(l.streams[k].queue, copy, k);
    } else {
      var f, rest := copy[order[0]], order[1..];
      assert order == [order[0]] + rest;
      if f.owner != k {
        ReclaimQueue(l, c, k, copy, rest);
        BackOther(l.streams[k].queue, Reclaim(l, c, k, copy, rest).streams[k].queue, copy, order, k);
      } else {
        GiveBackSilent(l, f);
        var b := GiveBack(l, f);
        SameUseCurrent(l, b, k);
        var r := Forget(b, c, {order[0]});
        ForgetSilent(b, c, {order[0]});
        SameUseCurrent(b, r, k);
        ReclaimQueue(r, c, k, copy, rest);
        GiveBackQueue(l, f);
        BackOne(l.streams[k].queue, b.streams[k].queue, Reclaim(r, c, k, copy, rest).streams[k].queue, copy, order, k);
      }
    }
  }

  lemma NothingBack<K>(queue: seq<Frame<K>>, copy: map<nat, Frame<K>>, k: K)
    ensures GivenBack(queue, queue, copy, [], k)
  {}

  lemma FromLonger<K>(f: Frame<K>, copy: map<nat, Frame<K>>, order: seq<nat>, k: K)
    requires order != [] && (forall n :: n in order ==> n in copy) && (forall n :: n in order[1..] ==> n in order)
    ensures FromTable(f, copy, order[1..], k) ==> FromTable(f, copy, order, k)
  {}

  lemma BackOther<K>(
      queue: seq<Frame<K>>, later: seq<Frame<K>>, copy: map<nat, Frame<K>>, order: seq<nat>, k: K)
    requires order != [] && (forall n :: n in order ==> n in copy) && copy[order[0]].owner != k
    requires forall n :: n in order <==> n == order[0] || n in order[1..]
    requires GivenBack(queue, later, copy, order[1..], k)
    ensures GivenBack(queue, later, copy, order, k)
  {
    forall f | f in later ensures f in queue || FromTable(f, copy, order, k) {
      hide FromTable;
      FromLonger(f, copy, order, k);
    }
  }

  lemma BackOne<K>(
      queue: seq<Frame<K>>, next: seq<Frame<K>>, later: seq<Frame<K>>, copy: map<nat, Frame<K>>, order: seq<nat>, k: K)
    requires order != [] && (forall n :: n in order ==> n in copy) && copy[order[0]].owner == k
    requires forall n :: n in order <==> n == order[0] || n in order[1..]
    requires OneBack(queue, next, copy[order[0]])
    requires GivenBack(next, later, copy, order[1..], k)
    ensures GivenBack(queue, later, copy, order, k)
  {
    forall f | f in later ensures f in queue || FromTable(f, copy, order, k) {
      FromLonger(f, copy, order, k);
      if f in next && f !in queue { assert order[0] in order; }
    }
  }

  /** The slot is free, and the stream detached and out of line; its data packets are back in its queue. */
  ghost predicate Detached<K, C>(l: Layer<K, C>, r: Layer<K, C>, k: K, i: nat, c: C, order: seq<nat>)
    requires k in l.streams && i < |l.streams[k].slots| && c in l.channels
    requires forall n :: n in order ==> n in l.channels[c].waitingAck
  {
    var s, ch := l.streams[k], l.channels[c];
    && k in r.streams && c in r.channels
    && r.streams == l.streams[k := s.(
         current := None, slots := s.slots[i := s.slots[i].(channel := None, active := false)], enqueued := false,
         queue := r.streams[k].queue)]
    && r.channels == l.channels[c := ch.(
         txSids := ch.txSids - {s.slots[i].sid},
         sending := r.channels[c].sending, waitingAck := r.channels[c].waitingAck)]
    && (forall m :: m in r.channels[c].sending ==> m in ch.sending && m != k)
    && (forall m :: m in ch.sending && m != k ==> m in r.channels[c].sending)
    && (forall n :: n in r.channels[c].waitingAck <==> n in ch.waitingAck && ch.waitingAck[n].owner != k)
    && (forall n :: n in r.channels[c].waitingAck ==> r.channels[c].waitingAck[n] == ch.waitingAck[n])
    && GivenBack(s.queue, r.streams[k].queue, ch.waitingAck, order, k)
  }

  /**
   Clearing an attachment frees its slot and its id, takes its stream out of line and all packets of the stream out of
   the table; the data packets among them, and only these, join the queue again. Nobody else is concerned.
   */
  lemma ClearDetaches<K, C>(l: Layer<K, C>, k: K, i: nat, c: C, order: seq<nat>)
    requires Inv(l) && k in l.streams && i < |l.streams[k].slots| && l.streams[k].slots[i].channel == Some(c)
    requires c in l.channels && Walks(order, l.channels[c].waitingAck)
    ensures Detached(l, Clear(l, k, i, order), k, i, c, order)
  {
    hide Inv, Clear, Unlink, Reclaim, Without, GivenBack, Detached, Returned, Owned, Walks;
    var ch := l.channels[c];
    TableFacts(l, c);
    var queue := ClearKeeps(l, k, i, order, c);
    UnlinkKeeps(l, k, i);
    UnlinkIs(l, k, i, c);
    ClearIs(l, k, i, c, order);
    var u := Unlink(l, k, i);
    ReclaimQueue(u, c, k, ch.waitingAck, order);
    LineWithout(ch.sending, k);
    ReturnedIs(l, u, k, c, queue, order);
    DetachedBy(l, u, Clear(l, k, i, order), k, i, c, order);
  }

  lemma LineWithout<K>(line: seq<K>, k: K)
    ensures forall m :: m in Without(line, k) ==> m in line && m != k
    ensures forall m :: m in line && m != k ==> m in Without(line, k)
  {
    forall m | m in Without(line, k) ensures m in line && m != k { WithoutMembers(line, k, m); }
    forall m | m in line && m != k ensures m in Without(line, k) { WithoutMembers(line, k, m); }
  }

  lemma ClearIs<K, C>(l: Layer<K, C>, k: K, i: nat, c: C, order: seq<nat>)
    requires k in l.streams && i < |l.streams[k].slots| && l.streams[k].slots[i].channel == Some(c)
    requires c in l.channels && Walks(order, l.channels[c].waitingAck)
    ensures k in Unlink(l, k, i).streams && c in Unlink(l, k, i).channels
    ensures forall n :: n in order ==> n in l.channels[c].waitingAck
    ensures Clear(l, k, i, order) == Reclaim(Unlink(l, k, i), c, k, l.channels[c].waitingAck, order)
  {
    hide Reclaim;
  }

  /** From the effect of unlinking, `u`, and of the loop over the table, `r`. */
  lemma DetachedBy<K, C>(l: Layer<K, C>, u: Layer<K, C>, r: Layer<K, C>, k: K, i: nat, c: C, order: seq<nat>)
    requires k in l.streams && i < |l.streams[k].slots| && c in l.channels
    requires forall n :: n in order ==> n in l.channels[c].waitingAck
    requires k in u.streams && c in u.channels && k in r.streams && c in r.channels
    requires var s, ch := l.streams[k], l.channels[c];
             && u.streams == l.streams[k := s.(
                  current := None, enqueued := false,
                  slots := s.slots[i := s.slots[i].(channel := None, active := false)])]
             && u.channels == l.channels[c := ch.(
                  txSids := ch.txSids - {s.slots[i].sid}, sending := Without(ch.sending, k))]
             && r.streams == u.streams[k := u.streams[k].(queue := r.streams[k].queue)]
             && r.channels == u.channels[c := u.channels[c].(waitingAck := r.channels[c].waitingAck)]
             && (forall m :: m in Without(ch.sending, k) ==> m in ch.sending && m != k)
             && (forall m :: m in ch.sending && m != k ==> m in Without(ch.sending, k))
             && (forall n :: n in r.channels[c].waitingAck <==> n in ch.waitingAck && ch.waitingAck[n].owner != k)
             && (forall n :: n in r.channels[c].waitingAck ==> r.channels[c].waitingAck[n] == ch.waitingAck[n])
             && GivenBack(s.queue, r.streams[k].queue, ch.waitingAck, order, k)
    ensures Detached(l, r, k, i, c, order)
  {
    hide Without, GivenBack;
  }

  lemma TableFacts<K, C>(l: Layer<K, C>, c: C)
    requires Inv(l) && c in l.channels
    ensures forall n :: n in l.channels[c].waitingAck ==> !l.channels[c].waitingAck[n].late
  {
    assert ChannelOk(l, c);
  }

  lemma UnlinkIs<K, C>(l: Layer<K, C>, k: K, i: nat, c: C)
    requires Inv(l) && k in l.streams && i < |l.streams[k].slots| && l.streams[k].slots[i].channel == Some(c)
    requires c in l.channels
    ensures var s, ch := l.streams[k], l.channels[c];
            && Unlink(l, k, i).streams == l.streams[k := s.(
                 current := None, enqueued := false,
                 slots := s.slots[i := s.slots[i].(channel := None, active := false)])]
            && Unlink(l, k, i).channels == l.channels[c := ch.(
                 txSids := ch.txSids - {s.slots[i].sid}, sending := Without(ch.sending, k))]
  {
    assert SlotsOk(l.streams[k]);
    hide Without;
  }

  lemma ReturnedIs<K, C>(l: Layer<K, C>, u: Layer<K, C>, k: K, c: C, queue: seq<Frame<K>>, order: seq<nat>)
    requires c in l.channels && c in u.channels && k in u.streams
    requires Walks(order, l.channels[c].waitingAck) && u.channels[c].waitingAck == l.channels[c].waitingAck
    ensures var table := l.channels[c].waitingAck;
            var r := Returned(u, c, k, queue, Owned(table, order, k));
            && r.streams == u.streams[k := u.streams[k].(queue := queue)]
            && r.channels == u.channels[c := u.channels[c].(waitingAck := r.channels[c].waitingAck)]
            && (forall n :: n in r.channels[c].waitingAck <==> n in table && table[n].owner != k)
            && (forall n :: n in r.channels[c].waitingAck ==> r.channels[c].waitingAck[n] == table[n])
  {}

  // ---------------------------------------------------------------- one transmission

  /** Acknowledged data frames stand before place `i` and none at it. */
  ghost predicate FirstAwaited<K>(queue: seq<Frame<K>>, waiting: set<nat>, i: nat) {
    && i <= |queue|
    && (forall j :: 0 <= j < i ==> queue[j].kind == Data && queue[j].seg.pos !in waiting)
    && (i < |queue| && queue[i].kind == Data ==> queue[i].seg.pos in waiting)
  }

  /** The channel has given packet `f` the next number, and flow control was charged for it. */
  ghost predicate OnePacket<K>(ch: Channel<K>, later: Channel<K>, f: Frame<K>) {
    later == ch.(
      txSeq := ch.txSeq + 1,
      allowance := later.allowance,
      sending := later.sending,
      sent := ch.sent[ch.txSeq := f],
      waitingAck := ch.waitingAck[ch.txSeq := f])
    && later.allowance == if ch.allowance == 0 then 0 else ch.allowance - 1
  }

  /** With its attachment acknowledged, or on the optimized path early in the stream, a frame may carry data. */
  predicate MayCarry<K, C>(s: Stream<K, C>, f: Frame<K>)
    requires s.current.Some? && s.current.value < |s.slots|
  {
    s.slots[s.current.value].sidSeq.Some? || (f.kind == Data && f.seg.pos <= 0xffff && s.piggyback)
  }

  /** Stream `k` and the line of `c` after a turn: what is left of the queue, and in line again if `again`. */
  ghost predicate TurnTaken<K, C>(l: Layer<K, C>, r: Layer<K, C>, c: C, k: K, queue: seq<Frame<K>>, again: bool)
    requires k in l.streams && c in l.channels && l.channels[c].sending != []
  {
    && r.streams == l.streams[k := l.streams[k].(queue := queue, enqueued := again)]
    && r.channels.Keys == l.channels.Keys
    && (forall d :: d in l.channels && d != c ==> r.channels[d] == l.channels[d])
    && if again then
         exists i :: 0 <= i <= |l.channels[c].sending[1..]|
           && r.channels[c].sending == Insert(l.channels[c].sending[1..], i, k)
       else r.channels[c].sending == l.channels[c].sending[1..]
  }

  /**
   A turn of the front stream, whatever its queue: acknowledged segments leave the head; if nothing remains nothing is
   sent, and otherwise exactly one packet goes out, which carries the first frame still awaited if the attachment
   allows, and asks for the attachment if not.
   */
  lemma ServeFrontExactly<K, C>(l: Layer<K, C>, c: C) returns (i: nat)
    requires Inv(l) && c in l.channels && l.channels[c].sending != []
    ensures l.channels[c].sending[0] in l.streams
    ensures var k := l.channels[c].sending[0];
            var s, ch, r := l.streams[k], l.channels[c], ServeFront(l, c);
            && FirstAwaited(s.queue, s.waiting, i) && s.current.Some? && s.current.value < |s.slots|
            && if i == |s.queue| then
                 TurnTaken(l, r, c, k, [], false) && r.channels[c] == ch.(sending := ch.sending[1..])
               else if MayCarry(s, s.queue[i]) then
                 && TurnTaken(l, r, c, k, s.queue[i + 1..], i + 1 < |s.queue|)
                 && OnePacket(ch, r.channels[c], s.queue[i].(late := false))
               else
                 && TurnTaken(l, r, c, k, s.queue[i..], false)
                 && OnePacket(ch, r.channels[c], Frame(k, Attach, ATTACH_SEGMENT, false))
  {
    hide Inv, SendHead, DropAcked, Begun;
    ServesAs(l, c);
    HeadOfTurn(l, c);
    var k := l.channels[c].sending[0];
    var s, b := l.streams[k], Begin(l, c);
    i := DropAckedSuffix(s.queue, s.waiting);
    BegunQueue(s, i);
    BeginKeeps(l, c);
    if i < |s.queue| && MayCarry(s, s.queue[i]) {
      SendHeadExactly(b, c, k);
    }
  }

  lemma BegunQueue<K, C>(s: Stream<K, C>, i: nat)
    requires i <= |s.queue| && DropAcked(s.queue, s.waiting) == s.queue[i..]
    ensures Begun(s) == s.(enqueued := false, queue := s.queue[i..])
  {}

  lemma SendHeadExactly<K, C>(l: Layer<K, C>, c: C, k: K)
    requires Inv(l) && k in l.streams && c in l.channels && l.streams[k].queue != [] && l.Current(k) == Some(c)
    requires !l.streams[k].enqueued
    ensures var s, r := l.streams[k], SendHead(l, c, k);
            && r.streams == l.streams[k := s.(queue := s.queue[1..], enqueued := |s.queue| > 1)]
            && r.channels.Keys == l.channels.Keys
            && (forall d :: d in l.channels && d != c ==> r.channels[d] == l.channels[d])
            && OnePacket(l.channels[c], r.channels[c], s.queue[0].(late := false))
            && if |s.queue| > 1 then
                 exists i :: 0 <= i <= |l.channels[c].sending|
                   && r.channels[c].sending == Insert(l.channels[c].sending, i, k)
               else r.channels[c].sending == l.channels[c].sending
  {
    hide Inv, Link;
    var s := l.streams[k];
    var m := Transmit(l.SetStream(k, s.(queue := s.queue[1..])), c, s.queue[0].(late := false));
    assert m.Current(k) == Some(c) && m.channels[c].sending == l.channels[c].sending;
    LinkChanges(m, k);
    if |s.queue| > 1 { LinkInserts(m, c, k); } else { NothingToSend(m, k); }
  }

  lemma LinkInserts<K, C>(l: Layer<K, C>, c: C, k: K)
    requires k in l.streams && c in l.channels && l.Current(k) == Some(c)
    requires !l.streams[k].enqueued && l.streams[k].queue != []
    ensures c in Link(l, k).channels
    ensures exists i :: 0 <= i <= |l.channels[c].sending|
              && Link(l, k).channels[c].sending == Insert(l.channels[c].sending, i, k)
  {
    var i := PriorityIndex(l, l.channels[c].sending, l.streams[k].priority);
    assert Link(l, k).channels[c].sending == Insert(l.channels[c].sending, i, k);
  }

  lemma NothingToSend<K, C>(l: Layer<K, C>, k: K)
    requires k in l.streams && l.streams[k].queue == [] && (l.Current(k).Some? ==> l.Current(k).value in l.channels)
    ensures Link(l, k) == l
  {}

  // ---------------------------------------------------------------- whole writes

  lemma {:induction false} WriteAllSends<K, C>(l: Layer<K, C>, k: K, segs: seq<Segment>)
    requires Inv(l) && k in l.streams && Consecutive(segs, l.streams[k].byteSeq)
    ensures Sends(l, WriteAll(l, k, segs)) && Paid(l, WriteAll(l, k, segs))
    decreases |segs|
  {
    hide Inv, Sends, Paid;
    if segs == [] {
      SendsSelf(l);
    } else {
      WriteSegmentKeeps(l, k, segs[0]);
      WriteSegmentSends(l, k, segs[0]);
      WriteSegmentByteSeq(l, k, segs[0]);
      var r := WriteSegment(l, k, segs[0]);
      WriteAllSends(r, k, segs[1..]);
      SendsThen(l, r, WriteAll(r, k, segs[1..]));
      PaidThen(l, r, WriteAll(r, k, segs[1..]));
    }
  }

  lemma SendsSelf<K, C>(l: Layer<K, C>)
    requires Inv(l)
    ensures Sends(l, l) && Paid(l, l)
  {
    InvNumbers(l);
    hide Inv, AllNumbers, Served;
    forall k | k in l.streams ensures Served(l.streams[k], l.streams[k]) {
      ServedSelf(l.streams[k], l.streams[k].enqueued);
    }
    Unsent(l, l);
  }

  /** A fragment as write_datagram queues it: at the position of the stream, without flags of a segment. */
  function Fragment<K>(k: K, at: nat, seg: Segment): Frame<K> {
    Frame(k, Datagram, seg.(pos := at), false)
  }

  /** Every fragment is in the queue of its stream or was sent. */
  ghost predicate AllOut<K, C>(l: Layer<K, C>, r: Layer<K, C>, k: K, at: nat, fragments: seq<Segment>) {
    && k in r.streams
    && forall j :: 0 <= j < |fragments| ==>
         Fragment(k, at, fragments[j]) in r.streams[k].queue || WentOut(l, r, Fragment(k, at, fragments[j]))
  }

  lemma {:induction false} FragmentsSend<K, C>(l: Layer<K, C>, k: K, fragments: seq<Segment>)
    requires Inv(l) && k in l.streams
    ensures Inv(EnqueueFragments(l, k, fragments))
    ensures Sends(l, EnqueueFragments(l, k, fragments)) && Paid(l, EnqueueFragments(l, k, fragments))
    ensures AllOut(l, EnqueueFragments(l, k, fragments), k, l.streams[k].byteSeq, fragments)
    decreases |fragments|
  {
    hide Inv, Sends, Paid, AllOut, WentOut;
    if fragments == [] {
      SendsSelf(l);
      NoneOut(l, k, l.streams[k].byteSeq);
    } else {
      var f := Fragment(k, l.streams[k].byteSeq, fragments[0]);
      EnqueueFrameKeeps(l, k, f);
      EnqueueLastSends(l, k, f);
      var r := EnqueueFrame(l, k, f);
      EnqueueKeepsPosition(l, k, f);
      FragmentsSend(r, k, fragments[1..]);
      var end := EnqueueFragments(r, k, fragments[1..]);
      SendsThen(l, r, end);
      PaidThen(l, r, end);
      AllOutThen(l, r, end, k, l.streams[k].byteSeq, fragments);
    }
  }

  lemma NoneOut<K, C>(l: Layer<K, C>, k: K, at: nat)
    requires k in l.streams
    ensures AllOut(l, l, k, at, [])
  {}

  lemma EnqueueKeepsPosition<K, C>(l: Layer<K, C>, k: K, f: Frame<K>)
    requires k in l.streams
    ensures k in EnqueueFrame(l, k, f).streams && EnqueueFrame(l, k, f).streams[k].byteSeq == l.streams[k].byteSeq
  {
    hide EnqueueFrame;
    History.EnqueueFrameHistory(l, k, f);
  }

  lemma AllOutThen<K, C>(l: Layer<K, C>, r: Layer<K, C>, end: Layer<K, C>, k: K, at: nat, fragments: seq<Segment>)
    requires Sends(l, r) && Sends(r, end) && fragments != [] && AllOut(r, end, k, at, fragments[1..])
    requires k in l.streams && k in r.streams
    requires Fragment(k, at, fragments[0]) in r.streams[k].queue || WentOut(l, r, Fragment(k, at, fragments[0]))
    ensures AllOut(l, end, k, at, fragments)
  {
    forall j | 0 <= j < |fragments|
      ensures Fragment(k, at, fragments[j]) in end.streams[k].queue || WentOut(l, end, Fragment(k, at, fragments[j]))
    {
      hide WentOut, Served, Sent, AllWanted, AllSettled;
      var f := Fragment(k, at, fragments[j]);
      NextNumbers(l, r);
      if j == 0 {
        if f in r.streams[k].queue { SettledOne(r, end, k, f); }
        if WentOut(l, r, f) { WentOutBefore(l, r, end, f); }
      } else {
        assert fragments[j] == fragments[1..][j - 1];
      }
      if WentOut(r, end, f) { WentOutAfter(l, r, end, f); }
    }
  }

  /** What a datagram is cut into joins to the datagram, and every piece is queued or sent. */
  lemma DatagramGoesOut<K, C>(l: Layer<K, C>, k: K, data: seq<byte>, mtu: nat)
    requires Inv(l) && k in l.streams && mtu > 0
    ensures Flat(Cut(0, data, Flags(false, false, false), mtu)) == data
    ensures AllOut(l, SendDatagram(l, k, data, mtu), k, l.streams[k].byteSeq,
                   Cut(0, data, Flags(false, false, false), mtu))
    ensures OnlyWanted(l, SendDatagram(l, k, data, mtu)) && Paid(l, SendDatagram(l, k, data, mtu))
  {
    hide Inv, Sends, Paid, AllOut, OnlyWanted, AllNumbers, Silent;
    var fragments := Cut(0, data, Flags(false, false, false), mtu);
    CutFlat(0, data, Flags(false, false, false), mtu);
    FragmentsSend(l, k, fragments);
    var r := EnqueueFragments(l, k, fragments);
    OutHere(l, r, k, l.streams[k].byteSeq, fragments);
    LinkNowSends(r, k);
    SendsThen(l, r, LinkNow(r, k));
    PaidThen(l, r, LinkNow(r, k));
    AllOutStays(l, r, LinkNow(r, k), k, l.streams[k].byteSeq, fragments);
    SendsWanted(l, LinkNow(r, k));
  }

  lemma OutHere<K, C>(l: Layer<K, C>, r: Layer<K, C>, k: K, at: nat, fragments: seq<Segment>)
    requires AllOut(l, r, k, at, fragments)
    ensures k in r.streams
  {}

  lemma AllOutStays<K, C>(l: Layer<K, C>, r: Layer<K, C>, end: Layer<K, C>, k: K, at: nat, fragments: seq<Segment>)
    requires Sends(l, r) && Sends(r, end) && AllOut(l, r, k, at, fragments) && k in r.streams
    ensures AllOut(l, end, k, at, fragments)
  {
    forall j | 0 <= j < |fragments|
      ensures k in end.streams
      ensures Fragment(k, at, fragments[j]) in end.streams[k].queue || WentOut(l, end, Fragment(k, at, fragments[j]))
    {
      hide WentOut, Served, Sent, AllWanted, AllSettled;
      var f := Fragment(k, at, fragments[j]);
      NextNumbers(l, r);
      if f in r.streams[k].queue { SettledOne(r, end, k, f); }
      if WentOut(r, end, f) { WentOutAfter(l, r, end, f); }
      if WentOut(l, r, f) { WentOutBefore(l, r, end, f); }
    }
    hide Served, Sent, AllWanted, AllSettled;
  }

  lemma {:induction false} CutFlat(pos: nat, data: seq<byte>, end: Flags, mtu: nat)
    requires mtu > 0
    ensures Flat(Cut(pos, data, end, mtu)) == data
    decreases |data|
  {
    var segs := Cut(pos, data, end, mtu);
    if |data| > mtu {
      CutFlat(pos + mtu, data[mtu..], end, mtu);
      assert segs[1..] == Cut(pos + mtu, data[mtu..], end, mtu);
    } else {
      assert segs[1..] == [];
    }
  }

  lemma SendsWanted<K, C>(l: Layer<K, C>, r: Layer<K, C>)
    requires Sends(l, r)
    ensures OnlyWanted(l, r)
  {
    hide AllWanted, AllSettled, Served;
    forall c | c in l.channels ensures Numbered(l.channels[c], r.channels[c]) {
      assert Sent(l.channels[c], r.channels[c]);
    }
  }

  // ---------------------------------------------------------------- every step of a run

  /** A step sends only what is wanted, and every packet costs one unit, but for the one a shut channel may send. */
  ghost predicate Fair<K, C>(l: Layer<K, C>, r: Layer<K, C>, op: Op<K, C>) {
    && OnlyWanted(l, r)
    && (Paid(l, r) || op.Allow?
        || (op.Ready? && op.c in l.channels && l.channels[op.c].allowance == 0 && OneForFree(l, r, op.c)))
  }

  lemma SendsFair<K, C>(l: Layer<K, C>, r: Layer<K, C>, op: Op<K, C>)
    requires Sends(l, r) && Paid(l, r)
    ensures Fair(l, r, op)
  {
    hide Sends, OnlyWanted, Paid;
    SendsWanted(l, r);
  }

  lemma SilentFair<K, C>(l: Layer<K, C>, r: Layer<K, C>, op: Op<K, C>)
    requires AllNumbers(l) && Silent(l, r)
    ensures Fair(l, r, op)
  {
    hide Silent, AllNumbers, OnlyWanted, Paid;
    SilentWanted(l, r);
  }

  lemma WriteFair<K, C>(l: Layer<K, C>, op: Op<K, C>)
    requires Inv(l) && Enabled(l, op) && op.Write?
    ensures Fair(l, Do(l, op), op)
  {
    hide Inv, Sends, Paid, Fair;
    CutConsecutive(l.streams[op.k].byteSeq, op.data, op.end, op.mtu);
    WriteAllSends(l, op.k, Cut(l.streams[op.k].byteSeq, op.data, op.end, op.mtu));
    SendsFair(l, Do(l, op), op);
  }

  lemma ReadyFair<K, C>(l: Layer<K, C>, c: C)
    requires Inv(l) && c in l.channels
    ensures Fair(l, GotReady(l, c), Ready(c))
  {
    hide Inv, Sends, OnlyWanted, Paid, OneForFree;
    if l.channels[c].sending == [] {
      SendsSelf(l);
    } else {
      ServeWanted(l, c);
    }
    SendsWanted(l, GotReady(l, c));
  }

  lemma AllowNumbered<K, C>(l: Layer<K, C>, c: C, allowance: nat)
    requires AllNumbers(l) && c in l.channels
    ensures OnlyWanted(l, l.SetChannel(c, l.channels[c].(allowance := allowance)))
  {
    var r := l.SetChannel(c, l.channels[c].(allowance := allowance));
    NothingNew(l, r);
    hide AllWanted;
    forall d | d in l.channels ensures Numbered(l.channels[d], r.channels[d]) { assert Numbers(l.channels[d]); }
  }

  lemma LossFair<K, C>(l: Layer<K, C>, c: C, n: nat)
    requires Inv(l) && c in l.channels
    ensures Fair(l, Missed(l, c, n), Lost(c, n))
  {
    hide Inv, AllNumbers, OnlyWanted, Paid, Silent, Reported, InLineAgain, SameTables, Missed;
    InvNumbers(l);
    if n !in l.channels[c].waitingAck {
      UnknownLoss(l, c, n);
      SilentSelf(l);
      SilentFair(l, l, Lost(c, n));
    } else {
      match l.channels[c].waitingAck[n].kind
      case Data => LossRequeues(l, c, n);
      case Attach => AttachLossRetries(l, c, n); SilentFair(l, Missed(l, c, n), Lost(c, n));
      case Datagram => DatagramLossForgets(l, c, n); SilentFair(l, Missed(l, c, n), Lost(c, n));
    }
  }

  lemma UnknownLoss<K, C>(l: Layer<K, C>, c: C, n: nat)
    requires c in l.channels && n !in l.channels[c].waitingAck
    ensures Missed(l, c, n) == l
  {}

  lemma AckSilent<K, C>(l: Layer<K, C>, c: C, n: nat, rxSeq: nat)
    requires Inv(l) && c in l.channels
    ensures Silent(l, Acknowledged(l, c, n, rxSeq))
  {
    hide Inv, Silent, Acknowledged, Releases, Confirms, Unconfirmed;
    if n in l.channels[c].waitingAck { AckReleases(l, c, n, rxSeq); }
    else {
      UnknownAck(l, c, n, rxSeq);
      SilentSelf(l);
    }
  }

  lemma UnknownAck<K, C>(l: Layer<K, C>, c: C, n: nat, rxSeq: nat)
    requires c in l.channels && n !in l.channels[c].waitingAck
    ensures Acknowledged(l, c, n, rxSeq) == l
  {}

  lemma PrioritySilent<K, C>(l: Layer<K, C>, k: K, priority: nat)
    requires Inv(l) && k in l.streams
    ensures Silent(l, SetPriority(l, k, priority))
  {
    hide Inv, SetPriority, PlaceFor, Others;
    var j, i := PriorityMoves(l, k, priority);
    if l.streams[k].priority == priority { SamePriority(l, k, priority); }
  }

  lemma SamePriority<K, C>(l: Layer<K, C>, k: K, priority: nat)
    requires k in l.streams && l.streams[k].priority == priority
    ensures SetPriority(l, k, priority) == l
  {}

  /** Events that send nothing at all. */
  lemma QuietSilent<K, C>(l: Layer<K, C>, op: Op<K, C>)
    requires Healthy(l) && Enabled(l, op)
    requires op.Piggyback? || op.Acked? || op.Expired? || op.ClearTx? || op.Prioritise? || op.AttachRx? || op.ClearRx?
             || op.StopChannel? || op.Detach?
    ensures Silent(l, Do(l, op))
  {
    hide Inv, Homed, ReceiveOk, Silent, SameUse, AllSlotsOk, OnlyReceive, Walkable, WalksAll, Walks, RxAttach, RxClear;
    InvSlots(l);
    match op
    case Piggyback(k, piggyback) => PiggybackSilent(l, k, piggyback);
    case Acked(c, n, rxSeq) => AckSilent(l, c, n, rxSeq);
    case Expired(c, n) => ForgetSilent(l, c, {n});
    case ClearTx(k, i, order) => ClearSilent(l, k, i, order);
    case Prioritise(k, priority) => PrioritySilent(l, k, priority);
    case AttachRx(k, i, c, sid, seqNo) =>
      RxAttachOnly(l, k, i, c, sid, seqNo);
      OnlyReceiveSilent(l, Do(l, op));
    case ClearRx(k, i) =>
      RxClearOnly(l, k, i);
      OnlyReceiveSilent(l, Do(l, op));
    case StopChannel(c, walk, rxWalk) => StopSilent(l, c, walk, rxWalk);
    case Detach(c, walk, order) => DetachSilent(l, c, walk, order);
  }

  lemma PiggybackSilent<K, C>(l: Layer<K, C>, k: K, piggyback: bool)
    requires k in l.streams
    ensures Silent(l, l.SetStream(k, l.streams[k].(piggyback := piggyback)))
  {}

  /** Events that may send. */
  lemma SendingFair<K, C>(l: Layer<K, C>, op: Op<K, C>)
    requires Inv(l) && Enabled(l, op)
    requires op.Write? || op.WriteDatagram? || op.Allow? || op.Ready? || op.WindowGrows? || op.Lost? || op.AttachTo?
    ensures Fair(l, Do(l, op), op)
  {
    hide Inv, AllNumbers, Sends, Paid, OnlyWanted, AllOut, FirstFree, NoneFree, Attaches;
    InvNumbers(l);
    match op
    case Write(_, _, _, _) => WriteFair(l, op);
    case WriteDatagram(k, data, mtu) => DatagramGoesOut(l, k, data, mtu);
    case Allow(c, allowance) => AllowNumbered(l, c, allowance);
    case Ready(c) => ReadyFair(l, c);
    case WindowGrows(k) =>
      LinkNowSends(l, k);
      SendsFair(l, Do(l, op), op);
    case Lost(c, n) => LossFair(l, c, n);
    case AttachTo(k, c) => AttachTakesFirstFree(l, k, c);
  }

  lemma OpFair<K, C>(l: Layer<K, C>, op: Op<K, C>)
    requires Healthy(l) && Enabled(l, op)
    ensures Fair(l, Do(l, op), op)
  {
    hide Inv, Healthy, AllNumbers, Silent, Enabled, Do, Fair;
    HealthyInv(l);
    InvNumbers(l);
    if op.Write? || op.WriteDatagram? || op.Allow? || op.Ready? || op.WindowGrows? || op.Lost? || op.AttachTo? {
      SendingFair(l, op);
    } else {
      QuietSilent(l, op);
      SilentFair(l, Do(l, op), op);
    }
  }

  lemma HealthyInv<K, C>(l: Layer<K, C>)
    requires Healthy(l)
    ensures Inv(l)
  {}

  /**
   Every step of a run sends only frames there is reason to send: an attach packet for an attachment that was not
   acknowledged, a datagram, or a segment its stream still waits for, with no earlier one left in the queue. New
   packets take the next numbers, each costs one unit of what flow control allows, and a channel that reports
   itself ready with flow control shut sends at most one.
   */
  lemma StepFair<K, C>(l: Layer<K, C>, op: Op<K, C>)
    requires Sound(l)
    ensures Fair(l, Step(l, op), op)
  {
    hide Healthy, Inv, Silent, Enabled, Do;
    SoundIsHealthy(l);
    if Enabled(l, op) && !l.failed {
      OpFair(l, op);
    } else {
      SoundNumbers(l);
      SilentSelf(l);
      SilentFair(l, l, op);
    }
  }

  lemma SoundNumbers<K, C>(l: Layer<K, C>)
    requires Sound(l)
    ensures AllNumbers(l)
  {
    InvNumbers(l.(failed := false));
  }

  /** The numbers given out on a channel are exactly those from 1 up to the next one. */
  ghost predicate Consecutively<K>(ch: Channel<K>) {
    ch.txSeq >= 1 && forall n :: n in ch.sent <==> 1 <= n < ch.txSeq
  }

  lemma NumberedOn<K>(ch: Channel<K>, later: Channel<K>)
    requires Consecutively(ch) && Numbered(ch, later)
    ensures Consecutively(later)
  {}

  /** Packet numbers of a channel are given out one by one over any run. */
  lemma {:induction false} RunNumbersPackets<K, C>(priorities: map<K, nat>, channels: set<C>, ops: seq<Op<K, C>>, c: C)
    requires c in channels
    ensures c in Play(Initial(priorities, channels), ops).channels
    ensures Consecutively(Play(Initial(priorities, channels), ops).channels[c])
    decreases |ops|
  {
    hide Step, Sound, Numbered, Consecutively, Paid, AllWanted;
    if ops == [] {
      FreshNumbers(priorities, channels, c);
    } else {
      hide Initial;
      var front, op := ops[..|ops| - 1], ops[|ops| - 1];
      RunNumbersPackets(priorities, channels, front, c);
      RunSound(priorities, channels, front);
      var l := Play(Initial(priorities, channels), front);
      StepFair(l, op);
      NumberedOn(l.channels[c], Step(l, op).channels[c]);
    }
  }

  lemma FreshNumbers<K, C>(priorities: map<K, nat>, channels: set<C>, c: C)
    requires c in channels
    ensures c in Initial<K, C>(priorities, channels).channels
    ensures Consecutively(Initial<K, C>(priorities, channels).channels[c])
  {}

  // ---------------------------------------------------------------- at once

  /** On the channel of the stream nothing is left to do: flow control is shut or the line is empty. */
  ghost predicate Drained<K, C>(l: Layer<K, C>, k: K) {
    k in l.streams && (l.Current(k).Some? ==>
      && l.Current(k).value in l.channels
      && (l.channels[l.Current(k).value].allowance == 0 || l.channels[l.Current(k).value].sending == []))
  }

  lemma LinkNowDrains<K, C>(l: Layer<K, C>, k: K)
    requires Inv(l) && k in l.streams
    ensures Drained(LinkNow(l, k), k)
  {
    hide Inv, Sends, Paid, Link, Served, Sent;
    LinkNowKeeps(l, k);
    LinkNowSends(l, k);
    LinkKeeps(l, k);
    KnownChannel(l, k);
    SendsSlots(l, LinkNow(l, k), k);
    var r := Link(l, k);
    KnownChannel(r, k);
    if r.Current(k).Some? {
      var c := r.Current(k).value;
      if r.channels[c].allowance > 0 && r.channels[c].sending != [] {
        ServeWanted(r, c);
        SendsSlots(r, Serve(r, c), k);
        Progress.ServeStops(r, c);
      }
    }
  }

  lemma {:induction false} WriteAllDrains<K, C>(l: Layer<K, C>, k: K, segs: seq<Segment>)
    requires Inv(l) && k in l.streams && Consecutive(segs, l.streams[k].byteSeq) && segs != []
    ensures Drained(WriteAll(l, k, segs), k)
    decreases |segs|
  {
    hide Inv, Drained;
    WriteSegmentKeeps(l, k, segs[0]);
    WriteSegmentByteSeq(l, k, segs[0]);
    var r := WriteSegment(l, k, segs[0]);
    if segs[1..] == [] {
      var w := WrittenBeforeLink(l, k, segs[0]);
      LinkNowDrains(w, k);
    } else {
      WriteAllDrains(r, k, segs[1..]);
    }
  }

  lemma DatagramDrains<K, C>(l: Layer<K, C>, k: K, data: seq<byte>, mtu: nat)
    requires Inv(l) && k in l.streams && mtu > 0
    ensures Drained(SendDatagram(l, k, data, mtu), k)
  {
    hide Inv, Drained, Sends, Paid, AllOut;
    var fragments := Cut(0, data, Flags(false, false, false), mtu);
    FragmentsSend(l, k, fragments);
    OutHere(l, EnqueueFragments(l, k, fragments), k, l.streams[k].byteSeq, fragments);
    LinkNowDrains(EnqueueFragments(l, k, fragments), k);
  }

  lemma LossDrains<K, C>(l: Layer<K, C>, c: C, n: nat)
    requires Inv(l) && c in l.channels && n in l.channels[c].waitingAck && l.channels[c].waitingAck[n].kind == Data
    ensures Drained(Missed(l, c, n), l.channels[c].waitingAck[n].owner)
  {
    hide Inv, Drained, LinkNow, Queued, Mark;
    EntryFacts(l, c, n);
    QueuedAndMarked(l, c, n);
    LossIs(l, c, n);
    var f := l.channels[c].waitingAck[n];
    LinkNowDrains(Queued(Mark(l, c, n), f.owner, f.(late := true)), f.owner);
  }

  lemma AttachDrains<K, C>(l: Layer<K, C>, k: K, c: C)
    requires Inv(l) && k in l.streams && c in l.channels && l.streams[k].current == None && !NoneFree(l.channels[c])
    ensures Drained(AttachFor(l, k, c), k)
  {
    hide Inv, AttachFor, Attached, LinkNow, AllocateSid, FirstFree, NoneFree, Attaches, Drained;
    AttachForIs(l, k, c);
    AllocateSidExactly(l.channels[c]);
    AllocatedFree(l.channels[c]);
    var n := AllocateSid(l.channels[c]).value;
    AttachedKeeps(l, k, c, n);
    AttachedIs(l, k, c, n);
    LinkNowDrains(Attached(l, k, c, n), k);
  }

  /** The stream a step is about when the step transmits at once. */
  ghost function Eager<K, C>(l: Layer<K, C>, op: Op<K, C>): Option<K> {
    match op
    case Write(k, _, _, _) => Some(k)
    case WriteDatagram(k, _, _) => Some(k)
    case WindowGrows(k) => Some(k)
    case Lost(c, n) =>
      if c in l.channels && n in l.channels[c].waitingAck && l.channels[c].waitingAck[n].kind == Data
      then Some(l.channels[c].waitingAck[n].owner) else None
    case AttachTo(k, c) =>
      if k in l.streams && l.streams[k].current == None && c in l.channels && !NoneFree(l.channels[c])
      then Some(k) else None
    case _ => None
  }

  /**
   Writing, growth of the transmit window, the loss of a segment and attaching transmit at once: afterwards flow control
   is shut on the channel of the stream, or nobody is left in its line.
   */
  lemma ActsAtOnce<K, C>(l: Layer<K, C>, op: Op<K, C>)
    requires Healthy(l) && Enabled(l, op) && Eager(l, op).Some?
    ensures Drained(Step(l, op), Eager(l, op).value)
  {
    hide Inv, Healthy, Drained, NoneFree;
    HealthyInv(l);
    InvSlots(l);
    match op
    case Write(k, data, end, mtu) =>
      CutConsecutive(l.streams[k].byteSeq, data, end, mtu);
      WriteAllDrains(l, k, Cut(l.streams[k].byteSeq, data, end, mtu));
    case WriteDatagram(k, data, mtu) => DatagramDrains(l, k, data, mtu);
    case WindowGrows(k) => LinkNowDrains(l, k);
    case Lost(c, n) => LossDrains(l, c, n);
    case AttachTo(k, c) => AttachDrains(l, k, c);
  }
}
