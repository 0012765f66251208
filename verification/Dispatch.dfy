/**
 Dispatch by id on one channel. Streams take 16-bit ids as the stream counter goes up, and the peer finds the
 receiver of a data packet under its id, unless the packet is older than the attach packet that put the receiver
 there. The network may lose, reorder and repeat packets.
 */
module Dispatch {
  import opened Options
  import opened StreamLayer
  import opened StreamHomes
  import SR = StreamRuns

  // ---------------------------------------------------------------- the table of the peer

  /** What receive_sids_ holds under an id, with the packet number of its attach packet. */
  datatype Entry<K> = Entry(owner: K, slot: nat, seqNo: nat)

  ghost function Look<K, C>(l: Layer<K, C>, c: C, id: nat): Option<Entry<K>> {
    if c in l.channels && id in l.channels[c].rxSids then
      var (k, i) := l.channels[c].rxSids[id];
      if k in l.streams && i < |l.streams[k].rxSlots| then Some(Entry(k, i, l.streams[k].rxSlots[i].sidSeq)) else None
    else None
  }

  /** rx_data_packet: the stream that gets the data, or None for a stale packet or an unknown id. */
  ghost function Receiver<K, C>(l: Layer<K, C>, c: C, id: nat, n: nat): Option<K> {
    match Look(l, c, id)
    case None => None
    case Some(e) => if n < e.seqNo then None else Some(e.owner)
  }

  lemma ClearLook<K, C>(l: Layer<K, C>, k: K, i: nat, c: C, id: nat)
    requires ReceiveOk(l) && k in l.streams && i < |l.streams[k].rxSlots| && c in l.channels
    ensures Look(RxClear(l, k, i), c, id) == Look(l, c, id) || Look(RxClear(l, k, i), c, id).None?
    ensures Look(RxClear(l, k, i), c, id).Some? ==>
              Look(l, c, id).value.owner != k || Look(l, c, id).value.slot != i
  {
    RxFacts(l, k, i, c, id);
    hide ReceiveOk;
  }

  lemma ActiveLook<K, C>(l: Layer<K, C>, k: K, i: nat, c: C, id: nat, n: nat, other: nat)
    requires k in l.streams && i < |l.streams[k].rxSlots| && c in l.channels && id !in l.channels[c].rxSids
    requires Look(l, c, other).Some? ==> Look(l, c, other).value.owner != k || Look(l, c, other).value.slot != i
    ensures Look(RxSetActive(l, k, i, c, id, n), c, other) ==
              if other == id then Some(Entry(k, i, n)) else Look(l, c, other)
  {}

  /** The entry an attach packet leaves behind under its own id: new, or that of its slot with the smaller number. */
  ghost predicate Installed<K>(before: Option<Entry<K>>, e: Entry<K>, k: K, i: nat, n: nat) {
    && e.owner == k && e.slot == i
    && e.seqNo == (if before.Some? && before.value.seqNo < n then before.value.seqNo else n)
    && (before.Some? ==> before.value.owner == k && before.value.slot == i)
  }

  /** rx_attach_packet puts the stream under the id; other ids keep their entry or lose it. */
  lemma AttachLook<K, C>(l: Layer<K, C>, k: K, i: nat, c: C, id: nat, n: nat, other: nat)
    requires ReceiveOk(l) && !l.failed && k in l.streams && i < |l.streams[k].rxSlots| && c in l.channels
    requires !IdTaken(l, k, i, c, id)
    ensures var r := RxAttach(l, k, i, c, id, n);
            if other == id then Look(r, c, id).Some? && Installed(Look(l, c, id), Look(r, c, id).value, k, i, n)
            else Look(r, c, other) == Look(l, c, other) || Look(r, c, other).None?
  {
    var slot := l.streams[k].rxSlots[i];
    RxFacts(l, k, i, c, id);
    RxFacts(l, k, i, c, other);
    if slot.channel == Some(c) && slot.sid == id {
      hide ReceiveOk;
    } else {
      RxClearKeeps(l, k, i);
      RxClearTable(l, k, i, c, id);
      ClearLook(l, k, i, c, other);
      hide ReceiveOk, RxClear, RxSetActive, Look;
      ActiveLook(RxClear(l, k, i), k, i, c, id, n, other);
    }
  }

  // ---------------------------------------------------------------- both ends

  /** A packet of the channel: the id it carries and the use of the id it belongs to. */
  datatype Packet<K> = Packet(id: nat, owner: K, slot: nat, since: nat, attach: bool)

  /** A transmit attachment: who uses the id, from which packet number on. */
  datatype Use<K> = Use(owner: K, slot: nat, since: nat, acked: bool)

  /**
   `held` are ids that are never free, as that of the root stream. Where the source logs a fatal error because
   it finds no free id, `stops` tells whether that is the end or the search goes on behind it.
   */
  datatype Ends<K, C> = Ends(
    held: set<nat>,
    stops: bool,
    counter: nat,                  // transmit_sid_counter_
    next: nat,
    using: map<nat, Use<K>>,       // transmit_sids_ without the ids held
    sent: map<nat, Packet<K>>,     // everything put on the wire
    peer: Layer<K, C>,             // the receiving host
    accepted: set<nat>)            // packets the peer may acknowledge

  datatype Event<K> =
    | Take(owner: K, slot: nat)            // attach_for_transmit
    | Leave(id: nat)                       // the transmit attachment is cleared
    | SendAttach(id: nat)
    | SendData(id: nat)
    | Acked(n: nat)
    | Arrive(n: nat)
    | ClearRx(owner: K, slot: nat)         // the peer clears a receive slot

  ghost function Taken<K, C>(s: Ends<K, C>): map<nat, nat> {
    map id | id in s.using.Keys + s.held :: id
  }

  /** allocate_transmit_sid; transmit_sid_acked_ stays 0, as nothing updates it. */
  ghost function Allocated<K, C>(s: Ends<K, C>): Option<nat> {
    FreeCounter(Taken(s), s.counter, if s.stops then SearchBound(s.counter, 0) else 0x1_0000)
  }

  ghost predicate Attached<K, C>(s: Ends<K, C>, k: K) {
    exists id :: id in s.using && s.using[id].owner == k
  }

  ghost function Put<K, C>(s: Ends<K, C>, id: nat, attach: bool): Ends<K, C>
    requires id in s.using
  {
    var u := s.using[id];
    s.(next := s.next + 1, sent := s.sent[s.next := Packet(id, u.owner, u.slot, u.since, attach)])
  }

  ghost function Step<K, C>(s: Ends<K, C>, c: C, e: Event<K>): Ends<K, C> {
    match e
    case Take(k, i) =>
      if Attached(s, k) || Allocated(s).None? then s
      else
        var counter := Allocated(s).value;
        s.(using := s.using[Sid16(counter) := Use(k, i, s.next, false)], counter := counter + 1)
    case Leave(id) => s.(using := s.using - {id})
    case SendAttach(id) => if id in s.using then Put(s, id, true) else s
    case SendData(id) => if id in s.using && s.using[id].acked then Put(s, id, false) else s
    case Acked(n) =>
      // clear takes the packets of earlier uses out of the table, so their acknowledgments come to nothing
      if n !in s.accepted || n !in s.sent || s.sent[n].id !in s.using || n < s.using[s.sent[n].id].since then s
      else s.(using := s.using[s.sent[n].id := s.using[s.sent[n].id].(acked := true)])
    case Arrive(n) =>
      if n !in s.sent || s.peer.failed then s
      else if s.sent[n].attach then AttachArrives(s, c, n)
      else if Receiver(s.peer, c, s.sent[n].id, n).None? then s
      else s.(accepted := s.accepted + {n})
    case ClearRx(k, i) =>
      if k !in s.peer.streams || i >= |s.peer.streams[k].rxSlots| || s.peer.failed then s
      else s.(peer := RxClear(s.peer, k, i))
  }

  ghost function AttachArrives<K, C>(s: Ends<K, C>, c: C, n: nat): Ends<K, C>
    requires n in s.sent
  {
    var p := s.sent[n];
    if c !in s.peer.channels || p.owner !in s.peer.streams || p.slot >= |s.peer.streams[p.owner].rxSlots| then s
    else s.(peer := RxAttach(s.peer, p.owner, p.slot, c, p.id, n), accepted := s.accepted + {n})
  }

  ghost function Play<K, C>(s: Ends<K, C>, c: C, events: seq<Event<K>>): Ends<K, C> {
    if events == [] then s else Step(Play(s, c, events[..|events| - 1]), c, events[|events| - 1])
  }

  ghost function Begin<K, C>(held: set<nat>, stops: bool, peer: Layer<K, C>): Ends<K, C> {
    Ends(held, stops, 1, 1, map[], map[], peer, {})
  }

  /** The peer's table lists at most the ids held. */
  ghost predicate FreshPeer<K, C>(peer: Layer<K, C>, c: C, held: set<nat>) {
    ReceiveOk(peer) && !peer.failed && c in peer.channels && forall id :: id in peer.channels[c].rxSids ==> id in held
  }

  // ---------------------------------------------------------------- the invariant

  /** Uses of one id lie one after the other in packet numbers. */
  ghost predicate Apart<K>(sent: map<nat, Packet<K>>, n: nat, m: nat)
    requires n in sent && m in sent
  {
    sent[n].id == sent[m].id ==>
      && (sent[n].since == sent[m].since ==> sent[n].owner == sent[m].owner)
      && (sent[n].since < sent[m].since ==> n < sent[m].since)
  }

  /** Packets from the beginning of the current use on belong to its stream. */
  ghost predicate InUse<K, C>(s: Ends<K, C>, id: nat)
    requires id in s.using
  {
    s.using[id].since <= s.next && id !in s.held
    && forall n :: n in s.sent && s.sent[n].id == id && n >= s.using[id].since ==>
         s.sent[n].since == s.using[id].since && s.sent[n].owner == s.using[id].owner
  }

  ghost predicate SentOk<K, C>(s: Ends<K, C>) {
    && (forall n :: n in s.sent ==> n < s.next && s.sent[n].since <= n && s.sent[n].id !in s.held)
    && (forall n, m :: n in s.sent && m in s.sent ==> Apart(s.sent, n, m))
    && (forall id :: id in s.using ==> InUse(s, id))
  }

  /** sid_seq_ is the number of an attach packet that names the stream under this id. */
  ghost predicate Recorded<K>(sent: map<nat, Packet<K>>, e: Entry<K>, id: nat) {
    && e.seqNo in sent && sent[e.seqNo].attach
    && sent[e.seqNo].id == id && sent[e.seqNo].owner == e.owner
  }

  ghost predicate TableOk<K, C>(s: Ends<K, C>, c: C) {
    !s.peer.failed ==>
      && ReceiveOk(s.peer)
      && (forall id :: id !in s.held && Look(s.peer, c, id).Some? ==> Recorded(s.sent, Look(s.peer, c, id).value, id))
  }

  ghost predicate Kept<K, C>(s: Ends<K, C>, c: C) {
    SentOk(s) && TableOk(s, c) && c in s.peer.channels
  }

  // ---------------------------------------------------------------- steps

  /** Uses end, are acknowledged, or begin with the next packet; nothing else changes. */
  lemma UsesStay<K, C>(s: Ends<K, C>, t: Ends<K, C>, c: C)
    requires Kept(s, c) && t == s.(using := t.using, counter := t.counter, accepted := t.accepted)
    requires forall id :: id in t.using ==>
               (t.using[id].since == s.next && id !in s.held)
               || (id in s.using && t.using[id].owner == s.using[id].owner && t.using[id].since == s.using[id].since)
    ensures Kept(t, c)
  {
    forall id | id in t.using ensures InUse(t, id) { if id in s.using { assert InUse(s, id); } }
  }

  lemma TakeKeeps<K, C>(s: Ends<K, C>, c: C, k: K, i: nat)
    requires Kept(s, c)
    ensures Kept(Step(s, c, Take(k, i)), c)
  {
    hide FreeCounter, SearchBound, Sid16;
    UsesStay(s, Step(s, c, Take(k, i)), c);
  }

  lemma LeaveKeeps<K, C>(s: Ends<K, C>, c: C, id: nat)
    requires Kept(s, c)
    ensures Kept(Step(s, c, Leave(id)), c)
  {
    UsesStay(s, Step(s, c, Leave(id)), c);
  }

  lemma PutSent<K, C>(s: Ends<K, C>, id: nat, attach: bool)
    requires SentOk(s) && id in s.using
    ensures SentOk(Put(s, id, attach))
  {
    var t := Put(s, id, attach);
    assert InUse(s, id);
    forall n, m | n in t.sent && m in t.sent ensures Apart(t.sent, n, m) {
      if n != s.next && m != s.next { assert Apart(s.sent, n, m); }
    }
    forall j | j in t.using ensures InUse(t, j) { assert InUse(s, j); }
  }

  lemma PutKeeps<K, C>(s: Ends<K, C>, c: C, id: nat, attach: bool)
    requires Kept(s, c) && id in s.using
    ensures Kept(Put(s, id, attach), c)
  {
    PutSent(s, id, attach);
    forall n | n in s.sent ensures n < s.next {}
    hide SentOk;
    var t := Put(s, id, attach);
    if !t.peer.failed {
      forall j | j !in t.held && Look(t.peer, c, j).Some? ensures Recorded(t.sent, Look(t.peer, c, j).value, j) {
        assert Recorded(s.sent, Look(s.peer, c, j).value, j);
      }
    }
  }

  lemma AckedKeeps<K, C>(s: Ends<K, C>, c: C, n: nat)
    requires Kept(s, c)
    ensures Kept(Step(s, c, Acked(n)), c)
  {
    UsesStay(s, Step(s, c, Acked(n)), c);
  }

  lemma DataKeeps<K, C>(s: Ends<K, C>, c: C, n: nat)
    requires Kept(s, c)
    ensures Kept(s.(accepted := s.accepted + {n}), c)
  {
    UsesStay(s, s.(accepted := s.accepted + {n}), c);
  }

  lemma SentSame<K, C>(s: Ends<K, C>, t: Ends<K, C>)
    requires SentOk(s) && t == s.(peer := t.peer, accepted := t.accepted)
    ensures SentOk(t)
  {
    forall id | id in t.using ensures InUse(t, id) { assert InUse(s, id); }
  }

  lemma ClearRxKeeps<K, C>(s: Ends<K, C>, c: C, k: K, i: nat)
    requires Kept(s, c) && k in s.peer.streams && i < |s.peer.streams[k].rxSlots| && !s.peer.failed
    ensures Kept(s.(peer := RxClear(s.peer, k, i)), c)
  {
    var t := s.(peer := RxClear(s.peer, k, i));
    RxClearKeeps(s.peer, k, i);
    RxClearOnly(s.peer, k, i);
    SentSame(s, t);
    hide SentOk, ReceiveOk, RxClear, Look;
    forall id | !t.peer.failed && id !in t.held && Look(t.peer, c, id).Some?
      ensures Recorded(t.sent, Look(t.peer, c, id).value, id)
    {
      ClearLook(s.peer, k, i, c, id);
      assert Recorded(s.sent, Look(s.peer, c, id).value, id);
    }
  }

  lemma ArriveTable<K, C>(s: Ends<K, C>, c: C, n: nat, id: nat)
    requires Kept(s, c) && n in s.sent && s.sent[n].attach && !s.peer.failed && AttachArrives(s, c, n) != s
    ensures var t := AttachArrives(s, c, n);
            !t.peer.failed && id !in t.held && Look(t.peer, c, id).Some? ==>
              Recorded(t.sent, Look(t.peer, c, id).value, id)
  {
    var t, p := AttachArrives(s, c, n), s.sent[n];
    RxAttachFailsExactly(s.peer, p.owner, p.slot, c, p.id, n);
    hide SentOk, ReceiveOk, RxAttach, Look, IdTaken;
    if !t.peer.failed && id !in t.held && Look(t.peer, c, id).Some? {
      AttachLook(s.peer, p.owner, p.slot, c, p.id, n, id);
      if Look(s.peer, c, id).Some? { assert Recorded(s.sent, Look(s.peer, c, id).value, id); }
    }
  }

  lemma ArriveKeeps<K, C>(s: Ends<K, C>, c: C, n: nat)
    requires Kept(s, c) && n in s.sent && s.sent[n].attach && !s.peer.failed
    ensures Kept(AttachArrives(s, c, n), c)
  {
    var t, p := AttachArrives(s, c, n), s.sent[n];
    if t != s {
      RxAttachFailsExactly(s.peer, p.owner, p.slot, c, p.id, n);
      RxAttachOnly(s.peer, p.owner, p.slot, c, p.id, n);
      SentSame(s, t);
      forall id ensures !t.peer.failed && id !in t.held && Look(t.peer, c, id).Some? ==>
                          Recorded(t.sent, Look(t.peer, c, id).value, id)
      {
        ArriveTable(s, c, n, id);
      }
      hide SentOk, ReceiveOk, Recorded, AttachArrives, RxAttach, Look;
    }
  }

  lemma StepKeeps<K, C>(s: Ends<K, C>, c: C, e: Event<K>)
    requires Kept(s, c)
    ensures Kept(Step(s, c, e), c)
  {
    hide Kept, AttachArrives, Allocated;
    match e
    case Take(k, i) => TakeKeeps(s, c, k, i);
    case Leave(id) => LeaveKeeps(s, c, id);
    case SendAttach(id) => if id in s.using { PutKeeps(s, c, id, true); }
    case SendData(id) => if id in s.using && s.using[id].acked { PutKeeps(s, c, id, false); }
    case Acked(n) => AckedKeeps(s, c, n);
    case ClearRx(k, i) =>
      if k in s.peer.streams && i < |s.peer.streams[k].rxSlots| && !s.peer.failed { ClearRxKeeps(s, c, k, i); }
    case Arrive(n) =>
      if n in s.sent && !s.peer.failed {
        if s.sent[n].attach { ArriveKeeps(s, c, n); } else { DataKeeps(s, c, n); }
      }
  }

  lemma {:induction false} RunKeeps<K, C>(held: set<nat>, stops: bool, peer: Layer<K, C>, c: C, events: seq<Event<K>>)
    requires FreshPeer(peer, c, held)
    ensures Kept(Play(Begin(held, stops, peer), c, events), c)
    decreases |events|
  {
    if events != [] {
      hide Kept, Step, FreshPeer;
      RunKeeps(held, stops, peer, c, events[..|events| - 1]);
      StepKeeps(Play(Begin(held, stops, peer), c, events[..|events| - 1]), c, events[|events| - 1]);
    }
  }

  // ---------------------------------------------------------------- when data goes astray

  /**
   Whatever arrives in whatever order, and however often ids are used again: a packet looked up by its id reaches
   another stream than its own if and only if the entry under the id is another stream's and the attach packet it
   records was sent before the packet's own use of the id began.
   */
  lemma StraysExactly<K, C>(held: set<nat>, stops: bool, peer: Layer<K, C>, c: C, events: seq<Event<K>>, n: nat)
    requires FreshPeer(peer, c, held)
    requires var s := Play(Begin(held, stops, peer), c, events); n in s.sent && !s.peer.failed
    ensures var s := Play(Begin(held, stops, peer), c, events);
            var p, e := s.sent[n], Look(s.peer, c, s.sent[n].id);
            && (e.Some? ==> Recorded(s.sent, e.value, p.id))
            && (Receiver(s.peer, c, p.id, n) !in {None, Some(p.owner)} <==>
                  e.Some? && e.value.owner != p.owner && e.value.seqNo < p.since)
  {
    RunKeeps(held, stops, peer, c, events);
    var s := Play(Begin(held, stops, peer), c, events);
    hide Play, Look, ReceiveOk;
    var p, e := s.sent[n], Look(s.peer, c, s.sent[n].id);
    if e.Some? {
      assert Recorded(s.sent, e.value, p.id);
      assert Apart(s.sent, n, e.value.seqNo) && Apart(s.sent, e.value.seqNo, n);
    }
  }

  // ---------------------------------------------------------------- ids that do not come round

  lemma {:induction false} FreeCounterWithin<V>(taken: map<nat, V>, sid: nat, tries: int)
    ensures FreeCounter(taken, sid, tries).Some? ==>
              FreeCounter(taken, sid, tries).value <= sid + if tries > 0 then tries else 0
    decreases if tries > 0 then tries else 0
  {
    if Sid16(sid) in taken && tries > 0 { FreeCounterWithin(taken, sid + 1, tries - 1); }
  }

  /** With id 0 held and the search at an end where it gives up, the counter never gets past the ids. */
  lemma AllocatedWithin<K, C>(s: Ends<K, C>)
    requires s.stops && 0 in s.held && s.counter <= 0x1_0000
    ensures Allocated(s).Some? ==> s.counter <= Allocated(s).value < 0x1_0000
  {
    FreeCounterWithin(Taken(s), s.counter, SearchBound(s.counter, 0));
    if s.counter == 0x1_0000 { assert Sid16(s.counter) == 0 && 0 in Taken(s); }
  }

  /** Every id was used once: by one stream, from one packet on. */
  ghost predicate UsedOnce<K, C>(s: Ends<K, C>) {
    && s.stops && 0 in s.held && s.counter <= 0x1_0000
    && (forall id :: id in s.using ==> id < s.counter)
    && (forall n :: n in s.sent ==> s.sent[n].id < s.counter)
    && (forall n, m :: n in s.sent && m in s.sent && s.sent[n].id == s.sent[m].id ==>
          s.sent[n].owner == s.sent[m].owner)
    && (forall n :: n in s.sent && s.sent[n].id in s.using ==> s.sent[n].owner == s.using[s.sent[n].id].owner)
  }

  lemma TakeOnce<K, C>(s: Ends<K, C>, c: C, k: K, i: nat)
    requires UsedOnce(s)
    ensures UsedOnce(Step(s, c, Take(k, i)))
  {
    AllocatedWithin(s);
    hide FreeCounter, SearchBound, Allocated;
    var t := Step(s, c, Take(k, i));
    if t != s {
      var counter := Allocated(s).value;
      assert Sid16(counter) == counter;
    }
  }

  lemma PutOnce<K, C>(s: Ends<K, C>, id: nat, attach: bool)
    requires UsedOnce(s) && id in s.using
    ensures UsedOnce(Put(s, id, attach))
  {}

  lemma StepOnce<K, C>(s: Ends<K, C>, c: C, e: Event<K>)
    requires UsedOnce(s)
    ensures UsedOnce(Step(s, c, e))
  {
    hide Allocated, RxAttach, RxClear;
    match e
    case Take(k, i) => TakeOnce(s, c, k, i);
    case SendAttach(id) => if id in s.using { PutOnce(s, id, true); }
    case SendData(id) => if id in s.using { PutOnce(s, id, false); }
    case _ =>
  }

  lemma {:induction false} RunOnce<K, C>(held: set<nat>, peer: Layer<K, C>, c: C, events: seq<Event<K>>)
    requires 0 in held
    ensures UsedOnce(Play(Begin(held, true, peer), c, events))
    decreases |events|
  {
    if events != [] {
      hide UsedOnce, Step;
      RunOnce(held, peer, c, events[..|events| - 1]);
      StepOnce(Play(Begin(held, true, peer), c, events[..|events| - 1]), c, events[|events| - 1]);
    }
  }

  /**
   With the root stream on id 0, as the source has it from the beginning, and if the fatal error of the search for
   an id is the end, no id is ever used twice and every packet reaches its own stream or none.
   */
  lemma NeverStrays<K, C>(held: set<nat>, peer: Layer<K, C>, c: C, events: seq<Event<K>>, n: nat)
    requires FreshPeer(peer, c, held) && 0 in held
    requires var s := Play(Begin(held, true, peer), c, events); n in s.sent && !s.peer.failed
    ensures var s := Play(Begin(held, true, peer), c, events);
            Receiver(s.peer, c, s.sent[n].id, n) in {None, Some(s.sent[n].owner)}
  {
    StraysExactly(held, true, peer, c, events, n);
    RunOnce(held, peer, c, events);
    hide Play, Look, FreshPeer;
  }

  // ---------------------------------------------------------------- a run in which data goes astray

  /** The packets that arrive in a run, in order. */
  ghost function Arrivals<K>(events: seq<Event<K>>): seq<nat> {
    if events == [] then []
    else
      var front, e := events[..|events| - 1], events[|events| - 1];
      if e.Arrive? then Arrivals(front) + [e.n] else Arrivals(front)
  }

  lemma PlayOn<K, C>(s: Ends<K, C>, c: C, events: seq<Event<K>>, t: Ends<K, C>, e: Event<K>, u: Ends<K, C>)
    requires Play(s, c, events) == t && Step(t, c, e) == u
    ensures Play(s, c, events + [e]) == u
    ensures Arrivals(events + [e]) == if e.Arrive? then Arrivals(events) + [e.n] else Arrivals(events)
  {
    hide Step;
    assert (events + [e])[..|events + [e]| - 1] == events;
  }

  /** A stream takes the next id, which is free, and leaves it again. */
  lemma TakesAndLeaves<K, C>(s: Ends<K, C>, c: C, events: seq<Event<K>>, t: Ends<K, C>, m: K)
    returns (more: seq<Event<K>>)
    requires Play(s, c, events) == t && t.using == map[] && t.held == {0} && 0 < t.counter < 0x1_0000
    ensures Play(s, c, more) == t.(counter := t.counter + 1) && Arrivals(more) == Arrivals(events)
  {
    assert Sid16(t.counter) == t.counter && Allocated(t) == Some(t.counter);
    var u := t.(using := map[t.counter := Use(m, 0, t.next, false)], counter := t.counter + 1);
    assert u.using - {t.counter} == map[];
    hide Play, Allocated;
    PlayOn(s, c, events, t, Take(m, 0), u);
    PlayOn(s, c, events + [Take(m, 0)], u, Leave(t.counter), t.(counter := t.counter + 1));
    more := events + [Take(m, 0)] + [Leave(t.counter)];
  }

  /** One stream after the other takes an id and leaves it, until the ids have come round. */
  lemma {:induction false} Walk<K, C>(s: Ends<K, C>, c: C, events: seq<Event<K>>, t: Ends<K, C>, m: K, left: nat)
    returns (more: seq<Event<K>>)
    requires Play(s, c, events) == t && t.using == map[] && t.held == {0}
    requires 0 < t.counter && t.counter + left <= 0x1_0000
    ensures Play(s, c, more) == t.(counter := t.counter + left) && Arrivals(more) == Arrivals(events)
    decreases left
  {
    hide Play;
    if left == 0 {
      more := events;
    } else {
      var next := TakesAndLeaves(s, c, events, t, m);
      more := Walk(s, c, next, t.(counter := t.counter + 1), m, left - 1);
    }
  }

  /** `k` has used id 1 and sent an attach packet; then the ids have come round. */
  lemma UsedBefore<K, C>(peer: Layer<K, C>, c: C, k: K, m: K) returns (events: seq<Event<K>>)
    ensures Play(Begin({0}, false, peer), c, events) ==
              Ends({0}, false, 0x1_0000, 2, map[], map[1 := Packet(1, k, 0, 1, true)], peer, {})
    ensures Arrivals(events) == []
  {
    var s0 := Begin<K, C>({0}, false, peer);
    assert Allocated(s0) == Some(1) && Sid16(1) == 1;
    var s1 := s0.(using := map[1 := Use(k, 0, 1, false)], counter := 2);
    var s2 := s1.(next := 2, sent := map[1 := Packet(1, k, 0, 1, true)]);
    var s3 := s2.(using := map[]);
    assert s2.using - {1} == map[];
    hide Allocated;
    events := [];
    PlayOn(s0, c, events, s0, Take(k, 0), s1);
    events := events + [Take(k, 0)];
    PlayOn(s0, c, events, s1, SendAttach(1), s2);
    events := events + [SendAttach(1)];
    PlayOn(s0, c, events, s2, Leave(1), s3);
    events := events + [Leave(1)];
    events := Walk(s0, c, events, s3, m, 0xfffe);
  }

  /** The search passes the id of the root stream and comes to id 1 again. */
  lemma TakesAgain<K, C>(s: Ends<K, C>, c: C, m: K)
    requires s.held == {0} && !s.stops && s.counter == 0x1_0000 && s.using == map[]
    ensures Step(s, c, Take(m, 0)) == s.(using := map[1 := Use(m, 0, s.next, false)], counter := 0x1_0002)
  {
    assert Sid16(0x1_0000) == 0 && Sid16(0x1_0001) == 1;
    assert FreeCounter(Taken(s), 0x1_0001, 0xffff) == Some(0x1_0001);
  }

  /** The table of the peer in the run below: `m` under id 1, then nobody, then `k`. */
  lemma PeerMisled<K, C>(l: Layer<K, C>, c: C, k: K, m: K)
    requires FreshPeer(l, c, {0}) && k in l.streams && m in l.streams && k != m
    requires |l.streams[k].rxSlots| > 0 && |l.streams[m].rxSlots| > 0
    requires l.streams[k].rxSlots[0].channel == None && l.streams[m].rxSlots[0].channel == None
    ensures var a := RxAttach(l, m, 0, c, 1, 2);
            && !a.failed && m in a.streams && |a.streams[m].rxSlots| > 0
            && var b := RxClear(a, m, 0);
               && !b.failed && k in b.streams && |b.streams[k].rxSlots| > 0 && c in b.channels
               && var d := RxAttach(b, k, 0, c, 1, 1);
                  !d.failed && Receiver(d, c, 1, 3) == Some(k)
  {
    var t := l.streams[m];
    var a := RxAttach(l, m, 0, c, 1, 2);
    assert a.streams[m] == t.(rxSlots := t.rxSlots[0 := RxSlot(Some(c), 1, 2)]);
    assert a.channels[c].rxSids == l.channels[c].rxSids[1 := (m, 0)] && a.streams[k] == l.streams[k];
    var b := RxClear(a, m, 0);
    assert 1 !in b.channels[c].rxSids && b.streams[k] == l.streams[k];
  }

  lemma AttachStep<K, C>(s: Ends<K, C>, c: C, n: nat)
    requires n in s.sent && s.sent[n].attach && !s.peer.failed && c in s.peer.channels
    requires s.sent[n].owner in s.peer.streams
    requires s.sent[n].slot < |s.peer.streams[s.sent[n].owner].rxSlots|
    ensures var p := s.sent[n];
            Step(s, c, Arrive(n)) ==
              s.(peer := RxAttach(s.peer, p.owner, p.slot, c, p.id, n), accepted := s.accepted + {n})
  {
    hide RxAttach;
  }

  /** `m` takes id 1; its attach packet arrives and is acknowledged, and it sends data. */
  lemma DataFollows<K, C>(s: Ends<K, C>, c: C, events: seq<Event<K>>, t: Ends<K, C>, k: K, m: K)
    returns (more: seq<Event<K>>)
    requires Play(s, c, events) == t
    requires t == Ends({0}, false, 0x1_0000, 2, map[], map[1 := Packet(1, k, 0, 1, true)], t.peer, {})
    requires !t.peer.failed && c in t.peer.channels && m in t.peer.streams && |t.peer.streams[m].rxSlots| > 0
    ensures var first, last := Packet(1, k, 0, 1, true), Packet(1, m, 0, 2, false);
            Play(s, c, more) ==
              Ends({0}, false, 0x1_0002, 4, map[1 := Use(m, 0, 2, true)],
                   map[1 := first, 2 := last.(attach := true), 3 := last], RxAttach(t.peer, m, 0, c, 1, 2), {2})
    ensures Arrivals(more) == Arrivals(events) + [2]
  {
    hide Play, RxAttach, Arrivals;
    TakesAgain(t, c, m);
    var t1 := t.(using := map[1 := Use(m, 0, 2, false)], counter := 0x1_0002);
    var t2 := t1.(next := 3, sent := t.sent[2 := Packet(1, m, 0, 2, true)]);
    AttachStep(t2, c, 2);
    var t3 := t2.(peer := RxAttach(t.peer, m, 0, c, 1, 2), accepted := {2});
    var t4 := t3.(using := map[1 := Use(m, 0, 2, true)]);
    var t5 := t4.(next := 4, sent := t2.sent[3 := Packet(1, m, 0, 2, false)]);
    UsesStep(t1, c);
    AckedStep(t3, c);
    UsesStep(t4, c);
    hide Step;
    more := events;
    PlayOn(s, c, more, t, Take(m, 0), t1);
    more := more + [Take(m, 0)];
    PlayOn(s, c, more, t1, SendAttach(1), t2);
    more := more + [SendAttach(1)];
    PlayOn(s, c, more, t2, Arrive(2), t3);
    more := more + [Arrive(2)];
    PlayOn(s, c, more, t3, Acked(2), t4);
    more := more + [Acked(2)];
    PlayOn(s, c, more, t4, SendData(1), t5);
    more := more + [SendData(1)];
  }

  lemma UsesStep<K, C>(s: Ends<K, C>, c: C)
    requires 1 in s.using
    ensures Step(s, c, SendAttach(1)) == Put(s, 1, true)
    ensures s.using[1].acked ==> Step(s, c, SendData(1)) == Put(s, 1, false)
  {}

  lemma AckedStep<K, C>(s: Ends<K, C>, c: C)
    requires 2 in s.accepted && 2 in s.sent && s.sent[2].id == 1 && 1 in s.using && s.using[1].since == 2
    ensures Step(s, c, Acked(2)) == s.(using := s.using[1 := s.using[1].(acked := true)])
  {}

  /**
   If the search for an id goes on behind the fatal error it logs, the ids come round, and the staleness test is not
   enough: the peer has cleared the slot of the newer use, the attach packet of the older one comes late and brings
   its stream back, and data of the newer use goes there. Three packets are all it takes, each arriving once.
   */
  lemma RoundStrays<K, C>(peer: Layer<K, C>, c: C, k: K, m: K) returns (events: seq<Event<K>>)
    requires FreshPeer(peer, c, {0}) && k in peer.streams && m in peer.streams && k != m
    requires |peer.streams[k].rxSlots| > 0 && |peer.streams[m].rxSlots| > 0
    requires peer.streams[k].rxSlots[0].channel == None && peer.streams[m].rxSlots[0].channel == None
    ensures Arrivals(events) == [2, 1]
    ensures var s := Play(Begin({0}, false, peer), c, events);
            && 3 in s.sent && s.sent[3].owner == m && !s.sent[3].attach && !s.peer.failed
            && Receiver(s.peer, c, s.sent[3].id, 3) == Some(k)
  {
    PeerMisled(peer, c, k, m);
    hide RxAttach, RxClear, Receiver, Play;
    var s := Begin<K, C>({0}, false, peer);
    events := UsedBefore(peer, c, k, m);
    events := DataFollows(s, c, events, Play(s, c, events), k, m);
    var a := RxAttach(peer, m, 0, c, 1, 2);
    var t := Play(s, c, events);
    var u := t.(peer := RxClear(a, m, 0));
    PlayOn(s, c, events, t, ClearRx(m, 0), u);
    events := events + [ClearRx(m, 0)];
    hide Step, Begin, FreshPeer, Arrivals;
    AttachStep(u, c, 1);
    PlayOn(s, c, events, u, Arrive(1), Step(u, c, Arrive(1)));
    events := events + [Arrive(1)];
  }

  /** So it is between a fresh host and its peer, with two streams on channel 7. */
  lemma DataGoesAstray() returns (events: seq<Event<int>>)
    ensures Arrivals(events) == [2, 1]
    ensures var s := Play(Begin({0}, false, SR.Initial(map[0 := 0, 1 := 0], {7})), 7, events);
            && 3 in s.sent && s.sent[3].owner == 1 && !s.sent[3].attach && !s.peer.failed
            && Receiver(s.peer, 7, s.sent[3].id, 3) == Some(0)
  {
    var peer: Layer<int, int> := SR.Initial(map[0 := 0, 1 := 0], {7});
    FreshHost();
    hide FreshPeer, Play, Receiver, Arrivals, SR.Initial;
    events := RoundStrays(peer, 7, 0, 1);
  }

  lemma FreshHost()
    ensures var peer: Layer<int, int> := SR.Initial(map[0 := 0, 1 := 0], {7});
            && FreshPeer(peer, 7, {0}) && 0 in peer.streams && 1 in peer.streams
            && |peer.streams[0].rxSlots| > 0 && |peer.streams[1].rxSlots| > 0
            && peer.streams[0].rxSlots[0].channel == None && peer.streams[1].rxSlots[0].channel == None
  {
    var peer: Layer<int, int> := SR.Initial(map[0 := 0, 1 := 0], {7});
    SR.InitialHealthy<int, int>(map[0 := 0, 1 := 0], {7});
    hide ReceiveOk;
    assert peer.streams[0] == SR.FreshStream(0) && peer.streams[1] == SR.FreshStream(0);
    assert peer.channels[7] == SR.FreshChannel();
  }
}
