/** A channel going down: stop and detach_all clear every attachment and return every packet to its stream. */
module StreamTeardown {
  import opened Options
  import opened StreamLayer
  import opened StreamInvariants
  import opened StreamOps
  import opened StreamAttach
  import opened StreamHomes

  ghost predicate DistinctSids(walk: seq<SidWalk>) {
    forall i, j :: 0 <= i < j < |walk| ==> walk[i].sid != walk[j].sid
  }

  /** The ids still to be cleared are in the table as they were copied. */
  ghost predicate StillListed<K, C>(l: Layer<K, C>, c: C, copy: map<nat, (K, nat)>, walk: seq<SidWalk>) {
    && c in l.channels && DistinctSids(walk)
    && forall w :: w in walk ==> w.sid in copy && w.sid in l.channels[c].txSids && l.channels[c].txSids[w.sid] == copy[w.sid]
  }

  /** Each clear walks the packets the channel holds at that time. */
  ghost predicate Walkable<K, C>(l: Layer<K, C>, c: C, copy: map<nat, (K, nat)>, walk: seq<SidWalk>)
    requires forall w :: w in walk ==> w.sid in copy
    decreases |walk|
  {
    walk == [] ||
    var (k, i) := copy[walk[0].sid];
    && l.On(k, i, c) && c in l.channels && Walks(walk[0].order, l.channels[c].waitingAck)
    && Walkable(Clear(l, k, i, walk[0].order), c, copy, walk[1..])
  }

  ghost function Sids(walk: seq<SidWalk>): set<nat> {
    set w | w in walk :: w.sid
  }

  lemma SidsStep(walk: seq<SidWalk>)
    requires walk != [] && DistinctSids(walk)
    ensures Sids(walk) == {walk[0].sid} + Sids(walk[1..]) && DistinctSids(walk[1..])
    ensures forall w :: w in walk[1..] ==> w in walk && w.sid != walk[0].sid
  {
    assert walk == [walk[0]] + walk[1..];
  }

  lemma ListedSlot<K, C>(l: Layer<K, C>, c: C, sid: nat)
    requires Inv(l) && c in l.channels && sid in l.channels[c].txSids
    ensures var (k, i) := l.channels[c].txSids[sid];
            l.On(k, i, c) && l.streams[k].slots[i].sid == sid && l.Current(k) == Some(c)
  {
    var (k, i) := l.channels[c].txSids[sid];
    assert SidAgrees(l, c, sid);
    assert SlotsOk(l.streams[k]);
  }

  /** What a pass over the id table leaves of channel `c`. */
  ghost predicate Swept<K, C>(l: Layer<K, C>, r: Layer<K, C>, c: C, gone: set<nat>) {
    && c in l.channels && c in r.channels && Advanced(l, r)
    && r.channels[c].txSids == l.channels[c].txSids - gone && r.channels[c].rxSids == l.channels[c].rxSids
  }

  lemma ClearListed<K, C>(l: Layer<K, C>, c: C, sid: nat, order: seq<nat>)
    requires Inv(l) && Homed(l) && ReceiveOk(l) && c in l.channels && sid in l.channels[c].txSids
    requires Walks(order, l.channels[c].waitingAck)
    ensures var (k, i) := l.channels[c].txSids[sid];
            && l.On(k, i, c)
            && Inv(Clear(l, k, i, order)) && Homed(Clear(l, k, i, order)) && ReceiveOk(Clear(l, k, i, order))
            && Swept(l, Clear(l, k, i, order), c, {sid})
  {
    hide Inv, Homed, ReceiveOk;
    var (k, i) := l.channels[c].txSids[sid];
    ListedSlot(l, c, sid);
    ClearAnyKeeps(l, k, i, order);
    ClearHomes(l, k, i, order, c);
  }

  lemma SweptListed<K, C>(l: Layer<K, C>, r: Layer<K, C>, c: C, copy: map<nat, (K, nat)>, walk: seq<SidWalk>)
    requires walk != [] && StillListed(l, c, copy, walk) && Swept(l, r, c, {walk[0].sid})
    ensures StillListed(r, c, copy, walk[1..])
  {
    SidsStep(walk);
  }

  lemma SweptThen<K, C>(a: Layer<K, C>, b: Layer<K, C>, d: Layer<K, C>, c: C, first: set<nat>, later: set<nat>)
    requires Swept(a, b, c, first) && Swept(b, d, c, later)
    ensures Swept(a, d, c, first + later)
  {
    assert a.channels[c].txSids - first - later == a.channels[c].txSids - (first + later);
  }

  lemma {:induction false} ClearSidsKeep<K, C>(l: Layer<K, C>, c: C, copy: map<nat, (K, nat)>, walk: seq<SidWalk>)
    requires Inv(l) && Homed(l) && ReceiveOk(l) && StillListed(l, c, copy, walk) && Walkable(l, c, copy, walk)
    ensures Inv(ClearSids(l, c, copy, walk)) && Homed(ClearSids(l, c, copy, walk))
    ensures ReceiveOk(ClearSids(l, c, copy, walk))
    ensures Swept(l, ClearSids(l, c, copy, walk), c, Sids(walk))
    decreases |walk|
  {
    hide Inv, Homed, ReceiveOk;
    if walk == [] {
      assert Sids(walk) == {};
      assert l.channels[c].txSids - {} == l.channels[c].txSids;
    } else {
      hide Clear, Walks, Sids, Swept;
      var (k, i) := copy[walk[0].sid];
      ClearListed(l, c, walk[0].sid, walk[0].order);
      SidsStep(walk);
      var r := Clear(l, k, i, walk[0].order);
      SweptListed(l, r, c, copy, walk);
      ClearSidsKeep(r, c, copy, walk[1..]);
      SweptThen(l, r, ClearSids(r, c, copy, walk[1..]), c, {walk[0].sid}, Sids(walk[1..]));
    }
  }

  lemma RxClearListed<K, C>(l: Layer<K, C>, c: C, sid: nat)
    requires !l.failed && ReceiveOk(l) && c in l.channels && sid in l.channels[c].rxSids
    ensures var (k, i) := l.channels[c].rxSids[sid];
            && k in l.streams && i < |l.streams[k].rxSlots| && l.streams[k].rxSlots[i].channel == Some(c)
            && ReceiveOk(RxClear(l, k, i)) && !RxClear(l, k, i).failed && OnlyReceive(l, RxClear(l, k, i))
            && c in RxClear(l, k, i).channels && RxClear(l, k, i).channels[c].rxSids == l.channels[c].rxSids - {sid}
  {
    var (k, i) := l.channels[c].rxSids[sid];
    assert RxSlotHas(l, c, sid);
    hide ReceiveOk, OnlyReceive;
    RxClearKeeps(l, k, i);
    RxClearOnly(l, k, i);
  }

  /** The receive ids still to be cleared are in the table as they were copied. */
  ghost predicate RxStillListed<K, C>(l: Layer<K, C>, c: C, copy: map<nat, (K, nat)>, walk: seq<nat>) {
    && c in l.channels && (forall i, j :: 0 <= i < j < |walk| ==> walk[i] != walk[j])
    && forall sid :: sid in walk ==> sid in copy && sid in l.channels[c].rxSids && l.channels[c].rxSids[sid] == copy[sid]
  }

  ghost function Members(walk: seq<nat>): set<nat> {
    set n | n in walk
  }

  lemma RxWalkStep<K, C>(l: Layer<K, C>, r: Layer<K, C>, c: C, copy: map<nat, (K, nat)>, walk: seq<nat>)
    requires walk != [] && RxStillListed(l, c, copy, walk)
    requires c in r.channels && r.channels[c].rxSids == l.channels[c].rxSids - {walk[0]}
    ensures Members(walk) == {walk[0]} + Members(walk[1..]) && RxStillListed(r, c, copy, walk[1..])
  {
    assert walk == [walk[0]] + walk[1..];
    assert forall n :: n in walk[1..] ==> n in walk && n != walk[0];
  }

  lemma RxListedHead<K, C>(l: Layer<K, C>, c: C, copy: map<nat, (K, nat)>, walk: seq<nat>)
    requires walk != [] && RxStillListed(l, c, copy, walk)
    ensures c in l.channels && walk[0] in l.channels[c].rxSids && walk[0] in copy
    ensures l.channels[c].rxSids[walk[0]] == copy[walk[0]]
    ensures forall sid :: sid in walk ==> sid in copy
  {}

  lemma RxNothingCleared<K, C>(l: Layer<K, C>, c: C, copy: map<nat, (K, nat)>)
    requires RxStillListed(l, c, copy, [])
    ensures OnlyReceive(l, l) && c in l.channels && l.channels[c].rxSids - Members([]) == l.channels[c].rxSids
  {}

  lemma {:induction false} RxClearSidsKeep<K, C>(l: Layer<K, C>, c: C, copy: map<nat, (K, nat)>, walk: seq<nat>)
    requires !l.failed && ReceiveOk(l) && RxStillListed(l, c, copy, walk)
    ensures ReceiveOk(RxClearSids(l, c, copy, walk)) && !RxClearSids(l, c, copy, walk).failed
    ensures OnlyReceive(l, RxClearSids(l, c, copy, walk)) && c in RxClearSids(l, c, copy, walk).channels
    ensures RxClearSids(l, c, copy, walk).channels[c].rxSids == l.channels[c].rxSids - Members(walk)
    decreases |walk|
  {
    hide ReceiveOk, OnlyReceive, RxClear, Members, RxStillListed;
    if walk == [] {
      RxNothingCleared(l, c, copy);
    } else {
      RxListedHead(l, c, copy, walk);
      var (k, i) := copy[walk[0]];
      RxClearListed(l, c, walk[0]);
      var r := RxClear(l, k, i);
      RxWalkStep(l, r, c, copy, walk);
      RxClearSidsKeep(r, c, copy, walk[1..]);
      OnlyThen(l, r, RxClearSids(l, c, copy, walk));
      assert l.channels[c].rxSids - {walk[0]} - Members(walk[1..]) == l.channels[c].rxSids - Members(walk);
    }
  }

  /** Nothing refers to the channel any more. */
  ghost predicate Dead<K, C>(l: Layer<K, C>, c: C) {
    && c in l.channels
    && l.channels[c].txSids == map[] && l.channels[c].waitingAck == map[] && l.channels[c].sending == []
    && (forall k, i :: k in l.streams && 0 <= i < |l.streams[k].slots| ==> l.streams[k].slots[i].channel != Some(c))
    && (forall k :: k in l.streams ==> l.Current(k) != Some(c))
  }

  lemma SlotListed<K, C>(l: Layer<K, C>, k: K, i: nat)
    requires Inv(l) && k in l.streams && i < |l.streams[k].slots| && l.streams[k].slots[i].InUse()
    ensures var c := l.streams[k].slots[i].channel.value; c in l.channels && l.channels[c].txSids != map[]
  {
    assert SlotAgrees(l, k, i);
  }

  lemma NoSlotLeft<K, C>(l: Layer<K, C>, c: C, k: K, i: nat)
    requires Inv(l) && c in l.channels && l.channels[c].txSids == map[] && k in l.streams && i < |l.streams[k].slots|
    ensures l.streams[k].slots[i].channel != Some(c)
  {
    hide Inv;
    if l.streams[k].slots[i].InUse() { SlotListed(l, k, i); }
  }

  lemma LineListed<K, C>(l: Layer<K, C>, c: C)
    requires Inv(l) && c in l.channels && l.channels[c].sending != []
    ensures l.channels[c].txSids != map[]
  {
    assert LineOk(l, c);
    var k := l.channels[c].sending[0];
    SlotListed(l, k, l.streams[k].current.value);
  }

  lemma PacketListed<K, C>(l: Layer<K, C>, c: C)
    requires Inv(l) && Homed(l) && c in l.channels && l.channels[c].waitingAck != map[]
    ensures l.channels[c].txSids != map[]
  {
    hide Inv;
    var n :| n in l.channels[c].waitingAck;
    assert HomedAt(l, c, n);
    var k := l.channels[c].waitingAck[n].owner;
    SlotListed(l, k, l.streams[k].current.value);
  }

  /** Once the id table is empty, no stream is attached and no packet is left. */
  lemma EmptyTableIsDead<K, C>(l: Layer<K, C>, c: C)
    requires Inv(l) && Homed(l) && c in l.channels && l.channels[c].txSids == map[]
    ensures Dead(l, c)
  {
    hide Inv, Homed;
    if l.channels[c].sending != [] { LineListed(l, c); }
    if l.channels[c].waitingAck != map[] { PacketListed(l, c); }
    forall k, i | k in l.streams && 0 <= i < |l.streams[k].slots| ensures l.streams[k].slots[i].channel != Some(c) {
      NoSlotLeft(l, c, k, i);
    }
  }

  /** The walk names every id in the table once. */
  ghost predicate WalksAll<K, C>(l: Layer<K, C>, c: C, walk: seq<SidWalk>)
    requires c in l.channels
  {
    DistinctSids(walk) && (forall w :: w in walk ==> w.sid in l.channels[c].txSids)
    && (forall sid :: sid in l.channels[c].txSids ==> sid in Sids(walk))
  }

  /**
   After stop both tables are empty, no packet awaits acknowledgment, no stream is in line or attached, and
   every unacknowledged segment is still held.
   */
  lemma StopEmpties<K, C>(l: Layer<K, C>, c: C, walk: seq<SidWalk>, rxWalk: seq<nat>)
    requires Inv(l) && Homed(l) && ReceiveOk(l) && c in l.channels
    requires WalksAll(l, c, walk) && Walkable(l, c, l.channels[c].txSids, walk) && Walks(rxWalk, l.channels[c].rxSids)
    ensures Inv(Stop(l, c, walk, rxWalk)) && Homed(Stop(l, c, walk, rxWalk)) && ReceiveOk(Stop(l, c, walk, rxWalk))
    ensures Dead(Stop(l, c, walk, rxWalk), c) && Stop(l, c, walk, rxWalk).channels[c].rxSids == map[]
    ensures Advanced(l, Stop(l, c, walk, rxWalk))
  {
    hide Inv, Homed, ReceiveOk, ClearSids, RxClearSids, OnlyReceive, Dead, Advanced, Walkable, Members;
    var r := ClearSids(l, c, l.channels[c].txSids, walk);
    ClearSidsKeep(l, c, l.channels[c].txSids, walk);
    assert r.channels[c].txSids == map[];
    NotFailed(r);
    RxWalkAll(r, c, rxWalk);
    RxClearSidsKeep(r, c, r.channels[c].rxSids, rxWalk);
    var q := RxClearSids(r, c, r.channels[c].rxSids, rxWalk);
    assert q.channels[c].rxSids == map[];
    OnlyReceiveKeeps(r, q);
    OnlyReceiveCounters(r, q);
    AdvancedThen(l, r, q);
    EmptyTableIsDead(q, c);
  }

  lemma RxWalkAll<K, C>(l: Layer<K, C>, c: C, walk: seq<nat>)
    requires c in l.channels && Walks(walk, l.channels[c].rxSids)
    ensures RxStillListed(l, c, l.channels[c].rxSids, walk)
    ensures l.channels[c].rxSids - Members(walk) == map[]
  {}

  lemma NotFailed<K, C>(l: Layer<K, C>)
    requires Inv(l)
    ensures !l.failed
  {}

  lemma OnlyReceiveCounters<K, C>(l: Layer<K, C>, r: Layer<K, C>)
    requires OnlyReceive(l, r)
    ensures Advanced(l, r)
    ensures forall c :: c in l.channels ==> r.channels[c].txSids == l.channels[c].txSids
  {}

  // ---------------------------------------------------------------- detach_all

  /** The layer with `pending` in the table of `c`: the packets detach_all holds aside belong there. */
  ghost function Restore<K, C>(l: Layer<K, C>, c: C, pending: map<nat, Frame<K>>): Layer<K, C>
    requires c in l.channels
  {
    l.SetChannel(c, l.channels[c].(waitingAck := pending))
  }

  /** With the packets aside, clear comes down to taking the attachment off the tables. */
  lemma ClearAside<K, C>(l: Layer<K, C>, k: K, i: nat, c: C, pending: map<nat, Frame<K>>)
    requires k in l.streams && i < |l.streams[k].slots| && l.streams[k].slots[i].channel == Some(c)
    requires c in l.channels && l.channels[c].waitingAck == map[]
    ensures Clear(l, k, i, []) == Unlink(l, k, i) && c in Unlink(l, k, i).channels
    ensures Unlink(l, k, i).channels[c].waitingAck == map[]
    ensures Restore(Unlink(l, k, i), c, pending) == Unlink(Restore(l, c, pending), k, i)
  {
    assert Walks([], l.channels[c].waitingAck);
  }

  /** Owners of the packets held aside are attached to `c` or to nothing. */
  ghost predicate OwnersHere<K, C>(l: Layer<K, C>, c: C, pending: map<nat, Frame<K>>) {
    forall n :: n in pending ==>
      pending[n].owner in l.streams && (l.Current(pending[n].owner) == None || l.Current(pending[n].owner) == Some(c))
  }

  lemma UnlinkTable<K, C>(l: Layer<K, C>, k: K, i: nat, c: C, pending: map<nat, Frame<K>>)
    requires k in l.streams && i < |l.streams[k].slots| && l.streams[k].slots[i].channel == Some(c) && c in l.channels
    requires l.Current(k) == Some(c) && SlotsOk(l.streams[k]) && OwnersHere(l, c, pending)
    ensures Swept(l, Unlink(l, k, i), c, {l.streams[k].slots[i].sid}) && OwnersHere(Unlink(l, k, i), c, pending)
  {
    var r := Unlink(l, k, i);
    forall m | m in l.streams && m != k ensures r.Current(m) == l.Current(m) {}
    assert r.Current(k) == None;
  }

  lemma SlotsFactInv<K, C>(l: Layer<K, C>, k: K)
    requires Inv(l) && k in l.streams
    ensures SlotsOk(l.streams[k])
  {}

  lemma NothingToWalk<V>(order: seq<nat>, nothing: map<nat, V>)
    requires Walks(order, nothing) && nothing == map[]
    ensures order == []
  {
    if order != [] { HeadIn(order); }
  }

  lemma HeadIn<T>(s: seq<T>)
    requires s != []
    ensures s[0] in s
  {}

  lemma ClearListedAside<K, C>(l: Layer<K, C>, c: C, sid: nat, pending: map<nat, Frame<K>>)
    requires c in l.channels && sid in l.channels[c].txSids
    requires l.channels[c].waitingAck == map[] && Inv(Restore(l, c, pending)) && OwnersHere(l, c, pending)
    requires Homed(l) && ReceiveOk(l)
    ensures var (k, i) := l.channels[c].txSids[sid];
            && l.On(k, i, c)
            && c in Clear(l, k, i, []).channels && Clear(l, k, i, []).channels[c].waitingAck == map[]
            && Inv(Restore(Clear(l, k, i, []), c, pending)) && OwnersHere(Clear(l, k, i, []), c, pending)
            && Swept(l, Clear(l, k, i, []), c, {sid}) && Homed(Clear(l, k, i, [])) && ReceiveOk(Clear(l, k, i, []))
  {
    hide Inv, OwnersHere, Homed, ReceiveOk;
    var (k, i) := l.channels[c].txSids[sid];
    var whole := Restore(l, c, pending);
    ListedSlot(whole, c, sid);
    ClearAside(l, k, i, c, pending);
    UnlinkKeeps(whole, k, i);
    SlotsFactInv(whole, k);
    UnlinkTable(l, k, i, c, pending);
    UnlinkHomes(l, k, i, c);
  }

  lemma UnlinkHomes<K, C>(l: Layer<K, C>, k: K, i: nat, c: C)
    requires Homed(l) && ReceiveOk(l) && k in l.streams && i < |l.streams[k].slots| && c in l.channels
    requires l.streams[k].slots[i].channel == Some(c) && l.Current(k) == Some(c) && SlotsOk(l.streams[k])
    requires l.channels[c].waitingAck == map[]
    ensures Homed(Unlink(l, k, i)) && ReceiveOk(Unlink(l, k, i))
  {
    hide Homed, ReceiveOk;
    ReturnedHomes(l, k, i, c, l.streams[k].queue, {});
    var u := Unlink(l, k, i);
    assert u.channels[c].waitingAck - {} == u.channels[c].waitingAck;
    assert Returned(u, c, k, l.streams[k].queue, {}) == u;
  }

  lemma {:induction false} ClearSidsAside<K, C>(
      l: Layer<K, C>, c: C, copy: map<nat, (K, nat)>, walk: seq<SidWalk>, pending: map<nat, Frame<K>>)
    requires StillListed(l, c, copy, walk) && Walkable(l, c, copy, walk)
    requires l.channels[c].waitingAck == map[] && Inv(Restore(l, c, pending)) && OwnersHere(l, c, pending)
    requires Homed(l) && ReceiveOk(l)
    ensures Homed(ClearSids(l, c, copy, walk)) && ReceiveOk(ClearSids(l, c, copy, walk))
    ensures c in ClearSids(l, c, copy, walk).channels && ClearSids(l, c, copy, walk).channels[c].waitingAck == map[]
    ensures Inv(Restore(ClearSids(l, c, copy, walk), c, pending)) && OwnersHere(ClearSids(l, c, copy, walk), c, pending)
    ensures Swept(l, ClearSids(l, c, copy, walk), c, Sids(walk))
    decreases |walk|
  {
    hide Inv, OwnersHere, Homed, ReceiveOk;
    if walk == [] {
      assert Sids(walk) == {};
      assert l.channels[c].txSids - {} == l.channels[c].txSids;
    } else {
      var (k, i) := copy[walk[0].sid];
      NothingToWalk(walk[0].order, l.channels[c].waitingAck);
      ClearListedAside(l, c, walk[0].sid, pending);
      hide Clear, Walks, Swept;
      SidsStep(walk);
      var r := Clear(l, k, i, []);
      SweptListed(l, r, c, copy, walk);
      ClearSidsAside(r, c, copy, walk[1..], pending);
      SweptThen(l, r, ClearSids(r, c, copy, walk[1..]), c, {walk[0].sid}, Sids(walk[1..]));
    }
  }

  /** Returning one packet that was held aside. */
  lemma GiveBackAside<K, C>(l: Layer<K, C>, c: C, pending: map<nat, Frame<K>>, n: nat)
    requires c in l.channels && l.channels[c].waitingAck == map[] && Inv(Restore(l, c, pending))
    requires n in pending && pending[n].owner in l.streams && l.Current(pending[n].owner) == None
    ensures c in GiveBack(l, pending[n]).channels && GiveBack(l, pending[n]).channels[c] == l.channels[c]
    ensures Inv(Restore(GiveBack(l, pending[n]), c, pending - {n}))
    ensures GiveBack(l, pending[n]).streams.Keys == l.streams.Keys && GiveBack(l, pending[n]).channels == l.channels
    ensures forall k :: k in l.streams ==> GiveBack(l, pending[n]).Current(k) == l.Current(k)
    ensures Carries(l, GiveBack(l, pending[n]))
  {
    hide Inv, Carries;
    var f, whole := pending[n], Restore(l, c, pending);
    EntryFacts(whole, c, n);
    GiveBackDetached(l, f);
    GiveBackDetached(whole, f);
    ReturnKeeps(whole, c, n);
    CarriesSelf(l);
    if f.kind == Data { StreamCarries(l, f.owner, GiveBack(l, f).streams[f.owner]); }
    assert Restore(GiveBack(l, f), c, pending - {n}) == Forget(GiveBack(whole, f), c, {n});
  }

  lemma {:induction false} GiveAllAside<K, C>(
      l: Layer<K, C>, c: C, copy: map<nat, Frame<K>>, pending: map<nat, Frame<K>>, order: seq<nat>)
    requires c in l.channels && l.channels[c].waitingAck == map[] && Inv(Restore(l, c, pending))
    requires Walks(order, pending) && (forall n :: n in order ==> n in copy && copy[n] == pending[n])
    requires forall n :: n in pending ==> pending[n].owner in l.streams && l.Current(pending[n].owner) == None
    requires Homed(l) && ReceiveOk(l)
    ensures Inv(GiveAllBack(l, copy, order)) && GiveAllBack(l, copy, order).channels == l.channels
    ensures Homed(GiveAllBack(l, copy, order)) && ReceiveOk(GiveAllBack(l, copy, order))
    decreases |order|
  {
    hide Inv, Homed, ReceiveOk, Carries;
    if order == [] {
      assert pending.Keys == {};
      assert Restore(l, c, pending) == l;
    } else {
      var n := order[0];
      GiveBackAside(l, c, pending, n);
      CarriesHome(l, GiveBack(l, pending[n]));
      assert order == [n] + order[1..];
      assert Walks(order[1..], pending - {n}) by {
        assert forall m :: m in order[1..] ==> m in order && m != n;
      }
      GiveAllAside(GiveBack(l, copy[n]), c, copy, pending - {n}, order[1..]);
    }
  }

  lemma OwnersAtHome<K, C>(l: Layer<K, C>, c: C)
    requires Homed(l) && c in l.channels
    ensures OwnersHere(Restore(l, c, map[]), c, l.channels[c].waitingAck)
  {
    forall n | n in l.channels[c].waitingAck
      ensures l.channels[c].waitingAck[n].owner in l.streams && l.Current(l.channels[c].waitingAck[n].owner) == Some(c)
    {
      assert HomedAt(l, c, n);
    }
  }

  lemma AsideHomes<K, C>(l: Layer<K, C>, c: C)
    requires Homed(l) && ReceiveOk(l) && c in l.channels
    ensures Homed(Restore(l, c, map[])) && ReceiveOk(Restore(l, c, map[]))
  {
    hide Homed, ReceiveOk, Carries;
    ChannelCarries(l, c, Restore(l, c, map[]).channels[c]);
    CarriesHome(l, Restore(l, c, map[]));
  }

  lemma SidsCovered<K, C>(l: Layer<K, C>, c: C, walk: seq<SidWalk>)
    requires c in l.channels && WalksAll(l, c, walk)
    ensures StillListed(Restore(l, c, map[]), c, l.channels[c].txSids, walk)
    ensures forall w :: w in walk ==> w.sid in l.channels[c].txSids
    ensures l.channels[c].txSids - Sids(walk) == map[]
  {}

  lemma OwnersDetached<K, C>(l: Layer<K, C>, c: C, pending: map<nat, Frame<K>>)
    requires c in l.channels && Inv(Restore(l, c, pending)) && OwnersHere(l, c, pending)
    requires l.channels[c].txSids == map[]
    ensures forall n :: n in pending ==> pending[n].owner in l.streams && l.Current(pending[n].owner) == None
  {
    hide Inv;
    var whole := Restore(l, c, pending);
    forall n | n in pending ensures pending[n].owner in l.streams && l.Current(pending[n].owner) == None {
      var k := pending[n].owner;
      assert l.Current(k) == whole.Current(k);
      if l.Current(k) == Some(c) { NoSlotLeft(whole, c, k, l.streams[k].current.value); }
    }
  }

  /**
   detach_all empties the packet table before it detaches anyone, so packets are in nobody's care for a
   while; at the end every one is back with its stream, and the assertion about the id table holds.
   */
  lemma DetachAllKeeps<K, C>(l: Layer<K, C>, c: C, walk: seq<SidWalk>, order: seq<nat>)
    requires Inv(l) && Homed(l) && ReceiveOk(l)
    requires c in l.channels && WalksAll(l, c, walk) && Walks(order, l.channels[c].waitingAck)
    requires Walkable(Restore(l, c, map[]), c, l.channels[c].txSids, walk)
    ensures Inv(DetachAll(l, c, walk, order))
    ensures c in DetachAll(l, c, walk, order).channels
    ensures DetachAll(l, c, walk, order).channels[c].txSids == map[]
    ensures DetachAll(l, c, walk, order).channels[c].waitingAck == map[]
    ensures Advanced(l, DetachAll(l, c, walk, order))
    ensures Homed(DetachAll(l, c, walk, order)) && ReceiveOk(DetachAll(l, c, walk, order))
  {
    hide Inv, Homed, ReceiveOk, ClearSids, GiveAllBack, Walkable, SentKept;
    var r := ClearSids(Restore(l, c, map[]), c, l.channels[c].txSids, walk);
    AllCleared(l, c, walk);
    GiveAllAside(r, c, l.channels[c].waitingAck, l.channels[c].waitingAck, order);
    assert r.Check(true) == r;
  }

  lemma EmptySetAside<K, C>(l: Layer<K, C>, c: C)
    requires c in l.channels
    ensures c in Restore(l, c, map[]).channels && Restore(l, c, map[]).channels[c].waitingAck == map[]
    ensures Restore(l, c, map[]).channels[c].txSids == l.channels[c].txSids
    ensures Restore(Restore(l, c, map[]), c, l.channels[c].waitingAck) == l
  {}

  /** With all ids gone over, the table is empty; setting packets aside took none off the wire. */
  lemma SweptAll<K, C>(l: Layer<K, C>, r: Layer<K, C>, c: C, sids: set<nat>)
    requires c in l.channels && Swept(Restore(l, c, map[]), r, c, sids) && l.channels[c].txSids - sids == map[]
    ensures c in r.channels && r.channels[c].txSids == map[] && Advanced(l, r)
  {}

  /** After the first loop of detach_all: nobody is attached, and only the packets held aside are missing. */
  lemma AllCleared<K, C>(l: Layer<K, C>, c: C, walk: seq<SidWalk>)
    requires Inv(l) && Homed(l) && ReceiveOk(l) && c in l.channels && WalksAll(l, c, walk)
    requires Walkable(Restore(l, c, map[]), c, l.channels[c].txSids, walk)
    ensures (forall w :: w in walk ==> w.sid in l.channels[c].txSids)
    ensures var r := ClearSids(Restore(l, c, map[]), c, l.channels[c].txSids, walk);
            && c in r.channels && r.channels[c].txSids == map[] && r.channels[c].waitingAck == map[]
            && Inv(Restore(r, c, l.channels[c].waitingAck)) && Homed(r) && ReceiveOk(r) && Advanced(l, r)
            && (forall n :: n in l.channels[c].waitingAck ==>
                  l.channels[c].waitingAck[n].owner in r.streams && r.Current(l.channels[c].waitingAck[n].owner) == None)
  {
    hide Inv, Homed, ReceiveOk, OwnersHere, ClearSids, Walkable, Sids, StillListed, WalksAll, Advanced, Swept, Restore;
    var e, pending, copy := Restore(l, c, map[]), l.channels[c].waitingAck, l.channels[c].txSids;
    OwnersAtHome(l, c);
    AsideHomes(l, c);
    EmptySetAside(l, c);
    SidsCovered(l, c, walk);
    ClearSidsAside(e, c, copy, walk, pending);
    SweptAll(l, ClearSids(e, c, copy, walk), c, Sids(walk));
    OwnersDetached(ClearSids(e, c, copy, walk), c, pending);
  }
}
