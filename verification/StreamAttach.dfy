/** Priorities and attachments: set_priority, set_attaching, clear and the loops that clear whole channels. */
module StreamAttach {
  import opened Options
  import opened StreamLayer
  import opened StreamInvariants
  import opened StreamSteps
  import opened StreamOps

  // ---------------------------------------------------------------- leaving the line

  lemma {:induction false} WithoutMembers<K>(line: seq<K>, k: K, m: K)
    ensures m in Without(line, k) <==> m in line && m != k
  {
    if line != [] {
      WithoutMembers(line[1..], k, m);
      assert line == [line[0]] + line[1..];
    }
  }

  /** dequeue_stream keeps the order of the others. */
  lemma {:induction false} WithoutAscending<K, C>(l: Layer<K, C>, line: seq<K>, k: K)
    requires Ascending(l, line)
    ensures Ascending(l, Without(line, k))
  {
    if line != [] {
      var rest := Without(line[1..], k);
      WithoutAscending(l, line[1..], k);
      forall i | 0 <= i < |rest| ensures l.streams[line[0]].priority <= l.streams[rest[i]].priority {
        WithoutMembers(line[1..], k, rest[i]);
      }
    }
  }

  lemma {:induction false} WithoutDistinct<K>(line: seq<K>, k: K)
    requires Distinct(line)
    ensures Distinct(Without(line, k))
  {
    if line != [] {
      var rest := Without(line[1..], k);
      WithoutDistinct(line[1..], k);
      forall i | 0 <= i < |rest| ensures rest[i] != line[0] {
        WithoutMembers(line[1..], k, rest[i]);
      }
    }
  }

  /** Only `k` changed, and it left the line of `c`, the only line it could be in. */
  ghost predicate LeftLine<K, C>(l: Layer<K, C>, r: Layer<K, C>, c: C, k: K) {
    && k in l.streams && c in l.channels
    && r.streams.Keys == l.streams.Keys && r.channels.Keys == l.channels.Keys
    && (forall m :: m in l.streams && m != k ==> SameStanding(l, r, m) && r.streams[m].queue == l.streams[m].queue)
    && !r.streams[k].enqueued
    && (forall d :: d in l.channels && d != c ==>
          k !in l.channels[d].sending && r.channels[d].sending == l.channels[d].sending)
    && r.channels[c].sending == Without(l.channels[c].sending, k)
  }

  lemma LineLeft<K, C>(l: Layer<K, C>, r: Layer<K, C>, c: C, k: K)
    requires LeftLine(l, r, c, k) && LineOk(l, c)
    ensures LineOk(r, c)
  {
    var line, rest := l.channels[c].sending, Without(l.channels[c].sending, k);
    WithoutAscending(l, line, k);
    WithoutDistinct(line, k);
    forall i | 0 <= i < |rest| ensures rest[i] in line && SameStanding(l, r, rest[i]) {
      WithoutMembers(line, k, rest[i]);
    }
  }

  lemma OffLine<K, C>(l: Layer<K, C>, r: Layer<K, C>, c: C, k: K)
    requires ScheduleOk(l) && LeftLine(l, r, c, k)
    ensures ScheduleOk(r)
  {
    forall d | d in r.channels ensures LineOk(r, d) {
      assert LineOk(l, d);
      if d == c { LineLeft(l, r, c, k); } else { LineUnchanged(l, r, d); }
    }
    forall m | m in r.streams ensures EnqueuedOk(r, m) {
      if m != k {
        assert EnqueuedOk(l, m) && SameStanding(l, r, m);
        WithoutMembers(l.channels[c].sending, k, m);
      }
    }
  }

  /** A stream stands in no line but that of its own channel. */
  lemma OnlyOwnLine<K, C>(l: Layer<K, C>, k: K, d: C)
    requires ScheduleOk(l) && d in l.channels && k in l.channels[d].sending
    ensures k in l.streams && l.streams[k].enqueued && l.Current(k) == Some(d)
  {
    assert LineOk(l, d);
  }

  // ---------------------------------------------------------------- set_priority

  lemma {:induction false} PriorityIndexSame<K, C>(l: Layer<K, C>, r: Layer<K, C>, line: seq<K>, priority: nat)
    requires forall m :: m in line ==> m in l.streams && m in r.streams && r.streams[m].priority == l.streams[m].priority
    ensures PriorityIndex(l, line, priority) == PriorityIndex(r, line, priority)
  {
    if line != [] { PriorityIndexSame(l, r, line[1..], priority); }
  }

  /** The stream out of its line, with another priority. */
  ghost function Stepped<K, C>(l: Layer<K, C>, c: C, k: K, priority: nat): Layer<K, C>
    requires k in l.streams && c in l.channels
  {
    DequeueStream(l, c, k).SetStream(k, l.streams[k].(priority := priority, enqueued := false))
  }

  lemma SteppedFrame<K, C>(l: Layer<K, C>, c: C, k: K, priority: nat)
    requires k in l.streams && c in l.channels
    ensures SameShape(l, Stepped(l, c, k, priority)) && SameFrames(l, Stepped(l, c, k, priority))
  {
    var r := Stepped(l, c, k, priority);
    forall m | m in l.streams ensures r.streams[m].queue == l.streams[m].queue {}
  }

  lemma SteppedKeeps<K, C>(l: Layer<K, C>, c: C, k: K, priority: nat)
    requires Inv(l) && k in l.streams && c in l.channels && l.Current(k) == Some(c)
    ensures Inv(Stepped(l, c, k, priority))
  {
    hide TablesOk, ActiveOk, ScheduleOk, FramesOk, Conserved;
    var r := Stepped(l, c, k, priority);
    SteppedFrame(l, c, k, priority);
    KeepShape(l, r);
    KeepFrames(l, r);
    SteppedSchedule(l, c, k, priority);
  }

  lemma SteppedSchedule<K, C>(l: Layer<K, C>, c: C, k: K, priority: nat)
    requires ScheduleOk(l) && k in l.streams && c in l.channels && l.Current(k) == Some(c)
    ensures ScheduleOk(Stepped(l, c, k, priority))
  {
    hide ScheduleOk;
    forall d | d in l.channels && d != c ensures k !in l.channels[d].sending {
      if k in l.channels[d].sending { OnlyOwnLine(l, k, d); }
    }
    OffLine(l, Stepped(l, c, k, priority), c, k);
  }

  lemma IdlePriority<K, C>(l: Layer<K, C>, k: K, priority: nat)
    requires Inv(l) && k in l.streams && !l.streams[k].enqueued
    ensures Inv(l.SetStream(k, l.streams[k].(priority := priority)))
  {
    hide TablesOk, ActiveOk, ScheduleOk, FramesOk, Conserved;
    var t := l.streams[k].(priority := priority);
    var r := l.SetStream(k, t);
    assert SameShape(l, r) by { StreamShape(l, k, t); }
    KeepShape(l, r);
    assert SameFrames(l, r);
    KeepFrames(l, r);
    StreamSchedule(l, k, t);
  }

  lemma EnqueuedFacts<K, C>(l: Layer<K, C>, k: K)
    requires Inv(l) && k in l.streams && l.streams[k].enqueued
    ensures l.streams[k].queue != [] && l.Current(k).Some? && l.Current(k).value in l.channels
    ensures l.streams[k].current.Some? && LineOk(l, l.Current(k).value)
  {
    assert EnqueuedOk(l, k);
  }

  /** set_priority moves a waiting stream to the place of its new priority: it leaves the line and gets in again. */
  lemma SetPriorityKeeps<K, C>(l: Layer<K, C>, k: K, priority: nat)
    requires Inv(l) && k in l.streams
    ensures Inv(SetPriority(l, k, priority))
  {
    hide Inv;
    var s := l.streams[k];
    if s.priority != priority {
      if !s.enqueued {
        IdlePriority(l, k, priority);
      } else {
        EnqueuedFacts(l, k);
        var c := l.Current(k).value;
        SteppedKeeps(l, c, k, priority);
        LinkKeeps(Stepped(l, c, k, priority), k);
        Rejoins(l, c, k, priority);
      }
    }
  }

  lemma Rejoins<K, C>(l: Layer<K, C>, c: C, k: K, priority: nat)
    requires k in l.streams && c in l.channels && l.streams[k].enqueued && l.streams[k].priority != priority
    requires l.Current(k) == Some(c) && LineOk(l, c) && l.streams[k].queue != []
    ensures SetPriority(l, k, priority) == Link(Stepped(l, c, k, priority), k)
  {
    var r, line := Stepped(l, c, k, priority), Without(l.channels[c].sending, k);
    var l1 := DequeueStream(l.SetStream(k, l.streams[k].(priority := priority)), c, k);
    forall m | m in line ensures m in l1.streams && m in r.streams && r.streams[m].priority == l1.streams[m].priority {
      WithoutMembers(l.channels[c].sending, k, m);
    }
    PriorityIndexSame(l1, r, line, priority);
    assert r.Current(k) == Some(c);
    assert l1.channels[c].sending == line && r.channels[c].sending == line;
    assert EnqueueStream(l1, c, k) == Link(r, k);
  }

  // ---------------------------------------------------------------- set_attaching

  /** attach_for_transmit before the stream gets in line. */
  ghost function Attached<K, C>(l: Layer<K, C>, k: K, c: C, counter: nat): Layer<K, C>
    requires k in l.streams && c in l.channels && |l.streams[k].slots| == 2
  {
    var s, ch, sid := l.streams[k], l.channels[c], Sid16(counter);
    l.SetStream(k, s.(slots := s.slots[0 := TxSlot(Some(c), sid, None, false)], current := Some(0)))
     .SetChannel(c, ch.(txSids := ch.txSids[sid := (k, 0)], sidCounter := counter + 1))
  }

  lemma SidAfterAttach<K, C>(l: Layer<K, C>, k: K, c: C, counter: nat, d: C, n: nat)
    requires k in l.streams && c in l.channels && SlotsOk(l.streams[k]) && l.streams[k].current == None
    requires d in l.channels && n in l.channels[d].txSids && SidAgrees(l, d, n)
    requires d != c || n != Sid16(counter)
    ensures SidAgrees(Attached(l, k, c, counter), d, n)
  {
    var (m, j) := l.channels[d].txSids[n];
    assert l.streams[m].slots[j].InUse() && m != k;
  }

  lemma AttachedTables<K, C>(l: Layer<K, C>, k: K, c: C, counter: nat)
    requires TablesOk(l) && ActiveOk(l) && k in l.streams && c in l.channels && l.streams[k].current == None
    requires Sid16(counter) !in l.channels[c].txSids
    ensures |l.streams[k].slots| == 2
    ensures TablesOk(Attached(l, k, c, counter)) && ActiveOk(Attached(l, k, c, counter))
  {
    SlotsFact(l, k);
    var r, sid := Attached(l, k, c, counter), Sid16(counter);
    forall d, n | d in r.channels && n in r.channels[d].txSids ensures SidAgrees(r, d, n) {
      hide SlotAgrees, SlotsOk, SlotActive;
      if d != c || n != sid { SidAfterAttach(l, k, c, counter, d, n); }
    }
    forall m, i | m in r.streams && 0 <= i < |r.streams[m].slots| && r.streams[m].slots[i].InUse()
      ensures SlotAgrees(r, m, i)
    {
      hide SidAgrees, SlotsOk, SlotActive;
      SlotAfterAttach(l, k, c, counter, m, i);
    }
    forall m | m in r.streams ensures SlotsOk(r.streams[m]) && SlotActive(r.streams[m]) {
      hide SidAgrees, SlotAgrees;
      assert SlotsOk(l.streams[m]) && SlotActive(l.streams[m]);
    }
  }

  lemma SlotAfterAttach<K, C>(l: Layer<K, C>, k: K, c: C, counter: nat, m: K, i: nat)
    requires TablesOk(l) && k in l.streams && c in l.channels && |l.streams[k].slots| == 2
    requires l.streams[k].current == None && Sid16(counter) !in l.channels[c].txSids && m in l.streams
    requires i < |Attached(l, k, c, counter).streams[m].slots|
             && Attached(l, k, c, counter).streams[m].slots[i].InUse()
    ensures SlotAgrees(Attached(l, k, c, counter), m, i)
  {
    SlotsFact(l, k);
    if m != k { assert SlotAgrees(l, m, i); }
  }

  lemma AttachedFrames<K, C>(l: Layer<K, C>, k: K, c: C, counter: nat)
    requires k in l.streams && c in l.channels && |l.streams[k].slots| == 2
    ensures SameFrames(l, Attached(l, k, c, counter))
  {}

  lemma AttachedSchedule<K, C>(l: Layer<K, C>, k: K, c: C, counter: nat)
    requires ScheduleOk(l) && k in l.streams && c in l.channels && |l.streams[k].slots| == 2
    requires l.streams[k].current == None
    ensures !l.streams[k].enqueued && k !in l.channels[c].sending && ScheduleOk(Attached(l, k, c, counter))
  {
    var r := Attached(l, k, c, counter);
    assert EnqueuedOk(l, k);
    forall d | d in l.channels ensures k !in l.channels[d].sending {
      if k in l.channels[d].sending { OnlyOwnLine(l, k, d); }
    }
    forall d | d in r.channels ensures LineOk(r, d) {
      assert LineOk(l, d);
      LineUnchanged(l, r, d);
    }
    forall m | m in r.streams ensures EnqueuedOk(r, m) {
      assert EnqueuedOk(l, m);
    }
  }

  lemma AttachedKeeps<K, C>(l: Layer<K, C>, k: K, c: C, counter: nat)
    requires Inv(l) && k in l.streams && c in l.channels && l.streams[k].current == None
    requires Sid16(counter) !in l.channels[c].txSids
    ensures |l.streams[k].slots| == 2 && FreeSlot(l.streams[k].slots) == 0 && k !in l.channels[c].sending
    ensures Inv(Attached(l, k, c, counter))
  {
    hide TablesOk, ActiveOk, ScheduleOk, FramesOk, Conserved;
    SlotsFact(l, k);
    AttachedTables(l, k, c, counter);
    AttachedFrames(l, k, c, counter);
    AttachedSchedule(l, k, c, counter);
    KeepFrames(l, Attached(l, k, c, counter));
  }

  /** attach_for_transmit attaches a detached stream when there is an id for it, and otherwise does nothing. */
  lemma AttachForIs<K, C>(l: Layer<K, C>, k: K, c: C)
    requires Inv(l) && k in l.streams && c in l.channels
    ensures |l.streams[k].slots| == 2
    ensures AttachFor(l, k, c) ==
              if l.streams[k].current == None && AllocateSid(l.channels[c]).Some?
              then LinkNow(Attached(l, k, c, AllocateSid(l.channels[c]).value), k) else l
  {
    hide Inv, LinkNow, AllocateSid, Sid16, FreeSlot;
    SlotCount(l, k);
    if l.streams[k].current == None && AllocateSid(l.channels[c]).Some? {
      var counter := AllocateSid(l.channels[c]).value;
      AllocatedFree(l.channels[c]);
      AttachedKeeps(l, k, c, counter);
      assert Attached(l, k, c, counter).Check(true) == Attached(l, k, c, counter);
    }
  }

  lemma AllocatedFree<K>(ch: Channel<K>)
    ensures AllocateSid(ch).Some? ==>
              Sid16(AllocateSid(ch).value) !in ch.txSids && AllocateSid(ch).value >= ch.sidCounter
  {}

  lemma SlotCount<K, C>(l: Layer<K, C>, k: K)
    requires Inv(l) && k in l.streams
    ensures |l.streams[k].slots| == 2
  {
    assert SlotsOk(l.streams[k]);
  }

  /**
   A detached stream takes a free id and its first slot: the assertions of set_attaching and of
   attach_for_transmit hold, and both tables agree afterwards.
   */
  lemma AttachForKeeps<K, C>(l: Layer<K, C>, k: K, c: C)
    requires Inv(l) && k in l.streams && c in l.channels
    ensures Inv(AttachFor(l, k, c))
  {
    hide Inv, AttachFor, Attached, LinkNow, AllocateSid;
    AttachForIs(l, k, c);
    AllocatedFree(l.channels[c]);
    if l.streams[k].current == None && AllocateSid(l.channels[c]).Some? {
      var counter := AllocateSid(l.channels[c]).value;
      AttachedKeeps(l, k, c, counter);
      AttachedKnown(l, k, c, counter);
      LinkNowKeeps(Attached(l, k, c, counter), k);
    }
  }

  lemma AttachedKnown<K, C>(l: Layer<K, C>, k: K, c: C, counter: nat)
    requires k in l.streams && c in l.channels && |l.streams[k].slots| == 2
    ensures k in Attached(l, k, c, counter).streams && c in Attached(l, k, c, counter).channels
  {}

  // ---------------------------------------------------------------- clear

  lemma SidAfterUnlink<K, C>(l: Layer<K, C>, k: K, i: nat, d: C, n: nat)
    requires k in l.streams && i < |l.streams[k].slots| && l.streams[k].slots[i].InUse() && SlotAgrees(l, k, i)
    requires d in l.channels && n in l.channels[d].txSids && SidAgrees(l, d, n)
    requires n in Unlink(l, k, i).channels[d].txSids
    ensures SidAgrees(Unlink(l, k, i), d, n)
  {
    var (m, j) := l.channels[d].txSids[n];
    assert m == k ==> j != i;
  }

  lemma UnlinkTables<K, C>(l: Layer<K, C>, k: K, i: nat)
    requires TablesOk(l) && ActiveOk(l) && k in l.streams && i < |l.streams[k].slots| && l.streams[k].slots[i].InUse()
    ensures l.streams[k].slots[i].channel.value in l.channels && Unlink(l, k, i).failed == l.failed
    ensures TablesOk(Unlink(l, k, i)) && ActiveOk(Unlink(l, k, i))
  {
    assert SlotAgrees(l, k, i);
    var r := Unlink(l, k, i);
    forall d, n | d in r.channels && n in r.channels[d].txSids ensures SidAgrees(r, d, n) {
      hide SlotsOk, SlotActive;
      SidAfterUnlink(l, k, i, d, n);
    }
    forall m, j | m in r.streams && 0 <= j < |r.streams[m].slots| && r.streams[m].slots[j].InUse()
      ensures SlotAgrees(r, m, j)
    {
      hide SidAgrees, SlotsOk, SlotActive;
      SlotAfterUnlink(l, k, i, m, j);
    }
    forall m | m in r.streams ensures SlotsOk(r.streams[m]) && SlotActive(r.streams[m]) {
      hide SidAgrees, SlotAgrees;
      SlotsFact(l, m);
      SlotsAfterUnlink(l, k, i, m);
    }
  }

  lemma SlotAfterUnlink<K, C>(l: Layer<K, C>, k: K, i: nat, m: K, j: nat)
    requires k in l.streams && i < |l.streams[k].slots| && l.streams[k].slots[i].InUse() && SlotAgrees(l, k, i)
    requires m in l.streams && j < |l.streams[m].slots| && l.streams[m].slots[j].InUse() && SlotAgrees(l, m, j)
    requires m != k || j != i
    ensures SlotAgrees(Unlink(l, k, i), m, j)
  {}

  lemma SlotsAfterUnlink<K, C>(l: Layer<K, C>, k: K, i: nat, m: K)
    requires k in l.streams && i < |l.streams[k].slots| && l.streams[k].slots[i].InUse() && SlotAgrees(l, k, i)
    requires m in l.streams && SlotsOk(l.streams[m]) && SlotActive(l.streams[m])
    ensures SlotsOk(Unlink(l, k, i).streams[m]) && SlotActive(Unlink(l, k, i).streams[m])
  {}

  lemma UnlinkFrames<K, C>(l: Layer<K, C>, k: K, i: nat)
    requires k in l.streams && i < |l.streams[k].slots| && l.streams[k].slots[i].InUse()
    requires l.streams[k].slots[i].channel.value in l.channels
    ensures SameFrames(l, Unlink(l, k, i))
  {
    hide SameFrames, Without;
    var r, c := Unlink(l, k, i), l.streams[k].slots[i].channel.value;
    OneFrames(l, k, r.streams[k], c, r.channels[c], r);
  }

  /** One stream and one channel change nothing that has to do with frames. */
  lemma OneFrames<K, C>(l: Layer<K, C>, k: K, t: Stream<K, C>, c: C, ch: Channel<K>, r: Layer<K, C>)
    requires k in l.streams && c in l.channels
    requires r.streams == l.streams[k := t] && r.channels == l.channels[c := ch]
    requires t == l.streams[k].(current := t.current, slots := t.slots, enqueued := t.enqueued)
    requires ch == l.channels[c].(txSids := ch.txSids, sending := ch.sending, sidCounter := ch.sidCounter)
    ensures SameFrames(l, r)
  {}

  lemma UnlinkSchedule<K, C>(l: Layer<K, C>, k: K, i: nat)
    requires ScheduleOk(l) && k in l.streams && SlotsOk(l.streams[k])
    requires i < |l.streams[k].slots| && l.streams[k].slots[i].InUse()
    requires l.streams[k].slots[i].channel.value in l.channels
    ensures ScheduleOk(Unlink(l, k, i)) && k in Unlink(l, k, i).streams && Unlink(l, k, i).Current(k) == None
  {
    var r, c := Unlink(l, k, i), l.streams[k].slots[i].channel.value;
    forall d | d in l.channels && d != c ensures k !in l.channels[d].sending {
      if k in l.channels[d].sending { OnlyOwnLine(l, k, d); }
    }
    OffLine(l, r, c, k);
  }

  /** clear up to the table of packets: the slot, the id table and the line all forget the attachment. */
  lemma UnlinkKeeps<K, C>(l: Layer<K, C>, k: K, i: nat)
    requires Inv(l) && k in l.streams && i < |l.streams[k].slots| && l.streams[k].slots[i].InUse()
    ensures l.streams[k].slots[i].channel.value in l.channels && Inv(Unlink(l, k, i))
    ensures k in Unlink(l, k, i).streams && Unlink(l, k, i).Current(k) == None
  {
    hide TablesOk, ActiveOk, ScheduleOk, FramesOk, Conserved;
    SlotsFact(l, k);
    UnlinkTables(l, k, i);
    UnlinkFrames(l, k, i);
    UnlinkSchedule(l, k, i);
    KeepFrames(l, Unlink(l, k, i));
  }

  /** A detached stream that gets a packet back only queues it. */
  lemma GiveBackDetached<K, C>(l: Layer<K, C>, f: Frame<K>)
    requires f.owner in l.streams && l.Current(f.owner) == None && !f.late
    ensures GiveBack(l, f) == if f.kind == Data then Queued(l, f.owner, f.(late := true)) else l
  {}

  /** Returning one packet to a detached stream and dropping it from the table loses nothing. */
  lemma ReturnKeeps<K, C>(l: Layer<K, C>, c: C, n: nat)
    requires Inv(l) && c in l.channels && n in l.channels[c].waitingAck
    requires var k := l.channels[c].waitingAck[n].owner; k in l.streams && l.Current(k) == None
    ensures var f := l.channels[c].waitingAck[n];
            && c in GiveBack(l, f).channels && Inv(Forget(GiveBack(l, f), c, {n}))
            && GiveBack(l, f) == l.SetStream(f.owner, l.streams[f.owner].(queue := GiveBack(l, f).streams[f.owner].queue))
            && GiveBack(l, f).Current(f.owner) == None
  {
    hide Inv;
    EntryFacts(l, c, n);
    var f := l.channels[c].waitingAck[n];
    GiveBackDetached(l, f);
    if f.kind == Data { QueuedKeeps(l, f.owner, f.(late := true)); }
    ForgetKeeps(GiveBack(l, f), c, n);
  }

  /** Packets of `k` among those walked. */
  ghost function Owned<K>(copy: map<nat, Frame<K>>, order: seq<nat>, k: K): set<nat> {
    set n | n in order && n in copy && copy[n].owner == k
  }

  /** `k` with another queue, and the packets `gone` no longer in the table of `c`. */
  ghost function Returned<K, C>(l: Layer<K, C>, c: C, k: K, queue: seq<Frame<K>>, gone: set<nat>): Layer<K, C>
    requires k in l.streams && c in l.channels
  {
    Forget(l.SetStream(k, l.streams[k].(queue := queue)), c, gone)
  }

  /** The loop of clear touches nothing but the queue of its stream and the table, from which it takes all it owns. */
  lemma {:induction false} ReclaimKeeps<K, C>(
      l: Layer<K, C>, c: C, k: K, copy: map<nat, Frame<K>>, order: seq<nat>) returns (queue: seq<Frame<K>>)
    requires Inv(l) && k in l.streams && c in l.channels && l.Current(k) == None
    requires forall n :: n in order ==> n in copy && n in l.channels[c].waitingAck && l.channels[c].waitingAck[n] == copy[n]
    requires forall i, j :: 0 <= i < j < |order| ==> order[i] != order[j]
    ensures Inv(Reclaim(l, c, k, copy, order))
    ensures Reclaim(l, c, k, copy, order) == Returned(l, c, k, queue, Owned(copy, order, k))
    decreases |order|
  {
    hide Inv;
    if order == [] {
      queue := l.streams[k].queue;
      assert Owned(copy, order, k) == {};
      assert l.channels[c].waitingAck - {} == l.channels[c].waitingAck;
      assert Returned(l, c, k, queue, {}) == l;
    } else {
      var f := copy[order[0]];
      assert forall n :: n in order <==> n == order[0] || n in order[1..];
      if f.owner != k {
        queue := ReclaimKeeps(l, c, k, copy, order[1..]);
        assert Owned(copy, order, k) == Owned(copy, order[1..], k);
      } else {
        ReturnKeeps(l, c, order[0]);
        var back := GiveBack(l, f);
        var r := Forget(back, c, {order[0]});
        queue := ReclaimKeeps(r, c, k, copy, order[1..]);
        assert Owned(copy, order, k) == {order[0]} + Owned(copy, order[1..], k);
        ForgetTwice(l, back, c, k, order[0], queue, Owned(copy, order[1..], k));
      }
    }
  }

  lemma ForgetTwice<K, C>(l: Layer<K, C>, back: Layer<K, C>, c: C, k: K, n: nat, queue: seq<Frame<K>>, rest: set<nat>)
    requires k in l.streams && c in l.channels && k in back.streams
    requires back == l.SetStream(k, l.streams[k].(queue := back.streams[k].queue))
    ensures Returned(Forget(back, c, {n}), c, k, queue, rest) == Returned(l, c, k, queue, {n} + rest)
  {
    assert l.channels[c].waitingAck - {n} - rest == l.channels[c].waitingAck - ({n} + rest);
  }

  /** The whole effect of clear on slot `i`, which is attached to `c`. */
  lemma ClearKeeps<K, C>(l: Layer<K, C>, k: K, i: nat, order: seq<nat>, c: C) returns (queue: seq<Frame<K>>)
    requires Inv(l) && k in l.streams && i < |l.streams[k].slots| && l.streams[k].slots[i].channel == Some(c)
    requires c in l.channels && Walks(order, l.channels[c].waitingAck)
    ensures Inv(Clear(l, k, i, order))
    ensures k in Unlink(l, k, i).streams && c in Unlink(l, k, i).channels
    ensures Clear(l, k, i, order) == Returned(Unlink(l, k, i), c, k, queue, Owned(l.channels[c].waitingAck, order, k))
    ensures Clear(l, k, i, order).Current(k) == None
  {
    hide Inv;
    UnlinkKeeps(l, k, i);
    queue := ReclaimKeeps(Unlink(l, k, i), c, k, l.channels[c].waitingAck, order);
  }

  /** Clearing any slot, in use or not, whatever order the table is walked in. */
  lemma ClearAnyKeeps<K, C>(l: Layer<K, C>, k: K, i: nat, order: seq<nat>)
    requires Inv(l) && k in l.streams && i < |l.streams[k].slots|
    ensures Inv(Clear(l, k, i, order))
  {
    if l.streams[k].slots[i].InUse() {
      hide Inv;
      UnlinkKeeps(l, k, i);
      var c := l.streams[k].slots[i].channel.value;
      if Walks(order, l.channels[c].waitingAck) {
        var queue := ClearKeeps(l, k, i, order, c);
      }
    }
  }
}
