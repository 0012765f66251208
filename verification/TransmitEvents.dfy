/**
 Transmission events and the retransmission timeout. The upper layer's `missed` callback may itself transmit;
 `script` says what it sends when a given packet is reported missed.
 */
module TransmitEvents {

  /** `pipe` says that the packet counts as in flight. */
  datatype Event = Event(size: nat, data: bool, pipe: bool)

  datatype Send = Send(size: nat, data: bool)

  datatype State = State(
    txSequence: nat,
    eventSequence: nat,        // sequence number of the oldest recorded event
    events: seq<Event>,
    inflightCount: int,
    inflightSize: int,
    missed: seq<nat>)          // history: packets reported missed, in order

  const FRESH: State := State(1, 0, [Event(0, false, false)], 0, 0, [])

  /** transmit: record the event of the packet and take the next number. */
  function Transmit(s: State, p: Send): State {
    s.(txSequence := s.txSequence + 1,
       events := s.events + [Event(p.size, p.data, p.data)],
       inflightCount := if p.data then s.inflightCount + 1 else s.inflightCount,
       inflightSize := if p.data then s.inflightSize + p.size else s.inflightSize)
  }

  function TransmitAll(s: State, packets: seq<Send>): (r: State)
    ensures r.eventSequence == s.eventSequence && |r.events| >= |s.events|
    decreases |packets|
  {
    if packets == [] then s else TransmitAll(Transmit(s, packets[0]), packets[1..])
  }

  /** One packet that is still in flight is given up. */
  function GiveUp(s: State, seqNo: nat): State
    requires s.eventSequence <= seqNo < s.eventSequence + |s.events|
  {
    var i := seqNo - s.eventSequence;
    s.(events := s.events[i := s.events[i].(pipe := false)],
       inflightCount := s.inflightCount - 1,
       inflightSize := s.inflightSize - s.events[i].size,
       missed := s.missed + [seqNo])
  }

  /** The loop of retransmit_timeout from `seqNo` up to the snapshot `limit`. */
  function TimeoutFrom(s: State, seqNo: nat, limit: nat, script: nat -> seq<Send>): (r: State)
    requires s.eventSequence <= seqNo && limit <= s.eventSequence + |s.events|
    ensures r.eventSequence == s.eventSequence && |r.events| >= |s.events|
    decreases if seqNo < limit then limit - seqNo else 0
  {
    if seqNo >= limit then s
    else if s.events[seqNo - s.eventSequence].pipe then
      TimeoutFrom(TransmitAll(GiveUp(s, seqNo), script(seqNo)), seqNo + 1, limit, script)
    else TimeoutFrom(s, seqNo + 1, limit, script)
  }

  /** retransmit_timeout up to the call of on_ready_transmit, which is one more transmission of the run. */
  function Timeout(s: State, script: nat -> seq<Send>): State
    requires s.txSequence <= s.eventSequence + |s.events|
  {
    TimeoutFrom(s, s.eventSequence, s.txSequence, script)
  }

  // ---------------------------------------------------------------- accounting

  function Count(events: seq<Event>): nat {
    if events == [] then 0 else (if events[0].pipe then 1 else 0) + Count(events[1..])
  }

  function Size(events: seq<Event>): nat {
    if events == [] then 0 else (if events[0].pipe then events[0].size else 0) + Size(events[1..])
  }

  /** Sequence numbers are the positions of events, and the counters are the totals of what is in flight. */
  ghost predicate Accounted(s: State) {
    && s.eventSequence + |s.events| == s.txSequence
    && s.inflightCount == Count(s.events) && s.inflightSize == Size(s.events)
    && (forall i :: 0 <= i < |s.events| && s.events[i].pipe ==> s.events[i].data)
  }

  /** Each packet was reported missed at most once, and none that still counts as in flight. */
  ghost predicate MissedOnce(s: State) {
    && (forall i, j :: 0 <= i < j < |s.missed| ==> s.missed[i] != s.missed[j])
    && (forall i :: 0 <= i < |s.missed| ==>
          s.eventSequence <= s.missed[i] < s.eventSequence + |s.events|
          && !s.events[s.missed[i] - s.eventSequence].pipe && s.events[s.missed[i] - s.eventSequence].data)
  }

  lemma {:induction false} CountAppend(a: seq<Event>, b: seq<Event>)
    ensures Count(a + b) == Count(a) + Count(b) && Size(a + b) == Size(a) + Size(b)
  {
    if a == [] {
      assert a + b == b;
    } else {
      assert (a + b)[1..] == a[1..] + b;
      CountAppend(a[1..], b);
    }
  }

  lemma {:induction false} CountCleared(events: seq<Event>, i: nat)
    requires i < |events| && events[i].pipe
    ensures var t := events[i := events[i].(pipe := false)];
            Count(t) == Count(events) - 1 && Size(t) == Size(events) - events[i].size
  {
    var t := events[i := events[i].(pipe := false)];
    if i == 0 {
      assert t[1..] == events[1..];
    } else {
      assert t[1..] == events[1..][i - 1 := events[1..][i - 1].(pipe := false)];
      CountCleared(events[1..], i - 1);
    }
  }

  lemma {:induction false} NothingInFlight(events: seq<Event>)
    requires forall i :: 0 <= i < |events| ==> !events[i].pipe
    ensures Count(events) == 0 && Size(events) == 0
  {
    if events != [] { NothingInFlight(events[1..]); }
  }

  lemma TransmitAccounted(s: State, p: Send)
    requires Accounted(s) && MissedOnce(s)
    ensures Accounted(Transmit(s, p)) && MissedOnce(Transmit(s, p))
  {
    var e := Event(p.size, p.data, p.data);
    CountAppend(s.events, [e]);
    assert Count([e]) == (if p.data then 1 else 0) && Size([e]) == (if p.data then p.size else 0) by {
      assert [e][1..] == [];
    }
  }

  /** Transmitting appends events and touches nothing before. */
  lemma {:induction false} TransmitAllAccounted(s: State, packets: seq<Send>)
    requires Accounted(s) && MissedOnce(s)
    ensures var t := TransmitAll(s, packets);
            && Accounted(t) && MissedOnce(t) && t.eventSequence == s.eventSequence && t.missed == s.missed
            && s.events <= t.events && |t.events| == |s.events| + |packets|
    decreases |packets|
  {
    if packets != [] {
      TransmitAccounted(s, packets[0]);
      TransmitAllAccounted(Transmit(s, packets[0]), packets[1..]);
    }
  }

  lemma GiveUpAccounted(s: State, seqNo: nat)
    requires Accounted(s) && MissedOnce(s) && s.eventSequence <= seqNo < s.txSequence
    requires s.events[seqNo - s.eventSequence].pipe
    ensures Accounted(GiveUp(s, seqNo)) && MissedOnce(GiveUp(s, seqNo))
  {
    hide Count, Size;
    CountCleared(s.events, seqNo - s.eventSequence);
    forall i | 0 <= i < |s.missed| ensures s.missed[i] != seqNo {
      assert !s.events[s.missed[i] - s.eventSequence].pipe;
    }
  }

  // ---------------------------------------------------------------- the timeout

  /** The packets of [from, to) that are in flight, in order: what a timeout has to report. */
  function InFlight(s: State, from: nat, to: nat): (r: seq<nat>)
    requires s.eventSequence <= from && to <= s.eventSequence + |s.events|
    decreases if from < to then to - from else 0
  {
    if from >= to then []
    else (if s.events[from - s.eventSequence].pipe then [from] else []) + InFlight(s, from + 1, to)
  }

  lemma {:induction false} InFlightSame(s: State, t: State, from: nat, to: nat)
    requires s.eventSequence == t.eventSequence <= from
    requires to <= s.eventSequence + |s.events| && to <= t.eventSequence + |t.events|
    requires forall i :: from - s.eventSequence <= i < to - s.eventSequence ==> s.events[i] == t.events[i]
    ensures InFlight(s, from, to) == InFlight(t, from, to)
    decreases if from < to then to - from else 0
  {
    if from < to { InFlightSame(s, t, from + 1, to); }
  }

  /** Giving up one packet and letting the callback send changes no other recorded event. */
  lemma GiveUpThenSend(s: State, seqNo: nat, packets: seq<Send>)
    requires Accounted(s) && MissedOnce(s) && s.eventSequence <= seqNo < s.txSequence
    requires s.events[seqNo - s.eventSequence].pipe
    ensures var t := TransmitAll(GiveUp(s, seqNo), packets);
            && Accounted(t) && MissedOnce(t) && t.txSequence >= s.txSequence && t.missed == s.missed + [seqNo]
            && t.eventSequence == s.eventSequence && |t.events| >= |s.events|
            && !t.events[seqNo - s.eventSequence].pipe
            && (forall i :: 0 <= i < |s.events| && i != seqNo - s.eventSequence ==> t.events[i] == s.events[i])
  {
    GiveUpAccounted(s, seqNo);
    TransmitAllAccounted(GiveUp(s, seqNo), packets);
  }

  /** The numbers from `from` to `to` are no longer in flight; the other recorded events are as they were. */
  ghost predicate Cleared(s: State, t: State, from: nat, to: nat) {
    && t.eventSequence == s.eventSequence && |t.events| >= |s.events| && s.eventSequence <= from
    && (forall i :: 0 <= i < |s.events| && from <= i + s.eventSequence < to ==> !t.events[i].pipe)
    && (forall i :: 0 <= i < |s.events| && !(from <= i + s.eventSequence < to) ==> t.events[i] == s.events[i])
  }

  lemma ClearedNone(s: State, from: nat, to: nat)
    requires s.eventSequence <= from && from >= to
    ensures Cleared(s, s, from, to)
  {}

  lemma ClearedOneMore(s: State, t: State, u: State, seqNo: nat, limit: nat)
    requires s.eventSequence <= seqNo < limit && seqNo < s.eventSequence + |s.events|
    requires t.eventSequence == s.eventSequence && |t.events| >= |s.events| && !t.events[seqNo - s.eventSequence].pipe
    requires forall i :: 0 <= i < |s.events| && i != seqNo - s.eventSequence ==> t.events[i] == s.events[i]
    requires Cleared(t, u, seqNo + 1, limit)
    ensures Cleared(s, u, seqNo, limit)
  {}

  /** The loop from `seqNo` on, packet by packet, whatever the callbacks send. */
  lemma {:induction false} TimeoutLoop(s: State, seqNo: nat, limit: nat, script: nat -> seq<Send>)
    requires Accounted(s) && MissedOnce(s) && s.eventSequence <= seqNo && limit <= s.txSequence
    ensures var t := TimeoutFrom(s, seqNo, limit, script);
            && Accounted(t) && MissedOnce(t) && t.txSequence >= s.txSequence
            && t.missed == s.missed + InFlight(s, seqNo, limit) && Cleared(s, t, seqNo, limit)
    decreases if seqNo < limit then limit - seqNo else 0
  {
    hide MissedOnce, GiveUp, TransmitAll, Count, Size, Cleared;
    if seqNo < limit {
      if s.events[seqNo - s.eventSequence].pipe {
        var t := TransmitAll(GiveUp(s, seqNo), script(seqNo));
        GiveUpThenSend(s, seqNo, script(seqNo));
        InFlightSame(s, t, seqNo + 1, limit);
        TimeoutLoop(t, seqNo + 1, limit, script);
        ClearedOneMore(s, t, TimeoutFrom(s, seqNo, limit, script), seqNo, limit);
        assert s.missed + [seqNo] + InFlight(s, seqNo + 1, limit) == s.missed + ([seqNo] + InFlight(s, seqNo + 1, limit));
      } else {
        TimeoutLoop(s, seqNo + 1, limit, script);
        ClearedOneMore(s, s, TimeoutFrom(s, seqNo, limit, script), seqNo, limit);
        assert [] + InFlight(s, seqNo + 1, limit) == InFlight(s, seqNo + 1, limit);
      }
    } else {
      ClearedNone(s, seqNo, limit);
      assert s.missed + [] == s.missed;
    }
  }

  /**
   A timeout reports exactly the packets in flight when it began, each once and in order; packets its
   callbacks send are not among them. If none were sent, nothing is in flight afterwards, as the source asserts.
   */
  lemma TimeoutReports(s: State, script: nat -> seq<Send>)
    requires Accounted(s) && MissedOnce(s)
    ensures var t := Timeout(s, script);
            && Accounted(t) && MissedOnce(t)
            && t.missed == s.missed + InFlight(s, s.eventSequence, s.txSequence)
            && (t.txSequence == s.txSequence ==> t.inflightCount == 0 && t.inflightSize == 0)
            && t.inflightCount == Count(t.events[|s.events|..])
  {
    hide MissedOnce, TimeoutFrom, InFlight;
    TimeoutLoop(s, s.eventSequence, s.txSequence, script);
    var t := Timeout(s, script);
    NothingInFlight(t.events[..|s.events|]);
    assert t.events == t.events[..|s.events|] + t.events[|s.events|..];
    CountAppend(t.events[..|s.events|], t.events[|s.events|..]);
    if t.txSequence == s.txSequence { assert t.events[|s.events|..] == []; }
  }

  // ---------------------------------------------------------------- runs

  datatype Op = SendPacket(p: Send) | TimerFires(script: nat -> seq<Send>)

  function Step(s: State, op: Op): State {
    match op
    case SendPacket(p) => Transmit(s, p)
    case TimerFires(script) => if s.txSequence <= s.eventSequence + |s.events| then Timeout(s, script) else s
  }

  function Play(s: State, ops: seq<Op>): State {
    if ops == [] then s else Step(Play(s, ops[..|ops| - 1]), ops[|ops| - 1])
  }

  /** In every state of a run the books balance and no packet was reported missed twice. */
  lemma {:induction false} RunAccounted(ops: seq<Op>)
    ensures Accounted(Play(FRESH, ops)) && MissedOnce(Play(FRESH, ops))
    decreases |ops|
  {
    if ops == [] {
      assert FRESH.events[1..] == [];
    } else {
      RunAccounted(ops[..|ops| - 1]);
      var s := Play(FRESH, ops[..|ops| - 1]);
      match ops[|ops| - 1]
      case SendPacket(p) => TransmitAccounted(s, p);
      case TimerFires(script) => TimeoutReports(s, script);
    }
  }
}

/** The transmit-side fields of a channel, updated in place. */
module EventChannels {
  import opened TransmitEvents
  import Spec = TransmitEvents

  class EventChannel {
    var txSequence: nat
    var txEventSequence: nat
    var txEvents: seq<Event>
    var txInflightCount: int
    var txInflightSize: int
    ghost var reported: seq<nat>

    ghost function View(): State
      reads this
    {
      State(txSequence, txEventSequence, txEvents, txInflightCount, txInflightSize, reported)
    }

    constructor ()
      ensures View() == FRESH
    {
      txSequence, txEventSequence, txEvents := 1, 0, [Event(0, false, false)];
      txInflightCount, txInflightSize, reported := 0, 0, [];
    }

    /** The bookkeeping of transmit; both assertions of the source hold. */
    method Transmit(size: nat, isData: bool) returns (packetSeq: nat)
      requires Accounted(View()) && MissedOnce(View())
      modifies this
      ensures packetSeq == old(txSequence) && txEvents == old(txEvents) + [Event(size, isData, isData)]
      ensures View() == Spec.Transmit(old(View()), Send(size, isData)) && Accounted(View()) && MissedOnce(View())
    {
      TransmitAccounted(View(), Send(size, isData));
      packetSeq := txSequence;
      txSequence := txSequence + 1;
      if isData {
        txInflightCount := txInflightCount + 1;
        txInflightSize := txInflightSize + size;
      }
      txEvents := txEvents + [Event(size, isData, isData)];
      assert txEventSequence + |txEvents| == txSequence;
      CountBounded(txEvents);
      assert txInflightCount <= |txEvents|;
    }

    /** The upper layer's answer to a missed packet. */
    method Missed(seqNo: nat, script: nat -> seq<Send>)
      requires Accounted(View()) && MissedOnce(View())
      modifies this
      ensures View() == TransmitAll(old(View()), script(seqNo)) && Accounted(View()) && MissedOnce(View())
    {
      var packets := script(seqNo);
      for i := 0 to |packets|
        invariant Accounted(View()) && MissedOnce(View())
        invariant TransmitAll(View(), packets[i..]) == TransmitAll(old(View()), packets)
      {
        assert packets[i..][1..] == packets[i + 1..];
        var n := Transmit(packets[i].size, packets[i].data);
      }
    }

    /** retransmit_timeout: the limit is read before the loop, because callbacks may move it. */
    method RetransmitTimeout(script: nat -> seq<Send>)
      requires Accounted(View()) && MissedOnce(View())
      modifies this
      ensures View() == Timeout(old(View()), script) && Accounted(View()) && MissedOnce(View())
      ensures txSequence == old(txSequence) ==> txInflightCount == 0 && txInflightSize == 0
    {
      TimeoutReports(View(), script);
      hide MissedOnce, GiveUp, TransmitAll, Count, Size;
      var limit := txSequence;
      for seqNo := txEventSequence to limit
        invariant Accounted(View()) && MissedOnce(View()) && txEventSequence == old(txEventSequence) && limit <= txSequence
        invariant TimeoutFrom(View(), seqNo, limit, script) == Timeout(old(View()), script)
      {
        if txEvents[seqNo - txEventSequence].pipe {
          TimeOutOne(seqNo, script);
        }
      }
    }

    /** One packet in flight is given up, and the upper layer hears of it. */
    method TimeOutOne(seqNo: nat, script: nat -> seq<Send>)
      requires Accounted(View()) && MissedOnce(View()) && txEventSequence <= seqNo < txSequence
      requires txEvents[seqNo - txEventSequence].pipe
      modifies this
      ensures View() == TransmitAll(GiveUp(old(View()), seqNo), script(seqNo))
      ensures Accounted(View()) && MissedOnce(View())
      ensures txEventSequence == old(txEventSequence) && txSequence >= old(txSequence)
    {
      GiveUpAccounted(View(), seqNo);
      TransmitAllAccounted(GiveUp(View(), seqNo), script(seqNo));
      hide Accounted, MissedOnce, TransmitAll;
      var i := seqNo - txEventSequence;
      txInflightCount := txInflightCount - 1;
      txInflightSize := txInflightSize - txEvents[i].size;
      txEvents := txEvents[i := txEvents[i].(pipe := false)];
      reported := reported + [seqNo];
      Missed(seqNo, script);
    }
  }

  lemma {:induction false} CountBounded(events: seq<Event>)
    ensures Count(events) <= |events|
  {
    if events != [] { CountBounded(events[1..]); }
  }
}
