/**
 Delayed and cumulative acknowledgments of a channel. An acknowledgment (seq, count) names the packets
 seq - count to seq. The timer counts as armed or not; when it fires, `AckTimeout` runs.
 */
module ChannelAcks {
  import opened SequenceNumbers

  const MIN_ACK_PACKETS := 2
  const MAX_ACK_PACKETS := 4
  const MAX_ACK_COUNT: int := 0xf

  datatype Ack = Ack(seqNo: nat, count: int) {
    predicate Names(p: nat) { seqNo - count <= p <= seqNo }
  }

  /** `acks` is what left the channel: acknowledgment packets and acknowledgments in data packets. */
  datatype State = State(ackSeq: nat, ackCount: int, unacked: nat, armed: bool, acks: seq<Ack>)

  const FRESH: State := State(0, 0, 0, false, [])

  function TxAck(s: State, seqNo: nat, count: int): State {
    s.(acks := s.acks + [Ack(seqNo, count)])
  }

  /** flush_ack, and ack_timeout, which only calls it */
  function Flush(s: State): State {
    (if s.unacked > 0 then TxAck(s.(unacked := 0), s.ackSeq, s.ackCount) else s).(armed := false)
  }

  /** acknowledge: the source takes the difference of 64-bit numbers as a 32-bit integer. */
  function Acknowledge(s: State, pktSeq: nat, sendAck: bool): State {
    var diff := Int32(pktSeq - s.ackSeq);
    if diff == 1 then
      var count := if s.ackCount + 1 < MAX_ACK_COUNT then s.ackCount + 1 else MAX_ACK_COUNT;
      var t := s.(ackSeq := pktSeq, ackCount := count, unacked := s.unacked + 1);
      if !sendAck && t.unacked < MAX_ACK_PACKETS then t
      else if t.unacked < MAX_ACK_PACKETS then t.(armed := true)
      else Flush(t)
    else if diff > 1 then
      var t := Flush(s).(ackSeq := pktSeq, ackCount := 0);
      if sendAck then TxAck(t, pktSeq, 0) else t
    else if diff < 0 then
      if sendAck then TxAck(Flush(s), pktSeq, 0) else Flush(s)
    else s
  }

  /** channel_transmit puts the current acknowledgment into the packet. */
  function Transmit(s: State): State {
    var t := TxAck(s, s.ackSeq, s.ackCount);
    if s.unacked > 0 then t.(unacked := 0, armed := false) else t
  }

  // ---------------------------------------------------------------- runs

  datatype Event = Pass(pktSeq: nat, sendAck: bool) | AckTimeout | TransmitData

  /** The state with its history: numbers passed to acknowledge, and those of them to be acknowledged. */
  datatype Run = Run(s: State, passed: set<nat>, wanted: set<nat>)

  function Step(r: Run, e: Event): Run {
    match e
    case Pass(pktSeq, sendAck) =>
      Run(Acknowledge(r.s, pktSeq, sendAck), r.passed + {pktSeq}, if sendAck then r.wanted + {pktSeq} else r.wanted)
    case AckTimeout => r.(s := Flush(r.s))
    case TransmitData => r.(s := Transmit(r.s))
  }

  function Play(r: Run, events: seq<Event>): Run {
    if events == [] then r else Step(Play(r, events[..|events| - 1]), events[|events| - 1])
  }

  const START: Run := Run(FRESH, {}, {})

  /** The number is within the reach of a 32-bit difference, as the replay window of the receiver ensures. */
  predicate Near(s: State, pktSeq: nat) { -(TWO32 / 2) <= pktSeq - s.ackSeq < TWO32 / 2 }

  /** Every event of the run comes when its number is near and, if `once`, was not passed before. */
  ghost predicate Proper(events: seq<Event>, once: bool) {
    events == [] ||
    var front, e := Play(START, events[..|events| - 1]), events[|events| - 1];
    && Proper(events[..|events| - 1], once)
    && (e.Pass? ==> Near(front.s, e.pktSeq) && (once ==> e.pktSeq > 0 && e.pktSeq !in front.passed))
  }

  // ---------------------------------------------------------------- invariants

  /** An acknowledgment names only numbers that were passed, and the fictitious packet 0. */
  ghost predicate Truthful(a: Ack, passed: set<nat>) {
    && 0 <= a.count <= MAX_ACK_COUNT && a.count <= a.seqNo
    && forall p: nat :: a.Names(p) ==> p == 0 || p in passed
  }

  ghost predicate AllTruthful(acks: seq<Ack>, passed: set<nat>) {
    forall i :: 0 <= i < |acks| ==> Truthful(acks[i], passed)
  }

  ghost predicate Honest(r: Run) {
    && AllTruthful(r.s.acks, r.passed) && Truthful(Ack(r.s.ackSeq, r.s.ackCount), r.passed)
    && r.s.unacked < MAX_ACK_PACKETS && r.s.unacked <= r.s.ackCount
    && (forall i :: 0 <= i < |r.s.acks| ==> r.s.acks[i].seqNo <= r.s.ackSeq)
  }

  ghost predicate Emitted(acks: seq<Ack>, p: nat) {
    exists i :: 0 <= i < |acks| && acks[i].Names(p)
  }

  /** Acknowledged, or among the last numbers received in a row with the timer armed. */
  ghost predicate Answered(s: State, p: nat) {
    Emitted(s.acks, p) || (s.armed && s.ackSeq - s.unacked < p <= s.ackSeq)
  }

  lemma EmittedAppend(acks: seq<Ack>, a: Ack, p: nat)
    ensures Emitted(acks + [a], p) <==> Emitted(acks, p) || a.Names(p)
  {
    if Emitted(acks, p) {
      var i :| 0 <= i < |acks| && acks[i].Names(p);
      assert (acks + [a])[i].Names(p);
    }
    if a.Names(p) { assert (acks + [a])[|acks|].Names(p); }
  }

  lemma TruthfulMore(acks: seq<Ack>, passed: set<nat>, more: set<nat>)
    requires AllTruthful(acks, passed) && passed <= more
    ensures AllTruthful(acks, more)
  {
    forall i | 0 <= i < |acks| ensures Truthful(acks[i], more) { assert Truthful(acks[i], passed); }
  }

  lemma FlushHonest(r: Run)
    requires Honest(r)
    ensures Honest(r.(s := Flush(r.s))) && Flush(r.s).unacked == 0
    ensures Flush(r.s).ackSeq == r.s.ackSeq && Flush(r.s).ackCount == r.s.ackCount
  {}

  /** Passing a number keeps the acknowledgments truthful, and the receive position does not go back. */
  lemma PassHonest(r: Run, pktSeq: nat, sendAck: bool)
    requires Honest(r) && Near(r.s, pktSeq)
    ensures Honest(Step(r, Pass(pktSeq, sendAck))) && Acknowledge(r.s, pktSeq, sendAck).ackSeq >= r.s.ackSeq
  {
    var s, more := r.s, r.passed + {pktSeq};
    SignedExactly(pktSeq - s.ackSeq, TWO32);
    TruthfulMore(s.acks, r.passed, more);
    FlushHonest(r);
    assert Truthful(Ack(pktSeq, 0), more);
    TruthfulMore(Flush(s).acks, r.passed, more);
    if pktSeq == s.ackSeq + 1 {
      var count := if s.ackCount + 1 < MAX_ACK_COUNT then s.ackCount + 1 else MAX_ACK_COUNT;
      forall p: nat | Ack(pktSeq, count).Names(p) ensures p == 0 || p in more {
        assert p == pktSeq || Ack(s.ackSeq, s.ackCount).Names(p);
      }
      assert Truthful(Ack(pktSeq, count), more);
    }
  }

  lemma StepHonest(r: Run, e: Event)
    requires Honest(r) && (e.Pass? ==> Near(r.s, e.pktSeq))
    ensures Honest(Step(r, e)) && Step(r, e).s.ackSeq >= r.s.ackSeq && r.s.acks <= Step(r, e).s.acks
  {
    match e
    case Pass(pktSeq, sendAck) => PassHonest(r, pktSeq, sendAck);
    case AckTimeout => FlushHonest(r);
    case TransmitData =>
  }

  /** Nothing already answered is forgotten, whatever happens next. */
  lemma AnsweredStays(r: Run, e: Event, p: nat)
    requires Honest(r) && (e.Pass? ==> Near(r.s, e.pktSeq)) && Answered(r.s, p)
    ensures Answered(Step(r, e).s, p)
  {
    var s := r.s;
    var flushed := Ack(s.ackSeq, s.ackCount);
    EmittedAppend(s.acks, flushed, p);
    match e
    case AckTimeout =>
    case TransmitData =>
    case Pass(pktSeq, _) =>
      SignedExactly(pktSeq - s.ackSeq, TWO32);
      EmittedAppend(Flush(s).acks, Ack(pktSeq, 0), p);
      var count := if s.ackCount + 1 < MAX_ACK_COUNT then s.ackCount + 1 else MAX_ACK_COUNT;
      EmittedAppend(s.acks, Ack(pktSeq, count), p);
  }

  /** An acknowledgment that ends at this number has left the channel. */
  ghost predicate Carried(acks: seq<Ack>, seqNo: nat) {
    exists i :: 0 <= i < |acks| && acks[i].seqNo == seqNo
  }

  /**
   A number passed with send_ack goes unanswered exactly when it repeats the last number received, no
   acknowledgment that ends there has left, and no pending one is about to.
   */
  lemma PassAnsweredExactly(r: Run, pktSeq: nat)
    requires Honest(r) && Near(r.s, pktSeq)
    ensures Answered(Acknowledge(r.s, pktSeq, true), pktSeq) <==>
              pktSeq != r.s.ackSeq || Carried(r.s.acks, r.s.ackSeq) || (r.s.armed && r.s.unacked > 0)
  {
    var s := r.s;
    if pktSeq == s.ackSeq { CarriedIsEmitted(r); }
    SignedExactly(pktSeq - s.ackSeq, TWO32);
    EmittedAppend(Flush(s).acks, Ack(pktSeq, 0), pktSeq);
    var count := if s.ackCount + 1 < MAX_ACK_COUNT then s.ackCount + 1 else MAX_ACK_COUNT;
    EmittedAppend(s.acks, Ack(pktSeq, count), pktSeq);
  }

  lemma CarriedIsEmitted(r: Run)
    requires Honest(r)
    ensures Emitted(r.s.acks, r.s.ackSeq) <==> Carried(r.s.acks, r.s.ackSeq)
  {
    var acks := r.s.acks;
    if Carried(acks, r.s.ackSeq) {
      var i :| 0 <= i < |acks| && acks[i].seqNo == r.s.ackSeq;
      assert Truthful(acks[i], r.passed);
      assert acks[i].Names(r.s.ackSeq);
    }
  }

  lemma {:induction false} PlayHonest(events: seq<Event>, once: bool)
    requires Proper(events, once)
    ensures Honest(Play(START, events))
    decreases |events|
  {
    if events == [] {
      assert forall p: nat :: Ack(0, 0).Names(p) ==> p == 0;
    } else {
      PlayHonest(events[..|events| - 1], once);
      StepHonest(Play(START, events[..|events| - 1]), events[|events| - 1]);
    }
  }

  /**
   Acknowledgments are truthful: over any run of near numbers, every acknowledgment that left the channel
   names only numbers passed to acknowledge (or 0), at most sixteen of them.
   */
  lemma AcksAreTruthful(events: seq<Event>)
    requires Proper(events, false)
    ensures var r := Play(START, events);
            && AllTruthful(r.s.acks, r.passed) && r.s.unacked <= 3 && r.s.unacked <= r.s.ackCount
  {
    PlayHonest(events, false);
  }

  /** Over a run the receive position only grows and no acknowledgment is taken back. */
  lemma {:induction false} PositionNeverFalls(events: seq<Event>, n: nat)
    requires Proper(events, false) && n <= |events|
    ensures Play(START, events[..n]).s.ackSeq <= Play(START, events).s.ackSeq
    ensures Play(START, events[..n]).s.acks <= Play(START, events).s.acks
    decreases |events|
  {
    if n == |events| {
      assert events[..n] == events;
    } else {
      var front := events[..|events| - 1];
      assert front[..n] == events[..n];
      PositionNeverFalls(front, n);
      PlayHonest(front, false);
      StepHonest(Play(START, front), events[|events| - 1]);
    }
  }

  /**
   No acceptance goes unacknowledged: if each number is passed once, every number to be acknowledged is named
   by an acknowledgment that left, or is among the last `unacked` received in a row with the timer armed.
   */
  lemma {:induction false} NothingUnacknowledged(events: seq<Event>, p: nat)
    requires Proper(events, true) && p in Play(START, events).wanted
    ensures Answered(Play(START, events).s, p)
    decreases |events|
  {
    var front, e := events[..|events| - 1], events[|events| - 1];
    var r := Play(START, front);
    PlayHonest(front, true);
    if p in r.wanted {
      NothingUnacknowledged(front, p);
      AnsweredStays(r, e, p);
    } else {
      assert Truthful(Ack(r.s.ackSeq, r.s.ackCount), r.passed) && Ack(r.s.ackSeq, r.s.ackCount).Names(r.s.ackSeq);
      PassAnsweredExactly(r, p);
    }
  }

  /** When the timer fires, or a data packet leaves, nothing stays pending. */
  lemma TimeoutSettles(events: seq<Event>, e: Event, p: nat)
    requires Proper(events, true) && p in Play(START, events).wanted && !e.Pass?
    ensures Emitted(Step(Play(START, events), e).s.acks, p)
  {
    NothingUnacknowledged(events, p);
    PlayHonest(events, true);
    AnsweredStays(Play(START, events), e, p);
    var s := Play(START, events).s;
    EmittedAppend(s.acks, Ack(s.ackSeq, s.ackCount), p);
  }

  lemma PlayTwo(r: Run, e: Event, f: Event)
    ensures Play(r, [e, f]) == Step(Step(r, e), f)
  {
    hide Step;
    assert [e, f][..1] == [e] && [e][..0] == [];
    assert Play(r, []) == r;
    assert Play(r, [e]) == Step(r, e);
  }

  lemma FirstThenRepeat()
    ensures Acknowledge(FRESH, 1, false) == State(1, 1, 1, false, [])
    ensures Acknowledge(State(1, 1, 1, false, []), 1, true) == State(1, 1, 1, false, [])
  {
    SignedExactly(1, TWO32);
    SignedExactly(0, TWO32);
  }

  /** A repeated number can lose its acknowledgment: 1 comes without send_ack, then again with it. */
  lemma RepeatGoesUnanswered()
    ensures var r := Play(START, [Pass(1, false), Pass(1, true)]); 1 in r.wanted && !Answered(r.s, 1)
  {
    hide Play, Acknowledge;
    PlayTwo(START, Pass(1, false), Pass(1, true));
    FirstThenRepeat();
    assert Step(START, Pass(1, false)) == Run(State(1, 1, 1, false, []), {} + {1}, {});
  }
}
