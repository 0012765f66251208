/**
 Which acknowledgments leave a channel, told from the numbers that arrived alone: the highest number so far, where
 its unbroken stretch began, and how many numbers in a row are pending.
 */
module AckLaws {
  import opened SequenceNumbers
  import opened ChannelAcks

  // ---------------------------------------------------------------- what the events say

  /** The highest number passed so far. */
  function Highest(events: seq<Event>): nat {
    if events == [] then 0
    else
      var h, e := Highest(events[..|events| - 1]), events[|events| - 1];
      if e.Pass? && e.pktSeq > h then e.pktSeq else h
  }

  /** The number at which the highest last jumped over others; from there on all numbers came in a row. */
  function StretchStart(events: seq<Event>): nat {
    if events == [] then 0
    else
      var front, e := events[..|events| - 1], events[|events| - 1];
      if e.Pass? && e.pktSeq > Highest(front) + 1 then e.pktSeq else StretchStart(front)
  }

  function Lesser(a: int, b: int): int { if a < b then a else b }

  /** The acknowledgment of the stretch: as much of it as a count of 15 reaches. */
  function FullAck(events: seq<Event>): Ack {
    Ack(Highest(events), Lesser(Highest(events) - StretchStart(events), 15))
  }

  /** The event continues the stretch. */
  predicate InRow(front: seq<Event>, e: Event) { e.Pass? && e.pktSeq == Highest(front) + 1 }

  /** The event passes a number out of order, before or beyond the stretch. */
  predicate OutOfRow(front: seq<Event>, e: Event) {
    e.Pass? && e.pktSeq != Highest(front) && e.pktSeq != Highest(front) + 1
  }

  /** Numbers that came in a row since the last acknowledgment of the stretch; the fourth is not kept waiting. */
  function Pending(events: seq<Event>): nat {
    if events == [] then 0
    else
      var front, e := events[..|events| - 1], events[|events| - 1];
      if InRow(front, e) then (Pending(front) + 1) % 4
      else if OutOfRow(front, e) || !e.Pass? then 0
      else Pending(front)
  }

  /** Some pending number was to be acknowledged. */
  predicate Awaited(events: seq<Event>) {
    events != [] &&
    var front, e := events[..|events| - 1], events[|events| - 1];
    if InRow(front, e) then Pending(events) > 0 && (e.sendAck || Awaited(front))
    else e.Pass? && !OutOfRow(front, e) && Awaited(front)
  }

  /** What the last event sends: the stretch if it is due, and a number out of order on its own. */
  function Sends(events: seq<Event>): seq<Ack>
    requires events != []
  {
    var front, e := events[..|events| - 1], events[|events| - 1];
    if e.TransmitData? then [FullAck(front)]
    else if InRow(front, e) then if Pending(front) == 3 then [FullAck(events)] else []
    else if OutOfRow(front, e) || e.AckTimeout? then
      (if Pending(front) > 0 then [FullAck(front)] else [])
      + (if e.Pass? && e.sendAck then [Ack(e.pktSeq, 0)] else [])
    else []
  }

  function AllSent(events: seq<Event>): seq<Ack> {
    if events == [] then [] else AllSent(events[..|events| - 1]) + Sends(events)
  }

  // ---------------------------------------------------------------- the channel does just that

  /** The state the events ask for. */
  ghost predicate AsTold(s: State, events: seq<Event>) {
    && Ack(s.ackSeq, s.ackCount) == FullAck(events) && 0 <= s.ackCount
    && s.unacked == Pending(events) < 4 && (s.armed <==> Awaited(events)) && (s.armed ==> s.unacked > 0)
    && s.acks == AllSent(events)
  }

  lemma TimerAsTold(s: State, events: seq<Event>, front: seq<Event>)
    requires events != [] && front == events[..|events| - 1] && !events[|events| - 1].Pass? && AsTold(s, front)
    ensures events[|events| - 1].AckTimeout? ==> AsTold(Flush(s), events)
    ensures events[|events| - 1].TransmitData? ==> AsTold(Transmit(s), events)
  {
    assert AllSent(front) + [] == AllSent(front);
    assert [FullAck(front)] + [] == [FullAck(front)];
  }

  /** A number in a row: every fourth sends, and the timer runs if a pending number is to be acknowledged. */
  lemma RowEffect(s: State, pktSeq: nat, sendAck: bool)
    requires pktSeq == s.ackSeq + 1 && s.unacked < 4 && 0 <= s.ackCount <= 15
    ensures var t, count := Acknowledge(s, pktSeq, sendAck), Lesser(s.ackCount + 1, 15);
            && t.ackSeq == pktSeq && t.ackCount == count && t.unacked == (s.unacked + 1) % 4
            && (t.armed <==> t.unacked > 0 && (sendAck || s.armed))
            && t.acks == s.acks + if s.unacked == 3 then [Ack(pktSeq, count)] else []
  {
    SignedExactly(1, TWO32);
    assert s.acks + [] == s.acks;
  }

  lemma RowAsTold(s: State, events: seq<Event>, front: seq<Event>, e: Event)
    requires events != [] && front == events[..|events| - 1] && e == events[|events| - 1]
    requires AsTold(s, front) && InRow(front, e) && StretchStart(front) <= Highest(front)
    ensures AsTold(Acknowledge(s, e.pktSeq, e.sendAck), events)
  {
    hide Highest, StretchStart, Pending, Awaited, AllSent, Sends, Acknowledge;
    RowEffect(s, e.pktSeq, e.sendAck);
    RowIs(events, front, e);
  }

  lemma RowIs(events: seq<Event>, front: seq<Event>, e: Event)
    requires events != [] && front == events[..|events| - 1] && e == events[|events| - 1] && InRow(front, e)
    ensures Highest(events) == Highest(front) + 1 == e.pktSeq && StretchStart(events) == StretchStart(front)
    ensures Pending(events) == (Pending(front) + 1) % 4
    ensures Awaited(events) <==> Pending(events) > 0 && (e.sendAck || Awaited(front))
    ensures AllSent(events) == AllSent(front) + if Pending(front) == 3 then [FullAck(events)] else []
  {}

  /** A number out of order: what is pending leaves at once, then the answer to the number alone. */
  lemma BreakEffect(s: State, pktSeq: nat, sendAck: bool)
    requires Near(s, pktSeq) && pktSeq != s.ackSeq && pktSeq != s.ackSeq + 1
    ensures var t := Acknowledge(s, pktSeq, sendAck);
            && t.unacked == 0 && !t.armed
            && (if pktSeq > s.ackSeq then t.ackSeq == pktSeq && t.ackCount == 0
                else t.ackSeq == s.ackSeq && t.ackCount == s.ackCount)
            && t.acks == s.acks + ((if s.unacked > 0 then [Ack(s.ackSeq, s.ackCount)] else [])
                                   + if sendAck then [Ack(pktSeq, 0)] else [])
  {
    SignedExactly(pktSeq - s.ackSeq, TWO32);
    var stretch := if s.unacked > 0 then [Ack(s.ackSeq, s.ackCount)] else [];
    assert s.acks + [] == s.acks && stretch + [] == stretch;
    assert s.acks + (stretch + [Ack(pktSeq, 0)]) == s.acks + stretch + [Ack(pktSeq, 0)];
  }

  lemma BreakAsTold(s: State, events: seq<Event>, front: seq<Event>, e: Event)
    requires events != [] && front == events[..|events| - 1] && e == events[|events| - 1]
    requires AsTold(s, front) && OutOfRow(front, e) && Near(s, e.pktSeq)
    ensures AsTold(Acknowledge(s, e.pktSeq, e.sendAck), events)
  {
    hide Highest, StretchStart, Pending, Awaited, AllSent, Sends, Acknowledge;
    BreakEffect(s, e.pktSeq, e.sendAck);
    BreakIs(events, front, e);
  }

  lemma BreakIs(events: seq<Event>, front: seq<Event>, e: Event)
    requires events != [] && front == events[..|events| - 1] && e == events[|events| - 1] && OutOfRow(front, e)
    ensures if e.pktSeq > Highest(front) then Highest(events) == StretchStart(events) == e.pktSeq
            else Highest(events) == Highest(front) && StretchStart(events) == StretchStart(front)
    ensures Pending(events) == 0 && !Awaited(events)
    ensures AllSent(events) == AllSent(front) + ((if Pending(front) > 0 then [FullAck(front)] else [])
                                                 + (if e.sendAck then [Ack(e.pktSeq, 0)] else []))
  {}

  lemma RepeatAsTold(s: State, events: seq<Event>, front: seq<Event>, e: Event)
    requires events != [] && front == events[..|events| - 1] && e == events[|events| - 1]
    requires AsTold(s, front) && e.Pass? && e.pktSeq == Highest(front)
    ensures AsTold(Acknowledge(s, e.pktSeq, e.sendAck), events)
  {
    SignedExactly(0, TWO32);
    assert AllSent(front) + [] == AllSent(front);
  }

  lemma PassAsTold(s: State, events: seq<Event>, front: seq<Event>, e: Event)
    requires events != [] && front == events[..|events| - 1] && e == events[|events| - 1] && e.Pass?
    requires AsTold(s, front) && Near(s, e.pktSeq)
    ensures AsTold(Acknowledge(s, e.pktSeq, e.sendAck), events)
  {
    StretchBounds(front);
    if InRow(front, e) {
      RowAsTold(s, events, front, e);
    } else if OutOfRow(front, e) {
      BreakAsTold(s, events, front, e);
    } else {
      RepeatAsTold(s, events, front, e);
    }
  }

  lemma {:induction false} StretchBounds(events: seq<Event>)
    ensures StretchStart(events) <= Highest(events)
    decreases |events|
  {
    if events != [] { StretchBounds(events[..|events| - 1]); }
  }

  /**
   Over any run of near numbers the receive position is the highest number, the count is that of the stretch up to
   15, the timer runs exactly while a pending number is to be acknowledged, and what left the channel is exactly
   what the events ask for: every fourth number in a row, every timeout with something pending, every data packet
   and every break in the row sends the acknowledgment of the stretch, and a number out of order is answered alone.
   */
  lemma {:induction false} AcksExactly(events: seq<Event>)
    requires Proper(events, false)
    ensures AsTold(Play(START, events).s, events)
    decreases |events|
  {
    if events != [] {
      hide AsTold, Acknowledge, Flush, Transmit;
      var front := events[..|events| - 1];
      AcksExactly(front);
      var s := Play(START, front).s;
      match events[|events| - 1]
      case Pass(pktSeq, sendAck) => PassAsTold(s, events, front, events[|events| - 1]);
      case _ => TimerAsTold(s, events, front);
    }
  }

  /** Every number of the stretch has arrived. */
  lemma {:induction false} StretchArrived(events: seq<Event>, p: nat)
    ensures StretchStart(events) <= p <= Highest(events) ==> p == 0 || p in Play(START, events).passed
    decreases |events|
  {
    if events != [] { StretchArrived(events[..|events| - 1], p); }
  }

  /** The acknowledgment of the stretch names all of its last sixteen numbers, or all of it. */
  lemma FullAckNames(events: seq<Event>, p: nat)
    ensures FullAck(events).Names(p) <==> p <= Highest(events) && p >= StretchStart(events) && p + 15 >= Highest(events)
  {
    StretchBounds(events);
  }

  // ---------------------------------------------------------------- rows of numbers

  /** `more` continues the run with numbers in a row and nothing else. */
  ghost predicate Row(events: seq<Event>, more: seq<Event>) {
    more == [] ||
    var front := more[..|more| - 1];
    Row(events, front) && InRow(events + front, more[|more| - 1])
  }

  lemma {:induction false} RowPends(events: seq<Event>, more: seq<Event>)
    requires Row(events, more)
    ensures Pending(events) < 4
    ensures |AllSent(events + more)| == |AllSent(events)| + (Pending(events) + |more|) / 4
    ensures Pending(events + more) == (Pending(events) + |more|) % 4
    ensures Highest(events + more) == Highest(events) + |more| && StretchStart(events + more) == StretchStart(events)
    decreases |more|
  {
    hide Highest, StretchStart, Pending, Awaited, AllSent, Sends, InRow;
    PendingBelowFour(events);
    if more == [] {
      assert events + more == events;
    } else {
      var front, all := more[..|more| - 1], events + more;
      RowPends(events, front);
      OneMore(Pending(events) + |front|);
      assert all[..|all| - 1] == events + front && all[|all| - 1] == more[|more| - 1];
      RowIs(all, events + front, more[|more| - 1]);
    }
  }

  /** Of numbers that come in a row every fourth sends an acknowledgment, whatever they ask for. */
  lemma EveryFourth(events: seq<Event>, more: seq<Event>)
    requires Proper(events, false) && Proper(events + more, false) && Row(events, more)
    ensures var s, t := Play(START, events).s, Play(START, events + more).s;
            && |t.acks| == |s.acks| + (s.unacked + |more|) / 4 && t.unacked == (s.unacked + |more|) % 4
            && t.ackSeq == s.ackSeq + |more| && t.ackCount == Lesser(s.ackCount + |more|, 15)
  {
    hide Highest, StretchStart, Pending, Awaited, AllSent, Sends, Play, Proper, Row;
    AcksExactly(events);
    AcksExactly(events + more);
    RowPends(events, more);
  }

  lemma OneMore(a: nat)
    ensures (a + 1) / 4 == a / 4 + (if a % 4 == 3 then 1 else 0) && (a + 1) % 4 == (a % 4 + 1) % 4
  {}

  lemma {:induction false} PendingBelowFour(events: seq<Event>)
    ensures Pending(events) < 4
    decreases |events|
  {
    if events != [] { PendingBelowFour(events[..|events| - 1]); }
  }

  /** Numbers only come in a row from 1 on: nothing is lost or reordered. */
  ghost predicate Unbroken(events: seq<Event>) {
    events == [] ||
    var front, e := events[..|events| - 1], events[|events| - 1];
    Unbroken(front) && (e.Pass? ==> InRow(front, e))
  }

  /** While nothing is lost, every acknowledgment goes back to the first number, then to the last sixteen. */
  lemma {:induction false} CountRisesToFifteen(events: seq<Event>, i: nat)
    requires Proper(events, false) && Unbroken(events)
    ensures StretchStart(events) == 0
    ensures Play(START, events).s.ackCount == Lesser(Highest(events), 15)
    ensures i < |Play(START, events).s.acks| ==>
              Play(START, events).s.acks[i].count == Lesser(Play(START, events).s.acks[i].seqNo, 15)
    decreases |events|
  {
    AcksExactly(events);
    if events != [] {
      var front := events[..|events| - 1];
      CountRisesToFifteen(front, i);
      AcksExactly(front);
    }
  }
}
