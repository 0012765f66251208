/** The TCP-like congestion window of a channel (compare section 3.1 of RFC 5681), in 32-bit arithmetic. */
module Congestion {
  import opened SequenceNumbers

  const CWND_MIN: nat := 2
  const CWND_MAX: nat := 0x10_0000

  datatype Window = Window(
    cwnd: nat,
    limited: bool,       // transmission was held back by the window since the last round trip
    ssthresh: nat,
    recovery: nat,       // highest number sent when the window was last cut
    txSequence: nat)     // next number to send

  const FRESH: Window := Window(CWND_MIN, true, CWND_MAX, 1, 1)

  function Min(a: nat, b: nat): nat { if a < b then a else b }

  function Max(a: nat, b: nat): nat { if a > b then a else b }

  /** cc_tcp::update: slow start; the sum is taken in 32 bits. */
  function Update(w: Window, newPackets: nat): Window {
    if newPackets > 0 && w.limited && w.cwnd < w.ssthresh
    then w.(cwnd := Min((w.cwnd + newPackets) % TWO32, w.ssthresh)) else w
  }

  /** cc_tcp::rtt_update: congestion avoidance, once each round trip. */
  function RttUpdate(w: Window): Window {
    w.(cwnd := if w.limited then (w.cwnd + 1) % TWO32 else w.cwnd, limited := false)
  }

  /** cc_and_rtt_update; `roundTrip` says that the acknowledgment passed the mark. */
  function Acked(w: Window, newPackets: nat, roundTrip: bool): Window {
    var u := Update(w, newPackets);
    var v := if roundTrip then RttUpdate(u) else u;
    v.(cwnd := Min(v.cwnd, CWND_MAX))
  }

  /** missed: one cut for all losses among the packets sent before the last cut. */
  function Missed(w: Window, seqNo: nat): Window {
    if seqNo <= w.recovery then w
    else
      var half := Max(w.cwnd / 2, CWND_MIN);
      w.(ssthresh := half, cwnd := half, recovery := w.txSequence)
  }

  /** timeout: back to slow start. */
  function Timeout(w: Window, inflight: nat): Window {
    w.(ssthresh := Max(inflight / 2, CWND_MIN), cwnd := CWND_MIN)
  }

  /** may_transmit */
  function MayTransmit(w: Window, inflight: nat): (Window, nat) {
    if w.cwnd > inflight then (w, w.cwnd - inflight) else (w.(limited := true), 0)
  }

  // ---------------------------------------------------------------- runs

  datatype Event =
    | AckArrives(newPackets: nat, roundTrip: bool)
    | LossDetected(seqNo: nat)
    | TimerFires(inflight: nat)
    | AsksToSend(inflight: nat)
    | Sends

  function Step(w: Window, e: Event): Window {
    match e
    case AckArrives(newPackets, roundTrip) => Acked(w, newPackets, roundTrip)
    case LossDetected(seqNo) => Missed(w, seqNo)
    case TimerFires(inflight) => Timeout(w, inflight)
    case AsksToSend(inflight) => MayTransmit(w, inflight).0
    case Sends => w.(txSequence := w.txSequence + 1)
  }

  function Play(w: Window, events: seq<Event>): Window {
    if events == [] then w else Step(Play(w, events[..|events| - 1]), events[|events| - 1])
  }

  ghost predicate InRange(w: Window) {
    CWND_MIN <= w.cwnd <= CWND_MAX && CWND_MIN <= w.ssthresh <= TWO32 / 2 && w.recovery <= w.txSequence
  }

  /** An update that takes the sum past 32 bits. */
  predicate Overflows(w: Window, newPackets: nat) {
    newPackets > 0 && w.limited && w.cwnd < w.ssthresh && (w.cwnd + newPackets) % TWO32 < CWND_MIN
  }

  /** The window leaves its range exactly when the 32-bit sum wraps round to 0 or 1 and no round trip mends it. */
  lemma AckedInRangeExactly(w: Window, newPackets: nat, roundTrip: bool)
    requires InRange(w) && newPackets < TWO32
    ensures InRange(Acked(w, newPackets, roundTrip)) <==>
            !(Overflows(w, newPackets) && !(roundTrip && (w.cwnd + newPackets) % TWO32 == CWND_MIN - 1))
  {
    if w.cwnd + newPackets < TWO32 { Unwrapped(w.cwnd + newPackets, TWO32); }
    Unwrapped(Update(w, newPackets).cwnd + 1, TWO32);
  }

  /** An acknowledgment of 2^32 - 2 packets in slow start: the sum is 0, and so is the window. */
  lemma OverflowShutsWindow()
    ensures var w := Window(2, true, 4, 1, 1); InRange(w) && Acked(w, 0xffff_fffe, false).cwnd == 0
  {
    assert (2 + 0xffff_fffe) % TWO32 == 0;
  }

  /** Arguments are 32 bits wide. */
  predicate Sized(e: Event) {
    && (e.AckArrives? ==> e.newPackets < TWO32)
    && (e.TimerFires? ==> e.inflight < TWO32)
  }

  ghost predicate AllSized(events: seq<Event>) {
    forall i :: 0 <= i < |events| ==> Sized(events[i])
  }

  /** The one event that takes the window out of its range. */
  predicate Strays(w: Window, e: Event) {
    && e.AckArrives? && Overflows(w, e.newPackets)
    && !(e.roundTrip && (w.cwnd + e.newPackets) % TWO32 == CWND_MIN - 1)
  }

  lemma StepInRangeExactly(w: Window, e: Event)
    requires InRange(w) && Sized(e)
    ensures InRange(Step(w, e)) <==> !Strays(w, e)
  {
    if e.AckArrives? { AckedInRangeExactly(w, e.newPackets, e.roundTrip); }
  }

  ghost predicate AlwaysInRange(events: seq<Event>) {
    forall n :: 0 <= n <= |events| ==> InRange(Play(FRESH, events[..n]))
  }

  ghost predicate NeverStrays(events: seq<Event>) {
    forall n :: 0 <= n < |events| ==> !Strays(Play(FRESH, events[..n]), events[n])
  }

  /**
   Over whole runs the window stays within its limits and the threshold above the minimum, exactly as long as
   no acknowledgment in slow start wraps the 32-bit sum.
   */
  lemma {:induction false} RunInRangeExactly(events: seq<Event>)
    requires AllSized(events)
    ensures AlwaysInRange(events) <==> NeverStrays(events)
    decreases |events|
  {
    hide InRange, Strays, Step, Sized, AllSized, AlwaysInRange, NeverStrays, Play;
    if events == [] {
      NoEvents();
    } else {
      var front, last := events[..|events| - 1], |events| - 1;
      SizedPrefix(events);
      PlayLast(events);
      RunInRangeExactly(front);
      PrefixesInRange(events);
      PrefixesStray(events);
      if InRange(Play(FRESH, front)) { StepInRangeExactly(Play(FRESH, front), events[last]); }
    }
  }

  lemma NoEvents()
    ensures AlwaysInRange([]) && NeverStrays([])
  {}

  lemma PlayLast(events: seq<Event>)
    requires events != []
    ensures Play(FRESH, events) == Step(Play(FRESH, events[..|events| - 1]), events[|events| - 1])
  {
    hide Step;
  }

  lemma SizedPrefix(events: seq<Event>)
    requires events != [] && AllSized(events)
    ensures AllSized(events[..|events| - 1]) && Sized(events[|events| - 1])
  {
    var front := events[..|events| - 1];
    forall i | 0 <= i < |front| ensures front[i] == events[i] {}
  }

  lemma PrefixesInRange(events: seq<Event>)
    requires events != []
    ensures AlwaysInRange(events) <==> AlwaysInRange(events[..|events| - 1]) && InRange(Play(FRESH, events))
    ensures AlwaysInRange(events[..|events| - 1]) ==> InRange(Play(FRESH, events[..|events| - 1]))
  {
    hide InRange, Play;
    var front := events[..|events| - 1];
    assert front[..|front|] == front && events[..|events|] == events;
    forall n | 0 <= n <= |front| ensures front[..n] == events[..n] {}
    if AlwaysInRange(events) {
      forall n | 0 <= n <= |front| ensures InRange(Play(FRESH, front[..n])) {
        assert InRange(Play(FRESH, events[..n]));
      }
    }
    if AlwaysInRange(front) && InRange(Play(FRESH, events)) {
      forall n | 0 <= n <= |events| ensures InRange(Play(FRESH, events[..n])) {
        if n < |events| { assert InRange(Play(FRESH, front[..n])); }
      }
    }
  }

  lemma PrefixesStray(events: seq<Event>)
    requires events != []
    ensures NeverStrays(events) <==>
              NeverStrays(events[..|events| - 1]) && !Strays(Play(FRESH, events[..|events| - 1]), events[|events| - 1])
  {
    hide Strays, Play;
    var front := events[..|events| - 1];
    forall n | 0 <= n < |front| ensures front[..n] == events[..n] && front[n] == events[n] {}
    if NeverStrays(events) {
      forall n | 0 <= n < |front| ensures !Strays(Play(FRESH, front[..n]), front[n]) {
        assert !Strays(Play(FRESH, events[..n]), events[n]);
      }
    }
    if NeverStrays(front) && !Strays(Play(FRESH, front), events[|events| - 1]) {
      forall n | 0 <= n < |events| ensures !Strays(Play(FRESH, events[..n]), events[n]) {
        if n < |front| { assert !Strays(Play(FRESH, front[..n]), front[n]); }
      }
    }
  }

  /** The mark of the last cut only moves forward, whatever happens. */
  lemma {:induction false} RecoveryGrows(w: Window, events: seq<Event>)
    requires w.recovery <= w.txSequence
    ensures Play(w, events).recovery >= w.recovery && Play(w, events).recovery <= Play(w, events).txSequence
    decreases |events|
  {
    if events != [] { RecoveryGrows(w, events[..|events| - 1]); }
  }

  /** However a run goes on after a cut, losing a packet sent before the cut does not cut again. */
  lemma OneCutPerWindow(w: Window, seqNo: nat, events: seq<Event>, lost: nat)
    requires seqNo > w.recovery && lost < w.txSequence
    ensures var v := Play(Missed(w, seqNo), events); Missed(v, lost) == v
  {
    RecoveryGrows(Missed(w, seqNo), events);
  }
}

/** The congestion control object of a channel. */
module CongestionControls {
  import opened SequenceNumbers
  import opened Congestion
  import Spec = Congestion

  class CcTcp {
    var cwnd: nat
    var cwndLimited: bool
    var ssthresh: nat
    var recovseq: nat
    var txSequence: nat

    ghost function View(): Window
      reads this
    {
      Window(cwnd, cwndLimited, ssthresh, recovseq, txSequence)
    }

    ghost predicate Valid()
      reads this
    {
      InRange(View())
    }

    constructor ()
      ensures Valid() && View() == FRESH
    {
      cwnd, cwndLimited, ssthresh, recovseq, txSequence := CWND_MIN, true, CWND_MAX, 1, 1;
    }

    method Update(newPackets: nat)
      modifies this
      ensures View() == Spec.Update(old(View()), newPackets)
    {
      if newPackets > 0 && cwndLimited && cwnd < ssthresh {
        cwnd := Min((cwnd + newPackets) % TWO32, ssthresh);
      }
    }

    method RttUpdate()
      modifies this
      ensures View() == Spec.RttUpdate(old(View()))
    {
      if cwndLimited { cwnd := (cwnd + 1) % TWO32; }
      cwndLimited := false;
    }

    /** The window stays in range unless the 32-bit sum wraps. */
    method CcAndRttUpdate(newPackets: nat, roundTrip: bool)
      requires Valid() && newPackets < TWO32
      modifies this
      ensures View() == Acked(old(View()), newPackets, roundTrip)
      ensures Valid() <==> !Strays(old(View()), AckArrives(newPackets, roundTrip))
    {
      StepInRangeExactly(View(), AckArrives(newPackets, roundTrip));
      Update(newPackets);
      if roundTrip { RttUpdate(); }
      cwnd := Min(cwnd, CWND_MAX);
    }

    method Missed(pktSeq: nat)
      requires Valid()
      modifies this
      ensures Valid() && View() == Spec.Missed(old(View()), pktSeq)
      ensures pktSeq <= old(recovseq) ==> View() == old(View())
      ensures pktSeq > old(recovseq) ==>
                cwnd == ssthresh && 2 * cwnd <= Max(old(cwnd), 2 * CWND_MIN) <= 2 * cwnd + 1 && recovseq == txSequence
    {
      if pktSeq <= recovseq { return; }
      ssthresh := cwnd / 2;
      ssthresh := Max(ssthresh, CWND_MIN);
      cwnd := ssthresh;
      recovseq := txSequence;
    }

    method Timeout(inflight: nat)
      requires Valid() && inflight < TWO32
      modifies this
      ensures Valid() && View() == Spec.Timeout(old(View()), inflight)
    {
      ssthresh := inflight / 2;
      ssthresh := Max(ssthresh, CWND_MIN);
      cwnd := CWND_MIN;
    }

    /** may_transmit: what is in flight and what may be added never exceed the window together. */
    method MayTransmit(inflight: nat) returns (allowance: nat)
      requires Valid()
      modifies this`cwndLimited
      ensures Valid() && (View(), allowance) == Spec.MayTransmit(old(View()), inflight)
      ensures inflight + allowance == Max(cwnd, inflight)
      ensures cwndLimited <==> old(cwndLimited) || allowance == 0
    {
      if cwnd > inflight {
        return cwnd - inflight;
      }
      cwndLimited := true;
      return 0;
    }
  }
}
