/** How far losses, timeouts and acknowledgments move the congestion window over whole runs, told from the events. */
module CongestionLaws {
  import opened SequenceNumbers
  import opened Congestion
  import Powers = Window

  // ---------------------------------------------------------------- what the events say

  /** The number the next packet takes. */
  function NextNumber(w: Window, events: seq<Event>): nat {
    if events == [] then w.txSequence
    else NextNumber(w, events[..|events| - 1]) + if events[|events| - 1].Sends? then 1 else 0
  }

  /** Losses up to this number belong to a cut that was made already. */
  function CutMark(w: Window, events: seq<Event>): nat {
    if events == [] then w.recovery
    else
      var front := events[..|events| - 1];
      if LostBeyond(events[|events| - 1], CutMark(w, front)) then NextNumber(w, front) else CutMark(w, front)
  }

  predicate LostBeyond(e: Event, mark: nat) { e.LossDetected? && e.seqNo > mark }

  /** How many losses were beyond the mark. */
  function Cuts(w: Window, events: seq<Event>): nat {
    if events == [] then 0
    else
      var front := events[..|events| - 1];
      Cuts(w, front) + if LostBeyond(events[|events| - 1], CutMark(w, front)) then 1 else 0
  }

  /** Packets acknowledged during the run. */
  function Packets(events: seq<Event>): nat {
    if events == [] then 0
    else Packets(events[..|events| - 1])
         + if events[|events| - 1].AckArrives? then events[|events| - 1].newPackets else 0
  }

  function RoundTrips(events: seq<Event>): nat {
    if events == [] then 0
    else RoundTrips(events[..|events| - 1]) + if EndsRoundTrip(events[|events| - 1]) then 1 else 0
  }

  predicate EndsRoundTrip(e: Event) { e.AckArrives? && e.roundTrip }

  /** The sender was refused for want of window, and no round trip ended since. */
  function HeldBack(w: Window, events: seq<Event>): bool {
    if events == [] then w.limited
    else
      var front, e := events[..|events| - 1], events[|events| - 1];
      (e.AsksToSend? && e.inflight >= Play(w, front).cwnd) || (HeldBack(w, front) && !EndsRoundTrip(e))
  }

  /** Round trips during which the sender was refused. */
  function HeldTrips(w: Window, events: seq<Event>): nat {
    if events == [] then 0
    else
      var front, e := events[..|events| - 1], events[|events| - 1];
      HeldTrips(w, front) + if EndsRoundTrip(e) && HeldBack(w, front) then 1 else 0
  }

  // ---------------------------------------------------------------- cuts

  lemma {:induction false} MarkIs(w: Window, events: seq<Event>)
    ensures Play(w, events).txSequence == NextNumber(w, events) && Play(w, events).recovery == CutMark(w, events)
    decreases |events|
  {
    if events != [] { MarkIs(w, events[..|events| - 1]); }
  }

  /** The window remembers having been the limit exactly until a round trip ends. */
  lemma {:induction false} LimitedExactly(w: Window, events: seq<Event>)
    ensures Play(w, events).limited <==> HeldBack(w, events)
    decreases |events|
  {
    if events != [] { LimitedExactly(w, events[..|events| - 1]); }
  }

  /** Halved `k` times, each time rounded down. */
  function Halved(a: nat, k: nat): nat {
    if k == 0 then a else Halved(a, k - 1) / 2
  }

  /** That is the quotient by 2^k. */
  lemma {:induction false} HalvedExactly(a: nat, k: nat)
    ensures Halved(a, k) * Powers.Pow2(k) <= a < (Halved(a, k) + 1) * Powers.Pow2(k)
  {
    if k > 0 {
      HalvedExactly(a, k - 1);
      var h, p := Halved(a, k - 1), Powers.Pow2(k - 1);
      Times(2 * (h / 2), h, p);
      Times(h + 1, 2 * (h / 2 + 1), p);
      Doubled(h / 2, p);
      Doubled(h / 2 + 1, p);
    }
  }

  lemma Times(a: nat, b: nat, p: nat)
    requires a <= b
    ensures a * p <= b * p
  {}

  lemma Doubled(h: nat, p: nat)
    ensures (2 * h) * p == h * (2 * p)
  {}

  /** Neither an acknowledgment nor a timeout. */
  ghost predicate OnlyLosses(events: seq<Event>) {
    forall i :: 0 <= i < |events| ==> !events[i].AckArrives? && !events[i].TimerFires?
  }

  /**
   Of all losses exactly those count that lie beyond the packets sent before the last one that counted, and k of
   these halve the window k times, down to the minimum; the threshold follows the window.
   */
  lemma {:induction false} LossesHalveExactly(w: Window, events: seq<Event>)
    requires CWND_MIN <= w.cwnd && OnlyLosses(events)
    ensures var v, k := Play(w, events), Cuts(w, events);
            && v.cwnd == Max(Halved(w.cwnd, k), CWND_MIN)
            && v.ssthresh == (if k == 0 then w.ssthresh else v.cwnd)
    decreases |events|
  {
    if events != [] {
      var front := events[..|events| - 1];
      forall i | 0 <= i < |front| ensures front[i] == events[i] {}
      LossesHalveExactly(w, front);
      MarkIs(w, front);
    }
  }

  /** No acknowledgment of the run makes the window larger. */
  ghost predicate NoGrowth(w: Window, events: seq<Event>) {
    events == [] ||
    var front := events[..|events| - 1];
    NoGrowth(w, front) && (events[|events| - 1].AckArrives? ==> Play(w, events).cwnd <= Play(w, front).cwnd)
  }

  /** With no growth in between, k losses that count leave at most a 2^k-th of the window, timeouts included. */
  lemma {:induction false} LossesCut(w: Window, events: seq<Event>)
    requires NoGrowth(w, events)
    ensures Play(w, events).cwnd <= Max(Halved(w.cwnd, Cuts(w, events)), CWND_MIN)
    decreases |events|
  {
    if events != [] {
      var front, e := events[..|events| - 1], events[|events| - 1];
      LossesCut(w, front);
      MarkIs(w, front);
      var u, bound := Play(w, front).cwnd, Max(Halved(w.cwnd, Cuts(w, front)), CWND_MIN);
      assert u / 2 <= bound / 2;
    }
  }

  // ---------------------------------------------------------------- growth

  /** Whatever happens, the window grows by no more than the packets acknowledged and the round trips that ended. */
  lemma {:induction false} GrowthBounded(w: Window, events: seq<Event>)
    ensures Play(w, events).cwnd <= Max(w.cwnd, CWND_MIN) + Packets(events) + RoundTrips(events)
    decreases |events|
  {
    if events != [] {
      var front, e := events[..|events| - 1], events[|events| - 1];
      GrowthBounded(w, front);
      if e.AckArrives? { AckGrowth(Play(w, front), e.newPackets, e.roundTrip); }
    }
  }

  lemma AckGrowth(w: Window, newPackets: nat, roundTrip: bool)
    ensures Acked(w, newPackets, roundTrip).cwnd <= w.cwnd + newPackets + if roundTrip then 1 else 0
  {
    ModLess(w.cwnd + newPackets);
    ModLess(Update(w, newPackets).cwnd + 1);
  }

  lemma ModLess(a: nat)
    ensures a % TWO32 <= a
  {}

  ghost predicate OnlyAcks(events: seq<Event>) {
    forall i :: 0 <= i < |events| ==> events[i].AckArrives? && !events[i].roundTrip
  }

  /**
   Below the threshold a window that was the limit grows by exactly the packets acknowledged until it meets the
   threshold (or the maximum); at the threshold, where every loss leaves it, acknowledgments alone do not move it.
   */
  lemma {:induction false} SlowStartExactly(w: Window, events: seq<Event>)
    requires OnlyAcks(events) && w.limited && w.cwnd <= w.ssthresh && w.cwnd <= CWND_MAX
    requires w.cwnd + Packets(events) < TWO32
    ensures var v := Play(w, events);
            v == w.(cwnd := Min(Min(w.cwnd + Packets(events), w.ssthresh), CWND_MAX))
    decreases |events|
  {
    if events != [] {
      var front, e := events[..|events| - 1], events[|events| - 1];
      forall i | 0 <= i < |front| ensures front[i] == events[i] {}
      SlowStartExactly(w, front);
      var u := Play(w, front);
      Unwrapped(u.cwnd + e.newPackets, TWO32);
    }
  }

  /** A timeout leaves the minimum window and half of what was in flight as the threshold, and reopens slow start. */
  lemma TimeoutReopens(w: Window, inflight: nat, events: seq<Event>)
    requires OnlyAcks(events) && w.limited && CWND_MIN + Packets(events) < TWO32
    ensures Step(w, TimerFires(inflight)).cwnd == CWND_MIN
    ensures Play(Step(w, TimerFires(inflight)), events).cwnd ==
              Min(Min(CWND_MIN + Packets(events), Max(inflight / 2, CWND_MIN)), CWND_MAX)
  {
    SlowStartExactly(Step(w, TimerFires(inflight)), events);
  }

  ghost predicate Lossless(events: seq<Event>) {
    forall i :: 0 <= i < |events| ==> !events[i].LossDetected? && !events[i].TimerFires?
  }

  /** At or above the threshold the window grows by exactly one for each round trip during which it was the limit. */
  lemma {:induction false} AvoidanceExactly(w: Window, events: seq<Event>)
    requires Lossless(events) && w.ssthresh <= w.cwnd <= CWND_MAX && CWND_MIN <= w.ssthresh
    ensures Play(w, events).cwnd == Min(w.cwnd + HeldTrips(w, events), CWND_MAX)
    ensures Play(w, events).ssthresh == w.ssthresh
    decreases |events|
  {
    if events != [] {
      var front := events[..|events| - 1];
      forall i | 0 <= i < |front| ensures front[i] == events[i] {}
      AvoidanceExactly(w, front);
      LimitedExactly(w, front);
      Unwrapped(Play(w, front).cwnd + 1, TWO32);
    }
  }
}
