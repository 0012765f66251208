/** What the transmission records of a channel mean, told from the packets sent and the timeouts alone. */
module TransmitHistory {
  import opened TransmitEvents

  /** Packet n is the n-th packet sent. */
  datatype Log = Log(sent: seq<Send>, lost: seq<nat>) {
    /** Sent as data and not reported missed. */
    predicate Pending(n: nat) { 1 <= n <= |sent| && sent[n - 1].data && n !in lost }
  }

  const NOTHING: Log := Log([], [])

  /** A timeout reports packet after packet, and each report may send more. */
  function Reported(h: Log, n: nat, limit: nat, script: nat -> seq<Send>): (r: Log)
    requires limit <= |h.sent| + 1
    decreases if n < limit then limit - n else 0
  {
    if n >= limit then h
    else if h.Pending(n) then Reported(Log(h.sent + script(n), h.lost + [n]), n + 1, limit, script)
    else Reported(h, n + 1, limit, script)
  }

  function Logged(ops: seq<Op>): Log {
    if ops == [] then NOTHING
    else
      var h := Logged(ops[..|ops| - 1]);
      match ops[|ops| - 1]
      case SendPacket(p) => Log(h.sent + [p], h.lost)
      case TimerFires(script) => Reported(h, 0, |h.sent| + 1, script)
  }

  /** Packets up to `n` that are pending, and their bytes. */
  function PendingCount(h: Log, n: nat): nat {
    if n == 0 then 0 else PendingCount(h, n - 1) + if h.Pending(n) then 1 else 0
  }

  function PendingSize(h: Log, n: nat): nat
    requires n <= |h.sent|
  {
    if n == 0 then 0 else PendingSize(h, n - 1) + if h.Pending(n) then h.sent[n - 1].size else 0
  }

  /** What a timeout has to report: the pending packets of [from, to). */
  function PendingIn(h: Log, from: nat, to: nat): seq<nat>
    decreases if from < to then to - from else 0
  {
    if from >= to then [] else (if h.Pending(from) then [from] else []) + PendingIn(h, from + 1, to)
  }

  /** The event a log gives for a number; number 0 stands for the fictitious first packet. */
  function EventOf(h: Log, n: nat): Event
    requires n <= |h.sent|
  {
    if n == 0 then Event(0, false, false) else Event(h.sent[n - 1].size, h.sent[n - 1].data, h.Pending(n))
  }

  ghost predicate Recorded(s: State, h: Log) {
    && s.eventSequence == 0 && |s.events| == s.txSequence == |h.sent| + 1 && s.missed == h.lost
    && forall n :: 0 <= n <= |h.sent| ==> s.events[n] == EventOf(h, n)
  }

  // ---------------------------------------------------------------- sending

  ghost predicate LostKnown(h: Log) {
    forall i :: 0 <= i < |h.lost| ==> 1 <= h.lost[i] <= |h.sent|
  }

  lemma SendRecorded(s: State, h: Log, p: Send)
    requires Recorded(s, h) && LostKnown(h)
    ensures Recorded(Transmit(s, p), Log(h.sent + [p], h.lost)) && LostKnown(Log(h.sent + [p], h.lost))
  {
    var t, g := Transmit(s, p), Log(h.sent + [p], h.lost);
    forall n | 0 <= n <= |g.sent| ensures t.events[n] == EventOf(g, n) {
      if n <= |h.sent| { assert s.events[n] == EventOf(h, n); }
    }
  }

  lemma {:induction false} SendAllRecorded(s: State, h: Log, packets: seq<Send>)
    requires Recorded(s, h) && LostKnown(h)
    ensures Recorded(TransmitAll(s, packets), Log(h.sent + packets, h.lost))
    ensures LostKnown(Log(h.sent + packets, h.lost))
    decreases |packets|
  {
    if packets == [] {
      assert h.sent + packets == h.sent;
    } else {
      SendRecorded(s, h, packets[0]);
      SendAllRecorded(Transmit(s, packets[0]), Log(h.sent + [packets[0]], h.lost), packets[1..]);
      assert h.sent + [packets[0]] + packets[1..] == h.sent + packets;
    }
  }

  // ---------------------------------------------------------------- timeouts

  lemma GiveUpRecorded(s: State, h: Log, n: nat)
    requires Recorded(s, h) && LostKnown(h) && h.Pending(n)
    ensures Recorded(GiveUp(s, n), Log(h.sent, h.lost + [n])) && LostKnown(Log(h.sent, h.lost + [n]))
  {
    var t, g := GiveUp(s, n), Log(h.sent, h.lost + [n]);
    forall m | 0 <= m <= |g.sent| ensures t.events[m] == EventOf(g, m) {
      assert s.events[m] == EventOf(h, m);
    }
  }

  lemma {:induction false} LoopRecorded(s: State, h: Log, n: nat, limit: nat, script: nat -> seq<Send>)
    requires Recorded(s, h) && LostKnown(h) && limit <= |h.sent| + 1
    ensures Recorded(TimeoutFrom(s, n, limit, script), Reported(h, n, limit, script))
    ensures LostKnown(Reported(h, n, limit, script))
    decreases if n < limit then limit - n else 0
  {
    if n < limit {
      assert s.events[n] == EventOf(h, n);
      hide Recorded, LostKnown, GiveUp, TransmitAll;
      if h.Pending(n) {
        GiveUpRecorded(s, h, n);
        SendAllRecorded(GiveUp(s, n), Log(h.sent, h.lost + [n]), script(n));
        LoopRecorded(TransmitAll(GiveUp(s, n), script(n)), Log(h.sent + script(n), h.lost + [n]), n + 1, limit, script);
      } else {
        LoopRecorded(s, h, n + 1, limit, script);
      }
    }
  }

  lemma {:induction false} RunRecorded(ops: seq<Op>)
    ensures Recorded(Play(FRESH, ops), Logged(ops)) && LostKnown(Logged(ops))
    decreases |ops|
  {
    if ops != [] {
      var front := ops[..|ops| - 1];
      RunRecorded(front);
      var s, h := Play(FRESH, front), Logged(front);
      match ops[|ops| - 1]
      case SendPacket(p) => SendRecorded(s, h, p);
      case TimerFires(script) => LoopRecorded(s, h, 0, |h.sent| + 1, script);
    }
  }

  // ---------------------------------------------------------------- the counters

  lemma {:induction false} Tally(s: State, h: Log, n: nat)
    requires Recorded(s, h) && n <= |h.sent|
    ensures Count(s.events[..n + 1]) == PendingCount(h, n) && Size(s.events[..n + 1]) == PendingSize(h, n)
  {
    var e := s.events[n];
    assert e == EventOf(h, n);
    assert s.events[..n + 1] == s.events[..n] + [e];
    CountAppend(s.events[..n], [e]);
    assert [e][1..] == [];
    if n > 0 { Tally(s, h, n - 1); }
  }

  /**
   In every state of a run a packet is in flight if and only if it was sent as data and not reported missed, with
   the size it was sent with; numbers are given out one by one, and the counters are the number and the bytes of
   the packets in flight.
   */
  lemma InFlightExactly(ops: seq<Op>)
    ensures var s, h := Play(FRESH, ops), Logged(ops);
            && s.txSequence == |h.sent| + 1 == |s.events| && s.missed == h.lost
            && (forall n :: 1 <= n <= |h.sent| ==>
                  && (s.events[n].pipe <==> h.sent[n - 1].data && n !in s.missed)
                  && s.events[n].size == h.sent[n - 1].size)
            && s.inflightCount == PendingCount(h, |h.sent|) && s.inflightSize == PendingSize(h, |h.sent|)
  {
    RunRecorded(ops);
    RunAccounted(ops);
    var s, h := Play(FRESH, ops), Logged(ops);
    Tally(s, h, |h.sent|);
    assert s.events[..|h.sent| + 1] == s.events;
    forall n | 1 <= n <= |h.sent| ensures s.events[n] == EventOf(h, n) {}
  }

  /** Packets sent and reported later leave the numbers from `from` on as they were. */
  lemma {:induction false} PendingSame(h: Log, g: Log, from: nat, to: nat)
    requires h.sent <= g.sent && to <= |h.sent| + 1
    requires forall n :: from <= n < to ==> (n in h.lost <==> n in g.lost)
    ensures PendingIn(h, from, to) == PendingIn(g, from, to)
    decreases if from < to then to - from else 0
  {
    if from < to { PendingSame(h, g, from + 1, to); }
  }

  lemma OneMoreLost(h: Log, n: nat, packets: seq<Send>, limit: nat)
    requires limit <= |h.sent| + 1
    ensures PendingIn(h, n + 1, limit) == PendingIn(Log(h.sent + packets, h.lost + [n]), n + 1, limit)
  {
    forall m | n < m < limit ensures m in h.lost <==> m in h.lost + [n] {}
    PendingSame(h, Log(h.sent + packets, h.lost + [n]), n + 1, limit);
  }

  lemma {:induction false} ReportedIs(h: Log, n: nat, limit: nat, script: nat -> seq<Send>)
    requires limit <= |h.sent| + 1
    ensures Reported(h, n, limit, script).lost == h.lost + PendingIn(h, n, limit)
    decreases if n < limit then limit - n else 0
  {
    if n < limit {
      if h.Pending(n) {
        var g := Log(h.sent + script(n), h.lost + [n]);
        OneMoreLost(h, n, script(n), limit);
        ReportedIs(g, n + 1, limit, script);
        assert h.lost + [n] + PendingIn(h, n + 1, limit) == h.lost + ([n] + PendingIn(h, n + 1, limit));
      } else {
        ReportedIs(h, n + 1, limit, script);
        assert [] + PendingIn(h, n + 1, limit) == PendingIn(h, n + 1, limit);
      }
    } else {
      assert h.lost + [] == h.lost;
    }
  }

  /** A timeout after any run reports exactly the data packets sent before it and never reported, in order. */
  lemma TimeoutReportsExactly(ops: seq<Op>, script: nat -> seq<Send>)
    ensures var s, h := Play(FRESH, ops), Logged(ops);
            Play(FRESH, ops + [TimerFires(script)]).missed == s.missed + PendingIn(h, 1, |h.sent| + 1)
  {
    var longer := ops + [TimerFires(script)];
    assert longer[..|longer| - 1] == ops;
    RunRecorded(ops);
    RunRecorded(longer);
    var h := Logged(ops);
    ReportedIs(h, 0, |h.sent| + 1, script);
    assert [] + PendingIn(h, 1, |h.sent| + 1) == PendingIn(h, 1, |h.sent| + 1);
  }
}
