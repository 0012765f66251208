/** Numbers that travel truncated: 24-bit packet numbers, 16-bit stream ids and 32-bit byte positions. */
module SequenceNumbers {

  const TWO16: int := 0x1_0000
  const TWO24: int := 0x100_0000
  const TWO32: int := 0x1_0000_0000
  const TWO64: int := 0x1_0000_0000_0000_0000

  /** Two's complement reading of the low bits of `x`, for a modulus `m`. */
  function Signed(x: int, m: int): (r: int)
    requires m > 0 && m % 2 == 0
    ensures -(m / 2) <= r < m / 2
  {
    (x + m / 2) % m - m / 2
  }

  function Int32(x: int): int { Signed(x, TWO32) }

  function Int16(x: int): int { Signed(x, TWO16) }

  /** The signed reading differs from the number by a multiple of the modulus. */
  lemma SignedCongruent(x: int, m: int) returns (q: int)
    requires m > 0 && m % 2 == 0
    ensures Signed(x, m) == x - q * m
  {
    q := (x + m / 2) / m;
  }

  /** Within half the modulus nothing is lost, and only there. */
  lemma SignedExactly(x: int, m: int)
    requires m > 0 && m % 2 == 0
    ensures Signed(x, m) == x <==> -(m / 2) <= x < m / 2
  {
    if -(m / 2) <= x < m / 2 {
      Unwrapped(x + m / 2, m);
    }
  }

  lemma Unwrapped(a: int, m: int)
    requires 0 <= a < m
    ensures a % m == a
  {}

  lemma {:induction false} MulZero(q: int, m: int)
    requires m > 0 && -m < q * m < m
    ensures q == 0
  {
    if q > 0 { MulMono(1, q, m); }
    if q < 0 { MulMono(q, -1, m); }
  }

  lemma MulMono(a: int, b: int, m: int)
    requires a <= b && m > 0
    ensures a * m <= b * m
  {
    assert (b - a) * m >= 0;
  }

  /** Congruent numbers read the same. */
  lemma SignedSame(x: int, y: int, k: int, m: int)
    requires m > 0 && m % 2 == 0 && x == y + k * m
    ensures Signed(x, m) == Signed(y, m)
  {
    var a := SignedCongruent(x, m);
    var b := SignedCongruent(y, m);
    var d := k + b - a;
    assert Signed(x, m) - Signed(y, m) == d * m by {
      assert x - a * m - (y - b * m) == k * m - a * m + b * m;
      assert k * m - a * m + b * m == (k - a + b) * m;
    }
    MulZero(d, m);
  }

  // ---------------------------------------------------------------- packet numbers

  /**
   derive_packet_seq: the difference of the two numbers shifted up by eight bits, as 32-bit integers, shifted
   back; the sum wraps at 64 bits, and a forward wrap gives 0.
   */
  function DerivePacketSeq(rxSequence: nat, txSeq: nat): nat {
    var shifted := Int32(Int32(txSeq * 0x100) - Int32(Int32(rxSequence) * 0x100));
    var seqDiff := shifted / 0x100;
    var pktSeq := (rxSequence + seqDiff) % TWO64;
    if seqDiff > 0 && pktSeq < rxSequence then 0 else pktSeq
  }

  /** The difference that derive_packet_seq works with is that of the low 24 bits. */
  lemma ShiftedDifference(rxSequence: nat, txSeq: nat)
    ensures Int32(Int32(txSeq * 0x100) - Int32(Int32(rxSequence) * 0x100)) == Int32((txSeq - rxSequence) * 0x100)
  {
    var a := SignedCongruent(txSeq * 0x100, TWO32);
    var b := SignedCongruent(rxSequence, TWO32);
    var c := SignedCongruent(Int32(rxSequence) * 0x100, TWO32);
    SignedSame(Int32(txSeq * 0x100) - Int32(Int32(rxSequence) * 0x100), (txSeq - rxSequence) * 0x100,
               c + b * 0x100 - a, TWO32);
  }

  lemma ShiftSigned(d: int)
    ensures Int32(d * 0x100) == Signed(d, TWO24) * 0x100
  {
    var q := SignedCongruent(d, TWO24);
    assert d * 0x100 == Signed(d, TWO24) * 0x100 + q * TWO32;
    SignedSame(d * 0x100, Signed(d, TWO24) * 0x100, q, TWO32);
    SignedExactly(Signed(d, TWO24) * 0x100, TWO32);
  }

  /** The result in plain terms: the signed 24-bit difference added to the last number received. */
  lemma DeriveIsNearest(rxSequence: nat, txSeq: nat)
    ensures var d := Signed(txSeq - rxSequence, TWO24);
            var p := (rxSequence + d) % TWO64;
            DerivePacketSeq(rxSequence, txSeq) == if d > 0 && p < rxSequence then 0 else p
  {
    ShiftedDifference(rxSequence, txSeq);
    ShiftSigned(txSeq - rxSequence);
    assert Signed(txSeq - rxSequence, TWO24) * 0x100 / 0x100 == Signed(txSeq - rxSequence, TWO24);
  }

  /**
   The full number is recovered from its low 24 bits, whatever the bits above them say, exactly when it lies
   within 2^23 of the last number received (which must itself not lie that close to a 64-bit wrap).
   */
  lemma PacketSeqRecoveredExactly(rxSequence: nat, number: nat, above: nat)
    requires TWO24 / 2 <= rxSequence < TWO64 - TWO24 / 2 && number < TWO64
    ensures
      DerivePacketSeq(rxSequence, number % TWO24 + above * TWO24) == number <==>
      -(TWO24 / 2) <= number - rxSequence < TWO24 / 2
  {
    var txSeq := number % TWO24 + above * TWO24;
    var d := Signed(txSeq - rxSequence, TWO24);
    assert txSeq - rxSequence == number - rxSequence + (above - number / TWO24) * TWO24;
    SignedSame(txSeq - rxSequence, number - rxSequence, above - number / TWO24, TWO24);
    DeriveIsNearest(rxSequence, txSeq);
    Unwrapped(rxSequence + d, TWO64);
    SignedExactly(number - rxSequence, TWO24);
  }

  /** The sum in 64 bits, for a small difference next to a small number. */
  lemma EarlySum(rxSequence: nat, d: int)
    requires rxSequence < TWO24 / 2 && -(TWO24 / 2) <= d < TWO24 / 2
    ensures (rxSequence + d) % TWO64 == if rxSequence + d >= 0 then rxSequence + d else rxSequence + d + TWO64
  {
    if rxSequence + d >= 0 { Unwrapped(rxSequence + d, TWO64); }
  }

  /** Reading a difference of up to 64 bits in 24 is right when it is small, and off by 2^64 when it is huge. */
  lemma SignedOfDifference(d: int)
    requires -(TWO24 / 2) < d < TWO64
    ensures Signed(d, TWO24) == d <==> d < TWO24 / 2
    ensures Signed(d, TWO24) == d - TWO64 <==> d >= TWO64 - TWO24 / 2
  {
    SignedExactly(d, TWO24);
    if d >= TWO64 - TWO24 / 2 {
      SignedSame(d, d - TWO64, TWO64 / TWO24, TWO24);
      SignedExactly(d - TWO64, TWO24);
    }
  }

  /**
   While the last number received is below 2^23, a number is recovered exactly when it lies less than 2^23
   above, or so far above that the difference wraps round 64 bits.
   */
  lemma EarlyPacketSeqRecoveredExactly(rxSequence: nat, number: nat, above: nat)
    requires rxSequence < TWO24 / 2 && number < TWO64
    ensures
      DerivePacketSeq(rxSequence, number % TWO24 + above * TWO24) == number <==>
      number - rxSequence < TWO24 / 2 || number - rxSequence >= TWO64 - TWO24 / 2
  {
    var txSeq := number % TWO24 + above * TWO24;
    assert txSeq - rxSequence == number - rxSequence + (above - number / TWO24) * TWO24;
    SignedSame(txSeq - rxSequence, number - rxSequence, above - number / TWO24, TWO24);
    DeriveIsNearest(rxSequence, txSeq);
    hide Signed, DerivePacketSeq;
    SignedOfDifference(number - rxSequence);
    EarlySum(rxSequence, Signed(number - rxSequence, TWO24));
  }

  /**
   Just below the 64-bit limit a number is recovered exactly when it lies within 2^23; what would lie beyond the limit
   comes out as 0.
   */
  lemma LatePacketSeqRecoveredExactly(rxSequence: nat, number: nat, above: nat)
    requires TWO64 - TWO24 / 2 <= rxSequence < TWO64 && 0 < number < TWO64
    ensures
      DerivePacketSeq(rxSequence, number % TWO24 + above * TWO24) == number <==>
      -(TWO24 / 2) <= number - rxSequence < TWO24 / 2
  {
    var txSeq := number % TWO24 + above * TWO24;
    assert txSeq - rxSequence == number - rxSequence + (above - number / TWO24) * TWO24;
    SignedSame(txSeq - rxSequence, number - rxSequence, above - number / TWO24, TWO24);
    DeriveIsNearest(rxSequence, txSeq);
    hide DerivePacketSeq;
    var d := Signed(number - rxSequence, TWO24);
    LateSum(rxSequence, d);
    SignedExactly(number - rxSequence, TWO24);
  }

  lemma LateSum(rxSequence: nat, d: int)
    requires TWO64 - TWO24 / 2 <= rxSequence < TWO64 && -(TWO24 / 2) <= d < TWO24 / 2
    ensures (rxSequence + d) % TWO64 == if rxSequence + d < TWO64 then rxSequence + d else rxSequence + d - TWO64
  {
    if rxSequence + d < TWO64 { Unwrapped(rxSequence + d, TWO64); }
  }

  // ---------------------------------------------------------------- stream counters

  /** rx_substream: the counter a 16-bit id stands for, next to the highest counter received. */
  function Extrapolate(received: nat, sid: nat): int {
    received + Int16(sid - Int16(received))
  }

  lemma CounterRecoveredExactly(received: nat, counter: nat)
    ensures Extrapolate(received, counter % TWO16) == counter <==> -(TWO16 / 2) <= counter - received < TWO16 / 2
  {
    var q := SignedCongruent(received, TWO16);
    var x := counter % TWO16 - Int16(received);
    assert x == counter - received + (q - counter / TWO16) * TWO16;
    SignedSame(x, counter - received, q - counter / TWO16, TWO16);
    SignedExactly(counter - received, TWO16);
  }

  /** The receiving channel over a whole run: the counters it forms, and the highest it has seen. */
  function Receive(received: nat, sids: seq<nat>): (seq<int>, nat)
    decreases |sids|
  {
    if sids == [] then ([], received)
    else
      var counter := Extrapolate(received, sids[0]);
      var (rest, highest) := Receive(if counter > received then counter else received, sids[1..]);
      ([counter] + rest, highest)
  }

  function Low16(counters: seq<nat>): seq<nat> {
    if counters == [] then [] else [counters[0] % TWO16] + Low16(counters[1..])
  }

  /** Each counter lies within 2^15 of the highest one before it. */
  ghost predicate Follow(received: nat, counters: seq<nat>)
    decreases |counters|
  {
    counters == [] ||
    (-(TWO16 / 2) <= counters[0] - received < TWO16 / 2
     && Follow(if counters[0] > received then counters[0] else received, counters[1..]))
  }

  /**
   Both ends form the same stream counters, in whatever order the new streams arrive, and the receiver keeps the
   highest.
   */
  lemma {:induction false} CountersAgree(received: nat, counters: seq<nat>)
    requires Follow(received, counters)
    ensures |Receive(received, Low16(counters)).0| == |counters|
    ensures forall i :: 0 <= i < |counters| ==> Receive(received, Low16(counters)).0[i] == counters[i]
    ensures forall i :: 0 <= i < |counters| ==> counters[i] <= Receive(received, Low16(counters)).1
    ensures received <= Receive(received, Low16(counters)).1
    ensures Receive(received, Low16(counters)).1 == received || Receive(received, Low16(counters)).1 in counters
    decreases |counters|
  {
    if counters != [] {
      CounterRecoveredExactly(received, counters[0]);
      assert Low16(counters)[1..] == Low16(counters[1..]);
      CountersAgree(if counters[0] > received then counters[0] else received, counters[1..]);
    }
  }

  // ---------------------------------------------------------------- byte positions

  /** rx_data compares 32-bit positions by their signed difference, which is the true one exactly within 2^31. */
  lemma PositionOrderExactly(pos: nat, byteSeq: nat)
    ensures Int32(pos % TWO32 - byteSeq % TWO32) == pos - byteSeq <==> -(TWO32 / 2) <= pos - byteSeq < TWO32 / 2
  {
    var x := pos % TWO32 - byteSeq % TWO32;
    assert x == pos - byteSeq + (byteSeq / TWO32 - pos / TWO32) * TWO32;
    SignedSame(x, pos - byteSeq, byteSeq / TWO32 - pos / TWO32, TWO32);
    SignedExactly(pos - byteSeq, TWO32);
  }
}
