/** Receive-window advertisement: the exponent the receiver sends and the window the sender reads from it. */
module Window {

  /** Free space from which `2 << 30` would have to be evaluated on a 32-bit int. */
  const SHIFT_LIMIT: nat := 0x3fff_ffff

  /** The largest window byte of section 4.10.1 of the SSS design. */
  const MAX_WINDOW_BYTE: nat := 158

  function Pow2(i: nat): (p: nat)
    ensures p > 0
  {
    if i == 0 then 1 else 2 * Pow2(i - 1)
  }

  lemma {:induction false} Pow2Monotone(i: nat, j: nat)
    requires i < j
    ensures 2 * Pow2(i) <= Pow2(j)
  {
    if i + 1 < j {
      Pow2Monotone(i, j - 1);
    }
  }

  /** Buffer space the receiver is willing to advertise. */
  function FreeSpace(bufferSize: int, used: int, available: int, minBuffer: nat): nat {
    var room := if bufferSize - used > 0 then bufferSize - used else 0;
    if available == 0 && used > 0 && room < minBuffer then minBuffer else room
  }

  /** The only i with 2^i - 1 <= rwin < 2^(i+1) - 1. */
  function Exponent(rwin: nat): (i: nat)
    ensures Pow2(i) - 1 <= rwin < Pow2(i + 1) - 1
  {
    if rwin == 0 then 0 else 1 + Exponent((rwin - 1) / 2)
  }

  lemma ExponentUnique(rwin: nat, i: nat)
    requires Pow2(i) - 1 <= rwin < Pow2(i + 1) - 1
    ensures i == Exponent(rwin)
  {
    var j := Exponent(rwin);
    if i < j {
      if i + 1 < j { Pow2Monotone(i + 1, j); }
      assert false;
    } else if j < i {
      if j + 1 < i { Pow2Monotone(j + 1, i); }
      assert false;
    }
  }

  /** The search loop of recalculate_receive_window; below SHIFT_LIMIT it never shifts past bit 30. */
  method FindExponent(rwin: nat) returns (i: nat)
    ensures i == Exponent(rwin)
    ensures rwin < SHIFT_LIMIT ==> i <= 29
  {
    i := 0;
    while Pow2(i + 1) - 1 <= rwin
      invariant Pow2(i) - 1 <= rwin
      invariant rwin < SHIFT_LIMIT ==> i <= 29
      decreases rwin + 1 - Pow2(i)
    {
      if i == 29 {
        assert Pow2(30) == 0x4000_0000 by { assert Pow2(15) == 0x8000; Pow2Add(15, 15); }
      }
      i := i + 1;
    }
    ExponentUnique(rwin, i);
  }

  lemma {:induction false} Pow2Add(i: nat, j: nat)
    ensures Pow2(i + j) == Pow2(i) * Pow2(j)
  {
    if i > 0 {
      Pow2Add(i - 1, j);
      assert Pow2(i + j) == 2 * Pow2(i - 1 + j);
    }
  }

  /** recalculate_transmit_window: clamp the byte, take its low five bits as the exponent. */
  function Decode(windowByte: nat): int {
    var b := if windowByte > MAX_WINDOW_BYTE then MAX_WINDOW_BYTE else windowByte;
    Pow2(b % 32) - 1
  }

  /** Bytes from 158 on, valid or not, stand for the same window; the largest of all takes a shift by 31. */
  lemma DecodeFits(windowByte: nat)
    ensures windowByte >= 158 ==> Decode(windowByte) == 0x3fff_ffff
    ensures 0 <= Decode(windowByte) <= 0x7fff_ffff
    ensures Decode(windowByte) <= 0x3fff_ffff <==> windowByte >= 158 || windowByte % 32 != 31
  {
    var b := if windowByte > MAX_WINDOW_BYTE then MAX_WINDOW_BYTE else windowByte;
    assert Pow2(30) == 0x4000_0000 by { assert Pow2(15) == 0x8000; Pow2Add(15, 15); }
    assert Pow2(31) == 2 * Pow2(30);
    if b % 32 < 30 { Pow2Monotone(b % 32, 30); }
  }

  /** What the sender believes is never more than the free space and never less than half of it. */
  lemma WindowAgreement(rwin: nat)
    requires rwin < SHIFT_LIMIT
    ensures Decode(Exponent(rwin)) <= rwin <= 2 * Decode(Exponent(rwin))
  {
    hide Decode, Exponent, Pow2;
    var i := Exponent(rwin);
    ExponentBound(rwin);
    SmallByte(i);
    NextPower(i);
  }

  lemma SmallByte(i: nat)
    requires i <= 29
    ensures Decode(i) == Pow2(i) - 1
  {
    hide Pow2;
  }

  lemma NextPower(i: nat)
    ensures Pow2(i + 1) == 2 * Pow2(i)
  {}

  lemma ExponentBound(rwin: nat)
    requires rwin < SHIFT_LIMIT
    ensures Exponent(rwin) <= 29
  {
    var i := Exponent(rwin);
    if i >= 30 {
      assert Pow2(15) == 0x8000;
      Pow2Add(15, 15);
      if i > 30 { Pow2Monotone(30, i); }
      assert false;
    }
  }

  /** When everything buffered is out of order, a full segment still fits the advertised window. */
  lemma GapAlwaysFillable(bufferSize: int, used: int, mtu: nat)
    requires used > 0 && bufferSize < SHIFT_LIMIT && 2 * mtu < SHIFT_LIMIT
    ensures Decode(Exponent(FreeSpace(bufferSize, used, 0, 2 * mtu))) >= mtu
  {
    WindowAgreement(FreeSpace(bufferSize, used, 0, 2 * mtu));
  }
}
