/**
 The shell stream's in-band control messages: SOH starts a base-128 length, and a data SOH is escaped as
 a zero length. The decoder is a byte-driven machine; `resets` tells the intended machine (true) from the
 code as written (false), which stays in the length state after an escaped marker.
 */
module ShellCodec {
  import opened Segments

  const MARKER: byte := 1
  const ESCAPE: byte := 0x80
  const MAX_CONTROL: nat := 0x100_0000
  const INT_LIMIT: nat := 0x8000_0000

  /** What the receiver of a shell stream observes: data bytes and control messages, in order. */
  datatype Out = Byte(b: byte) | Message(msg: seq<byte>)

  // ---------------------------------------------------------------- encoder

  /** Big-endian base-128 digits; none for zero. */
  function Digits(n: nat): seq<byte> {
    if n == 0 then [] else Digits(n / 128) + [(n % 128) as byte]
  }

  /** The length bytes of a control message: digits, the last with its high bit set. */
  function LengthBytes(n: nat): seq<byte> {
    Digits(n / 128) + [(128 + n % 128) as byte]
  }

  function EncodeOut(o: Out): seq<byte> {
    match o
    case Byte(b) => if b == MARKER then [MARKER, ESCAPE] else [b]
    case Message(msg) => [MARKER] + LengthBytes(|msg|) + msg
  }

  function Wire(outs: seq<Out>): seq<byte> {
    if outs == [] then [] else EncodeOut(outs[0]) + Wire(outs[1..])
  }

  function Bytes(data: seq<byte>): seq<Out> {
    seq(|data|, i requires 0 <= i < |data| => Byte(data[i]))
  }

  /** Messages the encoder accepts: non-empty, with a length that fits an int. */
  predicate Sendable(outs: seq<Out>) {
    forall i :: 0 <= i < |outs| && outs[i].Message? ==> 0 < |outs[i].msg| < INT_LIMIT
  }

  // ---------------------------------------------------------------- decoder

  datatype Mode = Normal | Length(len: nat) | Body(len: nat, got: seq<byte>)

  datatype Decoded = Decoded(outs: seq<Out>, mode: Mode, rest: seq<byte>) {
    /** Bytes are left over only when a length was refused as too large. */
    predicate Refused() { rest != [] }

    function After(front: seq<Out>): Decoded { this.(outs := front + outs) }
  }

  function NextLength(len: nat, b: byte): nat {
    len * 128 + b as nat % 128
  }

  function Decode(resets: bool, mode: Mode, bytes: seq<byte>): Decoded
    decreases |bytes|
  {
    if bytes == [] then Decoded([], mode, [])
    else
      var b, rest := bytes[0], bytes[1..];
      match mode
      case Normal =>
        if b == MARKER then Decode(resets, Length(0), rest)
        else Decode(resets, Normal, rest).After([Byte(b)])
      case Length(len) =>
        if len >= MAX_CONTROL then Decoded([], mode, bytes)
        else
          var next := NextLength(len, b);
          if b < 128 then Decode(resets, Length(next), rest)
          else if next == 0 then
            Decode(resets, if resets then Normal else Length(0), rest).After([Byte(MARKER)])
          else Decode(resets, Body(next, []), rest)
      case Body(len, got) =>
        if |got| + 1 == len then Decode(resets, Normal, rest).After([Message(got + [b])])
        else Decode(resets, Body(len, got + [b]), rest)
  }

  /** Decoding chunk by chunk, as the bytes happen to arrive. */
  function DecodeChunks(resets: bool, mode: Mode, chunks: seq<seq<byte>>): Decoded
    decreases |chunks|
  {
    if chunks == [] then Decoded([], mode, [])
    else
      var first := Decode(resets, mode, chunks[0]);
      if first.Refused() then first.(rest := first.rest + Join(chunks[1..]))
      else DecodeChunks(resets, first.mode, chunks[1..]).After(first.outs)
  }

  // ---------------------------------------------------------------- chunk independence

  lemma {:induction false} DecodeAppend(resets: bool, mode: Mode, a: seq<byte>, b: seq<byte>)
    ensures var first := Decode(resets, mode, a);
            Decode(resets, mode, a + b) ==
              if first.Refused() then first.(rest := first.rest + b)
              else Decode(resets, first.mode, b).After(first.outs)
    decreases |a|
  {
    if a == [] {
      assert a + b == b;
      assert Decode(resets, mode, b).outs == [] + Decode(resets, mode, b).outs;
    } else {
      assert (a + b)[1..] == a[1..] + b;
      var c := a[0];
      match mode
      case Normal =>
        DecodeAppend(resets, if c == MARKER then Length(0) else Normal, a[1..], b);
      case Length(len) =>
        if len < MAX_CONTROL {
          var next := NextLength(len, c);
          DecodeAppend(resets,
            if c < 128 then Length(next)
            else if next == 0 then (if resets then Normal else Length(0))
            else Body(next, []), a[1..], b);
        }
      case Body(len, got) =>
        DecodeAppend(resets, if |got| + 1 == len then Normal else Body(len, got + [c]), a[1..], b);
    }
  }

  /** However the bytes are split into chunks, the receiver observes the same. */
  lemma {:induction false} ChunkingIrrelevant(resets: bool, mode: Mode, chunks: seq<seq<byte>>)
    ensures DecodeChunks(resets, mode, chunks) == Decode(resets, mode, Join(chunks))
    decreases |chunks|
  {
    if chunks != [] {
      JoinFirst(chunks);
      DecodeAppend(resets, mode, chunks[0], Join(chunks[1..]));
      var first := Decode(resets, mode, chunks[0]);
      if !first.Refused() {
        ChunkingIrrelevant(resets, first.mode, chunks[1..]);
      }
    }
  }

  // ---------------------------------------------------------------- control lengths

  /** Reading the digits of n from a fresh length state yields n; the size check does not fire. */
  lemma {:induction false} DecodeDigits(resets: bool, n: nat)
    requires n < MAX_CONTROL
    ensures Decode(resets, Length(0), Digits(n)) == Decoded([], Length(n), [])
  {
    if n > 0 {
      DecodeDigits(resets, n / 128);
      DigitRead(resets, n);
      hide Decode;
      DecodeAppend(resets, Length(0), Digits(n / 128), [(n % 128) as byte]);
    }
  }

  lemma DigitRead(resets: bool, n: nat)
    requires n < MAX_CONTROL
    ensures Decode(resets, Length(n / 128), [(n % 128) as byte]) == Decoded([], Length(n), [])
  {
    assert [(n % 128) as byte][1..] == [];
    assert NextLength(n / 128, (n % 128) as byte) == n;
  }

  lemma LastLengthByte(resets: bool, n: nat)
    requires 0 < n < INT_LIMIT
    ensures Decode(resets, Length(n / 128), [(128 + n % 128) as byte]) == Decoded([], Body(n, []), [])
  {
    var last := (128 + n % 128) as byte;
    assert NextLength(n / 128, last) == n;
    assert [last][1..] == [];
    assert Decode(resets, Body(n, []), []) == Decoded([], Body(n, []), []);
  }

  /** A length below 2^31 is read back exactly, without the size check firing and never as an escape. */
  lemma DecodeLength(resets: bool, n: nat)
    requires 0 < n < INT_LIMIT
    ensures Decode(resets, Length(0), LengthBytes(n)) == Decoded([], Body(n, []), [])
  {
    DecodeDigits(resets, n / 128);
    DecodeAppend(resets, Length(0), Digits(n / 128), [(128 + n % 128) as byte]);
    LastLengthByte(resets, n);
  }

  lemma {:induction false} DigitsFit(n: nat, k: nat)
    requires n < Power128(k)
    ensures |Digits(n)| <= k
  {
    if n > 0 { DigitsFit(n / 128, k - 1); }
  }

  function Power128(k: nat): nat {
    if k == 0 then 1 else 128 * Power128(k - 1)
  }

  /** The whole header of an int-sized message takes at most six of the ten bytes set aside for it. */
  lemma HeaderFits(n: nat)
    requires n < INT_LIMIT
    ensures 1 + |LengthBytes(n)| <= 6
  {
    assert Power128(4) == 128 * 128 * 128 * 128;
    DigitsFit(n / 128, 4);
  }

  /** `n` without its last `k` groups of seven bits. */
  function Shifted(n: nat, k: nat): nat {
    if k == 0 then n else Shifted(n / 128, k - 1)
  }

  lemma {:induction false} DigitsFormat(n: nat, i: nat)
    ensures n > 0 ==> Digits(n) != [] && 0 < Shifted(n, |Digits(n)| - 1) < 128
    ensures i < |Digits(n)| ==> Digits(n)[i] as int == Shifted(n, |Digits(n)| - 1 - i) % 128
  {
    if n > 0 {
      DigitsFormat(n / 128, i);
      if n / 128 == 0 { assert Digits(n / 128) == []; }
    }
  }

  /** The length in groups of seven bits, the highest first and not zero; the top bit marks the last byte only. */
  ghost predicate SevenBitGroups(header: seq<byte>, n: nat) {
    && header != [] && 0 < Shifted(n, |header| - 1) < 128
    && forall i :: 0 <= i < |header| ==>
         header[i] as int == Shifted(n, |header| - 1 - i) % 128 + if i == |header| - 1 then 128 else 0
  }

  lemma LengthFormat(n: nat)
    requires n > 0
    ensures SevenBitGroups(LengthBytes(n), n)
  {
    var header := LengthBytes(n);
    DigitsFormat(n / 128, 0);
    if n / 128 == 0 { assert Digits(n / 128) == []; }
    forall i | 0 <= i < |header| - 1
      ensures header[i] as int == Shifted(n, |header| - 1 - i) % 128
    {
      DigitsFormat(n / 128, i);
    }
  }

  /**
   What is on the wire: a data byte as it is, but SOH followed by 0x80; a message behind SOH and its length in groups of
   seven bits.
   */
  lemma WireFormat(o: Out)
    requires o.Message? ==> o.msg != []
    ensures o.Byte? ==> EncodeOut(o) == if o.b == 0x01 then [0x01, 0x80] else [o.b]
    ensures o.Message? ==>
              var k := |EncodeOut(o)| - |o.msg|;
              && k >= 2 && EncodeOut(o)[0] == 0x01
              && SevenBitGroups(EncodeOut(o)[1..k], |o.msg|) && EncodeOut(o)[k..] == o.msg
  {
    if o.Message? {
      LengthFormat(|o.msg|);
      var header := LengthBytes(|o.msg|);
      assert EncodeOut(o)[1..1 + |header|] == header;
    }
  }

  lemma {:induction false} DecodeBody(resets: bool, msg: seq<byte>, got: seq<byte>)
    requires msg != []
    ensures Decode(resets, Body(|got| + |msg|, got), msg) == Decoded([Message(got + msg)], Normal, [])
    decreases |msg|
  {
    if |msg| == 1 {
      assert got + msg == got + [msg[0]];
      assert msg[1..] == [];
    } else {
      DecodeBody(resets, msg[1..], got + [msg[0]]);
      assert got + [msg[0]] + msg[1..] == got + msg;
    }
  }

  /** Modes whose integers are within a 32-bit int. */
  predicate IntSized(mode: Mode) {
    match mode
    case Normal => true
    case Length(len) => len < INT_LIMIT
    case Body(len, got) => |got| < len < INT_LIMIT
  }

  /** For arbitrary input the length counter stays within an int. */
  lemma {:induction false} LengthsStayIntSized(resets: bool, mode: Mode, bytes: seq<byte>)
    requires IntSized(mode)
    ensures IntSized(Decode(resets, mode, bytes).mode)
    decreases |bytes|
  {
    if bytes != [] {
      var b, rest := bytes[0], bytes[1..];
      match mode
      case Normal =>
        LengthsStayIntSized(resets, if b == MARKER then Length(0) else Normal, rest);
      case Length(len) =>
        if len < MAX_CONTROL {
          var next := NextLength(len, b);
          LengthsStayIntSized(resets,
            if b < 128 then Length(next)
            else if next == 0 then (if resets then Normal else Length(0))
            else Body(next, []), rest);
        }
      case Body(len, got) =>
        LengthsStayIntSized(resets, if |got| + 1 == len then Normal else Body(len, got + [b]), rest);
    }
  }

  // ---------------------------------------------------------------- round trip

  /** One item, decoded from the normal state. */
  lemma DecodeItem(resets: bool, o: Out)
    requires o.Message? ==> 0 < |o.msg| < INT_LIMIT
    ensures Decode(resets, Normal, EncodeOut(o)) ==
              Decoded([o], if o == Byte(MARKER) && !resets then Length(0) else Normal, [])
  {
    match o
    case Byte(b) =>
      assert [Byte(b)] + [] == [Byte(b)];
      if b == MARKER {
        assert [MARKER, ESCAPE][1..] == [ESCAPE] && [ESCAPE][1..] == [];
        assert NextLength(0, ESCAPE) == 0;
        var next := if resets then Normal else Length(0);
        assert Decode(resets, next, []) == Decoded([], next, []);
        assert Decode(resets, Length(0), [ESCAPE]) == Decoded([Byte(MARKER)], next, []);
      } else {
        assert [b][1..] == [];
        assert Decode(resets, Normal, []) == Decoded([], Normal, []);
      }
    case Message(msg) =>
      assert EncodeOut(o)[1..] == LengthBytes(|msg|) + msg;
      DecodeAppend(resets, Length(0), LengthBytes(|msg|), msg);
      DecodeLength(resets, |msg|);
      DecodeBody(resets, msg, []);
      assert [] + msg == msg;
      assert [] + [Message(msg)] == [Message(msg)];
  }

  /** No marker is followed by anything: the only transmissions the code as written decodes. */
  predicate MarkersOnlyLast(outs: seq<Out>) {
    forall i :: 0 <= i < |outs| - 1 ==> outs[i] != Byte(MARKER)
  }

  lemma {:induction false} DecodeWire(resets: bool, outs: seq<Out>)
    requires Sendable(outs) && (resets || MarkersOnlyLast(outs))
    ensures var d := Decode(resets, Normal, Wire(outs));
            d.outs == outs && d.rest == [] && (resets ==> d.mode == Normal)
    decreases |outs|
  {
    if outs != [] {
      DecodeAppend(resets, Normal, EncodeOut(outs[0]), Wire(outs[1..]));
      DecodeItem(resets, outs[0]);
      if |outs| > 1 || resets {
        DecodeWire(resets, outs[1..]);
      } else {
        assert Wire(outs[1..]) == [];
      }
      assert [outs[0]] + outs[1..] == outs;
    }
  }

  /**
   Shell codec round trip: every sequence of data and control messages, split into chunks in any way, is
   observed unchanged and leaves the decoder ready for more.
   */
  lemma RoundTrip(outs: seq<Out>, chunks: seq<seq<byte>>)
    requires Sendable(outs) && Join(chunks) == Wire(outs)
    ensures DecodeChunks(true, Normal, chunks) == Decoded(outs, Normal, [])
  {
    ChunkingIrrelevant(true, Normal, chunks);
    DecodeWire(true, outs);
  }

  // ---------------------------------------------------------------- the code as written

  /** What can come out first when the decoder is (wrongly) in a length or body state. */
  lemma {:induction false} MisreadOutput(mode: Mode, bytes: seq<byte>)
    requires !mode.Normal? && (mode.Body? ==> |mode.got| < mode.len)
    ensures var outs := Decode(false, mode, bytes).outs;
            outs == [] || (mode.Length? && outs[0] == Byte(MARKER))
            || (outs[0].Message? && (mode.Body? ==> |outs[0].msg| == mode.len))
    decreases |bytes|
  {
    if bytes != [] {
      var b, rest := bytes[0], bytes[1..];
      match mode
      case Length(len) =>
        if len < MAX_CONTROL {
          var next := NextLength(len, b);
          if b < 128 { MisreadOutput(Length(next), rest); }
          else if next != 0 { MisreadOutput(Body(next, []), rest); }
        }
      case Body(len, got) =>
        if |got| + 1 < len { MisreadOutput(Body(len, got + [b]), rest); }
    }
  }

  /** Reading the digits of n on top of a non-zero length gives a larger length, or is refused. */
  lemma {:induction false} DigitsOnTop(n: nat, len: nat)
    requires len > 0
    ensures var d := Decode(false, Length(len), Digits(n));
            d.outs == [] && d.mode.Length? && (!d.Refused() ==> d.mode.len > n)
  {
    if n > 0 {
      DigitsOnTop(n / 128, len);
      DecodeAppend(false, Length(len), Digits(n / 128), [(n % 128) as byte]);
      assert [(n % 128) as byte][1..] == [];
    }
  }

  /** One length byte read by the code as written. */
  lemma LengthStep(len: nat, b: byte, rest: seq<byte>)
    requires len < MAX_CONTROL
    ensures Decode(false, Length(len), [b] + rest) ==
              if b < 128 then Decode(false, Length(NextLength(len, b)), rest)
              else if NextLength(len, b) == 0 then Decode(false, Length(0), rest).After([Byte(MARKER)])
              else Decode(false, Body(NextLength(len, b), []), rest)
  {
    assert ([b] + rest)[1..] == rest;
  }

  lemma ByteMisread(b: byte, tail: seq<byte>)
    ensures var outs := Decode(false, Length(0), EncodeOut(Byte(b)) + tail).outs;
            outs == [] || outs[0] != Byte(b)
  {
    if b == MARKER {
      hide Decode;
      assert EncodeOut(Byte(b)) + tail == [MARKER] + ([ESCAPE] + tail);
      LengthStep(0, MARKER, [ESCAPE] + tail);
      LengthStep(1, ESCAPE, tail);
      MisreadOutput(Body(128, []), tail);
    } else {
      MisreadOutput(Length(0), [b] + tail);
    }
  }

  lemma MessageMisread(msg: seq<byte>, tail: seq<byte>)
    ensures var outs := Decode(false, Length(0), EncodeOut(Message(msg)) + tail).outs;
            outs == [] || outs[0] != Message(msg)
  {
    hide Decode, LengthBytes;
    assert EncodeOut(Message(msg)) + tail == [MARKER] + (LengthBytes(|msg|) + (msg + tail));
    LengthStep(0, MARKER, LengthBytes(|msg|) + (msg + tail));
    LongerMisread(msg, tail);
  }

  /** After an escaped marker the code as written never reports the next item. */
  lemma MarkerThenMisread(o: Out, tail: seq<byte>)
    ensures var outs := Decode(false, Length(0), EncodeOut(o) + tail).outs;
            outs == [] || outs[0] != o
  {
    hide Decode, EncodeOut;
    match o
    case Byte(b) => ByteMisread(b, tail);
    case Message(msg) => MessageMisread(msg, tail);
  }

  /** A control header read on top of a length of one announces a longer message than was sent. */
  lemma LongerMisread(msg: seq<byte>, tail: seq<byte>)
    ensures var outs := Decode(false, Length(1), LengthBytes(|msg|) + (msg + tail)).outs;
            outs == [] || outs[0] != Message(msg)
  {
    var n := |msg|;
    var last, body := (128 + n % 128) as byte, msg + tail;
    assert LengthBytes(n) + body == Digits(n / 128) + ([last] + body);
    DigitsOnTop(n / 128, 1);
    DecodeAppend(false, Length(1), Digits(n / 128), [last] + body);
    var d := Decode(false, Length(1), Digits(n / 128));
    if !d.Refused() {
      assert ([last] + body)[1..] == body;
      var longer := NextLength(d.mode.len, last);
      assert longer > n;
      MisreadOutput(Body(longer, []), body);
    }
  }

  lemma {:induction false} WireAppend(a: seq<Out>, b: seq<Out>)
    ensures Wire(a + b) == Wire(a) + Wire(b)
  {
    if a == [] {
      assert a + b == b;
    } else {
      assert (a + b)[1..] == a[1..] + b;
      WireAppend(a[1..], b);
    }
  }

  /**
   The code as written round-trips a transmission exactly when no data byte equal to the marker is
   followed by anything.
   */
  lemma AsWrittenRoundTripsExactly(outs: seq<Out>)
    requires Sendable(outs)
    ensures Decode(false, Normal, Wire(outs)).outs == outs <==> MarkersOnlyLast(outs)
  {
    hide Decode, EncodeOut;
    if MarkersOnlyLast(outs) {
      DecodeWire(false, outs);
    } else {
      var i := FirstMarker(outs);
      var front, o, tail := outs[..i + 1], outs[i + 1], Wire(outs[i + 2..]);
      assert outs == front + outs[i + 1..] && outs[i + 1..] == [o] + outs[i + 2..];
      WireAppend(front, outs[i + 1..]);
      assert outs[i + 1..][1..] == outs[i + 2..];
      DecodeAppend(false, Normal, Wire(front), EncodeOut(o) + tail);
      FrontEndsInLength(outs, i);
      MarkerThenMisread(o, tail);
      var rest := Decode(false, Length(0), EncodeOut(o) + tail).outs;
      assert Decode(false, Normal, Wire(outs)).outs == front + rest;
      if rest != [] {
        assert (front + rest)[i + 1] == rest[0] != outs[i + 1];
      }
    }
  }

  lemma FirstMarker(outs: seq<Out>) returns (i: nat)
    requires !MarkersOnlyLast(outs)
    ensures i < |outs| - 1 && outs[i] == Byte(MARKER)
    ensures forall j :: 0 <= j < i ==> outs[j] != Byte(MARKER)
  {
    i := 0;
    while outs[i] != Byte(MARKER)
      invariant i < |outs| - 1
      invariant forall j :: 0 <= j < i ==> outs[j] != Byte(MARKER)
      invariant exists j :: i <= j < |outs| - 1 && outs[j] == Byte(MARKER)
      decreases |outs| - i
    {
      i := i + 1;
    }
  }

  lemma FrontEndsInLength(outs: seq<Out>, i: nat)
    requires Sendable(outs) && i < |outs| - 1 && outs[i] == Byte(MARKER)
    requires forall j :: 0 <= j < i ==> outs[j] != Byte(MARKER)
    ensures Decode(false, Normal, Wire(outs[..i + 1])) == Decoded(outs[..i + 1], Length(0), [])
  {
    var a := outs[..i];
    assert outs[..i + 1] == a + [outs[i]];
    WireAppend(a, [outs[i]]);
    assert Wire([outs[i]]) == EncodeOut(outs[i]) + Wire([]) == EncodeOut(outs[i]);
    DecodeAppend(false, Normal, Wire(a), EncodeOut(outs[i]));
    UnmarkedStaysNormal(a);
    DecodeItem(false, outs[i]);
  }

  lemma {:induction false} UnmarkedStaysNormal(outs: seq<Out>)
    requires Sendable(outs) && Byte(MARKER) !in outs
    ensures Decode(false, Normal, Wire(outs)) == Decoded(outs, Normal, [])
    decreases |outs|
  {
    if outs != [] {
      DecodeAppend(false, Normal, EncodeOut(outs[0]), Wire(outs[1..]));
      DecodeItem(false, outs[0]);
      UnmarkedStaysNormal(outs[1..]);
      assert [outs[0]] + outs[1..] == outs;
    }
  }

  /** Sending SOH and then 'A' is enough to lose the 'A'. */
  lemma AsWrittenLosesData()
    ensures Decode(false, Normal, Wire([Byte(1), Byte(65)])).outs == [Byte(1)]
  {
    assert Wire([Byte(1), Byte(65)]) == [1, 0x80, 65] by {
      assert [Byte(1), Byte(65)][1..] == [Byte(65)] && [Byte(65)][1..] == [];
      assert Wire([Byte(65)]) == [65] + Wire([]) == [65];
    }
    var w: seq<byte> := [1, 0x80, 65];
    assert w[1..] == [0x80, 65] && w[1..][1..] == [65] && w[1..][1..][1..] == [];
    assert Decode(false, Length(65), []) == Decoded([], Length(65), []);
    assert NextLength(0, 65) == 65;
    assert Decode(false, Length(0), w[1..][1..]) == Decoded([], Length(65), []);
    assert [Byte(MARKER)] + [] == [Byte(1)];
  }
}
