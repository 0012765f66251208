/** shell_stream: escaping on the way out, incremental decoding of whatever chunks come in. */
module ShellStreams {
  import opened Segments
  import opened ShellCodec

  datatype Packet = Null | Data(bytes: seq<byte>) | Control(msg: seq<byte>) | TooLarge

  datatype ReceiveState = RecvNormal | RecvLength | RecvMessage

  /** The items a packet reports. */
  function Outs(p: Packet): seq<Out> {
    match p
    case Data(bytes) => Bytes(bytes)
    case Control(msg) => [Message(msg)]
    case _ => []
  }

  /** memchr(data, ControlMarker): index of the first marker, or the length. */
  method FindMarker(data: seq<byte>) returns (i: nat)
    ensures i <= |data| && MARKER !in data[..i]
    ensures i < |data| ==> data[i] == MARKER
  {
    i := 0;
    while i < |data| && data[i] != MARKER
      invariant i <= |data| && MARKER !in data[..i]
    {
      i := i + 1;
    }
  }

  lemma {:induction false} PlainWire(data: seq<byte>)
    requires MARKER !in data
    ensures Wire(Bytes(data)) == data
  {
    if data != [] {
      assert Bytes(data)[1..] == Bytes(data[1..]);
      PlainWire(data[1..]);
    }
  }

  lemma WireSplit(data: seq<byte>, i: nat)
    requires i < |data|
    ensures Wire(Bytes(data)) == Wire(Bytes(data[..i])) + (EncodeOut(Byte(data[i])) + Wire(Bytes(data[i + 1..])))
  {
    var a, b := Bytes(data[..i]), Bytes(data[i..]);
    assert Bytes(data) == a + b;
    assert b[0] == Byte(data[i]) && b[1..] == Bytes(data[i + 1..]);
    WireAppend(a, b);
  }

  /** Escaping up to and including the first marker, then the rest. */
  lemma EscapeFirst(data: seq<byte>, i: nat)
    requires i < |data| && data[i] == MARKER && MARKER !in data[..i]
    ensures Wire(Bytes(data)) == data[..i + 1] + [ESCAPE] + Wire(Bytes(data[i + 1..]))
  {
    var tail := Wire(Bytes(data[i + 1..]));
    WireSplit(data, i);
    PlainWire(data[..i]);
    assert data[..i] + ([MARKER, ESCAPE] + tail) == data[..i + 1] + [ESCAPE] + tail;
  }

  lemma Regroup(sent: seq<byte>, a: seq<byte>, b: seq<byte>, rest: seq<byte>)
    ensures sent + (a + b + rest) == ((sent + a) + b) + rest
  {}

  lemma {:induction false} PlainDecode(resets: bool, data: seq<byte>, rest: seq<byte>)
    requires MARKER !in data
    ensures Decode(resets, Normal, data + rest) == Decode(resets, Normal, rest).After(Bytes(data))
    decreases |data|
  {
    if data == [] {
      assert data + rest == rest && Bytes(data) == [];
      assert Decode(resets, Normal, rest).outs == [] + Decode(resets, Normal, rest).outs;
    } else {
      assert (data + rest)[1..] == data[1..] + rest;
      PlainDecode(resets, data[1..], rest);
      assert Bytes(data) == [Byte(data[0])] + Bytes(data[1..]);
    }
  }

  /** Copying part of a message body into the control buffer. */
  lemma {:induction false} BodyDecode(resets: bool, len: nat, got: seq<byte>, part: seq<byte>, rest: seq<byte>)
    requires |got| < len && |got| + |part| <= len
    ensures Decode(resets, Body(len, got), part + rest) ==
              if |got| + |part| == len then Decode(resets, Normal, rest).After([Message(got + part)])
              else Decode(resets, Body(len, got + part), rest)
    decreases |part|
  {
    if part == [] {
      assert part + rest == rest && got + part == got;
    } else {
      assert (part + rest)[1..] == part[1..] + rest;
      if |got| + 1 == len {
        assert part == [part[0]] && part[1..] + rest == rest;
      } else {
        BodyDecode(resets, len, got + [part[0]], part[1..], rest);
        assert got + [part[0]] + part[1..] == got + part;
      }
    }
  }

  /** The control header, built backwards in a ten-byte array as send_control does. */
  method BuildHeader(size: nat) returns (header: seq<byte>)
    requires 0 < size < INT_LIMIT
    ensures header == [MARKER] + LengthBytes(size)
  {
    var hdr := new byte[10];
    var j, i, len: nat := 10, 9, size / 128;
    hdr[i] := (size % 128) as byte;
    assert Power128(4) == 128 * 128 * 128 * 128;
    DigitsFit(len, 4);
    while len > 0
      invariant 5 + |Digits(len)| <= i <= 9
      invariant Digits(size / 128) == Digits(len) + hdr[i..9]
      invariant hdr[9] == (size % 128) as byte
      decreases len
    {
      i := i - 1;
      hdr[i] := (len % 128) as byte;
      len := len / 128;
    }
    hdr[j - 1] := 128 + hdr[j - 1];
    assert hdr[i..j] == LengthBytes(size);
    i := i - 1;
    hdr[i] := MARKER;
    assert hdr[i..j] == [MARKER] + LengthBytes(size);
    header := hdr[i..j];
  }

  lemma AfterAfter(d: Decoded, a: seq<Out>, b: seq<Out>)
    ensures d.After(b).After(a) == d.After(a + b)
  {
    assert a + (b + d.outs) == (a + b) + d.outs;
  }

  class ShellStream {
    /** True for the state machine its comments describe, false for the code as written. */
    const resets: bool

    var sent: seq<byte>            // everything written to the underlying stream
    var source: seq<seq<byte>>     // what successive read_data calls will return
    var rx: seq<byte>              // unprocessed rest of the receive buffer
    var state: ReceiveState
    var ctlLen: nat
    var ctlBuffer: seq<byte>       // the part of the control message received so far

    constructor (resets: bool, source: seq<seq<byte>>)
      ensures Valid() && this.resets == resets && sent == []
      ensures Pending() == Decode(resets, Normal, Join(source))
    {
      this.resets := resets;
      this.source := source;
      sent, rx, state, ctlLen, ctlBuffer := [], [], RecvNormal, 0, [];
      new;
      assert [] + Join(source) == Join(source);
    }

    ghost predicate Valid()
      reads this
    {
      ctlLen < INT_LIMIT && (state == RecvMessage ==> |ctlBuffer| < ctlLen)
    }

    ghost function Mode(): Mode
      reads this
    {
      match state
      case RecvNormal => Normal
      case RecvLength => Length(ctlLen)
      case RecvMessage => Body(ctlLen, ctlBuffer)
    }

    ghost function Unread(): seq<byte>
      reads this
    {
      rx + Join(source)
    }

    /** Everything still to be observed from bytes that have not been processed yet. */
    ghost function Pending(): Decoded
      reads this
    {
      Decode(resets, Mode(), Unread())
    }

    method SendData(data: seq<byte>)
      modifies this`sent
      ensures sent == old(sent) + Wire(Bytes(data))
    {
      hide Wire, Bytes;
      var rest := data;
      var mark: nat := FindMarker(rest);
      while mark < |rest|
        invariant mark <= |rest| && MARKER !in rest[..mark]
        invariant mark < |rest| ==> rest[mark] == MARKER
        invariant sent + Wire(Bytes(rest)) == old(sent) + Wire(Bytes(data))
        decreases |rest|
      {
        EscapeFirst(rest, mark);
        Regroup(sent, rest[..mark + 1], [ESCAPE], Wire(Bytes(rest[mark + 1..])));
        sent := sent + rest[..mark + 1];
        sent := sent + [ESCAPE];
        rest := rest[mark + 1..];
        mark := FindMarker(rest);
      }
      assert rest[..mark] == rest;
      PlainWire(rest);
      sent := sent + rest;
    }

    method SendControl(msg: seq<byte>)
      requires 0 < |msg| < INT_LIMIT
      modifies this`sent
      ensures sent == old(sent) + EncodeOut(Message(msg))
    {
      var header := BuildHeader(|msg|);
      sent := sent + header;
      sent := sent + msg;
      assert old(sent) + header + msg == old(sent) + (header + msg);
    }

    /** read_data on the underlying stream into the empty receive buffer. */
    method Refill()
      requires rx == []
      modifies this`rx, this`source
      ensures Unread() == old(Unread())
      ensures if old(source) == [] then rx == [] && source == [] else [rx] + source == old(source)
    {
      if source != [] {
        JoinFirst(source);
        rx := source[0];
        source := source[1..];
      }
    }

    /** The length state of receive; the size check comes before a byte is taken. */
    method TakeLengthByte() returns (p: Packet)
      requires Valid() && state == RecvLength && rx != []
      modifies this
      ensures Valid() && old(Pending()) == Pending().After(Outs(p)) && !p.Control?
      ensures p.TooLarge? ==> Pending() == Decoded([], Mode(), Unread()) && Unread() != []
      ensures if p.TooLarge? then Unread() == old(Unread()) else |Unread()| < |old(Unread())|
      ensures source == old(source)
      ensures p.Data? ==> p.bytes == [MARKER]
    {
      if ctlLen >= MAX_CONTROL {
        assert Pending().After([]) == Pending();
        return TooLarge;
      }
      var ch := rx[0];
      assert Unread()[1..] == rx[1..] + Join(source);
      rx := rx[1..];
      ctlLen := ctlLen * 128 + ch as nat % 128;
      p := Null;
      if ch >= 128 {
        if ctlLen == 0 {
          if resets { state := RecvNormal; }
          assert Bytes([MARKER]) == [Byte(MARKER)];
          return Data([MARKER]);
        }
        state := RecvMessage;
        ctlBuffer := [];
      }
      assert Pending().After([]) == Pending();
    }

    /** The body state of receive: copy as much of the message as there is. */
    method TakeBody() returns (p: Packet)
      requires Valid() && state == RecvMessage && rx != []
      modifies this
      ensures Valid() && old(Pending()) == Pending().After(Outs(p)) && (p.Null? || p.Control?)
      ensures |Unread()| < |old(Unread())|
      ensures source == old(source)
    {
      var room := ctlLen - |ctlBuffer|;
      var act := if |rx| < room then |rx| else room;
      var part := rx[..act];
      assert Unread() == part + (rx[act..] + Join(source));
      BodyDecode(resets, ctlLen, ctlBuffer, part, rx[act..] + Join(source));
      rx := rx[act..];
      ctlBuffer := ctlBuffer + part;
      p := Null;
      if |ctlBuffer| == ctlLen {
        state := RecvNormal;
        p := Control(ctlBuffer);
        ctlBuffer := [];
      }
      assert Pending().After([]) == Pending();
    }

    /** The normal state of receive: a marker starts a length, anything before it is data. */
    method TakeNormal() returns (p: Packet)
      requires Valid() && state == RecvNormal && rx != []
      modifies this
      ensures Valid() && old(Pending()) == Pending().After(Outs(p)) && (p.Null? || p.Data?)
      ensures |Unread()| < |old(Unread())|
      ensures source == old(source)
      ensures p.Data? ==> p.bytes != [] && MARKER !in p.bytes
    {
      if rx[0] == MARKER {
        assert Unread()[1..] == rx[1..] + Join(source);
        state := RecvLength;
        ctlLen := 0;
        rx := rx[1..];
        assert Pending().After([]) == Pending();
        return Null;
      }
      var act := FindMarker(rx);
      p := Data(rx[..act]);
      assert Unread() == rx[..act] + (rx[act..] + Join(source));
      PlainDecode(resets, rx[..act], rx[act..] + Join(source));
      rx := rx[act..];
    }

    /** One pass of the receive loop over a non-empty buffer. */
    method Process() returns (p: Packet)
      requires Valid() && rx != []
      modifies this
      ensures Valid() && old(Pending()) == Pending().After(Outs(p)) && source == old(source)
      ensures if p.TooLarge? then Unread() == old(Unread()) else |Unread()| < |old(Unread())|
      ensures p.TooLarge? ==> Pending() == Decoded([], Mode(), Unread()) && Unread() != []
      ensures p.Data? ==> p.bytes != []
    {
      match state
      case RecvNormal => p := TakeNormal();
      case RecvLength => p := TakeLengthByte();
      case RecvMessage => p := TakeBody();
    }

    /**
     receive: one packet, or Null when nothing can be read at the moment. What remains pending is exactly
     what was pending before without the packet's items; every packet uses up unread bytes.
     */
    method Receive() returns (p: Packet)
      requires Valid()
      modifies this
      ensures Valid() && old(Pending()) == Pending().After(Outs(p))
      ensures |Unread()| <= |old(Unread())|
      ensures p.Data? || p.Control? ==> |Unread()| < |old(Unread())|
      ensures p.Data? ==> p.bytes != []
      ensures p.TooLarge? ==> Pending() == Decoded([], Mode(), Unread()) && Unread() != []
      ensures p.Null? ==> rx == [] && ([] !in old(source) ==> source == [])
      ensures [] !in old(source) ==> [] !in source
    {
      assert Pending().After([]) == Pending();
      while true
        invariant Valid() && Pending() == old(Pending())
        invariant |Unread()| <= |old(Unread())|
        invariant [] !in old(source) ==> [] !in source
        decreases |Unread()|, |source|
      {
        if rx == [] {
          Refill();
          if rx == [] {
            return Null;
          }
        }
        p := Process();
        if !p.Null? {
          return;
        }
        assert Pending().After([]) == Pending();
      }
    }

    /**
     The receiving loop of the shell client, on a stream whose chunks have all arrived: everything pending is
     observed unless a length is refused.
     */
    method ReceiveAll() returns (outs: seq<Out>)
      requires Valid() && [] !in source
      modifies this
      ensures Valid() && outs == old(Pending()).outs
      ensures !old(Pending()).Refused() ==> Unread() == [] && Mode() == old(Pending()).mode
    {
      outs := [];
      ghost var all := Pending();
      assert all.After([]) == all;
      var p := Receive();
      AfterAfter(Pending(), [], Outs(p));
      while p.Data? || p.Control?
        invariant Valid() && [] !in source
        invariant Pending().After(outs + Outs(p)) == all
        invariant p.TooLarge? ==> Pending() == Decoded([], Mode(), Unread()) && Unread() != []
        invariant p.Null? ==> Unread() == []
        decreases |Unread()|, if p.Data? || p.Control? then 1 else 0
      {
        outs := outs + Outs(p);
        p := Receive();
        AfterAfter(Pending(), outs, Outs(p));
      }
      assert outs + Outs(p) == outs;
      assert Pending().outs == [];
    }
  }
}
