/** The loops of the client's WebSocket code: the frame writer, the parse loop and the receive loop. */
module WsClient {
  import opened Bytes
  import opened Wrappers
  import opened Streams
  import opened Frames

  const TEXT: nat := 0x1
  const FIN: nat := 0x8

  /** The frame the client sends for a payload: one final text frame, masked, its length in the shortest form. */
  function TextFrame(payload: seq<byte>, mask: seq<byte>): (w: Wire)
    requires |payload| < STRING_LIMIT && |mask| == 4
    ensures ValidWire(w)
  {
    Wire(FIN, TEXT, MinimalForm(|payload|), Some(mask), payload)
  }

  /** The octets of a final, masked text frame: the shortest length form, the key, and every bit of the payload. */
  ghost predicate IsTextFrame(frame: seq<byte>, payload: seq<byte>, mask: seq<byte>) {
    var k := if |payload| < 126 then 2 else if |payload| <= 0xFFFF then 4 else 10;
    && |frame| == k + 4 + |payload| && frame[0] == 0x81 && frame[1] >= 128 && frame[k..k + 4] == mask
    && IsFrame(frame, k, 1, payload, |frame|)
  }

  lemma TextFrameOctets(payload: seq<byte>, mask: seq<byte>)
    requires |payload| < STRING_LIMIT && |mask| == 4
    ensures IsTextFrame(Serialize(TextFrame(payload, mask)), payload, mask)
  {
    var w := TextFrame(payload, mask);
    var s := Serialize(w);
    assert s + [] == s;
    ParseSerialize(w, []);
    ParsedOctets(s);
    Slices(w, []);
    ReadFirstTwo(w, s);
  }

  /** The octets before the key: final text frame, masked, the length in its shortest form. */
  method WritePrefix(len: nat, ghost w: Wire) returns (frame: seq<byte>)
    requires len < STRING_LIMIT && ValidWire(w) && w.key.Some? && |w.payload| == len
    requires w == Wire(FIN, TEXT, MinimalForm(len), w.key, w.payload)
    ensures frame == Prefix(w)
  {
    frame := [0x81];
    if len < 126 {
      frame := frame + [0x80 + len];
    } else if len <= 0xFFFF {
      frame := frame + [0x80 + 126];
      BigEndianAt(len, 2, 0);
      BigEndianAt(len, 2, 1);
      frame := frame + [ShiftOctets(len, 1) % 256] + [len % 256];
    } else {
      frame := frame + [0x80 + 127];
      var i := 7;
      while i >= 0
        invariant -1 <= i <= 7
        invariant frame == [0x81, 0x80 + 127] + BigEndian(len, 8)[..7 - i]
      {
        BigEndianAt(len, 8, 7 - i);
        frame := frame + [ShiftOctets(len, i) % 256];
        i := i - 1;
      }
    }
  }

  /** The loop that appends the masked payload. */
  method AppendMasked(header: seq<byte>, payload: seq<byte>, mask: seq<byte>) returns (frame: seq<byte>)
    requires |mask| == 4
    ensures frame == header + Mask(payload, mask)
  {
    frame := header;
    for i := 0 to |payload|
      invariant frame == header + Mask(payload[..i], mask)
    {
      assert payload[..i + 1][..i] == payload[..i];
      frame := frame + [Xor(payload[i], mask[i % 4])];
    }
    assert payload[..|payload|] == payload;
  }

  /** `SendFrame`, with the random mask as an argument; the octets go to `send` as they are. */
  method SendFrame(payload: seq<byte>, mask: seq<byte>) returns (frame: seq<byte>)
    requires |payload| < STRING_LIMIT && |mask| == 4
    ensures frame == Serialize(TextFrame(payload, mask))
    ensures IsTextFrame(frame, payload, mask)
    ensures mask == [0, 0, 0, 0] ==> frame[|frame| - |payload|..] == payload
  {
    var prefix := WritePrefix(|payload|, TextFrame(payload, mask));
    frame := AppendMasked(prefix + mask, payload, mask);
    TextFrameOctets(payload, mask);
    ZeroKey(payload);
  }

  lemma ZeroKey(payload: seq<byte>)
    requires |payload| < STRING_LIMIT
    ensures var s := Serialize(TextFrame(payload, [0, 0, 0, 0])); |s| >= |payload| && s[|s| - |payload|..] == payload
  {
    MaskZero(payload);
  }

  /** The octets of a network-order number, one after the other onto a 64-bit accumulator. */
  method ReadNumber(s: seq<byte>) returns (n: nat)
    requires |s| <= 8
    ensures n == Number(s)
  {
    n := 0;
    for i := 0 to |s|
      invariant n == Number(s[..i])
    {
      NumberFits(s[..i + 1]);
      assert s[..i + 1][..i] == s[..i];
      n := n * 256 % U64 + s[i];
    }
    assert s[..|s|] == s;
  }

  lemma Slice(s: seq<byte>, pos: nat, a: nat, b: nat)
    requires pos <= |s| && a <= b <= |s| - pos
    ensures s[pos..][a..b] == s[pos + a..pos + b]
  {}

  /** The header at position `pos`: nothing while octets of it are missing, otherwise its length and the payload's. */
  method NextHeader(rx: seq<byte>, pos: nat) returns (h: Option<(nat, nat)>)
    requires pos <= |rx|
    ensures var s := rx[pos..];
            h == if |s| < 2 || |s| < HeaderSize(s) then None else Some((HeaderSize(s), PayloadSize(s)))
  {
    ghost var s := rx[pos..];
    if |rx| - pos < 2 {
      return None;
    }
    var payloadLen: nat, headerLen: nat := rx[pos + 1] % 128, 2;
    if payloadLen == 126 {
      if |rx| - pos < 4 {
        return None;
      }
      Slice(rx, pos, 2, 4);
      payloadLen := ReadNumber(rx[pos + 2..pos + 4]);
      headerLen := 4;
    } else if payloadLen == 127 {
      if |rx| - pos < 10 {
        return None;
      }
      Slice(rx, pos, 2, 10);
      payloadLen := ReadNumber(rx[pos + 2..pos + 10]);
      headerLen := 10;
    }
    if rx[pos + 1] >= 128 {
      if |rx| - pos < headerLen + 4 {
        return None;
      }
      headerLen := headerLen + 4;
    }
    return Some((headerLen, payloadLen));
  }

  /** The payload that follows a header of `headerLen` octets at position `pos`. */
  method CopyPayload(rx: seq<byte>, pos: nat, headerLen: nat, payloadLen: nat) returns (payload: seq<byte>)
    requires 2 <= headerLen && pos + headerLen + payloadLen <= |rx| && (rx[pos + 1] >= 128 ==> headerLen >= 6)
    ensures payload == Payload(rx[pos..], headerLen, payloadLen)
  {
    ghost var s := rx[pos..];
    var wire := rx[pos + headerLen..pos + headerLen + payloadLen];
    Slice(rx, pos, headerLen, headerLen + payloadLen);
    assert wire == s[headerLen..headerLen + payloadLen];
    if rx[pos + 1] >= 128 {
      var mask := rx[pos + headerLen - 4..pos + headerLen];
      Slice(rx, pos, headerLen - 4, headerLen);
      assert mask == s[headerLen - 4..headerLen];
      payload := Unmask(wire, true, mask);
    } else {
      payload := Unmask(wire, false, [0, 0, 0, 0]);
    }
  }

  /** The frame at position `pos` once its header is there. */
  method FrameAfterHeader(rx: seq<byte>, pos: nat, headerLen: nat, payloadLen: nat) returns (p: Parsed)
    requires pos <= |rx| && 2 <= headerLen <= |rx| - pos && headerLen <= 14 && payloadLen < U64
    requires rx[pos + 1] >= 128 ==> headerLen >= 6
    ensures p == FrameAt(rx[pos..], headerLen, payloadLen)
  {
    if |rx| - pos < Add64(headerLen, payloadLen) {
      return More;
    }
    if payloadLen >= STRING_LIMIT {
      return Bad;
    }
    var payload := CopyPayload(rx, pos, headerLen, payloadLen);
    return Got(rx[pos] % 16, payload, headerLen + payloadLen);
  }

  /** The body of the parse loop at position `pos`. */
  method NextFrame(rx: seq<byte>, pos: nat) returns (p: Parsed)
    requires pos <= |rx|
    ensures p == ParseFrame(rx[pos..])
    ensures p.Got? ==> exists k :: IsFrame(rx[pos..], k, p.opcode, p.payload, p.size)
  {
    if ParseFrame(rx[pos..]).Got? {
      ParsedOctets(rx[pos..]);
    }
    var h := NextHeader(rx, pos);
    if h.None? {
      return More;
    }
    p := FrameAfterHeader(rx, pos, h.value.0, h.value.1);
  }

  /** The loop that copies the payload out of the buffer. */
  method Unmask(wire: seq<byte>, masked: bool, mask: seq<byte>) returns (payload: seq<byte>)
    requires |mask| == 4
    ensures payload == if masked then Mask(wire, mask) else wire
  {
    payload := [];
    for i := 0 to |wire|
      invariant payload == if masked then Mask(wire[..i], mask) else wire[..i]
    {
      assert wire[..i + 1][..i] == wire[..i];
      var c := wire[i];
      if masked {
        c := Xor(c, mask[i % 4]);
      }
      payload := payload + [c];
    }
    assert wire[..|wire|] == wire;
  }

  /** The receive loop with the client's parser, on whatever chunks `recv` delivers. */
  method ReceiveFrames(chunks: seq<seq<byte>>) returns (events: seq<Event>, rx: seq<byte>, outcome: Outcome)
    ensures var pass := ParseAll(ParseFrame, Concat(chunks));
            events == pass.events && outcome == pass.outcome
                && (outcome == Running ==> rx == Concat(chunks)[pass.consumed..])
  {
    events, rx, outcome := ReceiveLoop(ParseFrame, chunks);
    ChunkIndependence(chunks);
  }

  /** What the client sends, any peer that follows the grammar reads back: the payload, and then whatever follows. */
  lemma SentIsParsed(payload: seq<byte>, mask: seq<byte>, rest: seq<byte>)
    requires |payload| < STRING_LIMIT && |mask| == 4
    ensures var s := Serialize(TextFrame(payload, mask));
            && ParseFrame(s + rest) == Got(TEXT, payload, |s|)
            && (s + rest)[|s|..] == rest
            && s[0] == 0x81 && s[1] >= 128
            && (forall k :: 0 <= k < |s| ==> ParseFrame(s[..k]) == More)
  {
    var w := TextFrame(payload, mask);
    ParseSerialize(w, rest);
    forall k | 0 <= k < |Serialize(w)| ensures ParseFrame(Serialize(w)[..k]) == More {
      PrefixWaits(w, k);
    }
  }

  /** The length form sent is the only one section 5.2 allows: any other form that fits is longer on the wire. */
  lemma SentIsMinimal(payload: seq<byte>, mask: seq<byte>, other: Form)
    requires |payload| < STRING_LIMIT && |mask| == 4
    requires Fits(|payload|, other) && other != TextFrame(payload, mask).form
    ensures |Serialize(TextFrame(payload, mask))| < |Serialize(TextFrame(payload, mask).(form := other))|
  {}
}
