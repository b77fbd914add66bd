/**
 The wire format of the client's WebSocket: section 5.2 of RFC 6455 as a grammar (`Wire`, `Serialize`),
 the frame parser of the receive loop as a function on the buffered octets, and how the two relate.
 */
module Frames {
  import opened Bytes
  import opened Wrappers
  import opened Streams

  const U64: nat := 0x1_0000_0000_0000_0000

  /** 64-bit addition of two 64-bit numbers. */
  function Add64(a: nat, b: nat): (c: nat)
    requires a < U64 && b < U64
    ensures c < U64 && (c == a + b || c == a + b - U64)
  {
    if a + b < U64 then a + b else a + b - U64
  }

  /** A `std::string` cannot be resized to this length or a longer one. */
  const STRING_LIMIT: nat := 0x8000_0000_0000_0000

  // ---- numbers in network byte order -------------------------------------------------------------

  /** 256^k. */
  function Pow256(k: nat): (p: nat) {
    if k == 0 then 1 else 256 * Pow256(k - 1)
  }

  lemma EightOctets()
    ensures Pow256(8) == U64
  {}

  /** The low k octets of n, the most significant one first. */
  function BigEndian(n: nat, k: nat): (s: seq<byte>)
    ensures |s| == k
  {
    if k == 0 then [] else BigEndian(n / 256, k - 1) + [n % 256]
  }

  /** The number that octets in network byte order stand for. */
  function Number(s: seq<byte>): (n: nat) {
    if |s| == 0 then 0 else Number(s[..|s| - 1]) * 256 + s[|s| - 1]
  }

  /** `n >> 8 * i`. */
  function ShiftOctets(n: nat, i: nat): nat {
    if i == 0 then n else ShiftOctets(n / 256, i - 1)
  }

  lemma {:induction false} BigEndianAt(n: nat, k: nat, j: nat)
    requires j < k
    ensures BigEndian(n, k)[j] == ShiftOctets(n, k - 1 - j) % 256
  {
    if j < k - 1 {
      BigEndianAt(n / 256, k - 1, j);
    }
  }

  lemma {:induction false} NumberBound(s: seq<byte>)
    ensures Number(s) < Pow256(|s|)
  {
    if |s| > 0 {
      NumberBound(s[..|s| - 1]);
    }
  }

  /** Up to eight octets fit a 64-bit number. */
  lemma NumberFits(s: seq<byte>)
    requires |s| <= 8
    ensures Number(s) < U64
  {
    NumberBound(s);
    FitsU64(|s|);
  }

  lemma {:induction false} FitsU64(k: nat)
    requires k <= 8
    ensures Pow256(k) <= U64
    decreases 8 - k
  {
    EightOctets();
    if k < 8 {
      FitsU64(k + 1);
    }
  }

  lemma {:induction false} NumberBigEndian(n: nat, k: nat)
    requires n < Pow256(k)
    ensures Number(BigEndian(n, k)) == n
  {
    if k > 0 {
      NumberBigEndian(n / 256, k - 1);
      assert BigEndian(n, k)[..k - 1] == BigEndian(n / 256, k - 1);
    }
  }

  lemma {:induction false} BigEndianNumber(s: seq<byte>)
    ensures BigEndian(Number(s), |s|) == s
  {
    if |s| > 0 {
      var init := s[..|s| - 1];
      BigEndianNumber(init);
      assert Number(s) / 256 == Number(init);
      assert s == init + [s[|s| - 1]];
    }
  }

  // ---- the grammar of section 5.2 ----------------------------------------------------------------

  /** The three length forms: 7 bits, 7+16 bits and 7+64 bits. */
  datatype Form = Short | Medium | Long

  /** A frame on the wire: the FIN and reserved bits, the opcode, the form its length is written in, the masking key. */
  datatype Wire = Wire(flags: nat, opcode: nat, form: Form, key: Option<seq<byte>>, payload: seq<byte>)

  predicate Fits(n: nat, form: Form) {
    match form
    case Short => n < 126
    case Medium => n <= 0xFFFF
    case Long => n < STRING_LIMIT
  }

  predicate ValidWire(w: Wire) {
    && w.flags < 16 && w.opcode < 16
    && Fits(|w.payload|, w.form)
    && (w.key.Some? ==> |w.key.value| == 4)
  }

  /** Section 5.3: octet i of the payload is combined with octet i mod 4 of the key. */
  function Mask(payload: seq<byte>, key: seq<byte>): (s: seq<byte>)
    requires |key| == 4
    ensures |s| == |payload|
  {
    var n := |payload| - 1;
    if n < 0 then [] else Mask(payload[..n], key) + [Xor(payload[n], key[n % 4])]
  }

  lemma {:induction false} MaskAt(payload: seq<byte>, key: seq<byte>, i: nat)
    requires |key| == 4 && i < |payload|
    ensures Mask(payload, key)[i] == Xor(payload[i], key[i % 4])
  {
    if i < |payload| - 1 {
      MaskAt(payload[..|payload| - 1], key, i);
    }
  }

  lemma MaskPush(payload: seq<byte>, key: seq<byte>, b: byte)
    requires |key| == 4
    ensures Mask(payload + [b], key) == Mask(payload, key) + [Xor(b, key[|payload| % 4])]
  {}

  lemma {:induction false} MaskTwice(payload: seq<byte>, key: seq<byte>)
    requires |key| == 4
    ensures Mask(Mask(payload, key), key) == payload
  {
    var n := |payload| - 1;
    if n >= 0 {
      var init, b := payload[..n], payload[n];
      MaskTwice(init, key);
      XorTwice(b, key[n % 4]);
      assert payload == init + [b];
      MaskPush(init, key, b);
      MaskPush(Mask(init, key), key, Xor(b, key[n % 4]));
    }
  }

  function LengthField(n: nat, form: Form): byte
    requires Fits(n, form)
  {
    match form case Short => n case Medium => 126 case Long => 127
  }

  function ExtendedLength(n: nat, form: Form): seq<byte> {
    match form case Short => [] case Medium => BigEndian(n, 2) case Long => BigEndian(n, 8)
  }

  /** Everything before the masking key. */
  function Prefix(w: Wire): (s: seq<byte>)
    requires ValidWire(w)
  {
    [w.flags * 16 + w.opcode, (if w.key.Some? then 128 else 0) + LengthField(|w.payload|, w.form)]
    + ExtendedLength(|w.payload|, w.form)
  }

  function Header(w: Wire): (s: seq<byte>)
    requires ValidWire(w)
  {
    Prefix(w) + if w.key.Some? then w.key.value else []
  }

  function Body(w: Wire): (s: seq<byte>)
    requires ValidWire(w)
    ensures |s| == |w.payload|
  {
    if w.key.Some? then Mask(w.payload, w.key.value) else w.payload
  }

  function Serialize(w: Wire): (s: seq<byte>)
    requires ValidWire(w)
  {
    Header(w) + Body(w)
  }

  /** The shortest form that holds the length, as section 5.2 demands of a sender. */
  function MinimalForm(n: nat): (form: Form)
    requires n < STRING_LIMIT
    ensures Fits(n, form)
    ensures forall other: Form :: Fits(n, other) ==> |ExtendedLength(n, form)| <= |ExtendedLength(n, other)|
  {
    if n < 126 then Short else if n <= 0xFFFF then Medium else Long
  }

  // ---- the parser --------------------------------------------------------------------------------

  /** The octets up to the masking key: 2, 4 or 10 of them. */
  function PrefixSize(s: seq<byte>): (n: nat)
    requires |s| >= 2
  {
    if s[1] % 128 == 126 then 4 else if s[1] % 128 == 127 then 10 else 2
  }

  function PayloadSize(s: seq<byte>): (n: nat)
    requires |s| >= 2 && |s| >= PrefixSize(s)
    ensures n < U64
  {
    if PrefixSize(s) == 2 then s[1] % 128
    else
      NumberFits(s[2..PrefixSize(s)]);
      Number(s[2..PrefixSize(s)])
  }

  function HeaderSize(s: seq<byte>): nat
    requires |s| >= 2
  {
    PrefixSize(s) + if s[1] >= 128 then 4 else 0
  }

  /** The payload behind a header of h octets, unmasked if the mask bit is set. */
  function Payload(s: seq<byte>, h: nat, n: nat): (p: seq<byte>)
    requires 2 <= h && h + n <= |s| && (s[1] >= 128 ==> h >= 6)
    ensures |p| == n
  {
    if s[1] >= 128 then Mask(s[h..h + n], s[h - 4..h]) else s[h..h + n]
  }

  lemma PayloadStable(s: seq<byte>, h: nat, n: nat, more: seq<byte>)
    requires 2 <= h && h + n <= |s| && (s[1] >= 128 ==> h >= 6)
    ensures Payload(s + more, h, n) == Payload(s, h, n)
  {
    assert (s + more)[h..h + n] == s[h..h + n];
    if s[1] >= 128 {
      assert (s + more)[h - 4..h] == s[h - 4..h];
    }
  }

  /** The frame whose header has h octets and whose payload has n. The sum of the two is a 64-bit one. */
  function FrameAt(s: seq<byte>, h: nat, n: nat): (p: Parsed)
    requires 2 <= h <= |s| && h <= 14 && n < U64 && (s[1] >= 128 ==> h >= 6)
    ensures p.Got? ==> 2 <= p.size <= |s| && p.opcode < 16
  {
    if |s| < Add64(h, n) then More
    else if n >= STRING_LIMIT then Bad
    else Got(s[0] % 16, Payload(s, h, n), h + n)
  }

  lemma FrameAtStable(s: seq<byte>, h: nat, n: nat, more: seq<byte>)
    requires 2 <= h <= |s| && h <= 14 && n < U64 && (s[1] >= 128 ==> h >= 6)
    requires FrameAt(s, h, n) != More
    ensures FrameAt(s + more, h, n) == FrameAt(s, h, n)
  {
    if n < STRING_LIMIT {
      PayloadStable(s, h, n, more);
    }
  }

  /** The body of the parse loop. */
  function ParseFrame(s: seq<byte>): (p: Parsed)
    ensures p.Got? ==> 2 <= p.size <= |s| && p.opcode < 16
  {
    if |s| < 2 || |s| < HeaderSize(s) then More else FrameAt(s, HeaderSize(s), PayloadSize(s))
  }

  // ---- the parser against the grammar --------------------------------------------------------------

  lemma ReadLength(n: nat, form: Form)
    requires Fits(n, form) && form != Short
    ensures Number(ExtendedLength(n, form)) == n
  {
    match form {
      case Medium =>
        assert Pow256(2) == 0x1_0000;
        NumberBigEndian(n, 2);
      case Long =>
        EightOctets();
        NumberBigEndian(n, 8);
    }
  }

  lemma ReadFirstTwo(w: Wire, s: seq<byte>)
    requires ValidWire(w) && |s| >= 2 && s[..2] == Prefix(w)[..2]
    ensures s[0] % 16 == w.opcode && (s[1] >= 128 <==> w.key.Some?) && s[1] % 128 == LengthField(|w.payload|, w.form)
    ensures PrefixSize(s) == |Prefix(w)| && HeaderSize(s) == |Header(w)|
  {
    assert s[0] == s[..2][0] && s[1] == s[..2][1];
  }

  /** Where the parts of a frame are, whatever follows it. */
  lemma Slices(w: Wire, rest: seq<byte>)
    requires ValidWire(w)
    ensures var s, k, h, n := Serialize(w) + rest, |Prefix(w)|, |Header(w)|, |w.payload|;
            && 2 <= k <= h && |s| >= h + n && |Serialize(w)| == h + n
            && s[..2] == Prefix(w)[..2] && s[2..k] == ExtendedLength(n, w.form)
            && s[h..h + n] == Body(w) && (w.key.Some? ==> h >= 6 && s[h - 4..h] == w.key.value)
  {
    var key := if w.key.Some? then w.key.value else [];
    assert Serialize(w) + rest == Prefix(w) + (key + (Body(w) + rest));
    assert Serialize(w) + rest == Header(w) + (Body(w) + rest);
  }

  /** The header fields that the parser reads back. */
  lemma ReadHeader(w: Wire, s: seq<byte>)
    requires ValidWire(w) && |s| >= |Prefix(w)| >= 2 && s[..2] == Prefix(w)[..2]
    requires s[2..|Prefix(w)|] == ExtendedLength(|w.payload|, w.form)
    ensures HeaderSize(s) == |Header(w)| && PayloadSize(s) == |w.payload|
    ensures s[0] % 16 == w.opcode && (s[1] >= 128 <==> w.key.Some?)
  {
    ReadFirstTwo(w, s);
    if w.form != Short {
      ReadLength(|w.payload|, w.form);
    }
  }

  lemma ReadPayload(w: Wire, s: seq<byte>, h: nat)
    requires ValidWire(w) && 2 <= h && |s| >= h + |w.payload| && (s[1] >= 128 <==> w.key.Some?)
    requires s[h..h + |w.payload|] == Body(w)
    requires w.key.Some? ==> h >= 6 && s[h - 4..h] == w.key.value
    ensures Payload(s, h, |w.payload|) == w.payload
  {
    if w.key.Some? {
      MaskTwice(w.payload, w.key.value);
    }
  }

  lemma ReadFrame(s: seq<byte>, h: nat, n: nat)
    requires 2 <= h <= 14 && n < STRING_LIMIT && h + n <= |s| && (s[1] >= 128 ==> h >= 6)
    ensures FrameAt(s, h, n) == Got(s[0] % 16, Payload(s, h, n), h + n)
  {}

  /** Every frame of the grammar, in any length form, masked or not, is parsed back whatever follows it. */
  lemma ParseSerialize(w: Wire, rest: seq<byte>)
    requires ValidWire(w)
    ensures ParseFrame(Serialize(w) + rest) == Got(w.opcode, w.payload, |Serialize(w)|)
  {
    var s, h := Serialize(w) + rest, |Header(w)|;
    Slices(w, rest);
    ReadHeader(w, s);
    ReadPayload(w, s, h);
    ReadFrame(s, h, |w.payload|);
  }

  /** The frame that starts a buffer, read off its octets. */
  function FrontWire(s: seq<byte>): (w: Wire)
    requires ParseFrame(s).Got?
  {
    var h := HeaderSize(s);
    Wire(s[0] / 16, s[0] % 16,
         if PrefixSize(s) == 2 then Short else if PrefixSize(s) == 4 then Medium else Long,
         if s[1] >= 128 then Some(s[h - 4..h]) else None,
         ParseFrame(s).payload)
  }

  lemma FrontLength(s: seq<byte>)
    requires ParseFrame(s).Got?
    ensures var n, form := PayloadSize(s), FrontWire(s).form;
            Fits(n, form) && ExtendedLength(n, form) == s[2..PrefixSize(s)]
  {
    var k := PrefixSize(s);
    if k > 2 {
      BigEndianNumber(s[2..k]);
      NumberBound(s[2..k]);
      assert Pow256(2) == 0x1_0000;
    }
  }

  lemma MaskBit(b: byte)
    ensures b == (if b >= 128 then 128 else 0) + b % 128
  {}

  lemma FrontPrefix(s: seq<byte>)
    requires ParseFrame(s).Got?
    ensures ValidWire(FrontWire(s)) && Prefix(FrontWire(s)) == s[..PrefixSize(s)]
  {
    FrontLength(s);
    var w, k := FrontWire(s), PrefixSize(s);
    assert |w.payload| == PayloadSize(s);
    assert s[..k] == [s[0], s[1]] + s[2..k];
    MaskBit(s[1]);
  }

  lemma FrontBody(s: seq<byte>)
    requires ParseFrame(s).Got? && ValidWire(FrontWire(s))
    ensures Body(FrontWire(s)) == s[HeaderSize(s)..ParseFrame(s).size]
  {
    var h, n := HeaderSize(s), PayloadSize(s);
    if s[1] >= 128 {
      MaskTwice(s[h..h + n], s[h - 4..h]);
    }
  }

  lemma FrontHeader(s: seq<byte>)
    requires ParseFrame(s).Got? && ValidWire(FrontWire(s)) && Prefix(FrontWire(s)) == s[..PrefixSize(s)]
    ensures PrefixSize(s) <= HeaderSize(s) <= ParseFrame(s).size && Header(FrontWire(s)) == s[..HeaderSize(s)]
  {
    assert s[..HeaderSize(s)] == s[..PrefixSize(s)] + s[PrefixSize(s)..HeaderSize(s)];
  }

  lemma TakeInTwo(s: seq<byte>, k: nat, n: nat)
    requires k <= n <= |s|
    ensures s[..n] == s[..k] + s[k..n]
  {}

  /** What the parser accepts is a frame of the grammar: with `ParseSerialize`, exactly the frames of the grammar. */
  lemma ParsedIsWire(s: seq<byte>)
    requires ParseFrame(s).Got?
    ensures ValidWire(FrontWire(s)) && Serialize(FrontWire(s)) == s[..ParseFrame(s).size]
  {
    FrontPrefix(s);
    FrontHeader(s);
    FrontBody(s);
    TakeInTwo(s, HeaderSize(s), ParseFrame(s).size);
  }

  /** A verdict on a buffer is final: octets that arrive later do not change it. */
  lemma ParseStable(s: seq<byte>, more: seq<byte>)
    requires ParseFrame(s) != More
    ensures ParseFrame(s + more) == ParseFrame(s)
  {
    assert HeaderSize(s + more) == HeaderSize(s) && PrefixSize(s + more) == PrefixSize(s);
    assert (s + more)[2..PrefixSize(s)] == s[2..PrefixSize(s)];
    assert PayloadSize(s + more) == PayloadSize(s);
    FrameAtStable(s, HeaderSize(s), PayloadSize(s), more);
  }

  /** No proper prefix of a frame parses as one, nor as a bad one: the parser waits for the rest. */
  lemma PrefixWaits(w: Wire, k: nat)
    requires ValidWire(w) && k < |Serialize(w)|
    ensures ParseFrame(Serialize(w)[..k]) == More
  {
    var s := Serialize(w);
    ParseSerialize(w, []);
    assert s + [] == s && s[..k] + s[k..] == s;
    if ParseFrame(s[..k]) != More {
      ParseStable(s[..k], s[k..]);
    }
  }

  /**
   When the parser gives up: exactly when the declared length, as a 64-bit number, has its top bit set and it
   stops waiting.
   */
  lemma BadIffTopBit(s: seq<byte>)
    ensures ParseFrame(s) == Bad <==>
            && |s| >= 10 && s[1] % 128 == 127 && s[2] >= 128
            && |s| >= HeaderSize(s) && |s| >= Add64(HeaderSize(s), PayloadSize(s))
  {
    if |s| >= 10 && PrefixSize(s) == 10 {
      TopBit(s[2..10]);
    } else if |s| >= 4 && PrefixSize(s) == 4 {
      NumberBound(s[2..4]);
      assert Pow256(2) == 0x1_0000;
    }
  }

  lemma TopBit(s: seq<byte>)
    requires |s| == 8
    ensures Number(s) < U64 && (Number(s) >= STRING_LIMIT <==> s[0] >= 128)
  {
    EightOctets();
    NumberBound(s);
    NumberHead(s);
    NumberBound(s[1..]);
    assert Pow256(8) == 256 * Pow256(7);
  }

  lemma Associate(a: nat, b: nat)
    ensures a * (256 * b) == 256 * (a * b)
  {}

  lemma {:induction false} NumberHead(s: seq<byte>)
    requires |s| > 0
    ensures Number(s) == s[0] * Pow256(|s| - 1) + Number(s[1..])
  {
    if |s| > 1 {
      var init, tail := s[..|s| - 1], s[1..];
      NumberHead(init);
      assert init[1..] == tail[..|tail| - 1] && tail[|tail| - 1] == s[|s| - 1];
      Associate(s[0], Pow256(|s| - 2));
    }
  }

  // ---- a frame octet by octet ------------------------------------------------------------------------------

  /** The number that octets in network order stand for, written out. */
  ghost function Written(s: seq<byte>): nat
    requires |s| in {2, 8}
  {
    var d := seq(|s|, i requires 0 <= i < |s| => s[i] as nat);
    if |s| == 2 then 0x100 * d[0] + d[1]
    else
      0x100_0000_0000_0000 * d[0] + 0x1_0000_0000_0000 * d[1] + 0x100_0000_0000 * d[2] + 0x1_0000_0000 * d[3]
      + 0x100_0000 * d[4] + 0x1_0000 * d[5] + 0x100 * d[6] + d[7]
  }

  /** The length that a frame declares, whose first k octets come before the key. */
  ghost predicate Declares(s: seq<byte>, n: nat, k: nat) {
    && k in {2, 4, 10} && |s| >= k
    && if k == 2 then s[1] % 128 == n < 126 else s[1] % 128 == (if k == 4 then 126 else 127) && n == Written(s[2..k])
  }

  /** The octets at the front of `s`, k of them up to the masking key, are a frame with this opcode and payload. */
  ghost predicate IsFrame(s: seq<byte>, k: nat, opcode: nat, payload: seq<byte>, size: nat) {
    && Declares(s, |payload|, k) && s[0] % 16 == opcode
    && size == k + (if s[1] >= 128 then 4 else 0) + |payload| <= |s|
    && forall j, i :: 0 <= j < |payload| && 0 <= i < 8 ==>
         (Bit(payload[j], i) <==> Bit(s[size - |payload| + j], i) != (s[1] >= 128 && Bit(s[k + j % 4], i)))
  }

  lemma MaskedBit(payload: seq<byte>, key: seq<byte>, j: nat, i: nat)
    requires |key| == 4 && j < |payload| && i < 8
    ensures Bit(Mask(payload, key)[j], i) <==> Bit(payload[j], i) != Bit(key[j % 4], i)
  {
    MaskAt(payload, key, j);
    XorAt(payload[j], key[j % 4], i);
  }

  /** The key of zeros leaves a payload as it is. */
  lemma MaskZero(payload: seq<byte>)
    ensures Mask(payload, [0, 0, 0, 0]) == payload
  {
    forall j | 0 <= j < |payload| ensures Mask(payload, [0, 0, 0, 0])[j] == payload[j] {
      MaskAt(payload, [0, 0, 0, 0], j);
      XorZero(payload[j]);
    }
  }

  lemma OctetsFrom(s: seq<byte>, b: byte)
    ensures Number(s + [b]) == 256 * Number(s) + b as nat
  {
    assert (s + [b])[..|s|] == s;
  }

  lemma TwoOctets(a: byte, b: byte)
    ensures Number([a, b]) == 256 * (a as nat) + b as nat
  {
    OctetsFrom([], a);
    OctetsFrom([a], b);
    assert [] + [a] == [a] && [a] + [b] == [a, b];
  }

  lemma FourOctets(a: byte, b: byte, c: byte, d: byte)
    ensures Number([a, b, c, d]) == 0x100_0000 * (a as nat) + 0x1_0000 * (b as nat) + 0x100 * (c as nat) + d as nat
  {
    TwoOctets(a, b);
    OctetsFrom([a, b], c);
    OctetsFrom([a, b, c], d);
    assert [a, b] + [c] == [a, b, c] && [a, b, c] + [d] == [a, b, c, d];
  }

  lemma {:induction false} NumberSplit(s: seq<byte>, t: seq<byte>)
    requires |t| == 4
    ensures Number(s + t) == 0x1_0000_0000 * Number(s) + Number(t)
  {
    var a, b, c, d := t[0], t[1], t[2], t[3];
    assert t == [a, b, c, d];
    FourOctets(a, b, c, d);
    assert s + t == s + [a] + [b] + [c] + [d];
    OctetsFrom(s, a);
    OctetsFrom(s + [a], b);
    OctetsFrom(s + [a] + [b], c);
    OctetsFrom(s + [a] + [b] + [c], d);
  }

  lemma NumberIsWritten(s: seq<byte>)
    requires |s| in {2, 8}
    ensures Number(s) == Written(s)
  {
    if |s| == 2 {
      assert s == [s[0], s[1]];
      TwoOctets(s[0], s[1]);
    } else {
      assert s[..4] == [s[0], s[1], s[2], s[3]] && s[4..] == [s[4], s[5], s[6], s[7]] && s == s[..4] + s[4..];
      NumberSplit(s[..4], s[4..]);
      FourOctets(s[0], s[1], s[2], s[3]);
      FourOctets(s[4], s[5], s[6], s[7]);
    }
  }

  lemma DeclaredLength(s: seq<byte>)
    requires |s| >= 2 && |s| >= PrefixSize(s)
    ensures Declares(s, PayloadSize(s), PrefixSize(s))
  {
    if PrefixSize(s) > 2 {
      NumberIsWritten(s[2..PrefixSize(s)]);
    }
  }

  lemma PayloadBit(s: seq<byte>, h: nat, n: nat, j: nat, i: nat)
    requires 2 <= h && h + n <= |s| && (s[1] >= 128 ==> h >= 6) && j < n && i < 8
    ensures Bit(Payload(s, h, n)[j], i) <==> Bit(s[h + j], i) != (s[1] >= 128 && Bit(s[h - 4 + j % 4], i))
  {
    assert s[h..h + n][j] == s[h + j];
    if s[1] >= 128 {
      assert s[h - 4..h][j % 4] == s[h - 4 + j % 4];
      MaskedBit(s[h..h + n], s[h - 4..h], j, i);
    }
  }

  lemma ParsedIsAt(s: seq<byte>)
    requires ParseFrame(s).Got?
    ensures var h, n := HeaderSize(s), PayloadSize(s);
            && 2 <= h && h + n <= |s| && (s[1] >= 128 ==> h >= 6)
            && ParseFrame(s) == Got(s[0] % 16, Payload(s, h, n), h + n)
  {}

  /** What the parser reads at the front of a buffer is there, octet by octet and bit by bit. */
  lemma ParsedOctets(s: seq<byte>)
    requires ParseFrame(s).Got?
    ensures var p := ParseFrame(s); IsFrame(s, PrefixSize(s), p.opcode, p.payload, p.size)
  {
    DeclaredLength(s);
    ParsedIsAt(s);
    var payload, h, n := ParseFrame(s).payload, HeaderSize(s), PayloadSize(s);
    forall j, i | 0 <= j < n && 0 <= i < 8
      ensures Bit(payload[j], i) <==> Bit(s[h + j], i) != (s[1] >= 128 && Bit(s[PrefixSize(s) + j % 4], i))
    {
      PayloadBit(s, h, n, j, i);
    }
  }

  // ---- the receive loop ------------------------------------------------------------------------------

  lemma ParserIsStable()
    ensures Stable(ParseFrame)
  {
    forall s, t | ParseFrame(s) != More ensures ParseFrame(s + t) == ParseFrame(s) {
      ParseStable(s, t);
    }
  }

  /**
   For any stream and any split of it into chunks: the same events as one pass over the whole stream, up to
   and not beyond a close frame, and while the loop runs `rx` is exactly the unconsumed suffix.
   */
  lemma ChunkIndependence(chunks: seq<seq<byte>>)
    ensures var end, pass := FeedAll(ParseFrame, FRESH, chunks), ParseAll(ParseFrame, Concat(chunks));
            && end.events == pass.events
            && end.outcome == pass.outcome
            && (end.outcome == Running ==> end.rx == Concat(chunks)[pass.consumed..] && ParseFrame(end.rx) == More)
  {
    ParserIsStable();
    ChunksDoNotMatter(ParseFrame, FRESH, chunks);
    var all := Concat(chunks);
    assert [] + all == all;
    assert [] + ParseAll(ParseFrame, all).events == ParseAll(ParseFrame, all).events;
  }

  function SerializeAll(ws: seq<Wire>): seq<byte>
    requires forall w :: w in ws ==> ValidWire(w)
  {
    if |ws| == 0 then [] else Serialize(ws[0]) + SerializeAll(ws[1..])
  }

  /** The events of frames in order; a close frame ends them. */
  function EventsOfAll(ws: seq<Wire>): seq<Event> {
    if |ws| == 0 || ws[0].opcode == CLOSE then []
    else EventsOf(ws[0].opcode, ws[0].payload) + EventsOfAll(ws[1..])
  }

  predicate HasClose(ws: seq<Wire>) {
    exists i :: 0 <= i < |ws| && ws[i].opcode == CLOSE
  }

  lemma ParseAllStep(s: seq<byte>, w: Wire, rest: seq<byte>)
    requires ValidWire(w) && s == Serialize(w) + rest
    ensures w.opcode == CLOSE ==> ParseAll(ParseFrame, s) == Pass([], |Serialize(w)|, Closed)
    ensures w.opcode != CLOSE ==>
              var r := ParseAll(ParseFrame, rest);
              ParseAll(ParseFrame, s)
                  == Pass(EventsOf(w.opcode, w.payload) + r.events, |Serialize(w)| + r.consumed, r.outcome)
  {
    ParseSerialize(w, rest);
    assert s[|Serialize(w)|..] == rest;
  }

  lemma CloseInTail(ws: seq<Wire>)
    requires |ws| > 0 && ws[0].opcode != CLOSE
    ensures HasClose(ws) <==> HasClose(ws[1..])
  {
    if i :| 0 <= i < |ws| && ws[i].opcode == CLOSE {
      assert ws[1..][i - 1].opcode == CLOSE;
    }
  }

  lemma {:induction false} ParseAllFrames(ws: seq<Wire>)
    requires forall w :: w in ws ==> ValidWire(w)
    ensures ParseAll(ParseFrame, SerializeAll(ws)).events == EventsOfAll(ws)
    ensures ParseAll(ParseFrame, SerializeAll(ws)).outcome == if HasClose(ws) then Closed else Running
    decreases |ws|
  {
    if |ws| > 0 {
      ParseAllStep(SerializeAll(ws), ws[0], SerializeAll(ws[1..]));
      if ws[0].opcode != CLOSE {
        ParseAllFrames(ws[1..]);
        CloseInTail(ws);
      }
    }
  }

  /** Frames of the grammar sent one after the other and received in any chunks come out as their events, in order. */
  lemma StreamRoundTrip(ws: seq<Wire>, chunks: seq<seq<byte>>)
    requires forall w :: w in ws ==> ValidWire(w)
    requires Concat(chunks) == SerializeAll(ws)
    ensures FeedAll(ParseFrame, FRESH, chunks).events == EventsOfAll(ws)
    ensures FeedAll(ParseFrame, FRESH, chunks).outcome == if HasClose(ws) then Closed else Running
  {
    ChunkIndependence(chunks);
    ParseAllFrames(ws);
  }

  /** What a frame is to the program, by its opcode as section 5.2 numbers them. */
  ghost predicate Delivers(was: Receiver, now: Receiver, w: Wire) {
    && was.outcome == Running && now.outcome == (if w.opcode == 8 then Closed else Running)
    && now.events == was.events + (if w.opcode in {0, 1, 2} then [Packet(w.payload)]
                                   else if w.opcode == 9 then [PingReply(w.payload)]
                                   else [])
  }

  /** What one more frame adds: nothing after a close. */
  lemma OneMoreFrame(ws: seq<Wire>, w: Wire, chunks: seq<seq<byte>>, more: seq<seq<byte>>)
    requires ValidWire(w) && forall v :: v in ws ==> ValidWire(v)
    requires Concat(chunks) == SerializeAll(ws) && Concat(more) == SerializeAll(ws + [w])
    ensures var was, now := FeedAll(ParseFrame, FRESH, chunks), FeedAll(ParseFrame, FRESH, more);
            if exists i :: 0 <= i < |ws| && ws[i].opcode == 8
            then now.events == was.events && was.outcome == now.outcome == Closed
            else Delivers(was, now, w)
  {
    StreamRoundTrip(ws, chunks);
    StreamRoundTrip(ws + [w], more);
    EventsOfMore(ws, w);
    CloseMore(ws, w);
  }

  lemma CloseMore(ws: seq<Wire>, w: Wire)
    ensures HasClose(ws + [w]) <==> HasClose(ws) || w.opcode == CLOSE
  {
    assert (ws + [w])[|ws|] == w && forall i :: 0 <= i < |ws| ==> (ws + [w])[i] == ws[i];
  }

  lemma {:induction false} EventsOfMore(ws: seq<Wire>, w: Wire)
    ensures EventsOfAll(ws + [w]) ==
            EventsOfAll(ws) + if HasClose(ws) || w.opcode == CLOSE then [] else EventsOf(w.opcode, w.payload)
  {
    if |ws| == 0 {
      assert ws + [w] == [w] && [w][1..] == [];
    } else {
      assert (ws + [w])[1..] == ws[1..] + [w];
      if ws[0].opcode != CLOSE {
        EventsOfMore(ws[1..], w);
        CloseInTail(ws);
      }
    }
  }

  /** A stream that starts with an impossible length fails, and delivers nothing. */
  lemma BadLengthFails(chunks: seq<seq<byte>>)
    requires ParseFrame(Concat(chunks)) == Bad
    ensures FeedAll(ParseFrame, FRESH, chunks).outcome == Failed && FeedAll(ParseFrame, FRESH, chunks).events == []
  {
    ChunkIndependence(chunks);
  }

  /** A stream of no frames is silent. */
  lemma NoFrames(chunks: seq<seq<byte>>)
    requires Concat(chunks) == []
    ensures FeedAll(ParseFrame, FRESH, chunks) == FRESH
  {
    ChunkIndependence(chunks);
  }
}
