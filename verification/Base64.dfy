/**
 The streaming Base64 encoder behind the `Sec-WebSocket-Key` header, against section 4 of RFC 4648.

 The grouping of octets into digits is defined over any four digit functions (`Cut`); `RFC` gives the
 ones of the standard. Facts about the grouping are proved for every `Cut`, without arithmetic.
 */
module Base64 {
  import opened Bytes
  import opened Wrappers

  type sextet = x: int | 0 <= x < 64

  /** A position of the output text: a 6-bit number, or `PAD` for the padding character. */
  type digit = x: int | 0 <= x <= 64

  const PAD: digit := 64

  // ---- the alphabet ------------------------------------------------------------------------------

  /** Table 1 of RFC 4648, as ranges. */
  function Symbol(d: digit): char {
    if d < 26 then 'A' + d as char
    else if d < 52 then 'a' + (d - 26) as char
    else if d < 62 then '0' + (d - 52) as char
    else if d == 62 then '+'
    else if d == 63 then '/'
    else '='
  }

  /** The inverse of `Symbol`; 65 for a character that is not in the table. */
  function Value(c: char): (v: nat)
    ensures v <= 65
  {
    if 'A' <= c <= 'Z' then c as int - 'A' as int
    else if 'a' <= c <= 'z' then c as int - 'a' as int + 26
    else if '0' <= c <= '9' then c as int - '0' as int + 52
    else if c == '+' then 62
    else if c == '/' then 63
    else if c == '=' then 64
    else 65
  }

  lemma SymbolOfValue(c: char)
    requires Value(c) <= 64
    ensures Symbol(Value(c)) == c
  {}

  /** The encoder's literal table, sixteen symbols to a row. */
  function Table(v: sextet): char {
    if v < 16 then "ABCDEFGHIJKLMNOP"[v]
    else if v < 32 then "QRSTUVWXYZabcdef"[v - 16]
    else if v < 48 then "ghijklmnopqrstuv"[v - 32]
    else "wxyz0123456789+/"[v - 48]
  }

  lemma TableIsSymbol(v: sextet)
    ensures Table(v) == Symbol(v)
  {}

  function Text(ds: seq<digit>): (s: string)
    ensures |s| == |ds|
    ensures forall i :: 0 <= i < |s| ==> s[i] == Symbol(ds[i])
  {
    seq(|ds|, i requires 0 <= i < |ds| => Symbol(ds[i]))
  }

  lemma TextAppend(ds: seq<digit>, d: digit)
    ensures Text(ds + [d]) == Text(ds) + [Symbol(d)]
  {}

  // ---- grouping ----------------------------------------------------------------------------------

  /** How the four digits of a group come from its octets: a digit spans two neighbouring octets at most. */
  datatype Cut = Cut(
      first: byte -> digit, second: (byte, byte) -> digit, third: (byte, byte) -> digit, fourth: byte -> digit)

  /** 24 bits read from the left, six at a time. */
  const RFC: Cut := Cut(
    a => a / 4,
    (a, b) => a % 4 * 16 + b / 16,
    (b, c) => b % 16 * 4 + c / 64,
    c => c % 64)

  function Group(k: Cut, a: byte, b: byte, c: byte): (ds: seq<digit>) {
    [k.first(a), k.second(a, b), k.third(b, c), k.fourth(c)]
  }

  /** 24-bit groups from the left; the last one is filled with zero bits, its unused digits are padding. */
  function Digits(k: Cut, data: seq<byte>): (ds: seq<digit>) {
    if |data| == 0 then []
    else if |data| == 1 then [k.first(data[0]), k.second(data[0], 0), PAD, PAD]
    else if |data| == 2 then [k.first(data[0]), k.second(data[0], data[1]), k.third(data[1], 0), PAD]
    else Group(k, data[0], data[1], data[2]) + Digits(k, data[3..])
  }

  lemma {:induction false} DigitsSize(k: Cut, data: seq<byte>)
    ensures |Digits(k, data)| % 4 == 0
  {
    if |data| >= 3 {
      DigitsSize(k, data[3..]);
    }
  }

  /** Section 4 of RFC 4648. */
  function Encode(data: seq<byte>): string {
    Text(Digits(RFC, data))
  }

  /** The four digits are those of the 24-bit group in base 64. */
  lemma GroupIsBase64(a: byte, b: byte, c: byte)
    ensures var s := Group(RFC, a, b, c);
            && (forall i :: 0 <= i < 4 ==> s[i] < 64)
            && 262144 * (s[0] as int) + 4096 * (s[1] as int) + 64 * (s[2] as int) + s[3] as int
                == 65536 * a + 256 * b + c
  {}

  // ---- symbol by symbol ------------------------------------------------------------------------------------

  /** Octets after the end of the data count as zero. */
  function OctetAt(data: seq<byte>, i: nat): nat {
    if i < |data| then data[i] else 0
  }

  /** Six bits of the data, the i-th from the left: a quarter of the 24 that three octets make. */
  function SixBits(data: seq<byte>, i: nat): nat {
    var g := 3 * (i / 4);
    var group := 65536 * OctetAt(data, g) + 256 * OctetAt(data, g + 1) + OctetAt(data, g + 2);
    if i % 4 == 0 then group / 262144
    else if i % 4 == 1 then group / 4096 % 64
    else if i % 4 == 2 then group / 64 % 64
    else group % 64
  }

  lemma GroupQuarters(a: byte, b: byte, c: byte)
    ensures var s, group := Group(RFC, a, b, c), 65536 * (a as nat) + 256 * (b as nat) + c as nat;
            && s[0] as nat == group / 262144 && s[1] as nat == group / 4096 % 64
            && s[2] as nat == group / 64 % 64 && s[3] as nat == group % 64
  {
    GroupIsBase64(a, b, c);
    var s := Group(RFC, a, b, c);
    Quarters(65536 * (a as nat) + 256 * (b as nat) + c as nat, s[0], s[1], s[2], s[3]);
  }

  lemma Quarters(n: nat, d0: sextet, d1: sextet, d2: sextet, d3: sextet)
    requires n == 262144 * (d0 as nat) + 4096 * (d1 as nat) + 64 * (d2 as nat) + d3 as nat
    ensures n / 262144 == d0 && n / 4096 % 64 == d1 && n / 64 % 64 == d2 && n % 64 == d3
  {
    assert n / 64 == 4096 * (d0 as nat) + 64 * (d1 as nat) + d2 as nat;
    assert n / 4096 == 64 * (d0 as nat) + d1 as nat;
  }

  /** The digits at the front: those of the data's first three octets, as far as there are any. */
  lemma FrontDigits(data: seq<byte>, i: nat)
    requires |data| > 0 && i < 4
    ensures |Digits(RFC, data)| >= 4
    ensures Digits(RFC, data)[i] as nat == if 6 * i >= 8 * |data| then 64 else SixBits(data, i)
  {
    GroupQuarters(OctetAt(data, 0), OctetAt(data, 1), OctetAt(data, 2));
  }

  lemma SixBitsLater(data: seq<byte>, i: nat)
    requires |data| >= 3 && i >= 4
    ensures SixBits(data, i) == SixBits(data[3..], i - 4)
  {
    var g := 3 * (i / 4);
    assert i % 4 == (i - 4) % 4 && 3 * ((i - 4) / 4) == g - 3;
    assert forall k :: k >= 3 ==> OctetAt(data, k) == OctetAt(data[3..], k - 3);
  }

  lemma {:induction false} DigitAt(data: seq<byte>, i: nat)
    requires i < |Digits(RFC, data)|
    ensures Digits(RFC, data)[i] as nat == if 6 * i >= 8 * |data| then 64 else SixBits(data, i)
  {
    if i < 4 {
      FrontDigits(data, i);
    } else {
      DigitAt(data[3..], i - 4);
      SixBitsLater(data, i);
    }
  }

  lemma {:induction false} DigitsLength(data: seq<byte>)
    ensures |Digits(RFC, data)| == 4 * ((|data| + 2) / 3)
  {
    if |data| >= 3 {
      DigitsLength(data[3..]);
    }
  }

  /** The alphabet: letters, digits and two signs; the 65th symbol pads. */
  lemma Alphabet(d: digit)
    ensures 0 <= d < 26 ==> Symbol(d) as int == 'A' as int + d
    ensures 26 <= d < 52 ==> Symbol(d) as int == 'a' as int + d - 26
    ensures 52 <= d < 62 ==> Symbol(d) as int == '0' as int + d - 52
    ensures Symbol(62) == '+' && Symbol(63) == '/' && Symbol(64) == '='
  {}

  /** Every symbol of an encoding: the six bits at its place, or padding from where the data has ended. */
  lemma EncodedAt(data: seq<byte>, i: nat)
    ensures |Encode(data)| == 4 * ((|data| + 2) / 3)
    ensures i < |Encode(data)| ==>
              SixBits(data, i) < 64 && Encode(data)[i] == if 6 * i >= 8 * |data| then '=' else Symbol(SixBits(data, i))
  {
    DigitsLength(data);
    if i < |Encode(data)| {
      DigitAt(data, i);
      SixBitsFit(data, i);
    }
  }

  lemma SixBitsFit(data: seq<byte>, i: nat)
    ensures SixBits(data, i) < 64
  {}

  // ---- decoding ----------------------------------------------------------------------------------

  /** The octets of one group. */
  function Octets(v0: sextet, v1: sextet, v2: sextet, v3: sextet): seq<byte> {
    [v0 * 4 + v1 / 16, v1 % 16 * 16 + v2 / 4, v2 % 4 * 64 + v3]
  }

  /** A strict decoder of digits: padding only at the end, and its bits zero. */
  function Undigits(ds: seq<nat>): (r: Option<seq<byte>>)
  {
    if |ds| == 0 then Some([])
    else if |ds| < 4 || ds[0] >= 64 || ds[1] >= 64 then None
    else if |ds| == 4 && ds[2] == 64 && ds[3] == 64 then
      if ds[1] % 16 == 0 then Some(Octets(ds[0], ds[1], 0, 0)[..1]) else None
    else if ds[2] >= 64 then None
    else if |ds| == 4 && ds[3] == 64 then
      if ds[2] % 4 == 0 then Some(Octets(ds[0], ds[1], ds[2], 0)[..2]) else None
    else if ds[3] >= 64 then None
    else
      match Undigits(ds[4..])
      case None => None
      case Some(rest) => Some(Octets(ds[0], ds[1], ds[2], ds[3]) + rest)
  }

  function Values(s: string): (vs: seq<nat>)
    ensures |vs| == |s|
    ensures forall i :: 0 <= i < |s| ==> vs[i] == Value(s[i])
  {
    seq(|s|, i requires 0 <= i < |s| => Value(s[i]))
  }

  /** A strict decoder: it accepts canonical text only. */
  function Decode(s: string): Option<seq<byte>> {
    Undigits(Values(s))
  }

  lemma DivMod(v: int, d: nat, q: int, r: int)
    requires d == 4 || d == 16 || d == 64
    requires v == d * q + r && 0 <= r < d
    ensures v / d == q && v % d == r
  {}

  lemma GroupThereAndBack(a: byte, b: byte, c: byte)
    ensures var s := Group(RFC, a, b, c);
            && s[0] < 64 && s[1] < 64 && s[2] < 64 && s[3] < 64
            && Octets(s[0], s[1], s[2], s[3]) == [a, b, c]
            && (c == 0 ==> s[2] % 4 == 0 && s[3] == 0)
            && (b == 0 && c == 0 ==> s[1] % 16 == 0 && s[2] == 0)
  {
    var s1, s2 := a % 4 * 16 + b / 16, b % 16 * 4 + c / 64;
    DivMod(s1, 16, a % 4, b / 16);
    DivMod(s2, 4, b % 16, c / 64);
    assert Group(RFC, a, b, c) == [a / 4, s1, s2, c % 64];
  }

  lemma GroupBackAndThere(v0: sextet, v1: sextet, v2: sextet, v3: sextet)
    ensures var o := Octets(v0, v1, v2, v3); Group(RFC, o[0], o[1], o[2]) == [v0, v1, v2, v3]
  {
    var q1, q2 := v1 / 16, v2 / 4;
    var a, b, c := v0 * 4 + q1, (v1 - 16 * q1) * 16 + q2, (v2 - 4 * q2) * 64 + v3;
    assert a / 4 == v0 && a - 4 * v0 == q1;
    assert b / 16 == v1 - 16 * q1 && b - 16 * (v1 - 16 * q1) == q2;
    assert c / 64 == v2 - 4 * q2 && c - 64 * (v2 - 4 * q2) == v3;
  }

  lemma {:induction false} UndigitsDigits(data: seq<byte>)
    ensures Undigits(Digits(RFC, data)) == Some(data)
  {
    if |data| == 0 {
    } else if |data| == 1 {
      GroupThereAndBack(data[0], 0, 0);
      var s := Group(RFC, data[0], 0, 0);
      assert Octets(s[0], s[1], 0, 0)[..1] == data;
    } else if |data| == 2 {
      GroupThereAndBack(data[0], data[1], 0);
      var s := Group(RFC, data[0], data[1], 0);
      assert Octets(s[0], s[1], s[2], 0)[..2] == data;
    } else {
      GroupThereAndBack(data[0], data[1], data[2]);
      UndigitsDigits(data[3..]);
      assert Digits(RFC, data)[4..] == Digits(RFC, data[3..]);
      assert data == [data[0], data[1], data[2]] + data[3..];
    }
  }

  lemma {:induction false} DigitsUndigits(ds: seq<nat>)
    requires Undigits(ds).Some?
    ensures Digits(RFC, Undigits(ds).value) == ds
  {
    if |ds| == 0 {
    } else if |ds| == 4 && ds[2] == 64 && ds[3] == 64 {
      GroupBackAndThere(ds[0], ds[1], 0, 0);
    } else if |ds| == 4 && ds[3] == 64 {
      GroupBackAndThere(ds[0], ds[1], ds[2], 0);
    } else {
      DigitsUndigits(ds[4..]);
      GroupBackAndThere(ds[0], ds[1], ds[2], ds[3]);
      assert Undigits(ds).value[3..] == Undigits(ds[4..]).value;
      assert ds == [ds[0], ds[1], ds[2], ds[3]] + ds[4..];
    }
  }

  /** Decoding what was encoded gives the input back, for every input. */
  lemma DecodeEncode(data: seq<byte>)
    ensures Decode(Encode(data)) == Some(data)
  {
    assert Values(Encode(data)) == Digits(RFC, data);
    UndigitsDigits(data);
  }

  /** Whatever the strict decoder accepts is the encoding of what it returns: the two form a bijection. */
  lemma EncodeDecode(s: string)
    requires Decode(s).Some?
    ensures Encode(Decode(s).value) == s
  {
    DigitsUndigits(Values(s));
    forall i | 0 <= i < |s| ensures Encode(Decode(s).value)[i] == s[i] {
      SymbolOfValue(s[i]);
    }
  }

  // ---- what the stream has produced after some octets, for any cut ----------------------------------

  /** The digits decided after the octets `data`: whole groups, and the full digits of an unfinished one. */
  function Pushed(k: Cut, data: seq<byte>): (ds: seq<digit>)
  {
    if |data| == 0 then []
    else if |data| == 1 then [k.first(data[0])]
    else if |data| == 2 then [k.first(data[0]), k.second(data[0], data[1])]
    else Group(k, data[0], data[1], data[2]) + Pushed(k, data[3..])
  }

  /** The digits that octet `b` completes when n octets came before it, the last of them `prev`. */
  function Completed(k: Cut, n: nat, prev: byte, b: byte): seq<digit> {
    if n % 3 == 0 then [k.first(b)]
    else if n % 3 == 1 then [k.second(prev, b)]
    else [k.third(prev, b), k.fourth(b)]
  }

  /** What is missing at the end of n octets, the last of them `prev`. */
  function Missing(k: Cut, n: nat, prev: byte): seq<digit> {
    if n % 3 == 0 then []
    else if n % 3 == 1 then [k.second(prev, 0), PAD, PAD]
    else [k.third(prev, 0), PAD]
  }

  lemma {:induction false} PushOctet(k: Cut, data: seq<byte>, b: byte, prev: byte)
    requires |data| % 3 != 0 ==> prev == data[|data| - 1]
    ensures Pushed(k, data + [b]) == Pushed(k, data) + Completed(k, |data|, prev, b)
  {
    if |data| >= 3 {
      PushOctet(k, data[3..], b, prev);
      assert (data + [b])[3..] == data[3..] + [b];
    } else if |data| == 2 {
      assert Pushed(k, (data + [b])[3..]) == [];
    }
  }

  lemma {:induction false} FinishGroup(k: Cut, data: seq<byte>, prev: byte)
    requires |data| % 3 != 0 ==> prev == data[|data| - 1]
    ensures Digits(k, data) == Pushed(k, data) + Missing(k, |data|, prev)
  {
    if |data| >= 3 {
      FinishGroup(k, data[3..], prev);
    }
  }

  // ---- the accumulator --------------------------------------------------------------------------

  /** The bits, less six, that wait in the accumulator after n octets. */
  function Waiting(n: nat): int {
    if n % 3 == 0 then -6 else if n % 3 == 1 then -4 else -2
  }

  /** What the inner loop pushes: a digit for every six bits that wait. */
  function Drain(val: int, bits: int): (ds: seq<digit>)
    requires bits >= -6
    decreases bits + 6
  {
    if bits < 0 then [] else [val / Pow2(bits) % 64] + Drain(val, bits - 6)
  }

  lemma QuotientAndRest(v: int, q: int, r: int)
    requires v == 65536 * q + r && 0 <= r < 65536
    ensures v % 65536 == r
  {}

  lemma LowOctet(v: int, hi: byte, lo: byte)
    requires v % 65536 == hi * 256 + lo
    ensures v % 256 == lo
  {}

  /** Of the wrapped accumulator only the two low octets are ever read, and those are exact. */
  lemma AccumulatorLowBits(val: int, b: byte)
    ensures Wrap32(Wrap32(val * 256) + b) % 65536 == val % 256 * 256 + b
  {
    var x := val * 256;
    var k := (x + 0x8000_0000) / 0x1_0000_0000;
    var w := Wrap32(x);
    assert w == x - 0x1_0000_0000 * k;
    var j := (w + b + 0x8000_0000) / 0x1_0000_0000;
    var v := Wrap32(w + b);
    assert v == x + b - 0x1_0000_0000 * (k + j);
    QuotientAndRest(v, val / 256 - 65536 * (k + j), val % 256 * 256 + b);
  }

  /** The bits read for one octet, by how many octets of its group came before. */
  lemma DrainedBits(n: nat, val: int, prev: byte, b: byte)
    requires val % 65536 == prev * 256 + b
    ensures Waiting(n) + 8 >= 0
    ensures Drain(val, Waiting(n) + 8) == Completed(RFC, n, prev, b)
  {
    assert Pow2(0) == 1 && Pow2(2) == 4 && Pow2(4) == 16 && Pow2(6) == 64;
    var q := val / 65536;
    assert val == 65536 * q + 256 * prev + b;
    DivMod(val, 4, 16384 * q + 64 * prev + b / 4, b % 4);
    DivMod(16384 * q + 64 * prev + b / 4, 64, 256 * q + prev, b / 4);
    DivMod(val, 16, 4096 * q + 16 * prev + b / 16, b % 16);
    DivMod(4096 * q + 16 * prev + b / 16, 64, 64 * q + prev / 4, prev % 4 * 16 + b / 16);
    DivMod(val, 64, 1024 * q + 4 * prev + b / 64, b % 64);
    DivMod(1024 * q + 4 * prev + b / 64, 64, 16 * q + prev / 16, prev % 16 * 4 + b / 64);
    assert Drain(val, 0) == [val % 64];
  }

  /** The last digit of an unfinished group, read out of the accumulator shifted once more. */
  lemma LastBits(n: nat, val: int, b: byte)
    requires val % 256 == b && n % 3 != 0
    ensures Waiting(n) + 8 >= 0
    ensures Wrap32(val * 256) / Pow2(Waiting(n) + 8) % 64 == Missing(RFC, n, b)[0]
  {
    AccumulatorLowBits(val, 0);
    var v := Wrap32(val * 256);
    assert Wrap32(v + 0) == v;
    assert Pow2(4) == 16 && Pow2(6) == 64;
    var q := v / 65536;
    assert v == 65536 * q + 256 * b;
    DivMod(v, 16, 4096 * q + 16 * b, 0);
    DivMod(4096 * q + 16 * b, 64, 64 * q + b / 4, b % 4 * 16);
    DivMod(v, 64, 1024 * q + 4 * b, 0);
    DivMod(1024 * q + 4 * b, 64, 16 * q + b / 16, b % 16 * 4);
  }

  lemma CompletedSize(n: nat, prev: byte, b: byte)
    ensures Waiting(n + 1) == Waiting(n) + 8 - 6 * |Completed(RFC, n, prev, b)|
  {}

  /** One round of the outer loop, on the wrapped accumulator. */
  lemma Round(data: seq<byte>, i: nat, val: int, next: int)
    requires i < |data| && next % 65536 == val % 256 * 256 + data[i]
    requires i > 0 ==> val % 256 == data[i - 1]
    ensures next % 256 == data[i]
    ensures Waiting(i) + 8 >= 0
    ensures Text(Pushed(RFC, data[..i + 1])) == Text(Pushed(RFC, data[..i])) + Text(Drain(next, Waiting(i) + 8))
    ensures Waiting(i + 1) == Waiting(i) + 8 - 6 * |Drain(next, Waiting(i) + 8)|
  {
    var prev: byte := val % 256;
    LowOctet(next, prev, data[i]);
    DrainedBits(i, next, prev, data[i]);
    CompletedSize(i, prev, data[i]);
    PushedText(RFC, data, i, prev);
  }

  lemma PushedText(k: Cut, data: seq<byte>, i: nat, prev: byte)
    requires i < |data| && (i % 3 != 0 ==> prev == data[i - 1])
    ensures Text(Pushed(k, data[..i + 1])) == Text(Pushed(k, data[..i])) + Text(Completed(k, i, prev, data[i]))
  {
    PushOctet(k, data[..i], data[i], prev);
    assert data[..i] + [data[i]] == data[..i + 1];
    TextConcat(Pushed(k, data[..i]), Completed(k, i, prev, data[i]));
  }

  lemma DrainNext(ds: seq<digit>, val: int, rest: nat, v: digit)
    requires v == val / Pow2(rest) % 64
    ensures ds + Drain(val, rest) == (ds + [v]) + Drain(val, rest - 6)
  {}

  /** The inner loop: push the digits that wait, oldest first. */
  method PushWaiting(out: string, val: int, bits: int) returns (more: string, rest: int)
    requires bits >= -6
    ensures more == out + Text(Drain(val, bits))
    ensures rest == bits - 6 * |Drain(val, bits)|
  {
    more, rest := out, bits;
    ghost var ds: seq<digit> := [];
    while rest >= 0
      invariant -6 <= rest == bits - 6 * |ds|
      invariant ds + Drain(val, rest) == Drain(val, bits) && more == out + Text(ds)
      decreases rest + 6
    {
      var v := val / Pow2(rest) % 64;
      DrainNext(ds, val, rest, v);
      TableIsSymbol(v);
      TextAppend(ds, v);
      more, ds := more + [Table(v)], ds + [v];
      rest := rest - 6;
    }
    assert ds == Drain(val, bits);
  }

  lemma TextConcat(a: seq<digit>, b: seq<digit>)
    ensures Text(a + b) == Text(a) + Text(b)
  {}

  /** The loop that pads the text to a multiple of four characters. */
  method Pad(s: string) returns (out: string)
    requires |s| % 4 != 1
    ensures out == s + if |s| % 4 == 0 then "" else if |s| % 4 == 3 then "=" else "=="
  {
    out := s;
    while |out| % 4 != 0
      invariant out == s || (out == s + "=" && |s| % 4 >= 2) || (out == s + "==" && |s| % 4 == 2)
      decreases |s| + 2 - |out|
    {
      out := out + "=";
    }
  }

  /** The main loop: a 32-bit accumulator that overflows, and a count of waiting bits. */
  method Stream(data: seq<byte>) returns (out: string, val: int, bits: int)
    ensures out == Text(Pushed(RFC, data)) && bits == Waiting(|data|)
    ensures |data| > 0 ==> val % 256 == data[|data| - 1]
  {
    out, val, bits := "", 0, -6;
    for i := 0 to |data|
      invariant bits == Waiting(i)
      invariant i > 0 ==> val % 256 == data[i - 1]
      invariant out == Text(Pushed(RFC, data[..i]))
    {
      AccumulatorLowBits(val, data[i]);
      ghost var next := Wrap32(Wrap32(val * 256) + data[i]);
      Round(data, i, val, next);
      val := Wrap32(Wrap32(val * 256) + data[i]);
      out, bits := PushWaiting(out, val, bits + 8);
    }
    assert data[..|data|] == data;
  }

  /** The whole text, from the digits already pushed and the last one. */
  lemma TailText(k: Cut, data: seq<byte>, prev: byte)
    requires |data| % 3 != 0 && prev == data[|data| - 1]
    ensures var body := Text(Pushed(k, data)) + [Symbol(Missing(k, |data|, prev)[0])];
            && Text(Digits(k, data)) == body + (if |data| % 3 == 1 then "==" else "=")
            && |body| % 4 == (if |data| % 3 == 1 then 2 else 3)
  {
    FinishGroup(k, data, prev);
    var last, pushed := Missing(k, |data|, prev), Pushed(k, data);
    assert last == [last[0]] + last[1..];
    TextConcat(pushed, last);
    TextConcat([last[0]], last[1..]);
    PaddingText(k, |data|, prev);
    DigitsSize(k, data);
    TailSize(|Digits(k, data)|, |pushed| + 1, if |data| % 3 == 1 then 2 else 1);
  }

  lemma PaddingText(k: Cut, n: nat, prev: byte)
    requires n % 3 != 0
    ensures var last := Missing(k, n, prev);
            && |last| == (if n % 3 == 1 then 3 else 2)
            && Text(last[1..]) == (if n % 3 == 1 then "==" else "=") && Text([last[0]]) == [Symbol(last[0])]
  {}

  lemma TailSize(all: nat, body: nat, padding: nat)
    requires all % 4 == 0 && all == body + padding && 1 <= padding <= 2
    ensures body % 4 == 4 - padding
  {}

  /** The encoder: the main loop, the last digit, the padding. */
  method EncodeStreaming(data: seq<byte>) returns (out: string)
    ensures out == Encode(data)
  {
    var val, bits;
    out, val, bits := Stream(data);
    DigitsSize(RFC, data);
    FinishGroup(RFC, data, val % 256);
    if bits > -6 {
      LastBits(|data|, val, val % 256);
      TailText(RFC, data, val % 256);
      var v := Wrap32(val * 256) / Pow2(bits + 8) % 64;
      TableIsSymbol(v);
      out := out + [Table(v)];
    }
    out := Pad(out);
  }
}
