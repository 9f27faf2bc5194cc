// The base64 codec of inline payloads: section 4 of RFC 4648, with the source's
// 32-bit accumulator that is never masked and wraps.

module Base64 {
  import opened VirtualTime
  import opened Arithmetic

  type sextet = x: int | 0 <= x < 64

  /** The alphabet, in the order of table 1 of RFC 4648. */
  function Symbol(v: sextet): (c: char)
    ensures c != '='
  {
    if v < 26 then 'A' + v as char
    else if v < 52 then 'a' + (v - 26) as char
    else if v < 62 then '0' + (v - 52) as char
    else if v == 62 then '+' else '/'
  }

  function Value(c: char): (r: Option<sextet>)
    ensures r.Some? ==> Symbol(r.value) == c
    ensures forall v: sextet :: Symbol(v) == c ==> r == Some(v)
  {
    if 'A' <= c <= 'Z' then Some((c - 'A') as int)
    else if 'a' <= c <= 'z' then Some((c - 'a') as int + 26)
    else if '0' <= c <= '9' then Some((c - '0') as int + 52)
    else if c == '+' then Some(62) else if c == '/' then Some(63) else None
  }

  // ----- Encoding -------------------------------------------------------------------

  function EncodeThree(a: byte, b: byte, c: byte): string {
    var v: int := a * 65536 + b * 256 + c;
    [Symbol(v / 262144), Symbol(v / 4096 % 64), Symbol(v / 64 % 64), Symbol(v % 64)]
  }

  function EncodeTail(tail: seq<byte>): string
    requires |tail| < 3
  {
    if |tail| == 0 then ""
    else if |tail| == 1 then
      var a: int := tail[0];
      var v := a * 65536;
      [Symbol(v / 262144), Symbol(v / 4096 % 64), '=', '=']
    else
      var a: int, b: int := tail[0], tail[1];
      var v := a * 65536 + b * 256;
      [Symbol(v / 262144), Symbol(v / 4096 % 64), Symbol(v / 64 % 64), '=']
  }

  function EncodeText(bytes: seq<byte>): string
    decreases |bytes|
  {
    if |bytes| < 3 then EncodeTail(bytes)
    else EncodeThree(bytes[0], bytes[1], bytes[2]) + EncodeText(bytes[3..])
  }

  lemma EncodeStep(text: string, bytes: seq<byte>)
    requires |bytes| >= 3
    ensures text + EncodeText(bytes) == text + EncodeThree(bytes[0], bytes[1], bytes[2]) + EncodeText(bytes[3..])
  {
  }

  /** `b64_encode`. */
  method Encode(bytes: seq<byte>) returns (text: string)
    ensures text == EncodeText(bytes)
  {
    text := "";
    var i := 0;
    assert bytes[0..] == bytes;
    while i + 3 <= |bytes|
      invariant 0 <= i <= |bytes|
      invariant text + EncodeText(bytes[i..]) == EncodeText(bytes)
    {
      EncodeStep(text, bytes[i..]);
      text := text + EncodeThree(bytes[i], bytes[i + 1], bytes[i + 2]);
      assert bytes[i..][3..] == bytes[i + 3..];
      i := i + 3;
    }
    text := text + EncodeTail(bytes[i..]);
  }

  // ----- Decoding ---------------------------------------------------------------------

  /** The accumulator after one more symbol: shifted left in 32 bits, then filled. */
  function Shifted(acc: nat, v: sextet): (r: nat)
    ensures r < TWO32
  {
    (acc * 64 + v) % TWO32
  }

  function Prepend(b: byte, rest: Option<seq<byte>>): Option<seq<byte>> {
    match rest
    case None => None
    case Some(bytes) => Some([b] + bytes)
  }

  function DecodeFrom(acc: nat, bits: nat, text: string): Option<seq<byte>>
    decreases |text|
  {
    if text == "" || text[0] == '=' then Some([])
    else
      match Value(text[0])
      case None => None
      case Some(v) =>
        var acc' := Shifted(acc, v);
        if bits + 6 >= 8 then
          Prepend(acc' / Pow2(bits - 2) % 256, DecodeFrom(acc', bits - 2, text[1..]))
        else DecodeFrom(acc', bits + 6, text[1..])
  }

  function DecodeText(text: string): Option<seq<byte>> {
    DecodeFrom(0, 0, text)
  }

  function Joined(out: seq<byte>, rest: Option<seq<byte>>): Option<seq<byte>> {
    match rest
    case None => None
    case Some(bytes) => Some(out + bytes)
  }

  lemma JoinPrepended(out: seq<byte>, b: byte, rest: Option<seq<byte>>)
    ensures Joined(out, Prepend(b, rest)) == Joined(out + [b], rest)
    ensures Joined([], rest) == rest
    ensures Joined(out, Some([])) == Some(out)
  {
    assert out + [] == out;
    if rest.Some? {
      assert out + ([b] + rest.value) == out + [b] + rest.value;
      assert [] + rest.value == rest.value;
    }
  }

  /** `b64_decode`; `None` where it throws. */
  method Decode(text: string) returns (bytes: Option<seq<byte>>)
    ensures bytes == DecodeText(text)
  {
    var out: seq<byte> := [];
    var acc: nat, bits: nat, i := 0, 0, 0;
    JoinPrepended([], 0, DecodeText(text));
    assert text[0..] == text;
    while i < |text| && text[i] != '='
      invariant 0 <= i <= |text|
      invariant DecodeText(text) == Joined(out, DecodeFrom(acc, bits, text[i..]))
    {
      assert text[i..][1..] == text[i + 1..];
      var v := Value(text[i]);
      if v.None? { return None; }
      acc := Shifted(acc, v.value);
      bits := bits + 6;
      if bits >= 8 {
        bits := bits - 8;
        JoinPrepended(out, acc / Pow2(bits) % 256, DecodeFrom(acc, bits, text[i + 1..]));
        out := out + [acc / Pow2(bits) % 256];
      }
      i := i + 1;
    }
    JoinPrepended(out, 0, None);
    return Some(out);
  }

  // ----- The accumulator may wrap ---------------------------------------------------------

  /** The bits not yet emitted and one more symbol make at most one byte and a rest. */
  lemma LowFits(low: nat, bits: nat, v: sextet)
    requires bits in {0, 2, 4, 6} && low < Pow2(bits)
    ensures bits == 0 ==> low * 64 + v < Pow2(6)
    ensures bits > 0 ==> var p := Pow2(bits - 2); (low * 64 + v) / p < 256 && (low * 64 + v) % p < p
  {
    PowersOfTwo();
    hide Pow2;
  }

  /** The decoder without wrap-around: it keeps only the bits not yet emitted. */
  function DecodeLow(low: nat, bits: nat, text: string): Option<seq<byte>>
    requires bits in {0, 2, 4, 6} && low < Pow2(bits)
    decreases |text|
  {
    if text == "" || text[0] == '=' then Some([])
    else
      match Value(text[0])
      case None => None
      case Some(v) =>
        LowFits(low, bits, v);
        var all := low * 64 + v;
        if bits == 0 then DecodeLow(all, 6, text[1..])
        else
          Prepend(all / Pow2(bits - 2), DecodeLow(all % Pow2(bits - 2), bits - 2, text[1..]))
  }

  /** The low bits survive the wrap of the accumulator. */
  lemma WrapKeepsLow(acc: nat, v: sextet, bits: nat)
    requires bits in {0, 2, 4, 6}
    ensures Shifted(acc, v) % Pow2(bits + 6) == acc % Pow2(bits) * 64 + v
  {
    PowersOfTwo();
    var q := (acc * 64 + v) / TWO32;
    assert Shifted(acc, v) == acc * 64 + v - q * TWO32;
    if bits == 0 {
      DivModUnique(Shifted(acc, v), 64, acc - q * 67108864, v);
    } else if bits == 2 {
      DivModUnique(Shifted(acc, v), 256, acc / 4 - q * 16777216, acc % 4 * 64 + v);
    } else if bits == 4 {
      DivModUnique(Shifted(acc, v), 1024, acc / 16 - q * 4194304, acc % 16 * 64 + v);
    } else {
      DivModUnique(Shifted(acc, v), 4096, acc / 64 - q * 1048576, acc % 64 * 64 + v);
    }
  }

  lemma EmittedByte(acc: nat, bits: nat)
    requires bits in {2, 4, 6}
    ensures acc / Pow2(bits - 2) % 256 == acc % Pow2(bits + 6) / Pow2(bits - 2)
    ensures acc % Pow2(bits - 2) == acc % Pow2(bits + 6) % Pow2(bits - 2)
  {
    PowersOfTwo();
    if bits == 4 {
      DivModUnique(acc, 4, acc / 1024 * 256 + acc % 1024 / 4, acc % 1024 % 4);
      DivModUnique(acc / 4, 256, acc / 1024, acc % 1024 / 4);
    } else if bits == 6 {
      DivModUnique(acc, 16, acc / 4096 * 256 + acc % 4096 / 16, acc % 4096 % 16);
      DivModUnique(acc / 16, 256, acc / 4096, acc % 4096 / 16);
    }
  }

  /** The wrapping decoder computes what the exact one does. */
  lemma {:induction false} WrapIsHarmless(acc: nat, bits: nat, text: string)
    requires bits in {0, 2, 4, 6} && acc % Pow2(bits) < Pow2(bits)
    ensures DecodeFrom(acc, bits, text) == DecodeLow(acc % Pow2(bits), bits, text)
    decreases |text|
  {
    if text == "" || text[0] == '=' || Value(text[0]).None? {
    } else {
      var v := Value(text[0]).value;
      PowersOfTwo();
      WrapKeepsLow(acc, v, bits);
      var acc' := Shifted(acc, v);
      if bits == 0 {
        WrapIsHarmless(acc', 6, text[1..]);
      } else {
        EmittedByte(acc', bits);
        WrapIsHarmless(acc', bits - 2, text[1..]);
      }
    }
  }

  // ----- Round trip --------------------------------------------------------------------------

  /** One symbol into the exact decoder. */
  lemma DecodeSymbol(low: nat, bits: nat, v: sextet, rest: string)
    requires bits in {0, 2, 4, 6} && low < Pow2(bits)
    ensures (PowersOfTwo(); bits == 0 ==> DecodeLow(low, bits, [Symbol(v)] + rest) == DecodeLow(v, 6, rest))
    ensures (PowersOfTwo(); bits != 0 ==>
      DecodeLow(low, bits, [Symbol(v)] + rest)
      == Prepend((low * 64 + v) / Pow2(bits - 2), DecodeLow((low * 64 + v) % Pow2(bits - 2), bits - 2, rest)))
  {
    PowersOfTwo();
    assert ([Symbol(v)] + rest)[1..] == rest;
  }

  /** The arithmetic of one full group. */
  lemma GroupBits(a: byte, b: byte, c: byte, v: int)
    requires v == a * 65536 + b * 256 + c
    ensures v / 262144 == a / 4 && v / 4096 % 64 == a % 4 * 16 + b / 16
    ensures v / 64 % 64 == b % 16 * 4 + c / 64 && v % 64 == c % 64
  {
    DivModUnique(v, 262144, a / 4, a % 4 * 65536 + b * 256 + c);
    DivModUnique(v, 4096, a * 16 + b / 16, b % 16 * 256 + c);
    DivModUnique(a * 16 + b / 16, 64, a / 4, a % 4 * 16 + b / 16);
    DivModUnique(v, 64, a * 1024 + b * 4 + c / 64, c % 64);
    DivModUnique(a * 1024 + b * 4 + c / 64, 64, a * 16 + b / 16, b % 16 * 4 + c / 64);
  }

  lemma DecodeFour(a: byte, b: byte, c: byte, rest: string)
    ensures DecodeLow(0, 0, EncodeThree(a, b, c) + rest)
         == Prepend(a, Prepend(b, Prepend(c, DecodeLow(0, 0, rest))))
  {
    hide DecodeLow, Prepend;
    GroupBits(a, b, c, a * 65536 + b * 256 + c);
    var v0, v1, v2, v3 := a / 4, a % 4 * 16 + b / 16, b % 16 * 4 + c / 64, c % 64;
    var t3 := [Symbol(v3)] + rest;
    var t2 := [Symbol(v2)] + t3;
    var t1 := [Symbol(v1)] + t2;
    assert EncodeThree(a, b, c) + rest == [Symbol(v0)] + t1;
    PowersOfTwo();
    DecodeSymbol(0, 0, v0, t1);
    DecodeSymbol(v0, 6, v1, t2);
    DivModUnique(v0 * 64 + v1, 16, a, b / 16);
    DecodeSymbol(b / 16, 4, v2, t3);
    DivModUnique(b / 16 * 64 + v2, 4, b, c / 64);
    DecodeSymbol(c / 64, 2, v3, rest);
    DivModUnique(c / 64 * 64 + v3, 1, c, 0);
  }

  lemma DecodeStop(low: nat, bits: nat, text: string)
    requires bits in {0, 2, 4, 6} && low < Pow2(bits) && (text == "" || text[0] == '=')
    ensures DecodeLow(low, bits, text) == Some([])
  {
  }

  lemma DecodeLastByte(a: byte)
    ensures DecodeLow(0, 0, EncodeTail([a])) == Some([a])
  {
    PowersOfTwo();
    var v: int := a * 65536;
    GroupBits(a, 0, 0, v);
    var t1 := [Symbol(a % 4 * 16)] + "==";
    assert EncodeTail([a]) == [Symbol(a / 4)] + t1;
    hide DecodeLow;
    DecodeSymbol(0, 0, a / 4, t1);
    DecodeSymbol(a / 4, 6, a % 4 * 16, "==");
    DivModUnique(a / 4 * 64 + a % 4 * 16, 16, a, 0);
    DecodeStop(0, 4, "==");
    assert [a] + [] == [a];
  }

  lemma DecodeLastTwo(a: byte, b: byte)
    ensures DecodeLow(0, 0, EncodeTail([a, b])) == Some([a, b])
  {
    PowersOfTwo();
    var v: int := a * 65536 + b * 256;
    GroupBits(a, b, 0, v);
    var v1, v2 := a % 4 * 16 + b / 16, b % 16 * 4;
    var t2 := [Symbol(v2)] + "=";
    var t1 := [Symbol(v1)] + t2;
    assert EncodeTail([a, b]) == [Symbol(a / 4)] + t1;
    hide DecodeLow;
    DecodeSymbol(0, 0, a / 4, t1);
    DecodeSymbol(a / 4, 6, v1, t2);
    DivModUnique(a / 4 * 64 + v1, 16, a, b / 16);
    DecodeSymbol(b / 16, 4, v2, "=");
    DivModUnique(b / 16 * 64 + v2, 4, b, 0);
    DecodeStop(0, 2, "=");
    assert [a] + ([b] + []) == [a, b];
  }

  lemma DecodeTail(tail: seq<byte>)
    requires |tail| < 3
    ensures DecodeLow(0, 0, EncodeTail(tail)) == Some(tail)
  {
    if |tail| == 1 {
      DecodeLastByte(tail[0]);
      assert tail == [tail[0]];
    } else if |tail| == 2 {
      DecodeLastTwo(tail[0], tail[1]);
      assert tail == [tail[0], tail[1]];
    }
  }

  lemma {:induction false} ExactRoundTrip(bytes: seq<byte>)
    ensures DecodeLow(0, 0, EncodeText(bytes)) == Some(bytes)
    decreases |bytes|
  {
    hide DecodeLow, EncodeThree, EncodeTail;
    PowersOfTwo();
    if |bytes| < 3 {
      DecodeTail(bytes);
    } else {
      DecodeFour(bytes[0], bytes[1], bytes[2], EncodeText(bytes[3..]));
      ExactRoundTrip(bytes[3..]);
      assert [bytes[0]] + ([bytes[1]] + ([bytes[2]] + bytes[3..])) == bytes;
    }
  }

  /** Every byte string survives encoding and decoding. */
  lemma RoundTrip(bytes: seq<byte>)
    ensures DecodeText(EncodeText(bytes)) == Some(bytes)
  {
    PowersOfTwo();
    WrapIsHarmless(0, 0, EncodeText(bytes));
    ExactRoundTrip(bytes);
  }

  // ----- The size without decoding --------------------------------------------------------------

  /** Characters before the first '='. */
  function Chars(text: string): nat {
    if text == "" || text[0] == '=' then 0 else 1 + Chars(text[1..])
  }

  /** `b64_decoded_size`. */
  function DecodedSize(text: string): nat {
    var chars := Chars(text);
    chars / 4 * 3 + chars % 4 * 3 / 4
  }

  lemma {:induction false} DecodedLength(acc: nat, bits: nat, text: string)
    requires bits in {0, 2, 4, 6} && DecodeFrom(acc, bits, text).Some?
    ensures |DecodeFrom(acc, bits, text).value| == (bits + 6 * Chars(text)) / 8
    decreases |text|
  {
    if text == "" || text[0] == '=' {
    } else {
      var acc' := Shifted(acc, Value(text[0]).value);
      DecodedLength(acc', if bits == 0 then 6 else bits - 2, text[1..]);
    }
  }

  /** For every text that decodes, the arithmetic size is the decoded length. */
  lemma SizeIsExact(text: string)
    requires DecodeText(text).Some?
    ensures |DecodeText(text).value| == DecodedSize(text)
  {
    DecodedLength(0, 0, text);
    var n := Chars(text);
    DivModUnique(6 * n, 8, n / 4 * 3 + n % 4 * 3 / 4, 6 * n - 8 * (n / 4 * 3 + n % 4 * 3 / 4));
  }
}
