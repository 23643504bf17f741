/** Foundation's `Data.base64EncodedString()` with no options: the standard
    alphabet of section 4 of RFC 4648, with `=` padding and no line breaks.
    `Decode` is an independent reference decoder, used only to state that
    the encoding loses nothing. */
module Base64 {
  import opened Wrappers
  import opened Bytes

  /** The padding character. */
  const Pad: char := '='

  /** The alphabet symbol of a 6-bit value (Table 1 of RFC 4648). */
  function CharOf(v: int): (c: char)
    requires 0 <= v < 64
    ensures ValueOf(c) == Some(v)
  {
    if v < 26 then ('A' as int + v) as char
    else if v < 52 then ('a' as int + (v - 26)) as char
    else if v < 62 then ('0' as int + (v - 52)) as char
    else if v == 62 then '+'
    else '/'
  }

  /** The 6-bit value of an alphabet symbol; `None` for any other character,
      the padding character included. */
  function ValueOf(c: char): (r: Option<int>)
    ensures r.Some? ==> 0 <= r.value < 64
    ensures c == Pad ==> r.None?
  {
    if 'A' <= c <= 'Z' then Some(c as int - 'A' as int)
    else if 'a' <= c <= 'z' then Some(c as int - 'a' as int + 26)
    else if '0' <= c <= '9' then Some(c as int - '0' as int + 52)
    else if c == '+' then Some(62)
    else if c == '/' then Some(63)
    else None
  }

  /** The four symbols of three octets: 24 bits regrouped as four 6-bit values. */
  function Quantum3(x: byte, y: byte, z: byte): string
  {
    [CharOf(x / 4), CharOf(x % 4 * 16 + y / 16), CharOf(y % 16 * 4 + z / 64), CharOf(z % 64)]
  }

  /** The final quantum of a two-octet remainder: zero-filled, one `=`. */
  function Quantum2(x: byte, y: byte): string
  {
    [CharOf(x / 4), CharOf(x % 4 * 16 + y / 16), CharOf(y % 16 * 4), Pad]
  }

  /** The final quantum of a one-octet remainder: zero-filled, two `=`. */
  function Quantum1(x: byte): string
  {
    [CharOf(x / 4), CharOf(x % 4 * 16), Pad, Pad]
  }

  /** Encodes three octets at a time into four symbols; a final group of one
      or two octets is zero-filled and padded (section 4 of RFC 4648). */
  function Encode(b: Bytes): (s: string)
    ensures |s| == 4 * ((|b| + 2) / 3)
    decreases |b|
  {
    if |b| == 0 then ""
    else if |b| == 1 then Quantum1(b[0])
    else if |b| == 2 then Quantum2(b[0], b[1])
    else Quantum3(b[0], b[1], b[2]) + Encode(b[3..])
  }

  /** Decodes one 4-symbol quantum. Padding is accepted only in the last
      quantum of the input, and only when the bits it stands in for are zero,
      so that each byte string has exactly one encoding that decodes to it. */
  function DecodeQuantum(q: string, last: bool): Option<Bytes>
    requires |q| == 4
  {
    var v0, v1, v2, v3 := ValueOf(q[0]), ValueOf(q[1]), ValueOf(q[2]), ValueOf(q[3]);
    if v0.None? || v1.None? then None
    else if last && q[2] == Pad && q[3] == Pad then
      if v1.value % 16 != 0 then None
      else Some([v0.value * 4 + v1.value / 16])
    else if v2.None? then None
    else if last && q[3] == Pad then
      if v2.value % 4 != 0 then None
      else Some([v0.value * 4 + v1.value / 16, v1.value % 16 * 16 + v2.value / 4])
    else if v3.None? then None
    else
      Some([v0.value * 4 + v1.value / 16, v1.value % 16 * 16 + v2.value / 4, v2.value % 4 * 64 + v3.value])
  }

  /** Reference decoder: `None` unless the input is a sequence of whole quanta. */
  function Decode(s: string): Option<Bytes>
    decreases |s|
  {
    if |s| == 0 then Some([])
    else if |s| < 4 then None
    else
      match DecodeQuantum(s[..4], |s| == 4)
      case None => None
      case Some(head) =>
        match Decode(s[4..])
        case None => None
        case Some(tail) => Some(head + tail)
  }

  /** The bit regrouping of one full quantum is undone by the decoder's. */
  lemma RegroupThree(x: byte, y: byte, z: byte)
    ensures (x / 4) * 4 + (x % 4 * 16 + y / 16) / 16 == x
    ensures (x % 4 * 16 + y / 16) % 16 * 16 + (y % 16 * 4 + z / 64) / 4 == y
    ensures (y % 16 * 4 + z / 64) % 4 * 64 + z % 64 == z
  {
  }

  /** Each quantum the encoder emits decodes to the octets it encodes. */
  lemma DecodeQuanta(x: byte, y: byte, z: byte, last: bool)
    ensures DecodeQuantum(Quantum3(x, y, z), last) == Some([x, y, z])
    ensures DecodeQuantum(Quantum2(x, y), true) == Some([x, y])
    ensures DecodeQuantum(Quantum1(x), true) == Some([x])
  {
    RegroupThree(x, y, z);
    RegroupThree(x, y, 0);
    RegroupThree(x, 0, 0);
  }

  /** Decoding proceeds quantum by quantum. */
  lemma DecodeAppend(q: string, rest: string, head: Bytes, tail: Bytes)
    requires |q| == 4
    requires DecodeQuantum(q, rest == []) == Some(head)
    requires Decode(rest) == Some(tail)
    ensures Decode(q + rest) == Some(head + tail)
  {
  }

  /** A lone quantum decodes on its own, as the last one. */
  lemma DecodeSingle(q: string, head: Bytes)
    requires |q| == 4 && DecodeQuantum(q, true) == Some(head)
    ensures Decode(q) == Some(head)
  {
    assert q[..4] == q && q[4..] == [];
    assert head + [] == head;
  }

  /** A one- or two-octet string decodes from its single padded quantum. */
  lemma DecodeEncodeShort(b: Bytes)
    requires 1 <= |b| <= 2
    ensures Decode(Encode(b)) == Some(b)
  {
    if |b| == 1 {
      DecodeQuanta(b[0], 0, 0, true);
      DecodeSingle(Quantum1(b[0]), [b[0]]);
      assert Encode(b) == Quantum1(b[0]) && [b[0]] == b;
    } else {
      DecodeQuanta(b[0], b[1], 0, true);
      DecodeSingle(Quantum2(b[0], b[1]), [b[0], b[1]]);
      assert Encode(b) == Quantum2(b[0], b[1]) && [b[0], b[1]] == b;
    }
  }

  /** A full quantum in front of an encoding that decodes adds its three
      octets in front of the decoded octets. */
  lemma DecodeEncodeStep(x: byte, y: byte, z: byte, rest: string, tail: Bytes)
    requires Decode(rest) == Some(tail)
    ensures Decode(Quantum3(x, y, z) + rest) == Some([x, y, z] + tail)
  {
    DecodeQuanta(x, y, z, rest == []);
    DecodeAppend(Quantum3(x, y, z), rest, [x, y, z], tail);
  }

  /** Every encoding decodes back to the octets it was made from. */
  lemma {:induction false} DecodeEncode(b: Bytes)
    ensures Decode(Encode(b)) == Some(b)
    decreases |b|
  {
    if |b| == 0 {
    } else if |b| < 3 {
      DecodeEncodeShort(b);
    } else {
      DecodeEncode(b[3..]);
      DecodeEncodeStep(b[0], b[1], b[2], Encode(b[3..]), b[3..]);
      assert Encode(b) == Quantum3(b[0], b[1], b[2]) + Encode(b[3..]);
      assert b == [b[0], b[1], b[2]] + b[3..];
    }
  }

  /** A symbol of the alphabet is the symbol of its own value. */
  lemma CharOfValueOf(c: char)
    requires ValueOf(c).Some?
    ensures CharOf(ValueOf(c).value) == c
  {
  }

  /** The symbols of the octets a full quantum decodes to are its own symbols. */
  lemma RegroupFour(v0: int, v1: int, v2: int, v3: int)
    requires 0 <= v0 < 64 && 0 <= v1 < 64 && 0 <= v2 < 64 && 0 <= v3 < 64
    ensures var x, y, z := v0 * 4 + v1 / 16, v1 % 16 * 16 + v2 / 4, v2 % 4 * 64 + v3;
      x / 4 == v0 && x % 4 * 16 + y / 16 == v1 && y % 16 * 4 + z / 64 == v2 && z % 64 == v3
  {
    var x, y, z := v0 * 4 + v1 / 16, v1 % 16 * 16 + v2 / 4, v2 % 4 * 64 + v3;
    assert x / 4 == v0 && x % 4 == v1 / 16;
    assert y / 16 == v1 % 16 && y % 16 == v2 / 4;
    assert z / 64 == v2 % 4 && z % 64 == v3;
  }

  /** A full quantum the decoder accepts is the encoder's quantum for the
      three octets it yields. */
  lemma EncodeFullQuantum(q: string, v0: int, v1: int, v2: int, v3: int)
    requires |q| == 4
    requires ValueOf(q[0]) == Some(v0) && ValueOf(q[1]) == Some(v1)
    requires ValueOf(q[2]) == Some(v2) && ValueOf(q[3]) == Some(v3)
    ensures Quantum3(v0 * 4 + v1 / 16, v1 % 16 * 16 + v2 / 4, v2 % 4 * 64 + v3) == q
  {
    CharOfValueOf(q[0]);
    CharOfValueOf(q[1]);
    CharOfValueOf(q[2]);
    CharOfValueOf(q[3]);
    RegroupFour(v0, v1, v2, v3);
  }

  /** A padded quantum the decoder accepts is the whole encoding of the one
      or two octets it yields. */
  lemma EncodePaddedQuantum(q: string, v0: int, v1: int, v2: int)
    requires |q| == 4
    requires ValueOf(q[0]) == Some(v0) && ValueOf(q[1]) == Some(v1)
    requires q[3] == Pad
    requires q[2] == Pad ==> v1 % 16 == 0 && v2 == 0
    requires q[2] != Pad ==> ValueOf(q[2]) == Some(v2) && v2 % 4 == 0
    ensures q[2] == Pad ==> Quantum1(v0 * 4 + v1 / 16) == q
    ensures q[2] != Pad ==> Quantum2(v0 * 4 + v1 / 16, v1 % 16 * 16 + v2 / 4) == q
  {
    CharOfValueOf(q[0]);
    CharOfValueOf(q[1]);
    RegroupFour(v0, v1, v2, 0);
    if q[2] != Pad {
      CharOfValueOf(q[2]);
    }
  }

  /** A quantum the decoder accepts is the encoder's quantum for the octets
      it yields; a padded one is the whole encoding of those octets. */
  lemma EncodeQuantum(q: string, last: bool, head: Bytes)
    requires |q| == 4 && DecodeQuantum(q, last) == Some(head)
    ensures 1 <= |head| <= 3
    ensures |head| < 3 ==> last && Encode(head) == q
    ensures |head| == 3 ==> Quantum3(head[0], head[1], head[2]) == q
  {
    if last && q[3] == Pad {
      EncodeLastQuantum(q, head);
    } else {
      EncodeInnerQuantum(q, last, head);
    }
  }

  /** The padded case of EncodeQuantum. */
  lemma EncodeLastQuantum(q: string, head: Bytes)
    requires |q| == 4 && q[3] == Pad && DecodeQuantum(q, true) == Some(head)
    ensures 1 <= |head| < 3 && Encode(head) == q
  {
    if q[2] == Pad {
      EncodeOneOctet(q, head);
    } else {
      EncodeTwoOctets(q, head);
    }
  }

  /** A quantum with two `=` encodes the one octet it decodes to. */
  lemma EncodeOneOctet(q: string, head: Bytes)
    requires |q| == 4 && q[2] == Pad && q[3] == Pad && DecodeQuantum(q, true) == Some(head)
    ensures |head| == 1 && Encode(head) == q
  {
    var v0, v1 := ValueOf(q[0]).value, ValueOf(q[1]).value;
    EncodePaddedQuantum(q, v0, v1, 0);
    assert head == [v0 * 4 + v1 / 16];
  }

  /** A quantum with one `=` encodes the two octets it decodes to. */
  lemma EncodeTwoOctets(q: string, head: Bytes)
    requires |q| == 4 && q[2] != Pad && q[3] == Pad && DecodeQuantum(q, true) == Some(head)
    ensures |head| == 2 && Encode(head) == q
  {
    var v0, v1, v2 := ValueOf(q[0]).value, ValueOf(q[1]).value, ValueOf(q[2]).value;
    EncodePaddedQuantum(q, v0, v1, v2);
    assert head == [v0 * 4 + v1 / 16, v1 % 16 * 16 + v2 / 4];
  }

  /** The unpadded case of EncodeQuantum. */
  lemma EncodeInnerQuantum(q: string, last: bool, head: Bytes)
    requires |q| == 4 && !(last && q[3] == Pad) && DecodeQuantum(q, last) == Some(head)
    ensures |head| == 3 && Quantum3(head[0], head[1], head[2]) == q
  {
    var v0, v1, v2, v3 := ValueOf(q[0]).value, ValueOf(q[1]).value, ValueOf(q[2]).value, ValueOf(q[3]).value;
    EncodeFullQuantum(q, v0, v1, v2, v3);
    assert head == [v0 * 4 + v1 / 16, v1 % 16 * 16 + v2 / 4, v2 % 4 * 64 + v3];
  }

  /** Every string the decoder accepts is the encoding of what it decodes to:
      together with DecodeEncode, each byte string has exactly one encoding. */
  lemma {:induction false} EncodeDecode(s: string, b: Bytes)
    requires Decode(s) == Some(b)
    ensures Encode(b) == s
    decreases |s|
  {
    if |s| != 0 {
      var head := DecodeQuantum(s[..4], |s| == 4).value;
      var tail := Decode(s[4..]).value;
      assert b == head + tail;
      EncodeQuantum(s[..4], |s| == 4, head);
      if |head| < 3 {
        assert s[4..] == [] && tail == [] && b == head && s == s[..4];
      } else {
        EncodeDecode(s[4..], tail);
        assert b[..3] == head && b[3..] == tail;
        assert s == s[..4] + s[4..];
      }
    }
  }

  /** The short test vectors of section 10 of RFC 4648. */
  lemma RfcTestVectorsShort()
    ensures Encode([]) == ""
    ensures Encode([102]) == "Zg=="
    ensures Encode([102, 111]) == "Zm8="
    ensures Encode([102, 111, 111]) == "Zm9v"
  {
  }

  /** The long test vectors of section 10 of RFC 4648. */
  lemma RfcTestVectorsLong()
    ensures Encode([102, 111, 111, 98]) == "Zm9vYg=="
    ensures Encode([102, 111, 111, 98, 97]) == "Zm9vYmE="
    ensures Encode([102, 111, 111, 98, 97, 114]) == "Zm9vYmFy"
  {
  }
}
