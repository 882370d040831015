/**
 The two text codings of the message envelope, over ASCII bytes: standard base64 with canonical
 padding (section 4 of RFC 4648) and base16, called hex (section 8 of RFC 4648).
 */
module Rfc4648 {
  import opened Wrappers
  import opened Network

  datatype CodingError = BadLength | BadSymbol | BadPadding

  type Sextet = x: int | 0 <= x < 64

  const PAD: Byte := 61

  // ---------------------------------------------------------------- base64

  /** A-Z, a-z, 0-9, + and /. */
  function Symbol(x: Sextet): Byte {
    if x < 26 then x + 65
    else if x < 52 then x + 71
    else if x < 62 then x - 4
    else if x == 62 then 43
    else 47
  }

  function Value(b: Byte): Option<Sextet> {
    if 65 <= b < 91 then Some(b - 65)
    else if 97 <= b < 123 then Some(b - 71)
    else if 48 <= b < 58 then Some(b + 4)
    else if b == 43 then Some(62)
    else if b == 47 then Some(63)
    else None
  }

  lemma SymbolsAreInverse(x: Sextet, b: Byte)
    ensures Value(Symbol(x)) == Some(x)
    ensures Value(b) == Some(x) ==> b == Symbol(x)
    ensures Symbol(x) != PAD
  {
  }

  // three bytes are regrouped as four sextets, and back

  function First(x: Byte): Sextet { x / 4 }
  function Second(x: Byte, y: Byte): Sextet { x % 4 * 16 + y / 16 }
  function Third(y: Byte, z: Byte): Sextet { y % 16 * 4 + z / 64 }
  function Fourth(z: Byte): Sextet { z % 64 }

  function Left(a: Sextet, b: Sextet): Byte { a * 4 + b / 16 }
  function Middle(b: Sextet, c: Sextet): Byte { b % 16 * 16 + c / 4 }
  function Right(c: Sextet, d: Sextet): Byte { c % 4 * 64 + d }

  lemma Regroup(x: Byte, y: Byte, z: Byte)
    ensures Left(First(x), Second(x, y)) == x
    ensures Middle(Second(x, y), Third(y, z)) == y
    ensures Right(Third(y, z), Fourth(z)) == z
    ensures Second(x, 0) % 16 == 0 && Third(y, 0) % 4 == 0
  {
  }

  lemma Ungroup(a: Sextet, b: Sextet, c: Sextet, d: Sextet)
    ensures First(Left(a, b)) == a
    ensures Second(Left(a, b), Middle(b, c)) == b
    ensures Third(Middle(b, c), Right(c, d)) == c
    ensures Fourth(Right(c, d)) == d
    ensures b % 16 == 0 ==> Second(Left(a, b), 0) == b
    ensures c % 4 == 0 ==> Third(Middle(b, c), 0) == c
  {
  }

  function EncodeBlock(x: Byte, y: Byte, z: Byte): seq<Byte> {
    [Symbol(First(x)), Symbol(Second(x, y)), Symbol(Third(y, z)), Symbol(Fourth(z))]
  }

  function EncodeLast(data: seq<Byte>): seq<Byte>
    requires 1 <= |data| <= 2
  {
    if |data| == 1 then [Symbol(First(data[0])), Symbol(Second(data[0], 0)), PAD, PAD]
    else [Symbol(First(data[0])), Symbol(Second(data[0], data[1])), Symbol(Third(data[1], 0)), PAD]
  }

  function Encode(data: seq<Byte>): seq<Byte> {
    if data == [] then []
    else if |data| < 3 then EncodeLast(data)
    else EncodeBlock(data[0], data[1], data[2]) + Encode(data[3..])
  }

  /** Four symbols without padding. */
  function DecodeQuad(text: seq<Byte>): Result<seq<Byte>, CodingError>
    requires |text| >= 4
  {
    match (Value(text[0]), Value(text[1]), Value(text[2]), Value(text[3]))
    case (Some(a), Some(b), Some(c), Some(d)) => Ok([Left(a, b), Middle(b, c), Right(c, d)])
    case _ => Err(BadSymbol)
  }

  /** The last four symbols: padding is canonical and the unused bits are zero. */
  function DecodeLast(text: seq<Byte>): Result<seq<Byte>, CodingError>
    requires |text| == 4
  {
    if text[3] != PAD then DecodeQuad(text)
    else if text[2] != PAD then
      match (Value(text[0]), Value(text[1]), Value(text[2]))
      case (Some(a), Some(b), Some(c)) =>
        if c % 4 == 0 then Ok([Left(a, b), Middle(b, c)]) else Err(BadPadding)
      case _ => Err(BadSymbol)
    else
      match (Value(text[0]), Value(text[1]))
      case (Some(a), Some(b)) => if b % 16 == 0 then Ok([Left(a, b)]) else Err(BadPadding)
      case _ => Err(BadSymbol)
  }

  function Decode(text: seq<Byte>): Result<seq<Byte>, CodingError> {
    if text == [] then Ok([])
    else if |text| < 4 then Err(BadLength)
    else if |text| == 4 then DecodeLast(text)
    else match DecodeQuad(text)
      case Err(e) => Err(e)
      case Ok(block) =>
        match Decode(text[4..])
        case Err(e) => Err(e)
        case Ok(rest) => Ok(block + rest)
  }

  lemma BlockDecodes(x: Byte, y: Byte, z: Byte, rest: seq<Byte>)
    ensures DecodeQuad(EncodeBlock(x, y, z) + rest) == Ok([x, y, z])
    ensures DecodeLast(EncodeBlock(x, y, z)) == Ok([x, y, z])
  {
    hide Symbol, Value, First, Second, Third, Fourth, Left, Middle, Right;
    SymbolsAreInverse(First(x), 0);
    SymbolsAreInverse(Second(x, y), 0);
    SymbolsAreInverse(Third(y, z), 0);
    SymbolsAreInverse(Fourth(z), 0);
    Regroup(x, y, z);
  }

  lemma BlockEncodes(text: seq<Byte>)
    requires |text| >= 4 && DecodeQuad(text).Ok?
    ensures
      var block := DecodeQuad(text).value;
      |block| == 3 && EncodeBlock(block[0], block[1], block[2]) == text[..4]
  {
    hide Symbol, Value, First, Second, Third, Fourth, Left, Middle, Right;
    var a, b, c, d := Value(text[0]).value, Value(text[1]).value, Value(text[2]).value, Value(text[3]).value;
    SymbolsAreInverse(a, text[0]);
    SymbolsAreInverse(b, text[1]);
    SymbolsAreInverse(c, text[2]);
    SymbolsAreInverse(d, text[3]);
    Ungroup(a, b, c, d);
  }

  lemma LastDecodes(data: seq<Byte>)
    requires 1 <= |data| <= 2
    ensures |EncodeLast(data)| == 4 && DecodeLast(EncodeLast(data)) == Ok(data)
  {
    hide Symbol, Value, First, Second, Third, Fourth, Left, Middle, Right;
    var y := if |data| == 1 then 0 else data[1];
    SymbolsAreInverse(First(data[0]), 0);
    SymbolsAreInverse(Second(data[0], y), 0);
    SymbolsAreInverse(Third(y, 0), 0);
    Regroup(data[0], y, 0);
    if |data| == 1 {
      assert data == [data[0]];
    } else {
      assert data == [data[0], data[1]];
    }
  }

  lemma LastEncodes(text: seq<Byte>)
    requires |text| == 4 && text[3] == PAD && DecodeLast(text).Ok?
    ensures 1 <= |DecodeLast(text).value| <= 2 && EncodeLast(DecodeLast(text).value) == text
  {
    hide Symbol, Value, First, Second, Third, Fourth, Left, Middle, Right;
    var a, b := Value(text[0]).value, Value(text[1]).value;
    SymbolsAreInverse(a, text[0]);
    SymbolsAreInverse(b, text[1]);
    if text[2] != PAD {
      var c := Value(text[2]).value;
      SymbolsAreInverse(c, text[2]);
      Ungroup(a, b, c, 0);
    } else {
      Ungroup(a, b, 0, 0);
    }
  }

  lemma {:induction false} DecodeInvertsEncode(data: seq<Byte>)
    ensures Decode(Encode(data)) == Ok(data)
    decreases |data|
  {
    hide Symbol, Value, First, Second, Third, Fourth, Left, Middle, Right, DecodeQuad, DecodeLast, EncodeLast;
    if data == [] {
    } else if |data| < 3 {
      LastDecodes(data);
    } else {
      var rest := Encode(data[3..]);
      BlockDecodes(data[0], data[1], data[2], rest);
      DecodeInvertsEncode(data[3..]);
      assert Encode(data)[4..] == rest;
      assert data == [data[0], data[1], data[2]] + data[3..];
      if rest == [] {
        assert data[3..] == [];
        assert Encode(data) == EncodeBlock(data[0], data[1], data[2]);
        assert data == [data[0], data[1], data[2]];
        assert Decode(Encode(data)) == DecodeLast(Encode(data));
      }
    }
  }

  lemma {:induction false} EncodeInvertsDecode(text: seq<Byte>)
    requires Decode(text).Ok?
    ensures Encode(Decode(text).value) == text
    decreases |text|
  {
    hide Symbol, Value, First, Second, Third, Fourth, Left, Middle, Right, DecodeQuad, EncodeLast;
    if text == [] {
    } else if |text| == 4 && text[3] == PAD {
      LastEncodes(text);
    } else {
      BlockEncodes(text);
      var block := DecodeQuad(text).value;
      assert text == text[..4] + text[4..];
      if |text| == 4 {
        assert text[4..] == [] && block[3..] == [];
      } else {
        EncodeInvertsDecode(text[4..]);
        assert Decode(text).value[3..] == Decode(text[4..]).value;
      }
    }
  }

  /** The decoder accepts exactly the encodings, and each for one sequence only. */
  lemma Base64IsExact(text: seq<Byte>, data: seq<Byte>)
    ensures Decode(text) == Ok(data) <==> text == Encode(data)
  {
    DecodeInvertsEncode(data);
    if Decode(text) == Ok(data) {
      EncodeInvertsDecode(text);
    }
  }

  // ---------------------------------------------------------------- what base64 is

  /** Table 1 of RFC 4648. */
  const ALPHABET: string := "ABCDEFGHIJKLMNOPQRSTUVWXYZ" + "abcdefghijklmnopqrstuvwxyz" + "0123456789" + "+/"

  predicate IsSymbol(b: Byte, x: Sextet) {
    |ALPHABET| == 64 && b == ALPHABET[x] as int
  }

  /** Three digits to base 256 and four digits to base 64 make the same number. */
  predicate SameNumber(x: int, y: int, z: int, a: int, b: int, c: int, d: int) {
    (x * 256 + y) * 256 + z == ((a * 64 + b) * 64 + c) * 64 + d
  }

  /** The text spells one to three bytes, filled up with zeros, by four digits, with a pad for each missing byte. */
  ghost predicate SpelledBy(text: seq<Byte>, block: seq<Byte>, a: Sextet, b: Sextet, c: Sextet, d: Sextet)
    requires 1 <= |block| <= 3 && |text| == 4
  {
    && SameNumber(block[0], if |block| > 1 then block[1] else 0, if |block| > 2 then block[2] else 0, a, b, c, d)
    && IsSymbol(text[0], a)
    && IsSymbol(text[1], b)
    && (if |block| > 1 then IsSymbol(text[2], c) else text[2] == '=' as int)
    && (if |block| > 2 then IsSymbol(text[3], d) else text[3] == '=' as int)
  }

  ghost predicate Spells(text: seq<Byte>, block: seq<Byte>)
    requires 1 <= |block| <= 3
  {
    |text| == 4 && exists a: Sextet, b: Sextet, c: Sextet, d: Sextet :: SpelledBy(text, block, a, b, c, d)
  }

  lemma SymbolIsInAlphabet(x: Sextet)
    ensures IsSymbol(Symbol(x), x)
  {
  }

  lemma RegroupKeepsNumber(x: Byte, y: Byte, z: Byte)
    ensures SameNumber(x, y, z, First(x), Second(x, y), Third(y, z), Fourth(z))
  {
  }

  lemma BlockSpells(x: Byte, y: Byte, z: Byte)
    ensures |EncodeBlock(x, y, z)| == 4 && Spells(EncodeBlock(x, y, z), [x, y, z])
  {
    hide Symbol, First, Second, Third, Fourth, IsSymbol, SameNumber;
    RegroupKeepsNumber(x, y, z);
    SymbolIsInAlphabet(First(x));
    SymbolIsInAlphabet(Second(x, y));
    SymbolIsInAlphabet(Third(y, z));
    SymbolIsInAlphabet(Fourth(z));
    assert SpelledBy(EncodeBlock(x, y, z), [x, y, z], First(x), Second(x, y), Third(y, z), Fourth(z));
  }

  lemma LastSpells(data: seq<Byte>)
    requires 1 <= |data| <= 2
    ensures |EncodeLast(data)| == 4 && Spells(EncodeLast(data), data)
  {
    hide Symbol, First, Second, Third, Fourth, IsSymbol, SameNumber;
    var y := if |data| > 1 then data[1] else 0;
    RegroupKeepsNumber(data[0], y, 0);
    SymbolIsInAlphabet(First(data[0]));
    SymbolIsInAlphabet(Second(data[0], y));
    SymbolIsInAlphabet(Third(y, 0));
    assert SpelledBy(EncodeLast(data), data, First(data[0]), Second(data[0], y), Third(y, 0), Fourth(0));
  }

  /** The k-th block of three bytes, the last of which may be shorter. */
  function Block(data: seq<Byte>, k: nat): (r: seq<Byte>)
    requires 3 * k < |data|
    ensures 1 <= |r| <= 3
  {
    data[3 * k..if 3 * k + 3 < |data| then 3 * k + 3 else |data|]
  }

  lemma NextBlock(data: seq<Byte>, k: nat)
    requires 3 * k < |data| && k > 0
    ensures Block(data, k) == Block(data[3..], k - 1)
  {
    var rest, end := data[3..], if 3 * k + 3 < |data| then 3 * k + 3 else |data|;
    assert data[3 * k..end] == rest[3 * (k - 1)..end - 3];
  }

  /** The coding is that of section 4 of RFC 4648, block by block. */
  lemma {:induction false} EncodeSpellsBlocks(data: seq<Byte>, k: nat)
    requires 3 * k < |data|
    ensures |Encode(data)| == (|data| + 2) / 3 * 4
    ensures Spells(Encode(data)[4 * k..4 * k + 4], Block(data, k))
    decreases |data|
  {
    hide Symbol, First, Second, Third, Fourth, EncodeBlock, EncodeLast, Spells, IsSymbol, SameNumber;
    if |data| < 3 {
      LastSpells(data);
      assert Block(data, k) == data;
      assert EncodeLast(data)[..4] == EncodeLast(data);
    } else {
      BlockSpells(data[0], data[1], data[2]);
      var block, rest := EncodeBlock(data[0], data[1], data[2]), data[3..];
      if k > 0 {
        EncodeSpellsBlocks(rest, k - 1);
        NextBlock(data, k);
        assert Encode(data)[4 * k..4 * k + 4] == Encode(rest)[4 * (k - 1)..4 * (k - 1) + 4];
      } else {
        assert Block(data, 0) == [data[0], data[1], data[2]];
        assert Encode(data)[..4] == block;
        if rest != [] {
          EncodeSpellsBlocks(rest, 0);
        }
      }
    }
  }

  // ---------------------------------------------------------------- hex

  type Nibble = x: int | 0 <= x < 16

  function Digit(x: Nibble): Byte {
    if x < 10 then x + 48 else x + 87
  }

  function DigitValue(b: Byte): Option<Nibble> {
    if 48 <= b < 58 then Some(b - 48)
    else if 97 <= b < 103 then Some(b - 87)
    else if 65 <= b < 71 then Some(b - 55)
    else None
  }

  function HexEncode(data: seq<Byte>): (r: seq<Byte>)
    ensures |r| == 2 * |data|
  {
    if data == [] then []
    else [Digit(data[0] / 16), Digit(data[0] % 16)] + HexEncode(data[1..])
  }

  function Join(high: Nibble, low: Nibble): Byte { high * 16 + low }

  function HexDecode(text: seq<Byte>): Result<seq<Byte>, CodingError> {
    if text == [] then Ok([])
    else if |text| == 1 then Err(BadLength)
    else match (DigitValue(text[0]), DigitValue(text[1]))
      case (Some(high), Some(low)) =>
        (match HexDecode(text[2..])
         case Ok(rest) => Ok([Join(high, low)] + rest)
         case Err(e) => Err(e))
      case _ => Err(BadSymbol)
  }

  function LowerCase(text: seq<Byte>): (r: seq<Byte>)
    ensures |r| == |text|
    ensures forall i :: 0 <= i < |r| ==> r[i] == if 65 <= text[i] < 91 then text[i] + 32 else text[i]
  {
    seq(|text|, i requires 0 <= i < |text| => if 65 <= text[i] < 91 then text[i] + 32 else text[i])
  }

  lemma {:induction false} HexDecodeInvertsEncode(data: seq<Byte>)
    ensures HexDecode(HexEncode(data)) == Ok(data)
    decreases |data|
  {
    if data != [] {
      HexDecodeInvertsEncode(data[1..]);
      assert HexEncode(data)[2..] == HexEncode(data[1..]);
      assert data == [data[0]] + data[1..];
    }
  }

  lemma DigitsAreLowered(high: Byte, low: Byte)
    requires DigitValue(high).Some? && DigitValue(low).Some?
    ensures
      var b := Join(DigitValue(high).value, DigitValue(low).value);
      [Digit(b / 16), Digit(b % 16)] == LowerCase([high, low])
  {
  }

  /** Upper-case digits are read as well: decoding forgets the case and nothing else. */
  lemma {:induction false} HexEncodeInvertsDecode(text: seq<Byte>)
    requires HexDecode(text).Ok?
    ensures HexEncode(HexDecode(text).value) == LowerCase(text)
    decreases |text|
  {
    hide DigitValue, Digit, Join;
    if text != [] {
      HexEncodeInvertsDecode(text[2..]);
      DigitsAreLowered(text[0], text[1]);
      var data := HexDecode(text).value;
      assert data[1..] == HexDecode(text[2..]).value;
      assert LowerCase(text) == LowerCase([text[0], text[1]]) + LowerCase(text[2..]);
    }
  }

  /** Hex decoding accepts exactly the texts of even length made of digits. */
  lemma {:induction false} HexAccepts(text: seq<Byte>)
    ensures HexDecode(text).Ok? <==> |text| % 2 == 0 && forall i :: 0 <= i < |text| ==> DigitValue(text[i]).Some?
    decreases |text|
  {
    if |text| >= 2 {
      HexAccepts(text[2..]);
      assert forall i :: 2 <= i < |text| ==> text[i] == text[2..][i - 2];
      assert forall i :: 0 <= i < |text| - 2 ==> text[2..][i] == text[i + 2];
    }
  }

  /** Table 5 of RFC 4648, in lower case. */
  const HEX_ALPHABET: string := "0123456789abcdef"

  /** Every byte becomes two digits, the high one first. */
  lemma {:induction false} HexEncodeSpells(data: seq<Byte>, i: nat)
    requires i < |data|
    ensures |HEX_ALPHABET| == 16
    ensures HexEncode(data)[2 * i] == HEX_ALPHABET[data[i] / 16] as int
    ensures HexEncode(data)[2 * i + 1] == HEX_ALPHABET[data[i] % 16] as int
    decreases |data|
  {
    if i > 0 {
      HexEncodeSpells(data[1..], i - 1);
    }
  }
}
