/** The textual decoders: hexadecimal keys, and base64 of either alphabet with or without padding. */
module Decoders {
  import opened Words
  import opened Text

  // ----- hexadecimal (section 8 of RFC 4648)

  function HexValue(c: char): (v: nat)
    requires IsHexDigit(c)
    ensures v < 16
  {
    if '0' <= c <= '9' then (c as int) - ('0' as int)
    else if 'a' <= c <= 'f' then (c as int) - ('a' as int) + 10
    else (c as int) - ('A' as int) + 10
  }

  const LOWER: string := "0123456789abcdef"
  const UPPER: string := "0123456789ABCDEF"

  /** The usual hexadecimal text of a byte string, in lower or upper case. */
  function HexText(bytes: seq<byte>, digits: string): string
    requires |digits| == 16
  {
    if bytes == [] then "" else [digits[bytes[0] / 16], digits[bytes[0] % 16]] + HexText(bytes[1..], digits)
  }

  /** `u8::from_str_radix(.., 16)` on two ASCII characters; a leading plus sign is accepted. */
  function FromStrRadix(a: char, b: char): Option<byte> {
    if IsHexDigit(a) && IsHexDigit(b) then Some(HexValue(a) * 16 + HexValue(b))
    else if a == '+' && IsHexDigit(b) then Some(HexValue(b))
    else None
  }

  /** What `decode_hex_32` may come to: slicing a string inside a character aborts. */
  datatype Decoding = Key(bytes: seq<byte>) | Invalid | Aborts

  /** Characters `2 * i` and `2 * i + 1` are a readable pair. */
  predicate PairAt(input: string, i: nat) {
    2 * i + 1 < |input| && FromStrRadix(input[2 * i], input[2 * i + 1]).Some?
  }

  ghost predicate PairsBefore(input: string, n: nat) {
    forall i: nat :: i < n ==> PairAt(input, i)
  }

  /** The two bytes from byte `2 * i` on, where that is also character `2 * i`, are whole characters. */
  predicate WholeAt(input: string, i: nat)
    requires 2 * i < |input|
  {
    || CharLen(input[2 * i]) == 2
    || (CharLen(input[2 * i]) == 1 && 2 * i + 1 < |input| && CharLen(input[2 * i + 1]) == 1)
  }

  /** The text has 64 bytes, and behind some readable pairs two bytes end inside a character. */
  ghost predicate CutsCharacter(input: string) {
    Utf8Len(input) == 64 && exists i: nat :: i < 32 && 2 * i < |input| && PairsBefore(input, i) && !WholeAt(input, i)
  }

  /** The text is 32 readable pairs with these values. */
  ghost predicate Decodes(input: string, bytes: seq<byte>) {
    && |input| == 64 && |bytes| == 32
    && forall i :: 0 <= i < 32 ==> FromStrRadix(input[2 * i], input[2 * i + 1]) == Some(bytes[i])
  }

  /** As long as the text consists of readable pairs, bytes and characters count alike. */
  lemma {:induction false} PairsAreBytes(input: string, n: nat)
    requires PairsBefore(input, n)
    ensures 2 * n <= |input| && Utf8Len(input) == 2 * n + Utf8Len(input[2 * n..])
  {
    if n == 0 {
      assert input[0..] == input;
    } else {
      PairsAreBytes(input, n - 1);
      var rest := input[2 * n - 2..];
      assert PairAt(input, n - 1);
      assert Utf8Len(rest) == 1 + Utf8Len(rest[1..]) && Utf8Len(rest[1..]) == 1 + Utf8Len(rest[1..][1..]);
      assert rest[1..][1..] == input[2 * n..];
    }
  }

  lemma DecodesMeansPairs(input: string, bytes: seq<byte>)
    requires Decodes(input, bytes)
    ensures PairsBefore(input, 32) && Utf8Len(input) == 64 && !CutsCharacter(input)
  {
    PairsAreBytes(input, 32);
    assert input[64..] == [];
    forall i: nat | i < 32 && 2 * i < |input| ensures WholeAt(input, i) {
      assert PairAt(input, i);
    }
  }

  /** Text that breaks off at an unreadable pair of whole characters is invalid. */
  lemma UnreadablePair(input: string, i: nat)
    requires i < 32 && 2 * i < |input| && PairsBefore(input, i) && WholeAt(input, i) && !PairAt(input, i)
    ensures !CutsCharacter(input) && forall bytes :: !Decodes(input, bytes)
  {
    forall j: nat | j < 32 && 2 * j < |input| && PairsBefore(input, j) ensures WholeAt(input, j) {
      assert j > i ==> PairAt(input, i);
      assert j < i ==> PairAt(input, j);
    }
    forall bytes ensures !Decodes(input, bytes) {
      if Decodes(input, bytes) {
        DecodesMeansPairs(input, bytes);
      }
    }
  }

  /** `decode_hex_32` on any text: the key if it is 32 readable pairs, and an abort exactly if two
      bytes to be read end inside a character. */
  method DecodeHex32(input: string) returns (r: Decoding)
    ensures match r
      case Key(bytes) => Decodes(input, bytes)
      case Aborts => CutsCharacter(input)
      case Invalid => !CutsCharacter(input) && forall bytes :: !Decodes(input, bytes)
  {
    if Utf8Len(input) != 64 {
      forall bytes ensures !Decodes(input, bytes) {
        if Decodes(input, bytes) {
          DecodesMeansPairs(input, bytes);
        }
      }
      return Invalid;
    }
    var bytes := new byte[32](_ => 0);
    for index := 0 to 32
      invariant PairsBefore(input, index)
      invariant forall i :: 0 <= i < index ==> PairAt(input, i) && FromStrRadix(input[2 * i], input[2 * i + 1]) == Some(bytes[i])
    {
      PairsAreBytes(input, index);
      if !WholeAt(input, index) {
        return Aborts;
      }
      if !PairAt(input, index) {
        UnreadablePair(input, index);
        return Invalid;
      }
      bytes[index] := FromStrRadix(input[2 * index], input[2 * index + 1]).value;
    }
    PairsAreBytes(input, 32);
    r := Key(bytes[..]);
  }

  /** Every key that the OLC RTC configuration accepts is decoded. */
  lemma AcceptedKeysDecode(key: string)
    requires IsHexKey(key)
    ensures exists bytes :: Decodes(key, bytes)
    ensures !CutsCharacter(key)
  {
    HexKeyExactly(key);
    var bytes: seq<byte> := seq(32, i requires 0 <= i < 32 => HexValue(key[2 * i]) * 16 + HexValue(key[2 * i + 1]));
    assert Decodes(key, bytes);
    DecodesMeansPairs(key, bytes);
  }

  lemma {:induction false} HexTextAt(bytes: seq<byte>, digits: string, i: nat)
    requires |digits| == 16 && i < |bytes|
    ensures |HexText(bytes, digits)| == 2 * |bytes|
    ensures HexText(bytes, digits)[2 * i] == digits[bytes[i] / 16]
    ensures HexText(bytes, digits)[2 * i + 1] == digits[bytes[i] % 16]
  {
    if |bytes| == 1 {
      assert HexText(bytes[1..], digits) == "";
    } else {
      HexTextAt(bytes[1..], digits, if i == 0 then 0 else i - 1);
    }
  }

  lemma DigitInverse(digits: string, v: nat)
    requires (digits == LOWER || digits == UPPER) && v < 16
    ensures IsHexDigit(digits[v]) && HexValue(digits[v]) == v
  {
  }

  /** Decoding inverts the lower- and the upper-case text of every 32-byte key. */
  lemma HexInverse(bytes: seq<byte>, digits: string)
    requires |bytes| == 32 && (digits == LOWER || digits == UPPER)
    ensures Decodes(HexText(bytes, digits), bytes)
  {
    var text := HexText(bytes, digits);
    HexTextAt(bytes, digits, 0);
    forall i | 0 <= i < 32 ensures FromStrRadix(text[2 * i], text[2 * i + 1]) == Some(bytes[i]) {
      HexTextAt(bytes, digits, i);
      DigitInverse(digits, bytes[i] / 16);
      DigitInverse(digits, bytes[i] % 16);
    }
  }

  // ----- base64 (sections 4 and 5 of RFC 4648)

  type Sextet = v: int | 0 <= v < 64

  /** The digit for a value, in the standard or the URL-safe alphabet. */
  function Symbol(v: Sextet, urlSafe: bool): char {
    if v < 26 then ('A' as int + v) as char
    else if v < 52 then ('a' as int + v - 26) as char
    else if v < 62 then ('0' as int + v - 52) as char
    else if v == 62 then (if urlSafe then '-' else '+')
    else (if urlSafe then '_' else '/')
  }

  /** The value of a digit of the standard alphabet. */
  function SextetOf(c: char): Option<Sextet> {
    if 'A' <= c <= 'Z' then Some(c as int - 'A' as int)
    else if 'a' <= c <= 'z' then Some(c as int - 'a' as int + 26)
    else if '0' <= c <= '9' then Some(c as int - '0' as int + 52)
    else if c == '+' then Some(62)
    else if c == '/' then Some(63)
    else None
  }

  lemma SymbolInverse(c: char, v: Sextet)
    ensures SextetOf(c) == Some(v) <==> c == Symbol(v, false)
  {
  }

  function Encode1(a: byte, urlSafe: bool): string {
    [Symbol(a / 4, urlSafe), Symbol(a % 4 * 16, urlSafe)]
  }

  function Encode2(a: byte, b: byte, urlSafe: bool): string {
    [Symbol(a / 4, urlSafe), Symbol(a % 4 * 16 + b / 16, urlSafe), Symbol(b % 16 * 4, urlSafe)]
  }

  function Encode3(a: byte, b: byte, c: byte, urlSafe: bool): string {
    [Symbol(a / 4, urlSafe), Symbol(a % 4 * 16 + b / 16, urlSafe),
     Symbol(b % 16 * 4 + c / 64, urlSafe), Symbol(c % 64, urlSafe)]
  }

  function Encode(bytes: seq<byte>, urlSafe: bool, padded: bool): string {
    if |bytes| == 0 then ""
    else if |bytes| == 1 then Encode1(bytes[0], urlSafe) + if padded then "==" else ""
    else if |bytes| == 2 then Encode2(bytes[0], bytes[1], urlSafe) + if padded then "=" else ""
    else Encode3(bytes[0], bytes[1], bytes[2], urlSafe) + Encode(bytes[3..], urlSafe, padded)
  }

  // the three bytes in four sextets

  function First(w: Sextet, x: Sextet): byte {
    w as int * 4 + x as int / 16
  }

  function Second(x: Sextet, y: Sextet): byte {
    x as int % 16 * 16 + y as int / 4
  }

  function Third(y: Sextet, z: Sextet): byte {
    y as int % 4 * 64 + z as int
  }

  /** A group of four digits, the last of which may be padding if the group is the final one. Bits
      that padding leaves over must be zero. */
  function DecodeGroup(s: string, final: bool): Option<seq<byte>>
    requires |s| == 4
  {
    match (SextetOf(s[0]), SextetOf(s[1]), SextetOf(s[2]), SextetOf(s[3]))
    case (Some(w), Some(x), Some(y), Some(z)) => Some([First(w, x), Second(x, y), Third(y, z)])
    case (Some(w), Some(x), Some(y), None) =>
      if final && s[3] == '=' && y % 4 == 0 then Some([First(w, x), Second(x, y)]) else None
    case (Some(w), Some(x), None, None) =>
      if final && s[2] == '=' && s[3] == '=' && x % 16 == 0 then Some([First(w, x)]) else None
    case _ => None
  }

  /** The strict standard decoder. */
  function DecodeStandard(s: string): Option<seq<byte>> {
    if s == "" then Some([])
    else if |s| < 4 then None
    else
      match (DecodeGroup(s[..4], |s| == 4), DecodeStandard(s[4..]))
      case (Some(first), Some(rest)) => Some(first + rest)
      case _ => None
  }

  function Replace(s: string, from: char, to: char): string {
    seq(|s|, i requires 0 <= i < |s| => if s[i] == from then to else s[i])
  }

  function Padding(n: nat): string {
    match n % 4
    case 0 => ""
    case 1 => "==="
    case 2 => "=="
    case _ => "="
  }

  function Normalized(input: string): string {
    var s := ToStandard(input);
    s + Padding(|s|)
  }

  /** `decode_base64`. */
  function DecodeBase64(input: string): Option<seq<byte>> {
    DecodeStandard(Normalized(input))
  }

  lemma UnpackPacked(a: byte, b: byte, c: byte)
    ensures First(a / 4, a % 4 * 16 + b / 16) == a
    ensures Second(a % 4 * 16 + b / 16, b % 16 * 4 + c / 64) == b
    ensures Third(b % 16 * 4 + c / 64, c % 64) == c
  {
  }

  lemma PackUnpacked(w: Sextet, x: Sextet, y: Sextet, z: Sextet)
    ensures var a, b, c := First(w, x), Second(x, y), Third(y, z);
      a / 4 == w && a % 4 * 16 + b / 16 == x && b % 16 * 4 + c / 64 == y && c % 64 == z
  {
    assert First(w, x) % 4 == x / 16 && First(w, x) / 4 == w;
    assert Second(x, y) % 16 == y / 4 && Second(x, y) / 16 == x % 16;
    assert Third(y, z) % 64 == z && Third(y, z) / 64 == y % 4;
  }

  /** The group of digits for one to three bytes. */
  function EncodeGroup(bytes: seq<byte>): string
    requires 1 <= |bytes| <= 3
  {
    if |bytes| == 1 then Encode1(bytes[0], false) + "=="
    else if |bytes| == 2 then Encode2(bytes[0], bytes[1], false) + "="
    else Encode3(bytes[0], bytes[1], bytes[2], false)
  }

  /** Groups of digits decode to the bytes packed in their values. */
  lemma DecodeSymbols(w: Sextet, x: Sextet, y: Sextet, z: Sextet, final: bool)
    ensures var s := [Symbol(w, false), Symbol(x, false), Symbol(y, false), Symbol(z, false)];
      DecodeGroup(s, final) == Some([First(w, x), Second(x, y), Third(y, z)])
    ensures var s := [Symbol(w, false), Symbol(x, false), Symbol(y, false), '='];
      final && y % 4 == 0 ==> DecodeGroup(s, final) == Some([First(w, x), Second(x, y)])
    ensures var s := [Symbol(w, false), Symbol(x, false), '=', '='];
      final && x % 16 == 0 ==> DecodeGroup(s, final) == Some([First(w, x)])
  {
    SymbolInverse(Symbol(w, false), w);
    SymbolInverse(Symbol(x, false), x);
    SymbolInverse(Symbol(y, false), y);
    SymbolInverse(Symbol(z, false), z);
    assert SextetOf('=') == None;
  }

  lemma DecodeEncodedGroup(bytes: seq<byte>, final: bool)
    requires 1 <= |bytes| <= 3 && (|bytes| < 3 ==> final)
    ensures DecodeGroup(EncodeGroup(bytes), final) == Some(bytes)
  {
    if |bytes| == 1 {
      DecodeEncoded1(bytes[0]);
      assert bytes == [bytes[0]];
    } else if |bytes| == 2 {
      DecodeEncoded2(bytes[0], bytes[1]);
      assert bytes == [bytes[0], bytes[1]];
    } else {
      DecodeEncoded3(bytes[0], bytes[1], bytes[2], final);
      assert bytes == [bytes[0], bytes[1], bytes[2]];
    }
  }

  lemma DecodeEncoded1(a: byte)
    ensures DecodeGroup(Encode1(a, false) + "==", true) == Some([a])
  {
    UnpackPacked(a, 0, 0);
    DecodeSymbols(a / 4, a % 4 * 16, 0, 0, true);
    assert Encode1(a, false) + "==" == [Symbol(a / 4, false), Symbol(a % 4 * 16, false), '=', '='];
  }

  lemma DecodeEncoded2(a: byte, b: byte)
    ensures DecodeGroup(Encode2(a, b, false) + "=", true) == Some([a, b])
  {
    UnpackPacked(a, b, 0);
    DecodeSymbols(a / 4, a % 4 * 16 + b / 16, b % 16 * 4, 0, true);
    assert Encode2(a, b, false) + "="
        == [Symbol(a / 4, false), Symbol(a % 4 * 16 + b / 16, false), Symbol(b % 16 * 4, false), '='];
  }

  lemma DecodeEncoded3(a: byte, b: byte, c: byte, final: bool)
    ensures DecodeGroup(Encode3(a, b, c, false), final) == Some([a, b, c])
  {
    UnpackPacked(a, b, c);
    DecodeSymbols(a / 4, a % 4 * 16 + b / 16, b % 16 * 4 + c / 64, c % 64, final);
  }

  /** The bytes packed in the values of a group encode to its digits. */
  lemma EncodeUnpacked(w: Sextet, x: Sextet, y: Sextet, z: Sextet)
    ensures Encode3(First(w, x), Second(x, y), Third(y, z), false)
         == [Symbol(w, false), Symbol(x, false), Symbol(y, false), Symbol(z, false)]
    ensures y % 4 == 0 ==> Encode2(First(w, x), Second(x, y), false) == [Symbol(w, false), Symbol(x, false), Symbol(y, false)]
    ensures x % 16 == 0 ==> Encode1(First(w, x), false) == [Symbol(w, false), Symbol(x, false)]
  {
    PackUnpacked(w, x, y, z);
    PackUnpacked(w, x, y, 0);
    PackUnpacked(w, x, 0, 0);
  }

  lemma EncodeDecoded1(s: string, w: Sextet, x: Sextet)
    requires |s| == 4 && SextetOf(s[0]) == Some(w) && SextetOf(s[1]) == Some(x) && x % 16 == 0
    requires s[2] == '=' && s[3] == '='
    ensures Encode1(First(w, x), false) + "==" == s
  {
    EncodeUnpacked(w, x, 0, 0);
    SymbolInverse(s[0], w);
    SymbolInverse(s[1], x);
  }

  lemma EncodeDecoded2(s: string, w: Sextet, x: Sextet, y: Sextet)
    requires |s| == 4 && SextetOf(s[0]) == Some(w) && SextetOf(s[1]) == Some(x) && SextetOf(s[2]) == Some(y) && y % 4 == 0
    requires s[3] == '='
    ensures Encode2(First(w, x), Second(x, y), false) + "=" == s
  {
    EncodeUnpacked(w, x, y, 0);
    SymbolInverse(s[0], w);
    SymbolInverse(s[1], x);
    SymbolInverse(s[2], y);
  }

  lemma EncodeDecoded3(s: string, w: Sextet, x: Sextet, y: Sextet, z: Sextet)
    requires |s| == 4 && SextetOf(s[0]) == Some(w) && SextetOf(s[1]) == Some(x)
    requires SextetOf(s[2]) == Some(y) && SextetOf(s[3]) == Some(z)
    ensures Encode3(First(w, x), Second(x, y), Third(y, z), false) == s
  {
    EncodeUnpacked(w, x, y, z);
    SymbolInverse(s[0], w);
    SymbolInverse(s[1], x);
    SymbolInverse(s[2], y);
    SymbolInverse(s[3], z);
  }

  lemma EncodeDecodedGroup(s: string, final: bool)
    requires |s| == 4 && DecodeGroup(s, final).Some?
    ensures var bytes := DecodeGroup(s, final).value;
      1 <= |bytes| <= 3 && (|bytes| < 3 ==> final) && EncodeGroup(bytes) == s
  {
    var bytes := DecodeGroup(s, final).value;
    var w, x := SextetOf(s[0]).value, SextetOf(s[1]).value;
    if |bytes| == 1 {
      EncodeDecoded1(s, w, x);
    } else if |bytes| == 2 {
      EncodeDecoded2(s, w, x, SextetOf(s[2]).value);
    } else {
      EncodeDecoded3(s, w, x, SextetOf(s[2]).value, SextetOf(s[3]).value);
    }
  }

  /** The strict decoder yields `bytes` on exactly one text: their padded standard encoding. */
  lemma {:induction false} DecodeStandardExactly(s: string, bytes: seq<byte>)
    ensures DecodeStandard(s) == Some(bytes) <==> s == Encode(bytes, false, true)
    decreases |s| + |bytes|
  {
    if s == Encode(bytes, false, true) && bytes != [] {
      EncodedDecodes(s, bytes);
    }
    if DecodeStandard(s) == Some(bytes) && s != "" {
      DecodedEncodes(s, bytes);
    }
  }

  lemma EncodedDecodes(s: string, bytes: seq<byte>)
    requires s == Encode(bytes, false, true) && bytes != []
    ensures DecodeStandard(s) == Some(bytes)
    decreases |s| + |bytes|, 0
  {
    var n := if |bytes| < 3 then |bytes| else 3;
    var first, rest := bytes[..n], bytes[n..];
    assert s[..4] == EncodeGroup(first);
    assert s[4..] == Encode(rest, false, true);
    DecodeStandardExactly(s[4..], rest);
    DecodeEncodedGroup(first, |s| == 4);
    assert first + rest == bytes;
  }

  lemma DecodedEncodes(s: string, bytes: seq<byte>)
    requires DecodeStandard(s) == Some(bytes) && s != ""
    ensures s == Encode(bytes, false, true)
    decreases |s| + |bytes|, 0
  {
    var first, rest := DecodeGroup(s[..4], |s| == 4).value, DecodeStandard(s[4..]).value;
    EncodeDecodedGroup(s[..4], |s| == 4);
    DecodeStandardExactly(s[4..], rest);
    assert s == s[..4] + s[4..];
    if |first| < 3 {
      assert s[4..] == "" && rest == [] && bytes == first;
    } else {
      assert bytes[..3] == first && bytes[3..] == rest;
    }
  }

  /** Padding completes the unpadded encoding to a multiple of four digits. */
  lemma {:induction false} EncodePadded(bytes: seq<byte>)
    ensures |Encode(bytes, false, true)| % 4 == 0
    ensures Encode(bytes, false, true) == Encode(bytes, false, false) + Padding(|Encode(bytes, false, false)|)
  {
    if |bytes| >= 3 {
      EncodePadded(bytes[3..]);
      var bare, full := Encode(bytes[3..], false, false), Encode(bytes[3..], false, true);
      PaddedGroup(Encode3(bytes[0], bytes[1], bytes[2], false), bare, full);
    }
  }

  lemma PaddedGroup(group: string, bare: string, full: string)
    requires |group| == 4 && |full| % 4 == 0 && full == bare + Padding(|bare|)
    ensures |group + full| % 4 == 0
    ensures group + full == (group + bare) + Padding(|group + bare|)
  {
    assert |group + bare| % 4 == |bare| % 4;
  }

  function ToStandard(s: string): string {
    Replace(Replace(s, '-', '+'), '_', '/')
  }

  lemma GroupReplaced(a: byte, b: byte, c: byte, urlSafe: bool)
    ensures ToStandard(Encode3(a, b, c, urlSafe)) == Encode3(a, b, c, false)
    ensures ToStandard(Encode2(a, b, urlSafe)) == Encode2(a, b, false)
    ensures ToStandard(Encode1(a, urlSafe)) == Encode1(a, false)
  {
  }

  lemma {:induction false} EncodeReplaced(bytes: seq<byte>, urlSafe: bool, padded: bool)
    ensures ToStandard(Encode(bytes, urlSafe, padded)) == Encode(bytes, false, padded)
  {
    if |bytes| >= 3 {
      EncodeReplaced(bytes[3..], urlSafe, padded);
      GroupReplaced(bytes[0], bytes[1], bytes[2], urlSafe);
      ReplaceBoth(Encode3(bytes[0], bytes[1], bytes[2], urlSafe), Encode(bytes[3..], urlSafe, padded));
    } else if |bytes| == 2 {
      GroupReplaced(bytes[0], bytes[1], 0, urlSafe);
      ReplaceBoth(Encode2(bytes[0], bytes[1], urlSafe), if padded then "=" else "");
    } else if |bytes| == 1 {
      GroupReplaced(bytes[0], 0, 0, urlSafe);
      ReplaceBoth(Encode1(bytes[0], urlSafe), if padded then "==" else "");
    }
  }

  lemma ReplaceBoth(s: string, t: string)
    ensures ToStandard(s + t) == ToStandard(s) + ToStandard(t)
  {
  }

  /** `decode_base64` gives back every byte string from its standard and its URL-safe encoding,
      padded or not. */
  lemma Base64Inverse(bytes: seq<byte>, urlSafe: bool, padded: bool)
    ensures DecodeBase64(Encode(bytes, urlSafe, padded)) == Some(bytes)
  {
    EncodeReplaced(bytes, urlSafe, padded);
    EncodePadded(bytes);
    assert Normalized(Encode(bytes, urlSafe, padded)) == Encode(bytes, false, true);
    DecodeStandardExactly(Encode(bytes, false, true), bytes);
  }
}
