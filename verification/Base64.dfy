/** Base64 and Base64Url (RFC 4648, sections 4 and 5): the same algorithms over two alphabets. */
module Base64 {
  import opened Sequences

  type Byte = b: int | 0 <= b < 256
  type Sextet = s: int | 0 <= s < 64

  /** The last two characters tell the alphabets apart. */
  datatype Alphabet = Alphabet(c62: char, c63: char)
  {
    predicate Valid() {
      && c62 != c63 && c62 as int < 128 && c63 as int < 128
      && !IsAlphanumeric(c62) && !IsAlphanumeric(c63) && c62 != '=' && c63 != '='
    }

    /** The character of a six-bit value. */
    function CharAt(s: Sextet): char {
      if s < 26 then ('A' as int + s) as char
      else if s < 52 then ('a' as int + s - 26) as char
      else if s < 62 then ('0' as int + s - 52) as char
      else if s == 62 then c62
      else c63
    }

    predicate Has(c: char) {
      IsAlphanumeric(c) || c == c62 || c == c63
    }

    /** The six-bit value of a character, 0 for every other one. */
    function ValueOf(c: char): Sextet {
      if 'A' <= c <= 'Z' then c as int - 'A' as int
      else if 'a' <= c <= 'z' then c as int - 'a' as int + 26
      else if '0' <= c <= '9' then c as int - '0' as int + 52
      else if c == c62 then 62
      else if c == c63 then 63
      else 0
    }

    /** The pattern of texts without padding. */
    predicate Unpadded(text: string) {
      forall i | 0 <= i < |text| :: Has(text[i])
    }

    /** The pattern of texts that end in one or two `=` and have no other. */
    predicate Padded(text: string) {
      var n := |text|;
      && n >= 1 && text[n - 1] == '='
      && (Unpadded(text[..n - 1]) || (n >= 2 && text[n - 2] == '=' && Unpadded(text[..n - 2])))
    }
  }

  predicate IsAlphanumeric(c: char) {
    'A' <= c <= 'Z' || 'a' <= c <= 'z' || '0' <= c <= '9'
  }

  const UPPER := "ABCDEFGHIJKLMNOPQRSTUVWXYZ"
  const LOWER := "abcdefghijklmnopqrstuvwxyz"
  const DIGITS := "0123456789"

  lemma UpperSpelt(a: Alphabet, s: Sextet)
    requires s < 26
    ensures |UPPER| == 26 && a.CharAt(s) == UPPER[s]
  {
    assert UPPER[..13] == "ABCDEFGHIJKLM";
  }

  lemma LowerSpelt(a: Alphabet, s: Sextet)
    requires 26 <= s < 52
    ensures |LOWER| == 26 && a.CharAt(s) == LOWER[s - 26]
  {
    assert LOWER[..13] == "abcdefghijklm";
  }

  lemma DigitsSpelt(a: Alphabet, s: Sextet)
    requires 52 <= s < 62
    ensures |DIGITS| == 10 && a.CharAt(s) == DIGITS[s - 52]
  {
  }

  /** The alphabets, character by character. */
  lemma AlphabetsSpelt(s: Sextet)
    ensures |UPPER + LOWER + DIGITS| == 62
    ensures Standard.CharAt(s) == (UPPER + LOWER + DIGITS + "+/")[s]
    ensures UrlSafe.CharAt(s) == (UPPER + LOWER + DIGITS + "-_")[s]
  {
    hide Alphabet.CharAt;
    if s < 26 {
      UpperSpelt(Standard, s);
      UpperSpelt(UrlSafe, s);
    } else if s < 52 {
      LowerSpelt(Standard, s);
      LowerSpelt(UrlSafe, s);
    } else if s < 62 {
      DigitsSpelt(Standard, s);
      DigitsSpelt(UrlSafe, s);
    } else {
      LastTwo(Standard, s);
      LastTwo(UrlSafe, s);
    }
  }

  lemma LastTwo(a: Alphabet, s: Sextet)
    requires s >= 62
    ensures a.CharAt(s) == if s == 62 then a.c62 else a.c63
  {
  }

  const Standard := Alphabet('+', '/')
  const UrlSafe := Alphabet('-', '_')

  lemma AlphabetsValid()
    ensures Standard.Valid() && UrlSafe.Valid()
  {
  }

  lemma CharRoundTrip(a: Alphabet, s: Sextet)
    requires a.Valid()
    ensures a.Has(a.CharAt(s)) && a.ValueOf(a.CharAt(s)) == s && a.CharAt(s) != '=' && a.CharAt(s) as int < 128
  {
  }

  lemma ValueRoundTrip(a: Alphabet, c: char)
    requires a.Valid() && a.Has(c)
    ensures a.CharAt(a.ValueOf(c)) == c && c as int < 128 && c != '='
  {
  }

  /** Three bytes as one number of 24 bits. */
  function Triple(b0: Byte, b1: Byte, b2: Byte): nat {
    b0 * 0x10000 + b1 * 0x100 + b2
  }

  /** Four six-bit values as one number of 24 bits. */
  function Quad(s0: Sextet, s1: Sextet, s2: Sextet, s3: Sextet): nat {
    s0 * 0x40000 + s1 * 0x1000 + s2 * 0x40 + s3
  }

  /** Six bits of a number, from bit `shift` up. */
  function Six(n: nat, shift: nat): Sextet {
    match shift
    case 18 => n / 0x40000 % 64
    case 12 => n / 0x1000 % 64
    case 6 => n / 0x40 % 64
    case _ => n % 64
  }

  /** Eight bits of a number, from bit `shift` up. */
  function Eight(n: nat, shift: nat): Byte {
    match shift
    case 16 => n / 0x10000 % 256
    case 8 => n / 0x100 % 256
    case _ => n % 256
  }

  lemma FirstSix(b0: Byte, b1: Byte, b2: Byte)
    ensures Triple(b0, b1, b2) / 0x40000 == b0 / 4
  {
    assert Triple(b0, b1, b2) == 0x40000 * (b0 / 4) + (b0 % 4 * 0x10000 + b1 * 0x100 + b2);
  }

  lemma FirstTwelve(b0: Byte, b1: Byte, b2: Byte)
    ensures Triple(b0, b1, b2) / 0x1000 == b0 * 16 + b1 / 16
  {
    assert Triple(b0, b1, b2) == 0x1000 * (b0 * 16 + b1 / 16) + (b1 % 16 * 0x100 + b2);
  }

  lemma FirstEighteen(b0: Byte, b1: Byte, b2: Byte)
    ensures Triple(b0, b1, b2) / 0x40 == b0 * 0x400 + b1 * 4 + b2 / 64
  {
    assert Triple(b0, b1, b2) == 0x40 * (b0 * 0x400 + b1 * 4 + b2 / 64) + b2 % 64;
  }

  /** The four six-bit parts of three bytes. */
  lemma SixParts(b0: Byte, b1: Byte, b2: Byte)
    ensures var n := Triple(b0, b1, b2);
            && Six(n, 18) == b0 / 4 && Six(n, 12) == b0 % 4 * 16 + b1 / 16
            && Six(n, 6) == b1 % 16 * 4 + b2 / 64 && Six(n, 0) == b2 % 64
  {
    FirstSix(b0, b1, b2);
    FirstTwelve(b0, b1, b2);
    FirstEighteen(b0, b1, b2);
    TwelfthToSixth(b0, b1);
    EighteenthToSixth(b0, b1, b2);
  }

  lemma TwelfthToSixth(b0: Byte, b1: Byte)
    ensures (b0 * 16 + b1 / 16) % 64 == b0 % 4 * 16 + b1 / 16
  {
    Remainder64(b0 * 16 + b1 / 16, b0 / 4, b0 % 4 * 16 + b1 / 16);
  }

  lemma EighteenthToSixth(b0: Byte, b1: Byte, b2: Byte)
    ensures (b0 * 0x400 + b1 * 4 + b2 / 64) % 64 == b1 % 16 * 4 + b2 / 64
  {
    assert b1 * 4 == 64 * (b1 / 16) + b1 % 16 * 4;
    Remainder64(b0 * 0x400 + b1 * 4 + b2 / 64, b0 * 16 + b1 / 16, b1 % 16 * 4 + b2 / 64);
  }

  lemma Remainder64(x: nat, q: nat, r: nat)
    requires x == 64 * q + r && r < 64
    ensures x % 64 == r
  {
  }

  lemma EightParts(b0: Byte, b1: Byte, b2: Byte)
    ensures var n := Triple(b0, b1, b2); Eight(n, 16) == b0 && Eight(n, 8) == b1 && Eight(n, 0) == b2
  {
    var n := Triple(b0, b1, b2);
    assert n / 0x10000 == b0 && n / 0x100 == b0 * 0x100 + b1;
  }

  /** Cutting 24 bits into sixes and putting them together again gives the same 24 bits, and cutting them into eights the bytes. */
  lemma BitsRoundTrip(b0: Byte, b1: Byte, b2: Byte)
    ensures var n := Triple(b0, b1, b2);
            && Quad(Six(n, 18), Six(n, 12), Six(n, 6), Six(n, 0)) == n
            && Eight(n, 16) == b0 && Eight(n, 8) == b1 && Eight(n, 0) == b2
    ensures b2 == 0 ==> Six(Triple(b0, b1, b2), 0) == 0
    ensures b1 == 0 && b2 == 0 ==> Six(Triple(b0, b1, b2), 6) == 0
  {
    hide Six, Eight;
    SixParts(b0, b1, b2);
    EightParts(b0, b1, b2);
  }

  /** The encoding, three bytes to four characters. */
  function Encoded(a: Alphabet, data: seq<Byte>, padding: bool): string
    decreases |data|
  {
    if |data| >= 3 then
      var n := Triple(data[0], data[1], data[2]);
      [a.CharAt(Six(n, 18)), a.CharAt(Six(n, 12)), a.CharAt(Six(n, 6)), a.CharAt(Six(n, 0))] + Encoded(a, data[3..], padding)
    else if |data| == 2 then
      var n := Triple(data[0], data[1], 0);
      [a.CharAt(Six(n, 18)), a.CharAt(Six(n, 12)), a.CharAt(Six(n, 6))] + if padding then "=" else ""
    else if |data| == 1 then
      var n := Triple(data[0], 0, 0);
      [a.CharAt(Six(n, 18)), a.CharAt(Six(n, 12))] + if padding then "==" else ""
    else ""
  }

  /** The bits in the order of RFC 4648, section 4: from the first byte to the last and from the highest bit to the lowest, six to a
      character; the last one is filled up with zero bits, and the last group with `=`. */
  lemma BitOrder(a: Alphabet, data: seq<Byte>, padding: bool)
    requires data != []
    ensures var b0, b1, b2 := data[0], if |data| > 1 then data[1] else 0, if |data| > 2 then data[2] else 0;
            var first, second, third, fourth := a.CharAt(b0 / 4), a.CharAt(b0 % 4 * 16 + b1 / 16), a.CharAt(b1 % 16 * 4 + b2 / 64), a.CharAt(b2 % 64);
            Encoded(a, data, padding) ==
              if |data| == 1 then [first, second] + (if padding then "==" else "")
              else if |data| == 2 then [first, second, third] + (if padding then "=" else "")
              else [first, second, third, fourth] + Encoded(a, data[3..], padding)
  {
    hide Alphabet.CharAt, Triple, Six;
    SixParts(data[0], if |data| > 1 then data[1] else 0, if |data| > 2 then data[2] else 0);
  }

  lemma {:induction false} EncodedAppend(a: Alphabet, x: seq<Byte>, y: seq<Byte>, padding: bool)
    requires |x| % 3 == 0
    ensures Encoded(a, x + y, padding) == Encoded(a, x, padding) + Encoded(a, y, padding)
    decreases |x|
  {
    if x == [] {
      assert x + y == y;
    } else {
      assert (x + y)[3..] == x[3..] + y;
      EncodedAppend(a, x[3..], y, padding);
    }
  }

  /** The bytes of a text without padding, four characters to three bytes; unused low bits are dropped. */
  function Decoded(a: Alphabet, text: string): seq<Byte>
    decreases |text|
  {
    if |text| >= 4 then
      var n := Quad(a.ValueOf(text[0]), a.ValueOf(text[1]), a.ValueOf(text[2]), a.ValueOf(text[3]));
      [Eight(n, 16), Eight(n, 8), Eight(n, 0)] + Decoded(a, text[4..])
    else if |text| == 3 then
      var n := Quad(a.ValueOf(text[0]), a.ValueOf(text[1]), a.ValueOf(text[2]), 0);
      [Eight(n, 16), Eight(n, 8)]
    else if |text| == 2 then
      [Eight(Quad(a.ValueOf(text[0]), a.ValueOf(text[1]), 0, 0), 16)]
    else []
  }

  lemma {:induction false} DecodedAppend(a: Alphabet, x: string, y: string)
    requires |x| % 4 == 0
    ensures Decoded(a, x + y) == Decoded(a, x) + Decoded(a, y)
    decreases |x|
  {
    if x == [] {
      assert x + y == y;
    } else {
      assert (x + y)[4..] == x[4..] + y;
      DecodedAppend(a, x[4..], y);
    }
  }

  /** How many bytes a text of `n` characters stands for. */
  function ByteCount(n: nat): nat {
    n / 4 * 3 + (match n % 4 case 2 => 1 case 3 => 2 case _ => 0)
  }

  lemma {:induction false} DecodedLength(a: Alphabet, text: string)
    ensures |Decoded(a, text)| == ByteCount(|text|)
    decreases |text|
  {
    if |text| >= 4 {
      DecodedLength(a, text[4..]);
      assert |text| / 4 == |text[4..]| / 4 + 1;
    }
  }

  datatype Result = Ok(bytes: seq<Byte>) | DecodeError

  /** A text that `decode` takes: either without `=` and of a length that some bytes can have, or filled up with `=` to a multiple of
      four. */
  predicate Accepted(a: Alphabet, text: string) {
    if '=' in text then a.Padded(text) && |text| % 4 == 0 else a.Unpadded(text) && |text| % 4 != 1
  }

  /** The text without its padding. */
  function Body(text: string): string {
    var n := |text|;
    if n >= 2 && text[n - 2..] == "==" then text[..n - 2]
    else if n >= 1 && text[n - 1] == '=' then text[..n - 1]
    else text
  }

  /** What `decode` makes of a text. */
  function Batch(a: Alphabet, text: string): Result {
    if Accepted(a, text) then Ok(Decoded(a, Body(text))) else DecodeError
  }

  function Padding(length: nat, padding: bool): string {
    if !padding || length % 3 == 0 then "" else if length % 3 == 1 then "==" else "="
  }

  lemma UnpaddedAppend(a: Alphabet, x: string, y: string)
    ensures a.Unpadded(x + y) <==> a.Unpadded(x) && a.Unpadded(y)
  {
    if a.Unpadded(x + y) {
      forall i | 0 <= i < |x| ensures a.Has(x[i]) { assert (x + y)[i] == x[i]; }
      forall i | 0 <= i < |y| ensures a.Has(y[i]) { assert (x + y)[|x| + i] == y[i]; }
    }
  }

  /** One group of three bytes, or the last one or two. */
  lemma GroupRoundTrip(a: Alphabet, b0: Byte, b1: Byte, b2: Byte)
    requires a.Valid()
    ensures var n := Triple(b0, b1, b2); var c := s => a.ValueOf(a.CharAt(s));
            && Quad(c(Six(n, 18)), c(Six(n, 12)), c(Six(n, 6)), c(Six(n, 0))) == n
            && Eight(n, 16) == b0 && Eight(n, 8) == b1 && Eight(n, 0) == b2
            && (b2 == 0 ==> Quad(c(Six(n, 18)), c(Six(n, 12)), c(Six(n, 6)), 0) == n)
            && (b1 == 0 && b2 == 0 ==> Quad(c(Six(n, 18)), c(Six(n, 12)), 0, 0) == n)
  {
    hide Alphabet.CharAt, Alphabet.ValueOf, Quad, Six, Eight, Triple;
    var n := Triple(b0, b1, b2);
    BitsRoundTrip(b0, b1, b2);
    CharRoundTrip(a, Six(n, 18));
    CharRoundTrip(a, Six(n, 12));
    CharRoundTrip(a, Six(n, 6));
    CharRoundTrip(a, Six(n, 0));
  }

  /** The encoding without padding is text of the alphabet, of a length that tells how many bytes it stands for, and decodes to the
      data; padding only adds `=`. */
  lemma {:induction false} EncodedShape(a: Alphabet, data: seq<Byte>)
    requires a.Valid()
    ensures a.Unpadded(Encoded(a, data, false)) && Decoded(a, Encoded(a, data, false)) == data
    ensures |Encoded(a, data, false)| % 4 == (match |data| % 3 case 0 => 0 case 1 => 2 case _ => 3)
    ensures Encoded(a, data, true) == Encoded(a, data, false) + Padding(|data|, true)
    decreases |data|
  {
    hide Alphabet.CharAt, Alphabet.ValueOf, Alphabet.Unpadded, Quad, Six, Eight, Triple;
    if |data| >= 3 {
      var n := Triple(data[0], data[1], data[2]);
      var rest := Encoded(a, data[3..], false);
      var group := [a.CharAt(Six(n, 18)), a.CharAt(Six(n, 12)), a.CharAt(Six(n, 6)), a.CharAt(Six(n, 0))];
      GroupRoundTrip(a, data[0], data[1], data[2]);
      EncodedShape(a, data[3..]);
      CharsOfAlphabet(a, n);
      UnpaddedAppend(a, group, rest);
      assert (group + rest)[4..] == rest;
      assert |data[3..]| % 3 == |data| % 3 && Padding(|data[3..]|, true) == Padding(|data|, true);
      Regroup(group, rest, Padding(|data|, true));
      SameRemainder(4, |rest|);
    } else {
      EncodedTail(a, data);
    }
  }

  /** The last one or two bytes. */
  lemma EncodedTail(a: Alphabet, data: seq<Byte>)
    requires a.Valid() && |data| < 3
    ensures a.Unpadded(Encoded(a, data, false)) && Decoded(a, Encoded(a, data, false)) == data
    ensures |Encoded(a, data, false)| == (match |data| case 0 => 0 case 1 => 2 case _ => 3)
    ensures Encoded(a, data, true) == Encoded(a, data, false) + Padding(|data|, true)
  {
    hide Alphabet.CharAt, Alphabet.ValueOf, Quad, Six, Eight, Triple;
    if |data| == 2 {
      GroupRoundTrip(a, data[0], data[1], 0);
      CharsOfAlphabet(a, Triple(data[0], data[1], 0));
    } else if |data| == 1 {
      GroupRoundTrip(a, data[0], 0, 0);
      CharsOfAlphabet(a, Triple(data[0], 0, 0));
    }
  }

  lemma CharsOfAlphabet(a: Alphabet, n: nat)
    requires a.Valid()
    ensures a.Unpadded([a.CharAt(Six(n, 18)), a.CharAt(Six(n, 12)), a.CharAt(Six(n, 6)), a.CharAt(Six(n, 0))])
    ensures a.Unpadded([a.CharAt(Six(n, 18)), a.CharAt(Six(n, 12)), a.CharAt(Six(n, 6))])
    ensures a.Unpadded([a.CharAt(Six(n, 18)), a.CharAt(Six(n, 12))])
  {
  }

  lemma NoPadInside(a: Alphabet, text: string)
    requires a.Valid() && a.Unpadded(text)
    ensures '=' !in text
  {
  }

  /** The encoding, with or without padding, is accepted, and decoded to the data it was made from. */
  lemma RoundTrip(a: Alphabet, data: seq<Byte>, padding: bool)
    requires a.Valid()
    ensures Batch(a, Encoded(a, data, padding)) == Ok(data)
  {
    hide Encoded, Decoded, Body, Alphabet.Unpadded, Alphabet.Padded, Alphabet.Valid;
    EncodedShape(a, data);
    var body := Encoded(a, data, false);
    var pad := Padding(|data|, padding);
    NoPadInside(a, body);
    BodyOfPadded(a, body, pad);
    assert Encoded(a, data, padding) == body + pad;
    assert body + "" == body;
  }

  lemma BodyOfPadded(a: Alphabet, body: string, pad: string)
    requires a.Valid() && a.Unpadded(body) && (pad == "" || pad == "=" || pad == "==")
    ensures Body(body + pad) == body
    ensures pad != "" ==> '=' in body + pad && a.Padded(body + pad)
  {
    hide Body, Alphabet.Unpadded, Alphabet.Padded, Alphabet.Valid;
    NoPadInside(a, body);
    if pad == "=" {
      OnePad(a, body);
    } else if pad == "==" {
      TwoPads(a, body);
    } else {
      assert body + pad == body;
      NoPad(body);
    }
  }

  lemma NoPad(body: string)
    requires '=' !in body
    ensures Body(body) == body
  {
    var n := |body|;
    if n >= 2 { assert body[n - 2..][1] == body[n - 1]; }
  }

  lemma OnePad(a: Alphabet, body: string)
    requires a.Unpadded(body) && '=' !in body
    ensures Body(body + "=") == body && '=' in body + "=" && a.Padded(body + "=")
  {
    hide Alphabet.Unpadded;
    var text, n := body + "=", |body| + 1;
    assert text[n - 1] == '=' && text[..n - 1] == body;
    if n >= 2 {
      var tail := text[n - 2..];
      assert tail[0] == body[n - 2] != '=';
      assert tail != "==";
    }
  }

  lemma TwoPads(a: Alphabet, body: string)
    requires a.Unpadded(body)
    ensures Body(body + "==") == body && '=' in body + "==" && a.Padded(body + "==")
  {
    hide Alphabet.Unpadded;
    var text, n := body + "==", |body| + 2;
    assert text[n - 2..] == "==" && text[..n - 2] == body && text[n - 1] == '=' && text[n - 2] == '=';
  }

  lemma EncodedGroup(a: Alphabet, data: seq<Byte>, index: nat, padding: bool)
    requires index % 3 == 0 && index + 3 <= |data|
    ensures var n := Triple(data[index], data[index + 1], data[index + 2]);
            Encoded(a, data[..index + 3], padding) ==
            Encoded(a, data[..index], padding) + [a.CharAt(Six(n, 18)), a.CharAt(Six(n, 12)), a.CharAt(Six(n, 6)), a.CharAt(Six(n, 0))]
  {
    var group := data[index..index + 3];
    assert data[..index + 3] == data[..index] + group;
    EncodedAppend(a, data[..index], group, padding);
    assert Encoded(a, group[3..], padding) == "";
  }

  /** `base64EncodeText` */
  method EncodeText(a: Alphabet, data: seq<Byte>, padding: bool) returns (text: string)
    ensures text == Encoded(a, data, padding)
  {
    hide Encoded, Alphabet.CharAt, Triple, Six;
    text := "";
    EncodedNothing(a, padding);
    var fullLength := |data| - |data| % 3;
    var index := 0;
    while index < fullLength
      invariant 0 <= index <= fullLength && index % 3 == 0
      invariant text == Encoded(a, data[..index], padding)
    {
      EncodedGroup(a, data, index, padding);
      var triple := Triple(data[index], data[index + 1], data[index + 2]);
      text := text + [a.CharAt(Six(triple, 18)), a.CharAt(Six(triple, 12)), a.CharAt(Six(triple, 6)), a.CharAt(Six(triple, 0))];
      index := index + 3;
    }
    assert data == data[..fullLength] + data[fullLength..];
    EncodedAppend(a, data[..fullLength], data[fullLength..], padding);
    var tail := EncodeTail(a, data[fullLength..], padding);
    text := text + tail;
  }

  lemma EncodedNothing(a: Alphabet, padding: bool)
    ensures Encoded(a, [], padding) == ""
  {
  }

  /** The remainder of one or two bytes. */
  method EncodeTail(a: Alphabet, rest: seq<Byte>, padding: bool) returns (text: string)
    requires |rest| < 3
    ensures text == Encoded(a, rest, padding)
  {
    text := "";
    if |rest| == 1 {
      var single := Triple(rest[0], 0, 0);
      text := [a.CharAt(Six(single, 18)), a.CharAt(Six(single, 12))];
      if padding { text := text + "=="; }
    } else if |rest| == 2 {
      var double := Triple(rest[0], rest[1], 0);
      text := [a.CharAt(Six(double, 18)), a.CharAt(Six(double, 12)), a.CharAt(Six(double, 6))];
      if padding { text := text + "="; }
    }
  }

  /** The lookup table agrees with the alphabet. */
  predicate IsTable(table: seq<int>, a: Alphabet) {
    |table| == 128 && forall c: char | c as int < 128 :: table[c as int] == a.ValueOf(c)
  }

  /** `DECODE_TABLE` */
  method BuildTable(a: Alphabet) returns (values: seq<int>)
    requires a.Valid()
    ensures IsTable(values, a)
  {
    var table := new int[128](_ => 0);
    for index := 0 to 64
      invariant forall c: char | c as int < 128 :: table[c as int] == if a.ValueOf(c) < index then a.ValueOf(c) else 0
    {
      CharRoundTrip(a, index);
      forall c: char | a.ValueOf(c) == index && index > 0 ensures c == a.CharAt(index) { OnlyChar(a, c, index); }
      table[a.CharAt(index) as int] := index;
    }
    values := table[..];
  }

  lemma OnlyChar(a: Alphabet, c: char, s: Sextet)
    requires a.Valid() && a.ValueOf(c) == s && s > 0
    ensures c == a.CharAt(s)
  {
  }

  lemma DecodedGroup(a: Alphabet, text: string, index: nat)
    requires index % 4 == 0 && index + 4 <= |text|
    ensures Decoded(a, text[..index + 4]) == Decoded(a, text[..index]) + Decoded(a, text[index..index + 4])
    ensures |Decoded(a, text[index..index + 4])| == 3
  {
    var group := text[index..index + 4];
    assert text[..index + 4] == text[..index] + group;
    DecodedAppend(a, text[..index], group);
    assert Decoded(a, group[4..]) == [];
  }

  lemma LookedUp(table: seq<int>, a: Alphabet, text: string, k: nat)
    requires IsTable(table, a) && a.Valid() && a.Unpadded(text) && k < |text|
    ensures text[k] as int < 128 == |table| && table[text[k] as int] == a.ValueOf(text[k])
  {
    ValueRoundTrip(a, text[k]);
  }

  /** `decodeInto`: the text needs exactly `ByteCount` places from `offset` on, and gets them. */
  method DecodeInto(table: seq<int>, a: Alphabet, text: string, output: array<Byte>, offset: nat) returns (position: nat)
    requires a.Valid() && IsTable(table, a) && a.Unpadded(text)
    requires offset + ByteCount(|text|) <= output.Length
    modifies output
    ensures position == offset + ByteCount(|text|)
    ensures Filled(output[..], old(output[..]), offset, Decoded(a, text)) && |Decoded(a, text)| == ByteCount(|text|)
  {
    hide Decoded, Alphabet.Unpadded, IsTable, Filled, ByteCount;
    var prefixLength := |text| - |text| % 4;
    position := offset;
    RoomForTail(|text|);
    DecodedNothing(a);
    NothingFilled(output[..], offset);
    ghost var before := output[..];
    ghost var groups: nat := 0;
    var index := 0;
    while index < prefixLength
      invariant 0 <= index <= prefixLength && index == 4 * groups && position == offset + 3 * groups
      invariant Filled(output[..], before, offset, Decoded(a, text[..index])) && |Decoded(a, text[..index])| == 3 * groups
    {
      RoomForGroup(groups, |text|);
      DecodedGroup(a, text, index);
      ghost var mid := output[..];
      DecodeGroup(table, a, text, index, output, position);
      FilledOn(output[..], mid, before, offset, Decoded(a, text[..index]), Decoded(a, text[index..index + 4]));
      position := position + 3;
      index := index + 4;
      groups := groups + 1;
    }
    ghost var mid := output[..];
    var tail := text[prefixLength..];
    DecodedSplit(a, text, prefixLength);
    position := DecodeTail(table, a, tail, output, position);
    FilledOn(output[..], mid, before, offset, Decoded(a, text[..prefixLength]), Decoded(a, tail));
  }

  /** Four characters to three bytes. */
  method DecodeGroup(table: seq<int>, a: Alphabet, text: string, index: nat, output: array<Byte>, position: nat)
    requires a.Valid() && IsTable(table, a) && a.Unpadded(text) && index + 4 <= |text| && position + 3 <= output.Length
    modifies output
    ensures Filled(output[..], old(output[..]), position, Decoded(a, text[index..index + 4]))
  {
    hide Alphabet.ValueOf, Alphabet.Unpadded, IsTable, Quad, Eight;
    LookedUp(table, a, text, index);
    LookedUp(table, a, text, index + 1);
    LookedUp(table, a, text, index + 2);
    LookedUp(table, a, text, index + 3);
    var quad := Quad(table[text[index] as int], table[text[index + 1] as int], table[text[index + 2] as int], table[text[index + 3] as int]);
    output[position], output[position + 1], output[position + 2] := Eight(quad, 16), Eight(quad, 8), Eight(quad, 0);
    assert Decoded(a, text[index..index + 4][4..]) == [];
  }

  /** The last two or three characters; a single one stands for nothing. */
  method DecodeTail(table: seq<int>, a: Alphabet, tail: string, output: array<Byte>, start: nat) returns (position: nat)
    requires a.Valid() && IsTable(table, a) && a.Unpadded(tail) && |tail| < 4
    requires start + ByteCount(|tail|) <= output.Length
    modifies output
    ensures position == start + ByteCount(|tail|)
    ensures Filled(output[..], old(output[..]), start, Decoded(a, tail))
  {
    hide Alphabet.ValueOf, Alphabet.Unpadded, IsTable, Quad, Eight;
    position := start;
    if |tail| == 2 {
      LookedUp(table, a, tail, 0);
      LookedUp(table, a, tail, 1);
      output[position] := Eight(Quad(table[tail[0] as int], table[tail[1] as int], 0, 0), 16);
      position := position + 1;
    } else if |tail| == 3 {
      LookedUp(table, a, tail, 0);
      LookedUp(table, a, tail, 1);
      LookedUp(table, a, tail, 2);
      var bits := Quad(table[tail[0] as int], table[tail[1] as int], table[tail[2] as int], 0);
      output[position], output[position + 1] := Eight(bits, 16), Eight(bits, 8);
      position := position + 2;
    }
  }

  lemma FilledOn(now: seq<Byte>, mid: seq<Byte>, before: seq<Byte>, offset: nat, x: seq<Byte>, y: seq<Byte>)
    requires Filled(mid, before, offset, x) && Filled(now, mid, offset + |x|, y)
    ensures Filled(now, before, offset, x + y)
  {
  }

  lemma DecodedSplit(a: Alphabet, text: string, k: nat)
    requires k <= |text| && k % 4 == 0
    ensures Decoded(a, text) == Decoded(a, text[..k]) + Decoded(a, text[k..])
    ensures |Decoded(a, text[..k])| == ByteCount(k) && |Decoded(a, text[k..])| == ByteCount(|text| - k)
    ensures a.Unpadded(text) ==> a.Unpadded(text[..k]) && a.Unpadded(text[k..])
  {
    assert text == text[..k] + text[k..];
    DecodedAppend(a, text[..k], text[k..]);
    DecodedLength(a, text[..k]);
    DecodedLength(a, text[k..]);
    UnpaddedAppend(a, text[..k], text[k..]);
  }

  lemma RoomForGroup(groups: nat, length: nat)
    requires 4 * groups < length - length % 4
    ensures 4 * groups % 4 == 0 && 4 * groups + 4 <= length - length % 4 && 3 * groups + 3 <= ByteCount(length)
  {
    assert length - length % 4 == 4 * (length / 4);
  }

  lemma RoomForTail(length: nat)
    ensures (length - length % 4) % 4 == 0 && length - length % 4 == 4 * (length / 4)
    ensures ByteCount(length) == 3 * (length / 4) + ByteCount(length % 4)
    ensures ByteCount(length - length % 4) == 3 * (length / 4)
  {
  }

  lemma NothingFilled(now: seq<Byte>, offset: nat)
    requires offset <= |now|
    ensures Filled(now, now, offset, [])
  {
  }

  lemma DecodedNothing(a: Alphabet)
    ensures Decoded(a, "") == []
  {
  }

  /** `now` is `before` with `bytes` put in from `offset` on. */
  predicate Filled(now: seq<Byte>, before: seq<Byte>, offset: nat, bytes: seq<Byte>) {
    |now| == |before| && offset + |bytes| <= |now| && now == before[..offset] + bytes + before[offset + |bytes|..]
  }

  /** `decodeAligned` */
  method DecodeAligned(table: seq<int>, a: Alphabet, text: string) returns (bytes: seq<Byte>)
    requires a.Valid() && IsTable(table, a) && a.Unpadded(text) && |text| % 4 == 0
    ensures bytes == Decoded(a, text)
  {
    var output := new Byte[|text| / 4 * 3](_ => 0);
    var position := DecodeInto(table, a, text, output, 0);
    bytes := output[..];
  }

  /** `decodeChecked`: exactly the accepted texts are decoded, into an output of exactly the right size. */
  method DecodeChecked(table: seq<int>, a: Alphabet, text: string) returns (r: Result)
    requires a.Valid() && IsTable(table, a) && text != ""
    ensures r == Batch(a, text)
  {
    hide Decoded, ByteCount, Accepted, Alphabet.Unpadded, IsTable, Body, Filled;
    var ok, body, padCount := Check(a, text);
    if !ok { return DecodeError; }
    SizeIsExact(|body|, padCount);
    var output := new Byte[(|body| + padCount) / 4 * 3 - padCount](_ => 0);
    var position := DecodeInto(table, a, body, output, 0);
    FilledAll(output[..], Decoded(a, body));
    r := Ok(output[..]);
  }

  lemma FilledAll(now: seq<Byte>, bytes: seq<Byte>)
    requires |now| == |bytes|
    ensures forall before | Filled(now, before, 0, bytes) :: now == bytes
  {
  }

  /** The patterns and lengths that `decodeChecked` tests. */
  method Check(a: Alphabet, text: string) returns (ok: bool, body: string, padCount: nat)
    requires a.Valid() && text != ""
    ensures ok == Accepted(a, text)
    ensures ok ==> body == Body(text) && a.Unpadded(body) && (|body| + padCount) % 4 == 0 && padCount < 3
  {
    hide Alphabet.Has;
    body, padCount := text, 0;
    if '=' in text {
      if !a.Padded(text) || |text| % 4 != 0 { return false, body, 0; }
      padCount := if |text| >= 2 && text[|text| - 2..] == "==" then 2 else 1;
      body := text[..|text| - padCount];
    } else {
      if !a.Unpadded(text) { return false, body, 0; }
      if |text| % 4 == 1 { return false, body, 0; }
      padCount := (4 - |text| % 4) % 4;
    }
    ok := true;
    BodyOf(a, text);
  }

  /** The size computed from the padded length is the number of bytes of the body. */
  lemma SizeIsExact(length: nat, padCount: nat)
    requires (length + padCount) % 4 == 0 && padCount < 3
    ensures (length + padCount) / 4 * 3 - padCount == ByteCount(length)
  {
    assert length % 4 == (4 - padCount) % 4;
  }

  /** The body of an accepted text is what is left after one or two `=`. */
  lemma BodyOf(a: Alphabet, text: string)
    requires a.Valid() && Accepted(a, text)
    ensures a.Unpadded(Body(text)) && Body(text) <= text
    ensures '=' in text ==> Body(text) == text[..|text| - if |text| >= 2 && text[|text| - 2..] == "==" then 2 else 1]
    ensures '=' !in text ==> Body(text) == text
  {
    hide Alphabet.Has;
    var n := |text|;
    if '=' in text {
      if n >= 2 {
        assert text[n - 2..] == "==" <==> text[n - 2] == '=' && text[n - 1] == '=' by {
          assert text[n - 2..] == [text[n - 2], text[n - 1]];
        }
        if text[n - 2] == '=' { NoPadAt(a, text[..n - 1]); }
      }
    } else {
      if n >= 2 { assert text[n - 2..][1] == text[n - 1]; }
    }
  }

  lemma NoPadAt(a: Alphabet, text: string)
    requires a.Valid() && text != "" && text[|text| - 1] == '='
    ensures !a.Unpadded(text)
  {
  }

  /** Which lengths are accepted: without `=` all but those with a remainder of one, with `=` the multiples of four. */
  lemma AcceptedLengths(a: Alphabet, text: string)
    requires a.Valid() && (a.Unpadded(text) || a.Padded(text))
    ensures '=' !in text ==> (Accepted(a, text) <==> |text| % 4 != 1)
    ensures '=' in text ==> (Accepted(a, text) <==> |text| % 4 == 0)
    ensures '=' in text <==> a.Padded(text)
  {
    if a.Unpadded(text) { NoPadInside(a, text); }
  }

  /** The transformer of `encodeStream`. */
  class EncodeStream {
    const a: Alphabet
    const padding: bool
    var carry: seq<Byte>
    /** Everything enqueued so far. */
    var output: string
    /** Everything read so far, up to the carry. */
    ghost var done: seq<Byte>

    ghost predicate Valid()
      reads this
    {
      |carry| < 3 && |done| % 3 == 0 && output == Encoded(a, done, padding)
    }

    constructor (a: Alphabet, padding: bool)
      ensures Valid() && done + carry == [] && this.a == a && this.padding == padding
    {
      this.a, this.padding, carry, output, done := a, padding, [], "", [];
    }

    method Transform(chunk: seq<Byte>)
      requires Valid()
      modifies this
      ensures Valid() && done + carry == old(done + carry) + chunk
    {
      hide Encoded;
      if |chunk| == 0 {
        assert done + carry == done + carry + chunk;
        return;
      }
      var combined := carry + chunk;
      var completeLength := |combined| - |combined| % 3;
      EncodedAppend(a, done, combined[..completeLength], padding);
      assert done + carry + chunk == done + combined[..completeLength] + combined[completeLength..];
      EncodedNothing(a, padding);
      if completeLength > 0 {
        var text := EncodeText(a, combined[..completeLength], padding);
        output := output + text;
      } else {
        assert combined[..completeLength] == [] && output + "" == output;
      }
      done := done + combined[..completeLength];
      carry := combined[completeLength..];
    }

    method Flush()
      requires Valid()
      modifies this
      ensures output == Encoded(a, old(done + carry), padding) && carry == []
    {
      hide Encoded;
      EncodedAppend(a, done, carry, padding);
      EncodedNothing(a, padding);
      if |carry| == 0 {
        assert carry == [] && output + "" == output;
        return;
      }
      var text := EncodeText(a, carry, padding);
      output := output + text;
      carry := [];
    }
  }

  /** However the data is cut into chunks, the stream writes the encoding of the whole. */
  method EncodeChunks(a: Alphabet, chunks: seq<seq<Byte>>, padding: bool) returns (text: string)
    ensures text == Encoded(a, Flatten(chunks), padding)
  {
    hide Encoded;
    var stream := new EncodeStream(a, padding);
    for i := 0 to |chunks|
      invariant fresh(stream) && stream.Valid() && stream.a == a && stream.padding == padding
      invariant stream.done + stream.carry == Flatten(chunks[..i])
    {
      assert chunks[..i + 1][..i] == chunks[..i];
      stream.Transform(chunks[i]);
    }
    assert chunks[..|chunks|] == chunks;
    stream.Flush();
    text := stream.output;
  }

  /** A text that further characters may still complete. */
  predicate Viable(a: Alphabet, text: string) {
    a.Unpadded(text) || a.Padded(text)
  }

  lemma PaddedAfter(a: Alphabet, done: string, text: string)
    requires a.Valid() && a.Unpadded(done)
    ensures a.Padded(done + text) <==> a.Padded(text)
    ensures Viable(a, done + text) <==> Viable(a, text)
    ensures '=' in done + text <==> '=' in text
  {
    hide Alphabet.Has;
    NoPadInside(a, done);
    var all, n, m := done + text, |done + text|, |text|;
    UnpaddedAppend(a, done, text);
    if m >= 1 {
      assert all[n - 1] == text[m - 1];
      assert all[..n - 1] == done + text[..m - 1];
      UnpaddedAppend(a, done, text[..m - 1]);
      if m >= 2 {
        assert all[n - 2] == text[m - 2];
        assert all[..n - 2] == done + text[..m - 2];
        UnpaddedAppend(a, done, text[..m - 2]);
      } else if n >= 2 {
        assert all[n - 2] == done[|done| - 1] != '=';
      }
    } else {
      assert all == done && (n == 0 || all[n - 1] != '=');
    }
  }

  lemma BodyAfter(a: Alphabet, done: string, text: string)
    requires a.Valid() && a.Unpadded(done)
    ensures Body(done + text) == done + Body(text)
  {
    hide Alphabet.Unpadded, Alphabet.Valid;
    NoPadInside(a, done);
    var all, n, m := done + text, |done + text|, |text|;
    if m >= 2 {
      assert all[n - 2..] == text[m - 2..] && all[..n - 2] == done + text[..m - 2];
    } else if m == 1 && n >= 2 {
      assert all[n - 2] == done[|done| - 1] && all[n - 2..][0] == all[n - 2];
    } else if n >= 2 {
      assert all[n - 2..][1] == all[n - 1];
    }
    if m >= 1 {
      assert all[n - 1] == text[m - 1] && all[..n - 1] == done + text[..m - 1];
    } else {
      assert all == done && (n == 0 || all[n - 1] != '=');
    }
  }

  /** Whole groups at the front may be decoded on their own. */
  lemma BatchAfter(a: Alphabet, done: string, text: string)
    requires a.Valid() && a.Unpadded(done) && |done| % 4 == 0
    ensures Batch(a, done + text) == if Accepted(a, text) then Ok(Decoded(a, done) + Decoded(a, Body(text))) else DecodeError
  {
    hide Alphabet.Padded, Alphabet.Unpadded, Alphabet.Valid, Decoded, Body;
    PaddedAfter(a, done, text);
    BodyAfter(a, done, text);
    UnpaddedAppend(a, done, text);
    DecodedAppend(a, done, Body(text));
    SameRemainder(|done|, |text|);
    assert |done + text| == |done| + |text|;
  }

  lemma SameRemainder(x: nat, y: nat)
    requires x % 4 == 0
    ensures (x + y) % 4 == y % 4
  {
    assert x + y == 4 * (x / 4 + y / 4) + y % 4;
  }

  /** Every beginning of an accepted text is viable: what is not viable stays rejected, whatever follows. */
  lemma AcceptedWasViable(a: Alphabet, text: string, more: string)
    requires a.Valid() && Accepted(a, text + more)
    ensures Viable(a, text)
  {
    hide Alphabet.Has;
    var all := text + more;
    var n, t := |all|, |text|;
    if a.Unpadded(all) {
      UnpaddedAppend(a, text, more);
    } else {
      var k := if a.Unpadded(all[..n - 1]) then n - 1 else n - 2;
      if t <= k {
        assert all[..k] == text + all[t..k];
        UnpaddedAppend(a, text, all[t..k]);
      } else if t == n {
        assert text == all;
      } else {
        assert text[..t - 1] == all[..k] && text[t - 1] == all[k];
      }
    }
  }

  /** The position of the first `=`. */
  function FirstPad(text: string): (k: nat)
    requires '=' in text
    ensures k < |text| && text[k] == '=' && forall i | 0 <= i < k :: text[i] != '='
  {
    if text[0] == '=' then 0 else 1 + FirstPad(text[1..])
  }

  /** The transformer of `decodeStream`, on ASCII text. */
  class DecodeStream {
    const a: Alphabet
    const table: seq<int>
    var carry: string
    var paddedTail: string
    var seenPadding: bool
    /** Everything enqueued so far. */
    var output: seq<Byte>
    /** Everything read so far, up to the carry or the padded tail. */
    ghost var done: string

    function Rest(): string
      reads this
    {
      if seenPadding then paddedTail else carry
    }

    ghost predicate Valid()
      reads this
    {
      && a.Valid() && IsTable(table, a)
      && |done| % 4 == 0 && a.Unpadded(done) && output == Decoded(a, done)
      && (if seenPadding then a.Padded(paddedTail) else a.Unpadded(carry) && |carry| < 4)
    }

    constructor (a: Alphabet, table: seq<int>)
      requires a.Valid() && IsTable(table, a)
      ensures Valid() && done + Rest() == "" && this.a == a
    {
      this.a, this.table := a, table;
      carry, paddedTail, seenPadding, output, done := "", "", false, [], "";
    }

    /** One chunk: it is refused as soon as what has been read cannot become an accepted text. */
    method Transform(chunk: string) returns (ok: bool)
      requires Valid()
      modifies this
      ensures ok <==> Viable(a, old(done + Rest()) + chunk)
      ensures ok ==> Valid() && done + Rest() == old(done + Rest()) + chunk
    {
      hide Alphabet.Padded, Alphabet.Unpadded, Alphabet.Valid, Decoded, IsTable;
      PaddedAfter(a, done, Rest() + chunk);
      assert done + Rest() + chunk == done + (Rest() + chunk);
      if |chunk| == 0 {
        assert Rest() + chunk == Rest();
        return true;
      }
      if seenPadding {
        var candidate := paddedTail + chunk;
        PadStays(a, paddedTail, chunk);
        if a.Padded(candidate) {
          paddedTail := candidate;
          return true;
        }
        return false;
      }
      ok := Continue(carry + chunk);
    }

    /** The carry and the chunk together, before any `=` has been seen. */
    method Continue(combined: string) returns (ok: bool)
      requires Valid() && !seenPadding
      modifies this
      ensures ok <==> Viable(a, combined)
      ensures ok ==> Valid() && done + Rest() == old(done) + combined
    {
      hide Decoded, IsTable, Alphabet.Padded, Alphabet.Unpadded, Alphabet.Valid;
      PadNeeded(a, combined);
      if '=' !in combined {
        if !a.Unpadded(combined) { return false; }
        var alignedLength := |combined| - |combined| % 4;
        HalvesUnpadded(a, combined, alignedLength);
        Advance(combined[..alignedLength]);
        carry := combined[alignedLength..];
        Rejoin(old(done), combined, alignedLength);
      } else {
        if !a.Padded(combined) { return false; }
        ContinuePadded(combined);
      }
      ok := true;
    }

    /** The tail with the `=` waits for the end of the stream; what is complete before it does not. */
    method ContinuePadded(combined: string)
      requires Valid() && !seenPadding && a.Padded(combined) && '=' in combined
      modifies this
      ensures Valid() && done + Rest() == old(done) + combined
    {
      hide Decoded, IsTable, Alphabet.Padded, Alphabet.Unpadded, Alphabet.Valid;
      var head := combined[..FirstPad(combined)];
      var alignedLength := |head| - |head| % 4;
      HeadUnpadded(a, combined, alignedLength);
      Advance(combined[..alignedLength]);
      paddedTail, seenPadding := combined[alignedLength..], true;
      Rejoin(old(done), combined, alignedLength);
    }

    /** Whole groups are decoded at once. */
    method Advance(aligned: string)
      requires a.Valid() && IsTable(table, a) && |done| % 4 == 0 && a.Unpadded(done) && output == Decoded(a, done)
      requires a.Unpadded(aligned) && |aligned| % 4 == 0
      modifies this`output, this`done
      ensures done == old(done) + aligned && |done| % 4 == 0 && a.Unpadded(done) && output == Decoded(a, done)
    {
      hide Decoded, IsTable, Alphabet.Has;
      DecodedAppend(a, done, aligned);
      UnpaddedAppend(a, done, aligned);
      DecodedNothing(a);
      if |aligned| > 0 {
        var bytes := DecodeAligned(table, a, aligned);
        output := output + bytes;
      } else {
        assert aligned == "" && output + [] == output;
      }
      done := done + aligned;
    }

    method Flush() returns (ok: bool)
      requires Valid()
      modifies this
      ensures Batch(a, old(done + Rest())) == if ok then Ok(output) else DecodeError
      ensures Rest() == ""
    {
      hide Decoded, IsTable, Accepted, Alphabet.Padded, Alphabet.Unpadded, Alphabet.Valid, Body;
      BatchAfter(a, done, Rest());
      var tail := Rest();
      carry, paddedTail := "", "";
      if |tail| == 0 {
        NothingToDecode(a);
        assert output + [] == output;
        return true;
      }
      var r := DecodeChecked(table, a, tail);
      if r.DecodeError? { return false; }
      output := output + r.bytes;
      ok := true;
    }
  }

  lemma NothingToDecode(a: Alphabet)
    ensures Accepted(a, "") && Decoded(a, Body("")) == []
  {
  }

  lemma PadStays(a: Alphabet, text: string, more: string)
    requires a.Valid() && a.Padded(text)
    ensures Viable(a, text + more) <==> a.Padded(text + more)
  {
    assert text[|text| - 1] == '=' && (text + more)[|text| - 1] == '=';
  }

  lemma PadNeeded(a: Alphabet, text: string)
    requires a.Valid()
    ensures '=' !in text ==> !a.Padded(text)
    ensures '=' in text ==> !a.Unpadded(text)
  {
  }

  lemma Rejoin(done: string, text: string, k: nat)
    requires k <= |text|
    ensures done + text[..k] + text[k..] == done + text
  {
  }

  lemma HalvesUnpadded(a: Alphabet, text: string, k: nat)
    requires a.Unpadded(text) && k <= |text|
    ensures a.Unpadded(text[..k]) && a.Unpadded(text[k..])
  {
  }

  lemma HeadUnpadded(a: Alphabet, text: string, k: nat)
    requires a.Valid() && a.Padded(text) && k <= FirstPad(text)
    ensures a.Unpadded(text[..k]) && a.Padded(text[k..])
  {
    hide Alphabet.Has;
    var n := |text|;
    var p := if a.Unpadded(text[..n - 1]) then n - 1 else n - 2;
    assert text[p] == '=' && k <= p;
    assert text[..p] == text[..k] + text[k..p];
    UnpaddedAppend(a, text[..k], text[k..p]);
    assert text == text[..k] + text[k..];
    PaddedAfter(a, text[..k], text[k..]);
  }

  /** However the text is cut into chunks, the stream ends without an error exactly when batch decoding accepts the whole, and then it has
      written the same bytes. */
  method DecodeChunks(a: Alphabet, table: seq<int>, chunks: seq<string>) returns (r: Result)
    requires a.Valid() && IsTable(table, a)
    ensures r == Batch(a, Flatten(chunks))
  {
    hide Decoded, IsTable, Accepted, Alphabet.Valid, Viable;
    var stream := new DecodeStream(a, table);
    for i := 0 to |chunks|
      invariant fresh(stream) && stream.Valid() && stream.a == a
      invariant stream.done + stream.Rest() == Flatten(chunks[..i])
    {
      assert chunks[..i + 1][..i] == chunks[..i];
      var ok := stream.Transform(chunks[i]);
      if !ok {
        FlattenSplit(chunks, i + 1);
        if Accepted(a, Flatten(chunks)) { AcceptedWasViable(a, Flatten(chunks[..i + 1]), Flatten(chunks[i + 1..])); }
        return DecodeError;
      }
    }
    assert chunks[..|chunks|] == chunks;
    var ok := stream.Flush();
    r := if ok then Ok(stream.output) else DecodeError;
  }
}
