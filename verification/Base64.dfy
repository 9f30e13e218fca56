/** base64url as the tickets use it: section 5 of RFC 4648, with the padding of section 3.2
    stripped by the writer and put back by the reader, and the reader's lenient decoder
    (CPython's `binascii.a2b_base64`, not strict). */
module Base64 {
  import opened Basics
  import opened Text

  type Byte = b: int | 0 <= b < 256

  type Sextet = n: int | 0 <= n < 64

  // Table 2 of RFC 4648.
  function Letter(n: Sextet): char {
    if n < 26 then ('A' as int + n) as char
    else if n < 52 then ('a' as int + n - 26) as char
    else if n < 62 then ('0' as int + n - 52) as char
    else if n == 62 then '-' else '_'
  }

  predicate UrlLetter(c: char) {
    'A' <= c <= 'Z' || 'a' <= c <= 'z' || '0' <= c <= '9' || c == '-' || c == '_'
  }

  // Table 1 of RFC 4648.
  function Value(c: char): Option<Sextet> {
    if 'A' <= c <= 'Z' then Some(c as int - 'A' as int)
    else if 'a' <= c <= 'z' then Some(c as int - 'a' as int + 26)
    else if '0' <= c <= '9' then Some(c as int - '0' as int + 52)
    else if c == '+' then Some(62)
    else if c == '/' then Some(63)
    else None
  }

  // What `urlsafe_b64decode` reads the two other letters as.
  function Standard(c: char): char {
    if c == '-' then '+' else if c == '_' then '/' else c
  }

  function Translated(text: string): (translated: string)
    ensures |translated| == |text|
  {
    seq(|text|, i requires 0 <= i < |text| => Standard(text[i]))
  }

  // `urlsafe_b64encode`
  function Encode(bytes: seq<Byte>): string {
    if bytes == [] then ""
    else if |bytes| == 1 then [Letter(bytes[0] / 4), Letter(bytes[0] % 4 * 16), '=', '=']
    else if |bytes| == 2 then
      [Letter(bytes[0] / 4), Letter(bytes[0] % 4 * 16 + bytes[1] / 16), Letter(bytes[1] % 16 * 4), '=']
    else Four(bytes[0], bytes[1], bytes[2]) + Encode(bytes[3..])
  }

  function Four(x: Byte, y: Byte, z: Byte): string {
    [Letter(x / 4), Letter(x % 4 * 16 + y / 16), Letter(y % 16 * 4 + z / 64), Letter(z % 64)]
  }

  predicate Pad(c: char) {
    c == '='
  }

  // `rstrip("=")`
  function Unpadded(text: string): string {
    StripRight(text, Pad)
  }

  // The reader's `"="` up to the next multiple of four.
  function Padded(text: string): string {
    text + match (4 - |text| % 4) % 4 case 0 => "" case 1 => "=" case 2 => "==" case _ => "==="
  }

  // What the decoder holds of a group of four letters: how many it has seen, and their bits
  // that no byte has taken yet.
  datatype Held = Held(seen: nat, bits: nat)

  predicate Fits(held: Held) {
    match held.seen
    case 0 => held.bits == 0
    case 1 => held.bits < 64
    case 2 => held.bits < 16
    case 3 => held.bits < 4
    case _ => false
  }

  // One more letter: the byte it completes, if any, and what is held then.
  function Fed(held: Held, value: Sextet): (Option<Byte>, Held)
    requires Fits(held)
  {
    match held.seen
    case 0 => (None, Held(1, value))
    case 1 => (Some(held.bits * 4 + value / 16), Held(2, value % 16))
    case 2 => (Some(held.bits * 16 + value / 4), Held(3, value % 4))
    case _ => (Some(held.bits * 64 + value), Held(0, 0))
  }

  /** The decoder: characters outside the alphabet are skipped, and a pad that completes its
      group ends it. None when a group is left open. */
  function Decoded(text: string, held: Held, pads: nat): Option<seq<Byte>>
    requires Fits(held)
    decreases |text|
  {
    if text == "" then
      if held.seen == 0 then Some([]) else None
    else if text[0] == '=' then
      if held.seen < 2 then Decoded(text[1..], held, pads)
      else if held.seen + pads + 1 >= 4 then Some([])
      else Decoded(text[1..], held, pads + 1)
    else
      match Value(text[0])
      case None => Decoded(text[1..], held, pads)
      case Some(value) =>
        var (byte, next) := Fed(held, value);
        match Decoded(text[1..], next, 0)
        case None => None
        case Some(rest) => Some(if byte.Some? then [byte.value] + rest else rest)
  }

  // `b64decode`
  function Decode(text: string): Option<seq<Byte>> {
    Decoded(text, Held(0, 0), 0)
  }

  // `urlsafe_b64decode`
  function UrlDecode(text: string): Option<seq<Byte>> {
    Decode(Translated(text))
  }

  // ---- The round trip ----------------------------------------------------------------------

  lemma {:induction false} LetterRead(n: Sextet)
    ensures UrlLetter(Letter(n)) && Value(Standard(Letter(n))) == Some(n) && Standard(Letter(n)) != '='
  {
  }

  // A letter in front of a text.
  lemma {:induction false} DecodedLetter(n: Sextet, text: string, held: Held, pads: nat, rest: seq<Byte>)
    requires Fits(held) && Decoded(Translated(text), Fed(held, n).1, 0) == Some(rest)
    ensures Decoded(Translated([Letter(n)] + text), held, pads) ==
            Some(if Fed(held, n).0.Some? then [Fed(held, n).0.value] + rest else rest)
  {
    LetterRead(n);
    var whole := Translated([Letter(n)] + text);
    assert whole[0] == Standard(Letter(n)) && whole[1..] == Translated(text);
  }

  // The letters of the bytes x, y and z, and what the decoder takes from each.
  lemma {:induction false} Taken(x: Byte, y: Byte, z: Byte)
    ensures Fed(Held(0, 0), x / 4) == (None, Held(1, x / 4))
    ensures Fed(Held(1, x / 4), x % 4 * 16 + y / 16) == (Some(x), Held(2, y / 16))
    ensures Fed(Held(2, y / 16), y % 16 * 4 + z / 64) == (Some(y), Held(3, z / 64))
    ensures Fed(Held(3, z / 64), z % 64) == (Some(z), Held(0, 0))
  {
  }

  // A byte's letters, the second with the bits of whatever comes after.
  lemma {:induction false} DecodedFront(x: Byte, after: string, rest: seq<Byte>, more: Sextet)
    requires Fed(Held(1, x / 4), more).0 == Some(x)
    requires Decoded(Translated(after), Fed(Held(1, x / 4), more).1, 0) == Some(rest)
    ensures UrlDecode([Letter(x / 4), Letter(more)] + after) == Some([x] + rest)
  {
    var b := [Letter(more)] + after;
    DecodedLetter(more, after, Held(1, x / 4), 0, rest);
    DecodedLetter(x / 4, b, Held(0, 0), 0, [x] + rest);
    assert [Letter(x / 4)] + b == [Letter(x / 4), Letter(more)] + after;
  }

  // Two letters that complete a byte each.
  lemma {:induction false} DecodedBack(c: Sextet, d: Sextet, y: Byte, z: Byte, held: Held, next: Held, text: string,
                                       rest: seq<Byte>)
    requires Fits(held) && Fits(next) && UrlDecode(text) == Some(rest)
    requires Fed(held, c) == (Some(y), next) && Fed(next, d) == (Some(z), Held(0, 0))
    ensures Decoded(Translated([Letter(c), Letter(d)] + text), held, 0) == Some([y] + ([z] + rest))
  {
    DecodedLetter(d, text, next, 0, rest);
    DecodedLetter(c, [Letter(d)] + text, held, 0, [z] + rest);
    assert [Letter(c)] + ([Letter(d)] + text) == [Letter(c), Letter(d)] + text;
  }

  lemma {:induction false} FourSplit(x: Byte, y: Byte, z: Byte, text: string)
    ensures [Letter(x / 4), Letter(x % 4 * 16 + y / 16)]
            + ([Letter(y % 16 * 4 + z / 64), Letter(z % 64)] + text) == Four(x, y, z) + text
  {
  }

  // Three bytes' letters in front of a text.
  lemma {:induction false} DecodedFour(x: Byte, y: Byte, z: Byte, text: string, rest: seq<Byte>)
    requires UrlDecode(text) == Some(rest)
    ensures UrlDecode(Four(x, y, z) + text) == Some([x] + ([y] + ([z] + rest)))
  {
    Taken(x, y, z);
    FourSplit(x, y, z, text);
    var b, c, d := x % 4 * 16 + y / 16, y % 16 * 4 + z / 64, z % 64;
    DecodedBack(c, d, y, z, Held(2, y / 16), Held(3, z / 64), text, rest);
    DecodedFront(x, [Letter(c), Letter(d)] + text, [y] + ([z] + rest), b);
  }

  lemma {:induction false} DecodedPads(bits: nat)
    ensures bits < 4 ==> Decoded(Translated("="), Held(3, bits), 0) == Some([])
    ensures bits < 16 ==> Decoded(Translated("=="), Held(2, bits), 0) == Some([])
  {
    assert Translated("=") == "=";
    assert Translated("==") == "==" && "=="[1..] == "=";
  }

  lemma {:induction false} DecodesOne(x: Byte)
    ensures UrlDecode([Letter(x / 4), Letter(x % 4 * 16)] + "==") == Some([x])
  {
    var more := x % 4 * 16;
    assert more % 16 == 0 && more / 16 == x % 4;
    DecodedPads(0);
    DecodedFront(x, "==", [], more);
    assert [x] + [] == [x];
  }

  lemma {:induction false} DecodesTwo(x: Byte, y: Byte)
    ensures UrlDecode(Encode([x, y])) == Some([x, y])
  {
    Taken(x, y, 0);
    DecodedPads(0);
    var after := [Letter(y % 16 * 4)] + "=";
    DecodedLetter(y % 16 * 4, "=", Held(2, y / 16), 0, []);
    assert [y] + [] == [y];
    DecodedFront(x, after, [y], x % 4 * 16 + y / 16);
    assert [Letter(x / 4), Letter(x % 4 * 16 + y / 16)] + after == Encode([x, y]);
    assert [x] + [y] == [x, y];
  }

  /** Decoding undoes encoding, for every number of bytes. */
  lemma {:induction false} DecodesEncoded(bytes: seq<Byte>)
    ensures UrlDecode(Encode(bytes)) == Some(bytes)
    decreases |bytes|
  {
    if bytes == [] {
      assert Translated("") == "";
    } else if |bytes| == 1 {
      var x := bytes[0];
      DecodesOne(x);
      assert [x] == bytes && [Letter(x / 4), Letter(x % 4 * 16)] + "==" == Encode(bytes);
    } else if |bytes| == 2 {
      DecodesTwo(bytes[0], bytes[1]);
      assert [bytes[0], bytes[1]] == bytes;
    } else {
      DecodesEncoded(bytes[3..]);
      DecodedFour(bytes[0], bytes[1], bytes[2], Encode(bytes[3..]), bytes[3..]);
      assert [bytes[0]] + ([bytes[1]] + ([bytes[2]] + bytes[3..])) == bytes;
    }
  }

  // ---- Padding --------------------------------------------------------------------------------

  // Of the url alphabet only.
  predicate UrlSafe(text: string) {
    forall i :: 0 <= i < |text| ==> UrlLetter(text[i])
  }

  lemma {:induction false} FourLetters(x: Byte, y: Byte, z: Byte)
    ensures |Four(x, y, z)| == 4 && UrlSafe(Four(x, y, z))
  {
    LetterRead(x / 4);
    LetterRead(x % 4 * 16 + y / 16);
    LetterRead(y % 16 * 4 + z / 64);
    LetterRead(z % 64);
  }

  lemma {:induction false} PadsAfter(front: string, pads: string)
    requires UrlSafe(front) && ((|front| == 2 && pads == "==") || (|front| == 3 && pads == "="))
    ensures Unpadded(front + pads) == front && Padded(front) == front + pads
  {
    StripRightBehind(front, pads, Pad);
    assert Init("==") == "=" && Init("=") == "";
    assert Unpadded("=") == "" && Unpadded("==") == "" && front + "" == front;
  }

  lemma {:induction false} PadsRestoredFour(front: string, rest: string)
    requires UrlSafe(front) && |front| == 4 && UrlSafe(Unpadded(rest)) && Padded(Unpadded(rest)) == rest
    ensures UrlSafe(Unpadded(front + rest)) && Padded(Unpadded(front + rest)) == front + rest
  {
    NoPadAtEnd(front);
    StripRightBehind(front, rest, Pad);
    SafeBoth(front, Unpadded(rest));
    PaddedBehind(front, Unpadded(rest));
  }

  lemma {:induction false} NoPadAtEnd(text: string)
    requires UrlSafe(text) && text != ""
    ensures !Pad(Last(text))
  {
    assert UrlLetter(text[|text| - 1]);
  }

  lemma {:induction false} SafeBoth(a: string, b: string)
    requires UrlSafe(a) && UrlSafe(b)
    ensures UrlSafe(a + b)
  {
  }

  // Padding looks at the length alone.
  lemma {:induction false} PaddedBehind(front: string, text: string)
    requires |front| == 4
    ensures Padded(front + text) == front + Padded(text)
  {
    var pads := Padded(text)[|text|..];
    assert |front + text| % 4 == |text| % 4;
    assert Padded(text) == text + pads && Padded(front + text) == front + text + pads;
    assert front + text + pads == front + (text + pads);
  }

  /** Stripping the padding leaves letters only, and restoring it by length gives it back. */
  lemma {:induction false} PadsRestored(bytes: seq<Byte>)
    ensures UrlSafe(Unpadded(Encode(bytes))) && Padded(Unpadded(Encode(bytes))) == Encode(bytes)
    decreases |bytes|
  {
    if |bytes| == 0 {
    } else if |bytes| == 1 {
      LetterRead(bytes[0] / 4);
      LetterRead(bytes[0] % 4 * 16);
      var front := [Letter(bytes[0] / 4), Letter(bytes[0] % 4 * 16)];
      assert front + "==" == Encode(bytes);
      PadsAfter(front, "==");
    } else if |bytes| == 2 {
      LetterRead(bytes[0] / 4);
      LetterRead(bytes[0] % 4 * 16 + bytes[1] / 16);
      LetterRead(bytes[1] % 16 * 4);
      var front := [Letter(bytes[0] / 4), Letter(bytes[0] % 4 * 16 + bytes[1] / 16), Letter(bytes[1] % 16 * 4)];
      assert front + "=" == Encode(bytes);
      PadsAfter(front, "=");
    } else {
      PadsRestored(bytes[3..]);
      FourLetters(bytes[0], bytes[1], bytes[2]);
      PadsRestoredFour(Four(bytes[0], bytes[1], bytes[2]), Encode(bytes[3..]));
    }
  }

  // `urlsafe_b64encode(...).rstrip("=")`, the payload of every ticket and invite.
  function Payload(bytes: seq<Byte>): string {
    Unpadded(Encode(bytes))
  }

  /** The payload holds url letters only, and padded by its length it decodes to the bytes. */
  lemma {:induction false} PayloadDecodes(bytes: seq<Byte>)
    ensures UrlSafe(Payload(bytes)) && UrlDecode(Padded(Payload(bytes))) == Some(bytes)
  {
    PadsRestored(bytes);
    DecodesEncoded(bytes);
  }

  // A JSON object's text starts with a brace, so its payload starts with an `e`.
  lemma {:induction false} BracePayload(bytes: seq<Byte>)
    requires bytes != [] && bytes[0] == 0x7B
    ensures Payload(bytes) != "" && Payload(bytes)[0] == 'e'
  {
    PadsRestored(bytes);
    var payload := Payload(bytes);
    assert Encode(bytes)[0] == Letter(30) == 'e';
    assert payload == "" ==> Padded(payload) == "";
    assert payload != "" ==> Padded(payload)[0] == payload[0];
  }
}
