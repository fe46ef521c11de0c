/**
  Wrapping an RSA private key for import: DER lengths and elements (ITU-T X.690), and the
  PrivateKeyInfo envelope (section 5 of RFC 5208) around a PKCS#1 key.  Parsers written from the
  standards stand on the other side of each encoder.
 */
module Der {
  import opened Common

  const WORD := 0x1_0000_0000

  // ----- Lengths -----

  /** `n >>> 8` of a number: the low 32 bits, shifted. */
  function ShiftRight8(n: nat): nat {
    (n % WORD) / 256
  }

  /** The bytes the loop collects, the last one found first in front. */
  function LoopBytes(n: nat): Bytes
    decreases n
  {
    if n == 0 then [] else LoopBytes(ShiftRight8(n)) + [n % 256]
  }

  function LengthOf(n: nat): Bytes {
    if n < 128 then [n] else [(128 + |LoopBytes(n)|) % 256] + LoopBytes(n)
  }

  method LengthBytes(n: nat) returns (bytes: Bytes)
    ensures bytes == LengthOf(n)
  {
    if n < 128 {
      return [n];
    }
    var b: Bytes := [];
    var rest := n;
    while rest != 0
      invariant LoopBytes(rest) + b == LoopBytes(n)
      decreases rest
    {
      OneByte(rest, b);
      ShiftShrinks(rest);
      b := [rest % 256] + b;
      rest := ShiftRight8(rest);
    }
    bytes := [(128 + |b|) % 256] + b;
  }

  lemma OneByte(n: nat, b: Bytes)
    requires n != 0
    ensures LoopBytes(n) + b == LoopBytes(ShiftRight8(n)) + ([n % 256] + b)
  {}

  lemma ShiftShrinks(n: nat)
    requires n != 0
    ensures ShiftRight8(n) < n
  {}

  /** Big-endian value of a string of bytes. */
  function Value(bytes: Bytes): nat {
    if |bytes| == 0 then 0 else Value(bytes[..|bytes| - 1]) * 256 + bytes[|bytes| - 1]
  }

  datatype Length = Length(value: nat, size: nat)

  /** Section 8.1.3 of X.690 with the restriction of section 10.1: definite form, in the fewest bytes. */
  function DecodeLength(bytes: Bytes): Option<Length> {
    if |bytes| == 0 then None
    else if bytes[0] < 128 then Some(Length(bytes[0], 1))
    else
      var count := bytes[0] - 128;
      if count == 0 || count == 127 || |bytes| < 1 + count || bytes[1] == 0 || Value(bytes[1..1 + count]) < 128
      then None
      else Some(Length(Value(bytes[1..1 + count]), 1 + count))
  }

  /** What the loop leaves of a number: its low 32 bits, in at most four bytes, with no leading zero
      unless the number has more bits. */
  lemma {:induction false} LoopValue(n: nat)
    ensures Value(LoopBytes(n)) == n % WORD
    ensures |LoopBytes(n)| <= 4
    ensures n < 0x100_0000 ==> |LoopBytes(n)| <= 3
    ensures n < 0x1_0000 ==> |LoopBytes(n)| <= 2
    ensures n < 0x100 ==> |LoopBytes(n)| <= 1
    ensures 0 < n < WORD ==> |LoopBytes(n)| > 0 && LoopBytes(n)[0] != 0
    decreases n
  {
    if n > 0 {
      var m := ShiftRight8(n);
      LoopValue(m);
      assert LoopBytes(n)[..|LoopBytes(n)| - 1] == LoopBytes(m);
      LowBytes(n);
      if n < WORD && m == 0 { assert LoopBytes(m) == []; }
    }
  }

  lemma LowBytes(n: nat)
    ensures ShiftRight8(n) % WORD * 256 + n % 256 == n % WORD
    ensures ShiftRight8(n) < 0x100_0000
    ensures n < 0x100_0000 ==> ShiftRight8(n) < 0x1_0000
    ensures n < 0x1_0000 ==> ShiftRight8(n) < 0x100
    ensures n < 0x100 ==> ShiftRight8(n) == 0
  {
    var low := n % WORD;
    LastByte(low, 0x100_0000 * (n / WORD));
    assert n == 0x100_0000 * (n / WORD) * 256 + low;
  }

  lemma LastByte(low: nat, k: nat)
    ensures (k * 256 + low) % 256 == low % 256 && low / 256 * 256 + low % 256 == low
  {}

  /** A length is decoded as it was encoded, whatever follows, exactly when it fits 32 bits. */
  lemma LengthRoundTripIff(n: nat, rest: Bytes)
    ensures DecodeLength(LengthOf(n) + rest) == Some(Length(n, |LengthOf(n)|)) <==> n < WORD
    ensures DecodeLength(LengthOf(n) + rest).Some? ==> DecodeLength(LengthOf(n) + rest).value.value < WORD
    ensures DecodeLength(LengthOf(n) + rest).Some? ==> DecodeLength(LengthOf(n) + rest).value.size == |LengthOf(n)|
  {
    if n >= 128 {
      LoopValue(n);
      LongLength(n, LoopBytes(n), rest);
    }
  }

  /** The long form, decoded. */
  lemma LongLength(n: nat, digits: Bytes, rest: Bytes)
    requires n >= 128 && |digits| <= 4 && Value(digits) == n % WORD && (n < WORD ==> |digits| > 0 && digits[0] != 0)
    ensures
      var r := DecodeLength([(128 + |digits|) % 256] + digits + rest);
      && (n < WORD ==> r == Some(Length(n, 1 + |digits|)))
      && (r.Some? ==> r.value == Length(n % WORD, 1 + |digits|))
  {
    var first := (128 + |digits|) % 256;
    Framed(first, digits, rest);
    DigitsDecoded([first] + digits + rest, digits);
  }

  lemma Framed(first: Byte, digits: Bytes, rest: Bytes)
    ensures
      var all := [first] + digits + rest;
      |all| >= 1 + |digits| && all[0] == first && all[1..1 + |digits|] == digits
  {}

  lemma DigitsDecoded(all: Bytes, digits: Bytes)
    requires |digits| <= 4 && |all| >= 1 + |digits|
    requires all[0] == 128 + |digits| && all[1..1 + |digits|] == digits
    ensures
      DecodeLength(all)
      == if |digits| == 0 || digits[0] == 0 || Value(digits) < 128 then None
         else Some(Length(Value(digits), 1 + |digits|))
  {
    assert |digits| > 0 ==> all[1] == digits[0];
  }

  /** No other definite form of the same length is shorter. */
  lemma LengthIsShortest(n: nat, bytes: Bytes)
    requires n < WORD && DecodeLength(bytes) == Some(Length(n, |bytes|))
    ensures bytes == LengthOf(n)
  {
    if n >= 128 {
      var digits := LoopBytes(n);
      LoopDigits(n);
      OnlyLongForm(n, bytes, digits);
      LongForm(n, bytes, digits);
    } else {
      ShortForm(n, bytes);
    }
  }

  lemma LoopDigits(n: nat)
    requires 0 < n < WORD
    ensures 0 < |LoopBytes(n)| <= 4 && LoopBytes(n)[0] != 0 && Value(LoopBytes(n)) == n
  {
    LoopValue(n);
  }

  lemma ShortForm(n: nat, bytes: Bytes)
    requires n < 128 && DecodeLength(bytes) == Some(Length(n, |bytes|))
    ensures bytes == [n]
  {}

  lemma LongForm(n: nat, bytes: Bytes, digits: Bytes)
    requires n >= 128 && digits == LoopBytes(n) && |digits| <= 4
    requires |bytes| > 0 && bytes[0] == 128 + |digits| && bytes[1..] == digits
    ensures bytes == LengthOf(n)
  {}

  lemma OnlyLongForm(n: nat, bytes: Bytes, digits: Bytes)
    requires n >= 128 && DecodeLength(bytes) == Some(Length(n, |bytes|))
    requires 0 < |digits| <= 4 && digits[0] != 0 && Value(digits) == n
    ensures |bytes| > 0 && bytes[0] == 128 + |digits| && bytes[1..] == digits
  {
    DecodedDigits(n, bytes);
    DigitsAreUnique(bytes[1..], digits);
  }

  lemma DecodedDigits(n: nat, bytes: Bytes)
    requires n >= 128 && DecodeLength(bytes) == Some(Length(n, |bytes|))
    ensures |bytes| > 1 && bytes[0] == 128 + |bytes[1..]| && bytes[1..][0] != 0 && Value(bytes[1..]) == n
  {
    assert bytes[0] >= 128;
    assert bytes[1..1 + (bytes[0] - 128)] == bytes[1..];
  }

  /** Two strings of bytes without leading zeros that stand for the same value are the same. */
  lemma {:induction false} DigitsAreUnique(a: Bytes, b: Bytes)
    requires Value(a) == Value(b)
    requires |a| > 0 ==> a[0] != 0
    requires |b| > 0 ==> b[0] != 0
    ensures a == b
    decreases |a|
  {
    if |a| == 0 {
      if |b| > 0 { PositiveValue(b); }
    } else if |b| == 0 {
      PositiveValue(a);
    } else {
      var x, y := a[..|a| - 1], b[..|b| - 1];
      assert Value(x) == Value(a) / 256 && Value(y) == Value(b) / 256;
      DigitsAreUnique(x, y);
      assert a == x + [a[|a| - 1]] && b == y + [b[|b| - 1]];
    }
  }

  lemma {:induction false} PositiveValue(bytes: Bytes)
    requires |bytes| > 0 && bytes[0] != 0
    ensures Value(bytes) > 0
    decreases |bytes|
  {
    if |bytes| > 1 { PositiveValue(bytes[..|bytes| - 1]); }
  }

  // ----- Elements -----

  function Element(tag: Byte, content: Bytes): Bytes {
    [tag] + LengthOf(|content|) + content
  }

  datatype Parsed = Parsed(tag: Byte, content: Bytes, rest: Bytes)

  /** One element with a one-byte tag, and what comes after it. */
  function Parse(bytes: Bytes): Option<Parsed> {
    if |bytes| == 0 then None
    else
      match DecodeLength(bytes[1..])
      case None => None
      case Some(Length(n, size)) =>
        if |bytes| < 1 + size + n then None
        else Some(Parsed(bytes[0], bytes[1 + size..1 + size + n], bytes[1 + size + n..]))
  }

  /** An element is parsed back in full, and no more than it, exactly when its length fits 32 bits. */
  lemma ElementRoundTripIff(tag: Byte, content: Bytes, rest: Bytes)
    ensures Parse(Element(tag, content) + rest) == Some(Parsed(tag, content, rest)) <==> |content| < WORD
  {
    var all := Element(tag, content) + rest;
    var size := |LengthOf(|content|)|;
    assert all[1..] == LengthOf(|content|) + (content + rest);
    LengthRoundTripIff(|content|, content + rest);
    if |content| < WORD {
      assert all[1 + size..1 + size + |content|] == content;
      assert all[1 + size + |content|..] == rest;
    }
  }

  /** A longer element is not parsed to its end. */
  lemma LongElement(tag: Byte, content: Bytes)
    requires |content| >= WORD && Parse(Element(tag, content)).Some?
    ensures |Parse(Element(tag, content)).value.rest| > 0
  {
    LengthRoundTripIff(|content|, content);
    LeavesRest(tag, LengthOf(|content|), content);
  }

  lemma LeavesRest(tag: Byte, length: Bytes, content: Bytes)
    requires Parse([tag] + length + content).Some? && |content| >= WORD
    requires DecodeLength(length + content).Some? ==>
      DecodeLength(length + content).value.value < WORD && DecodeLength(length + content).value.size == |length|
    ensures |Parse([tag] + length + content).value.rest| > 0
  {
    assert ([tag] + length + content)[1..] == length + content;
  }

  // ----- PrivateKeyInfo -----

  const INTEGER: Byte := 2
  const OCTET_STRING: Byte := 4
  const NULL: Byte := 5
  const OBJECT_IDENTIFIER: Byte := 6
  const SEQUENCE: Byte := 0x30

  /** 1.2.840.113549.1.1.1 */
  const RSA_ENCRYPTION: Bytes := [0x2a, 0x86, 0x48, 0x86, 0xf7, 0x0d, 1, 1, 1]

  const HEADER: Bytes := [2, 1, 0, 0x30, 0x0d, 6, 9, 0x2a, 0x86, 0x48, 0x86, 0xf7, 0x0d, 1, 1, 1, 5, 0]

  /** The envelope the program puts around a PKCS#1 key. */
  function Wrap(key: Bytes): Bytes {
    Element(SEQUENCE, HEADER + Element(OCTET_STRING, key))
  }

  datatype PrivateKeyInfo = PrivateKeyInfo(version: Bytes, algorithm: Bytes, key: Bytes)

  /** The content of an element that has this tag, and the rest. */
  function Expect(tag: Byte, bytes: Bytes): Option<(Bytes, Bytes)> {
    match Parse(bytes)
    case None => None
    case Some(p) => if p.tag == tag then Some((p.content, p.rest)) else None
  }

  /** Version, algorithm with NULL parameters, and the key, with nothing left over anywhere. */
  function ParsePrivateKeyInfo(bytes: Bytes): Option<PrivateKeyInfo> {
    match Expect(SEQUENCE, bytes)
    case None => None
    case Some((inner, after)) => if |after| > 0 then None else ParseFields(inner)
  }

  function ParseFields(bytes: Bytes): Option<PrivateKeyInfo> {
    match Expect(INTEGER, bytes)
    case None => None
    case Some((version, rest)) =>
      match Expect(SEQUENCE, rest)
      case None => None
      case Some((identifier, last)) =>
        match (ParseAlgorithm(identifier), Expect(OCTET_STRING, last))
        case (Some(algorithm), Some((key, end))) =>
          if |end| == 0 then Some(PrivateKeyInfo(version, algorithm, key)) else None
        case _ => None
  }

  function ParseAlgorithm(bytes: Bytes): Option<Bytes> {
    match Expect(OBJECT_IDENTIFIER, bytes)
    case None => None
    case Some((algorithm, rest)) => if Expect(NULL, rest) == Some(([], [])) then Some(algorithm) else None
  }

  function Identifier(): Bytes {
    Element(OBJECT_IDENTIFIER, RSA_ENCRYPTION) + Element(NULL, [])
  }

  /** The constant bytes of the envelope are the elements they stand for. */
  lemma HeaderIsElements()
    ensures HEADER == Element(INTEGER, [0]) + Element(SEQUENCE, Identifier())
  {}

  lemma AlgorithmParses()
    ensures ParseAlgorithm(Identifier()) == Some(RSA_ENCRYPTION)
  {
    ElementRoundTripIff(OBJECT_IDENTIFIER, RSA_ENCRYPTION, Element(NULL, []));
    ElementRoundTripIff(NULL, [], []);
    assert Element(NULL, []) + [] == Element(NULL, []);
  }

  lemma FieldsParse(key: Bytes)
    requires |key| < WORD
    ensures ParseFields(HEADER + Element(OCTET_STRING, key)) == Some(PrivateKeyInfo([0], RSA_ENCRYPTION, key))
  {
    var last := Element(OCTET_STRING, key);
    HeaderIsElements();
    assert HEADER + last == Element(INTEGER, [0]) + (Element(SEQUENCE, Identifier()) + last);
    ElementRoundTripIff(INTEGER, [0], Element(SEQUENCE, Identifier()) + last);
    assert |Identifier()| < WORD by { assert |RSA_ENCRYPTION| == 9; }
    ElementRoundTripIff(SEQUENCE, Identifier(), last);
    AlgorithmParses();
    ElementRoundTripIff(OCTET_STRING, key, []);
    assert last + [] == last;
  }

  /** The wrapped key is a PrivateKeyInfo of version 0, algorithm rsaEncryption and the original key,
      exactly when the whole content fits a 32-bit length. */
  lemma WrapRoundTripIff(key: Bytes)
    ensures
      ParsePrivateKeyInfo(Wrap(key)) == Some(PrivateKeyInfo([0], RSA_ENCRYPTION, key))
      <==> |HEADER| + |Element(OCTET_STRING, key)| < WORD
  {
    var inner := HEADER + Element(OCTET_STRING, key);
    assert Wrap(key) + [] == Wrap(key);
    if |inner| < WORD {
      ElementRoundTripIff(SEQUENCE, inner, []);
      FieldsParse(key);
    } else if Parse(Wrap(key)).Some? {
      LongElement(SEQUENCE, inner);
    }
  }

  // ----- Keys as they are configured -----

  predicate FoundAt(text: string, part: string, i: nat) {
    i + |part| <= |text| && text[i..i + |part|] == part
  }

  predicate Includes(text: string, part: string) {
    exists i: nat :: i <= |text| && FoundAt(text, part, i)
  }

  const DASHES: string := "-----"
  const BEGIN_PKCS8: string := "BEGIN PRIVATE KEY"
  const BEGIN_RSA: string := "BEGIN RSA PRIVATE KEY"

  /** How many characters in front are no dash. */
  function Undashed(text: string): (n: nat)
    ensures n <= |text|
  {
    if |text| == 0 || text[0] == '-' then 0 else 1 + Undashed(text[1..])
  }

  /** The length of the encapsulation boundary in front: five dashes, some other characters, five
      dashes; 0 where there is none. */
  function Boundary(text: string): (n: nat)
    ensures n <= |text|
  {
    if !(DASHES <= text) then 0
    else
      var n := Undashed(text[5..]);
      if n > 0 && DASHES <= text[5 + n..] then 5 + n + 5 else 0
  }

  /** The text without its encapsulation boundaries. */
  function Body(text: string): string
    decreases |text|
  {
    if |text| == 0 then []
    else if Boundary(text) > 0 then Body(text[Boundary(text)..])
    else [text[0]] + Body(text[1..])
  }

  /** White space as regular expressions understand it. */
  predicate IsSpace(c: char) {
    || '\t' <= c <= '\r' || c == ' ' || c == '\U{a0}' || c == '\U{1680}' || '\U{2000}' <= c <= '\U{200a}'
    || c == '\U{2028}' || c == '\U{2029}' || c == '\U{202f}' || c == '\U{205f}' || c == '\U{3000}' || c == '\U{feff}'
  }

  function Unspaced(text: string): string {
    if |text| == 0 then [] else (if IsSpace(text[0]) then [] else [text[0]]) + Unspaced(text[1..])
  }

  datatype Import = Imported(bytes: Bytes) | NotBase64 | NotRsa

  /** `unbase64` fails on a text that is not base64. */
  function Pkcs8(pem: string, unbase64: string -> Option<Bytes>): Import {
    match unbase64(Unspaced(Body(pem)))
    case None => NotBase64
    case Some(bytes) =>
      if Includes(pem, BEGIN_PKCS8) then Imported(bytes)
      else if !Includes(pem, BEGIN_RSA) then NotRsa
      else Imported(Wrap(bytes))
  }

  // ----- The textual encoding (section 2 of RFC 7468) -----

  predicate NoDash(text: string) {
    forall i :: 0 <= i < |text| ==> text[i] != '-'
  }

  /** Lines of base64: no dashes, and no spaces either. */
  predicate Lines(text: string) {
    NoDash(text) && forall i :: 0 <= i < |text| ==> text[i] != ' '
  }

  function Around(name: string): string {
    DASHES + name + DASHES
  }

  function Pem(begin: string, body: string, end: string): string {
    Around(begin) + body + Around(end)
  }

  lemma {:induction false} UndashedIs(text: string, tail: string)
    requires NoDash(text) && |tail| > 0 && tail[0] == '-'
    ensures Undashed(text + tail) == |text|
    decreases |text|
  {
    if |text| > 0 {
      assert (text + tail)[1..] == text[1..] + tail;
      UndashedIs(text[1..], tail);
    } else {
      assert text + tail == tail;
    }
  }

  lemma BoundaryIs(name: string, tail: string)
    requires NoDash(name) && |name| > 0
    ensures Boundary(Around(name) + tail) == |Around(name)|
  {
    var all := Around(name) + tail;
    assert all[5..] == name + (DASHES + tail);
    UndashedIs(name, DASHES + tail);
    assert all[5 + |name|..] == DASHES + tail;
  }

  lemma {:induction false} BodyOfPlain(text: string, tail: string)
    requires NoDash(text)
    ensures Body(text + tail) == text + Body(tail)
    decreases |text|
  {
    if |text| > 0 {
      assert (text + tail)[0] == text[0] != DASHES[0];
      assert (text + tail)[1..] == text[1..] + tail;
      BodyOfPlain(text[1..], tail);
    } else {
      assert text + tail == tail;
    }
  }

  lemma BodyAfterBoundary(name: string, tail: string)
    requires NoDash(name) && |name| > 0
    ensures Body(Around(name) + tail) == Body(tail)
  {
    BoundaryIs(name, tail);
    assert (Around(name) + tail)[|Around(name)|..] == tail;
  }

  /** What is left of a PEM text is exactly what stands between and after its boundaries. */
  lemma BodyOfPem(begin: string, body: string, end: string, tail: string)
    requires NoDash(begin) && |begin| > 0 && NoDash(end) && |end| > 0 && NoDash(body) && NoDash(tail)
    ensures Body(Pem(begin, body, end) + tail) == body + tail
  {
    assert Pem(begin, body, end) + tail == Around(begin) + (body + (Around(end) + tail));
    BodyAfterBoundary(begin, body + (Around(end) + tail));
    BodyOfPlain(body, Around(end) + tail);
    BodyAfterBoundary(end, tail);
    BodyOfPlain(tail, []);
    assert tail + [] == tail;
  }

  const END_PKCS8: string := "END PRIVATE KEY"
  const END_RSA: string := "END RSA PRIVATE KEY"

  /** The boundaries of a PKCS#1 text, character by character where it matters: their spaces, eight
      apart only where no "B" comes five in front. */
  lemma RsaBoundaries()
    ensures NoDash(BEGIN_RSA) && NoDash(END_RSA)
    ensures Spaced(Around(BEGIN_RSA), 9) && Spaced(Around(END_RSA), 7)
    ensures |BEGIN_PKCS8| == 17 && BEGIN_PKCS8[0] == 'B' && BEGIN_PKCS8[5] == BEGIN_PKCS8[13] == ' '
  {}

  lemma Pkcs8Boundaries()
    ensures NoDash(BEGIN_PKCS8) && NoDash(END_PKCS8)
  {}

  /** The only two spaces of a boundary that are eight apart are the ones five and thirteen after `n`. */
  predicate Spaced(text: string, n: nat) {
    && n + 13 < |text| && text[n] != 'B' && |text| >= n + 21
    && forall k :: 0 <= k < |text| && text[k] == ' ' ==> k == n + 1 || k == n + 5 || k == n + 13
  }

  /** A title with spaces eight apart is found in no text between two such boundaries. */
  lemma TitleIsElsewhere(begin: string, body: string, end: string, tail: string, title: string, i: nat)
    requires Spaced(begin, 9) && Spaced(end, 7) && Lines(body) && Lines(tail)
    requires |title| == 17 && title[0] == 'B' && title[5] == title[13] == ' '
    ensures !FoundAt(begin + body + end + tail, title, i)
  {
    var all := begin + body + end + tail;
    if FoundAt(all, title, i) {
      assert all[i..i + 17][0] == all[i] && all[i..i + 17][5] == all[i + 5] && all[i..i + 17][13] == all[i + 13];
      SpaceAt(begin, body, end, tail, i + 5);
      SpaceAt(begin, body, end, tail, i + 13);
    }
  }

  lemma SpaceAt(begin: string, body: string, end: string, tail: string, k: nat)
    requires Spaced(begin, 9) && Spaced(end, 7) && Lines(body) && Lines(tail)
    ensures
      var all := begin + body + end + tail;
      var n := |begin| + |body|;
      k < |all| && all[k] == ' ' ==>
        || k == 10 || k == 14 || k == 22
        || k == n + 8 || k == n + 12 || k == n + 20
  {
    var all := begin + body + end + tail;
    assert all[..|begin|] == begin;
    assert all[|begin|..|begin| + |body|] == body;
    assert all[|begin| + |body|..|begin| + |body| + |end|] == end;
    assert all[|begin| + |body| + |end|..] == tail;
  }

  lemma NameIsIncluded(name: string, rest: string)
    ensures Includes(Around(name) + rest, name)
  {
    assert FoundAt(Around(name) + rest, name, 5);
  }

  /** A PKCS#1 text is recognized as one, and not taken for the other form. */
  lemma RsaIsRecognized(body: string, tail: string)
    requires Lines(body) && Lines(tail)
    ensures !Includes(Pem(BEGIN_RSA, body, END_RSA) + tail, BEGIN_PKCS8)
    ensures Includes(Pem(BEGIN_RSA, body, END_RSA) + tail, BEGIN_RSA)
  {
    RsaBoundaries();
    var begin, end := Around(BEGIN_RSA), Around(END_RSA);
    forall i: nat
      ensures !FoundAt(begin + body + end + tail, BEGIN_PKCS8, i)
    {
      TitleIsElsewhere(begin, body, end, tail, BEGIN_PKCS8, i);
    }
    assert begin + body + end + tail == begin + (body + end + tail);
    NameIsIncluded(BEGIN_RSA, body + end + tail);
  }

  lemma Pkcs1TextImports(key: Bytes, body: string, tail: string, unbase64: string -> Option<Bytes>)
    requires Lines(body) && Lines(tail) && unbase64(Unspaced(body + tail)) == Some(key)
    ensures Pkcs8(Pem(BEGIN_RSA, body, END_RSA) + tail, unbase64) == Imported(Wrap(key))
  {
    RsaBoundaries();
    BodyOfPem(BEGIN_RSA, body, END_RSA, tail);
    RsaIsRecognized(body, tail);
  }

  lemma Pkcs8TextImports(bytes: Bytes, body: string, tail: string, unbase64: string -> Option<Bytes>)
    requires NoDash(body) && NoDash(tail) && unbase64(Unspaced(body + tail)) == Some(bytes)
    ensures Pkcs8(Pem(BEGIN_PKCS8, body, END_PKCS8) + tail, unbase64) == Imported(bytes)
  {
    Pkcs8Boundaries();
    BodyOfPem(BEGIN_PKCS8, body, END_PKCS8, tail);
    Pkcs8IsRecognized(body, tail);
  }

  lemma Pkcs8IsRecognized(body: string, tail: string)
    ensures Includes(Pem(BEGIN_PKCS8, body, END_PKCS8) + tail, BEGIN_PKCS8)
  {
    var begin, end := Around(BEGIN_PKCS8), Around(END_PKCS8);
    assert begin + body + end + tail == begin + (body + end + tail);
    NameIsIncluded(BEGIN_PKCS8, body + end + tail);
  }

  /** From a PKCS#1 text of a key and from a PKCS#8 text of the same key, however their lines are broken,
      the same PrivateKeyInfo of that key is imported: `unbase64` gives back the bytes that the lines
      of each text encode. */
  lemma EitherFormImports(key: Bytes, body: string, other: string, tail: string, unbase64: string -> Option<Bytes>)
    requires |HEADER| + |Element(OCTET_STRING, key)| < WORD && Lines(body) && Lines(other) && Lines(tail)
    requires unbase64(Unspaced(body + tail)) == Some(key) && unbase64(Unspaced(other + tail)) == Some(Wrap(key))
    ensures
      var r := Pkcs8(Pem(BEGIN_RSA, body, END_RSA) + tail, unbase64);
      && r == Pkcs8(Pem(BEGIN_PKCS8, other, END_PKCS8) + tail, unbase64)
      && r.Imported? && ParsePrivateKeyInfo(r.bytes) == Some(PrivateKeyInfo([0], RSA_ENCRYPTION, key))
  {
    WrapRoundTripIff(key);
    Pkcs1TextImports(key, body, tail, unbase64);
    Pkcs8TextImports(Wrap(key), other, tail, unbase64);
  }
}
