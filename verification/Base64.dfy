/**
 Base64 (RFC 4648) as Go's encoding/base64 reads and writes it. The service uses
 the unpadded URL-safe alphabet for tokens and sealed values, and the padded
 standard alphabet for its key files.

 The decoder is the lenient one the source calls: it skips '\r' and '\n'
 anywhere, and it ignores the spare low bits of a final partial group.
 */
module Base64 {
  import opened Wrappers

  type Byte = b: int | 0 <= b < 256
  type Bytes = seq<Byte>
  type Digit = d: int | 0 <= d < 64

  datatype Encoding = RawURL | Std

  function Symbol(e: Encoding, d: Digit): (c: char) {
    if d < 26 then 'A' + d as char
    else if d < 52 then 'a' + (d - 26) as char
    else if d < 62 then '0' + (d - 52) as char
    else if d == 62 then (if e.RawURL? then '-' else '+')
    else (if e.RawURL? then '_' else '/')
  }

  function Value(e: Encoding, c: char): (d: Option<Digit>) {
    if 'A' <= c <= 'Z' then Some(c as int - 'A' as int)
    else if 'a' <= c <= 'z' then Some(c as int - 'a' as int + 26)
    else if '0' <= c <= '9' then Some(c as int - '0' as int + 52)
    else if c == (if e.RawURL? then '-' else '+') then Some(62)
    else if c == (if e.RawURL? then '_' else '/') then Some(63)
    else None
  }

  // Three bytes are four digits: First, Second, Third and Last cut the digits out,
  // Byte0, Byte1 and Byte2 put the bytes back together.

  function First(b0: Byte): Digit { b0 / 4 }
  function Second(b0: Byte, b1: Byte): Digit { b0 % 4 * 16 + b1 / 16 }
  function Third(b1: Byte, b2: Byte): Digit { b1 % 16 * 4 + b2 / 64 }
  function Last(b2: Byte): Digit { b2 % 64 }

  function Byte0(d0: Digit, d1: Digit): Byte { var b: int := d0 * 4 + d1 / 16; b }
  function Byte1(d1: Digit, d2: Digit): Byte { var b: int := d1 % 16 * 16 + d2 / 4; b }
  function Byte2(d2: Digit, d3: Digit): Byte { var b: int := d2 % 4 * 64 + d3; b }

  // The groups of two, three and four symbols that carry one, two and three bytes.

  function Symbols1(e: Encoding, b0: Byte): (s: string)
    ensures |s| == 2
  {
    [Symbol(e, First(b0)), Symbol(e, Second(b0, 0))]
  }

  function Symbols2(e: Encoding, b0: Byte, b1: Byte): (s: string)
    ensures |s| == 3
  {
    [Symbol(e, First(b0)), Symbol(e, Second(b0, b1)), Symbol(e, Third(b1, 0))]
  }

  function Symbols3(e: Encoding, b0: Byte, b1: Byte, b2: Byte): (s: string)
    ensures |s| == 4
  {
    [Symbol(e, First(b0)), Symbol(e, Second(b0, b1)), Symbol(e, Third(b1, b2)), Symbol(e, Last(b2))]
  }

  function Padding(e: Encoding, n: nat): string {
    if e.Std? then seq(n, i => '=') else ""
  }

  function Encode(e: Encoding, b: Bytes): string {
    if |b| == 0 then ""
    else if |b| == 1 then Symbols1(e, b[0]) + Padding(e, 2)
    else if |b| == 2 then Symbols2(e, b[0], b[1]) + Padding(e, 1)
    else Symbols3(e, b[0], b[1], b[2]) + Encode(e, b[3..])
  }

  function Bytes1(e: Encoding, c0: char, c1: char): Option<Bytes> {
    match (Value(e, c0), Value(e, c1))
    case (Some(d0), Some(d1)) => Some([Byte0(d0, d1)])
    case _ => None
  }

  function Bytes2(e: Encoding, c0: char, c1: char, c2: char): Option<Bytes> {
    match (Value(e, c0), Value(e, c1), Value(e, c2))
    case (Some(d0), Some(d1), Some(d2)) => Some([Byte0(d0, d1), Byte1(d1, d2)])
    case _ => None
  }

  function Bytes3(e: Encoding, c0: char, c1: char, c2: char, c3: char): Option<Bytes> {
    match (Value(e, c0), Value(e, c1), Value(e, c2), Value(e, c3))
    case (Some(d0), Some(d1), Some(d2), Some(d3)) =>
      Some([Byte0(d0, d1), Byte1(d1, d2), Byte2(d2, d3)])
    case _ => None
  }

  function StripNewlines(s: string): string {
    if s == "" then ""
    else if s[0] == '\n' || s[0] == '\r' then StripNewlines(s[1..])
    else [s[0]] + StripNewlines(s[1..])
  }

  /** Decodes newline-free text group by group. */
  function DecodeGroups(e: Encoding, s: string): Option<Bytes> {
    if |s| == 0 then Some([])
    else if e.Std? && |s| >= 4 && s[3] == '=' then
      if |s| > 4 then None
      else if s[2] == '=' then Bytes1(e, s[0], s[1])
      else Bytes2(e, s[0], s[1], s[2])
    else if |s| >= 4 then
      match (Bytes3(e, s[0], s[1], s[2], s[3]), DecodeGroups(e, s[4..]))
      case (Some(group), Some(rest)) => Some(group + rest)
      case _ => None
    else if e.RawURL? && |s| == 2 then Bytes1(e, s[0], s[1])
    else if e.RawURL? && |s| == 3 then Bytes2(e, s[0], s[1], s[2])
    else None
  }

  function Decode(e: Encoding, s: string): Option<Bytes> {
    DecodeGroups(e, StripNewlines(s))
  }

  /** A character the encoder can emit. */
  predicate IsCodeChar(e: Encoding, c: char) {
    Value(e, c).Some? || (e.Std? && c == '=')
  }

  lemma ValueOfSymbol(e: Encoding, d: Digit)
    ensures Value(e, Symbol(e, d)) == Some(d)
  {}

  lemma SymbolOfValue(e: Encoding, c: char)
    ensures Value(e, c).Some? ==> Symbol(e, Value(e, c).value) == c
  {}

  lemma JoinOfSplit(b0: Byte, b1: Byte, b2: Byte)
    ensures Byte0(First(b0), Second(b0, b1)) == b0
    ensures Byte1(Second(b0, b1), Third(b1, b2)) == b1
    ensures Byte2(Third(b1, b2), Last(b2)) == b2
  {}

  lemma SplitOfJoin(d0: Digit, d1: Digit, d2: Digit, d3: Digit)
    ensures First(Byte0(d0, d1)) == d0
    ensures Second(Byte0(d0, d1), Byte1(d1, d2)) == d1
    ensures Third(Byte1(d1, d2), Byte2(d2, d3)) == d2
    ensures Last(Byte2(d2, d3)) == d3
  {}

  lemma Group1RoundTrip(e: Encoding, b0: Byte)
    ensures var s := Symbols1(e, b0); Bytes1(e, s[0], s[1]) == Some([b0])
  {
    ValueOfSymbol(e, First(b0));
    ValueOfSymbol(e, Second(b0, 0));
  }

  lemma Group2RoundTrip(e: Encoding, b0: Byte, b1: Byte)
    ensures var s := Symbols2(e, b0, b1); Bytes2(e, s[0], s[1], s[2]) == Some([b0, b1]) && s[2] != '='
  {
    ValueOfSymbol(e, First(b0));
    ValueOfSymbol(e, Second(b0, b1));
    ValueOfSymbol(e, Third(b1, 0));
    JoinOfSplit(b0, b1, 0);
  }

  lemma Group3RoundTrip(e: Encoding, b0: Byte, b1: Byte, b2: Byte)
    ensures var s := Symbols3(e, b0, b1, b2);
      Bytes3(e, s[0], s[1], s[2], s[3]) == Some([b0, b1, b2]) && s[3] != '='
  {
    ValueOfSymbol(e, First(b0));
    ValueOfSymbol(e, Second(b0, b1));
    ValueOfSymbol(e, Third(b1, b2));
    ValueOfSymbol(e, Last(b2));
    JoinOfSplit(b0, b1, b2);
  }

  function EncodedLength(e: Encoding, n: nat): nat {
    if e.Std? then (n + 2) / 3 * 4 else (n * 4 + 2) / 3
  }

  lemma GroupLength(e: Encoding, n: nat)
    requires n >= 3
    ensures EncodedLength(e, n) == 4 + EncodedLength(e, n - 3)
  {}

  lemma GroupChars(e: Encoding, b0: Byte, b1: Byte, b2: Byte)
    ensures forall c | c in Symbols3(e, b0, b1, b2) :: IsCodeChar(e, c)
    ensures forall c | c in Symbols2(e, b0, b1) + Padding(e, 1) :: IsCodeChar(e, c)
    ensures forall c | c in Symbols1(e, b0) + Padding(e, 2) :: IsCodeChar(e, c)
  {
    hide First, Second, Third, Last;
    forall d: Digit ensures IsCodeChar(e, Symbol(e, d)) { ValueOfSymbol(e, d); }
  }

  lemma {:induction false} EncodedChars(e: Encoding, b: Bytes)
    ensures forall c | c in Encode(e, b) :: IsCodeChar(e, c)
    ensures |Encode(e, b)| == EncodedLength(e, |b|)
  {
    hide First, Second, Third, Last, Symbol, IsCodeChar;
    if |b| == 1 {
      GroupChars(e, b[0], 0, 0);
    } else if |b| == 2 {
      GroupChars(e, b[0], b[1], 0);
    } else if |b| >= 3 {
      GroupChars(e, b[0], b[1], b[2]);
      GroupLength(e, |b|);
      EncodedChars(e, b[3..]);
    }
  }

  lemma {:induction false} StripNothing(s: string)
    requires '\n' !in s && '\r' !in s
    ensures StripNewlines(s) == s
  {
    if s != "" {
      StripNothing(s[1..]);
    }
  }

  lemma {:induction false} StripConcat(a: string, b: string)
    ensures StripNewlines(a + b) == StripNewlines(a) + StripNewlines(b)
  {
    if a == "" {
      assert a + b == b;
    } else {
      StripConcat(a[1..], b);
      assert (a + b)[0] == a[0] && (a + b)[1..] == a[1..] + b;
      var rest, more := StripNewlines(a[1..]), StripNewlines(b);
      assert [a[0]] + (rest + more) == ([a[0]] + rest) + more;
    }
  }

  /** Carriage returns and line feeds are dropped wherever they stand, and nothing else is. */
  lemma StripExact(a: string, c: char, b: string)
    ensures StripNewlines(a + [c] + b)
         == StripNewlines(a) + (if c as int == 10 || c as int == 13 then "" else [c]) + StripNewlines(b)
    ensures StripNewlines("") == ""
  {
    StripConcat(a + [c], b);
    StripConcat(a, [c]);
  }

  lemma {:induction false} GroupsOfEncoded(e: Encoding, b: Bytes)
    ensures DecodeGroups(e, Encode(e, b)) == Some(b)
  {
    hide First, Second, Third, Last, Symbol, Bytes1, Bytes2, Bytes3;
    if |b| == 1 {
      Group1RoundTrip(e, b[0]);
      assert b == [b[0]];
    } else if |b| == 2 {
      Group2RoundTrip(e, b[0], b[1]);
      assert b == [b[0], b[1]];
    } else if |b| >= 3 {
      Group3RoundTrip(e, b[0], b[1], b[2]);
      GroupsOfEncoded(e, b[3..]);
      assert Encode(e, b)[4..] == Encode(e, b[3..]);
      assert b == [b[0], b[1], b[2]] + b[3..];
    }
  }

  /** Decoding undoes encoding, in both alphabets. */
  lemma RoundTrip(e: Encoding, b: Bytes)
    ensures Decode(e, Encode(e, b)) == Some(b)
  {
    hide DecodeGroups;
    EncodedChars(e, b);
    StripNothing(Encode(e, b));
    GroupsOfEncoded(e, b);
  }

  /** Encoded text never contains the token separator. */
  lemma NoDot(b: Bytes)
    ensures '.' !in Encode(RawURL, b)
  {
    EncodedChars(RawURL, b);
  }

  // ---- The text as a number ----

  function At(b: Bytes, i: nat): Byte {
    if i < |b| then b[i] else 0
  }

  /** Three bytes from position 3 * i, as one big-endian number; bytes beyond the end are zero. */
  function Group(b: Bytes, i: nat): (n: nat)
    ensures n < 0x1000000
  {
    At(b, 3 * i) * 65536 + At(b, 3 * i + 1) * 256 + At(b, 3 * i + 2)
  }

  lemma NumberOfDigits(b0: Byte, b1: Byte, b2: Byte)
    ensures b0 * 65536 + b1 * 256 + b2 == First(b0) * 262144 + Second(b0, b1) * 4096 + Third(b1, b2) * 64 + Last(b2)
  {}

  lemma DigitsOfNumber(d0: Digit, d1: Digit, d2: Digit, d3: Digit, n: nat)
    requires n == d0 * 262144 + d1 * 4096 + d2 * 64 + d3
    ensures n / 262144 == d0 && n / 4096 % 64 == d1 && n / 64 % 64 == d2 && n % 64 == d3
  {
    assert n / 64 == d0 * 4096 + d1 * 64 + d2;
    assert n / 4096 == d0 * 64 + d1;
  }

  /** The digits from position 4 * i of an encoding are those of the number `n`, as far as `left` bytes reach. */
  predicate Digits(e: Encoding, t: string, i: nat, n: nat, left: nat)
    requires n < 0x1000000
  {
    && |t| >= 4 * i + (if left >= 3 || e.Std? then 4 else left + 1)
    && left >= 1
    && Value(e, t[4 * i]) == Some(n / 262144)
    && Value(e, t[4 * i + 1]) == Some(n / 4096 % 64)
    && (left >= 2 ==> Value(e, t[4 * i + 2]) == Some(n / 64 % 64))
    && (left >= 3 ==> Value(e, t[4 * i + 3]) == Some(n % 64))
    && (e.Std? && left == 1 ==> t[4 * i + 2] == '=')
    && (e.Std? && left <= 2 ==> t[4 * i + 3] == '=')
  }

  lemma FirstGroup(e: Encoding, b: Bytes)
    requires b != []
    ensures Digits(e, Encode(e, b), 0, Group(b, 0), |b|)
  {
    hide First, Second, Third, Last, Symbol, Value;
    var b0, b1, b2 := b[0], At(b, 1), At(b, 2);
    NumberOfDigits(b0, b1, b2);
    DigitsOfNumber(First(b0), Second(b0, b1), Third(b1, b2), Last(b2), Group(b, 0));
    ValueOfSymbol(e, First(b0));
    ValueOfSymbol(e, Second(b0, b1));
    ValueOfSymbol(e, Third(b1, b2));
    ValueOfSymbol(e, Last(b2));
  }

  lemma LaterGroup(e: Encoding, head: string, t: string, i: nat, n: nat, left: nat)
    requires n < 0x1000000 && |head| == 4 && Digits(e, t, i, n, left)
    ensures Digits(e, head + t, i + 1, n, left)
  {
    hide Value;
    assert (head + t)[4 * (i + 1)] == t[4 * i] && (head + t)[4 * (i + 1) + 1] == t[4 * i + 1];
    assert left >= 2 || e.Std? ==> (head + t)[4 * (i + 1) + 2] == t[4 * i + 2];
    assert left >= 3 || e.Std? ==> (head + t)[4 * (i + 1) + 3] == t[4 * i + 3];
  }

  /**
   Every three bytes read as one number are the four digits of that number in base 64; a final
   group of one or two bytes has two or three digits, and two or one '=' in the padded alphabet.
   */
  lemma {:induction false} EncodedGroup(e: Encoding, b: Bytes, i: nat)
    requires 3 * i < |b|
    ensures Digits(e, Encode(e, b), i, Group(b, i), |b| - 3 * i)
  {
    hide Digits, Symbols1, Symbols2;
    if i > 0 {
      EncodedGroup(e, b[3..], i - 1);
      LaterGroup(e, Symbols3(e, b[0], b[1], b[2]), Encode(e, b[3..]), i - 1, Group(b[3..], i - 1), |b| - 3 * i);
      assert Group(b, i) == Group(b[3..], i - 1);
    } else {
      FirstGroup(e, b);
    }
  }

  /** Test vectors: the last of section 10 of RFC 4648, and the two symbols in which the alphabets differ. */
  lemma Vectors()
    ensures Encode(Std, [0x66, 0x6f, 0x6f, 0x62, 0x61, 0x72]) == "Zm9vYmFy"
    ensures Encode(RawURL, [0xfb, 0xff]) == "-_8" && Encode(Std, [0xfb, 0xff]) == "+/8="
  {
    var foobar: Bytes := [0x66, 0x6f, 0x6f, 0x62, 0x61, 0x72];
    assert foobar[3..] == [0x62, 0x61, 0x72] && foobar[3..][3..] == [];
    assert Symbols3(Std, 0x66, 0x6f, 0x6f) == "Zm9v" && Symbols3(Std, 0x62, 0x61, 0x72) == "YmFy";
    assert Symbols2(RawURL, 0xfb, 0xff) == "-_8" && Symbols2(Std, 0xfb, 0xff) == "+/8";
  }

  // ---- What else the lenient decoder accepts ----

  /** How many final digits read back as the same last byte of an n-byte value. */
  function SpareValues(n: nat): (k: nat)
    ensures k > 0
  {
    if n % 3 == 0 then 1 else if n % 3 == 1 then 16 else 4
  }

  predicate SameHighBits(e: Encoding, c: char, d: char, spare: nat)
    requires spare > 0
  {
    match (Value(e, c), Value(e, d))
    case (Some(x), Some(y)) => x / spare == y / spare
    case _ => false
  }

  /** How many digits n bytes take; in the padded alphabet '=' signs follow them. */
  function DigitCount(n: nat): nat {
    (n * 4 + 2) / 3
  }

  /** `s` is the canonical text of `b`, except perhaps for the spare bits of its last digit. */
  predicate Spells(e: Encoding, s: string, b: Bytes) {
    Agrees(e, s, Encode(e, b), DigitCount(|b|), SpareValues(|b|))
  }

  /** The texts agree, except perhaps for the low bits of the m-th symbol. */
  predicate Agrees(e: Encoding, s: string, t: string, m: nat, spare: nat)
    requires spare > 0
  {
    && |s| == |t| >= m && s[m..] == t[m..]
    && (m > 0 ==> s[..m - 1] == t[..m - 1] && SameHighBits(e, s[m - 1], t[m - 1], spare))
  }

  lemma AgreesShift(e: Encoding, s: string, head: string, rest: string, m: nat, spare: nat)
    requires spare > 0 && |head| == 4 && |s| >= 4 && 1 <= m <= |rest|
    ensures Agrees(e, s, head + rest, 4 + m, spare) <==> s[..4] == head && Agrees(e, s[4..], rest, m, spare)
  {
    hide SameHighBits;
    if |s| == 4 + |rest| {
      SplitEqual(s, head, rest, m - 1);
      SplitEqual(s, head, rest, m);
      assert (head + rest)[4 + m - 1] == rest[m - 1] && s[4 + m - 1] == s[4..][m - 1];
    }
  }

  lemma SpareOfOne(d0: Digit, d1: Digit, b0: Byte)
    ensures Byte0(d0, d1) == b0 <==> d0 == First(b0) && d1 / 16 == Second(b0, 0) / 16
  {}

  lemma SpareOfTwo(d0: Digit, d1: Digit, d2: Digit, b0: Byte, b1: Byte)
    ensures Byte0(d0, d1) == b0 && Byte1(d1, d2) == b1
       <==> d0 == First(b0) && d1 == Second(b0, b1) && d2 / 4 == Third(b1, 0) / 4
  {}

  lemma SymbolIs(e: Encoding, c: char, d: Digit)
    ensures c == Symbol(e, d) <==> Value(e, c) == Some(d)
  {
    ValueOfSymbol(e, d);
    SymbolOfValue(e, c);
  }

  lemma Bytes1Exact(e: Encoding, c0: char, c1: char, b0: Byte)
    ensures var t := Symbols1(e, b0);
      Bytes1(e, c0, c1) == Some([b0]) <==> c0 == t[0] && SameHighBits(e, c1, t[1], 16)
  {
    SymbolIs(e, c0, First(b0));
    SymbolIs(e, Symbols1(e, b0)[1], Second(b0, 0));
    match (Value(e, c0), Value(e, c1))
    case (Some(d0), Some(d1)) => SpareOfOne(d0, d1, b0);
    case _ =>
  }

  lemma Bytes2Exact(e: Encoding, c0: char, c1: char, c2: char, b0: Byte, b1: Byte)
    ensures var t := Symbols2(e, b0, b1);
      Bytes2(e, c0, c1, c2) == Some([b0, b1]) <==> c0 == t[0] && c1 == t[1] && SameHighBits(e, c2, t[2], 4)
  {
    SymbolIs(e, c0, First(b0));
    SymbolIs(e, c1, Second(b0, b1));
    SymbolIs(e, Symbols2(e, b0, b1)[2], Third(b1, 0));
    match (Value(e, c0), Value(e, c1), Value(e, c2))
    case (Some(d0), Some(d1), Some(d2)) => SpareOfTwo(d0, d1, d2, b0, b1);
    case _ =>
  }

  lemma Bytes3Exact(e: Encoding, s: string, b0: Byte, b1: Byte, b2: Byte)
    requires |s| == 4
    ensures Bytes3(e, s[0], s[1], s[2], s[3]) == Some([b0, b1, b2]) <==> s == Symbols3(e, b0, b1, b2)
  {
    Group3RoundTrip(e, b0, b1, b2);
    SymbolOfValue(e, s[0]);
    SymbolOfValue(e, s[1]);
    SymbolOfValue(e, s[2]);
    SymbolOfValue(e, s[3]);
    if Value(e, s[0]).Some? && Value(e, s[1]).Some? && Value(e, s[2]).Some? && Value(e, s[3]).Some? {
      SplitOfJoin(Value(e, s[0]).value, Value(e, s[1]).value, Value(e, s[2]).value, Value(e, s[3]).value);
    }
  }

  lemma SplitEqual(s: string, head: string, rest: string, n: nat)
    requires |s| == |head| + |rest| && n <= |rest|
    ensures s[..|head| + n] == (head + rest)[..|head| + n] <==> s[..|head|] == head && s[|head|..][..n] == rest[..n]
    ensures s[|head| + n..] == s[|head|..][n..] && (head + rest)[|head| + n..] == rest[n..]
  {
    assert s[..|head| + n] == s[..|head|] + s[|head|..][..n];
    assert (head + rest)[..|head| + n] == head + rest[..n];
  }

  lemma SpellsOneGroup(e: Encoding, s: string, b0: Byte, b1: Byte, b2: Byte)
    requires |s| == 4
    ensures Spells(e, s, [b0, b1, b2]) <==> s == Symbols3(e, b0, b1, b2)
  {
    var t := Symbols3(e, b0, b1, b2);
    var b: Bytes := [b0, b1, b2];
    assert b[3..] == [] && Encode(e, b) == t + "" == t;
    SymbolIs(e, s[3], Last(b2));
    SymbolIs(e, t[3], Last(b2));
    assert DigitCount(3) == 4 && SpareValues(3) == 1;
    assert SameHighBits(e, s[3], t[3], 1) <==> s[3] == t[3];
    assert s == s[..3] + [s[3]] && t == t[..3] + [t[3]];
  }

  lemma Period(n: nat)
    requires n >= 3
    ensures SpareValues(n) == SpareValues(n - 3) && DigitCount(n) == 4 + DigitCount(n - 3)
    ensures n > 3 ==> DigitCount(n - 3) >= 1
  {}

  lemma DigitsFit(e: Encoding, b: Bytes)
    ensures DigitCount(|b|) <= |Encode(e, b)|
  {
    EncodedChars(e, b);
  }

  lemma EncodeGroup(e: Encoding, b: Bytes)
    requires |b| >= 3
    ensures Encode(e, b) == Symbols3(e, b[0], b[1], b[2]) + Encode(e, b[3..])
    ensures |b| == 3 ==> Encode(e, b[3..]) == ""
  {}

  lemma SpellsGroup(e: Encoding, s: string, b: Bytes)
    requires |s| >= 4 && |b| >= 3
    ensures Spells(e, s, b) <==> s[..4] == Symbols3(e, b[0], b[1], b[2]) && Spells(e, s[4..], b[3..])
  {
    EncodeGroup(e, b);
    Period(|b|);
    DigitsFit(e, b[3..]);
    if |b| == 3 {
      assert b == [b[0], b[1], b[2]] && b[3..] == [];
      SpellsLength(e, s, b);
      SpellsLength(e, s[4..], b[3..]);
      if |s| == 4 {
        hide Spells, Symbols3;
        assert s[..4] == s && s[4..] == "";
        SpellsOneGroup(e, s, b[0], b[1], b[2]);
        NothingSpells(e);
      }
    } else {
      hide Symbols3, SpareValues, EncodedLength, DigitCount, Agrees, Encode;
      AgreesShift(e, s, Symbols3(e, b[0], b[1], b[2]), Encode(e, b[3..]), DigitCount(|b| - 3), SpareValues(|b|));
    }
  }

  lemma SpellsLength(e: Encoding, s: string, b: Bytes)
    ensures Spells(e, s, b) ==> |s| == |Encode(e, b)|
  {}

  lemma NothingSpells(e: Encoding)
    ensures Spells(e, "", [])
  {}

  /** One or two bytes, in the unpadded alphabet. */
  lemma LastExact(s: string, b: Bytes)
    requires 1 <= |b| <= 2
    ensures |s| == |b| + 1 ==>
      (Spells(RawURL, s, b) <==>
        if |b| == 1 then Bytes1(RawURL, s[0], s[1]) == Some(b) else Bytes2(RawURL, s[0], s[1], s[2]) == Some(b))
    ensures Spells(RawURL, s, b) ==> |s| == |b| + 1
  {
    hide First, Second, Third, Last, Symbol, Value, SameHighBits, Bytes1, Bytes2, Symbols1, Symbols2;
    if |s| == |b| + 1 {
      if |b| == 1 {
        var t := Symbols1(RawURL, b[0]);
        assert b == [b[0]] && s[..1] == [s[0]] && t[..1] == [t[0]] && Encode(RawURL, b) == t + "" == t;
        Bytes1Exact(RawURL, s[0], s[1], b[0]);
      } else {
        var t := Symbols2(RawURL, b[0], b[1]);
        assert b == [b[0], b[1]] && s[..2] == [s[0], s[1]] && t[..2] == [t[0], t[1]] && Encode(RawURL, b) == t + "" == t;
        Bytes2Exact(RawURL, s[0], s[1], s[2], b[0], b[1]);
      }
    }
  }

  /** The same, padded. */
  lemma PaddedExact(s: string, b: Bytes)
    requires 1 <= |b| <= 2
    ensures |s| == 4 ==>
      (Spells(Std, s, b) <==>
        if |b| == 1 then s[2] == '=' && s[3] == '=' && Bytes1(Std, s[0], s[1]) == Some(b)
        else s[3] == '=' && Bytes2(Std, s[0], s[1], s[2]) == Some(b))
    ensures Spells(Std, s, b) ==> |s| == 4
  {
    hide First, Second, Third, Last, Symbol, Value, SameHighBits, Bytes1, Bytes2, Symbols1, Symbols2;
    if |s| == 4 {
      if |b| == 1 {
        var t := Symbols1(Std, b[0]);
        assert b == [b[0]] && s[..1] == [s[0]] && s[2..] == [s[2], s[3]];
        assert Encode(Std, b) == t + "==" && (t + "==")[..1] == [t[0]] && (t + "==")[2..] == "==";
        Bytes1Exact(Std, s[0], s[1], b[0]);
      } else {
        var t := Symbols2(Std, b[0], b[1]);
        assert b == [b[0], b[1]] && s[..2] == [s[0], s[1]] && s[3..] == [s[3]];
        assert Encode(Std, b) == t + "=" && (t + "=")[..2] == [t[0], t[1]] && (t + "=")[3..] == "=";
        Bytes2Exact(Std, s[0], s[1], s[2], b[0], b[1]);
      }
    }
  }

  lemma BytesLengths(e: Encoding, s: string)
    ensures |s| >= 2 && Bytes1(e, s[0], s[1]).Some? ==> |Bytes1(e, s[0], s[1]).value| == 1
    ensures |s| >= 3 && Bytes2(e, s[0], s[1], s[2]).Some? ==> |Bytes2(e, s[0], s[1], s[2]).value| == 2
    ensures |s| >= 3 && s[2] == '=' ==> Bytes2(e, s[0], s[1], s[2]).None?
    ensures |s| >= 4 && Bytes3(e, s[0], s[1], s[2], s[3]).Some? ==> |Bytes3(e, s[0], s[1], s[2], s[3]).value| == 3
    ensures |s| >= 4 && s[3] == '=' ==> Bytes3(e, s[0], s[1], s[2], s[3]).None?
  {}

  lemma LongSpells(e: Encoding, s: string, b: Bytes)
    ensures |b| >= 3 && Spells(e, s, b) ==> |s| >= 4
    ensures b == [] ==> (Spells(e, s, b) <==> s == "")
  {
    EncodedChars(e, b);
  }

  lemma {:induction false} GroupsExact(e: Encoding, s: string, b: Bytes)
    ensures DecodeGroups(e, s) == Some(b) <==> Spells(e, s, b)
  {
    hide Spells, Bytes1, Bytes2, Bytes3;
    BytesLengths(e, s);
    LongSpells(e, s, b);
    if 1 <= |b| <= 2 {
      if e.RawURL? { LastExact(s, b); } else { PaddedExact(s, b); }
    }
    if |s| >= 4 && |b| >= 3 {
      Bytes3Exact(e, s[..4], b[0], b[1], b[2]);
      SpellsGroup(e, s, b);
      GroupsExact(e, s[4..], b[3..]);
      var group, rest := Bytes3(e, s[0], s[1], s[2], s[3]), DecodeGroups(e, s[4..]);
      assert b == [b[0], b[1], b[2]] + b[3..];
      if group.Some? && rest.Some? && group.value + rest.value == b {
        assert group.value == b[..3] && rest.value == b[3..];
      }
    }
  }

  /**
   Exactly which texts decode to `b`, in either alphabet: those that, newlines removed, agree with
   the canonical text and its padding on every symbol but the last digit, and there on the bits
   that count.
   */
  lemma DecodeExact(e: Encoding, s: string, b: Bytes)
    ensures Decode(e, s) == Some(b) <==> Spells(e, StripNewlines(s), b)
  {
    GroupsExact(e, StripNewlines(s), b);
  }

  // ---- A key file cut short ----

  lemma {:induction false} DecodedLength(s: string)
    requires DecodeGroups(Std, s).Some?
    ensures |s| % 4 == 0 && 4 * |DecodeGroups(Std, s).value| <= 3 * |s|
  {
    hide Value, Byte0, Byte1, Byte2;
    if |s| >= 4 && s[3] != '=' {
      DecodedLength(s[4..]);
      assert |DecodeGroups(Std, s).value| == 3 + |DecodeGroups(Std, s[4..]).value|;
    }
  }

  lemma StripPrefix(b: Bytes, n: nat)
    requires n <= |Encode(Std, b)|
    ensures StripNewlines(Encode(Std, b)[..n]) == Encode(Std, b)[..n]
  {
    EncodedChars(Std, b);
    forall c | c in Encode(Std, b)[..n] ensures IsCodeChar(Std, c) {}
    StripNothing(Encode(Std, b)[..n]);
  }

  lemma ShortGroups(k: nat, m: nat, n: nat)
    requires m < EncodedLength(Std, k) && m % 4 == 0 && 4 * n <= 3 * m
    ensures n < k
  {
    var groups := (k + 2) / 3;
    assert m <= 4 * (groups - 1);
  }

  /** A strict prefix of a key file never decodes to as many bytes as were written. */
  lemma PrefixIsShort(b: Bytes, n: nat)
    requires n < |Encode(Std, b)|
    ensures var r := Decode(Std, Encode(Std, b)[..n]); r.Some? ==> |r.value| < |b|
  {
    EncodedChars(Std, b);
    StripPrefix(b, n);
    var s := Encode(Std, b)[..n];
    if DecodeGroups(Std, s).Some? {
      DecodedLength(s);
      ShortGroups(|b|, n, |DecodeGroups(Std, s).value|);
    }
  }
}
