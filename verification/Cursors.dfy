/** Opaque page cursors (wa-shared/store/messages.go): two decimal int64s, separated by a colon, in
    the unpadded base64url of section 5 of RFC 4648. */
module Cursors {
  import opened Options

  type Int64 = x: int | -0x8000_0000_0000_0000 <= x < 0x8000_0000_0000_0000 witness 0

  // ---------------------------------------------------------------- decimal integers

  function DigitChar(d: int): (c: char)
    requires 0 <= d < 10
  {
    '0' + d as char
  }

  predicate IsDigit(c: char) {
    '0' <= c <= '9'
  }

  function FormatNat(n: nat): string {
    (if n < 10 then "" else FormatNat(n / 10)) + [DigitChar(n % 10)]
  }

  /** strconv.FormatInt(n, 10) */
  function FormatInt(n: int): string {
    if n < 0 then "-" + FormatNat(-n) else FormatNat(n)
  }

  function ParseNat(s: string): Option<nat> {
    if s == "" || !IsDigit(s[|s| - 1]) then None
    else
      var low := s[|s| - 1] as int - '0' as int;
      if |s| == 1 then Some(low)
      else
        match ParseNat(s[..|s| - 1])
        case None => None
        case Some(high) => Some(high * 10 + low)
  }

  /** strconv.ParseInt(s, 10, 64): an optional sign, digits, and a range check. */
  function ParseInt(s: string): Option<Int64> {
    if s == "" then None
    else
      var signed := s[0] == '-' || s[0] == '+';
      match ParseNat(if signed then s[1..] else s)
      case None => None
      case Some(magnitude) =>
        var n: int := magnitude;
        var v := if s[0] == '-' then -n else n;
        if -0x8000_0000_0000_0000 <= v < 0x8000_0000_0000_0000 then Some(v) else None
  }

  lemma {:induction false} FormattedNat(n: nat)
    ensures FormatNat(n) != "" && IsDigit(FormatNat(n)[0]) && ':' !in FormatNat(n) && ParseNat(FormatNat(n)) == Some(n)
  {
    var s := FormatNat(n);
    if n >= 10 {
      FormattedNat(n / 10);
      assert s[..|s| - 1] == FormatNat(n / 10);
    }
  }

  lemma ParseSigned(digits: string, n: nat, negative: bool)
    requires digits != "" && IsDigit(digits[0]) && ParseNat(digits) == Some(n)
    requires negative ==> n <= 0x8000_0000_0000_0000
    requires !negative ==> n < 0x8000_0000_0000_0000
    ensures ParseInt((if negative then "-" else "") + digits) == Some(if negative then 0 - n as int else n)
  {
    var s := (if negative then "-" else "") + digits;
    assert negative ==> s[1..] == digits;
    assert !negative ==> s == digits;
  }

  lemma FormattedInt(n: Int64)
    ensures FormatInt(n) != "" && ':' !in FormatInt(n) && ParseInt(FormatInt(n)) == Some(n)
    ensures FormatInt(n)[0] == '-' <==> n < 0
  {
    var m: int := n;
    var magnitude := if m < 0 then -m else m;
    FormattedNat(magnitude);
    ParseSigned(FormatNat(magnitude), magnitude, m < 0);
    assert "" + FormatNat(magnitude) == FormatNat(magnitude);
  }

  predicate Digits(s: string) {
    s != "" && forall i | 0 <= i < |s| :: '0' <= s[i] <= '9'
  }

  lemma {:induction false} NatParsesIff(s: string)
    ensures ParseNat(s).Some? <==> Digits(s)
  {
    if s != "" {
      var front := s[..|s| - 1];
      assert s == front + [s[|s| - 1]];
      if front != "" {
        NatParsesIff(front);
      }
    }
  }

  /** What is read as an integer: digits, after one sign or none, whose value fits 64 bits. */
  lemma IntParsesIff(s: string)
    ensures ParseInt(s).Some? <==>
      s != "" &&
      var digits := if s[0] == '-' || s[0] == '+' then s[1..] else s;
      Digits(digits) &&
      var n := ParseNat(digits);
      n.Some? && n.value <= if s[0] == '-' then 0x8000_0000_0000_0000 else 0x7fff_ffff_ffff_ffff
    ensures ParseInt(s).Some? ==>
      var digits := if s[0] == '-' || s[0] == '+' then s[1..] else s;
      var n := ParseNat(digits);
      n.Some? && ParseInt(s).value == if s[0] == '-' then 0 - n.value else n.value
  {
    if s != "" {
      NatParsesIff(if s[0] == '-' || s[0] == '+' then s[1..] else s);
    }
  }

  // ---------------------------------------------------------------- base64url

  function Sextet(v: int): (c: char)
    requires 0 <= v < 64
  {
    if v < 26 then 'A' + v as char
    else if v < 52 then 'a' + (v - 26) as char
    else if v < 62 then '0' + (v - 52) as char
    else if v == 62 then '-' else '_'
  }

  predicate IsSextet(c: char) {
    'A' <= c <= 'Z' || 'a' <= c <= 'z' || '0' <= c <= '9' || c == '-' || c == '_'
  }

  function SextetValue(c: char): (v: int)
    requires IsSextet(c)
    ensures 0 <= v < 64
  {
    if 'A' <= c <= 'Z' then c as int - 'A' as int
    else if 'a' <= c <= 'z' then c as int - 'a' as int + 26
    else if '0' <= c <= '9' then c as int - '0' as int + 52
    else if c == '-' then 62 else 63
  }

  lemma SextetInverse(v: int)
    requires 0 <= v < 64
    ensures IsSextet(Sextet(v)) && SextetValue(Sextet(v)) == v
  {
  }

  predicate IsBytes(s: string) {
    forall i | 0 <= i < |s| :: s[i] as int < 256
  }

  function Quad(u: int, v: int, w: int, x: int): string
    requires 0 <= u < 64 && 0 <= v < 64 && 0 <= w < 64 && 0 <= x < 64
  {
    [Sextet(u), Sextet(v), Sextet(w), Sextet(x)]
  }

  /** Three bytes become four characters. */
  function Group(a: char, b: char, c: char): string
    requires a as int < 256 && b as int < 256 && c as int < 256
  {
    var x, y, z := a as int, b as int, c as int;
    Quad(x / 4, x % 4 * 16 + y / 16, y % 16 * 4 + z / 64, z % 64)
  }

  /** One or two bytes left over become two or three characters; padding is not written. */
  function EncodeTail(s: string): (t: string)
    requires IsBytes(s) && |s| < 3
    ensures |t| < 4
  {
    if s == "" then ""
    else
      var a := s[0] as int;
      if |s| == 1 then [Sextet(a / 4), Sextet(a % 4 * 16)]
      else
        var b := s[1] as int;
        [Sextet(a / 4), Sextet(a % 4 * 16 + b / 16), Sextet(b % 16 * 4)]
  }

  function EncodeBytes(s: string): string
    requires IsBytes(s)
  {
    if |s| < 3 then EncodeTail(s) else Group(s[0], s[1], s[2]) + EncodeBytes(s[3..])
  }

  /** The decoder passes over line breaks. */
  function WithoutBreaks(s: string): string {
    if s == "" then ""
    else (if s[0] == '\n' || s[0] == '\r' then "" else [s[0]]) + WithoutBreaks(s[1..])
  }

  function DecodePair(p: char, q: char): char
    requires IsSextet(p) && IsSextet(q)
  {
    (SextetValue(p) * 4 + SextetValue(q) / 16) as char
  }

  function DecodeNext(q: char, r: char): char
    requires IsSextet(q) && IsSextet(r)
  {
    (SextetValue(q) % 16 * 16 + SextetValue(r) / 4) as char
  }

  function DecodeLast(r: char, t: char): char
    requires IsSextet(r) && IsSextet(t)
  {
    (SextetValue(r) % 4 * 64 + SextetValue(t)) as char
  }

  /** Padding is refused, and so is a single character; left-over low bits of the last character
      are not looked at. */
  function DecodeTail(t: string): Result<string, ()>
    requires |t| < 4
  {
    if t == "" then Ok("")
    else if |t| == 1 || !(forall i | 0 <= i < |t| :: IsSextet(t[i])) then Err(())
    else if |t| == 2 then Ok([DecodePair(t[0], t[1])])
    else Ok([DecodePair(t[0], t[1]), DecodeNext(t[1], t[2])])
  }

  function DecodeClean(t: string): Result<string, ()> {
    if |t| < 4 then DecodeTail(t)
    else if !(IsSextet(t[0]) && IsSextet(t[1]) && IsSextet(t[2]) && IsSextet(t[3])) then Err(())
    else
      match DecodeClean(t[4..])
      case Err(_) => Err(())
      case Ok(rest) => Ok([DecodePair(t[0], t[1]), DecodeNext(t[1], t[2]), DecodeLast(t[2], t[3])] + rest)
  }

  function DecodeBytes(s: string): Result<string, ()> {
    DecodeClean(WithoutBreaks(s))
  }

  lemma {:induction false} NothingToSkip(s: string)
    requires forall i | 0 <= i < |s| :: IsSextet(s[i])
    ensures WithoutBreaks(s) == s
  {
    if s != "" {
      NothingToSkip(s[1..]);
    }
  }

  lemma {:induction false} BreaksSkipped(a: string, b: string)
    ensures WithoutBreaks(a + "\n" + b) == WithoutBreaks(a + "\r" + b) == WithoutBreaks(a + b)
  {
    if a == "" {
      assert ("" + "\n" + b)[1..] == b && ("" + "\r" + b)[1..] == b && "" + b == b;
    } else {
      BreaksSkipped(a[1..], b);
      assert (a + "\n" + b)[1..] == a[1..] + "\n" + b && (a + "\r" + b)[1..] == a[1..] + "\r" + b;
      assert (a + b)[1..] == a[1..] + b;
    }
  }

  /** A cursor that came through a mail or a log is still itself: line breaks in it do not matter. */
  lemma BreaksDoNotMatter(a: string, b: string)
    ensures DecodeBytes(a + "\n" + b) == DecodeBytes(a + b)
    ensures DecodeBytes(a + "\r" + b) == DecodeBytes(a + b)
  {
    BreaksSkipped(a, b);
  }

  /** What decodes: characters of the alphabet only, and not one left over after groups of four. */
  lemma {:induction false} DecodesIff(t: string)
    ensures DecodeClean(t).Ok? <==> |t| % 4 != 1 && AllSextets(t)
  {
    if |t| >= 4 {
      var rest := t[4..];
      DecodesIff(rest);
      assert t == t[..4] + rest;
      GroupsOfFour(|rest|);
      assert AllSextets(t) <==> AllSextets(t[..4]) && AllSextets(rest);
    }
  }

  predicate AllSextets(t: string) {
    forall i | 0 <= i < |t| :: IsSextet(t[i])
  }

  lemma GroupsOfFour(n: nat)
    ensures (n + 4) % 4 == n % 4
  {
  }

  lemma {:induction false} EncodedAreSextets(s: string)
    requires IsBytes(s)
    ensures forall i | 0 <= i < |EncodeBytes(s)| :: IsSextet(EncodeBytes(s)[i])
  {
    if |s| >= 3 {
      EncodedAreSextets(s[3..]);
    }
  }

  /** The bytes that one, two and three characters after the first give back. */
  lemma FirstByte(a: int, x: int)
    requires 0 <= a < 256 && 0 <= x < 16
    ensures 0 <= a / 4 < 64 && 0 <= a % 4 * 16 + x < 64
    ensures a / 4 * 4 + (a % 4 * 16 + x) / 16 == a && (a % 4 * 16 + x) % 16 == x
  {
  }

  lemma SecondByte(b: int, y: int)
    requires 0 <= b < 256 && 0 <= y < 4
    ensures 0 <= b / 16 < 16 && 0 <= b % 16 * 4 + y < 64
    ensures b / 16 * 16 + (b % 16 * 4 + y) / 4 == b && (b % 16 * 4 + y) % 4 == y
  {
  }

  lemma ThirdByte(c: int)
    requires 0 <= c < 256
    ensures 0 <= c / 64 < 4 && c / 64 * 64 + c % 64 == c
  {
  }

  /** The four digits of three bytes. */
  lemma ThreeBytes(a: int, b: int, c: int)
    requires 0 <= a < 256 && 0 <= b < 256 && 0 <= c < 256
    ensures var u, v, w, x := a / 4, a % 4 * 16 + b / 16, b % 16 * 4 + c / 64, c % 64;
      0 <= u < 64 && 0 <= v < 64 && 0 <= w < 64 && 0 <= x < 64 &&
      u * 4 + v / 16 == a && v % 16 * 16 + w / 4 == b && w % 4 * 64 + x == c
  {
    FirstByte(a, b / 16);
    SecondByte(b, c / 64);
    ThirdByte(c);
  }

  lemma DigitsReadBack(u: int, v: int, w: int, x: int, a: char, b: char, c: char)
    requires 0 <= u < 64 && 0 <= v < 64 && 0 <= w < 64 && 0 <= x < 64
    requires a as int < 256 && b as int < 256 && c as int < 256
    requires u * 4 + v / 16 == a as int && v % 16 * 16 + w / 4 == b as int && w % 4 * 64 + x == c as int
    ensures var g := Quad(u, v, w, x);
      |g| == 4 && IsSextet(g[0]) && IsSextet(g[1]) && IsSextet(g[2]) && IsSextet(g[3]) &&
      DecodePair(g[0], g[1]) == a && DecodeNext(g[1], g[2]) == b && DecodeLast(g[2], g[3]) == c
  {
    SextetInverse(u);
    SextetInverse(v);
    SextetInverse(w);
    SextetInverse(x);
  }

  lemma GroupReadsBack(a: char, b: char, c: char)
    requires a as int < 256 && b as int < 256 && c as int < 256
    ensures var g := Group(a, b, c);
      |g| == 4 && IsSextet(g[0]) && IsSextet(g[1]) && IsSextet(g[2]) && IsSextet(g[3]) &&
      DecodePair(g[0], g[1]) == a && DecodeNext(g[1], g[2]) == b && DecodeLast(g[2], g[3]) == c
  {
    var x, y, z := a as int, b as int, c as int;
    ThreeBytes(x, y, z);
    DigitsReadBack(x / 4, x % 4 * 16 + y / 16, y % 16 * 4 + z / 64, z % 64, a, b, c);
  }

  lemma GroupRoundTrip(a: char, b: char, c: char, s: string, t: string)
    requires a as int < 256 && b as int < 256 && c as int < 256
    requires DecodeClean(t) == Ok(s)
    ensures DecodeClean(Group(a, b, c) + t) == Ok([a, b, c] + s)
  {
    var g := Group(a, b, c);
    GroupReadsBack(a, b, c);
    QuadDecodes(g, t, s);
  }

  lemma QuadDecodes(g: string, t: string, s: string)
    requires |g| == 4 && IsSextet(g[0]) && IsSextet(g[1]) && IsSextet(g[2]) && IsSextet(g[3])
    requires DecodeClean(t) == Ok(s)
    ensures DecodeClean(g + t) == Ok([DecodePair(g[0], g[1]), DecodeNext(g[1], g[2]), DecodeLast(g[2], g[3])] + s)
  {
    assert (g + t)[4..] == t;
  }

  lemma PairReadsBack(a: char, b: char)
    requires a as int < 256 && b as int < 256
    ensures DecodeTail(EncodeTail([a, b])) == Ok([a, b])
  {
    var x, y := a as int, b as int;
    FirstByte(x, y / 16);
    SecondByte(y, 0);
    SextetInverse(x / 4);
    SextetInverse(x % 4 * 16 + y / 16);
    SextetInverse(y % 16 * 4);
  }

  lemma TailRoundTrip(s: string)
    requires IsBytes(s) && |s| < 3
    ensures DecodeTail(EncodeTail(s)) == Ok(s)
  {
    if |s| == 2 {
      PairReadsBack(s[0], s[1]);
      assert s == [s[0], s[1]];
    } else if |s| == 1 {
      var x := s[0] as int;
      FirstByte(x, 0);
      SextetInverse(x / 4);
      SextetInverse(x % 4 * 16);
      assert s == [s[0]];
    }
  }

  lemma FirstThree(s: string)
    requires |s| >= 3
    ensures s == [s[0], s[1], s[2]] + s[3..]
  {
  }

  lemma {:induction false} CleanRoundTrip(s: string)
    requires IsBytes(s)
    ensures DecodeClean(EncodeBytes(s)) == Ok(s)
  {
    if |s| < 3 {
      TailRoundTrip(s);
    } else {
      FirstThree(s);
      CleanRoundTrip(s[3..]);
      GroupRoundTrip(s[0], s[1], s[2], s[3..], EncodeBytes(s[3..]));
    }
  }

  lemma BytesRoundTrip(s: string)
    requires IsBytes(s)
    ensures DecodeBytes(EncodeBytes(s)) == Ok(s)
  {
    EncodedAreSextets(s);
    NothingToSkip(EncodeBytes(s));
    CleanRoundTrip(s);
  }

  // ---------------------------------------------------------------- cursors

  /** createdAt is the UTC time in nanoseconds; the zero cursor has id 0. */
  datatype Cursor = Cursor(createdAt: Int64, id: Int64)

  const ZERO_CURSOR := Cursor(0, 0)

  datatype CursorError = NotBase64 | Malformed | BadTimestamp | BadPosition

  predicate IsZero(c: Cursor) {
    c.id == 0
  }

  function Raw(c: Cursor): (raw: string)
    ensures IsBytes(raw)
  {
    DecimalsAreBytes(c.createdAt);
    DecimalsAreBytes(c.id);
    FormatInt(c.createdAt) + ":" + FormatInt(c.id)
  }

  lemma {:induction false} NatsAreBytes(n: nat)
    ensures IsBytes(FormatNat(n))
  {
    if n >= 10 {
      NatsAreBytes(n / 10);
    }
  }

  lemma DecimalsAreBytes(n: int)
    ensures IsBytes(FormatInt(n))
  {
    NatsAreBytes(if n < 0 then -n else n);
  }

  function EncodeCursor(c: Cursor): string {
    EncodeBytes(Raw(c))
  }

  /** strings.Cut(s, ":"): what precedes the first colon and what follows it. */
  function Cut(s: string): Option<(string, string)> {
    if s == "" then None
    else if s[0] == ':' then Some(("", s[1..]))
    else
      match Cut(s[1..])
      case None => None
      case Some((before, after)) => Some(([s[0]] + before, after))
  }

  function ParseCursor(s: string): Result<Cursor, CursorError> {
    if s == "" then Ok(ZERO_CURSOR)
    else
      match DecodeBytes(s)
      case Err(_) => Err(NotBase64)
      case Ok(raw) =>
        match Cut(raw)
        case None => Err(Malformed)
        case Some((nanos, id)) =>
          var n := ParseInt(nanos);
          var i := ParseInt(id);
          if n.None? then Err(BadTimestamp)
          else if i.None? || i.value <= 0 then Err(BadPosition)
          else Ok(Cursor(n.value, i.value))
  }

  lemma {:induction false} CutFirst(a: string, rest: string)
    requires ':' !in a
    ensures Cut(a + ":" + rest) == Some((a, rest))
  {
    var s := a + ":" + rest;
    if a == "" {
      assert s == ":" + rest && s[1..] == rest;
    } else {
      CutFirst(a[1..], rest);
      assert s[1..] == a[1..] + ":" + rest;
      assert [a[0]] + a[1..] == a;
    }
  }

  /** A cursor comes back from its encoding exactly when it points at a row, and the encoding of
      one that does not is refused. */
  lemma CursorRoundTripIff(c: Cursor)
    ensures EncodeCursor(c) != ""
    ensures ParseCursor(EncodeCursor(c)) == if c.id > 0 then Ok(c) else Err(BadPosition)
  {
    BytesRoundTrip(Raw(c));
    FormattedInt(c.createdAt);
    FormattedInt(c.id);
    CutFirst(FormatInt(c.createdAt), FormatInt(c.id));
    assert Raw(c) == FormatInt(c.createdAt) + ":" + FormatInt(c.id);
  }
}
