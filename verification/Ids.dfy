/** Base-32 ids and the API secrets made of them (wa-shared/id/id.go, wa-shared/auth/key.go).
    Bytes are integers, shifts and masks by powers of two are division and remainder, and the
    accumulator's OR is a sum: the method shows that the two operands never share a bit. */
module Ids {
  import opened Powers

  type Byte = x: int | 0 <= x < 256 witness 0

  const ALPHABET: string := "0123456789ABCDEFGHJKMNPQRSTVWXYZ"

  lemma {:induction false} Pow2Sum(a: nat, b: nat)
    ensures Pow2(a + b) == Pow2(a) * Pow2(b)
  {
    if a > 0 {
      Pow2Sum(a - 1, b);
      Doubled(Pow2(a - 1), Pow2(b));
    }
  }

  lemma Doubled(x: int, y: int)
    ensures 2 * (x * y) == (2 * x) * y
  {
  }

  lemma Pow2Five(n: nat)
    ensures Pow2(5 * (n + 1)) == 32 * Pow2(5 * n)
  {
    Pow2Sum(5, 5 * n);
    assert Pow2(5) == 32;
  }

  lemma Pow2Eight(n: nat)
    ensures Pow2(8 * (n + 1)) == 256 * Pow2(8 * n)
  {
    Pow2Sum(8, 8 * n);
    assert Pow2(8) == 256;
  }

  // ---------------------------------------------------------------- characters

  predicate ValidChar(c: char) {
    '0' <= c <= '9' || ('A' <= c <= 'Z' && c != 'I' && c != 'L' && c != 'O' && c != 'U')
  }

  predicate Valid(s: string) {
    s != "" && AllValid(s)
  }

  predicate AllValid(s: string) {
    forall i | 0 <= i < |s| :: ValidChar(s[i])
  }

  /** The place of a character in the alphabet. */
  function Digit(c: char): (d: int)
    requires ValidChar(c)
    ensures 0 <= d < 32
  {
    if c <= '9' then c as int - '0' as int
    else
      c as int - 'A' as int + 10 - (if c > 'I' then 1 else 0) - (if c > 'L' then 1 else 0) -
      (if c > 'O' then 1 else 0) - (if c > 'U' then 1 else 0)
  }

  /** alphabet[d], without spelling the alphabet out in every proof. */
  function Letter(d: int): (c: char)
    requires 0 <= d < 32
    ensures ValidChar(c) && Digit(c) == d
  {
    if d < 10 then '0' + d as char
    else if d < 18 then 'A' + (d - 10) as char
    else if d < 20 then 'J' + (d - 18) as char
    else if d < 22 then 'M' + (d - 20) as char
    else if d < 27 then 'P' + (d - 22) as char
    else 'V' + (d - 27) as char
  }

  /** The valid characters are the alphabet's, each at its own place. */
  lemma LettersAreTheAlphabet(c: char)
    ensures |ALPHABET| == 32 && (forall d | 0 <= d < 32 :: ALPHABET[d] == Letter(d))
    ensures ValidChar(c) <==> c in ALPHABET
    ensures ValidChar(c) ==> ALPHABET[Digit(c)] == c
    ensures !Valid("")
  {
    AlphabetLetters();
    if ValidChar(c) {
      DigitOrder(c, Letter(Digit(c)));
    }
  }

  lemma AlphabetLetters()
    ensures |ALPHABET| == 32 && forall d | 0 <= d < 32 :: ALPHABET[d] == Letter(d)
  {
    assert forall d | 0 <= d < 10 :: "0123456789"[d] == Letter(d);
    assert forall d | 0 <= d < 12 :: "ABCDEFGHJKMN"[d] == Letter(d + 10);
    assert forall d | 0 <= d < 10 :: "PQRSTVWXYZ"[d] == Letter(d + 22);
    assert ALPHABET == "0123456789" + "ABCDEFGHJKMN" + "PQRSTVWXYZ";
  }

  /** The alphabet is in character order. */
  lemma DigitOrder(c: char, d: char)
    requires ValidChar(c) && ValidChar(d)
    ensures c < d <==> Digit(c) < Digit(d)
    ensures c == d <==> Digit(c) == Digit(d)
  {
  }

  // ---------------------------------------------------------------- numbers

  /** The big-endian number in a byte string. */
  function ValueOf(b: seq<Byte>): nat {
    if b == [] then 0 else ValueOf(b[..|b| - 1]) * 256 + b[|b| - 1]
  }

  /** The base-32 number a string of digits writes. */
  function Reading(s: string): nat
    requires AllValid(s)
  {
    if s == "" then 0 else Reading(s[..|s| - 1]) * 32 + Digit(s[|s| - 1])
  }

  /** The last n base-32 digits of a number. */
  function Digits(v: nat, n: nat): string {
    if n == 0 then "" else Digits(v / 32, n - 1) + [Letter(v % 32)]
  }

  function EncodedLen(n: nat): nat {
    (n * 8 + 4) / 5
  }

  /** What Encode writes: the bytes' number in base 32, at a length fixed by theirs. */
  function Encoded(b: seq<Byte>): string {
    Digits(ValueOf(b), EncodedLen(|b|))
  }

  lemma {:induction false} ValueBound(b: seq<Byte>)
    ensures ValueOf(b) < Pow2(8 * |b|)
  {
    if b != [] {
      ValueBound(b[..|b| - 1]);
      Pow2Eight(|b| - 1);
    }
  }

  lemma {:induction false} ReadingBound(s: string)
    requires AllValid(s)
    ensures Reading(s) < Pow2(5 * |s|)
  {
    if s != "" {
      ReadingBound(s[..|s| - 1]);
      Pow2Five(|s| - 1);
    }
  }

  lemma {:induction false} DigitsReadBack(v: nat, n: nat)
    requires v < Pow2(5 * n)
    ensures var s := Digits(v, n); |s| == n && AllValid(s) && Reading(s) == v
  {
    if n > 0 {
      Pow2Five(n - 1);
      DigitsReadBack(v / 32, n - 1);
      var s := Digits(v, n);
      assert s[..n - 1] == Digits(v / 32, n - 1);
    }
  }

  // ---------------------------------------------------------------- order

  /** Byte order of strings of one length: the first place they differ decides. */
  ghost predicate Precedes(s: string, t: string)
    requires |s| == |t|
  {
    exists k :: 0 <= k < |s| && s[..k] == t[..k] && s[k] < t[k]
  }

  ghost predicate BytesPrecede(a: seq<Byte>, b: seq<Byte>)
    requires |a| == |b|
  {
    exists k :: 0 <= k < |a| && a[..k] == b[..k] && a[k] < b[k]
  }

  lemma PrecedesByLast(s: string, t: string)
    requires |s| == |t| && s != ""
    ensures var n := |s| - 1;
      Precedes(s, t) <==> Precedes(s[..n], t[..n]) || (s[..n] == t[..n] && s[n] < t[n])
  {
    var n := |s| - 1;
    if k :| 0 <= k < |s| && s[..k] == t[..k] && s[k] < t[k] {
      if k < n {
        assert s[..n][..k] == s[..k] && t[..n][..k] == t[..k];
      }
    }
    if k :| 0 <= k < n && s[..n][..k] == t[..n][..k] && s[..n][k] < t[..n][k] {
      assert s[..n][..k] == s[..k] && t[..n][..k] == t[..k];
    }
  }

  lemma BytesPrecedeByLast(a: seq<Byte>, b: seq<Byte>)
    requires |a| == |b| && a != []
    ensures var n := |a| - 1;
      BytesPrecede(a, b) <==> BytesPrecede(a[..n], b[..n]) || (a[..n] == b[..n] && a[n] < b[n])
  {
    var n := |a| - 1;
    if k :| 0 <= k < |a| && a[..k] == b[..k] && a[k] < b[k] {
      if k < n {
        assert a[..n][..k] == a[..k] && b[..n][..k] == b[..k];
      }
    }
    if k :| 0 <= k < n && a[..n][..k] == b[..n][..k] && a[..n][k] < b[..n][k] {
      assert a[..n][..k] == a[..k] && b[..n][..k] == b[..k];
    }
  }

  /** Digits of one length are determined by the number they write, and ordered like it. */
  lemma {:induction false} ReadingOrder(s: string, t: string)
    requires |s| == |t| && AllValid(s) && AllValid(t)
    ensures Reading(s) < Reading(t) <==> Precedes(s, t)
    ensures Reading(s) == Reading(t) <==> s == t
  {
    if s != "" {
      var n := |s| - 1;
      var x, y := s[..n], t[..n];
      assert s == x + [s[n]] && t == y + [t[n]];
      ReadingOrder(x, y);
      PrecedesByLast(s, t);
      DigitOrder(s[n], t[n]);
      LastDigit(Reading(x), Digit(s[n]), Reading(y), Digit(t[n]));
    } else {
      assert s == t;
    }
  }

  lemma LastDigit(x: int, d: int, y: int, e: int)
    requires 0 <= d < 32 && 0 <= e < 32
    ensures x * 32 + d < y * 32 + e <==> x < y || (x == y && d < e)
    ensures x * 32 + d == y * 32 + e <==> x == y && d == e
  {
  }

  lemma {:induction false} ValueOrder(a: seq<Byte>, b: seq<Byte>)
    requires |a| == |b|
    ensures ValueOf(a) < ValueOf(b) <==> BytesPrecede(a, b)
    ensures ValueOf(a) == ValueOf(b) <==> a == b
  {
    if a != [] {
      var n := |a| - 1;
      ValueOrder(a[..n], b[..n]);
      BytesPrecedeByLast(a, b);
      assert a == a[..n] + [a[n]] && b == b[..n] + [b[n]];
    }
  }

  /** Encode writes the bytes' own number, in the alphabet, at the length ceil(8n/5). */
  lemma EncodedIsTheNumber(b: seq<Byte>)
    ensures var s := Encoded(b);
      |s| == EncodedLen(|b|) && 5 * (|s| - 1) < 8 * |b| <= 5 * |s| && AllValid(s) && Reading(s) == ValueOf(b)
    ensures b != [] ==> Valid(Encoded(b))
  {
    ValueBound(b);
    Pow2Grows(8 * |b|, 5 * EncodedLen(|b|));
    DigitsReadBack(ValueOf(b), EncodedLen(|b|));
  }

  /** Encoding loses nothing and keeps the order of equally long byte strings. */
  lemma EncodingKeepsOrder(a: seq<Byte>, b: seq<Byte>)
    requires |a| == |b|
    ensures |Encoded(a)| == |Encoded(b)|
    ensures Precedes(Encoded(a), Encoded(b)) <==> BytesPrecede(a, b)
    ensures Encoded(a) == Encoded(b) <==> a == b
  {
    EncodedIsTheNumber(a);
    EncodedIsTheNumber(b);
    ReadingOrder(Encoded(a), Encoded(b));
    ValueOrder(a, b);
  }

  // ---------------------------------------------------------------- the loop

  /** The number written by digits with acc in front of them. */
  function Above(acc: int, s: string): int
    requires AllValid(s)
  {
    if s == "" then acc else Above(acc, s[..|s| - 1]) * 32 + Digit(s[|s| - 1])
  }

  lemma {:induction false} NothingAbove(s: string)
    requires AllValid(s)
    ensures Above(0, s) == Reading(s)
  {
    if s != "" {
      NothingAbove(s[..|s| - 1]);
    }
  }

  lemma {:induction false} AboveCons(acc: int, c: char, rest: string)
    requires ValidChar(c) && AllValid(rest)
    ensures AllValid([c] + rest) && Above(acc, [c] + rest) == Above(acc * 32 + Digit(c), rest)
  {
    var s := [c] + rest;
    if rest == "" {
      assert s[..|s| - 1] == "";
    } else {
      var n := |rest| - 1;
      assert s[..|s| - 1] == [c] + rest[..n];
      AboveCons(acc, c, rest[..n]);
    }
  }

  lemma {:induction false} AboveAdds(acc: int, x: int, s: string)
    requires AllValid(s)
    ensures Above(acc + x, s) == Above(acc, s) + x * Pow2(5 * |s|)
  {
    if s != "" {
      var n := |s| - 1;
      AboveAdds(acc, x, s[..n]);
      Pow2Five(n);
      Scaled(x, Pow2(5 * n), Above(acc, s[..n]), 32);
    }
  }

  lemma {:induction false} ValueCons(c: Byte, rest: seq<Byte>)
    ensures ValueOf([c] + rest) == c * Pow2(8 * |rest|) + ValueOf(rest)
  {
    var s := [c] + rest;
    if rest == [] {
      assert s[..|s| - 1] == [];
    } else {
      var n := |rest| - 1;
      assert s[..|s| - 1] == [c] + rest[..n];
      ValueCons(c, rest[..n]);
      Pow2Eight(n);
      Scaled(c, Pow2(8 * n), ValueOf(rest[..n]), 256);
    }
  }

  lemma Scaled(a: int, p: int, r: int, m: int)
    ensures (a * p + r) * m == a * (m * p) + r * m
  {
  }

  lemma Regrouped(c: int, p: int, q: int)
    ensures c * p * q == c * (p * q)
  {
  }

  /** Bytes from the right, five bits at a time, zeros in front. */
  method Encode(b: seq<Byte>) returns (s: string)
    ensures s == Encoded(b)
  {
    if |b| == 0 {
      return "";
    }
    var out := new char[EncodedLen(|b|)];
    var acc, bits: nat := 0, 0;
    var i := out.Length - 1;
    ghost var digits := "";  // what is written behind i
    NothingYet();
    for j := |b| downto 0
      invariant -1 <= i < out.Length && bits < 5
      invariant digits == out[i + 1..] && Written(b[j..], acc, bits, digits)
    {
      i, acc, bits, digits := TakeByte(out, i, acc, bits, b, j, digits);
    }
    s := Front(out, i, acc, bits, b, digits);
  }

  /** One byte goes in above the accumulator's bits, and whole digits come out below. */
  method TakeByte(out: array<char>, i0: int, acc0: int, bits0: nat, b: seq<Byte>, j: nat, ghost behind: string)
    returns (i: int, acc: int, bits: nat, ghost digits: string)
    requires j < |b| && Fits(|b|, out.Length) && -1 <= i0 < out.Length
    requires behind == out[i0 + 1..] && Written(b[j + 1..], acc0, bits0, behind)
    modifies out
    ensures -1 <= i < out.Length && bits < 5 && digits == out[i + 1..] && Written(b[j..], acc, bits, digits)
  {
    ghost var read := b[j..];
    assert [b[j]] + b[j + 1..] == read;
    ShiftIn(b[j + 1..], b[j], acc0, bits0, behind);
    i, acc, bits, digits := i0, acc0 + b[j] * Pow2(bits0), bits0 + 8, behind;
    while bits >= 5
      invariant -1 <= i < out.Length && digits == out[i + 1..] && Written(read, acc, bits, digits)
    {
      ShiftOut(read, acc, bits, digits);
      Room(|b|, read, acc, bits, digits, out.Length);
      out[i] := Letter(acc % 32);
      i := i - 1;
      digits := [Letter(acc % 32)] + digits;
      acc := acc / 32;
      bits := bits - 5;
    }
  }

  /** What Encode does after its loops: the top digit, if bits are left, and zeros before it. */
  method Front(out: array<char>, last: int, acc: int, bits: nat, ghost b: seq<Byte>, ghost behind: string)
    returns (s: string)
    requires out.Length == EncodedLen(|b|) && -1 <= last < out.Length && bits < 5
    requires behind == out[last + 1..] && Written(b, acc, bits, behind)
    modifies out
    ensures s == Encoded(b)
  {
    var i := last;
    ghost var digits := behind;
    if bits > 0 {
      TopDigit(b, acc, bits, digits);
      Room(|b|, b, acc, bits, digits, out.Length);
      out[i] := Letter(acc % 32);
      i := i - 1;
      digits := [Letter(acc % 32)] + digits;
    } else {
      NothingLeft(b, acc, digits);
    }
    Pad(out, i, digits);
    OnlyEncoding(b, out[..]);
    s := out[..];
  }

  /** Zeros in front leave the number alone. */
  method Pad(out: array<char>, last: int, ghost behind: string)
    requires -1 <= last < out.Length && behind == out[last + 1..] && AllValid(behind)
    modifies out
    ensures AllValid(out[..]) && Reading(out[..]) == Reading(behind)
  {
    var i := last;
    ghost var digits := behind;
    while i >= 0
      invariant -1 <= i < out.Length && digits == out[i + 1..]
      invariant AllValid(digits) && Reading(digits) == Reading(behind)
    {
      LeadingZero(digits);
      out[i] := Letter(0);
      i := i - 1;
      digits := [Letter(0)] + digits;
    }
    assert digits == out[..];
  }

  lemma LeadingZero(rest: string)
    requires AllValid(rest)
    ensures AllValid([Letter(0)] + rest) && Reading([Letter(0)] + rest) == Reading(rest)
  {
    AboveCons(0, Letter(0), rest);
    NothingAbove(rest);
    NothingAbove([Letter(0)] + rest);
  }

  lemma OnlyEncoding(b: seq<Byte>, s: string)
    requires |s| == EncodedLen(|b|) && AllValid(s) && Reading(s) == ValueOf(b)
    ensures s == Encoded(b)
  {
    EncodedIsTheNumber(b);
    ReadingOrder(s, Encoded(b));
  }

  ghost predicate Fits(n: nat, places: nat) {
    8 * n <= 5 * places
  }

  /** There is a place left for every digit still to come. */
  lemma Room(n: nat, read: seq<Byte>, acc: int, bits: nat, written: string, places: nat)
    requires |read| <= n && Fits(n, places) && bits > 0 && Written(read, acc, bits, written)
    ensures |written| < places
  {
  }

  /** The bytes read so far are the digits written with what the accumulator holds in front of them;
      it holds fewer than bits bits, so the next byte, shifted by bits, overlaps none of them. */
  ghost predicate Written(read: seq<Byte>, acc: int, bits: nat, written: string) {
    AllValid(written) && 0 <= acc < Pow2(bits) && 8 * |read| == 5 * |written| + bits &&
    ValueOf(read) == Above(acc, written)
  }

  lemma ShiftIn(read: seq<Byte>, c: Byte, acc: int, bits: nat, written: string)
    requires Written(read, acc, bits, written)
    ensures Written([c] + read, acc + c * Pow2(bits), bits + 8, written)
  {
    var n := 5 * |written|;
    ValueCons(c, read);
    AboveAdds(acc, c * Pow2(bits), written);
    Regrouped(c, Pow2(bits), Pow2(n));
    Pow2Sum(bits, n);
    Pow2Sum(8, bits);
    assert Pow2(8) == 256;
    ByteFits(c, acc, Pow2(bits));
  }

  lemma ByteFits(c: Byte, acc: int, p: int)
    requires 0 <= acc < p
    ensures 0 <= acc + c * p < 256 * p
  {
    assert 0 <= c * p <= 255 * p;
  }

  lemma ShiftOut(read: seq<Byte>, acc: int, bits: nat, written: string)
    requires 5 <= bits && Written(read, acc, bits, written)
    ensures Written(read, acc / 32, bits - 5, [Letter(acc % 32)] + written)
  {
    AboveCons(acc / 32, Letter(acc % 32), written);
    Pow2Sum(5, bits - 5);
    assert Pow2(5) == 32;
  }

  lemma TopDigit(read: seq<Byte>, acc: int, bits: nat, written: string)
    requires bits <= 5 && Written(read, acc, bits, written)
    ensures var s := [Letter(acc % 32)] + written; AllValid(s) && Reading(s) == ValueOf(read)
  {
    Pow2Grows(bits, 5);
    assert Pow2(5) == 32;
    assert acc % 32 == acc;
    AboveCons(0, Letter(acc), written);
    NothingAbove([Letter(acc)] + written);
  }

  lemma NothingLeft(read: seq<Byte>, acc: int, written: string)
    requires Written(read, acc, 0, written)
    ensures Reading(written) == ValueOf(read)
  {
    NothingAbove(written);
  }

  lemma NothingYet()
    ensures Written([], 0, 0, "")
  {
  }
}
