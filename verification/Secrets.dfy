/** Time-ordered ids and API secrets (wa-shared/id/id.go, wa-shared/auth/key.go). Random bytes are
    parameters. */
module Secrets {
  import opened Options
  import opened Ids
  import opened Powers

  // ---------------------------------------------------------------- ids from New

  /** The low 48 bits of the millisecond clock, most significant byte first. */
  function Stamp(ms: nat, n: nat): seq<Byte> {
    if n == 0 then [] else Stamp(ms / 256, n - 1) + [ms % 256]
  }

  lemma {:induction false} StampValue(ms: nat, n: nat)
    ensures |Stamp(ms, n)| == n && ValueOf(Stamp(ms, n)) == ms % Pow2(8 * n)
  {
    if n > 0 {
      StampValue(ms / 256, n - 1);
      Pow2Eight(n - 1);
      assert Stamp(ms, n)[..n - 1] == Stamp(ms / 256, n - 1);
      SplitRemainder(ms, Pow2(8 * (n - 1)));
    }
  }

  lemma SplitRemainder(ms: nat, p: nat)
    requires p > 0
    ensures (ms / 256 % p) * 256 + ms % 256 == ms % (256 * p)
    ensures ms / 256 / p == ms / (256 * p)
  {
    var q, r := ms / 256 / p, ms / 256 % p;
    assert ms / 256 == p * q + r;
    assert ms == 256 * (p * q + r) + ms % 256;
    Regroup(p, q, r);
    RemainderUnique(ms, 256 * p, q, r * 256 + ms % 256);
  }

  lemma Regroup(p: int, q: int, r: int)
    ensures 256 * (p * q + r) == (256 * p) * q + r * 256
  {
  }

  lemma RemainderUnique(v: nat, m: nat, q: nat, r: nat)
    requires m > 0 && v == m * q + r && r < m
    ensures v % m == r && v / m == q
  {
    var q', r' := v / m, v % m;
    assert v == m * q' + r' && 0 <= r' < m;
    assert m * (q - q') == r' - r;
    assert q - q' >= 1 ==> m * (q - q') >= m;
    assert q' - q >= 1 ==> m * (q' - q) >= m;
  }

  /** What the six time bytes can tell apart: about 8900 years of milliseconds. */
  const CLOCK_RANGE := 0x1_0000_0000_0000

  lemma ClockRange()
    ensures Pow2(48) == CLOCK_RANGE
  {
    Pow2Sum(24, 24);
    Pow2Sum(12, 12);
    assert Pow2(12) == 4096;
  }

  function IdOf(prefix: string, ms: nat, random: seq<Byte>): string {
    prefix + "_" + Encoded(Stamp(ms, 6) + random)
  }

  /** byte(ms >> (40 - 8*i)) for each i in turn, then the random bytes. */
  method New(prefix: string, ms: nat, random: seq<Byte>) returns (id: string)
    requires |random| == 10
    ensures id == IdOf(prefix, ms, random)
  {
    var b := new Byte[16](_ => 0);
    for i := 0 to 6
      invariant forall k | 0 <= k < i :: b[k] == (ms / Pow2(40 - 8 * k)) % 256
    {
      b[i] := (ms / Pow2(40 - 8 * i)) % 256;
    }
    for i := 0 to 10
      invariant forall k | 0 <= k < 6 :: b[k] == (ms / Pow2(40 - 8 * k)) % 256
      invariant forall k | 0 <= k < i :: b[6 + k] == random[k]
    {
      b[6 + i] := random[i];
    }
    StampBytes(ms, 6);
    assert forall k | 0 <= k < 6 :: 40 - 8 * k == 8 * (5 - k);
    assert b[..] == Stamp(ms, 6) + random;
    var encoded := Encode(b[..]);
    id := prefix + "_" + encoded;
  }

  lemma {:induction false} StampBytes(ms: nat, n: nat)
    ensures |Stamp(ms, n)| == n && forall k | 0 <= k < n :: Stamp(ms, n)[k] == (ms / Pow2(8 * (n - 1 - k))) % 256
  {
    if n > 0 {
      StampBytes(ms / 256, n - 1);
      forall k | 0 <= k < n ensures Stamp(ms, n)[k] == (ms / Pow2(8 * (n - 1 - k))) % 256 {
        if k < n - 1 {
          Pow2Eight(n - 2 - k);
          SplitRemainder(ms, Pow2(8 * (n - 2 - k)));
          assert Stamp(ms, n)[k] == Stamp(ms / 256, n - 1)[k];
        }
      }
    }
  }

  /** Ids of one prefix sort by the millisecond they were made in, whatever random bytes follow. */
  lemma IdsSortByTime(prefix: string, ms: nat, ms': nat, random: seq<Byte>, random': seq<Byte>)
    requires |random| == |random'| == 10 && ms % CLOCK_RANGE < ms' % CLOCK_RANGE
    ensures |IdOf(prefix, ms, random)| == |IdOf(prefix, ms', random')|
    ensures Precedes(IdOf(prefix, ms, random), IdOf(prefix, ms', random'))
  {
    var a, b := Stamp(ms, 6), Stamp(ms', 6);
    ClockRange();
    StampValue(ms, 6);
    StampValue(ms', 6);
    ValueOrder(a, b);
    TailKeepsOrder(a, b, random, random');
    EncodingKeepsOrder(a + random, b + random');
    PrefixKeepsOrder(prefix + "_", Encoded(a + random), Encoded(b + random'));
  }

  lemma TailKeepsOrder(a: seq<Byte>, b: seq<Byte>, x: seq<Byte>, y: seq<Byte>)
    requires |a| == |b| && |x| == |y| && BytesPrecede(a, b)
    ensures BytesPrecede(a + x, b + y)
  {
    var k :| 0 <= k < |a| && a[..k] == b[..k] && a[k] < b[k];
    assert (a + x)[..k] == a[..k] && (b + y)[..k] == b[..k];
  }

  lemma PrefixKeepsOrder(p: string, s: string, t: string)
    requires |s| == |t| && Precedes(s, t)
    ensures Precedes(p + s, p + t)
  {
    var k :| 0 <= k < |s| && s[..k] == t[..k] && s[k] < t[k];
    assert (p + s)[..|p| + k] == p + s[..k] && (p + t)[..|p| + k] == p + t[..k];
  }

  // ---------------------------------------------------------------- secrets

  datatype Environment = Live | Test

  function Prefix(e: Environment): string {
    "wsk_" + (if e == Live then "live" else "test") + "_"
  }

  const SECRET_BYTES := 20
  const SECRET_BODY_LEN := 32

  /** The plaintext a secret is generated as; its hash and hint are left out. */
  function Generated(e: Environment, random: seq<Byte>): string {
    Prefix(e) + Encoded(random)
  }

  function SecretEnvironment(plaintext: string): Result<Environment, ()> {
    if Prefix(Live) <= plaintext then Checked(Live, plaintext[|Prefix(Live)|..])
    else if Prefix(Test) <= plaintext then Checked(Test, plaintext[|Prefix(Test)|..])
    else Err(())
  }

  function Checked(e: Environment, body: string): Result<Environment, ()> {
    if |body| != SECRET_BODY_LEN || !Valid(body) then Err(()) else Ok(e)
  }

  /** Every number that fits has bytes that write it. */
  lemma {:induction false} BytesOf(v: nat, n: nat) returns (b: seq<Byte>)
    requires v < Pow2(8 * n)
    ensures |b| == n && ValueOf(b) == v
  {
    if n == 0 {
      b := [];
    } else {
      Pow2Eight(n - 1);
      var front := BytesOf(v / 256, n - 1);
      b := front + [v % 256];
      assert b[..n - 1] == front;
    }
  }

  /** A secret is recognised for an environment exactly when it could have been generated there:
      the 32 characters after the prefix carry 160 bits, which is 20 bytes and nothing over. */
  lemma RecognisedIffGenerated(plaintext: string, e: Environment)
    ensures SecretEnvironment(plaintext) == Ok(e) <==>
            exists random: seq<Byte> :: |random| == SECRET_BYTES && plaintext == Generated(e, random)
  {
    assert Prefix(Live)[4] == 'l' && Prefix(Test)[4] == 't' && |Prefix(e)| == 9;
    forall random: seq<Byte> | |random| == SECRET_BYTES && plaintext == Generated(e, random)
      ensures SecretEnvironment(plaintext) == Ok(e)
    {
      EncodedIsTheNumber(random);
      assert plaintext[..9] == Prefix(e) && plaintext[9..] == Encoded(random);
      assert plaintext[4] == Prefix(e)[4];
    }
    if SecretEnvironment(plaintext) == Ok(e) {
      var body := plaintext[9..];
      assert plaintext == Prefix(e) + body;
      ReadingBound(body);
      var random := BytesOf(Reading(body), SECRET_BYTES);
      OnlyEncoding(random, body);
      assert plaintext == Generated(e, random);
    }
  }
}
