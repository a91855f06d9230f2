/** The names everything downstream is addressed by: queues, gateway keys and coalesce groups
    (wa-shared/tasks/tasks.go, wa-shared/dispatch/coalesce.go) and the recipient they carry
    (wa-shared/wa/phone.go). A Go string is its bytes, one char each. */
module Keys {
  import opened Options

  datatype Priority = Critical | Default | Bulk

  function Name(p: Priority): string {
    match p
    case Critical => "critical"
    case Default => "default"
    case Bulk => "bulk"
  }

  /** "" means the default lane; any other unknown word is refused. */
  function ParsePriority(s: string): Result<Priority, ()> {
    if s == "" || s == "default" then Ok(Default)
    else if s == "critical" then Ok(Critical)
    else if s == "bulk" then Ok(Bulk)
    else Err(())
  }

  lemma ParsesIff(s: string)
    ensures ParsePriority(s).Ok? <==> s in {"", "critical", "default", "bulk"}
    ensures ParsePriority(s).Ok? ==> Name(ParsePriority(s).value) == if s == "" then "default" else s
  {
  }

  const QUEUE_PREFIX := "wa"
  const COALESCE_KEY_PREFIX := "wa:coalesce:"
  const NUL: string := "\0"

  function QueueFor(sessionId: string, p: Priority): string {
    QUEUE_PREFIX + ":" + sessionId + ":" + Name(p)
  }

  function CoalesceKey(sessionId: string, p: Priority, to: string): string {
    COALESCE_KEY_PREFIX + sessionId + ":" + Name(p) + ":" + to
  }

  /** The bytes the gateway key is the SHA-256 of. The digest is taken to be collision-free, so
      the key is identified with them. */
  function IdempotencyKey(apiKeyId: string, callerKey: string, to: string): string {
    apiKeyId + NUL + callerKey + NUL + to + NUL
  }

  const MAX_IDEMPOTENCY_KEY_LEN := 255

  predicate ValidCallerKey(k: string) {
    0 < |k| <= MAX_IDEMPOTENCY_KEY_LEN && forall i | 0 <= i < |k| :: '!' <= k[i] <= '~'
  }

  /** strings.Split(s, ":") */
  function Split(s: string): (parts: seq<string>)
    ensures |parts| >= 1
  {
    if s == "" then [""]
    else
      var rest := Split(s[1..]);
      if s[0] == ':' then [""] + rest else [[s[0]] + rest[0]] + rest[1..]
  }

  function ParseQueue(queue: string): Result<(string, Priority), ()> {
    var parts := Split(queue);
    if |parts| != 3 || parts[0] != QUEUE_PREFIX || parts[1] == "" then Err(())
    else
      match ParsePriority(parts[2])
      case Err(_) => Err(())
      case Ok(lane) => if parts[2] == "" then Err(()) else Ok((parts[1], lane))
  }

  // ---------------------------------------------------------------- recipients

  const MIN_PHONE_DIGITS := 8
  const MAX_PHONE_DIGITS := 15
  const DEFAULT_COUNTRY_CODE := "62"

  function DigitsOf(s: string): string {
    if s == "" then "" else (if '0' <= s[0] <= '9' then [s[0]] else "") + DigitsOf(s[1..])
  }

  /** Trimming white space first, as the source does, drops no digit. */
  function NormalisePhone(input: string): Result<string, ()> {
    var digits := DigitsOf(input);
    if digits == "" || "00" <= digits then Err(())
    else
      var full := if "0" <= digits then DEFAULT_COUNTRY_CODE + digits[1..] else digits;
      if MIN_PHONE_DIGITS <= |full| <= MAX_PHONE_DIGITS then Ok(full) else Err(())
  }

  predicate AllDigits(s: string) {
    forall i | 0 <= i < |s| :: '0' <= s[i] <= '9'
  }

  predicate IsRecipient(to: string) {
    MIN_PHONE_DIGITS <= |to| <= MAX_PHONE_DIGITS && AllDigits(to) && to[0] != '0'
  }

  lemma {:induction false} DigitsAreDigits(s: string)
    ensures AllDigits(DigitsOf(s))
  {
    if s != "" {
      DigitsAreDigits(s[1..]);
    }
  }

  lemma {:induction false} DigitsOfDigits(s: string)
    requires AllDigits(s)
    ensures DigitsOf(s) == s
  {
    if s != "" {
      DigitsOfDigits(s[1..]);
    }
  }

  /** The recipients a request can end up with are exactly the full international numbers, and
      normalising one again leaves it alone: a failover resend, which passes the normalised
      number back in, addresses the same person. */
  lemma NormalisedRecipients(to: string)
    ensures (exists input :: NormalisePhone(input) == Ok(to)) <==> IsRecipient(to)
    ensures IsRecipient(to) ==> NormalisePhone(to) == Ok(to)
  {
    if IsRecipient(to) {
      DigitsOfDigits(to);
      assert NormalisePhone(to) == Ok(to);
    }
    forall input | NormalisePhone(input) == Ok(to) ensures IsRecipient(to) {
      DigitsAreDigits(input);
      var digits := DigitsOf(input);
      assert digits[0] == '0' ==> "0" <= digits;
    }
  }

  /** Only digits are read: a spelling is its parts' digits in order, and anything else is passed over. */
  lemma {:induction false} DigitsOfParts(a: string, b: string)
    ensures DigitsOf(a + b) == DigitsOf(a) + DigitsOf(b)
  {
    if a == "" {
      assert a + b == b;
    } else {
      assert (a + b)[1..] == a[1..] + b;
      DigitsOfParts(a[1..], b);
    }
  }

  lemma DigitsOfOne(c: char)
    ensures DigitsOf([c]) == if c in "0123456789" then [c] else ""
  {
    assert [c][1..] == "";
  }

  /** Its digits are the number itself, or the number with a zero in the place of Indonesia's 62. */
  predicate Spells(input: string, to: string) {
    DigitsOf(input) == to || ("62" <= to && !("620" <= to) && DigitsOf(input) == "0" + to[2..])
  }

  /** Which spellings reach a recipient: exactly the international and the national one of its number, with
      anything between the digits. */
  lemma NormalisesIff(input: string, to: string)
    ensures NormalisePhone(input) == Ok(to) <==> IsRecipient(to) && Spells(input, to)
  {
    DigitsAreDigits(input);
    var digits := DigitsOf(input);
    if |digits| >= 1 && digits[0] == '0' {
      assert digits == "0" + digits[1..];
      assert ("62" + digits[1..])[2..] == digits[1..];
      assert |digits| >= 2 ==> (digits[1] == '0' <==> "00" <= digits);
      assert NormalisePhone(input) == Ok(to) ==> to == "62" + digits[1..];
      if "62" <= to && DigitsOf(input) == "0" + to[2..] {
        assert to == "62" + to[2..] && to[2..] == digits[1..];
      }
    }
  }

  /** A spelling is accepted exactly when it reaches somebody. */
  lemma AcceptedIff(input: string)
    ensures NormalisePhone(input).Ok? <==> exists to :: IsRecipient(to) && Spells(input, to)
  {
    if NormalisePhone(input).Ok? {
      NormalisesIff(input, NormalisePhone(input).value);
    }
    if to :| IsRecipient(to) && Spells(input, to) {
      NormalisesIff(input, to);
    }
  }

  lemma NationalIs(input: string, d: string)
    requires AllDigits(d) && (d == "" || d[0] != '0') && DigitsOf(input) == "0" + d
    ensures NormalisePhone(input) == if 6 <= |d| <= 13 then Ok("62" + d) else Err(())
  {
    assert ("0" + d)[1..] == d;
  }

  lemma InternationalIs(input: string, d: string)
    requires AllDigits(d) && DigitsOf(input) == "62" + d
    ensures NormalisePhone(input) == if 6 <= |d| <= 13 then Ok("62" + d) else Err(())
  {
    assert ("62" + d)[0] == '6';
  }

  /** The national and the international spelling of a number are one number. */
  lemma SpellingsAgree(national: string, international: string, d: string)
    requires AllDigits(d) && (d == "" || d[0] != '0')
    requires DigitsOf(national) == "0" + d && DigitsOf(international) == "62" + d
    ensures NormalisePhone(national) == NormalisePhone(international)
    ensures NormalisePhone(national) == if 6 <= |d| <= 13 then Ok("62" + d) else Err(())
  {
    NationalIs(national, d);
    InternationalIs(international, d);
  }

  // ---------------------------------------------------------------- names are unambiguous

  /** A separator that does not occur in the last field splits a name in one way only. */
  lemma LastField(x: string, a: string, y: string, b: string, sep: char)
    requires x + [sep] + a == y + [sep] + b
    requires sep !in a && sep !in b
    ensures x == y && a == b
  {
    var s := x + [sep] + a;
    assert s[|x|] == sep && s[|y|] == sep;
    assert forall k | |x| < k < |s| :: s[k] == a[k - |x| - 1];
    assert forall k | |y| < k < |s| :: s[k] == b[k - |y| - 1];
    assert |x| == |y|;
    assert x == s[..|x|] && y == s[..|x|];
    assert a == s[|x| + 1..] && b == s[|x| + 1..];
  }

  lemma NameInjective(p: Priority, q: Priority)
    requires Name(p) == Name(q)
    ensures p == q
  {
    assert Name(Critical)[0] == 'c' && Name(Default)[0] == 'd' && Name(Bulk)[0] == 'b';
  }

  /** No two lanes share a queue, whatever their session ids contain. */
  lemma QueueForInjective(s: string, p: Priority, t: string, q: Priority)
    requires QueueFor(s, p) == QueueFor(t, q)
    ensures s == t && p == q
  {
    LastField(QUEUE_PREFIX + ":" + s, Name(p), QUEUE_PREFIX + ":" + t, Name(q), ':');
    assert s == (QUEUE_PREFIX + ":" + s)[3..] && t == (QUEUE_PREFIX + ":" + t)[3..];
    NameInjective(p, q);
  }

  /** No two of (session, lane, recipient) share a coalesce group. */
  lemma CoalesceKeyInjective(s: string, p: Priority, to: string, s': string, p': Priority, to': string)
    requires ':' !in to && ':' !in to'
    requires CoalesceKey(s, p, to) == CoalesceKey(s', p', to')
    ensures s == s' && p == p' && to == to'
  {
    LastField(COALESCE_KEY_PREFIX + s + ":" + Name(p), to, COALESCE_KEY_PREFIX + s' + ":" + Name(p'), to', ':');
    LastField(COALESCE_KEY_PREFIX + s, Name(p), COALESCE_KEY_PREFIX + s', Name(p'), ':');
    assert s == (COALESCE_KEY_PREFIX + s)[|COALESCE_KEY_PREFIX|..];
    assert s' == (COALESCE_KEY_PREFIX + s')[|COALESCE_KEY_PREFIX|..];
    NameInjective(p, p');
  }

  /** One gateway key belongs to one API key, one caller key and one recipient. */
  lemma IdempotencyKeyInjective(a: string, c: string, to: string, a': string, c': string, to': string)
    requires ValidCallerKey(c) && ValidCallerKey(c') && IsRecipient(to) && IsRecipient(to')
    requires IdempotencyKey(a, c, to) == IdempotencyKey(a', c', to')
    ensures a == a' && c == c' && to == to'
  {
    assert NUL == ['\0'];
    LastField(a + NUL + c + NUL + to, "", a' + NUL + c' + NUL + to', "", '\0');
    LastField(a + NUL + c, to, a' + NUL + c', to', '\0');
    LastField(a, c, a', c', '\0');
  }

  // ---------------------------------------------------------------- reading a queue name back

  lemma {:induction false} SplitFirst(a: string, rest: string)
    requires ':' !in a
    ensures Split(a + ":" + rest) == [a] + Split(rest)
  {
    var s := a + ":" + rest;
    if a == "" {
      assert s == ":" + rest && s[1..] == rest;
    } else {
      SplitFirst(a[1..], rest);
      assert s[1..] == a[1..] + ":" + rest;
      assert [a[0]] + a[1..] == a;
    }
  }

  lemma {:induction false} SplitAtom(a: string)
    requires ':' !in a
    ensures Split(a) == [a]
  {
    if a != "" {
      SplitAtom(a[1..]);
      assert [a[0]] + a[1..] == a;
    }
  }

  /** The first part is what precedes the first colon, and the others are the parts of the rest. */
  lemma {:induction false} SplitInverse(s: string)
    ensures ':' !in Split(s)[0]
    ensures |Split(s)| == 1 ==> s == Split(s)[0]
    ensures |Split(s)| > 1 ==>
      |Split(s)[0]| < |s| && s == Split(s)[0] + ":" + s[|Split(s)[0]| + 1..] &&
      Split(s)[1..] == Split(s[|Split(s)[0]| + 1..])
  {
    if s != "" && s[0] != ':' {
      SplitInverse(s[1..]);
      var head := Split(s[1..])[0];
      assert Split(s)[0] == [s[0]] + head;
      if |Split(s)| > 1 {
        assert s[1..][|head| + 1..] == s[|head| + 2..];
        assert s == [s[0]] + s[1..];
        assert Split(s)[1..] == Split(s[1..])[1..];
      }
    } else if s != "" {
      assert s == "" + ":" + s[1..];
    }
  }

  lemma SplitQueueFor(s: string, p: Priority)
    requires ':' !in s
    ensures Split(QueueFor(s, p)) == [QUEUE_PREFIX, s, Name(p)]
  {
    assert QueueFor(s, p) == QUEUE_PREFIX + ":" + (s + ":" + Name(p));
    SplitFirst(QUEUE_PREFIX, s + ":" + Name(p));
    SplitFirst(s, Name(p));
    SplitAtom(Name(p));
  }

  lemma SplitThree(queue: string)
    requires |Split(queue)| == 3
    ensures var parts := Split(queue); ':' !in parts[1] && queue == parts[0] + ":" + (parts[1] + ":" + parts[2])
  {
    SplitInverse(queue);
    var rest := queue[|Split(queue)[0]| + 1..];
    SplitInverse(rest);
    SplitInverse(rest[|Split(rest)[0]| + 1..]);
    assert Split(rest)[0] == Split(queue)[1];
    assert Split(rest)[1] == Split(queue)[2];
  }

  lemma ParsedPriority(word: string, p: Priority)
    ensures ParsePriority(word) == Ok(p) && word != "" <==> word == Name(p)
  {
    NameInjective(p, p);
  }

  /** ParseQueue inverts QueueFor exactly on the non-empty, colon-free session ids, and accepts
      nothing else. */
  lemma ParseQueueIff(queue: string, s: string, p: Priority)
    ensures ParseQueue(queue) == Ok((s, p)) <==> queue == QueueFor(s, p) && s != "" && ':' !in s
  {
    if queue == QueueFor(s, p) && ':' !in s {
      SplitQueueFor(s, p);
      ParsedPriority(Name(p), p);
    }
    if ParseQueue(queue) == Ok((s, p)) {
      SplitThree(queue);
      ParsedPriority(Split(queue)[2], p);
      assert queue == QUEUE_PREFIX + ":" + (s + ":" + Name(p));
      assert queue == QueueFor(s, p);
    }
  }
}
