/** Signed webhooks: the text that is signed, and the window in which a
    signature is accepted.  HMAC-SHA256 is taken to be
    injective in the text, under one secret. */
module Signature {
  import opened Model

  // ---------------------------------------------------------------- numbers as text

  predicate IsDigit(c: char) {
    '0' <= c <= '9'
  }

  function Digits(n: nat): string {
    if n < 10 then [('0' as int + n) as char] else Digits(n / 10) + [('0' as int + n % 10) as char]
  }

  /** The "%d" of fmt. */
  function Itoa(n: int): string {
    if n < 0 then "-" + Digits(-n) else Digits(n)
  }

  function NatOf(s: string): nat
    requires forall c :: c in s ==> IsDigit(c)
  {
    if s == "" then 0 else
      assert IsDigit(s[|s| - 1]);
      NatOf(s[..|s| - 1]) * 10 + (s[|s| - 1] as int - '0' as int)
  }

  const MIN64 := -0x8000_0000_0000_0000
  const MAX64 := 0x7fff_ffff_ffff_ffff

  function Unsigned(s: string): string {
    if s != "" && s[0] in "+-" then s[1..] else s
  }

  /** strconv.ParseInt(s, 10, 64). */
  function ParseInt(s: string): Option<int> {
    var u := Unsigned(s);
    if u == "" || exists c :: c in u && !IsDigit(c) then None
    else
      var n: int := if s[0] == '-' then 0 - NatOf(u) else NatOf(u);
      if MIN64 <= n <= MAX64 then Some(n) else None
  }

  lemma {:induction false} DigitsParse(n: nat)
    ensures Digits(n) != "" && (forall c :: c in Digits(n) ==> IsDigit(c)) && NatOf(Digits(n)) == n
  {
    if n >= 10 {
      DigitsParse(n / 10);
      assert Digits(n)[..|Digits(n)| - 1] == Digits(n / 10);
    } else {
      assert NatOf(Digits(n)[..0]) == 0;
    }
  }

  lemma ItoaParses(n: int)
    ensures '.' !in Itoa(n)
    ensures MIN64 <= n <= MAX64 ==> ParseInt(Itoa(n)) == Some(n)
  {
    DigitsParse(if n < 0 then -n else n);
    assert n < 0 ==> Unsigned(Itoa(n)) == Digits(-n);
    assert n >= 0 ==> Itoa(n)[0] in Digits(n) && Unsigned(Itoa(n)) == Digits(n);
  }

  // ---------------------------------------------------------------- the signed text

  function SignedPayload(id: string, ts: int, body: string): string {
    id + "." + Itoa(ts) + "." + body
  }

  datatype Parts = Parts(id: string, ts: int, body: string)

  /** The text before the first separator, and the text after it. */
  function Cut(s: string, sep: char): (r: (string, string))
    requires sep in s
    ensures s == r.0 + [sep] + r.1 && sep !in r.0
  {
    if s[0] == sep then ("", s[1..]) else
      var rest := Cut(s[1..], sep);
      ([s[0]] + rest.0, rest.1)
  }

  /** Cutting is the only way to take a text apart at its first separator. */
  lemma {:induction false} CutIsUnique(before: string, sep: char, after: string)
    requires sep !in before
    ensures sep in before + [sep] + after && Cut(before + [sep] + after, sep) == (before, after)
  {
    var s := before + [sep] + after;
    assert s[|before|] == sep;
    if before == "" {
      assert s[1..] == after;
    } else {
      assert s[1..] == before[1..] + [sep] + after;
      assert s[0] == before[0] && before[0] in before;
      CutIsUnique(before[1..], sep, after);
      assert [before[0]] + before[1..] == before;
    }
  }

  function ParsePayload(s: string): Option<Parts> {
    if '.' !in s then None
    else
      var (id, rest) := Cut(s, '.');
      if '.' !in rest then None
      else
        var (ts, body) := Cut(rest, '.');
        match ParseInt(ts)
        case Some(n) => Some(Parts(id, n, body))
        case None => None
  }

  /** The signed text of a dot-free id, any 64-bit timestamp and any body parses
      back to exactly these three. */
  lemma PayloadRoundTrip(id: string, ts: int, body: string)
    requires '.' !in id && MIN64 <= ts <= MAX64
    ensures ParsePayload(SignedPayload(id, ts, body)) == Some(Parts(id, ts, body))
  {
    var rest := Itoa(ts) + "." + body;
    ItoaParses(ts);
    assert SignedPayload(id, ts, body) == id + "." + rest;
    CutIsUnique(id, '.', rest);
    CutIsUnique(Itoa(ts), '.', body);
  }

  /** No other id does: what parses has its id cut off at the first dot. */
  lemma PayloadParsesIff(id: string, ts: int, body: string)
    requires MIN64 <= ts <= MAX64
    ensures ParsePayload(SignedPayload(id, ts, body)) == Some(Parts(id, ts, body)) <==> '.' !in id
  {
    if '.' !in id {
      PayloadRoundTrip(id, ts, body);
    } else {
      ParsedIdIsDotFree(SignedPayload(id, ts, body));
    }
  }

  lemma ParsedIdIsDotFree(s: string)
    ensures ParsePayload(s).Some? ==> '.' !in ParsePayload(s).value.id
  {
  }

  /** One text, read in two ways. */
  lemma DottedIdsAreAmbiguous()
    ensures SignedPayload("a", 1, "2.b") == SignedPayload("a.1", 2, "b")
  {
    assert Itoa(1) == "1" && Itoa(2) == "2";
  }

  /** The body is itself stamped: ".body" is y.n.z for a 64-bit number n. */
  ghost predicate Stamped(body: string) {
    exists y, n, z :: MIN64 <= n <= MAX64 && StampedAs(body, y, n, z)
  }

  predicate StampedAs(body: string, y: string, n: int, z: string) {
    "." + body == y + "." + Itoa(n) + "." + z
  }

  /** A text that was signed for a dot-free id can be read with another id only
      by splitting its body at a stamp. */
  lemma OtherReading(id: string, ts: int, body: string, id': string, ts': int, body': string) returns (y: string)
    requires SignedPayload(id, ts, body) == SignedPayload(id', ts', body') && '.' in id && '.' !in id'
    ensures id == id' + "." + (Itoa(ts') + y) && StampedAs(body', y, ts, body)
  {
    var (a, x) := Cut(id, '.');
    var rest := x + "." + Itoa(ts) + "." + body;
    CutPayload(a, x, ts, body);
    CutIsUnique(a, '.', rest);
    Regroup(id', Itoa(ts'), body');
    CutIsUnique(id', '.', Itoa(ts') + "." + body');
    y := AfterStamp(x, ts, body, ts', body');
  }

  lemma CutPayload(a: string, x: string, ts: int, body: string)
    ensures SignedPayload(a + "." + x, ts, body) == a + "." + (x + "." + Itoa(ts) + "." + body)
  {
  }

  /** The number before the first dot of a text, and what follows. */
  lemma AfterStamp(x: string, ts: int, body: string, ts': int, body': string) returns (y: string)
    requires x + "." + Itoa(ts) + "." + body == Itoa(ts') + "." + body'
    ensures x == Itoa(ts') + y && StampedAs(body', y, ts, body)
  {
    var tail := Itoa(ts) + "." + body;
    ItoaParses(ts');
    CutIsUnique(Itoa(ts'), '.', body');
    Regroup(x, Itoa(ts), body);
    if '.' in x {
      var (b, z) := Cut(x, '.');
      Regroup(b, z, tail);
      CutIsUnique(b, '.', z + "." + tail);
      y := "." + z;
      assert x == Itoa(ts') + y;
      Regroup(z, Itoa(ts), body);
      Prefixed(body', z, ts, body);
    } else {
      CutIsUnique(x, '.', tail);
      y := "";
      assert "." + body' == "" + "." + Itoa(ts) + "." + body;
    }
  }

  lemma Prefixed(body: string, z: string, n: int, rest: string)
    requires body == z + "." + (Itoa(n) + "." + rest)
    ensures StampedAs(body, "." + z, n, rest)
  {
    assert "." + body == ("." + z) + "." + Itoa(n) + "." + rest;
  }

  lemma Regroup(a: string, b: string, c: string)
    ensures a + "." + b + "." + c == a + "." + (b + "." + c)
  {
  }

  lemma StampReads(id': string, ts': int, body': string, y: string, n: int, z: string)
    requires StampedAs(body', y, n, z)
    ensures SignedPayload(id' + "." + Itoa(ts') + y, n, z) == SignedPayload(id', ts', body')
  {
    assert SignedPayload(id' + "." + Itoa(ts') + y, n, z) == id' + "." + Itoa(ts') + (y + "." + Itoa(n) + "." + z);
    assert SignedPayload(id', ts', body') == id' + "." + Itoa(ts') + ("." + body');
  }

  predicate TwoDots(s: string) {
    exists i, j :: 0 <= i < j < |s| && s[i] == '.' && s[j] == '.'
  }

  lemma StampShows(body: string, y: string, n: int, z: string)
    requires StampedAs(body, y, n, z)
    ensures body != "" && (IsDigit(body[0]) || body[0] == '-' || TwoDots(body))
  {
    var text, k := "." + body, |y| + 1 + |Itoa(n)|;
    DigitsParse(if n < 0 then -n else n);
    assert text[|y|] == '.' && text[k] == '.' && text[|y| + 1] == Itoa(n)[0];
    if y == "" {
      assert body[0] == Itoa(n)[0];
      assert n >= 0 ==> Itoa(n)[0] in Digits(n);
    } else {
      assert body[|y| - 1] == '.' && body[k - 1] == '.';
    }
  }

  /** A body with one dot, like the PSP's, is not stamped if it starts like an object. */
  lemma OneDotIsNoStamp(body: string)
    requires body != "" && body[0] == '{' && !TwoDots(body)
    ensures !Stamped(body)
  {
    forall y, n, z
      ensures !StampedAs(body, y, n, z)
    {
      if StampedAs(body, y, n, z) {
        StampShows(body, y, n, z);
      }
    }
  }

  // ---------------------------------------------------------------- signatures

  /** A signature: the MAC of a text under a secret, or any other text.  Nothing
      is concluded about secrets from equal MACs. */
  datatype Sig = Mac(secret: string, payload: string) | OtherText(text: string)

  function Sign(secret: string, id: string, ts: int, body: string): Sig {
    Mac(secret, SignedPayload(id, ts, body))
  }

  datatype VerifyResult = Accepted | InvalidSignature | Replay

  const SECOND := 1_000_000_000
  const REPLAY_WINDOW := 5 * 60 * SECOND

  /** Two's complement. */
  function Wrap64(n: int): int {
    (n - MIN64) % 0x1_0000_0000_0000_0000 + MIN64
  }

  /** Seconds from the year 1 to 1970. */
  const UNIX_TO_INTERNAL := (1969 * 365 + 1969 / 4 - 1969 / 100 + 1969 / 400) * 24 * 60 * 60

  /** time.Unix(ts, 0), in nanoseconds since the year 1; the seconds are an int64. */
  function TimeOf(ts: int): int {
    Wrap64(ts + UNIX_TO_INTERNAL) * SECOND
  }

  /** Time.Sub: the difference, or the nearest Duration. */
  function Sub(t: int, u: int): int {
    if t - u < MIN64 then MIN64 else if t - u > MAX64 then MAX64 else t - u
  }

  function Abs(n: int): int {
    if n < 0 then -n else n
  }

  function Verify(secret: string, id: string, header: string, sig: Sig, body: string, now: int): VerifyResult {
    match ParseInt(header)
    case None => InvalidSignature
    case Some(ts) =>
      var skew := Sub(now, TimeOf(ts));
      var skew' := if skew < 0 then Wrap64(-skew) else skew;
      if skew' > REPLAY_WINDOW then Replay
      else if Sign(secret, id, ts, body) != sig then InvalidSignature
      else Accepted
  }

  /** The header's second is at most five minutes off, or so far in the future
      that the difference saturates and its negation wraps around. */
  predicate InWindow(ts: int, now: int) {
    Abs(now - TimeOf(ts)) <= 300_000_000_000 || now - TimeOf(ts) <= -0x8000_0000_0000_0000
  }

  /** Exactly when a webhook is accepted: it carries the signature of just this
      id, second and body, and its time is in the window; and it is called a
      replay exactly when its time is not, whoever signed it. */
  lemma VerifyIff(secret: string, id: string, header: string, sig: Sig, body: string, now: int)
    ensures Verify(secret, id, header, sig, body, now).Accepted? <==>
              && ParseInt(header).Some?
              && sig == Sign(secret, id, ParseInt(header).value, body)
              && InWindow(ParseInt(header).value, now)
    ensures Verify(secret, id, header, sig, body, now).Replay? <==>
              ParseInt(header).Some? && !InWindow(ParseInt(header).value, now)
  {
    if ParseInt(header).Some? {
      SkewIsAbs(now, TimeOf(ParseInt(header).value));
    }
  }

  lemma SkewIsAbs(now: int, then_: int)
    ensures var skew := Sub(now, then_);
            var skew' := if skew < 0 then Wrap64(-skew) else skew;
            skew' > REPLAY_WINDOW <==> Abs(now - then_) > REPLAY_WINDOW && now - then_ > MIN64
  {
  }

  /** What was signed for second ts of 1970 is accepted exactly within five minutes
      of it, in nanoseconds since the year 1, provided the difference stays below 2^63 nanoseconds. */
  lemma SignedIsAcceptedInWindow(secret: string, id: string, ts: int, body: string, now: int)
    requires MIN64 <= ts <= MAX64 - UNIX_TO_INTERNAL
    requires now - (ts + UNIX_TO_INTERNAL) * SECOND > -0x8000_0000_0000_0000
    ensures Verify(secret, id, Itoa(ts), Sign(secret, id, ts, body), body, now).Accepted? <==>
              Abs(now - (ts + 62_135_596_800) * 1_000_000_000) <= 300_000_000_000
  {
    ItoaParses(ts);
    assert TimeOf(ts) == (ts + UNIX_TO_INTERNAL) * SECOND;
    VerifyIff(secret, id, Itoa(ts), Sign(secret, id, ts, body), body, now);
  }

  /** Without the proviso it is false: everything dated later than 2^63
      nanoseconds, 292 years, from now passes. */
  lemma FarFutureIsAccepted(secret: string, id: string, ts: int, body: string, now: int)
    requires MIN64 <= ts <= MAX64 - UNIX_TO_INTERNAL
    requires now - (ts + UNIX_TO_INTERNAL) * SECOND <= MIN64
    ensures Verify(secret, id, Itoa(ts), Sign(secret, id, ts, body), body, now).Accepted?
  {
    ItoaParses(ts);
    assert TimeOf(ts) == (ts + UNIX_TO_INTERNAL) * SECOND;
    VerifyIff(secret, id, Itoa(ts), Sign(secret, id, ts, body), body, now);
  }

  /** What was signed for (id', ts', body') is accepted for something else. */
  predicate ServesOther(secret: string, id: string, header: string, body: string, now: int,
                        id': string, ts': int, body': string) {
    && Verify(secret, id, header, Sign(secret, id', ts', body'), body, now).Accepted?
    && !(id == id' && ParseInt(header) == Some(ts') && body == body')
  }

  /** Under one secret the signature of a message with a dot-free id serves only
      that message, whatever id is received: if and only if its body is not
      stamped. */
  lemma SignatureBindsMessage(secret: string, id': string, ts': int, body': string)
    requires '.' !in id' && MIN64 <= ts' <= MAX64
    ensures (exists id, header, body, now :: ServesOther(secret, id, header, body, now, id', ts', body'))
            <==> Stamped(body')
  {
    forall id, header, body, now | ServesOther(secret, id, header, body, now, id', ts', body')
      ensures Stamped(body')
    {
      OtherIsStamped(secret, id, header, body, now, id', ts', body');
    }
    if y, n, z :| MIN64 <= n <= MAX64 && StampedAs(body', y, n, z) {
      StampServesOther(secret, id', ts', body', y, n, z);
    }
  }

  lemma OtherIsStamped(secret: string, id: string, header: string, body: string, now: int,
                       id': string, ts': int, body': string)
    requires ServesOther(secret, id, header, body, now, id', ts', body') && '.' !in id' && MIN64 <= ts' <= MAX64
    ensures Stamped(body')
  {
    VerifyIff(secret, id, header, Sign(secret, id', ts', body'), body, now);
    var ts := ParseInt(header).value;
    if '.' in id {
      var y := OtherReading(id, ts, body, id', ts', body');
    } else {
      PayloadRoundTrip(id, ts, body);
      PayloadRoundTrip(id', ts', body');
    }
  }

  lemma StampServesOther(secret: string, id': string, ts': int, body': string, y: string, n: int, z: string)
    requires MIN64 <= n <= MAX64 && StampedAs(body', y, n, z)
    ensures ServesOther(secret, id' + "." + Itoa(ts') + y, Itoa(n), z, TimeOf(n), id', ts', body')
  {
    ItoaParses(n);
    StampReads(id', ts', body', y, n, z);
    VerifyIff(secret, id' + "." + Itoa(ts') + y, Itoa(n), Sign(secret, id', ts', body'), z, TimeOf(n));
  }

  // ---------------------------------------------------------------- hashPayRequest

  /** The text that hashPayRequest hashes. */
  function PayRequestText(invoice: string, token: string): string {
    invoice + "\n" + token
  }

  /** It determines invoice and token, since an invoice id has no line break: this
      is what makes the request hash injective. */
  lemma PayRequestTextIsInjective(invoice: string, token: string, invoice': string, token': string)
    requires '\n' !in invoice && '\n' !in invoice'
    ensures PayRequestText(invoice, token) == PayRequestText(invoice', token') <==>
              invoice == invoice' && token == token'
  {
    CutIsUnique(invoice, '\n', token);
    CutIsUnique(invoice', '\n', token');
  }
}
