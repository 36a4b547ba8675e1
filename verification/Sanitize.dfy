/** Cleaning the error details of providers: what looks like a key is masked before anything is logged. */
module Sanitize {
  import opened Text

  const MASK := "[REDACTED]"
  const LIMIT: nat := 200
  const KEY_LENGTH: nat := 20

  predicate IsAscii(c: char) {
    (c as int) < 128
  }

  predicate IsUpper(c: char) {
    'A' <= c <= 'Z'
  }

  predicate IsDigit(c: char) {
    '0' <= c <= '9'
  }

  predicate IsAlnum(c: char) {
    IsUpper(c) || 'a' <= c <= 'z' || IsDigit(c)
  }

  predicate AllAscii(s: string) {
    forall c <- s :: IsAscii(c)
  }

  predicate AllAlnum(s: string) {
    forall c <- s :: IsAlnum(c)
  }

  /** What looks like a key: long, with an upper-case letter and a digit. */
  predicate Secret(run: string) {
    |run| >= KEY_LENGTH && (exists c :: c in run && IsUpper(c)) && (exists c :: c in run && IsDigit(c))
  }

  /** A text without its non-ASCII characters. */
  function OnlyAscii(s: string): (r: string)
    ensures AllAscii(r)
    ensures AllAscii(s) ==> r == s
  {
    if s == "" then ""
    else if IsAscii(s[0]) then
      assert AllAscii(s) ==> AllAscii(s[1..]);
      [s[0]] + OnlyAscii(s[1..])
    else
      assert s[0] in s;
      OnlyAscii(s[1..])
  }

  /** The length of the run of letters and digits a text starts with. */
  function RunLength(s: string): (n: nat)
    ensures n <= |s| && AllAlnum(s[..n])
    ensures n < |s| ==> !IsAlnum(s[n])
  {
    if s == "" || !IsAlnum(s[0]) then 0
    else
      var n := 1 + RunLength(s[1..]);
      assert s[..n] == [s[0]] + s[1..][..n - 1];
      n
  }

  function Masked(run: string): string {
    if Secret(run) then MASK else run
  }

  /** Every maximal run masked when it looks like a key, everything else kept. */
  function Redact(s: string): string
    decreases |s|
  {
    if s == "" then ""
    else if !IsAlnum(s[0]) then [s[0]] + Redact(s[1..])
    else var n := RunLength(s); Masked(s[..n]) + Redact(s[n..])
  }

  function Sanitized(detail: string): string {
    var r := Redact(OnlyAscii(detail));
    if |r| > LIMIT then r[..LIMIT] else r
  }

  // ------------------------------------------------------------------ the loop

  lemma {:induction false} RunEnds(run: string, rest: string)
    requires AllAlnum(run) && (rest == "" || !IsAlnum(rest[0]))
    ensures RunLength(run + rest) == |run|
  {
    hide IsAlnum;
    if run == "" {
      assert run + rest == rest;
    } else {
      assert run[0] in run;
      RunEnds(run[1..], rest);
      assert (run + rest)[1..] == run[1..] + rest;
    }
  }

  /** A run that has just ended is masked or kept. */
  lemma {:induction false} RedactRun(run: string, rest: string)
    requires AllAlnum(run) && (rest == "" || !IsAlnum(rest[0]))
    ensures Redact(run + rest) == Masked(run) + Redact(rest)
  {
    hide Secret, IsAlnum;
    var s := run + rest;
    if run == "" {
      assert s == rest;
      NotSecret("");
      assert "" + Redact(rest) == Redact(rest);
    } else {
      assert run[0] in run && s[0] == run[0];
      RunEnds(run, rest);
      assert s[..|run|] == run && s[|run|..] == rest;
    }
  }

  lemma NotSecret(run: string)
    requires |run| < KEY_LENGTH
    ensures !Secret(run)
  {
  }

  lemma RedactMark(mark: char, rest: string)
    requires !IsAlnum(mark)
    ensures Redact([mark] + rest) == [mark] + Redact(rest)
  {
    hide IsAlnum;
    assert ([mark] + rest)[1..] == rest;
  }

  /** One character of the loop: what is behind it stays to be redacted. */
  lemma {:induction false} TakesChar(result: string, buf: string, rest: string)
    requires rest != "" && AllAlnum(buf)
    ensures if IsAlnum(rest[0]) then
              AllAlnum(buf + [rest[0]]) && result + Redact(buf + rest) == result + Redact(buf + [rest[0]] + rest[1..])
            else
              result + Redact(buf + rest) == result + Masked(buf) + [rest[0]] + Redact("" + rest[1..])
  {
    hide Secret, IsAlnum, Redact, Masked;
    assert rest == [rest[0]] + rest[1..];
    if IsAlnum(rest[0]) {
      assert buf + rest == buf + [rest[0]] + rest[1..];
    } else {
      RedactRun(buf, rest);
      RedactMark(rest[0], rest[1..]);
      assert "" + rest[1..] == rest[1..];
      assert result + (Masked(buf) + ([rest[0]] + Redact(rest[1..]))) ==
          result + Masked(buf) + [rest[0]] + Redact(rest[1..]);
    }
  }

  /** Does a buffered run look like a key? */
  method LooksLikeKey(buf: string) returns (yes: bool)
    ensures yes == Secret(buf)
  {
    var upper, digit := false, false;
    for i := 0 to |buf|
      invariant upper == exists c :: c in buf[..i] && IsUpper(c)
      invariant digit == exists c :: c in buf[..i] && IsDigit(c)
    {
      assert buf[..i + 1] == buf[..i] + [buf[i]];
      upper, digit := upper || IsUpper(buf[i]), digit || IsDigit(buf[i]);
    }
    assert buf[..|buf|] == buf;
    return |buf| >= KEY_LENGTH && upper && digit;
  }

  method SanitizeErrorDetail(detail: string) returns (clean: string)
    ensures clean == Sanitized(detail)
  {
    hide Redact, Secret, IsAlnum, OnlyAscii, AllAlnum;
    var cleaned := OnlyAscii(detail);
    var result, buf := "", "";
    NothingYet(cleaned);
    for i := 0 to |cleaned|
      invariant AllAlnum(buf)
      invariant Redact(cleaned) == result + Redact(buf + cleaned[i..])
    {
      var ch := cleaned[i];
      TakesChar(result, buf, cleaned[i..]);
      assert cleaned[i..][1..] == cleaned[i + 1..];
      if IsAlnum(ch) {
        buf := buf + [ch];
      } else {
        var key := LooksLikeKey(buf);
        result := result + (if key then MASK else buf);
        result := result + [ch];
        buf := "";
        NothingYet("");
      }
    }
    assert buf + cleaned[|cleaned|..] == buf + "";
    RedactRun(buf, "");
    NothingYet("");
    if buf != "" {
      var key := LooksLikeKey(buf);
      result := result + (if key then MASK else buf);
    } else {
      NotSecret("");
    }
    assert Redact(cleaned) == result + "" == result;
    clean := if |result| > LIMIT then result[..LIMIT] else result;
  }

  lemma NothingYet(s: string)
    ensures AllAlnum("") && "" + s == s && "" + Redact("" + s) == Redact(s) && Redact("") == ""
  {
    assert "" + s == s;
  }

  // ------------------------------------------------------------------ what cannot get through

  /** No stretch of letters and digits anywhere looks like a key. */
  ghost predicate Harmless(s: string) {
    forall i, j :: 0 <= i <= j <= |s| && AllAlnum(s[i..j]) ==> !Secret(s[i..j])
  }

  lemma PartOfHarmless(run: string, i: nat, j: nat)
    requires !Secret(run) && i <= j <= |run|
    ensures !Secret(run[i..j])
  {
    var part := run[i..j];
    assert forall c :: c in part ==> c in run;
  }

  lemma PrefixIsHarmless(s: string, n: nat)
    requires Harmless(s) && n <= |s|
    ensures Harmless(s[..n])
  {
    hide Secret, AllAlnum;
    forall i, j | 0 <= i <= j <= n && AllAlnum(s[..n][i..j])
      ensures !Secret(s[..n][i..j])
    {
      assert s[..n][i..j] == s[i..j];
    }
  }

  lemma AlnumAt(s: string, i: nat, j: nat, k: nat)
    requires i <= k < j <= |s| && AllAlnum(s[i..j])
    ensures IsAlnum(s[k])
  {
    assert s[i..j][k - i] in s[i..j];
  }

  /** A stretch that meets a mark lies on one side of it. */
  lemma JoinIsHarmless(a: string, b: string)
    requires (forall i, j :: 0 <= i <= j <= |a| ==> !Secret(a[i..j])) && Harmless(b)
    requires b == "" || !IsAlnum(b[0])
    ensures Harmless(a + b)
  {
    hide Secret, IsAlnum;
    var s := a + b;
    forall i, j | 0 <= i <= j <= |s| && AllAlnum(s[i..j])
      ensures !Secret(s[i..j])
    {
      if j <= |a| {
        assert s[i..j] == a[i..j];
      } else if i >= |a| {
        assert s[i..j] == b[i - |a|..j - |a|];
      } else {
        AlnumAt(s, i, j, |a|);
        assert false;
      }
    }
  }

  lemma RedactStart(s: string)
    requires s != "" && !IsAlnum(s[0])
    ensures Redact(s) != "" && Redact(s)[0] == s[0]
  {
  }

  lemma MaskedIsHarmless(run: string)
    ensures forall i, j :: 0 <= i <= j <= |Masked(run)| ==> !Secret(Masked(run)[i..j])
  {
    hide Secret;
    forall i, j | 0 <= i <= j <= |Masked(run)|
      ensures !Secret(Masked(run)[i..j])
    {
      if Secret(run) { NotSecret(MASK[i..j]); } else { PartOfHarmless(run, i, j); }
    }
  }

  lemma MarkThenHarmless(mark: char, b: string)
    requires !IsAlnum(mark) && Harmless(b)
    ensures Harmless([mark] + b)
  {
    hide Secret, IsAlnum;
    var s := [mark] + b;
    forall i, j | 0 <= i <= j <= |s| && AllAlnum(s[i..j])
      ensures !Secret(s[i..j])
    {
      if i >= 1 {
        assert s[i..j] == b[i - 1..j - 1];
      } else if j >= 1 {
        AlnumAt(s, i, j, 0);
        assert false;
      } else {
        NotSecret(s[i..j]);
      }
    }
  }

  /** Redacted text is harmless. */
  lemma {:induction false} RedactIsHarmless(s: string)
    ensures Harmless(Redact(s))
    decreases |s|
  {
    hide Secret, IsAlnum, Harmless, Masked;
    if s == "" {
      EmptyIsHarmless();
    } else if !IsAlnum(s[0]) {
      RedactIsHarmless(s[1..]);
      MarkThenHarmless(s[0], Redact(s[1..]));
    } else {
      var n := RunLength(s);
      RedactIsHarmless(s[n..]);
      MaskedIsHarmless(s[..n]);
      if s[n..] != "" { RedactStart(s[n..]); }
      JoinIsHarmless(Masked(s[..n]), Redact(s[n..]));
    }
  }

  lemma EmptyIsHarmless()
    ensures Harmless("")
  {
  }

  /** Redaction changes a text exactly when something in it looks like a key. */
  lemma {:induction false} RedactKeepsIff(s: string)
    ensures Redact(s) == s <==> Harmless(s)
  {
    RedactIsHarmless(s);
    if Harmless(s) { HarmlessIsKept(s); }
  }

  lemma {:induction false} HarmlessIsKept(s: string)
    requires Harmless(s)
    ensures Redact(s) == s
    decreases |s|
  {
    hide Secret, IsAlnum;
    if s != "" {
      var n := if IsAlnum(s[0]) then RunLength(s) else 1;
      SuffixIsHarmless(s, n);
      HarmlessIsKept(s[n..]);
      assert s == s[..n] + s[n..];
      if IsAlnum(s[0]) { assert s[0..n] == s[..n]; } else { assert s[..1] == [s[0]]; }
    }
  }

  lemma SuffixIsHarmless(s: string, n: nat)
    requires Harmless(s) && n <= |s|
    ensures Harmless(s[n..])
  {
    hide Secret, AllAlnum;
    forall i, j | 0 <= i <= j <= |s[n..]| && AllAlnum(s[n..][i..j])
      ensures !Secret(s[n..][i..j])
    {
      assert s[n..][i..j] == s[n + i..n + j];
    }
  }

  lemma {:induction false} RedactIsAscii(s: string)
    requires AllAscii(s)
    ensures AllAscii(Redact(s))
    decreases |s|
  {
    hide Secret, IsAlnum;
    if s != "" {
      assert s[0] in s;
      var n := if IsAlnum(s[0]) then RunLength(s) else 1;
      assert AllAscii(s[n..]) && AllAscii(s[..n]);
      RedactIsAscii(s[n..]);
      assert AllAscii(MASK);
    }
  }

  /** Whatever comes in, at most 200 ASCII characters go out, and nothing in them looks like a key. */
  lemma SanitizedIsSafe(detail: string)
    ensures var r := Sanitized(detail); |r| <= LIMIT && AllAscii(r) && Harmless(r)
  {
    hide Redact, Harmless;
    var r := Redact(OnlyAscii(detail));
    RedactIsHarmless(OnlyAscii(detail));
    RedactIsAscii(OnlyAscii(detail));
    if |r| > LIMIT { PrefixIsHarmless(r, LIMIT); }
  }

  /** Sanitizing twice is sanitizing once. */
  lemma {:induction false} SanitizeIsIdempotent(detail: string)
    ensures Sanitized(Sanitized(detail)) == Sanitized(detail)
  {
    hide Redact, Harmless;
    var r := Sanitized(detail);
    SanitizedIsSafe(detail);
    HarmlessIsKept(r);
  }

  /** A detail comes out as it went in exactly when it is short ASCII without anything like a key. */
  lemma SanitizeKeepsIff(detail: string)
    ensures Sanitized(detail) == detail <==> |detail| <= LIMIT && AllAscii(detail) && Harmless(detail)
  {
    hide Redact, Harmless;
    SanitizedIsSafe(detail);
    if AllAscii(detail) && Harmless(detail) { HarmlessIsKept(detail); }
  }

  // ------------------------------------------------------------------ what is kept and what is masked

  function AsciiOf(c: char): string {
    if (c as int) < 128 then [c] else ""
  }

  lemma OnlyAsciiCons(s: string)
    ensures s != "" ==> OnlyAscii(s) == AsciiOf(s[0]) + OnlyAscii(s[1..])
    ensures s == "" ==> OnlyAscii(s) == ""
  {
    hide AllAscii;
  }

  /** Exactly the characters that are not ASCII are removed, each by itself. */
  lemma {:induction false} OnlyAsciiIs(s: string, k: nat)
    requires k < |s|
    ensures OnlyAscii(s) == OnlyAscii(s[..k]) + (AsciiOf(s[k]) + OnlyAscii(s[k + 1..]))
  {
    hide OnlyAscii, AsciiOf;
    var head := AsciiOf(s[0]);
    OnlyAsciiCons(s);
    OnlyAsciiCons(s[..k]);
    if k > 0 {
      var tail := s[1..];
      OnlyAsciiIs(tail, k - 1);
      assert tail[..k - 1] == s[..k][1..] && tail[k..] == s[k + 1..];
      Assoc(head, OnlyAscii(tail[..k - 1]), AsciiOf(s[k]) + OnlyAscii(s[k + 1..]));
    } else {
      assert "" + (head + OnlyAscii(s[1..])) == head + OnlyAscii(s[1..]);
    }
  }

  lemma Assoc(a: string, b: string, c: string)
    ensures a + (b + c) == (a + b) + c
  {
  }

  lemma RedactPlain(s: string)
    ensures Redact("") == ""
    ensures s != "" && !IsAlnum(s[0]) ==> Redact(s) == [s[0]] + Redact(s[1..])
  {
    hide IsAlnum, Masked, RunLength;
  }

  lemma {:induction false} RedactSplit(a: string, b: string)
    requires a != "" ==> !IsAlnum(a[|a| - 1])
    ensures Redact(a + b) == Redact(a) + Redact(b)
    decreases |a|, 1
  {
    hide Secret, IsAlnum, Masked, RunLength, Redact, AllAlnum;
    if a == "" {
      RedactPlain("");
      assert a + b == b && "" + Redact(b) == Redact(b);
    } else if !IsAlnum(a[0]) {
      RedactPlain(a);
      RedactPlain(a + b);
      assert (a + b)[1..] == a[1..] + b;
      RedactSplit(a[1..], b);
      Assoc([a[0]], Redact(a[1..]), Redact(b));
    } else {
      RedactRunSplit(a, RunLength(a), b);
    }
  }

  lemma {:induction false} RedactRunSplit(a: string, n: nat, b: string)
    requires a != "" && !IsAlnum(a[|a| - 1]) && IsAlnum(a[0]) && n == RunLength(a)
    ensures Redact(a + b) == Redact(a) + Redact(b)
    decreases |a|, 0
  {
    hide Secret, IsAlnum, Masked, Redact, AllAlnum;
    AlnumToTheEnd(a);
    assert n > 0;
    hide RunLength;
    var (run, rest) := (a[..n], a[n..]);
    assert run + rest == a && run + (rest + b) == a + b;
    RedactRun(run, rest);
    RedactRun(run, rest + b);
    RedactSplit(rest, b);
    Assoc(Masked(run), Redact(rest), Redact(b));
  }

  lemma AlnumToTheEnd(a: string)
    requires a != "" && !IsAlnum(a[|a| - 1])
    ensures RunLength(a) < |a|
  {
    hide IsAlnum;
    var n := RunLength(a);
    assert forall i :: 0 <= i < n ==> IsAlnum(a[..n][i]) && a[..n][i] == a[i];
  }

  /** Each maximal run of letters and digits is masked if it looks like a key, and kept if not; the rest is kept. */
  lemma RunIsMasked(a: string, run: string, b: string)
    requires AllAlnum(run) && (a != "" ==> !IsAlnum(a[|a| - 1])) && (b != "" ==> !IsAlnum(b[0]))
    ensures Redact(a + (run + b)) == Redact(a) + ((if Secret(run) then "[REDACTED]" else run) + Redact(b))
  {
    hide Secret, IsAlnum, Redact;
    RedactSplit(a, run + b);
    RedactRun(run, b);
  }

  /** What looks like a key has twenty letters and digits or more, one of them upper case, and one a digit. */
  lemma SecretIff(run: string)
    ensures Secret(run)
       <==> && |run| >= 20 && (exists i :: 0 <= i < |run| && 'A' <= run[i] <= 'Z')
            && (exists i :: 0 <= i < |run| && '0' <= run[i] <= '9')
  {
    if i :| 0 <= i < |run| && 'A' <= run[i] <= 'Z' { assert run[i] in run && IsUpper(run[i]); }
    if i :| 0 <= i < |run| && '0' <= run[i] <= '9' { assert run[i] in run && IsDigit(run[i]); }
  }
}
