/** Strings as the backend sees them: searching, trimming, splitting and joining. */
module Text {

  datatype Option<+T> = None | Some(value: T)

  /** The characters of Unicode property White_Space, which is what Rust's `trim` removes. */
  predicate IsWhitespace(c: char) {
    || '\U{9}' <= c <= '\U{d}' || c == ' ' || c == '\U{85}' || c == '\U{a0}' || c == '\U{1680}'
    || '\U{2000}' <= c <= '\U{200a}' || c == '\U{2028}' || c == '\U{2029}' || c == '\U{202f}'
    || c == '\U{205f}' || c == '\U{3000}'
  }

  function TrimStart(s: string): (r: string)
    ensures r == "" || !IsWhitespace(r[0])
    ensures |r| <= |s| && r == s[|s| - |r|..]
  {
    if s != "" && IsWhitespace(s[0]) then TrimStart(s[1..]) else s
  }

  function TrimEnd(s: string): (r: string)
    ensures r == "" || !IsWhitespace(r[|r| - 1])
    ensures r <= s
  {
    if s != "" && IsWhitespace(s[|s| - 1]) then TrimEnd(s[..|s| - 1]) else s
  }

  function Trim(s: string): string {
    TrimEnd(TrimStart(s))
  }

  /** A string is blank when nothing is left of it after trimming. */
  predicate Blank(s: string) {
    forall i :: 0 <= i < |s| ==> IsWhitespace(s[i])
  }

  lemma BlankTail(s: string)
    requires s != ""
    ensures Blank(s) <==> IsWhitespace(s[0]) && Blank(s[1..])
  {
    hide IsWhitespace;
    if IsWhitespace(s[0]) && Blank(s[1..]) {
      forall i | 0 <= i < |s|
        ensures IsWhitespace(s[i])
      {
        if i > 0 { assert s[i] == s[1..][i - 1]; }
      }
    }
  }

  lemma {:induction false} TrimStartBlank(s: string)
    ensures TrimStart(s) == "" <==> Blank(s)
  {
    hide IsWhitespace;
    if s != "" {
      BlankTail(s);
      if IsWhitespace(s[0]) {
        TrimStartBlank(s[1..]);
      }
    }
  }

  /** `trim().is_empty()` is the same as being blank. */
  lemma TrimBlank(s: string)
    ensures Trim(s) == "" <==> Blank(s)
  {
    hide IsWhitespace;
    TrimStartBlank(s);
    var t := TrimStart(s);
    if t != "" {
      assert !IsWhitespace(t[0]);
      TrimEndKeeps(t);
    }
  }

  lemma {:induction false} TrimEndKeeps(t: string)
    requires t != "" && !IsWhitespace(t[0])
    ensures TrimEnd(t) != ""
  {
    hide IsWhitespace;
    if IsWhitespace(t[|t| - 1]) {
      TrimEndKeeps(t[..|t| - 1]);
    }
  }

  /** Trimming has nothing to do on a string whose two ends are not white space. */
  predicate Trimmed(s: string) {
    s != "" ==> !IsWhitespace(s[0]) && !IsWhitespace(s[|s| - 1])
  }

  lemma SpaceIsWhitespace()
    ensures IsWhitespace(' ')
  {
  }

  lemma {:induction false} TrimTrimmed(s: string)
    requires Trimmed(s)
    ensures Trim(s) == s && Trim(" " + s) == s
  {
    hide IsWhitespace;
    SpaceIsWhitespace();
    var t := " " + s;
    assert t[1..] == s && t[0] == ' ';
  }

  lemma AppendAssoc<T>(a: seq<T>, b: seq<T>, c: seq<T>)
    ensures a + (b + c) == (a + b) + c
  {
  }

  predicate PairAt(s: string, a: char, b: char, i: int) {
    0 <= i && i + 1 < |s| && s[i] == a && s[i + 1] == b
  }

  /** The leftmost place at or after `from` where `a` is directly followed by `b`. */
  function FindPair(s: string, a: char, b: char, from: nat := 0): (r: Option<nat>)
    ensures r.Some? ==> from <= r.value && PairAt(s, a, b, r.value)
    ensures r.Some? ==> forall j :: from <= j < r.value ==> !PairAt(s, a, b, j)
    ensures r.None? ==> forall j :: from <= j ==> !PairAt(s, a, b, j)
    decreases |s| - from
  {
    if from + 1 >= |s| then None
    else if PairAt(s, a, b, from) then Some(from)
    else FindPair(s, a, b, from + 1)
  }

  lemma FindPairIs(s: string, a: char, b: char, k: nat)
    requires PairAt(s, a, b, k) && forall j :: 0 <= j < k ==> !PairAt(s, a, b, j)
    ensures FindPair(s, a, b) == Some(k)
  {
    var found := FindPair(s, a, b);
    assert found.Some? && !(found.value < k) && !(k < found.value);
  }

  lemma FindPairNone(s: string, a: char, b: char)
    requires forall j :: 0 <= j ==> !PairAt(s, a, b, j)
    ensures FindPair(s, a, b) == None
  {
  }

  function Concat(parts: seq<string>): string {
    if parts == [] then "" else parts[0] + Concat(parts[1..])
  }

  lemma {:induction false} ConcatAppend(a: seq<string>, b: seq<string>)
    ensures Concat(a + b) == Concat(a) + Concat(b)
  {
    if a == [] {
      assert a + b == b;
    } else {
      assert (a + b)[1..] == a[1..] + b;
      ConcatAppend(a[1..], b);
    }
  }

  lemma ConcatSnoc(a: seq<string>, x: string)
    ensures Concat(a + [x]) == Concat(a) + x
  {
    ConcatAppend(a, [x]);
    assert Concat([x]) == x;
  }

  function Join(lines: seq<string>, separator: string): string {
    if lines == [] then ""
    else if |lines| == 1 then lines[0]
    else lines[0] + separator + Join(lines[1..], separator)
  }

  function FindChar(s: string, c: char): (r: Option<nat>)
    ensures r.Some? ==> r.value < |s| && s[r.value] == c && c !in s[..r.value]
    ensures r.None? ==> c !in s
  {
    if s == "" then None
    else if s[0] == c then Some(0)
    else
      match FindChar(s[1..], c)
      case None => None
      case Some(k) =>
        assert s[..k + 1] == [s[0]] + s[1..][..k];
        Some(k + 1)
  }

  /** `split('\n')`: never empty, and the empty string has one empty line. */
  function Lines(s: string): (ls: seq<string>)
    ensures ls != []
    decreases |s|
  {
    match FindChar(s, '\n')
    case None => [s]
    case Some(k) => [s[..k]] + Lines(s[k + 1..])
  }

  lemma LinesOfFirst(x: string, y: string)
    requires '\n' !in x
    ensures Lines(x + "\n" + y) == [x] + Lines(y)
  {
    var s := x + "\n" + y;
    assert s[|x|] == '\n';
    var k := FindChar(s, '\n').value;
    assert forall h :: 0 <= h < |x| ==> s[h] == x[h] && x[h] in x;
    forall h | 0 <= h < k
      ensures s[h] != '\n'
    {
      assert s[h] == s[..k][h];
    }
    assert k == |x|;
    assert s[..k] == x && s[k + 1..] == y;
  }
}
