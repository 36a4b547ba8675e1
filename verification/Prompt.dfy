/**
 * The prompt template engine: one scanner validates a template, another substitutes variables in it.
 * Both are proved against one tokenisation that looks at no variable.
 */
module Prompt {
  import opened Text

  const CATALOG: seq<string> := ["agent_name", "tenant_name", "customer_name", "channel"]
  const MAX_CONTENT_LENGTH := 8000

  predicate IsLower(c: char) {
    'a' <= c <= 'z'
  }

  predicate IsNameChar(c: char) {
    IsLower(c) || '0' <= c <= '9' || c == '_'
  }

  predicate IsName(name: string) {
    name != "" && IsLower(name[0]) && forall i :: 0 <= i < |name| ==> IsNameChar(name[i])
  }

  method IsValidVariableName(name: string) returns (ok: bool)
    ensures ok <==> IsName(name)
  {
    if name == "" {
      return false;
    }
    if !IsLower(name[0]) {
      return false;
    }
    for i := 1 to |name|
      invariant forall j :: 1 <= j < i ==> IsNameChar(name[j])
    {
      if !IsNameChar(name[i]) {
        return false;
      }
    }
    return true;
  }

  // ------------------------------------------------------------------ tokens

  /** `Unclosed` is an opening that meets another opening, or the end, before it is closed. */
  datatype Token = Literal(text: string) | Placeholder(name: string) | Unclosed(text: string) {
    function Source(): string {
      match this
      case Literal(text) => text
      case Placeholder(name) => "{{" + name + "}}"
      case Unclosed(text) => "{{" + text
    }
  }

  datatype Tokens = End | Cons(head: Token, tail: Tokens)

  /** The tokens of a text that starts outside any placeholder. */
  function Outside(s: string): Tokens
    decreases |s|
  {
    match FindPair(s, '{', '{')
    case None => Cons(Literal(s), End)
    case Some(k) => Cons(Literal(s[..k]), Inside(s[k + 2..]))
  }

  /** The tokens of a text that starts right after an opening. */
  function Inside(s: string): Tokens
    decreases |s|
  {
    var close := FindPair(s, '}', '}');
    var open := FindPair(s, '{', '{');
    if close.Some? && (open.None? || close.value < open.value) then
      Cons(Placeholder(s[..close.value]), Outside(s[close.value + 2..]))
    else if open.Some? then
      Cons(Unclosed(s[..open.value]), Inside(s[open.value + 2..]))
    else
      Cons(Unclosed(s), End)
  }

  function SourceOf(tokens: Tokens): string {
    match tokens
    case End => ""
    case Cons(token, rest) => token.Source() + SourceOf(rest)
  }

  function SpanOf(token: Token, at: nat): seq<(nat, nat)> {
    if token.Placeholder? then [(at, at + |token.Source()|)] else []
  }

  /** Where the closed placeholders are, as start and end positions. */
  function Spans(tokens: Tokens, at: nat): seq<(nat, nat)> {
    match tokens
    case End => []
    case Cons(token, rest) => SpanOf(token, at) + Spans(rest, at + |token.Source()|)
  }

  // ------------------------------------------------------------------ rendering

  function RenderToken(token: Token, vars: map<string, string>): string {
    if token.Placeholder? && IsName(token.name) && token.name in vars then vars[token.name] else token.Source()
  }

  function RenderTokens(tokens: Tokens, vars: map<string, string>): string {
    match tokens
    case End => ""
    case Cons(token, rest) => RenderToken(token, vars) + RenderTokens(rest, vars)
  }

  // ------------------------------------------------------------------ validation

  datatype Issue =
    | Required
    | TooLong
    | StrayClose(at: nat)
    | EmptyName(at: nat)
    | InvalidName(name: string, at: nat)
    | UnknownVariable(name: string, at: nat)
    | UnclosedAt(at: nat)

  /** Closing braces in a literal, found from the left without overlap. */
  function StrayCloses(text: string, at: nat): seq<Issue>
    decreases |text|
  {
    match FindPair(text, '}', '}')
    case None => []
    case Some(k) => [StrayClose(at + k)] + StrayCloses(text[k + 2..], at + k + 2)
  }

  function NameIssues(name: string, at: nat): seq<Issue> {
    if name == "" then [EmptyName(at)]
    else if !IsName(name) then [InvalidName(name, at)]
    else if name !in CATALOG then [UnknownVariable(name, at)]
    else []
  }

  function IssuesOf(token: Token, at: nat): seq<Issue> {
    match token
    case Literal(text) => StrayCloses(text, at)
    case Placeholder(name) => NameIssues(name, at)
    case Unclosed(_) => [UnclosedAt(at)]
  }

  function TokenIssues(tokens: Tokens, at: nat): seq<Issue> {
    match tokens
    case End => []
    case Cons(token, rest) => IssuesOf(token, at) + TokenIssues(rest, at + |token.Source()|)
  }

  function ContentIssues(content: string): seq<Issue> {
    (if Trim(content) == "" then [Required] else []) + (if |content| > MAX_CONTENT_LENGTH then [TooLong] else [])
  }

  function Issues(content: string): seq<Issue> {
    ContentIssues(content) + TokenIssues(Outside(content), 0)
  }

  // ------------------------------------------------------------------ one step of either scanner

  /** No brace pair of the kind `c` starts at a position from `from` up to `to`. */
  ghost predicate NoPair(s: string, c: char, from: nat, to: nat) {
    forall j :: from <= j < to ==> !PairAt(s, c, c, j)
  }

  lemma FindPairInSuffix(s: string, c: char, from: nat, k: nat)
    requires from <= k && NoPair(s, c, from, k)
    ensures PairAt(s, c, c, k) ==> FindPair(s[from..], c, c) == Some(k - from)
    ensures k == |s| ==> FindPair(s[from..], c, c) == None
    ensures from <= |s| ==> var f := FindPair(s[from..], c, c); f.Some? ==>
        f.value >= k - from && PairAt(s, c, c, f.value + from)
    requires k <= |s|
  {
    var t := s[from..];
    assert forall j :: 0 <= j ==> PairAt(t, c, c, j) == PairAt(s, c, c, j + from);
    var f := FindPair(t, c, c);
    if f.Some? {
      assert PairAt(s, c, c, f.value + from);
    }
    if PairAt(s, c, c, k) {
      assert PairAt(t, c, c, k - from);
    }
  }

  lemma OpenFound(s: string, from: nat, k: nat)
    requires from <= k <= |s| && NoPair(s, '{', from, k) && PairAt(s, '{', '{', k)
    ensures Outside(s[from..]) == Cons(Literal(s[from..k]), Inside(s[k + 2..]))
  {
    FindPairInSuffix(s, '{', from, k);
    assert s[from..][..k - from] == s[from..k] && s[from..][k - from + 2..] == s[k + 2..];
  }

  lemma NoOpenFound(s: string, from: nat)
    requires from <= |s| && NoPair(s, '{', from, |s|)
    ensures Outside(s[from..]) == Cons(Literal(s[from..]), End)
  {
    FindPairInSuffix(s, '{', from, |s|);
  }

  lemma CloseFound(s: string, from: nat, k: nat)
    requires from <= k <= |s| && NoPair(s, '{', from, k) && NoPair(s, '}', from, k) && PairAt(s, '}', '}', k)
    ensures Inside(s[from..]) == Cons(Placeholder(s[from..k]), Outside(s[k + 2..]))
  {
    FindPairInSuffix(s, '}', from, k);
    FindPairInSuffix(s, '{', from, k);
    assert s[from..][..k - from] == s[from..k] && s[from..][k - from + 2..] == s[k + 2..];
  }

  lemma ReopenFound(s: string, from: nat, k: nat)
    requires from <= k <= |s| && NoPair(s, '{', from, k) && NoPair(s, '}', from, k) && PairAt(s, '{', '{', k)
    ensures Inside(s[from..]) == Cons(Unclosed(s[from..k]), Inside(s[k + 2..]))
  {
    FindPairInSuffix(s, '}', from, k);
    FindPairInSuffix(s, '{', from, k);
    assert s[from..][..k - from] == s[from..k] && s[from..][k - from + 2..] == s[k + 2..];
  }

  lemma NeverClosed(s: string, from: nat)
    requires from <= |s| && NoPair(s, '{', from, |s|) && NoPair(s, '}', from, |s|)
    ensures Inside(s[from..]) == Cons(Unclosed(s[from..]), End)
  {
    FindPairInSuffix(s, '}', from, |s|);
    FindPairInSuffix(s, '{', from, |s|);
  }

  // ------------------------------------------------------------------ the substituting scanner

  /** What the scanner has written so far, and the placeholders it has seen. */
  datatype Progress = Progress(output: string, spans: seq<(nat, nat)>)

  /** The scanner finishes with the right result if it treats `tokens`, which start at `at`, correctly. */
  ghost predicate OnTrack(content: string, vars: map<string, string>, p: Progress, tokens: Tokens, at: nat) {
    && RenderTokens(Outside(content), vars) == p.output + RenderTokens(tokens, vars)
    && Spans(Outside(content), 0) == p.spans + Spans(tokens, at)
  }

  lemma TakeToken(content: string, vars: map<string, string>, p: Progress, token: Token, rest: Tokens, at: nat)
    requires OnTrack(content, vars, p, Cons(token, rest), at)
    ensures OnTrack(content, vars, Progress(p.output + RenderToken(token, vars), p.spans + SpanOf(token, at)),
                    rest, at + |token.Source()|)
  {
    hide Outside;
    AppendAssoc(p.output, RenderToken(token, vars), RenderTokens(rest, vars));
    AppendAssoc(p.spans, SpanOf(token, at), Spans(rest, at + |token.Source()|));
  }

  /** Outside a placeholder: the text from `lastEnd` is still to be tokenised. */
  ghost predicate InLiteral(content: string, vars: map<string, string>, p: Progress, lastEnd: nat, i: nat) {
    && lastEnd <= i <= |content| && NoPair(content, '{', lastEnd, i)
    && OnTrack(content, vars, p, Outside(content[lastEnd..]), lastEnd)
  }

  /** Inside a placeholder opened at `start`, with `name` read so far. */
  ghost predicate InName(content: string, vars: map<string, string>, p: Progress, start: nat, i: nat, name: string) {
    && Opened(content, start, i, name)
    && OnTrack(content, vars, p, Inside(content[start + 2..]), start)
  }

  ghost predicate Opened(content: string, start: nat, i: nat, name: string) {
    && start + 2 <= i <= |content| && PairAt(content, '{', '{', start) && name == content[start + 2..i]
    && NoPair(content, '{', start + 2, i) && NoPair(content, '}', start + 2, i)
  }

  lemma OpenedSource(content: string, start: nat, i: nat, name: string)
    requires start + 2 <= i <= |content| && PairAt(content, '{', '{', start) && name == content[start + 2..i]
    ensures Unclosed(name).Source() == content[start..i]
    ensures PairAt(content, '}', '}', i) ==> Placeholder(name).Source() == content[start..i + 2]
  {
    assert "{{" == content[start..start + 2];
    assert content[start..i] == content[start..start + 2] + name;
    if PairAt(content, '}', '}', i) {
      assert "}}" == content[i..i + 2];
      assert content[start..i + 2] == content[start..i] + content[i..i + 2];
    }
  }

  lemma {:induction false} OpenStep(content: string, vars: map<string, string>, p: Progress, lastEnd: nat, i: nat)
    requires InLiteral(content, vars, p, lastEnd, i) && PairAt(content, '{', '{', i)
    ensures InName(content, vars, Progress(p.output + content[lastEnd..i], p.spans), i, i + 2, "")
  {
    hide Outside, Inside, RenderTokens, Spans;
    OpenFound(content, lastEnd, i);
    TakeToken(content, vars, p, Literal(content[lastEnd..i]), Inside(content[i + 2..]), lastEnd);
    assert p.spans + [] == p.spans;
  }

  lemma {:induction false} CloseStep(content: string, vars: map<string, string>, p: Progress, start: nat, i: nat,
                                     name: string)
    requires InName(content, vars, p, start, i, name) && PairAt(content, '}', '}', i)
    ensures Placeholder(name).Source() == content[start..i + 2]
    ensures InLiteral(content, vars,
      Progress(p.output + RenderToken(Placeholder(name), vars), p.spans + [(start, i + 2)]), i + 2, i + 2)
  {
    hide Outside, Inside, RenderTokens, Spans;
    OpenedSource(content, start, i, name);
    CloseFound(content, start + 2, i);
    TakeToken(content, vars, p, Placeholder(name), Outside(content[i + 2..]), start);
  }

  lemma {:induction false} ReopenStep(content: string, vars: map<string, string>, p: Progress, start: nat, i: nat,
                                      name: string)
    requires InName(content, vars, p, start, i, name) && PairAt(content, '{', '{', i)
    ensures InName(content, vars, Progress(p.output + content[start..i], p.spans), i, i + 2, "")
  {
    hide Outside, Inside, RenderTokens, Spans;
    OpenedSource(content, start, i, name);
    ReopenFound(content, start + 2, i);
    TakeToken(content, vars, p, Unclosed(name), Inside(content[i + 2..]), start);
    assert p.spans + [] == p.spans;
  }

  lemma EndOnTrack(content: string, vars: map<string, string>, p: Progress, last: Token, at: nat)
    requires OnTrack(content, vars, p, Cons(last, End), at)
    ensures RenderTokens(Outside(content), vars) == p.output + RenderToken(last, vars)
    ensures Spans(Outside(content), 0) == p.spans + SpanOf(last, at)
  {
    hide Outside;
    TakeToken(content, vars, p, last, End, at);
    var next := Progress(p.output + RenderToken(last, vars), p.spans + SpanOf(last, at));
    assert next.output + "" == next.output && next.spans + [] == next.spans;
  }

  lemma EndInLiteral(content: string, vars: map<string, string>, p: Progress, lastEnd: nat)
    requires InLiteral(content, vars, p, lastEnd, |content|)
    ensures RenderTokens(Outside(content), vars) == p.output + content[lastEnd..]
    ensures Spans(Outside(content), 0) == p.spans
  {
    hide Outside, Inside, RenderTokens, Spans, OnTrack, FindPair;
    NoOpenFound(content, lastEnd);
    EndOnTrack(content, vars, p, Literal(content[lastEnd..]), lastEnd);
    assert p.spans + [] == p.spans;
  }

  lemma EndInName(content: string, vars: map<string, string>, p: Progress, start: nat, name: string)
    requires InName(content, vars, p, start, |content|, name)
    ensures RenderTokens(Outside(content), vars) == p.output + content[start..]
    ensures Spans(Outside(content), 0) == p.spans
  {
    hide Outside, Inside, RenderTokens, Spans, OnTrack, FindPair;
    OpenedSource(content, start, |content|, name);
    assert name == content[start + 2..];
    NeverClosed(content, start + 2);
    EndOnTrack(content, vars, p, Unclosed(name), start);
    assert p.spans + [] == p.spans && content[start..|content|] == content[start..];
  }

  lemma StartLiteral(content: string, vars: map<string, string>)
    ensures InLiteral(content, vars, Progress("", []), 0, 0)
  {
    hide Outside, RenderTokens, Spans;
    assert content[0..] == content;
    assert "" + RenderTokens(Outside(content), vars) == RenderTokens(Outside(content), vars);
    assert [] + Spans(Outside(content), 0) == Spans(Outside(content), 0);
  }

  lemma StayInLiteral(content: string, vars: map<string, string>, p: Progress, lastEnd: nat, i: nat)
    requires InLiteral(content, vars, p, lastEnd, i) && i < |content| && !PairAt(content, '{', '{', i)
    ensures InLiteral(content, vars, p, lastEnd, i + 1)
  {
    hide OnTrack, Outside;
  }

  lemma StayInName(content: string, vars: map<string, string>, p: Progress, start: nat, i: nat, name: string)
    requires InName(content, vars, p, start, i, name) && i < |content|
    requires !PairAt(content, '{', '{', i) && !PairAt(content, '}', '}', i)
    ensures InName(content, vars, p, start, i + 1, name + [content[i]])
  {
    hide OnTrack, Inside, Opened;
    ReadChar(content, start, i, name);
  }

  lemma InsideContent(content: string, vars: map<string, string>, p: Progress, from: nat, i: nat, name: string)
    ensures InLiteral(content, vars, p, from, i) ==> from <= i <= |content|
    ensures InName(content, vars, p, from, i, name) ==> from + 2 <= i <= |content|
  {
    hide OnTrack, Outside, Inside;
  }

  lemma PairInside(content: string, a: char, b: char, i: nat)
    requires PairAt(content, a, b, i)
    ensures i + 2 <= |content|
  {
  }

  lemma RenderName(name: string, vars: map<string, string>)
    ensures RenderToken(Placeholder(name), vars)
         == if name != "" && IsName(name) && name in vars then vars[name] else Placeholder(name).Source()
  {
  }

  /** The substituting scanner: a single pass that copies slices of the content. */
  method RenderPrompt(content: string, vars: map<string, string>) returns (output: string, ghost spans: seq<(nat, nat)>)
    ensures output == RenderTokens(Outside(content), vars)
    ensures spans == Spans(Outside(content), 0)
  {
    hide *;
    output, spans := "", [];
    var n := |content|;
    var i := 0;
    var inPlaceholder := false;
    var placeholderStart := 0;
    var name := "";
    var lastEnd := 0;
    StartLiteral(content, vars);
    while i < n
      invariant i <= n
      invariant !inPlaceholder ==> InLiteral(content, vars, Progress(output, spans), lastEnd, i)
      invariant inPlaceholder ==> InName(content, vars, Progress(output, spans), placeholderStart, i, name)
      decreases n - i
    {
      ghost var p := Progress(output, spans);
      InsideContent(content, vars, p, if inPlaceholder then placeholderStart else lastEnd, i, name);
      if !inPlaceholder {
        if PairAt(content, '{', '{', i) {
          PairInside(content, '{', '{', i);
          OpenStep(content, vars, Progress(output, spans), lastEnd, i);
          output := output + content[lastEnd..i];
          inPlaceholder := true;
          placeholderStart := i;
          name := "";
          i := i + 2;
          continue;
        }
        StayInLiteral(content, vars, p, lastEnd, i);
      } else {
        if PairAt(content, '}', '}', i) {
          PairInside(content, '}', '}', i);
          RenderName(name, vars);
          CloseStep(content, vars, Progress(output, spans), placeholderStart, i, name);
          var endOffset := i + 2;
          var valid := IsValidVariableName(name);
          if name != "" && valid {
            if name in vars {
              output := output + vars[name];
            } else {
              output := output + content[placeholderStart..endOffset];
            }
          } else {
            output := output + content[placeholderStart..endOffset];
          }
          spans := spans + [(placeholderStart, endOffset)];
          inPlaceholder := false;
          lastEnd := endOffset;
          i := i + 2;
          continue;
        }
        if PairAt(content, '{', '{', i) {
          PairInside(content, '{', '{', i);
          ReopenStep(content, vars, Progress(output, spans), placeholderStart, i, name);
          output := output + content[placeholderStart..i];
          placeholderStart := i;
          name := "";
          i := i + 2;
          continue;
        }
        StayInName(content, vars, p, placeholderStart, i, name);
        name := name + [content[i]];
      }
      i := i + 1;
    }

    InsideContent(content, vars, Progress(output, spans), if inPlaceholder then placeholderStart else lastEnd, i, name);
    if inPlaceholder {
      EndInName(content, vars, Progress(output, spans), placeholderStart, name);
      output := output + content[placeholderStart..];
    } else {
      EndInLiteral(content, vars, Progress(output, spans), lastEnd);
      output := output + content[lastEnd..];
    }
  }

  // ------------------------------------------------------------------ the validating scanner

  /** What the validator has reported so far, and the placeholders it has seen. */
  datatype Report = Report(issues: seq<Issue>, spans: seq<(nat, nat)>)

  ghost predicate ReportOnTrack(content: string, r: Report, tokens: Tokens, at: nat) {
    && Issues(content) == r.issues + TokenIssues(tokens, at)
    && Spans(Outside(content), 0) == r.spans + Spans(tokens, at)
  }

  lemma {:induction false} ReportToken(content: string, r: Report, token: Token, rest: Tokens, at: nat)
    requires ReportOnTrack(content, r, Cons(token, rest), at)
    ensures ReportOnTrack(content, Report(r.issues + IssuesOf(token, at), r.spans + SpanOf(token, at)),
                          rest, at + |token.Source()|)
  {
    hide Outside;
    hide Issues;
    AppendAssoc(r.issues, IssuesOf(token, at), TokenIssues(rest, at + |token.Source()|));
    AppendAssoc(r.spans, SpanOf(token, at), Spans(rest, at + |token.Source()|));
  }

  /** Outside a placeholder: what is left is the report on the text from `i`. */
  ghost predicate ReportOutside(content: string, r: Report, i: nat) {
    i <= |content| && ReportOnTrack(content, r, Outside(content[i..]), i)
  }

  ghost predicate ReportInside(content: string, r: Report, start: nat, i: nat, name: string) {
    Opened(content, start, i, name) && ReportOnTrack(content, r, Inside(content[start + 2..]), start)
  }

  lemma StartReport(content: string)
    ensures ReportOutside(content, Report(ContentIssues(content), []), 0)
  {
    assert content[0..] == content;
    assert [] + Spans(Outside(content), 0) == Spans(Outside(content), 0);
  }

  lemma {:induction false} ReportOpen(content: string, r: Report, i: nat)
    requires ReportOutside(content, r, i) && PairAt(content, '{', '{', i)
    ensures ReportInside(content, r, i, i + 2, "")
  {
    hide Outside, Inside, Issues, TokenIssues, Spans, FindPair;
    OpenFound(content, i, i);
    assert content[i..i] == "";
    assert StrayCloses("", i) == [];
    ReportToken(content, r, Literal(""), Inside(content[i + 2..]), i);
    assert r.issues + [] == r.issues && r.spans + [] == r.spans;
  }

  /** A placeholder read to its end has the issues of its name. */
  function Closed(r: Report, start: nat, i: nat, name: string): Report {
    Report(r.issues + NameIssues(name, start), r.spans + [(start, i + 2)])
  }

  lemma {:induction false} ReportClose(content: string, r: Report, start: nat, i: nat, name: string)
    requires ReportInside(content, r, start, i, name) && PairAt(content, '}', '}', i)
    ensures ReportOutside(content, Closed(r, start, i, name), i + 2)
  {
    hide Outside, Inside, Issues, TokenIssues, Spans, NameIssues, FindPair, ReportOnTrack;
    OpenedSource(content, start, i, name);
    CloseFound(content, start + 2, i);
    ReportToken(content, r, Placeholder(name), Outside(content[i + 2..]), start);
  }

  lemma {:induction false} ReportReopen(content: string, r: Report, start: nat, i: nat, name: string)
    requires ReportInside(content, r, start, i, name) && PairAt(content, '{', '{', i)
    ensures ReportInside(content, Report(r.issues + [UnclosedAt(start)], r.spans), i, i + 2, "")
  {
    hide Outside, Inside, Issues, TokenIssues, Spans, FindPair;
    OpenedSource(content, start, i, name);
    ReopenFound(content, start + 2, i);
    ReportToken(content, r, Unclosed(name), Inside(content[i + 2..]), start);
    assert r.spans + [] == r.spans;
  }

  lemma {:induction false} ReportEndInside(content: string, r: Report, start: nat, name: string)
    requires ReportInside(content, r, start, |content|, name)
    ensures Issues(content) == r.issues + [UnclosedAt(start)] && Spans(Outside(content), 0) == r.spans
  {
    hide Outside, Inside, Issues, NoPair, PairAt, FindPair, Spans, TokenIssues;
    assert name == content[start + 2..];
    NeverClosed(content, start + 2);
    NothingLeft(start + |Unclosed(name).Source()|);
    NoSpans(start + |Unclosed(name).Source()|);
    ReportToken(content, r, Unclosed(name), End, start);
    assert r.spans + [] == r.spans;
    assert (r.issues + [UnclosedAt(start)]) + [] == r.issues + [UnclosedAt(start)];
  }

  lemma {:induction false} ReportEndOutside(content: string, r: Report)
    requires ReportOutside(content, r, |content|)
    ensures Issues(content) == r.issues && Spans(Outside(content), 0) == r.spans
  {
    hide Outside, Inside, Issues;
    var n := |content|;
    NoOpenFound(content, n);
    assert content[n..] == "";
    assert StrayCloses("", n) == [];
    ReportToken(content, r, Literal(""), End, n);
    assert r.issues + [] == r.issues && r.spans + [] == r.spans;
  }

  /** Where the literal that contains position `i` ends. */
  function LiteralEnd(s: string, i: nat): nat {
    match FindPair(s, '{', '{', i)
    case None => |s|
    case Some(k) => k
  }

  lemma OutsideFrom(s: string, i: nat)
    requires i <= |s|
    ensures var k := LiteralEnd(s, i);
            && i <= k <= |s| && NoPair(s, '{', i, k)
            && Outside(s[i..]) == Cons(Literal(s[i..k]), if PairAt(s, '{', '{', k) then Inside(s[k + 2..]) else End)
  {
    hide Outside, Inside;
    var k := LiteralEnd(s, i);
    if FindPair(s, '{', '{', i).Some? {
      OpenFound(s, i, k);
    } else {
      NoOpenFound(s, i);
      assert s[i..k] == s[i..];
    }
  }

  lemma LiteralEndSame(s: string, i: nat, skip: nat)
    requires i + skip <= |s| && NoPair(s, '{', i, i + skip)
    ensures LiteralEnd(s, i) == LiteralEnd(s, i + skip) >= i + skip
  {
    var a, b := FindPair(s, '{', '{', i), FindPair(s, '{', '{', i + skip);
    if a.Some? { assert b.Some? && b.value == a.value; }
  }

  lemma StraySkip(text: string, at: nat)
    requires text != "" && !PairAt(text, '}', '}', 0)
    ensures StrayCloses(text, at) == StrayCloses(text[1..], at + 1)
  {
    hide StrayCloses;
    var t := text[1..];
    assert forall j :: 0 <= j ==> PairAt(t, '}', '}', j) == PairAt(text, '}', '}', j + 1);
    var f, g := FindPair(text, '}', '}'), FindPair(t, '}', '}');
    if f.Some? {
      assert PairAt(t, '}', '}', f.value - 1);
      FindPairIs(t, '}', '}', f.value - 1);
      assert text[f.value + 2..] == t[g.value + 2..];
    } else {
      FindPairNone(t, '}', '}');
    }
    StrayUnfold(text, at);
    StrayUnfold(t, at + 1);
  }

  lemma StrayUnfold(text: string, at: nat)
    ensures StrayCloses(text, at) ==
            match FindPair(text, '}', '}')
            case None => []
            case Some(k) => [StrayClose(at + k)] + StrayCloses(text[k + 2..], at + k + 2)
  {
  }

  lemma StrayTake(text: string, at: nat)
    requires PairAt(text, '}', '}', 0)
    ensures StrayCloses(text, at) == [StrayClose(at)] + StrayCloses(text[2..], at + 2)
  {
    FindPairIs(text, '}', '}', 0);
    StrayUnfold(text, at);
  }

  /** A character of a literal that starts no brace pair is passed over. */
  lemma {:induction false} ReportPlain(content: string, r: Report, i: nat)
    requires ReportOutside(content, r, i) && i < |content|
    requires !PairAt(content, '{', '{', i) && !PairAt(content, '}', '}', i)
    ensures ReportOutside(content, r, i + 1)
  {
    hide Outside, Inside, Issues, StrayCloses, FindPair, LiteralEnd, TokenIssues, Spans, Token.Source;
    OutsideFrom(content, i);
    OutsideFrom(content, i + 1);
    LiteralEndSame(content, i, 1);
    var k := LiteralEnd(content, i);
    assert content[i..k][1..] == content[i + 1..k];
    StraySkip(content[i..k], i);
    var rest := if PairAt(content, '{', '{', k) then Inside(content[k + 2..]) else End;
    LiteralFirst(content[i..k], rest, i);
    LiteralFirst(content[i + 1..k], rest, i + 1);
  }

  lemma LiteralFirst(text: string, rest: Tokens, at: nat)
    ensures TokenIssues(Cons(Literal(text), rest), at) == StrayCloses(text, at) + TokenIssues(rest, at + |text|)
    ensures Spans(Cons(Literal(text), rest), at) == Spans(rest, at + |text|)
  {
    hide StrayCloses;
    assert [] + Spans(rest, at + |text|) == Spans(rest, at + |text|);
  }

  /** Stray closing braces at the start of a literal are the first issue of the text from there. */
  lemma {:induction false} StrayFirst(content: string, i: nat)
    requires PairAt(content, '}', '}', i)
    ensures TokenIssues(Outside(content[i..]), i)
         == [StrayClose(i)] + TokenIssues(Outside(content[i + 2..]), i + 2)
    ensures Spans(Outside(content[i..]), i) == Spans(Outside(content[i + 2..]), i + 2)
  {
    hide Outside, Inside, StrayCloses, FindPair, LiteralEnd, TokenIssues, Spans, Token.Source;
    OutsideFrom(content, i);
    OutsideFrom(content, i + 2);
    LiteralEndSame(content, i, 2);
    var k := LiteralEnd(content, i);
    assert content[i..k][2..] == content[i + 2..k];
    StrayTake(content[i..k], i);
    var rest := if PairAt(content, '{', '{', k) then Inside(content[k + 2..]) else End;
    LiteralFirst(content[i..k], rest, i);
    LiteralFirst(content[i + 2..k], rest, i + 2);
    AppendAssoc([StrayClose(i)], StrayCloses(content[i + 2..k], i + 2), TokenIssues(rest, k));
  }

  /** Stray closing braces are reported and passed over together. */
  lemma {:induction false} ReportStray(content: string, r: Report, i: nat)
    requires ReportOutside(content, r, i) && PairAt(content, '}', '}', i)
    ensures ReportOutside(content, Report(r.issues + [StrayClose(i)], r.spans), i + 2)
  {
    hide Outside, Issues, TokenIssues, Spans, FindPair;
    StrayFirst(content, i);
    AppendAssoc(r.issues, [StrayClose(i)], TokenIssues(Outside(content[i + 2..]), i + 2));
  }

  lemma ReadChar(content: string, start: nat, i: nat, name: string)
    requires Opened(content, start, i, name) && i < |content|
    requires !PairAt(content, '{', '{', i) && !PairAt(content, '}', '}', i)
    ensures Opened(content, start, i + 1, name + [content[i]])
  {
  }

  /** The validating scanner. */
  method ValidatePrompt(content: string) returns (issues: seq<Issue>, ghost spans: seq<(nat, nat)>)
    ensures issues == Issues(content)
    ensures spans == Spans(Outside(content), 0)
  {
    hide Outside, Inside, Issues, TokenIssues, Spans, StrayCloses, Trim, Opened, IsName, FindPair;
    issues, spans := [], [];
    if Trim(content) == "" {
      issues := issues + [Required];
    }
    if |content| > MAX_CONTENT_LENGTH {
      issues := issues + [TooLong];
    }
    var n := |content|;
    var i := 0;
    var inPlaceholder := false;
    var placeholderStart := 0;
    var name := "";
    assert issues == ContentIssues(content);
    StartReport(content);

    while i < n
      invariant i <= n
      invariant !inPlaceholder ==> ReportOutside(content, Report(issues, spans), i)
      invariant inPlaceholder ==> ReportInside(content, Report(issues, spans), placeholderStart, i, name)
      decreases n - i
    {
      if !inPlaceholder {
        if PairAt(content, '{', '{', i) {
          ReportOpen(content, Report(issues, spans), i);
          inPlaceholder := true;
          placeholderStart := i;
          name := "";
          i := i + 2;
          continue;
        }
        if PairAt(content, '}', '}', i) {
          ReportStray(content, Report(issues, spans), i);
          issues := issues + [StrayClose(i)];
          i := i + 2;
          continue;
        }
        ReportPlain(content, Report(issues, spans), i);
      } else {
        if PairAt(content, '}', '}', i) {
          ReportClose(content, Report(issues, spans), placeholderStart, i, name);
          var valid := IsValidVariableName(name);
          if name == "" {
            issues := issues + [EmptyName(placeholderStart)];
          } else if !valid {
            issues := issues + [InvalidName(name, placeholderStart)];
          } else if name !in CATALOG {
            issues := issues + [UnknownVariable(name, placeholderStart)];
          } else {
            assert issues + [] == issues;
          }
          spans := spans + [(placeholderStart, i + 2)];
          inPlaceholder := false;
          i := i + 2;
          continue;
        }
        if PairAt(content, '{', '{', i) {
          ReportReopen(content, Report(issues, spans), placeholderStart, i, name);
          issues := issues + [UnclosedAt(placeholderStart)];
          inPlaceholder := true;
          placeholderStart := i;
          name := "";
          i := i + 2;
          continue;
        }
        ReadChar(content, placeholderStart, i, name);
        name := name + [content[i]];
      }
      i := i + 1;
    }

    if inPlaceholder {
      ReportEndInside(content, Report(issues, spans), placeholderStart, name);
      issues := issues + [UnclosedAt(placeholderStart)];
    } else {
      ReportEndOutside(content, Report(issues, spans));
    }
  }

  // ------------------------------------------------------------------ what the tokens are

  lemma SplitAtPair(s: string, a: char, b: char, k: nat)
    requires PairAt(s, a, b, k)
    ensures s == s[..k] + ([a, b] + s[k + 2..])
  {
  }

  lemma OutsideUnfold(s: string)
    ensures Outside(s) == match FindPair(s, '{', '{')
                          case None => Cons(Literal(s), End)
                          case Some(k) => Cons(Literal(s[..k]), Inside(s[k + 2..]))
  {
  }

  lemma InsideUnfold(s: string)
    ensures var close, open := FindPair(s, '}', '}'), FindPair(s, '{', '{');
            Inside(s) == if close.Some? && (open.None? || close.value < open.value)
                         then Cons(Placeholder(s[..close.value]), Outside(s[close.value + 2..]))
                         else if open.Some? then Cons(Unclosed(s[..open.value]), Inside(s[open.value + 2..]))
                         else Cons(Unclosed(s), End)
  {
  }

  lemma {:induction false} OutsideSource(s: string)
    ensures SourceOf(Outside(s)) == s
    decreases |s|, 1
  {
    hide Outside, Inside;
    OutsideUnfold(s);
    var found := FindPair(s, '{', '{');
    if found.Some? {
      var k := found.value;
      var tail := Inside(s[k + 2..]);
      InsideSource(s[k + 2..]);
      SplitAtPair(s, '{', '{', k);
      SourceOfCons(Literal(s[..k]), tail);
    } else {
      SourceOfCons(Literal(s), End);
      assert s + "" == s;
    }
  }

  lemma SourceOfCons(token: Token, rest: Tokens)
    ensures SourceOf(Cons(token, rest)) == token.Source() + SourceOf(rest)
  {
  }

  lemma {:induction false} InsideSource(s: string)
    ensures SourceOf(Inside(s)) == "{{" + s
    decreases |s|, 0
  {
    hide Outside, Inside;
    InsideUnfold(s);
    var close, open := FindPair(s, '}', '}'), FindPair(s, '{', '{');
    if close.Some? && (open.None? || close.value < open.value) {
      OutsideSource(s[close.value + 2..]);
      SplitAtPair(s, '}', '}', close.value);
      PlaceholderThen(s[..close.value], s[close.value + 2..]);
    } else if open.Some? {
      InsideSource(s[open.value + 2..]);
      SplitAtPair(s, '{', '{', open.value);
      AppendAssoc("{{", s[..open.value], "{{" + s[open.value + 2..]);
    } else {
      assert "{{" + s + "" == "{{" + s;
    }
  }

  lemma PlaceholderThen(name: string, more: string)
    ensures Placeholder(name).Source() + more == "{{" + (name + ("}}" + more))
  {
  }

  lemma {:induction false} RenderNothing(tokens: Tokens)
    ensures RenderTokens(tokens, map[]) == SourceOf(tokens)
  {
    if tokens.Cons? { RenderNothing(tokens.tail); }
  }

  /** Rendering with no variables gives the content back. */
  lemma RenderUnbound(content: string)
    ensures RenderTokens(Outside(content), map[]) == content
  {
    RenderNothing(Outside(content));
    OutsideSource(content);
  }

  // ------------------------------------------------------------------ the grammar of accepted prompts

  /** Literal texts with catalog variables between them. */
  datatype Template = Last(text: string) | Then(text: string, name: string, rest: Template)

  function Print(t: Template): string {
    match t
    case Last(text) => text
    case Then(text, name, rest) => text + ("{{" + (name + ("}}" + Print(rest))))
  }

  /** The print with every variable replaced by its value; values are not looked at again. */
  function Expand(t: Template, vars: map<string, string>): string
    requires forall name :: name in CATALOG ==> name in vars
    requires WellFormed(t)
  {
    match t
    case Last(text) => text
    case Then(text, name, rest) => text + (vars[name] + Expand(rest, vars))
  }

  predicate Braceless(text: string) {
    forall j :: 0 <= j < |text| ==> !PairAt(text, '{', '{', j) && !PairAt(text, '}', '}', j)
  }

  /** No doubled braces in a literal, no single brace touching an opening, and known names only. */
  predicate WellFormed(t: Template) {
    && Braceless(t.text)
    && (t.Then? ==>
          && t.name in CATALOG
          && (t.text != "" ==> t.text[|t.text| - 1] != '{')
          && WellFormed(t.rest))
  }

  ghost predicate Accepted(content: string) {
    !Blank(content) && |content| <= MAX_CONTENT_LENGTH && exists t :: WellFormed(t) && Print(t) == content
  }

  lemma CatalogNames(name: string)
    requires name in CATALOG
    ensures IsName(name)
  {
    assert IsName("agent_name");
    assert IsName("tenant_name");
    assert IsName("customer_name");
    assert IsName("channel");
  }

  function TokensOf(t: Template): Tokens {
    match t
    case Last(text) => Cons(Literal(text), End)
    case Then(text, name, rest) => Cons(Literal(text), Cons(Placeholder(name), TokensOf(rest)))
  }

  lemma InsideName(name: string, more: string)
    requires IsName(name)
    ensures Inside(name + ("}}" + more)) == Cons(Placeholder(name), Outside(more))
  {
    hide Outside, Inside;
    var s := name + ("}}" + more);
    assert forall j :: 0 <= j < |name| ==> s[j] == name[j] && IsNameChar(name[j]);
    assert s[0..] == s && s[0..|name|] == name && s[|name| + 2..] == more;
    CloseFound(s, 0, |name|);
  }

  lemma OutsideText(text: string, more: string)
    requires Braceless(text) && (text != "" ==> text[|text| - 1] != '{')
    ensures Outside(text + ("{{" + more)) == Cons(Literal(text), Inside(more))
  {
    hide Outside, Inside;
    var s := text + ("{{" + more);
    forall j | 0 <= j < |text|
      ensures !PairAt(s, '{', '{', j)
    {
      assert !PairAt(text, '{', '{', j);
    }
    assert s[0..] == s && s[0..|text|] == text && s[|text| + 2..] == more;
    OpenFound(s, 0, |text|);
  }

  lemma OutsideLast(text: string)
    requires Braceless(text)
    ensures Outside(text) == Cons(Literal(text), End)
  {
    hide Outside, Inside;
    forall j | 0 <= j < |text|
      ensures !PairAt(text, '{', '{', j)
    {
    }
    assert text[0..] == text;
    NoOpenFound(text, 0);
  }

  /** A well-formed print is tokenised into exactly its texts and names. */
  lemma {:induction false} TokensOfPrint(t: Template)
    requires WellFormed(t)
    ensures Outside(Print(t)) == TokensOf(t)
  {
    hide Outside, Inside;
    match t {
      case Last(text) =>
        OutsideLast(text);
      case Then(text, name, rest) =>
        TokensOfPrint(rest);
        CatalogNames(name);
        InsideName(name, Print(rest));
        OutsideText(text, name + ("}}" + Print(rest)));
    }
  }

  lemma NoStray(text: string, at: nat)
    ensures StrayCloses(text, at) == [] <==> FindPair(text, '}', '}').None?
  {
  }

  lemma PlaceholderFirst(name: string, rest: Tokens, at: nat)
    ensures TokenIssues(Cons(Placeholder(name), rest), at)
         == NameIssues(name, at) + TokenIssues(rest, at + |Placeholder(name).Source()|)
  {
    hide NameIssues, Token.Source;
  }

  lemma CatalogIsFine(name: string, at: nat)
    requires name in CATALOG
    ensures NameIssues(name, at) == []
  {
    hide IsName;
    CatalogNames(name);
    assert name != "";
  }

  lemma NothingLeft(at: nat)
    ensures TokenIssues(End, at) == []
  {
  }

  lemma {:induction false} TemplateHasNoIssues(t: Template, at: nat)
    requires WellFormed(t)
    ensures TokenIssues(TokensOf(t), at) == []
    decreases t
  {
    hide TokenIssues, StrayCloses, NameIssues, Token.Source, FindPair;
    FindPairNone(t.text, '}', '}');
    NoStray(t.text, at);
    match t {
      case Last(text) =>
        NothingLeft(at + |text|);
        LiteralFirst(text, End, at);
      case Then(text, name, rest) =>
        CatalogIsFine(name, at + |text|);
        TemplateHasNoIssues(rest, at + |text| + |Placeholder(name).Source()|);
        PlaceholderFirst(name, TokensOf(rest), at + |text|);
        LiteralFirst(text, Cons(Placeholder(name), TokensOf(rest)), at);
    }
  }

  lemma IssueFree(token: Token, rest: Tokens, at: nat)
    requires TokenIssues(Cons(token, rest), at) == []
    ensures IssuesOf(token, at) == [] && TokenIssues(rest, at + |token.Source()|) == []
  {
    hide Token.Source, IssuesOf;
    var a, b := IssuesOf(token, at), TokenIssues(rest, at + |token.Source()|);
    assert |a + b| == |a| + |b|;
  }

  /** Text after an opening that has no issues starts with a catalog name and a closing. */
  lemma IssueFreeInside(s: string, at: nat) returns (close: nat)
    requires TokenIssues(Inside(s), at) == []
    ensures PairAt(s, '}', '}', close) && s[..close] in CATALOG
    ensures TokenIssues(Outside(s[close + 2..]), at + |Placeholder(s[..close]).Source()|) == []
  {
    hide Outside, Inside, TokenIssues;
    InsideUnfold(s);
    IssueFree(Inside(s).head, Inside(s).tail, at);
    close := FindPair(s, '}', '}').value;
  }

  /** Tokens without issues are those of a well-formed template. */
  lemma {:induction false} TemplateOf(s: string, at: nat) returns (t: Template)
    requires TokenIssues(Outside(s), at) == []
    ensures WellFormed(t) && Print(t) == s
    decreases |s|
  {
    hide Outside, Inside, TokenIssues, Token.Source, StrayCloses, Braceless;
    OutsideUnfold(s);
    IssueFree(Outside(s).head, Outside(s).tail, at);
    match FindPair(s, '{', '{') {
      case None =>
        NoStray(s, at);
        WholeBraceless(s);
        t := Last(s);
      case Some(k) =>
        var tail := s[k + 2..];
        NoStray(s[..k], at);
        LiteralBraceless(s, k);
        LiteralSource(s[..k]);
        var close := IssueFreeInside(tail, at + k);
        var rest := TemplateOf(tail[close + 2..], at + k + |Placeholder(tail[..close]).Source()|);
        t := Then(s[..k], tail[..close], rest);
        PrintThen(s, k, close, rest);
    }
  }

  lemma LiteralSource(text: string)
    ensures Literal(text).Source() == text
  {
  }

  lemma WholeBraceless(s: string)
    requires FindPair(s, '{', '{').None? && FindPair(s, '}', '}').None?
    ensures Braceless(s)
  {
  }

  lemma PrintThen(s: string, k: nat, close: nat, rest: Template)
    requires PairAt(s, '{', '{', k) && PairAt(s[k + 2..], '}', '}', close)
    requires Print(rest) == s[k + 2..][close + 2..]
    ensures Print(Then(s[..k], s[k + 2..][..close], rest)) == s
  {
    SplitAtPair(s[k + 2..], '}', '}', close);
    SplitAtPair(s, '{', '{', k);
  }

  lemma LiteralBraceless(s: string, k: nat)
    requires FindPair(s, '{', '{') == Some(k) && FindPair(s[..k], '}', '}').None?
    ensures Braceless(s[..k]) && (k > 0 ==> s[k - 1] != '{')
  {
    var text := s[..k];
    forall j | 0 <= j < |text|
      ensures !PairAt(text, '{', '{', j)
    {
      assert !PairAt(s, '{', '{', j);
    }
    if k > 0 { assert !PairAt(s, '{', '{', k - 1); }
  }

  /** Validation accepts exactly the non-blank, in-limit prints of well-formed templates. */
  lemma AcceptedIff(content: string)
    ensures Issues(content) == [] <==> Accepted(content)
  {
    TrimBlank(content);
    if Issues(content) == [] {
      var t := TemplateOf(content, 0);
    }
    if Accepted(content) {
      var t :| WellFormed(t) && Print(t) == content;
      TokensOfPrint(t);
      TemplateHasNoIssues(t, 0);
    }
  }

  lemma {:induction false} RenderTemplate(t: Template, vars: map<string, string>)
    requires WellFormed(t) && forall name :: name in CATALOG ==> name in vars
    ensures RenderTokens(TokensOf(t), vars) == Expand(t, vars)
  {
    if t.Then? {
      CatalogNames(t.name);
      RenderTemplate(t.rest, vars);
    } else {
      assert t.text + "" == t.text;
    }
  }

  /** With the catalog bound, an accepted prompt renders to its template with every placeholder substituted. */
  lemma AcceptedRenders(content: string, vars: map<string, string>)
    requires Issues(content) == [] && forall name :: name in CATALOG ==> name in vars
    ensures exists t :: WellFormed(t) && Print(t) == content && RenderTokens(Outside(content), vars) == Expand(t, vars)
  {
    var t := TemplateOf(content, 0);
    TokensOfPrint(t);
    RenderTemplate(t, vars);
  }

  // ------------------------------------------------------------------ where the tokens lie

  /** A placeholder from `span.0` up to `span.1`: an opening, a name without doubled braces, a closing. */
  ghost predicate ClosedSpan(s: string, span: (nat, nat)) {
    && span.0 + 4 <= span.1 <= |s| && PairAt(s, '{', '{', span.0) && PairAt(s, '}', '}', span.1 - 2)
    && NoPair(s, '{', span.0 + 2, span.1 - 2) && NoPair(s, '}', span.0 + 2, span.1 - 2)
  }

  ghost predicate OpensOrEnds(s: string, at: nat) {
    at == |s| || PairAt(s, '{', '{', at)
  }

  /** An opening that meets another opening, or the end, before any closing. */
  ghost predicate LeftOpen(s: string, at: nat) {
    PairAt(s, '{', '{', at) && exists end: nat :: NotClosed(s, at, end)
  }

  /** The text from the opening at `at` to another opening, or to the end, holds no closing. */
  ghost predicate NotClosed(s: string, at: nat, end: nat) {
    at + 2 <= end && OpensOrEnds(s, end) && NoPair(s, '{', at + 2, end) && NoPair(s, '}', at + 2, end)
  }

  ghost predicate Lies(s: string, token: Token, at: nat, end: nat) {
    && at <= end <= |s| && token.Source() == s[at..end]
    && match token
       case Literal(_) => NoPair(s, '{', at, end) && OpensOrEnds(s, end)
       case Placeholder(name) => ClosedSpan(s, (at, end)) && name == s[at + 2..end - 2]
       case Unclosed(_) => PairAt(s, '{', '{', at) && NotClosed(s, at, end)
  }

  /** The tokens cover the text from `at` to its end, each where it stands. */
  ghost predicate Cover(s: string, tokens: Tokens, at: nat) {
    match tokens
    case End => at == |s|
    case Cons(token, rest) => Lies(s, token, at, at + |token.Source()|) && Cover(s, rest, at + |token.Source()|)
  }

  lemma LiteralLies(s: string, at: nat, end: nat)
    requires at <= end <= |s| && NoPair(s, '{', at, end) && OpensOrEnds(s, end)
    ensures Lies(s, Literal(s[at..end]), at, end) && |Literal(s[at..end]).Source()| == end - at
  {
  }

  lemma UnclosedLies(s: string, at: nat, end: nat)
    requires PairAt(s, '{', '{', at) && at + 2 <= end <= |s| && OpensOrEnds(s, end)
    requires NoPair(s, '{', at + 2, end) && NoPair(s, '}', at + 2, end)
    ensures Lies(s, Unclosed(s[at + 2..end]), at, end) && |Unclosed(s[at + 2..end]).Source()| == end - at
  {
    OpenedSource(s, at, end, s[at + 2..end]);
  }

  lemma {:induction false} PlaceholderLies(s: string, at: nat, close: nat)
    requires at + 2 <= close && ClosedSpan(s, (at, close + 2))
    ensures Lies(s, Placeholder(s[at + 2..close]), at, close + 2)
    ensures |Placeholder(s[at + 2..close]).Source()| == close + 2 - at
  {
    OpenedSource(s, at, close, s[at + 2..close]);
  }

  /** The first pair of the kind `c` from `from` on. */
  lemma FirstPair(s: string, c: char, from: nat) returns (found: Option<nat>)
    requires from <= |s|
    ensures found.Some? ==> from <= found.value && PairAt(s, c, c, found.value) && NoPair(s, c, from, found.value)
    ensures found.None? ==> NoPair(s, c, from, |s|)
  {
    found := FindPair(s, c, c, from);
  }

  lemma {:induction false} OutsideCovers(s: string, at: nat)
    requires at <= |s|
    ensures Cover(s, Outside(s[at..]), at)
    decreases |s| - at, 1
  {
    hide Outside, Inside, Lies, FindPair, Token.Source;
    var open := FirstPair(s, '{', at);
    if open.Some? {
      OpenFound(s, at, open.value);
      LiteralLies(s, at, open.value);
      InsideCovers(s, open.value);
    } else {
      NoOpenFound(s, at);
      assert s[at..] == s[at..|s|];
      LiteralLies(s, at, |s|);
    }
  }

  lemma {:induction false} InsideCovers(s: string, at: nat)
    requires PairAt(s, '{', '{', at)
    ensures Cover(s, Inside(s[at + 2..]), at)
    decreases |s| - at, 0
  {
    hide Outside, Inside, Lies, FindPair, Token.Source;
    var open := FirstPair(s, '{', at + 2);
    var close := FirstPair(s, '}', at + 2);
    hide PairAt;
    if close.Some? && (open.None? || close.value < open.value) {
      CloseFound(s, at + 2, close.value);
      PlaceholderLies(s, at, close.value);
      OutsideCovers(s, close.value + 2);
    } else if open.Some? {
      ReopenFound(s, at + 2, open.value);
      UnclosedLies(s, at, open.value);
      InsideCovers(s, open.value);
    } else {
      NeverClosed(s, at + 2);
      assert s[at + 2..] == s[at + 2..|s|];
      UnclosedLies(s, at, |s|);
    }
  }

  // ------------------------------------------------------------------ what the issues and the rendering are

  /** The issue is about the name of this placeholder. */
  ghost predicate IsAbout(s: string, span: (nat, nat), issue: Issue) {
    && ClosedSpan(s, span)
    && var name := s[span.0 + 2..span.1 - 2];
       match issue
       case EmptyName(at) => at == span.0 && name == ""
       case InvalidName(wrong, at) => at == span.0 && wrong == name && name != "" && !IsName(name)
       case UnknownVariable(other, at) => at == span.0 && other == name && IsName(name) && name !in CATALOG
       case _ => false
  }

  predicate IsNameIssue(issue: Issue) {
    issue.EmptyName? || issue.InvalidName? || issue.UnknownVariable?
  }

  lemma {:induction false} OnlyStrayCloses(text: string, at: nat, issue: Issue)
    requires issue in StrayCloses(text, at)
    ensures issue.StrayClose? && issue.at >= at && PairAt(text, '}', '}', issue.at - at)
    decreases |text|
  {
    hide StrayCloses;
    StrayUnfold(text, at);
    var k := FindPair(text, '}', '}').value;
    var rest := text[k + 2..];
    if issue != StrayClose(at + k) {
      OnlyStrayCloses(rest, at + k + 2, issue);
      assert rest[issue.at - at - k - 2] == text[issue.at - at];
    }
  }

  lemma LiteralIssueIs(s: string, text: string, at: nat, issue: Issue)
    requires Lies(s, Literal(text), at, at + |text|) && issue in StrayCloses(text, at)
    ensures issue.StrayClose? && PairAt(s, '}', '}', issue.at)
  {
    hide StrayCloses, NoPair;
    OnlyStrayCloses(text, at, issue);
    var j := issue.at - at;
    assert text == s[at..at + |text|];
    assert text[j] == s[issue.at] && text[j + 1] == s[issue.at + 1];
  }

  lemma NameIssueIs(s: string, name: string, at: nat, end: nat, issue: Issue)
    requires Lies(s, Placeholder(name), at, end)
    ensures issue in NameIssues(name, at) <==> IsAbout(s, (at, end), issue)
    ensures IsAbout(s, (at, end), issue) ==> IsNameIssue(issue)
  {
    hide IsName, ClosedSpan;
    EmptyIsNoName();
    SpanFits(s, (at, end));
  }

  lemma UnclosedIs(s: string, text: string, at: nat, end: nat)
    requires Lies(s, Unclosed(text), at, end)
    ensures LeftOpen(s, at)
  {
    hide NotClosed;
  }

  lemma TokenIssueIs(s: string, token: Token, at: nat, issue: Issue)
    requires Lies(s, token, at, at + |token.Source()|)
    ensures issue in IssuesOf(token, at) && IsNameIssue(issue)
       <==> token.Placeholder? && IsAbout(s, (at, at + |token.Source()|), issue)
    ensures issue in IssuesOf(token, at) && issue.UnclosedAt? ==> LeftOpen(s, issue.at)
    ensures issue in IssuesOf(token, at) && issue.StrayClose? ==> PairAt(s, '}', '}', issue.at)
    ensures issue in IssuesOf(token, at) ==> !issue.Required? && !issue.TooLong?
  {
    hide StrayCloses, NameIssues, IsAbout, Lies, LeftOpen;
    match token {
      case Literal(text) =>
        if issue in StrayCloses(text, at) { LiteralIssueIs(s, text, at, issue); }
      case Placeholder(name) =>
        NameIssueIs(s, name, at, at + |token.Source()|, issue);
      case Unclosed(text) =>
        UnclosedIs(s, text, at, at + |token.Source()|);
    }
  }

  lemma EmptyIsNoName()
    ensures !IsName("")
  {
  }

  lemma {:induction false} IssuesAt(s: string, tokens: Tokens, at: nat, issue: Issue)
    requires Cover(s, tokens, at)
    ensures issue in TokenIssues(tokens, at) && IsNameIssue(issue)
       <==> exists span :: span in Spans(tokens, at) && IsAbout(s, span, issue)
    ensures issue in TokenIssues(tokens, at) && issue.UnclosedAt? ==> LeftOpen(s, issue.at)
    ensures issue in TokenIssues(tokens, at) && issue.StrayClose? ==> PairAt(s, '}', '}', issue.at)
    ensures issue in TokenIssues(tokens, at) ==> !issue.Required? && !issue.TooLong?
    ensures forall span :: span in Spans(tokens, at) ==> ClosedSpan(s, span)
  {
    hide Lies, IssuesOf, IsAbout, LeftOpen, ClosedSpan, Token.Source;
    if tokens.Cons? {
      var (token, rest) := (tokens.head, tokens.tail);
      var next := at + |token.Source()|;
      TokenIssueIs(s, token, at, issue);
      IssuesAt(s, rest, next, issue);
      if token.Placeholder? { SpanCloses(s, token, at, next); }
      assert forall span :: span in Spans(tokens, at) <==> span in SpanOf(token, at) || span in Spans(rest, next);
      if token.Placeholder? && IsAbout(s, (at, next), issue) { assert (at, next) in Spans(tokens, at); }
    }
  }

  lemma SpanCloses(s: string, token: Token, at: nat, end: nat)
    requires Lies(s, token, at, end) && token.Placeholder?
    ensures ClosedSpan(s, (at, end))
  {
  }

  /** A name is complained about exactly where a placeholder with such a name opens. */
  lemma {:induction false} NameIssueIff(content: string, issue: Issue)
    requires IsNameIssue(issue)
    ensures issue in Issues(content)
       <==> exists span :: span in Spans(Outside(content), 0) && IsAbout(content, span, issue)
  {
    hide Outside, TokenIssues, Spans, IsAbout, Cover, Trim;
    assert content[0..] == content;
    OutsideCovers(content, 0);
    IssuesAt(content, Outside(content), 0, issue);
  }

  /** The spans are placeholders, each closed by the first closing behind its opening. */
  lemma SpansAreClosed(content: string, span: (nat, nat))
    requires span in Spans(Outside(content), 0)
    ensures ClosedSpan(content, span)
  {
    hide Outside, TokenIssues, Spans, ClosedSpan, Cover;
    assert content[0..] == content;
    OutsideCovers(content, 0);
    IssuesAt(content, Outside(content), 0, Required);
  }

  /** Blank and over-long contents are complained about, and no others. */
  lemma {:induction false} ContentIssueIff(content: string)
    ensures Required in Issues(content) <==> Blank(content)
    ensures TooLong in Issues(content) <==> |content| > 8000
  {
    hide Outside, TokenIssues, Spans, Cover, Trim, Blank;
    assert content[0..] == content;
    OutsideCovers(content, 0);
    IssuesAt(content, Outside(content), 0, Required);
    IssuesAt(content, Outside(content), 0, TooLong);
    TrimBlank(content);
  }

  ghost predicate InASpan(spans: seq<(nat, nat)>, j: nat) {
    exists span :: span in spans && span.0 <= j < span.1
  }

  lemma {:induction false} StrayFound(text: string, at: nat, j: nat)
    requires PairAt(text, '}', '}', j)
    ensures StrayClose(at + j) in StrayCloses(text, at) || (j > 0 && StrayClose(at + j - 1) in StrayCloses(text, at))
    decreases |text|
  {
    hide StrayCloses, FindPair;
    StrayUnfold(text, at);
    var found := FindPair(text, '}', '}');
    assert found.Some?;
    var k := found.value;
    var more := StrayCloses(text[k + 2..], at + k + 2);
    if k + 2 <= j {
      StrayFound(text[k + 2..], at + k + 2, j - k - 2);
      assert at + k + 2 + (j - k - 2) == at + j;
    } else {
      assert ([StrayClose(at + k)] + more)[0] == StrayClose(at + k);
    }
  }

  /** The opening or closing braces at `j` belong to a placeholder, or are reported there or one to the left. */
  ghost predicate Accounted(issues: seq<Issue>, spans: seq<(nat, nat)>, j: nat, issue: nat -> Issue) {
    InASpan(spans, j) || issue(j) in issues || (j > 0 && issue(j - 1) in issues)
  }

  lemma BracesOfLiteral(s: string, text: string, at: nat, j: nat)
    requires Lies(s, Literal(text), at, at + |text|) && at <= j < at + |text|
    ensures !PairAt(s, '{', '{', j)
    ensures PairAt(s, '}', '}', j) ==> PairAt(text, '}', '}', j - at)
  {
    assert text == s[at..at + |text|];
    assert text[j - at] == s[j];
    if j + 1 < at + |text| { assert text[j + 1 - at] == s[j + 1]; }
  }

  lemma BracesOfUnclosed(s: string, text: string, at: nat, end: nat, j: nat)
    requires Lies(s, Unclosed(text), at, end) && at <= j < end
    ensures PairAt(s, '{', '{', j) ==> j == at || j == at + 1
    ensures !PairAt(s, '}', '}', j)
  {
  }

  lemma BracesOfToken(s: string, token: Token, at: nat, j: nat)
    requires Lies(s, token, at, at + |token.Source()|) && at <= j < at + |token.Source()|
    ensures PairAt(s, '{', '{', j) ==> Accounted(IssuesOf(token, at), SpanOf(token, at), j, (k: nat) => UnclosedAt(k))
    ensures PairAt(s, '}', '}', j) ==> Accounted(IssuesOf(token, at), SpanOf(token, at), j, (k: nat) => StrayClose(k))
  {
    hide StrayCloses, NameIssues, Lies;
    match token {
      case Literal(text) =>
        BracesOfLiteral(s, text, at, j);
        if PairAt(s, '}', '}', j) { StrayFound(text, at, j - at); }
      case Placeholder(name) =>
        assert (at, at + |token.Source()|) in SpanOf(token, at);
      case Unclosed(text) =>
        BracesOfUnclosed(s, text, at, at + |token.Source()|, j);
    }
  }

  lemma AccountedBehind(a: seq<Issue>, b: seq<Issue>, left: seq<(nat, nat)>, right: seq<(nat, nat)>, j: nat,
                        issue: nat -> Issue)
    requires Accounted(a, left, j, issue) || Accounted(b, right, j, issue)
    ensures Accounted(a + b, left + right, j, issue)
  {
    assert forall span :: span in left || span in right ==> span in left + right;
  }

  lemma {:induction false} BracesAccounted(s: string, tokens: Tokens, at: nat, j: nat)
    requires Cover(s, tokens, at) && at <= j
    ensures PairAt(s, '{', '{', j) ==>
      Accounted(TokenIssues(tokens, at), Spans(tokens, at), j, (k: nat) => UnclosedAt(k))
    ensures PairAt(s, '}', '}', j) ==>
      Accounted(TokenIssues(tokens, at), Spans(tokens, at), j, (k: nat) => StrayClose(k))
  {
    hide Lies, IssuesOf, Accounted, Token.Source;
    if tokens.Cons? {
      var (token, rest) := (tokens.head, tokens.tail);
      var next := at + |token.Source()|;
      if j < next { BracesOfToken(s, token, at, j); } else { BracesAccounted(s, rest, next, j); }
      if PairAt(s, '{', '{', j) {
        AccountedBehind(IssuesOf(token, at), TokenIssues(rest, next), SpanOf(token, at), Spans(rest, next), j,
                        (k: nat) => UnclosedAt(k));
      }
      if PairAt(s, '}', '}', j) {
        AccountedBehind(IssuesOf(token, at), TokenIssues(rest, next), SpanOf(token, at), Spans(rest, next), j,
                        (k: nat) => StrayClose(k));
      }
    }
  }

  /**
   * Doubled braces belong to a placeholder or are reported where they begin or one character before; and
   * what is reported as left open or as a stray closing is one.
   */
  lemma {:induction false} BracesAreReported(content: string, j: nat)
    ensures var (issues, spans) := (Issues(content), Spans(Outside(content), 0));
            && (PairAt(content, '{', '{', j) ==>
                  InASpan(spans, j) || UnclosedAt(j) in issues || (j > 0 && UnclosedAt(j - 1) in issues))
            && (PairAt(content, '}', '}', j) ==>
                  InASpan(spans, j) || StrayClose(j) in issues || (j > 0 && StrayClose(j - 1) in issues))
            && (UnclosedAt(j) in issues ==> LeftOpen(content, j))
            && (StrayClose(j) in issues ==> PairAt(content, '}', '}', j))
  {
    hide Outside, TokenIssues, Spans, Cover, Trim, InASpan, LeftOpen;
    assert content[0..] == content;
    OutsideCovers(content, 0);
    IssuesAt(content, Outside(content), 0, UnclosedAt(j));
    IssuesAt(content, Outside(content), 0, StrayClose(j));
    BracesAccounted(content, Outside(content), 0, j);
    assert TokenIssues(Outside(content), 0) <= Issues(content)[|ContentIssues(content)|..];
  }

  function SpanName(s: string, span: (nat, nat)): string
    requires span.0 + 4 <= span.1 <= |s|
  {
    s[span.0 + 2..span.1 - 2]
  }

  /** The value of a variable that is bound, and the source of the placeholder if it is not. */
  function SpanValue(s: string, span: (nat, nat), vars: map<string, string>): string
    requires span.0 + 4 <= span.1 <= |s|
  {
    var name := SpanName(s, span);
    if IsName(name) && name in vars then vars[name] else s[span.0..span.1]
  }

  lemma SpanFits(s: string, span: (nat, nat))
    requires ClosedSpan(s, span)
    ensures span.0 + 4 <= span.1 <= |s|
  {
  }

  lemma RenderLies(s: string, token: Token, at: nat, end: nat, vars: map<string, string>)
    requires Lies(s, token, at, end)
    ensures if token.Placeholder? then RenderToken(token, vars) == SpanValue(s, (at, end), vars)
            else RenderToken(token, vars) == token.Source()
    ensures token.Source() == s[at..end]
  {
    hide IsName;
  }

  lemma {:induction false} UntouchedAt(s: string, tokens: Tokens, at: nat, vars: map<string, string>)
    requires Cover(s, tokens, at)
    requires forall span :: span in Spans(tokens, at) && ClosedSpan(s, span) ==>
        SpanValue(s, span, vars) == s[span.0..span.1]
    ensures RenderTokens(tokens, vars) == SourceOf(tokens)
  {
    hide Lies, ClosedSpan, SpanValue, RenderToken, Token.Source;
    if tokens.Cons? {
      var next := at + |tokens.head.Source()|;
      if tokens.head.Placeholder? {
        assert (at, next) in Spans(tokens, at);
        SpanCloses(s, tokens.head, at, next);
        SpanFits(s, (at, next));
      }
      RenderLies(s, tokens.head, at, next, vars);
      UntouchedAt(s, tokens.tail, next, vars);
    }
  }

  /** A content none of whose placeholders names a bound variable is rendered as it is. */
  lemma RenderUntouched(content: string, vars: map<string, string>)
    requires forall span :: span in Spans(Outside(content), 0) && ClosedSpan(content, span) ==>
               !(IsName(SpanName(content, span)) && SpanName(content, span) in vars)
    ensures RenderTokens(Outside(content), vars) == content
  {
    hide Outside, Spans, Cover, IsName, RenderTokens;
    assert content[0..] == content;
    OutsideCovers(content, 0);
    UntouchedAt(content, Outside(content), 0, vars);
    OutsideSource(content);
  }

  function Rendered(s: string, vars: map<string, string>): string {
    RenderTokens(Outside(s), vars)
  }

  lemma RenderCons(token: Token, rest: Tokens, vars: map<string, string>)
    ensures RenderTokens(Cons(token, rest), vars) == RenderToken(token, vars) + RenderTokens(rest, vars)
  {
  }

  lemma RenderLiteral(text: string, vars: map<string, string>)
    ensures RenderTokens(Cons(Literal(text), End), vars) == text
    ensures RenderTokens(Cons(Unclosed(text), End), vars) == Unclosed(text).Source()
  {
    assert text + "" == text && Unclosed(text).Source() + "" == Unclosed(text).Source();
  }

  /** What is rendered before a placeholder at `to`, of a text whose opening stands at `at`. */
  function RenderedInside(s: string, at: nat, to: nat, vars: map<string, string>): string
    requires at <= to <= |s|
  {
    if to < at + 2 then "" else RenderTokens(Inside(s[at + 2..to]), vars)
  }

  lemma SpansOfCons(token: Token, rest: Tokens, at: nat)
    ensures Spans(Cons(token, rest), at)
         == (if token.Placeholder? then [(at, at + |token.Source()|)] else []) + Spans(rest, at + |token.Source()|)
  {
  }

  lemma {:induction false} OutsideSplits(s: string, at: nat, span: (nat, nat), vars: map<string, string>)
    requires at <= |s| && span in Spans(Outside(s[at..]), at) && ClosedSpan(s, span)
    ensures at <= span.0
    ensures Rendered(s[at..], vars)
         == Rendered(s[at..span.0], vars) + SpanValue(s, span, vars) + Rendered(s[span.1..], vars)
    decreases |s| - at, 2
  {
    hide Outside, Inside, FindPair, Token.Source, SpanValue, Spans, RenderTokens;
    var open := FirstPair(s, '{', at);
    if open.Some? {
      var k := open.value;
      OpenFound(s, at, k);
      LiteralLies(s, at, k);
      SpansOfCons(Literal(s[at..k]), Inside(s[k + 2..]), at);
      RenderCons(Literal(s[at..k]), Inside(s[k + 2..]), vars);
      InsideSplits(s, k, span, vars);
      OutsideHead(s, at, k, span.0, vars);
      Glue(s[at..k], RenderedInside(s, k, span.0, vars), SpanValue(s, span, vars), Rendered(s[span.1..], vars));
    } else {
      NoOpenFound(s, at);
      SpansOfCons(Literal(s[at..]), End, at);
      NoSpans(at + |Literal(s[at..]).Source()|);
    }
  }

  lemma NoSpans(at: nat)
    ensures Spans(End, at) == []
  {
  }

  lemma Glue(a: string, b: string, c: string, d: string)
    ensures a + (b + c + d) == (a + b) + c + d
  {
  }

  lemma NoPairBefore(s: string, c: char, from: nat, k: nat, to: nat)
    requires from <= k <= to <= |s| && NoPair(s, c, from, k)
    ensures NoPair(s[..to], c, from, k)
  {
    forall j | from <= j < k
      ensures !PairAt(s[..to], c, c, j)
    {
      assert !PairAt(s, c, c, j);
    }
  }

  lemma {:induction false} OutsideHead(s: string, at: nat, k: nat, to: nat, vars: map<string, string>)
    requires at <= k <= to <= |s| && NoPair(s, '{', at, k) && PairAt(s, '{', '{', k) && (to == k || k + 2 <= to)
    ensures Rendered(s[at..to], vars) == s[at..k] + RenderedInside(s, k, to, vars)
  {
    hide Outside, Inside, FindPair, Token.Source, RenderTokens, NoPair;
    var c := s[..to];
    assert c[at..] == s[at..to];
    NoPairBefore(s, '{', at, k, to);
    if to == k {
      NoOpenFound(c, at);
      RenderLiteral(s[at..k], vars);
      assert s[at..k] + "" == s[at..k];
    } else {
      OpenFound(c, at, k);
      assert c[k + 2..] == s[k + 2..to] && c[at..k] == s[at..k];
      RenderCons(Literal(s[at..k]), Inside(s[k + 2..to]), vars);
      LiteralSource(s[at..k]);
    }
  }

  lemma {:induction false} InsideSplits(s: string, at: nat, span: (nat, nat), vars: map<string, string>)
    requires PairAt(s, '{', '{', at) && span in Spans(Inside(s[at + 2..]), at) && ClosedSpan(s, span)
    ensures at == span.0 || at + 2 <= span.0
    ensures RenderTokens(Inside(s[at + 2..]), vars)
         == RenderedInside(s, at, span.0, vars) + SpanValue(s, span, vars) + Rendered(s[span.1..], vars)
    decreases |s| - at, 1
  {
    hide Outside, Inside, FindPair, Token.Source, SpanValue, Spans, RenderTokens;
    var open := FirstPair(s, '{', at + 2);
    var close := FirstPair(s, '}', at + 2);
    if close.Some? && (open.None? || close.value < open.value) {
      ClosedSplits(s, at, close.value, span, vars);
    } else if open.Some? {
      var k := open.value;
      ReopenFound(s, at + 2, k);
      UnclosedLies(s, at, k);
      SpansOfCons(Unclosed(s[at + 2..k]), Inside(s[k + 2..]), at);
      RenderCons(Unclosed(s[at + 2..k]), Inside(s[k + 2..]), vars);
      InsideSplits(s, k, span, vars);
      ReopenHead(s, at, k, span.0, vars);
      Glue(Unclosed(s[at + 2..k]).Source(), RenderedInside(s, k, span.0, vars), SpanValue(s, span, vars),
           Rendered(s[span.1..], vars));
    } else {
      NeverClosed(s, at + 2);
      SpansOfCons(Unclosed(s[at + 2..]), End, at);
      NoSpans(at + |Unclosed(s[at + 2..]).Source()|);
    }
  }

  lemma {:induction false} ReopenHead(s: string, at: nat, k: nat, to: nat, vars: map<string, string>)
    requires at + 2 <= k <= to <= |s| && NoPair(s, '{', at + 2, k) && NoPair(s, '}', at + 2, k)
    requires PairAt(s, '{', '{', k) && (to == k || k + 2 <= to)
    ensures RenderedInside(s, at, to, vars) == Unclosed(s[at + 2..k]).Source() + RenderedInside(s, k, to, vars)
  {
    hide Outside, Inside, FindPair, Token.Source, RenderTokens, NoPair;
    var c := s[..to];
    assert c[at + 2..] == s[at + 2..to] && c[at + 2..k] == s[at + 2..k];
    var token := Unclosed(s[at + 2..k]);
    NoPairBefore(s, '{', at + 2, k, to);
    NoPairBefore(s, '}', at + 2, k, to);
    if to == k {
      NeverClosed(c, at + 2);
      RenderLiteral(s[at + 2..k], vars);
      assert token.Source() + "" == token.Source();
    } else {
      ReopenFound(c, at + 2, k);
      assert c[k + 2..] == s[k + 2..to];
      RenderCons(token, Inside(s[k + 2..to]), vars);
    }
  }

  lemma {:induction false} ClosedHead(s: string, at: nat, close: nat, to: nat, vars: map<string, string>)
    requires at + 2 <= close && ClosedSpan(s, (at, close + 2)) && close + 2 <= to <= |s|
    ensures RenderedInside(s, at, to, vars)
         == RenderToken(Placeholder(s[at + 2..close]), vars) + Rendered(s[close + 2..to], vars)
  {
    hide Outside, Inside, FindPair, Token.Source, RenderTokens, NoPair, RenderToken;
    var c := s[..to];
    NoPairBefore(s, '{', at + 2, close, to);
    NoPairBefore(s, '}', at + 2, close, to);
    CloseFound(c, at + 2, close);
    assert c[at + 2..] == s[at + 2..to] && c[at + 2..close] == s[at + 2..close];
    assert c[close + 2..] == s[close + 2..to];
    RenderCons(Placeholder(s[at + 2..close]), Outside(s[close + 2..to]), vars);
  }

  lemma {:induction false} ClosedSplits(s: string, at: nat, close: nat, span: (nat, nat), vars: map<string, string>)
    requires at + 2 <= close && ClosedSpan(s, (at, close + 2))
    requires span in Spans(Inside(s[at + 2..]), at) && ClosedSpan(s, span)
    ensures at == span.0 || at + 2 <= span.0
    ensures RenderTokens(Inside(s[at + 2..]), vars)
         == RenderedInside(s, at, span.0, vars) + SpanValue(s, span, vars) + Rendered(s[span.1..], vars)
    decreases |s| - at, 0
  {
    hide Outside, Inside, FindPair, Token.Source, SpanValue, Spans, RenderTokens, NoPair, RenderToken;
    var token := Placeholder(s[at + 2..close]);
    var rest := Outside(s[close + 2..]);
    CloseFound(s, at + 2, close);
    PlaceholderLies(s, at, close);
    SpansOfCons(token, rest, at);
    RenderCons(token, rest, vars);
    PlaceholderValue(s, at, close, vars);
    if span == (at, close + 2) {
      assert "" + RenderToken(token, vars) == RenderToken(token, vars);
    } else {
      OutsideSplits(s, close + 2, span, vars);
      ClosedHead(s, at, close, span.0, vars);
      hide RenderedInside, Rendered;
      Glue(RenderToken(token, vars), Rendered(s[close + 2..span.0], vars), SpanValue(s, span, vars),
           Rendered(s[span.1..], vars));
    }
  }

  lemma PlaceholderValue(s: string, at: nat, close: nat, vars: map<string, string>)
    requires at + 2 <= close && ClosedSpan(s, (at, close + 2))
    ensures RenderToken(Placeholder(s[at + 2..close]), vars) == SpanValue(s, (at, close + 2), vars)
  {
    OpenedSource(s, at, close, s[at + 2..close]);
  }

  /** Around each placeholder the rendering splits: what is before, its value or its source, what is behind. */
  lemma {:induction false} RenderSplits(content: string, span: (nat, nat), vars: map<string, string>)
    requires span in Spans(Outside(content), 0)
    ensures span.0 + 4 <= span.1 <= |content|
    ensures Rendered(content, vars)
         == Rendered(content[..span.0], vars) + SpanValue(content, span, vars) + Rendered(content[span.1..], vars)
  {
    hide Outside, Spans, NoPair, SpanValue, Rendered;
    SpansAreClosed(content, span);
    assert content[0..] == content && content[0..span.0] == content[..span.0];
    OutsideSplits(content, 0, span, vars);
  }
}
