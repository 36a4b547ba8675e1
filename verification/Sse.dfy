/**
 * The incremental frame parser of the provider adapters. The body arrives in chunks of any size;
 * a frame ends at a blank line. Bytes are ASCII, so decoding a chunk is the identity on characters.
 */
module Sse {
  import opened Text
  import opened Contract

  datatype Frame = Frame(event: Option<string>, data: string)

  /** One item of the HTTP body: some characters, or a read that failed. */
  datatype BodyItem = Chunk(text: string) | ReadError

  type Item = Result<Frame, ProviderError>

  const READ_FAILURE: Item := Err(ProviderError(Unavailable, true))
  const NO_DATA: Item := Err(ProviderError(InvalidRequest, false))

  // ------------------------------------------------------------------ frame boundaries

  predicate CrlfBreak(s: string, i: int) {
    PairAt(s, '\r', '\n', i) && PairAt(s, '\r', '\n', i + 2)
  }

  function FindCrlfBreak(s: string, from: nat := 0): (r: Option<nat>)
    ensures r.Some? ==> from <= r.value && CrlfBreak(s, r.value)
    ensures r.Some? ==> forall j :: from <= j < r.value ==> !CrlfBreak(s, j)
    ensures r.None? ==> forall j :: from <= j ==> !CrlfBreak(s, j)
    decreases |s| - from
  {
    if from + 3 >= |s| then None
    else if CrlfBreak(s, from) then Some(from)
    else FindCrlfBreak(s, from + 1)
  }

  /** The LF blank line is looked for over the whole buffer before the CRLF one is considered. */
  function FindBoundary(buf: string): (r: Option<nat>)
    ensures r.Some? ==> r.value + 2 <= |buf|
  {
    var lf := FindPair(buf, '\n', '\n');
    if lf.Some? then lf else FindCrlfBreak(buf)
  }

  // ------------------------------------------------------------------ parsing one frame

  function StripSuffix(s: string, suffix: string): string {
    if |suffix| <= |s| && s[|s| - |suffix|..] == suffix then s[..|s| - |suffix|] else s
  }

  /** The lines of a raw frame without their terminators. */
  function FrameLines(raw: string): (ls: seq<string>)
    ensures ls != []
  {
    var all := Lines(StripSuffix(StripSuffix(raw, "\r\n"), "\n"));
    seq(|all|, i requires 0 <= i < |all| => StripSuffix(all[i], "\r"))
  }

  predicate IsField(line: string, name: string) {
    name <= line
  }

  function FieldValue(line: string, name: string): string
    requires IsField(line, name)
  {
    Trim(line[|name|..])
  }

  function DataValue(line: string): seq<string> {
    if IsField(line, "data:") then [FieldValue(line, "data:")] else []
  }

  /** The trimmed values of the `data:` lines, in order. */
  function DataValues(lines: seq<string>): seq<string> {
    if lines == [] then []
    else DataValues(lines[..|lines| - 1]) + DataValue(lines[|lines| - 1])
  }

  /** The trimmed value of the last `event:` line. */
  function EventName(lines: seq<string>): Option<string> {
    if lines == [] then None
    else
      var last := lines[|lines| - 1];
      if IsField(last, "event:") then Some(FieldValue(last, "event:")) else EventName(lines[..|lines| - 1])
  }

  predicate HasComment(lines: seq<string>) {
    exists i :: 0 <= i < |lines| && IsField(lines[i], ":")
  }

  /** What a raw frame means: its data lines joined, or nothing, or an error. */
  function Parse(raw: string): (item: Item)
    ensures item != READ_FAILURE
  {
    var lines := FrameLines(raw);
    var data := DataValues(lines);
    if data != [] then Ok(Frame(EventName(lines), Join(data, "\n")))
    else if HasComment(lines) then Ok(Frame(None, ""))
    else NO_DATA
  }

  lemma {:induction false} FoldLine(lines: seq<string>, i: nat)
    requires i < |lines|
    ensures DataValues(lines[..i + 1]) == DataValues(lines[..i]) + DataValue(lines[i])
    ensures EventName(lines[..i + 1])
         == if IsField(lines[i], "event:") then Some(FieldValue(lines[i], "event:")) else EventName(lines[..i])
    ensures HasComment(lines[..i + 1]) <==> HasComment(lines[..i]) || IsField(lines[i], ":")
  {
    hide FieldValue, IsField, DataValue;
    var upto := lines[..i + 1];
    assert upto[..i] == lines[..i] && upto[i] == lines[i];
    assert forall j :: 0 <= j < i ==> upto[j] == lines[..i][j];
  }

  lemma CommentIsNoField(line: string)
    requires IsField(line, ":")
    ensures !IsField(line, "event:") && !IsField(line, "data:")
  {
    assert line[0] == ':';
  }

  lemma EventIsNoData(line: string)
    requires IsField(line, "event:")
    ensures !IsField(line, "data:")
  {
    assert line[0] == 'e';
  }

  /** The line loop of the frame parser. */
  method ParseFrame(raw: string) returns (item: Item)
    ensures item == Parse(raw)
  {
    var stripped := StripSuffix(StripSuffix(raw, "\r\n"), "\n");
    var all := Lines(stripped);
    ghost var lines := FrameLines(raw);
    var event: Option<string> := None;
    var dataLines: seq<string> := [];
    var hasComment := false;
    for i := 0 to |all|
      invariant event == EventName(lines[..i])
      invariant dataLines == DataValues(lines[..i])
      invariant hasComment <==> HasComment(lines[..i])
    {
      var line := StripSuffix(all[i], "\r");
      FoldLine(lines, i);
      if IsField(line, ":") {
        CommentIsNoField(line);
        hasComment := true;
        continue;
      }
      if IsField(line, "event:") {
        EventIsNoData(line);
        event := Some(FieldValue(line, "event:"));
      } else if IsField(line, "data:") {
        dataLines := dataLines + [FieldValue(line, "data:")];
      }
    }
    assert lines[..|all|] == lines;
    if dataLines == [] {
      if hasComment {
        return Ok(Frame(None, ""));
      }
      return NO_DATA;
    }
    return Ok(Frame(event, Join(dataLines, "\n")));
  }

  predicate IsEmptyFrame(item: Item) {
    item.Ok? && item.value.data == "" && item.value.event.None?
  }

  // ------------------------------------------------------------------ the stream of frames

  /** A raw frame cut from the buffer, or a failed read passed on at this point. */
  datatype RawItem = Raw(text: string) | Lost

  /** Everything the parser will cut from `buf` and the rest of the body. */
  function Extract(body: seq<BodyItem>, buf: string): seq<RawItem>
    decreases |body|, |buf|
  {
    var boundary := FindBoundary(buf);
    if boundary.Some? then [Raw(buf[..boundary.value])] + Extract(body, buf[boundary.value + 2..])
    else if body == [] then []
    else if body[0].Chunk? then Extract(body[1..], buf + body[0].text)
    else [Lost] + Extract(body[1..], buf)
  }

  /** An item is passed on unless it is an empty frame. */
  function Pass(item: Item): seq<Item> {
    if IsEmptyFrame(item) then [] else [item]
  }

  /** What reaches the consumer. */
  function Deliver(raws: seq<RawItem>): seq<Item> {
    if raws == [] then []
    else (if raws[0].Raw? then Pass(Parse(raws[0].text)) else [READ_FAILURE]) + Deliver(raws[1..])
  }

  /** The stateful stream: a body still to be read and a carry-over buffer. */
  class FrameStream {
    var body: seq<BodyItem>
    var buf: string

    ghost function Remaining(): seq<Item>
      reads this
    {
      Deliver(Extract(body, buf))
    }

    constructor (body: seq<BodyItem>)
      ensures Remaining() == Deliver(Extract(body, ""))
    {
      this.body := body;
      this.buf := "";
    }

    /** One poll of the stream; the loop runs until a frame, a failed read or the end. */
    method Next() returns (item: Option<Item>)
      modifies this
      ensures item.None? ==> old(Remaining()) == [] && Remaining() == [] && body == []
      ensures item.Some? ==> old(Remaining()) == [item.value] + Remaining()
    {
      while true
        invariant Remaining() == old(Remaining())
        decreases |body|, |buf|
      {
        var boundary := FindBoundary(buf);
        if boundary.Some? {
          var raw := buf[..boundary.value];
          buf := buf[boundary.value + 2..];
          var frame := ParseFrame(raw);
          if IsEmptyFrame(frame) {
            continue;
          }
          return Some(frame);
        }
        if body == [] {
          return None;
        }
        var next := body[0];
        body := body[1..];
        match next {
          case Chunk(text) =>
            buf := buf + text;
          case ReadError =>
            return Some(READ_FAILURE);
        }
      }
    }
  }

  // ------------------------------------------------------------------ independence from chunking

  /** The characters of a body, whatever its division into chunks. */
  function Bytes(body: seq<BodyItem>): string {
    if body == [] then ""
    else (if body[0].Chunk? then body[0].text else "") + Bytes(body[1..])
  }

  /** The raw frames of an extraction, without the failed reads in between. */
  function Texts(raws: seq<RawItem>): seq<string> {
    if raws == [] then []
    else (if raws[0].Raw? then [raws[0].text] else []) + Texts(raws[1..])
  }

  /** The raw frames of a stream that arrives in one piece. */
  function Segments(s: string): seq<string> {
    Texts(Extract([], s))
  }

  /** The frames and parse errors of a list of raw frames. */
  function Frames(texts: seq<string>): seq<Item> {
    if texts == [] then []
    else Pass(Parse(texts[0])) + Frames(texts[1..])
  }

  function WithoutReadFailures(items: seq<Item>): seq<Item> {
    if items == [] then []
    else (if items[0] == READ_FAILURE then [] else [items[0]]) + WithoutReadFailures(items[1..])
  }

  /** No CRLF blank line comes before an LF blank line; streams with one terminator are of this kind. */
  ghost predicate Orderly(s: string) {
    forall i, j :: i < j && CrlfBreak(s, i) ==> !PairAt(s, '\n', '\n', j)
  }

  lemma BreaksInSuffix(s: string, k: nat)
    requires k <= |s|
    ensures forall i :: 0 <= i ==> PairAt(s[k..], '\n', '\n', i) == PairAt(s, '\n', '\n', i + k)
    ensures forall i :: 0 <= i ==> CrlfBreak(s[k..], i) == CrlfBreak(s, i + k)
  {
  }

  lemma OrderlySuffix(s: string, k: nat)
    requires k <= |s| && Orderly(s)
    ensures Orderly(s[k..])
  {
    forall i, j | i < j && CrlfBreak(s[k..], i)
      ensures !PairAt(s[k..], '\n', '\n', j)
    {
      assert CrlfBreak(s, i + k) && !PairAt(s, '\n', '\n', j + k);
    }
  }

  lemma BreaksInPrefix(a: string, c: string)
    ensures forall i :: i + 1 < |a| ==> PairAt(a + c, '\n', '\n', i) == PairAt(a, '\n', '\n', i)
    ensures forall i :: i + 3 < |a| ==> CrlfBreak(a + c, i) == CrlfBreak(a, i)
  {
  }

  /** A boundary that is visible in the buffer stays the boundary when more characters arrive. */
  lemma BoundaryStable(a: string, c: string)
    requires Orderly(a + c)
    requires FindBoundary(a).Some?
    ensures FindBoundary(a + c) == FindBoundary(a)
  {
    var k := FindBoundary(a).value;
    BreaksInPrefix(a, c);
    if FindPair(a, '\n', '\n').Some? {
      assert PairAt(a + c, '\n', '\n', k);
      assert forall j :: 0 <= j < k ==> !PairAt(a, '\n', '\n', j) && !PairAt(a + c, '\n', '\n', j);
      FindPairIs(a + c, '\n', '\n', k);
    } else {
      assert CrlfBreak(a, k);
      assert CrlfBreak(a + c, k);
      forall j | 0 <= j
        ensures !PairAt(a + c, '\n', '\n', j)
      {
        if j <= k { assert !PairAt(a, '\n', '\n', j); }
      }
      assert forall j :: 0 <= j < k ==> !CrlfBreak(a, j) && !CrlfBreak(a + c, j);
    }
  }

  lemma {:induction false} ExtractTexts(body: seq<BodyItem>, buf: string)
    requires Orderly(buf + Bytes(body))
    ensures Texts(Extract(body, buf)) == Segments(buf + Bytes(body))
    decreases |body|, |buf|
  {
    hide FindBoundary, Orderly;
    var all := buf + Bytes(body);
    var boundary := FindBoundary(buf);
    if boundary.Some? {
      var k := boundary.value;
      BoundaryStable(buf, Bytes(body));
      assert all[..k] == buf[..k] && all[k + 2..] == buf[k + 2..] + Bytes(body);
      OrderlySuffix(all, k + 2);
      ExtractTexts(body, buf[k + 2..]);
    } else if body == [] {
      assert all == buf;
    } else if body[0].Chunk? {
      assert all == (buf + body[0].text) + Bytes(body[1..]);
      ExtractTexts(body[1..], buf + body[0].text);
    } else {
      assert all == buf + Bytes(body[1..]);
      ExtractTexts(body[1..], buf);
    }
  }

  lemma WithoutReadFailuresOfPass(item: Item, rest: seq<Item>)
    requires item != READ_FAILURE
    ensures WithoutReadFailures(Pass(item) + rest) == Pass(item) + WithoutReadFailures(rest)
  {
    if IsEmptyFrame(item) {
      assert Pass(item) + rest == rest;
    } else {
      assert (Pass(item) + rest)[1..] == rest;
    }
  }

  lemma WithoutReadFailuresOfFailure(rest: seq<Item>)
    ensures WithoutReadFailures([READ_FAILURE] + rest) == WithoutReadFailures(rest)
  {
    assert ([READ_FAILURE] + rest)[1..] == rest;
  }

  lemma FramesCons(text: string, rest: seq<string>)
    ensures Frames([text] + rest) == Pass(Parse(text)) + Frames(rest)
  {
    assert ([text] + rest)[1..] == rest;
  }

  lemma {:induction false} DeliverTexts(raws: seq<RawItem>)
    ensures WithoutReadFailures(Deliver(raws)) == Frames(Texts(raws))
  {
    if raws != [] {
      DeliverTexts(raws[1..]);
      if raws[0].Raw? {
        WithoutReadFailuresOfPass(Parse(raws[0].text), Deliver(raws[1..]));
        FramesCons(raws[0].text, Texts(raws[1..]));
      } else {
        WithoutReadFailuresOfFailure(Deliver(raws[1..]));
        assert Texts(raws) == Texts(raws[1..]);
      }
    }
  }

  /** The frames depend on the characters alone, for every division into chunks and any failed reads between them. */
  lemma ChunkingIsIrrelevant(body: seq<BodyItem>)
    requires Orderly(Bytes(body))
    ensures WithoutReadFailures(Deliver(Extract(body, ""))) == Frames(Segments(Bytes(body)))
  {
    assert "" + Bytes(body) == Bytes(body);
    ExtractTexts(body, "");
    DeliverTexts(Extract(body, ""));
  }

  /** Every line feed ends a CRLF pair. */
  ghost predicate OnlyCrlf(s: string) {
    forall i :: 0 <= i < |s| && s[i] == '\n' ==> i > 0 && s[i - 1] == '\r'
  }

  /** No carriage return is directly before a line feed or at the end. */
  ghost predicate OnlyLf(s: string) {
    forall i :: 0 <= i < |s| && s[i] == '\r' ==> i + 1 < |s| && s[i + 1] != '\n'
  }

  /** A stream that uses one line terminator throughout is orderly. */
  lemma OneTerminatorIsOrderly(s: string)
    requires OnlyLf(s) || OnlyCrlf(s)
    ensures Orderly(s)
  {
  }

  /** An LF blank line before the cut is the first boundary on both sides of the comparison. */
  lemma FirstSegment(s: string, p: nat, k: nat)
    requires p <= |s| && k + 2 <= p
    requires PairAt(s, '\n', '\n', k) && forall h :: 0 <= h < k ==> !PairAt(s, '\n', '\n', h)
    ensures Texts(Extract([Chunk(s[p..])], s[..p])) == [s[..k]] + Texts(Extract([Chunk(s[p..])], s[k + 2..p]))
    ensures Segments(s) == [s[..k]] + Segments(s[k + 2..])
  {
    var a := s[..p];
    assert s == a + s[p..];
    BreaksInPrefix(a, s[p..]);
    FindPairIs(a, '\n', '\n', k);
    FindPairIs(s, '\n', '\n', k);
    assert a[..k] == s[..k] && a[k + 2..] == s[k + 2..p];
  }

  /** When the CRLF blank line at the cut comes first, it ends the first frame only if the stream is cut there. */
  lemma SegmentAtCut(s: string, i: nat, j: nat)
    requires i < j && CrlfBreak(s, i) && PairAt(s, '\n', '\n', j)
    requires forall h :: 0 <= h < i ==> !CrlfBreak(s, h) && !PairAt(s, '\n', '\n', h)
    ensures Texts(Extract([Chunk(s[i + 4..])], s[..i + 4])) != Segments(s)
  {
    var a, c := s[..i + 4], s[i + 4..];
    assert s == a + c;
    BreaksInPrefix(a, c);
    var k := FindPair(s, '\n', '\n').value;
    assert k > i;
    assert forall h :: 0 <= h ==> !PairAt(a, '\n', '\n', h);
    assert CrlfBreak(a, i) && forall h :: 0 <= h < i ==> !CrlfBreak(a, h);
    assert FindBoundary(a) == Some(i) && FindBoundary(s) == Some(k);
    assert Texts(Extract([Chunk(c)], a))[0] == a[..i];
    assert Segments(s)[0] == s[..k];
  }

  lemma ShiftBreaks(s: string, i: nat, j: nat, k: nat)
    requires i < j && CrlfBreak(s, i) && PairAt(s, '\n', '\n', j) && PairAt(s, '\n', '\n', k) && k < i
    requires forall h :: 0 <= h < i ==> !CrlfBreak(s, h)
    ensures k + 2 <= i
    ensures var t, d := s[k + 2..], k + 2;
            && CrlfBreak(t, i - d) && PairAt(t, '\n', '\n', j - d)
            && (forall h :: 0 <= h < i - d ==> !CrlfBreak(t, h))
            && t[..i - d + 4] == s[d..i + 4] && t[i - d + 4..] == s[i + 4..]
  {
    BreaksInSuffix(s, k + 2);
  }

  lemma PrependDiffers(head: string, x: seq<string>, y: seq<string>)
    requires x != y
    ensures [head] + x != [head] + y
  {
    assert ([head] + x)[1..] == x && ([head] + y)[1..] == y;
  }

  /** Cut after the first CRLF blank line: the two pieces are framed differently from the whole. */
  lemma {:induction false} CutChangesFrames(s: string, i: nat, j: nat)
    requires i < j && CrlfBreak(s, i) && PairAt(s, '\n', '\n', j)
    requires forall h :: 0 <= h < i ==> !CrlfBreak(s, h)
    ensures Texts(Extract([Chunk(s[i + 4..])], s[..i + 4])) != Segments(s)
    decreases |s|
  {
    hide Extract, Segments, Texts;
    var k := FindPair(s, '\n', '\n').value;
    if k < i {
      ShiftBreaks(s, i, j, k);
      CutChangesFrames(s[k + 2..], i - (k + 2), j - (k + 2));
      FirstSegment(s, i + 4, k);
      PrependDiffers(s[..k], Texts(Extract([Chunk(s[i + 4..])], s[k + 2..i + 4])), Segments(s[k + 2..]));
    } else {
      SegmentAtCut(s, i, j);
    }
  }

  lemma ExtractFirstChunk(a: string, body: seq<BodyItem>)
    ensures Extract([Chunk(a)] + body, "") == Extract(body, a)
  {
    assert "" + a == a;
    assert ([Chunk(a)] + body)[1..] == body;
  }

  lemma DisorderlyWitness(s: string) returns (body: seq<BodyItem>)
    requires !Orderly(s)
    ensures Bytes(body) == s && Texts(Extract(body, "")) != Segments(s)
  {
    var i, j :| i < j && CrlfBreak(s, i) && PairAt(s, '\n', '\n', j);
    var first := FindCrlfBreak(s).value;
    CutChangesFrames(s, first, j);
    var k := first + 4;
    var rest := [Chunk(s[k..])];
    body := [Chunk(s[..k])] + rest;
    assert body[1..] == rest;
    assert Bytes(rest) == s[k..] + Bytes([]) == s[k..];
    assert Bytes(body) == s[..k] + s[k..] == s;
    ExtractFirstChunk(s[..k], rest);
  }

  /** Exactly the orderly streams are cut into the same raw frames under every chunking. */
  lemma ChunkingIrrelevantIffOrderly(s: string)
    ensures (forall body :: Bytes(body) == s ==> Texts(Extract(body, "")) == Segments(s)) <==> Orderly(s)
  {
    if Orderly(s) {
      forall body | Bytes(body) == s
        ensures Texts(Extract(body, "")) == Segments(s)
      {
        assert "" + s == s;
        ExtractTexts(body, "");
      }
    } else {
      var body := DisorderlyWitness(s);
    }
  }

  predicate HoldsComment(raw: string) {
    exists i :: 0 <= i < |FrameLines(raw)| && ":" <= FrameLines(raw)[i]
  }

  /** A frame without data is an error that trying again cannot help, unless it holds a comment; it is then empty. */
  lemma FrameWithoutData(raw: string)
    requires DataValues(FrameLines(raw)) == []
    ensures HoldsComment(raw) ==> Parse(raw) == Ok(Frame(None, ""))
    ensures !HoldsComment(raw) ==> Parse(raw) == Err(ProviderError(InvalidRequest, false))
  {
    hide FrameLines, DataValues;
    var lines := FrameLines(raw);
    if i :| 0 <= i < |lines| && ":" <= lines[i] { assert IsField(lines[i], ":"); }
  }

  /** A read that fails is an error worth trying again after. */
  lemma ReadFailureIsRetriable(body: seq<BodyItem>, buf: string)
    requires FindBoundary(buf).None? && body != [] && body[0].ReadError?
    ensures Deliver(Extract(body, buf)) == [Err(ProviderError(Unavailable, true))] + Deliver(Extract(body[1..], buf))
  {
    hide FindBoundary;
    assert ([Lost] + Extract(body[1..], buf))[1..] == Extract(body[1..], buf);
  }
}
