/**
 * The Gemini adapter, which has to make up ids for tool calls: the name and the position among the
 * parts of the answer, or, when streaming, among the parts of the chunk.
 */
module Gemini {
  import opened Text
  import opened Contract
  import Anthropic
  import Sse
  import SseRoundTrip
  import StreamTask

  type Event = Result<StreamEvent, ProviderError>

  datatype FunctionCall = FunctionCall(name: string, args: Json)

  datatype Part = Part(text: Option<string>, call: Option<FunctionCall>)

  function Decimal(n: nat): string {
    if n < 10 then ['0' + n as char] else Decimal(n / 10) + ['0' + (n % 10) as char]
  }

  function IdOf(name: string, position: nat): string {
    name + "#" + Decimal(position)
  }

  function TextOf(parts: seq<Part>): string {
    if parts == [] then ""
    else
      var last := parts[|parts| - 1];
      TextOf(parts[..|parts| - 1]) + (if last.text.Some? then last.text.value else "")
  }

  function CallAt(part: Part, position: nat): seq<ToolCall> {
    match part.call
    case None => []
    case Some(call) => [ToolCall(IdOf(call.name, position), call.name, call.args)]
  }

  /** The calls among the parts, with ids from their positions. */
  function CallsIn(parts: seq<Part>): seq<ToolCall> {
    if parts == [] then [] else CallsIn(parts[..|parts| - 1]) + CallAt(parts[|parts| - 1], |parts| - 1)
  }

  function FinishFor(stop: string): FinishReason {
    if stop == "STOP" then Stop
    else if stop == "MAX_TOKENS" then Length
    else if stop == "FUNCTION_CALL" then ToolUse
    else Other
  }

  function OrNothing(usage: Option<TokenUsage>): TokenUsage {
    if usage.Some? then usage.value else TokenUsage(None, None)
  }

  /** A whole response: the parts and the finish reason of its first candidate, if it has one. */
  datatype Whole = Whole(parts: seq<Part>, stop: Option<string>, usage: Option<TokenUsage>)

  /** What a whole response means. */
  function WholeMeaning(model: string, whole: Whole): ChatCompletion {
    ChatCompletion(TextOf(whole.parts), model, OrNothing(whole.usage),
                   if whole.stop.Some? then FinishFor(whole.stop.value) else Other, CallsIn(whole.parts))
  }

  /** The response extraction of the non-streaming call. */
  method ReadWhole(model: string, whole: Whole) returns (completion: ChatCompletion)
    ensures completion == WholeMeaning(model, whole)
  {
    var text, calls := ReadParts(whole.parts);
    var finish := match whole.stop
      case Some(stop) => FinishFor(stop)
      case None => Other;
    var usage := match whole.usage
      case Some(tokens) => tokens
      case None => TokenUsage(None, None);
    completion := ChatCompletion(text, model, usage, finish, calls);
  }

  /** The loop over the parts of a whole response. */
  method ReadParts(parts: seq<Part>) returns (text: string, calls: seq<ToolCall>)
    ensures text == TextOf(parts) && calls == CallsIn(parts)
  {
    text, calls := "", [];
    for i := 0 to |parts|
      invariant text == TextOf(parts[..i]) && calls == CallsIn(parts[..i])
    {
      assert parts[..i + 1][..i] == parts[..i];
      if parts[i].text.Some? { text := text + parts[i].text.value; }
      if parts[i].call.Some? {
        var call := parts[i].call.value;
        calls := calls + [ToolCall(IdOf(call.name, i), call.name, call.args)];
      }
    }
    assert parts[..|parts|] == parts;
  }

  // ------------------------------------------------------------------ ids

  lemma {:induction false} DecimalHasNoHash(n: nat)
    ensures '#' !in Decimal(n) && Decimal(n) != ""
  {
    if n >= 10 { DecimalHasNoHash(n / 10); }
  }

  lemma {:induction false} DecimalInjective(a: nat, b: nat)
    requires Decimal(a) == Decimal(b)
    ensures a == b
  {
    var x, y := Decimal(a), Decimal(b);
    assert x[|x| - 1] == y[|y| - 1];
    if a >= 10 && b >= 10 {
      assert x[..|x| - 1] == y[..|y| - 1];
      DecimalInjective(a / 10, b / 10);
    } else if a >= 10 {
      DecimalHasNoHash(a / 10);
    } else if b >= 10 {
      DecimalHasNoHash(b / 10);
    }
  }

  lemma LastHash(x: string, a: string, y: string, b: string)
    requires '#' !in a && x + "#" + a == y + "#" + b
    ensures |b| >= |a|
  {
    var s := x + "#" + a;
    assert forall k :: |x| < k < |s| ==> s[k] == a[k - |x| - 1] && a[k - |x| - 1] in a;
    assert (y + "#" + b)[|y|] == '#';
    assert |y| <= |x|;
  }

  /** An id gives back its name and its position. */
  lemma IdInjective(name: string, i: nat, name': string, j: nat)
    ensures IdOf(name, i) == IdOf(name', j) <==> name == name' && i == j
  {
    if IdOf(name, i) == IdOf(name', j) {
      DecimalHasNoHash(i);
      DecimalHasNoHash(j);
      var a, b := Decimal(i), Decimal(j);
      LastHash(name, a, name', b);
      LastHash(name', b, name, a);
      var s := IdOf(name, i);
      assert s[..|name|] == name && s[|s| - |a|..] == a;
      assert IdOf(name', j)[..|name'|] == name' && IdOf(name', j)[|s| - |b|..] == b;
      DecimalInjective(i, j);
    }
  }

  predicate DistinctIds(calls: seq<ToolCall>) {
    forall i, j :: 0 <= i < j < |calls| ==> calls[i].id != calls[j].id
  }

  /** A call made among the parts, with its position. */
  predicate CalledAt(parts: seq<Part>, name: string, position: nat) {
    position < |parts| && parts[position].call.Some? && parts[position].call.value.name == name
  }

  lemma {:induction false} CallsHavePositions(parts: seq<Part>, call: ToolCall)
    requires call in CallsIn(parts)
    ensures exists p: nat :: CalledAt(parts, call.name, p) && call.id == IdOf(call.name, p)
  {
    hide IdOf;
    var n := |parts| - 1;
    var front := parts[..n];
    if call in CallsIn(front) {
      CallsHavePositions(front, call);
      var p: nat :| CalledAt(front, call.name, p) && call.id == IdOf(call.name, p);
      assert CalledAt(parts, call.name, p);
    } else {
      assert call in CallAt(parts[n], n);
      assert CalledAt(parts, call.name, n);
    }
  }

  /** In a whole answer all ids differ, even when a function is called twice. */
  lemma {:induction false} WholeIdsDistinct(parts: seq<Part>)
    ensures DistinctIds(CallsIn(parts))
  {
    hide IdOf;
    if parts != [] {
      var n := |parts| - 1;
      var front := parts[..n];
      WholeIdsDistinct(front);
      var calls := CallsIn(front);
      forall i | 0 <= i < |calls| && parts[n].call.Some?
        ensures calls[i].id != IdOf(parts[n].call.value.name, n)
      {
        CallsHavePositions(front, calls[i]);
        var p: nat :| CalledAt(front, calls[i].name, p) && calls[i].id == IdOf(calls[i].name, p);
        IdInjective(calls[i].name, p, parts[n].call.value.name, n);
      }
    }
  }

  // ------------------------------------------------------------------ streaming

  /** A chunk of the stream; `stop` is its finish reason, and a chunk may come without candidates. */
  datatype Chunk = Chunk(candidates: bool, parts: seq<Part>, stop: string, usage: Option<TokenUsage>)

  predicate Ends(chunk: Chunk) {
    !chunk.candidates || chunk.stop != ""
  }

  function FinishOf(chunk: Chunk): FinishReason {
    if chunk.candidates then FinishFor(chunk.stop) else Stop
  }

  function PartEvents(parts: seq<Part>): seq<Event> {
    if parts == [] then []
    else
      var last := parts[|parts| - 1];
      PartEvents(parts[..|parts| - 1])
      + (if last.text.Some? && last.text.value != "" then [Ok(Delta(last.text.value))] else [])
      + (if last.call.Some? then [Ok(Tool(CallAt(last, |parts| - 1)[0]))] else [])
  }

  function Usage(total: Option<TokenUsage>, chunk: Chunk): Option<TokenUsage> {
    if chunk.usage.Some? then chunk.usage else total
  }

  function ChunkEvents(model: string, total: Option<TokenUsage>, chunk: Chunk): seq<Event> {
    (if chunk.candidates then PartEvents(chunk.parts) else [])
    + (if Ends(chunk) then [Ok(Done(OrNothing(Usage(total, chunk)), model, FinishOf(chunk)))] else [])
  }

  function TotalAfter(total: Option<TokenUsage>, chunk: Chunk): Option<TokenUsage> {
    if Ends(chunk) then None else Usage(total, chunk)
  }

  function Events(model: string, total: Option<TokenUsage>, chunks: seq<Chunk>): seq<Event>
    decreases |chunks|
  {
    if chunks == [] then []
    else ChunkEvents(model, total, chunks[0]) + Events(model, TotalAfter(total, chunks[0]), chunks[1..])
  }

  // ------------------------------------------------------------------ frames as chunks

  function PartOf(json: Json): Part {
    var call := json.At("functionCall");
    Part(json.At("text").AsStr(),
         if call.At("name").Str? && call.Has("args") then Some(FunctionCall(call.At("name").s, call.At("args")))
           else None)
  }

  function PartsOf(items: seq<Json>): seq<Part> {
    if items == [] then [] else [PartOf(items[0])] + PartsOf(items[1..])
  }

  function ChunkOf(json: Json): Chunk {
    var candidates := json.At("candidates");
    var candidate := if candidates.Arr? && candidates.items != [] then candidates.items[0] else Null;
    var parts := candidate.At("content").At("parts");
    Chunk(candidates.Arr?, if parts.Arr? then PartsOf(parts.items) else [],
          Anthropic.OrEmpty(candidate.At("finishReason").AsStr()),
          if json.Has("usageMetadata") then
            Some(TokenUsage(json.At("usageMetadata").At("promptTokenCount").AsU32(),
                            json.At("usageMetadata").At("candidatesTokenCount").AsU32()))
          else None)
  }

  /** A JSON part that holds at least these fields. */
  predicate WritesPart(json: Json, part: Part) {
    && json.At("text") == Anthropic.OptStr(part.text)
    && match part.call
       case None => json.At("functionCall") == Null
       case Some(call) =>
         && json.At("functionCall").At("name") == Str(call.name)
         && json.At("functionCall").Has("args") && json.At("functionCall").At("args") == call.args
  }

  /** A JSON chunk that holds at least these fields. */
  predicate WritesChunk(json: Json, chunk: Chunk) {
    && (chunk.candidates <==> json.At("candidates").Arr?)
    && (chunk.usage.Some? <==> json.Has("usageMetadata"))
    && (chunk.usage.Some? ==>
          && Anthropic.InU32(chunk.usage.value.input) && Anthropic.InU32(chunk.usage.value.output)
          && json.At("usageMetadata").At("promptTokenCount") == Anthropic.OptNum(chunk.usage.value.input)
          && json.At("usageMetadata").At("candidatesTokenCount") == Anthropic.OptNum(chunk.usage.value.output))
    && if !chunk.candidates || json.At("candidates").items == [] then chunk.parts == [] && chunk.stop == ""
       else
         var candidate := json.At("candidates").items[0];
         && candidate.At("finishReason") == (if chunk.stop == "" then Null else Str(chunk.stop))
         && candidate.At("content").At("parts").Arr? && |candidate.At("content").At("parts").items| == |chunk.parts|
         && forall i :: 0 <= i < |chunk.parts| ==>
              WritesPart(candidate.At("content").At("parts").items[i], chunk.parts[i])
  }

  lemma {:induction false} PartsComeBack(items: seq<Json>, parts: seq<Part>)
    requires |items| == |parts| && forall i :: 0 <= i < |parts| ==> WritesPart(items[i], parts[i])
    ensures PartsOf(items) == parts
  {
    if parts != [] {
      assert PartOf(items[0]) == parts[0] by { assert WritesPart(items[0], parts[0]); }
      hide PartOf, WritesPart;
      PartsComeBack(items[1..], parts[1..]);
    }
  }

  /** A frame that holds the fields of a chunk is read as that chunk, whatever other fields it has. */
  lemma ChunkComesBack(json: Json, chunk: Chunk)
    requires WritesChunk(json, chunk)
    ensures ChunkOf(json) == chunk
  {
    hide PartOf, WritesPart, PartsOf;
    if chunk.candidates && json.At("candidates").items != [] {
      PartsComeBack(json.At("candidates").items[0].At("content").At("parts").items, chunk.parts);
    } else {
      NoParts();
    }
  }

  lemma NoParts()
    ensures PartsOf([]) == []
  {
  }

  /** The adapter's shared state: the usage reported so far. */
  class Adapter {
    const model: string
    var totalUsage: Option<TokenUsage>

    constructor (model: string)
      ensures this.model == model && totalUsage == None
    {
      this.model, totalUsage := model, None;
    }

    /** One frame or upstream error in, the events for it out. */
    method OnFrame(codec: Anthropic.Codec, item: Sse.Item) returns (events: seq<Event>)
      modifies this
      ensures item.Err? ==> events == [Err(item.error)] && totalUsage == old(totalUsage)
      ensures item.Ok? && codec.parse(item.value.data).None? ==>
        events == [Anthropic.MALFORMED] && totalUsage == old(totalUsage)
      ensures item.Ok? && codec.parse(item.value.data).Some? ==>
        var chunk := ChunkOf(codec.parse(item.value.data).value);
        events == ChunkEvents(model, old(totalUsage), chunk) && totalUsage == TotalAfter(old(totalUsage), chunk)
    {
      match item {
        case Err(error) => return [Err(error)];
        case Ok(frame) =>
          match codec.parse(frame.data) {
            case None => return [Anthropic.MALFORMED];
            case Some(json) => events := OnChunk(ChunkOf(json));
          }
      }
    }

    method OnChunk(chunk: Chunk) returns (events: seq<Event>)
      modifies this
      ensures events == ChunkEvents(model, old(totalUsage), chunk)
      ensures totalUsage == TotalAfter(old(totalUsage), chunk)
    {
      if chunk.usage.Some? { totalUsage := chunk.usage; }
      events := [];
      if chunk.candidates {
        for i := 0 to |chunk.parts|
          invariant events == PartEvents(chunk.parts[..i]) && totalUsage == Usage(old(totalUsage), chunk)
        {
          assert chunk.parts[..i + 1][..i] == chunk.parts[..i];
          var part := chunk.parts[i];
          if part.text.Some? && part.text.value != "" { events := events + [Ok(Delta(part.text.value))]; }
          if part.call.Some? {
            var call := part.call.value;
            events := events + [Ok(Tool(ToolCall(IdOf(call.name, i), call.name, call.args)))];
          }
        }
        assert chunk.parts[..|chunk.parts|] == chunk.parts;
        if chunk.stop != "" {
          events := events + [Ok(Done(OrNothing(totalUsage), model, FinishOf(chunk)))];
          totalUsage := None;
        }
      } else {
        events := events + [Ok(Done(OrNothing(totalUsage), model, Stop))];
        totalUsage := None;
      }
    }
  }

  lemma UnfoldParts(parts: seq<Part>)
    requires parts != []
    ensures var n := |parts| - 1;
            && (parts[n].call.Some? ==> |CallAt(parts[n], n)| == 1)
            && PartEvents(parts)
               == PartEvents(parts[..n])
                  + (if parts[n].text.Some? && parts[n].text.value != "" then [Ok(Delta(parts[n].text.value))] else [])
                  + (if parts[n].call.Some? then [Ok(Tool(CallAt(parts[n], n)[0]))] else [])
            && TextOf(parts) == TextOf(parts[..n]) + (if parts[n].text.Some? then parts[n].text.value else "")
            && CallsIn(parts) == CallsIn(parts[..n]) + CallAt(parts[n], n)
  {
  }

  /** The parts of a chunk give just their text, in deltas, and their calls. */
  lemma {:induction false} PartsConvey(parts: seq<Part>)
    ensures var events := PartEvents(parts);
            Anthropic.Plain(events) && Concat(DeltaTexts(events)) == TextOf(parts) && CallsOf(events) == CallsIn(parts)
  {
    hide CallAt, Concat, DeltaTexts, CallsOf, TextOf, CallsIn, PartEvents;
    if parts == [] {
      NothingRead();
    } else {
      var n := |parts| - 1;
      var part, front := parts[n], PartEvents(parts[..n]);
      UnfoldParts(parts);
      PartsConvey(parts[..n]);
      var d: seq<Event> := if part.text.Some? && part.text.value != "" then [Ok(Delta(part.text.value))] else [];
      var c: seq<Event> := if part.call.Some? then [Ok(Tool(CallAt(part, n)[0]))] else [];
      OneDelta(if part.text.Some? then part.text.value else "");
      OneCall(part, n);
      EventsAppend(front, d);
      EventsAppend(front + d, c);
      ConcatAppend(DeltaTexts(front), DeltaTexts(d));
      assert DeltaTexts(front + d) + [] == DeltaTexts(front + d);
      assert CallsOf(front) + [] == CallsOf(front);
    }
  }

  lemma OneDelta(text: string)
    ensures var events: seq<Event> := if text == "" then [] else [Ok(Delta(text))];
            Concat(DeltaTexts(events)) == text && CallsOf(events) == []
  {
    if text != "" {
      var events: seq<Event> := [Ok(Delta(text))];
      assert events[1..] == [];
      assert DeltaTexts(events) == [text];
      assert Concat([text]) == text;
    }
  }

  lemma OneCall(part: Part, n: nat)
    ensures part.call.Some? ==> |CallAt(part, n)| == 1
    ensures var events: seq<Event> := if part.call.Some? then [Ok(Tool(CallAt(part, n)[0]))] else [];
            DeltaTexts(events) == [] && CallsOf(events) == CallAt(part, n)
  {
    if part.call.Some? {
      var events: seq<Event> := [Ok(Tool(CallAt(part, n)[0]))];
      assert events[1..] == [];
    }
  }

  /** The text and the calls of a stream of chunks, each chunk counting its own positions. */
  function StreamedText(chunks: seq<Chunk>): string {
    if chunks == [] then ""
    else (if chunks[0].candidates then TextOf(chunks[0].parts) else "") + StreamedText(chunks[1..])
  }

  function StreamedCalls(chunks: seq<Chunk>): seq<ToolCall> {
    if chunks == [] then []
    else (if chunks[0].candidates then CallsIn(chunks[0].parts) else []) + StreamedCalls(chunks[1..])
  }

  /**
   * A reader that stops at the first `Done`, as the relaying task does, gets this text, these calls and this
   * finish.
   */
  predicate Reads(events: seq<Event>, text: string, calls: seq<ToolCall>, finish: FinishReason) {
    var n := StreamTask.StopAt(events);
    && n < |events| && events[n].Ok? && events[n].value.finish == finish
    && Concat(DeltaTexts(events[..n])) == text && CallsOf(events[..n]) == calls
  }

  lemma ReadsDone(head: seq<Event>, done: Event, rest: seq<Event>)
    requires Anthropic.Plain(head) && done.Ok? && done.value.Done?
    ensures Reads(head + [done] + rest, Concat(DeltaTexts(head)), CallsOf(head), done.value.finish)
  {
    hide DeltaTexts, CallsOf, Concat;
    AppendAssoc(head, [done], rest);
    StopsBehind(head, [done] + rest);
    assert (head + [done] + rest)[..|head|] == head;
  }

  lemma ReadsMore(head: seq<Event>, rest: seq<Event>, text: string, calls: seq<ToolCall>, finish: FinishReason)
    requires Anthropic.Plain(head) && Reads(rest, text, calls, finish)
    ensures Reads(head + rest, Concat(DeltaTexts(head)) + text, CallsOf(head) + calls, finish)
  {
    hide DeltaTexts, CallsOf, Concat, StreamTask.StopAt;
    StopsBehind(head, rest);
    var n := StreamTask.StopAt(rest);
    assert (head + rest)[..|head| + n] == head + rest[..n];
    EventsAppend(head, rest[..n]);
    ConcatAppend(DeltaTexts(head), DeltaTexts(rest[..n]));
  }

  /** What is read of a stream are the chunks up to the first one with a finish reason or without candidates. */
  lemma {:induction false} ReadUpToFirstEnd(model: string, total: Option<TokenUsage>, chunks: seq<Chunk>, k: nat)
    requires k < |chunks| && Ends(chunks[k]) && forall j :: 0 <= j < k ==> !Ends(chunks[j])
    ensures Reads(Events(model, total, chunks), StreamedText(chunks[..k + 1]), StreamedCalls(chunks[..k + 1]),
                  FinishOf(chunks[k]))
    decreases |chunks|
  {
    hide PartEvents, TextOf, CallsIn, DeltaTexts, CallsOf, FinishOf, Reads;
    var chunk := chunks[0];
    var head: seq<Event> := if chunk.candidates then PartEvents(chunk.parts) else [];
    var rest := Events(model, TotalAfter(total, chunk), chunks[1..]);
    PartsConvey(chunk.parts);
    NothingRead();
    assert chunks[..k + 1][0] == chunk && chunks[..k + 1][1..] == chunks[1..][..k];
    if k == 0 {
      ReadsDone(head, Ok(Done(OrNothing(Usage(total, chunk)), model, FinishOf(chunk))), rest);
      assert StreamedText(chunks[..1][1..]) == "" && StreamedCalls(chunks[..1][1..]) == [];
      assert Concat(DeltaTexts(head)) + "" == Concat(DeltaTexts(head)) && CallsOf(head) + [] == CallsOf(head);
    } else {
      ReadUpToFirstEnd(model, TotalAfter(total, chunk), chunks[1..], k - 1);
      assert head + [] == head;
      ReadsMore(head, rest, StreamedText(chunks[1..][..k]), StreamedCalls(chunks[1..][..k]), FinishOf(chunks[k]));
    }
  }

  lemma NothingRead()
    ensures DeltaTexts([]) == [] && CallsOf([]) == [] && Concat([]) == "" && TextOf([]) == "" && CallsIn([]) == []
    ensures PartEvents([]) == []
  {
  }

  lemma {:induction false} StopsBehind(head: seq<Event>, rest: seq<Event>)
    requires Anthropic.Plain(head)
    ensures StreamTask.StopAt(head + rest) == |head| + StreamTask.StopAt(rest)
  {
    if head == [] {
      assert head + rest == rest;
    } else {
      assert (head + rest)[1..] == head[1..] + rest;
      StopsBehind(head[1..], rest);
    }
  }

  /** Two chunks call the same function at the same position. */
  ghost predicate Clash(chunks: seq<Chunk>) {
    exists a, b, name: string, p: nat ::
      0 <= a < b < |chunks| && CalledIn(chunks, a, name, p) && CalledIn(chunks, b, name, p)
  }

  predicate CalledIn(chunks: seq<Chunk>, a: nat, name: string, p: nat) {
    a < |chunks| && chunks[a].candidates && CalledAt(chunks[a].parts, name, p)
  }

  lemma {:induction false} PositionsHaveCalls(parts: seq<Part>, name: string, p: nat)
    requires CalledAt(parts, name, p)
    ensures exists call :: call in CallsIn(parts) && call.id == IdOf(name, p)
  {
    hide IdOf;
    var n := |parts| - 1;
    if p == n {
      assert ToolCall(IdOf(name, p), name, parts[n].call.value.args) in CallAt(parts[n], n);
      assert ToolCall(IdOf(name, p), name, parts[n].call.value.args) in CallsIn(parts);
    } else {
      assert CalledAt(parts[..n], name, p);
      PositionsHaveCalls(parts[..n], name, p);
      var call :| call in CallsIn(parts[..n]) && call.id == IdOf(name, p);
      assert call in CallsIn(parts);
    }
  }

  lemma {:induction false} StreamedHavePositions(chunks: seq<Chunk>, call: ToolCall)
    requires call in StreamedCalls(chunks)
    ensures exists a: nat, p: nat :: CalledIn(chunks, a, call.name, p) && call.id == IdOf(call.name, p)
  {
    hide IdOf, CallsIn;
    if chunks[0].candidates && call in CallsIn(chunks[0].parts) {
      CallsHavePositions(chunks[0].parts, call);
      var p: nat :| CalledAt(chunks[0].parts, call.name, p) && call.id == IdOf(call.name, p);
      assert CalledIn(chunks, 0, call.name, p);
    } else {
      StreamedHavePositions(chunks[1..], call);
      var a: nat, p: nat :| CalledIn(chunks[1..], a, call.name, p) && call.id == IdOf(call.name, p);
      assert CalledIn(chunks, a + 1, call.name, p);
    }
  }

  lemma {:induction false} StreamedFromPosition(chunks: seq<Chunk>, a: nat, name: string, p: nat)
    requires CalledIn(chunks, a, name, p)
    ensures exists call :: call in StreamedCalls(chunks) && call.id == IdOf(name, p)
  {
    hide IdOf, CallsIn;
    if a == 0 {
      PositionsHaveCalls(chunks[0].parts, name, p);
      var call :| call in CallsIn(chunks[0].parts) && call.id == IdOf(name, p);
      assert call in StreamedCalls(chunks);
    } else {
      assert CalledIn(chunks[1..], a - 1, name, p);
      StreamedFromPosition(chunks[1..], a - 1, name, p);
      var call :| call in StreamedCalls(chunks[1..]) && call.id == IdOf(name, p);
      assert call in StreamedCalls(chunks);
    }
  }

  /** Streamed calls have distinct ids exactly when no two chunks call the same function at the same position. */
  lemma {:induction false} StreamedIdsDistinctIff(chunks: seq<Chunk>)
    ensures DistinctIds(StreamedCalls(chunks)) <==> !Clash(chunks)
  {
    hide IdOf, CallsIn, CalledIn, Clash, DistinctIds;
    if chunks == [] {
      NoClash(chunks);
    } else {
      var head := if chunks[0].candidates then CallsIn(chunks[0].parts) else [];
      var rest := StreamedCalls(chunks[1..]);
      if chunks[0].candidates { WholeIdsDistinct(chunks[0].parts); } else { NoIds(); }
      StreamedIdsDistinctIff(chunks[1..]);
      DistinctJoin(head, rest);
      ClashFirst(chunks);
      if c, d :| c in head && d in rest && c.id == d.id {
        HeadMeetsRest(chunks, c, d);
      }
      if name: string, p: nat, b: nat :| b > 0 && CalledIn(chunks, 0, name, p) && CalledIn(chunks, b, name, p) {
        RestMeetsHead(chunks, name, p, b);
      }
    }
  }

  lemma NoIds()
    ensures DistinctIds([])
  {
  }

  lemma NoClash(chunks: seq<Chunk>)
    requires chunks == []
    ensures !Clash(chunks) && DistinctIds(StreamedCalls(chunks))
  {
  }

  lemma DistinctJoin(a: seq<ToolCall>, b: seq<ToolCall>)
    requires DistinctIds(a)
    ensures DistinctIds(a + b) <==> DistinctIds(b) && forall c, d :: c in a && d in b ==> c.id != d.id
  {
    if DistinctIds(a + b) {
      forall i, j | 0 <= i < j < |b|
        ensures b[i].id != b[j].id
      {
        assert (a + b)[|a| + i] == b[i] && (a + b)[|a| + j] == b[j];
      }
      forall c, d | c in a && d in b
        ensures c.id != d.id
      {
        var i :| 0 <= i < |a| && a[i] == c;
        var j :| 0 <= j < |b| && b[j] == d;
        assert (a + b)[i] == c && (a + b)[|a| + j] == d;
      }
    }
  }

  lemma ClashFirst(chunks: seq<Chunk>)
    requires chunks != []
    ensures Clash(chunks) <==>
              || Clash(chunks[1..])
              || exists name: string, p: nat, b: nat ::
                   b > 0 && CalledIn(chunks, 0, name, p) && CalledIn(chunks, b, name, p)
  {
    if Clash(chunks[1..]) {
      var a, b, name: string, p: nat :|
        0 <= a < b < |chunks[1..]| && CalledIn(chunks[1..], a, name, p) && CalledIn(chunks[1..], b, name, p);
      assert CalledIn(chunks, a + 1, name, p) && CalledIn(chunks, b + 1, name, p);
    }
    if Clash(chunks) {
      var a, b, name: string, p: nat :|
        0 <= a < b < |chunks| && CalledIn(chunks, a, name, p) && CalledIn(chunks, b, name, p);
      if a > 0 {
        assert CalledIn(chunks[1..], a - 1, name, p) && CalledIn(chunks[1..], b - 1, name, p);
      }
    }
  }

  lemma HeadMeetsRest(chunks: seq<Chunk>, c: ToolCall, d: ToolCall)
    requires chunks != [] && chunks[0].candidates
    requires c in CallsIn(chunks[0].parts) && d in StreamedCalls(chunks[1..]) && c.id == d.id
    ensures exists name: string, p: nat, b: nat :: b > 0 && CalledIn(chunks, 0, name, p) && CalledIn(chunks, b, name, p)
  {
    hide IdOf, CallsIn;
    CallsHavePositions(chunks[0].parts, c);
    StreamedHavePositions(chunks[1..], d);
    var p: nat :| CalledAt(chunks[0].parts, c.name, p) && c.id == IdOf(c.name, p);
    var a: nat, q: nat :| CalledIn(chunks[1..], a, d.name, q) && d.id == IdOf(d.name, q);
    IdInjective(c.name, p, d.name, q);
    assert CalledIn(chunks, 0, c.name, p) && CalledIn(chunks, a + 1, c.name, p);
  }

  lemma RestMeetsHead(chunks: seq<Chunk>, name: string, p: nat, b: nat)
    requires chunks != [] && b > 0 && CalledIn(chunks, 0, name, p) && CalledIn(chunks, b, name, p)
    ensures chunks[0].candidates
    ensures exists c, d :: c in CallsIn(chunks[0].parts) && d in StreamedCalls(chunks[1..]) && c.id == d.id
  {
    hide IdOf, CallsIn;
    PositionsHaveCalls(chunks[0].parts, name, p);
    assert CalledIn(chunks[1..], b - 1, name, p);
    StreamedFromPosition(chunks[1..], b - 1, name, p);
    var c :| c in CallsIn(chunks[0].parts) && c.id == IdOf(name, p);
    var d :| d in StreamedCalls(chunks[1..]) && d.id == IdOf(name, p);
  }

  const TWICE: seq<Chunk> := [
    Chunk(true, [Part(None, Some(FunctionCall("lookup", Str("a"))))], "", None),
    Chunk(true, [Part(None, Some(FunctionCall("lookup", Str("b"))))], "FUNCTION_CALL", None)]

  /** Two different calls of one streamed answer can get the same id. */
  lemma IdsCollide()
    ensures StreamedCalls(TWICE) == [ToolCall("lookup#0", "lookup", Str("a")), ToolCall("lookup#0", "lookup", Str("b"))]
    ensures !DistinctIds(StreamedCalls(TWICE)) && DistinctIds(CallsIn(Joined(TWICE)))
  {
    var a, b := TWICE[0].parts, TWICE[1].parts;
    assert IdOf("lookup", 0) == "lookup#0";
    OneCallPart(a[0]);
    OneCallPart(b[0]);
    assert TWICE[1..] == [TWICE[1]] && TWICE[1..][1..] == [];
    assert StreamedCalls(TWICE[1..]) == CallsIn(b) + [];
    assert StreamedCalls(TWICE) == CallsIn(a) + CallsIn(b);
    var calls := StreamedCalls(TWICE);
    assert calls[0].id == calls[1].id;
    WholeIdsDistinct(Joined(TWICE));
  }

  lemma OneCallPart(part: Part)
    ensures CallsIn([part]) == CallAt(part, 0)
  {
    assert [part][..0] == [];
    assert [] + CallAt(part, 0) == CallAt(part, 0);
  }

  // ------------------------------------------------------------------ streamed against non-streamed

  /** The parts of all chunks, as one answer would hold them. */
  function Joined(chunks: seq<Chunk>): seq<Part> {
    if chunks == [] then [] else chunks[0].parts + Joined(chunks[1..])
  }

  /** The calls among the parts when they are counted from `k` on. */
  function CallsFrom(parts: seq<Part>, k: nat): seq<ToolCall> {
    if parts == [] then []
    else CallsFrom(parts[..|parts| - 1], k) + CallAt(parts[|parts| - 1], k + |parts| - 1)
  }

  lemma {:induction false} CallsFromZero(parts: seq<Part>)
    ensures CallsFrom(parts, 0) == CallsIn(parts)
  {
    hide CallAt;
    if parts != [] { CallsFromZero(parts[..|parts| - 1]); }
  }

  lemma {:induction false} CallsFromAppend(a: seq<Part>, b: seq<Part>, k: nat)
    ensures CallsFrom(a + b, k) == CallsFrom(a, k) + CallsFrom(b, k + |a|)
    decreases |b|
  {
    hide CallAt;
    if b == [] {
      assert a + b == a;
    } else {
      var n := |b| - 1;
      CallsFromAppend(a, b[..n], k);
      assert (a + b)[..|a| + n] == a + b[..n] && (a + b)[|a| + n] == b[n];
      AppendAssoc(CallsFrom(a, k), CallsFrom(b[..n], k + |a|), CallAt(b[n], k + |a| + n));
    }
  }

  lemma {:induction false} TextOfAppend(a: seq<Part>, b: seq<Part>)
    ensures TextOf(a + b) == TextOf(a) + TextOf(b)
    decreases |b|
  {
    if b == [] {
      assert a + b == a;
    } else {
      var n := |b| - 1;
      TextOfAppend(a, b[..n]);
      assert (a + b)[..|a| + n] == a + b[..n] && (a + b)[|a| + n] == b[n];
      AppendAssoc(TextOf(a), TextOf(b[..n]), if b[n].text.Some? then b[n].text.value else "");
    }
  }

  /** Calls without their ids. */
  function Named(calls: seq<ToolCall>): seq<FunctionCall> {
    if calls == [] then []
    else Named(calls[..|calls| - 1]) + [FunctionCall(calls[|calls| - 1].name, calls[|calls| - 1].arguments)]
  }

  lemma {:induction false} NamedAppend(a: seq<ToolCall>, b: seq<ToolCall>)
    ensures Named(a + b) == Named(a) + Named(b)
    decreases |b|
  {
    if b == [] {
      assert a + b == a;
    } else {
      var n := |b| - 1;
      NamedAppend(a, b[..n]);
      assert (a + b)[..|a| + n] == a + b[..n] && (a + b)[|a| + n] == b[n];
    }
  }

  lemma OneName(part: Part, i: nat, j: nat)
    ensures Named(CallAt(part, i)) == Named(CallAt(part, j)) && |CallAt(part, i)| == |CallAt(part, j)|
  {
    if part.call.Some? {
      assert CallAt(part, i)[..0] == [] && CallAt(part, j)[..0] == [];
    }
  }

  /** Counting from elsewhere changes only ids, and changes them as soon as there is a call. */
  lemma {:induction false} CountingFrom(parts: seq<Part>, k: nat)
    ensures Named(CallsFrom(parts, k)) == Named(CallsFrom(parts, 0))
    ensures |CallsFrom(parts, k)| == |CallsFrom(parts, 0)|
    ensures CallsFrom(parts, k) == CallsFrom(parts, 0) <==> k == 0 || CallsFrom(parts, 0) == []
  {
    if parts != [] {
      hide CallsFrom, CallAt, Named, IdOf;
      var n := |parts| - 1;
      var front, part := parts[..n], parts[n];
      CountingFrom(front, k);
      UnfoldCallsFrom(parts, k);
      UnfoldCallsFrom(parts, 0);
      OneName(part, k + n, n);
      NamedAppend(CallsFrom(front, k), CallAt(part, k + n));
      NamedAppend(CallsFrom(front, 0), CallAt(part, n));
      LastId(part, k + n, n);
      SplitEqual(CallsFrom(front, k), CallAt(part, k + n), CallsFrom(front, 0), CallAt(part, n));
    }
  }

  lemma UnfoldCallsFrom(parts: seq<Part>, k: nat)
    requires parts != []
    ensures CallsFrom(parts, k) == CallsFrom(parts[..|parts| - 1], k) + CallAt(parts[|parts| - 1], k + |parts| - 1)
  {
  }

  lemma LastId(part: Part, i: nat, j: nat)
    ensures CallAt(part, i) == CallAt(part, j) <==> i == j || CallAt(part, j) == []
  {
    hide IdOf;
    if part.call.Some? {
      IdInjective(part.call.value.name, i, part.call.value.name, j);
      assert CallAt(part, i)[0].id == IdOf(part.call.value.name, i);
      assert CallAt(part, j)[0].id == IdOf(part.call.value.name, j);
    }
  }

  lemma SplitEqual<T>(a: seq<T>, b: seq<T>, c: seq<T>, d: seq<T>)
    requires |a| == |c|
    ensures a + b == c + d <==> a == c && b == d
  {
    if a + b == c + d {
      assert (a + b)[..|a|] == a && (c + d)[..|c|] == c;
      assert (a + b)[|a|..] == b && (c + d)[|c|..] == d;
    }
  }

  function PartsBefore(chunks: seq<Chunk>, a: nat): nat
    requires a <= |chunks|
  {
    if a == 0 then 0 else PartsBefore(chunks, a - 1) + |chunks[a - 1].parts|
  }

  lemma {:induction false} PartsBeforeTail(chunks: seq<Chunk>, a: nat)
    requires a < |chunks|
    ensures PartsBefore(chunks, a + 1) == |chunks[0].parts| + PartsBefore(chunks[1..], a)
  {
    if a > 0 { PartsBeforeTail(chunks, a - 1); }
  }

  /** Calls come only in chunks before which no part was sent, counting `k` parts sent already. */
  predicate CallsFirst(chunks: seq<Chunk>, k: nat) {
    forall a :: 0 <= a < |chunks| && CallsIn(chunks[a].parts) != [] ==> k + PartsBefore(chunks, a) == 0
  }

  lemma CallsFirstTail(chunks: seq<Chunk>, k: nat)
    requires chunks != []
    ensures CallsFirst(chunks, k)
       <==> (CallsIn(chunks[0].parts) == [] || k == 0) && CallsFirst(chunks[1..], k + |chunks[0].parts|)
  {
    hide CallsIn;
    var tail, m := chunks[1..], |chunks[0].parts|;
    forall a | 0 <= a < |tail|
      ensures k + PartsBefore(chunks, a + 1) == k + m + PartsBefore(tail, a)
    {
      PartsBeforeTail(chunks, a);
    }
    if CallsFirst(chunks, k) {
      forall a | 0 <= a < |tail| && CallsIn(tail[a].parts) != []
        ensures k + m + PartsBefore(tail, a) == 0
      {
        assert chunks[a + 1] == tail[a];
      }
      assert CallsIn(chunks[0].parts) != [] ==> k + PartsBefore(chunks, 0) == 0;
    } else if (CallsIn(chunks[0].parts) == [] || k == 0) && CallsFirst(tail, k + m) {
      forall a | 0 <= a < |chunks| && CallsIn(chunks[a].parts) != []
        ensures k + PartsBefore(chunks, a) == 0
      {
        if a > 0 { assert tail[a - 1] == chunks[a]; }
      }
    }
  }

  predicate AllCandidates(chunks: seq<Chunk>) {
    forall i :: 0 <= i < |chunks| ==> chunks[i].candidates
  }

  lemma {:induction false} StreamedTextIs(chunks: seq<Chunk>)
    requires AllCandidates(chunks)
    ensures StreamedText(chunks) == TextOf(Joined(chunks))
  {
    if chunks != [] {
      hide TextOf;
      StreamedTextIs(chunks[1..]);
      TextOfAppend(chunks[0].parts, Joined(chunks[1..]));
    }
  }

  lemma UnfoldStreamed(chunks: seq<Chunk>)
    requires AllCandidates(chunks)
    ensures if chunks == [] then StreamedCalls(chunks) == [] && Joined(chunks) == []
            else
              && AllCandidates(chunks[1..])
              && StreamedCalls(chunks) == CallsIn(chunks[0].parts) + StreamedCalls(chunks[1..])
              && Joined(chunks) == chunks[0].parts + Joined(chunks[1..])
  {
  }

  lemma NothingCalled(k: nat)
    ensures CallsFrom([], k) == [] && CallsFirst([], k)
  {
  }

  lemma {:induction false} StreamedNamesAre(chunks: seq<Chunk>, k: nat)
    requires AllCandidates(chunks)
    ensures Named(StreamedCalls(chunks)) == Named(CallsFrom(Joined(chunks), k))
    ensures |StreamedCalls(chunks)| == |CallsFrom(Joined(chunks), k)|
    decreases |chunks|
  {
    hide *;
    UnfoldStreamed(chunks);
    NothingCalled(k);
    if chunks != [] {
      var parts, rest := chunks[0].parts, chunks[1..];
      StreamedNamesAre(rest, k + |parts|);
      CallsFromZero(parts);
      CountingFrom(parts, k);
      CallsFromAppend(parts, Joined(rest), k);
      NamedAppend(CallsIn(parts), StreamedCalls(rest));
      NamedAppend(CallsFrom(parts, k), CallsFrom(Joined(rest), k + |parts|));
    }
  }

  lemma {:induction false} StreamedIdsIff(chunks: seq<Chunk>, k: nat)
    requires AllCandidates(chunks)
    ensures StreamedCalls(chunks) == CallsFrom(Joined(chunks), k) <==> CallsFirst(chunks, k)
    decreases |chunks|
  {
    hide *;
    UnfoldStreamed(chunks);
    NothingCalled(k);
    if chunks != [] {
      var parts, rest := chunks[0].parts, chunks[1..];
      StreamedIdsIff(rest, k + |parts|);
      CallsFromZero(parts);
      CountingFrom(parts, k);
      CallsFromAppend(parts, Joined(rest), k);
      SplitEqual(CallsIn(parts), StreamedCalls(rest), CallsFrom(parts, k), CallsFrom(Joined(rest), k + |parts|));
      CallsFirstTail(chunks, k);
    }
  }

  /** The usage reported last. */
  function LastUsage(total: Option<TokenUsage>, chunks: seq<Chunk>): Option<TokenUsage>
    decreases |chunks|
  {
    if chunks == [] then total else LastUsage(Usage(total, chunks[0]), chunks[1..])
  }

  /** All chunks have candidates, and just the last one says why the answer stopped. */
  predicate OneEnd(chunks: seq<Chunk>) {
    && chunks != [] && AllCandidates(chunks)
    && forall i :: 0 <= i < |chunks| ==> (Ends(chunks[i]) <==> i == |chunks| - 1)
  }

  /** The events of all parts, chunk by chunk. */
  function Body(chunks: seq<Chunk>): seq<Event> {
    if chunks == [] then [] else PartEvents(chunks[0].parts) + Body(chunks[1..])
  }

  lemma {:induction false} BodyConveys(chunks: seq<Chunk>)
    requires AllCandidates(chunks)
    ensures Anthropic.Plain(Body(chunks)) && Concat(DeltaTexts(Body(chunks))) == StreamedText(chunks)
    ensures CallsOf(Body(chunks)) == StreamedCalls(chunks)
  {
    hide PartEvents, TextOf, CallsIn, DeltaTexts, CallsOf, Anthropic.Plain, Concat;
    if chunks == [] {
      NothingRead();
      Anthropic.NothingIsPlain();
    } else {
      var head, tail := PartEvents(chunks[0].parts), Body(chunks[1..]);
      PartsConvey(chunks[0].parts);
      BodyConveys(chunks[1..]);
      Anthropic.PlainAppend(head, tail);
      EventsAppend(head, tail);
      ConcatAppend(DeltaTexts(head), DeltaTexts(tail));
    }
  }

  lemma {:induction false} EventsOfOneEnd(model: string, total: Option<TokenUsage>, chunks: seq<Chunk>)
    requires OneEnd(chunks)
    ensures Events(model, total, chunks)
         == Body(chunks) + [Ok(Done(OrNothing(LastUsage(total, chunks)), model, FinishOf(chunks[|chunks| - 1])))]
    decreases |chunks|
  {
    hide PartEvents, FinishOf, OrNothing;
    var chunk, rest := chunks[0], chunks[1..];
    var head := PartEvents(chunk.parts);
    if |chunks| == 1 {
      assert rest == [] && head + [] == head;
    } else {
      assert OneEnd(rest) && rest[|rest| - 1] == chunks[|chunks| - 1];
      EventsOfOneEnd(model, Usage(total, chunk), rest);
      assert head + [] == head;
      AppendAssoc(head, Body(rest),
                  [Ok(Done(OrNothing(LastUsage(total, chunks)), model, FinishOf(chunks[|chunks| - 1])))]);
    }
  }

  /** The chunks stream this response: its parts, its finish reason, and its usage as reported last. */
  predicate Streams(chunks: seq<Chunk>, whole: Whole) {
    && OneEnd(chunks) && Joined(chunks) == whole.parts
    && whole.stop == Some(chunks[|chunks| - 1].stop) && whole.usage == LastUsage(None, chunks)
  }

  /**
   * A streamed response conveys the text, finish, usage and model of the whole one, and the same functions
   * with the same arguments in order; the ids are the same, so that it conveys just what the whole one
   * means, exactly when calls come only in chunks before which no part was sent.
   */
  lemma {:induction false} StreamedAgainstWhole(model: string, chunks: seq<Chunk>, whole: Whole)
    requires Streams(chunks, whole)
    ensures var c := WholeMeaning(model, whole);
            && Anthropic.Conveys(Events(model, None, chunks), c.(toolCalls := StreamedCalls(chunks)))
            && Named(StreamedCalls(chunks)) == Named(c.toolCalls)
            && (Anthropic.Conveys(Events(model, None, chunks), c) <==> CallsFirst(chunks, 0))
  {
    hide Events, CallsFirst, Anthropic.Conveys, DeltaTexts, CallsOf, Anthropic.Plain, Concat, FinishFor;
    var c := WholeMeaning(model, whole);
    EventsOfOneEnd(model, None, chunks);
    BodyConveys(chunks);
    Anthropic.ConveysDone(Body(chunks), c);
    Anthropic.ConveysDone(Body(chunks), c.(toolCalls := StreamedCalls(chunks)));
    StreamedTextIs(chunks);
    StreamedNamesAre(chunks, 0);
    StreamedIdsIff(chunks, 0);
    CallsFromZero(Joined(chunks));
  }

  // ------------------------------------------------------------------ from bytes

  /** What the adapter makes of the items of a frame stream. */
  function ItemEvents(codec: Anthropic.Codec, model: string, total: Option<TokenUsage>,
                      items: seq<Sse.Item>): seq<Event>
    decreases |items|
  {
    if items == [] then []
    else if items[0].Err? then [Err(items[0].error)] + ItemEvents(codec, model, total, items[1..])
    else
      match codec.parse(items[0].value.data)
      case None => [Anthropic.MALFORMED] + ItemEvents(codec, model, total, items[1..])
      case Some(json) =>
        var chunk := ChunkOf(json);
        ChunkEvents(model, total, chunk) + ItemEvents(codec, model, TotalAfter(total, chunk), items[1..])
  }

  /** The items carry exactly these chunks, frame by frame, whatever else the frames hold. */
  predicate Carries(codec: Anthropic.Codec, items: seq<Sse.Item>, chunks: seq<Chunk>) {
    && |items| == |chunks|
    && forall i :: 0 <= i < |items| ==>
         items[i].Ok? && codec.parse(items[i].value.data).Some?
         && ChunkOf(codec.parse(items[i].value.data).value) == chunks[i]
  }

  lemma {:induction false} EventsOfItems(codec: Anthropic.Codec, model: string, total: Option<TokenUsage>,
                                         items: seq<Sse.Item>, chunks: seq<Chunk>)
    requires Carries(codec, items, chunks)
    ensures ItemEvents(codec, model, total, items) == Events(model, total, chunks)
    decreases |items|
  {
    hide ChunkOf, ChunkEvents, TotalAfter;
    if items != [] { EventsOfItems(codec, model, TotalAfter(total, chunks[0]), items[1..], chunks[1..]); }
  }

  /** The same exact condition from bytes: any frames that carry the chunks, any heartbeats, any chunking. */
  lemma {:induction false} BytesConveyWholeIff(codec: Anthropic.Codec, model: string, chunks: seq<Chunk>, whole: Whole,
                                               blocks: seq<SseRoundTrip.Block>, t: SseRoundTrip.Terminator,
                                               body: seq<Sse.BodyItem>)
    requires Streams(chunks, whole) && Carries(codec, SseRoundTrip.Events(blocks), chunks)
    requires SseRoundTrip.AllPrintable(blocks)
    requires Sse.Bytes(body) == SseRoundTrip.Print(blocks, t) && forall i :: 0 <= i < |body| ==> body[i].Chunk?
    ensures var events := ItemEvents(codec, model, None, Sse.Deliver(Sse.Extract(body, "")));
            Anthropic.Conveys(events, WholeMeaning(model, whole)) <==> CallsFirst(chunks, 0)
  {
    hide Streams, Carries, Anthropic.Conveys, WholeMeaning, CallsFirst, ItemEvents, Events;
    hide SseRoundTrip.AllPrintable, Sse.Deliver, Sse.Extract;
    SseRoundTrip.RoundTrip(blocks, t, body);
    Anthropic.NoReadFailures(body, "");
    Anthropic.NothingToFilter(Sse.Extract(body, ""));
    EventsOfItems(codec, model, None, SseRoundTrip.Events(blocks), chunks);
    StreamedAgainstWhole(model, chunks, whole);
  }

  const CUT_OFF: seq<Chunk> := [
    Chunk(false, [], "", Some(TokenUsage(Some(1), None))), Chunk(true, [Part(Some("Hello"), None)], "STOP", None)]

  /** A chunk that only reports usage ends the answer before its text. */
  lemma AnswerCutOff(model: string)
    ensures Reads(Events(model, None, CUT_OFF), "", [], Stop) && TextOf(Joined(CUT_OFF)) == "Hello"
  {
    hide Reads, Events;
    ReadUpToFirstEnd(model, None, CUT_OFF, 0);
    var first: seq<Chunk> := [CUT_OFF[0]];
    assert CUT_OFF[..1] == first && first[1..] == [];
    var rest: seq<Chunk> := [CUT_OFF[1]];
    assert CUT_OFF[1..] == rest && rest[1..] == [];
    var parts := CUT_OFF[1].parts;
    assert Joined(rest) == parts + [] && Joined(CUT_OFF) == [] + parts;
    assert parts[..0] == [] && TextOf(parts) == "" + "Hello";
  }

  // ------------------------------------------------------------------ words

  /** Each finish reason of the vendor has its own; any other word has none. */
  lemma StopWords(stop: string)
    ensures FinishFor("STOP") == Stop && FinishFor("MAX_TOKENS") == Length && FinishFor("FUNCTION_CALL") == ToolUse
    ensures stop !in {"STOP", "MAX_TOKENS", "FUNCTION_CALL"} ==> FinishFor(stop) == Other
  {
  }
}
