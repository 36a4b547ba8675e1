/**
 * The Anthropic adapter: what a complete message means, and the fold that reassembles the same
 * meaning from the event stream. JSON text is abstract: a codec parses and prints it.
 */
module Anthropic {
  import opened Text
  import opened Contract
  import opened Sse
  import SseRoundTrip

  /** serde_json: any parser and printer, assumed inverse only where a lemma says so. */
  datatype Codec = Codec(parse: string -> Option<Json>, show: Json -> string)

  type Event = Result<StreamEvent, ProviderError>

  const MALFORMED: Event := Err(ProviderError(InvalidRequest, false))

  // ------------------------------------------------------------------ the non-streaming answer

  datatype Block = TextBlock(text: string) | ToolUse(id: string, name: string, input: Json)

  datatype Message = Message(
    content: seq<Block>, model: string, usage: TokenUsage, stopReason: Option<string>)

  function FinishOf(stop: string): FinishReason {
    if stop == "end_turn" then Stop
    else if stop == "max_tokens" then Length
    else if stop == "tool_use" then FinishReason.ToolUse
    else Other
  }

  function BlockText(block: Block): string {
    if block.TextBlock? then block.text else ""
  }

  function BlockCalls(block: Block): seq<ToolCall> {
    if block.ToolUse? then [ToolCall(block.id, block.name, block.input)] else []
  }

  function TextOf(content: seq<Block>): string {
    if content == [] then "" else TextOf(content[..|content| - 1]) + BlockText(content[|content| - 1])
  }

  function CallsIn(content: seq<Block>): seq<ToolCall> {
    if content == [] then [] else CallsIn(content[..|content| - 1]) + BlockCalls(content[|content| - 1])
  }

  /** What a whole message means. */
  function Meaning(message: Message): ChatCompletion {
    ChatCompletion(
      TextOf(message.content), message.model, message.usage,
      if message.stopReason.Some? then FinishOf(message.stopReason.value) else Other,
      CallsIn(message.content))
  }

  /** The response extraction of the non-streaming call. */
  method ReadMessage(message: Message) returns (completion: ChatCompletion)
    ensures completion == Meaning(message)
  {
    var finish := match message.stopReason
      case Some("end_turn") => Stop
      case Some("max_tokens") => Length
      case Some("tool_use") => FinishReason.ToolUse
      case _ => Other;
    var content := "";
    var toolCalls: seq<ToolCall> := [];
    for i := 0 to |message.content|
      invariant content == TextOf(message.content[..i])
      invariant toolCalls == CallsIn(message.content[..i])
    {
      assert message.content[..i + 1][..i] == message.content[..i];
      match message.content[i] {
        case TextBlock(text) =>
          content := content + text;
        case ToolUse(id, name, input) =>
          toolCalls := toolCalls + [ToolCall(id, name, input)];
      }
    }
    assert message.content[..|message.content|] == message.content;
    completion := ChatCompletion(content, message.model, message.usage, finish, toolCalls);
  }

  // ------------------------------------------------------------------ frames as signals

  /** What the adapter reads out of one frame. */
  datatype Signal =
    | MessageStart(model: Option<string>, input: Option<int>)
    | ToolStart(index: nat, id: string, name: string)
    | TextDelta(text: string)
    | JsonDelta(index: nat, partial: string)
    | BlockStop(index: nat)
    | MessageDelta(output: Option<int>, stop: Option<string>)
    | MessageStop
    | Malformed
    | Ignored

  const JSON_EVENTS: set<string> :=
    {"message_start", "content_block_start", "content_block_delta", "content_block_stop", "message_delta"}

  function OrEmpty(s: Option<string>): string {
    if s.Some? then s.value else ""
  }

  function DecodeJson(event: string, json: Json): Signal {
    if event == "message_start" then
      if json.Has("message") then
        var msg := json.At("message");
        MessageStart(msg.At("model").AsStr(), msg.At("usage").At("input_tokens").AsU32())
      else Ignored
    else if event == "content_block_start" then
      var block := json.At("content_block");
      if block.At("type") == Str("tool_use") then
        ToolStart(json.At("index").AsIndex(), OrEmpty(block.At("id").AsStr()), OrEmpty(block.At("name").AsStr()))
      else Ignored
    else if event == "content_block_delta" then
      var delta := json.At("delta");
      if delta.At("type") == Str("input_json_delta") then
        if delta.At("partial_json").Str? then JsonDelta(json.At("index").AsIndex(), delta.At("partial_json").s)
        else Ignored
      else if delta.At("type") == Str("text_delta") then
        if delta.At("text").Str? && delta.At("text").s != "" then TextDelta(delta.At("text").s) else Ignored
      else Ignored
    else if event == "content_block_stop" then
      BlockStop(json.At("index").AsIndex())
    else
      MessageDelta(json.At("usage").At("output_tokens").AsU32(), json.At("delta").At("stop_reason").AsStr())
  }

  function Decode(codec: Codec, frame: Frame): Signal {
    var event := OrEmpty(frame.event);
    if event == "message_stop" then MessageStop
    else if event !in JSON_EVENTS then Ignored
    else
      match codec.parse(frame.data)
      case None => Malformed
      case Some(json) => DecodeJson(event, json)
  }

  // ------------------------------------------------------------------ the fold

  datatype Accum = Accum(id: string, name: string, arguments: string)

  datatype State = State(
    input: Option<int>, output: Option<int>, model: Option<string>, finish: FinishReason, calls: map<nat, Accum>)

  const INITIAL := State(None, None, None, Other, map[])

  /** The call a finished accumulator stands for; unparsable arguments become the empty object. */
  function CallOf(codec: Codec, acc: Accum): ToolCall {
    match codec.parse(acc.arguments)
    case Some(arguments) => ToolCall(acc.id, acc.name, arguments)
    case None => ToolCall(acc.id, acc.name, Obj(map[]))
  }

  function After(st: State, signal: Signal): State {
    match signal
    case MessageStart(model, input) => st.(model := model, input := input)
    case ToolStart(index, id, name) => st.(calls := st.calls[index := Accum(id, name, "")])
    case JsonDelta(index, partial) =>
      if index in st.calls then
        var acc := st.calls[index];
        st.(calls := st.calls[index := acc.(arguments := acc.arguments + partial)])
      else st
    case BlockStop(index) => st.(calls := st.calls - {index})
    case MessageDelta(output, stop) =>
      st.(output := output, finish := if stop.Some? then FinishOf(stop.value) else st.finish)
    case MessageStop => st.(input := None, output := None, model := None)
    case _ => st
  }

  function Emitted(codec: Codec, st: State, signal: Signal): seq<Event> {
    match signal
    case TextDelta(text) => [Ok(Delta(text))]
    case BlockStop(index) => if index in st.calls then [Ok(Tool(CallOf(codec, st.calls[index])))] else []
    case MessageStop => [Ok(Done(TokenUsage(st.input, st.output), OrEmpty(st.model), st.finish))]
    case Malformed => [MALFORMED]
    case _ => []
  }

  /** The events of a whole sequence of signals. */
  function Fold(codec: Codec, st: State, signals: seq<Signal>): seq<Event>
    decreases |signals|
  {
    if signals == [] then []
    else Emitted(codec, st, signals[0]) + Fold(codec, After(st, signals[0]), signals[1..])
  }

  function AfterAll(st: State, signals: seq<Signal>): State
    decreases |signals|
  {
    if signals == [] then st else AfterAll(After(st, signals[0]), signals[1..])
  }

  /** The adapter's shared state: five cells updated frame by frame. */
  class StreamFold {
    const codec: Codec
    var inputTokens: Option<int>
    var outputTokens: Option<int>
    var model: Option<string>
    var finish: FinishReason
    var calls: map<nat, Accum>

    ghost function Now(): State
      reads this
    {
      State(inputTokens, outputTokens, model, finish, calls)
    }

    constructor (codec: Codec)
      ensures this.codec == codec && Now() == INITIAL
    {
      this.codec := codec;
      inputTokens, outputTokens, model, finish, calls := None, None, None, Other, map[];
    }

    /** One frame or upstream error in, the events for it out. */
    method OnFrame(item: Item) returns (events: seq<Event>)
      modifies this
      ensures item.Err? ==> events == [Err(item.error)] && Now() == old(Now())
      ensures item.Ok? ==>
        && events == Emitted(codec, old(Now()), Decode(codec, item.value))
        && Now() == After(old(Now()), Decode(codec, item.value))
    {
      if item.Err? {
        return [Err(item.error)];
      }
      var event := OrEmpty(item.value.event);
      var json := codec.parse(item.value.data);
      events := [];
      if event == "message_stop" {
        events := [Ok(Done(TokenUsage(inputTokens, outputTokens), OrEmpty(model), finish))];
        inputTokens, outputTokens, model := None, None, None;
      } else if event !in JSON_EVENTS {
        return;
      } else if json.None? {
        events := [MALFORMED];
      } else {
        match DecodeJson(event, json.value) {
          case MessageStart(m, input) =>
            inputTokens, model := input, m;
          case ToolStart(index, id, name) =>
            calls := calls[index := Accum(id, name, "")];
          case JsonDelta(index, partial) =>
            if index in calls {
              var acc := calls[index];
              calls := calls[index := acc.(arguments := acc.arguments + partial)];
            }
          case TextDelta(text) =>
            events := [Ok(Delta(text))];
          case BlockStop(index) =>
            if index in calls {
              events := [Ok(Tool(CallOf(codec, calls[index])))];
            }
            calls := calls - {index};
          case MessageDelta(output, stop) =>
            outputTokens := output;
            if stop.Some? {
              finish := FinishOf(stop.value);
            }
          case _ =>
        }
      }
    }
  }

  // ------------------------------------------------------------------ a message as a stream of signals

  /** The text or argument fragments of each block may be any split of it. */
  predicate Splits(codec: Codec, block: Block, fragments: seq<string>) {
    match block
    case TextBlock(text) => Concat(fragments) == text
    case ToolUse(_, _, input) =>
      || codec.parse(Concat(fragments)) == Some(input)
      || (codec.parse(Concat(fragments)).None? && input == Obj(map[]))
  }

  function Fragments(block: Block, index: nat, fragments: seq<string>): seq<Signal> {
    if fragments == [] then []
    else
      (if block.ToolUse? then [JsonDelta(index, fragments[0])]
       else if fragments[0] == "" then [Ignored]
       else [TextDelta(fragments[0])])
      + Fragments(block, index, fragments[1..])
  }

  function BlockSignals(block: Block, index: nat, fragments: seq<string>): seq<Signal> {
    [if block.ToolUse? then ToolStart(index, block.id, block.name) else Ignored]
    + Fragments(block, index, fragments) + [BlockStop(index)]
  }

  /** The blocks from position `index` on, one after the other. */
  function ContentSignals(content: seq<Block>, splits: seq<seq<string>>, index: nat): seq<Signal>
    requires |splits| == |content| && index <= |content|
    decreases |content| - index
  {
    if index == |content| then []
    else BlockSignals(content[index], index, splits[index]) + ContentSignals(content, splits, index + 1)
  }

  function MessageSignals(message: Message, splits: seq<seq<string>>): seq<Signal>
    requires |splits| == |message.content|
  {
    [MessageStart(Some(message.model), message.usage.input)]
    + ContentSignals(message.content, splits, 0)
    + [MessageDelta(message.usage.output, message.stopReason), MessageStop]
  }

  function Relevant(signals: seq<Signal>): seq<Signal> {
    if signals == [] then []
    else (if signals[0].Ignored? then [] else [signals[0]]) + Relevant(signals[1..])
  }

  // ------------------------------------------------------------------ streamed equals non-streamed

  lemma {:induction false} FoldAppend(codec: Codec, st: State, a: seq<Signal>, b: seq<Signal>)
    ensures Fold(codec, st, a + b) == Fold(codec, st, a) + Fold(codec, AfterAll(st, a), b)
    ensures AfterAll(st, a + b) == AfterAll(AfterAll(st, a), b)
    decreases |a|
  {
    if a == [] {
      assert a + b == b;
    } else {
      hide Emitted, After;
      var next := After(st, a[0]);
      assert (a + b)[1..] == a[1..] + b;
      FoldAppend(codec, next, a[1..], b);
      AppendAssoc(Emitted(codec, st, a[0]), Fold(codec, next, a[1..]), Fold(codec, AfterAll(next, a[1..]), b));
    }
  }

  lemma FoldOne(codec: Codec, st: State, signal: Signal)
    ensures Fold(codec, st, [signal]) == Emitted(codec, st, signal) && AfterAll(st, [signal]) == After(st, signal)
  {
    assert Fold(codec, After(st, signal), [signal][1..]) == [];
    assert Emitted(codec, st, signal) + [] == Emitted(codec, st, signal);
  }

  lemma FoldCons(codec: Codec, st: State, signal: Signal, rest: seq<Signal>)
    ensures Fold(codec, st, [signal] + rest) == Emitted(codec, st, signal) + Fold(codec, After(st, signal), rest)
    ensures AfterAll(st, [signal] + rest) == AfterAll(After(st, signal), rest)
  {
    hide Emitted, After;
    assert ([signal] + rest)[1..] == rest;
  }

  /** Frames the adapter does not know, such as pings, change nothing wherever they are. */
  lemma {:induction false} FoldRelevant(codec: Codec, st: State, signals: seq<Signal>)
    ensures Fold(codec, st, Relevant(signals)) == Fold(codec, st, signals)
    decreases |signals|
  {
    if signals != [] {
      var next := After(st, signals[0]);
      FoldRelevant(codec, next, signals[1..]);
      if signals[0].Ignored? {
        assert Relevant(signals) == Relevant(signals[1..]);
        assert [] + Fold(codec, st, signals[1..]) == Fold(codec, st, signals[1..]);
      } else {
        FoldCons(codec, st, signals[0], Relevant(signals[1..]));
      }
    }
  }

  /** Only successful deltas and calls, nothing that ends the stream. */
  predicate Plain(events: seq<Event>) {
    forall i :: 0 <= i < |events| ==> events[i].Ok? && !events[i].value.Done?
  }

  lemma OneTextFragment(codec: Codec, st: State, text: string)
    ensures var signal := if text == "" then Ignored else TextDelta(text);
            && After(st, signal) == st && Plain(Emitted(codec, st, signal))
            && Concat(DeltaTexts(Emitted(codec, st, signal))) == text && CallsOf(Emitted(codec, st, signal)) == []
  {
    NoEvents();
    if text != "" {
      var events: seq<Event> := [Ok(Delta(text))];
      EventsFirst(events);
      assert events[1..] == [];
      assert Concat([text]) == text + Concat([text][1..]);
    }
  }

  lemma {:induction false} TextFragments(codec: Codec, st: State, block: Block, index: nat, fragments: seq<string>)
    requires block.TextBlock?
    ensures var signals := Fragments(block, index, fragments);
            && AfterAll(st, signals) == st && Plain(Fold(codec, st, signals))
            && Concat(DeltaTexts(Fold(codec, st, signals))) == Concat(fragments)
            && CallsOf(Fold(codec, st, signals)) == []
  {
    hide DeltaTexts, CallsOf, Emitted, After;
    if fragments == [] {
      NoEvents();
    } else {
      var rest := Fragments(block, index, fragments[1..]);
      TextFragments(codec, st, block, index, fragments[1..]);
      var signal := if fragments[0] == "" then Ignored else TextDelta(fragments[0]);
      OneTextFragment(codec, st, fragments[0]);
      FoldCons(codec, st, signal, rest);
      var head, tail := Emitted(codec, st, signal), Fold(codec, st, rest);
      EventsAppend(head, tail);
      ConcatAppend(DeltaTexts(head), DeltaTexts(tail));
      PlainAppend(head, tail);
    }
  }

  lemma {:induction false} ToolFragments(codec: Codec, st: State, block: Block, index: nat, fragments: seq<string>)
    requires block.ToolUse? && index in st.calls
    ensures var signals := Fragments(block, index, fragments);
            var acc := st.calls[index];
            && AfterAll(st, signals)
               == st.(calls := st.calls[index := acc.(arguments := acc.arguments + Concat(fragments))])
            && Fold(codec, st, signals) == []
    decreases |fragments|
  {
    var acc := st.calls[index];
    if fragments == [] {
      assert acc.arguments + "" == acc.arguments;
      assert st.calls[index := acc] == st.calls;
    } else {
      var rest := Fragments(block, index, fragments[1..]);
      var grown := acc.(arguments := acc.arguments + fragments[0]);
      var next := st.(calls := st.calls[index := grown]);
      FoldCons(codec, st, JsonDelta(index, fragments[0]), rest);
      ToolFragments(codec, next, block, index, fragments[1..]);
      AppendAssoc(acc.arguments, fragments[0], Concat(fragments[1..]));
      var full := acc.(arguments := acc.arguments + Concat(fragments));
      assert st.calls[index := grown][index := full] == st.calls[index := full];
    }
  }

  /** What a block adds to the events: its text in deltas or its call, and nothing to the state. */
  ghost predicate AddsBlock(codec: Codec, st: State, block: Block, signals: seq<Signal>) {
    && AfterAll(st, signals) == st && Plain(Fold(codec, st, signals))
    && Concat(DeltaTexts(Fold(codec, st, signals))) == BlockText(block)
    && CallsOf(Fold(codec, st, signals)) == BlockCalls(block)
  }

  lemma FoldTextBlock(codec: Codec, st: State, block: Block, index: nat, fragments: seq<string>)
    requires block.TextBlock? && Splits(codec, block, fragments) && index !in st.calls
    ensures AddsBlock(codec, st, block, BlockSignals(block, index, fragments))
  {
    hide Fragments;
    var inner := Fragments(block, index, fragments);
    FoldCons(codec, st, Ignored, inner);
    TextFragments(codec, st, block, index, fragments);
    FoldAppend(codec, st, [Ignored] + inner, [BlockStop(index)]);
    FoldOne(codec, st, BlockStop(index));
    assert st.calls - {index} == st.calls;
    var events := Fold(codec, st, inner);
    assert [] + events + [] == events;
  }

  lemma FoldToolBlock(codec: Codec, st: State, block: Block, index: nat, fragments: seq<string>)
    requires block.ToolUse? && Splits(codec, block, fragments) && index !in st.calls
    ensures AfterAll(st, BlockSignals(block, index, fragments)) == st
    ensures Fold(codec, st, BlockSignals(block, index, fragments))
         == [Ok(Tool(ToolCall(block.id, block.name, block.input)))]
  {
    hide Fragments;
    var inner := Fragments(block, index, fragments);
    var begun := st.(calls := st.calls[index := Accum(block.id, block.name, "")]);
    var closing := st.(calls := st.calls[index := Accum(block.id, block.name, Concat(fragments))]);
    FoldCons(codec, st, ToolStart(index, block.id, block.name), inner);
    ToolFragments(codec, begun, block, index, fragments);
    assert "" + Concat(fragments) == Concat(fragments);
    assert begun.calls[index := Accum(block.id, block.name, Concat(fragments))] == closing.calls;
    FoldAppend(codec, st, [ToolStart(index, block.id, block.name)] + inner, [BlockStop(index)]);
    FoldOne(codec, closing, BlockStop(index));
    assert closing.calls - {index} == st.calls;
  }

  lemma FoldBlock(codec: Codec, st: State, block: Block, index: nat, fragments: seq<string>)
    requires Splits(codec, block, fragments) && index !in st.calls
    ensures AddsBlock(codec, st, block, BlockSignals(block, index, fragments))
  {
    hide BlockSignals, Splits;
    if block.TextBlock? {
      FoldTextBlock(codec, st, block, index, fragments);
    } else {
      FoldToolBlock(codec, st, block, index, fragments);
      var events: seq<Event> := [Ok(Tool(ToolCall(block.id, block.name, block.input)))];
      assert events[1..] == [];
      assert DeltaTexts(events) == [] + DeltaTexts(events[1..]) == [];
      assert CallsOf(events) == [ToolCall(block.id, block.name, block.input)] + CallsOf(events[1..]) ==
          BlockCalls(block);
      assert Plain(events);
    }
  }

  lemma PlainAppend(a: seq<Event>, b: seq<Event>)
    requires Plain(a) && Plain(b)
    ensures Plain(a + b)
  {
  }

  lemma {:induction false} TextAndCallsFrom(content: seq<Block>, index: nat)
    requires index < |content|
    ensures TextOf(content[..index + 1]) == TextOf(content[..index]) + BlockText(content[index])
    ensures CallsIn(content[..index + 1]) == CallsIn(content[..index]) + BlockCalls(content[index])
  {
    assert content[..index + 1][..index] == content[..index];
  }

  /** The blocks before `index` are accounted for by `content[..index]`; the fold adds the rest. */
  lemma {:induction false} FoldContent(codec: Codec, st: State, content: seq<Block>, splits: seq<seq<string>>,
                                       index: nat)
    requires |splits| == |content| && index <= |content| && st.calls == map[]
    requires forall i :: 0 <= i < |content| ==> Splits(codec, content[i], splits[i])
    ensures var signals := ContentSignals(content, splits, index);
            && AfterAll(st, signals) == st && Plain(Fold(codec, st, signals))
            && TextOf(content) == TextOf(content[..index]) + Concat(DeltaTexts(Fold(codec, st, signals)))
            && CallsIn(content) == CallsIn(content[..index]) + CallsOf(Fold(codec, st, signals))
    decreases |content| - index
  {
    if index == |content| {
      assert content[..index] == content;
      assert TextOf(content) + "" == TextOf(content) && CallsIn(content) + [] == CallsIn(content);
    } else {
      hide BlockSignals, Splits, TextOf, CallsIn, BlockText, BlockCalls;
      var head := BlockSignals(content[index], index, splits[index]);
      var tail := ContentSignals(content, splits, index + 1);
      FoldBlock(codec, st, content[index], index, splits[index]);
      FoldContent(codec, st, content, splits, index + 1);
      FoldAppend(codec, st, head, tail);
      var a, b := Fold(codec, st, head), Fold(codec, st, tail);
      PlainAppend(a, b);
      EventsAppend(a, b);
      ConcatAppend(DeltaTexts(a), DeltaTexts(b));
      TextAndCallsFrom(content, index);
      AppendAssoc(TextOf(content[..index]), BlockText(content[index]), Concat(DeltaTexts(b)));
      AppendAssoc(CallsIn(content[..index]), BlockCalls(content[index]), CallsOf(b));
    }
  }

  /** The events carry exactly this completion: its text in deltas, its calls in order, then `Done`. */
  predicate Conveys(events: seq<Event>, c: ChatCompletion) {
    && events != []
    && events[|events| - 1] == Ok(Done(c.usage, c.model, c.finish))
    && Plain(events[..|events| - 1])
    && Concat(DeltaTexts(events)) == c.content
    && CallsOf(events) == c.toolCalls
  }

  lemma ConveysDone(events: seq<Event>, c: ChatCompletion)
    ensures Conveys(events + [Ok(Done(c.usage, c.model, c.finish))], c)
       <==> Plain(events) && Concat(DeltaTexts(events)) == c.content && CallsOf(events) == c.toolCalls
  {
    var last: seq<Event> := [Ok(Done(c.usage, c.model, c.finish))];
    EventsAppend(events, last);
    assert last[1..] == [];
    assert DeltaTexts(last) == [] && CallsOf(last) == [];
    assert DeltaTexts(events) + [] == DeltaTexts(events) && CallsOf(events) + [] == CallsOf(events);
    assert (events + last)[..|events|] == events;
  }

  lemma NothingIsPlain()
    ensures Plain([])
  {
  }

  /** Streaming a message, in any split and with any pings, conveys what the whole message means. */
  lemma StreamedEqualsWhole(codec: Codec, message: Message, splits: seq<seq<string>>, signals: seq<Signal>)
    requires |splits| == |message.content|
    requires forall i :: 0 <= i < |message.content| ==> Splits(codec, message.content[i], splits[i])
    requires Relevant(signals) == Relevant(MessageSignals(message, splits))
    ensures Conveys(Fold(codec, INITIAL, signals), Meaning(message))
  {
    FoldRelevant(codec, INITIAL, signals);
    FoldRelevant(codec, INITIAL, MessageSignals(message, splits));
    FoldMessage(codec, message, splits);
  }

  lemma FoldMessage(codec: Codec, message: Message, splits: seq<seq<string>>)
    requires |splits| == |message.content|
    requires forall i :: 0 <= i < |message.content| ==> Splits(codec, message.content[i], splits[i])
    ensures Conveys(Fold(codec, INITIAL, MessageSignals(message, splits)), Meaning(message))
  {
    hide Conveys, Splits, Plain;
    var start := MessageStart(Some(message.model), message.usage.input);
    var st := INITIAL.(model := Some(message.model), input := message.usage.input);
    var content := ContentSignals(message.content, splits, 0);
    var end := [MessageDelta(message.usage.output, message.stopReason)] + [MessageStop];
    FoldContent(codec, st, message.content, splits, 0);
    FoldCons(codec, INITIAL, start, content);
    FoldAppend(codec, INITIAL, [start] + content, end);
    FoldEnd(codec, st, message);
    var events := Fold(codec, st, content);
    var c := Meaning(message);
    assert MessageSignals(message, splits) == [start] + content + end;
    assert message.content[..0] == [];
    assert "" + Concat(DeltaTexts(events)) == Concat(DeltaTexts(events)) && [] + CallsOf(events) == CallsOf(events);
    assert [] + events == events;
    ConveysDone(events, c);
  }

  lemma FoldEnd(codec: Codec, st: State, message: Message)
    requires st == INITIAL.(model := Some(message.model), input := message.usage.input)
    ensures var c := Meaning(message);
            Fold(codec, st, [MessageDelta(message.usage.output, message.stopReason)] + [MessageStop])
            == [Ok(Done(c.usage, c.model, c.finish))]
  {
    var delta := MessageDelta(message.usage.output, message.stopReason);
    FoldCons(codec, st, delta, [MessageStop]);
    FoldOne(codec, After(st, delta), MessageStop);
  }

  // ------------------------------------------------------------------ from bytes

  function OptStr(s: Option<string>): Json {
    if s.Some? then Str(s.value) else Null
  }

  function OptNum(n: Option<int>): Json {
    if n.Some? then Num(n.value) else Null
  }

  function EventFor(signal: Signal): string {
    match signal
    case MessageStart(_, _) => "message_start"
    case ToolStart(_, _, _) => "content_block_start"
    case TextDelta(_) => "content_block_delta"
    case JsonDelta(_, _) => "content_block_delta"
    case BlockStop(_) => "content_block_stop"
    case MessageDelta(_, _) => "message_delta"
    case MessageStop => "message_stop"
    case _ => "ping"
  }

  function JsonFor(signal: Signal): Json {
    match signal
    case MessageStart(model, input) =>
      Obj(map["message" := Obj(map["model" := OptStr(model), "usage" := Obj(map["input_tokens" := OptNum(input)])])])
    case ToolStart(index, id, name) =>
      Obj(map["index" := Num(index),
              "content_block" := Obj(map["type" := Str("tool_use"), "id" := Str(id), "name" := Str(name)])])
    case TextDelta(text) =>
      Obj(map["delta" := Obj(map["type" := Str("text_delta"), "text" := Str(text)])])
    case JsonDelta(index, partial) =>
      Obj(map["index" := Num(index),
              "delta" := Obj(map["type" := Str("input_json_delta"), "partial_json" := Str(partial)])])
    case BlockStop(index) => Obj(map["index" := Num(index)])
    case MessageDelta(output, stop) =>
      Obj(map["usage" := Obj(map["output_tokens" := OptNum(output)]),
              "delta" := Obj(map["stop_reason" := OptStr(stop)])])
    case _ => Obj(map[])
  }

  predicate InU32(n: Option<int>) {
    n.Some? ==> 0 <= n.value < 0x1_0000_0000
  }

  /** A signal the vendor can put on the wire: numbers in range, and no empty text. */
  predicate Sendable(signal: Signal) {
    match signal
    case MessageStart(_, input) => InU32(input)
    case ToolStart(index, _, _) => index < 0x8000_0000_0000_0000
    case TextDelta(text) => text != ""
    case JsonDelta(index, _) => index < 0x8000_0000_0000_0000
    case BlockStop(index) => index < 0x8000_0000_0000_0000
    case MessageDelta(output, _) => InU32(output)
    case Malformed => false
    case _ => true
  }

  lemma FieldHeld(json: Json, least: Json, key: string)
    requires least.Obj? && key in least.fields && Holds(json, least)
    ensures json.Has(key) || least.At(key).Null?
    ensures Holds(json.At(key), least.At(key))
  {
  }

  lemma LeafHeld(json: Json, least: Json)
    requires Holds(json, least) && !least.Obj? && !least.Arr?
    ensures json == least
  {
  }

  /** A leaf two levels down. */
  lemma DeepHeld(json: Json, least: Json, outer: string, inner: string)
    requires Holds(json, least) && least.Obj? && outer in least.fields
    requires least.At(outer).Obj? && inner in least.At(outer).fields
    requires !least.At(outer).At(inner).Obj? && !least.At(outer).At(inner).Arr?
    ensures json.At(outer).At(inner) == least.At(outer).At(inner)
  {
    hide Holds;
    FieldHeld(json, least, outer);
    FieldHeld(json.At(outer), least.At(outer), inner);
    LeafHeld(json.At(outer).At(inner), least.At(outer).At(inner));
  }

  lemma TopHeld(json: Json, least: Json, key: string)
    requires Holds(json, least) && least.Obj? && key in least.fields && !least.At(key).Obj? && !least.At(key).Arr?
    ensures json.At(key) == least.At(key)
  {
    hide Holds;
    FieldHeld(json, least, key);
    LeafHeld(json.At(key), least.At(key));
  }

  lemma StartHeld(json: Json, model: Option<string>, input: Option<int>)
    requires InU32(input) && Holds(json, JsonFor(MessageStart(model, input)))
    ensures DecodeJson("message_start", json) == MessageStart(model, input)
  {
    hide Holds;
    var least := JsonFor(MessageStart(model, input));
    var inner := least.At("message");
    FieldHeld(json, least, "message");
    TopHeld(json.At("message"), inner, "model");
    DeepHeld(json.At("message"), inner, "usage", "input_tokens");
  }

  lemma ToolHeld(json: Json, index: nat, id: string, name: string)
    requires index < 0x8000_0000_0000_0000 && Holds(json, JsonFor(ToolStart(index, id, name)))
    ensures DecodeJson("content_block_start", json) == ToolStart(index, id, name)
  {
    hide Holds;
    var least := JsonFor(ToolStart(index, id, name));
    TopHeld(json, least, "index");
    DeepHeld(json, least, "content_block", "type");
    DeepHeld(json, least, "content_block", "id");
    DeepHeld(json, least, "content_block", "name");
  }

  lemma TextHeld(json: Json, text: string)
    requires text != "" && Holds(json, JsonFor(TextDelta(text)))
    ensures DecodeJson("content_block_delta", json) == TextDelta(text)
  {
    hide Holds;
    var least := JsonFor(TextDelta(text));
    DeepHeld(json, least, "delta", "type");
    DeepHeld(json, least, "delta", "text");
  }

  lemma PartialHeld(json: Json, index: nat, partial: string)
    requires index < 0x8000_0000_0000_0000 && Holds(json, JsonFor(JsonDelta(index, partial)))
    ensures DecodeJson("content_block_delta", json) == JsonDelta(index, partial)
  {
    hide Holds;
    var least := JsonFor(JsonDelta(index, partial));
    TopHeld(json, least, "index");
    DeepHeld(json, least, "delta", "type");
    DeepHeld(json, least, "delta", "partial_json");
  }

  lemma StopHeld(json: Json, index: nat)
    requires index < 0x8000_0000_0000_0000 && Holds(json, JsonFor(BlockStop(index)))
    ensures DecodeJson("content_block_stop", json) == BlockStop(index)
  {
    hide Holds;
    TopHeld(json, JsonFor(BlockStop(index)), "index");
  }

  lemma DeltaHeld(json: Json, output: Option<int>, stop: Option<string>)
    requires InU32(output) && Holds(json, JsonFor(MessageDelta(output, stop)))
    ensures DecodeJson("message_delta", json) == MessageDelta(output, stop)
  {
    hide Holds;
    var least := JsonFor(MessageDelta(output, stop));
    DeepHeld(json, least, "usage", "output_tokens");
    DeepHeld(json, least, "delta", "stop_reason");
  }

  lemma DecodeHeld(json: Json, signal: Signal)
    requires Sendable(signal) && !signal.MessageStop? && !signal.Ignored? && Holds(json, JsonFor(signal))
    ensures EventFor(signal) in JSON_EVENTS && DecodeJson(EventFor(signal), json) == signal
  {
    hide Holds, JsonFor, DecodeJson;
    match signal {
      case MessageStart(model, input) => StartHeld(json, model, input);
      case ToolStart(index, id, name) => ToolHeld(json, index, id, name);
      case TextDelta(text) => TextHeld(json, text);
      case JsonDelta(index, partial) => PartialHeld(json, index, partial);
      case BlockStop(index) => StopHeld(json, index);
      case MessageDelta(output, stop) => DeltaHeld(json, output, stop);
    }
  }

  /** A frame that holds the fields of a signal carries it, whatever other fields it has at any depth. */
  lemma DecodeSent(codec: Codec, frame: Frame, signal: Signal)
    requires Sendable(signal) && frame.event == Some(EventFor(signal))
    requires codec.parse(frame.data).Some? && Holds(codec.parse(frame.data).value, JsonFor(signal))
    ensures Decode(codec, frame) == signal
  {
    hide DecodeJson, JsonFor, Holds;
    if !signal.MessageStop? && !signal.Ignored? { DecodeHeld(codec.parse(frame.data).value, signal); }
  }

  /** The start of a text block tells the adapter nothing. */
  lemma TextStartIsIgnored(codec: Codec, frame: Frame)
    requires frame.event == Some("content_block_start") && codec.parse(frame.data).Some?
    requires Holds(codec.parse(frame.data).value, Obj(map["content_block" := Obj(map["type" := Str("text")])]))
    ensures Decode(codec, frame) == Ignored
  {
    var json := codec.parse(frame.data).value;
    FieldHeld(json, Obj(map["content_block" := Obj(map["type" := Str("text")])]), "content_block");
    FieldHeld(json.At("content_block"), Obj(map["type" := Str("text")]), "type");
  }

  /** What the adapter makes of the items of a frame stream. */
  function Events(codec: Codec, st: State, items: seq<Item>): seq<Event>
    decreases |items|
  {
    if items == [] then []
    else if items[0].Err? then [Err(items[0].error)] + Events(codec, st, items[1..])
    else
      var signal := Decode(codec, items[0].value);
      Emitted(codec, st, signal) + Events(codec, After(st, signal), items[1..])
  }

  /** The items carry exactly these signals, frame by frame, whatever else the frames hold. */
  predicate Carries(codec: Codec, items: seq<Item>, signals: seq<Signal>) {
    && |items| == |signals|
    && forall i :: 0 <= i < |items| ==> items[i].Ok? && Decode(codec, items[i].value) == signals[i]
  }

  lemma {:induction false} EventsOfItems(codec: Codec, st: State, items: seq<Item>, signals: seq<Signal>)
    requires Carries(codec, items, signals)
    ensures Events(codec, st, items) == Fold(codec, st, signals)
    decreases |items|
  {
    if items != [] {
      hide Decode, Emitted, After;
      EventsOfItems(codec, After(st, signals[0]), items[1..], signals[1..]);
    }
  }

  lemma {:induction false} NoReadFailures(body: seq<BodyItem>, buf: string)
    requires forall i :: 0 <= i < |body| ==> body[i].Chunk?
    ensures forall i :: 0 <= i < |Extract(body, buf)| ==> Extract(body, buf)[i].Raw?
    decreases |body|, |buf|
  {
    hide FindBoundary;
    var boundary := FindBoundary(buf);
    if boundary.Some? {
      NoReadFailures(body, buf[boundary.value + 2..]);
    } else if body != [] {
      NoReadFailures(body[1..], buf + body[0].text);
    }
  }

  lemma {:induction false} NothingToFilter(raws: seq<RawItem>)
    requires forall i :: 0 <= i < |raws| ==> raws[i].Raw?
    ensures WithoutReadFailures(Deliver(raws)) == Deliver(raws)
  {
    if raws != [] {
      hide Parse;
      NothingToFilter(raws[1..]);
      WithoutReadFailuresOfPass(Parse(raws[0].text), Deliver(raws[1..]));
    }
  }

  /**
   * A message sent as an event stream, with any split into deltas, any pings, any heartbeats and any
   * chunking of the bytes, conveys to the caller what the same message means when it is sent whole.
   */
  lemma {:induction false} BytesConveyMessage(codec: Codec, message: Message, splits: seq<seq<string>>,
                                              signals: seq<Signal>, blocks: seq<SseRoundTrip.Block>,
                                              t: SseRoundTrip.Terminator, body: seq<BodyItem>)
    requires |splits| == |message.content|
    requires forall i :: 0 <= i < |message.content| ==> Splits(codec, message.content[i], splits[i])
    requires Relevant(signals) == Relevant(MessageSignals(message, splits))
    requires SseRoundTrip.AllPrintable(blocks) && Carries(codec, SseRoundTrip.Events(blocks), signals)
    requires Bytes(body) == SseRoundTrip.Print(blocks, t) && forall i :: 0 <= i < |body| ==> body[i].Chunk?
    ensures Conveys(Events(codec, INITIAL, Deliver(Extract(body, ""))), Meaning(message))
  {
    SseRoundTrip.RoundTrip(blocks, t, body);
    NoReadFailures(body, "");
    NothingToFilter(Extract(body, ""));
    EventsOfItems(codec, INITIAL, SseRoundTrip.Events(blocks), signals);
    StreamedEqualsWhole(codec, message, splits, signals);
  }

  // ------------------------------------------------------------------ words and errors

  /** Each stop reason of the vendor has its finish reason; any other word has none of its own. */
  lemma StopWords(stop: string)
    ensures FinishOf("end_turn") == Stop && FinishOf("max_tokens") == Length
    ensures FinishOf("tool_use") == FinishReason.ToolUse
    ensures stop !in {"end_turn", "max_tokens", "tool_use"} ==> FinishOf(stop) == Other
  {
  }

  /** A known frame whose text is not JSON is an error that trying again cannot help, and changes nothing. */
  lemma GarbledFrameIsFatal(codec: Codec, st: State, frame: Frame)
    requires frame.event.Some? && frame.event.value in JSON_EVENTS && frame.event.value != "message_stop"
    requires codec.parse(frame.data).None?
    ensures Emitted(codec, st, Decode(codec, frame)) == [Err(ProviderError(InvalidRequest, false))]
    ensures After(st, Decode(codec, frame)) == st
  {
  }

  /** Arguments that are not JSON become the empty object. */
  lemma BadArgumentsBecomeEmpty(codec: Codec, st: State, index: nat)
    requires index in st.calls && codec.parse(st.calls[index].arguments).None?
    ensures Emitted(codec, st, BlockStop(index))
         == [Ok(Tool(ToolCall(st.calls[index].id, st.calls[index].name, Obj(map[]))))]
  {
  }
}
