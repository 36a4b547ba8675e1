/**
 * The OpenAI adapter: tool calls arrive as fragments keyed by an index, interleaved over many
 * chunks, and are emitted together when the stream says it finished for tool calls.
 */
module OpenAi {
  import opened Text
  import opened Contract
  import opened Sse
  import opened Anthropic
  import SseRoundTrip

  // ------------------------------------------------------------------ the non-streaming answer

  /** A tool call as the vendor writes it; any of its fields may be missing or not a string. */
  datatype WireCall = WireCall(id: Option<string>, name: Option<string>, arguments: Option<string>)

  datatype Answer = Answer(content: Option<string>, calls: seq<WireCall>, stop: Option<string>,
                           model: Option<string>, usage: TokenUsage)

  function FinishFor(stop: string): FinishReason {
    if stop == "stop" then Stop
    else if stop == "length" then Length
    else if stop == TOOL_CALLS then FinishReason.ToolUse
    else Other
  }

  const TOOL_CALLS := "tool_calls"
  const DONE := "[DONE]"

  /** A call without id or name is skipped, and arguments that do not parse become the empty object. */
  function WireMeaning(codec: Codec, call: WireCall): seq<ToolCall> {
    if call.id.None? || call.name.None? then []
    else
      match codec.parse(if call.arguments.Some? then call.arguments.value else "{}")
      case Some(arguments) => [ToolCall(call.id.value, call.name.value, arguments)]
      case None => [ToolCall(call.id.value, call.name.value, Obj(map[]))]
  }

  function WireMeanings(codec: Codec, calls: seq<WireCall>): seq<ToolCall> {
    if calls == [] then []
    else WireMeanings(codec, calls[..|calls| - 1]) + WireMeaning(codec, calls[|calls| - 1])
  }

  /** What a whole answer means. */
  function AnswerMeaning(codec: Codec, requestModel: string, answer: Answer): ChatCompletion {
    ChatCompletion(
      OrEmpty(answer.content), if answer.model.Some? then answer.model.value else requestModel, answer.usage,
      if answer.stop.Some? then FinishFor(answer.stop.value) else Other, WireMeanings(codec, answer.calls))
  }

  /** The response extraction of the non-streaming call. */
  method ReadAnswer(codec: Codec, requestModel: string, answer: Answer) returns (completion: ChatCompletion)
    ensures completion == AnswerMeaning(codec, requestModel, answer)
  {
    var finish := match answer.stop
      case Some(stop) => FinishFor(stop)
      case None => Other;
    var model := match answer.model case Some(m) => m case None => requestModel;
    var toolCalls: seq<ToolCall> := [];
    for i := 0 to |answer.calls|
      invariant toolCalls == WireMeanings(codec, answer.calls[..i])
    {
      ghost var upto := answer.calls[..i + 1];
      assert upto[..i] == answer.calls[..i] && upto[i] == answer.calls[i];
      var call := answer.calls[i];
      if call.id.Some? && call.name.Some? {
        var text := match call.arguments case Some(a) => a case None => "{}";
        var arguments := match codec.parse(text) case Some(json) => json case None => Obj(map[]);
        toolCalls := toolCalls + [ToolCall(call.id.value, call.name.value, arguments)];
      }
    }
    assert answer.calls[..|answer.calls|] == answer.calls;
    completion := ChatCompletion(OrEmpty(answer.content), model, answer.usage, finish, toolCalls);
  }

  // ------------------------------------------------------------------ frames as signals

  /** One element of `delta.tool_calls`. */
  datatype Fragment = Fragment(index: nat, id: Option<string>, name: Option<string>, arguments: Option<string>) {
    predicate Says() {
      id.Some? || name.Some? || arguments.Some?
    }
  }

  datatype Signal =
    | Part(text: string, fragments: seq<Fragment>, stop: Option<string>, usage: Option<TokenUsage>,
           model: Option<string>)
    | Finished
    | Garbled

  function FragmentOf(json: Json): Fragment {
    Fragment(json.At("index").AsIndex(), json.At("id").AsStr(),
             json.At("function").At("name").AsStr(), json.At("function").At("arguments").AsStr())
  }

  function FragmentsOf(items: seq<Json>): seq<Fragment> {
    if items == [] then [] else [FragmentOf(items[0])] + FragmentsOf(items[1..])
  }

  function DecodeChunk(json: Json): Signal {
    var choices := json.At("choices");
    var choice := if choices.Arr? && choices.items != [] then choices.items[0] else Null;
    var delta := choice.At("delta");
    Part(OrEmpty(delta.At("content").AsStr()),
          if delta.At("tool_calls").Arr? then FragmentsOf(delta.At("tool_calls").items) else [],
          choice.At("finish_reason").AsStr(),
          if json.Has("usage") then
            Some(TokenUsage(json.At("usage").At("prompt_tokens").AsU32(),
                            json.At("usage").At("completion_tokens").AsU32()))
          else None,
          json.At("model").AsStr())
  }

  function DecodeFrame(codec: Codec, frame: Frame): Signal {
    if Trim(frame.data) == DONE then Finished
    else match codec.parse(frame.data) case None => Garbled case Some(json) => DecodeChunk(json)
  }

  // ------------------------------------------------------------------ the accumulators

  type Accums = map<nat, Accum>

  const EMPTY := Accum("", "", "")

  /** One fragment: a missing part leaves its accumulator alone, and no part at all creates none. */
  function Add(accs: Accums, f: Fragment): Accums {
    if !f.Says() then accs
    else
      var acc := if f.index in accs then accs[f.index] else EMPTY;
      accs[f.index := Accum(if f.id.Some? then f.id.value else acc.id,
                            if f.name.Some? then f.name.value else acc.name,
                            acc.arguments + OrEmpty(f.arguments))]
  }

  function AddAll(accs: Accums, fs: seq<Fragment>): Accums {
    if fs == [] then accs else Add(AddAll(accs, fs[..|fs| - 1]), fs[|fs| - 1])
  }

  lemma LeastExists(keys: set<nat>, x: nat)
    requires x in keys
    ensures exists k :: IsLeast(k, keys)
    decreases x
  {
    if y :| y in keys && y < x {
      LeastExists(keys, y);
    } else {
      assert IsLeast(x, keys);
    }
  }

  predicate IsLeast(k: nat, keys: set<nat>) {
    k in keys && forall j <- keys :: k <= j
  }

  function Least(keys: set<nat>): (k: nat)
    requires keys != {}
    ensures IsLeast(k, keys)
  {
    assert exists k :: IsLeast(k, keys) by {
      var some :| some in keys;
      LeastExists(keys, some);
    }
    var k :| IsLeast(k, keys);
    k
  }

  /** The keys of a tree map, in the order it is walked. */
  function Ascending(keys: set<nat>): seq<nat> {
    if keys == {} then [] else var k := Least(keys); [k] + Ascending(keys - {k})
  }

  lemma {:induction false} AscendingIs(keys: set<nat>)
    ensures forall k :: k in Ascending(keys) <==> k in keys
    ensures forall i, j :: 0 <= i < j < |Ascending(keys)| ==> Ascending(keys)[i] < Ascending(keys)[j]
  {
    if keys != {} {
      var k := Least(keys);
      var rest := keys - {k};
      AscendingIs(rest);
      assert Ascending(keys) == [k] + Ascending(rest);
      forall i, j | 0 <= i < j < |Ascending(keys)|
        ensures Ascending(keys)[i] < Ascending(keys)[j]
      {
        var tail := Ascending(rest);
        assert tail[j - 1] in tail;
        assert tail[j - 1] in rest && k <= tail[j - 1];
      }
    }
  }

  /** The call of one index, or an error that names no other index. */
  function CallEvent(codec: Codec, acc: Accum): Event {
    match codec.parse(acc.arguments)
    case Some(arguments) => Ok(Tool(ToolCall(acc.id, acc.name, arguments)))
    case None => MALFORMED
  }

  /** The events of the accumulators of the given indices. */
  function CallEvents(codec: Codec, accs: Accums, ks: seq<nat>): seq<Event>
    requires forall k <- ks :: k in accs
  {
    if ks == [] then []
    else CallEvents(codec, accs, ks[..|ks| - 1]) + [CallEvent(codec, accs[ks[|ks| - 1]])]
  }

  function Flush(codec: Codec, accs: Accums): seq<Event> {
    AscendingIs(accs.Keys);
    CallEvents(codec, accs, Ascending(accs.Keys))
  }

  // ------------------------------------------------------------------ the fold

  datatype State = Cells(usage: Option<TokenUsage>, model: Option<string>, finish: FinishReason, accs: Accums)

  const START := Cells(None, None, Other, map[])

  function Later<T>(old_: Option<T>, new_: Option<T>): Option<T> {
    if new_.Some? then new_ else old_
  }

  function Next(st: State, signal: Signal): State {
    match signal
    case Finished => st.(usage := None, model := None)
    case Garbled => st
    case Part(_, fragments, stop, usage, model) =>
      Cells(Later(st.usage, usage), Later(st.model, model),
            if stop.Some? then FinishFor(stop.value) else st.finish,
            if stop == Some(TOOL_CALLS) then map[] else AddAll(st.accs, fragments))
  }

  function Sent(codec: Codec, requestModel: string, st: State, signal: Signal): seq<Event> {
    match signal
    case Finished =>
      [Ok(Done(if st.usage.Some? then st.usage.value else TokenUsage(None, None),
               if st.model.Some? then st.model.value else requestModel, st.finish))]
    case Garbled => [MALFORMED]
    case Part(text, fragments, stop, _, _) =>
      (if text == "" then [] else [Ok(Delta(text))])
      + (if stop == Some(TOOL_CALLS) then Flush(codec, AddAll(st.accs, fragments)) else [])
  }

  function FoldAll(codec: Codec, requestModel: string, st: State, signals: seq<Signal>): seq<Event>
    decreases |signals|
  {
    if signals == [] then []
    else Sent(codec, requestModel, st, signals[0]) + FoldAll(codec, requestModel, Next(st, signals[0]), signals[1..])
  }

  function Final(st: State, signals: seq<Signal>): State
    decreases |signals|
  {
    if signals == [] then st else Final(Next(st, signals[0]), signals[1..])
  }

  /** The adapter's shared state: four cells updated frame by frame. */
  class Adapter {
    const codec: Codec
    const requestModel: string
    var usage: Option<TokenUsage>
    var model: Option<string>
    var finish: FinishReason
    var accs: Accums

    ghost function Now(): State
      reads this
    {
      Cells(usage, model, finish, accs)
    }

    constructor (codec: Codec, requestModel: string)
      ensures this.codec == codec && this.requestModel == requestModel && Now() == START
    {
      this.codec, this.requestModel := codec, requestModel;
      usage, model, finish, accs := None, None, Other, map[];
    }

    method Entry(index: nat) returns (acc: Accum)
      ensures acc == if index in accs then accs[index] else EMPTY
    {
      return if index in accs then accs[index] else EMPTY;
    }

    /** The parts of one fragment, one after the other. */
    method AddFragment(f: Fragment)
      modifies this`accs
      ensures accs == Add(old(accs), f)
    {
      var acc;
      if f.id.Some? {
        acc := Entry(f.index);
        accs := accs[f.index := acc.(id := f.id.value)];
      }
      if f.name.Some? {
        acc := Entry(f.index);
        accs := accs[f.index := acc.(name := f.name.value)];
      }
      if f.arguments.Some? {
        acc := Entry(f.index);
        accs := accs[f.index := acc.(arguments := acc.arguments + f.arguments.value)];
      }
      ghost var before := if f.index in old(accs) then old(accs)[f.index] else EMPTY;
      assert before.arguments + "" == before.arguments;
      assert f.Says() ==> accs == old(accs)[f.index := accs[f.index]];
    }

    method AddFragments(fs: seq<Fragment>)
      modifies this`accs
      ensures accs == AddAll(old(accs), fs)
    {
      for i := 0 to |fs|
        invariant accs == AddAll(old(accs), fs[..i])
      {
        assert fs[..i + 1][..i] == fs[..i];
        AddFragment(fs[i]);
      }
      assert fs[..|fs|] == fs;
    }

    /** Empty the accumulators, lowest index first. */
    method TakeCalls() returns (events: seq<Event>)
      modifies this`accs
      ensures events == Flush(codec, old(accs)) && accs == map[]
    {
      var taken := accs;
      accs := map[];
      AscendingIs(taken.Keys);
      var ks := Ascending(taken.Keys);
      events := [];
      for i := 0 to |ks|
        invariant accs == map[] && events == CallEvents(codec, taken, ks[..i])
      {
        assert ks[..i + 1][..i] == ks[..i];
        events := events + [CallEvent(codec, taken[ks[i]])];
      }
      assert ks[..|ks|] == ks;
    }

    /** One chunk of the answer. */
    method OnPart(text: string, fragments: seq<Fragment>, stop: Option<string>, tokens: Option<TokenUsage>,
                  name: Option<string>)
      returns (events: seq<Event>)
      modifies this
      ensures events == Sent(codec, requestModel, old(Now()), Part(text, fragments, stop, tokens, name))
      ensures Now() == Next(old(Now()), Part(text, fragments, stop, tokens, name))
    {
      hide AddAll, Flush, FinishFor;
      events := [];
      if text != "" { events := [Ok(Delta(text))]; }
      AddFragments(fragments);
      if stop.Some? {
        finish := FinishFor(stop.value);
        if stop.value == TOOL_CALLS {
          var calls := TakeCalls();
          events := events + calls;
        }
      }
      if tokens.Some? { usage := tokens; }
      if name.Some? { model := name; }
    }

    /** One frame or upstream error in, the events for it out. */
    method OnFrame(item: Item) returns (events: seq<Event>)
      modifies this
      ensures item.Err? ==> events == [Err(item.error)] && Now() == old(Now())
      ensures item.Ok? ==>
        && events == Sent(codec, requestModel, old(Now()), DecodeFrame(codec, item.value))
        && Now() == Next(old(Now()), DecodeFrame(codec, item.value))
    {
      hide AddAll, DecodeFrame, Flush, FinishFor;
      if item.Err? {
        return [Err(item.error)];
      }
      match DecodeFrame(codec, item.value) {
        case Finished =>
          var tokens := match usage case Some(u) => u case None => TokenUsage(None, None);
          var name := match model case Some(m) => m case None => requestModel;
          usage, model := None, None;
          return [Ok(Done(tokens, name, finish))];
        case Garbled =>
          return [MALFORMED];
        case Part(text, fragments, stop, tokens, name) =>
          events := OnPart(text, fragments, stop, tokens, name);
      }
    }
  }

  // ------------------------------------------------------------------ each index by itself

  /** The fragments of one index, in the order they arrive. */
  function Own(fs: seq<Fragment>, i: nat): seq<Fragment> {
    if fs == [] then []
    else Own(fs[..|fs| - 1], i) + (if fs[|fs| - 1].index == i then [fs[|fs| - 1]] else [])
  }

  function LastId(own: seq<Fragment>): string {
    if own == [] then "" else if own[|own| - 1].id.Some? then own[|own| - 1].id.value else LastId(own[..|own| - 1])
  }

  function LastName(own: seq<Fragment>): string {
    if own == [] then "" else if own[|own| - 1].name.Some? then own[|own| - 1].name.value
    else LastName(own[..|own| - 1])
  }

  function AllArguments(own: seq<Fragment>): string {
    if own == [] then "" else AllArguments(own[..|own| - 1]) + OrEmpty(own[|own| - 1].arguments)
  }

  predicate Speaks(own: seq<Fragment>) {
    own != [] && (own[|own| - 1].Says() || Speaks(own[..|own| - 1]))
  }

  /** What the fragments of one index say together. */
  function Spelled(own: seq<Fragment>): Accum {
    Accum(LastId(own), LastName(own), AllArguments(own))
  }

  lemma SpelledSnoc(own: seq<Fragment>, f: Fragment)
    ensures Spelled(own + [f]) == Accum(if f.id.Some? then f.id.value else LastId(own),
                                        if f.name.Some? then f.name.value else LastName(own),
                                        AllArguments(own) + OrEmpty(f.arguments))
    ensures Speaks(own + [f]) <==> f.Says() || Speaks(own)
  {
    assert (own + [f])[..|own|] == own;
  }

  /** An accumulator holds what its own fragments spell, whatever else arrived in between. */
  lemma {:induction false} GatheredAt(fs: seq<Fragment>, i: nat)
    ensures i in AddAll(map[], fs) <==> Speaks(Own(fs, i))
    ensures Spelled(Own(fs, i)) == if i in AddAll(map[], fs) then AddAll(map[], fs)[i] else EMPTY
  {
    if fs != [] {
      hide Speaks, Spelled, Own, AddAll;
      var front, last := fs[..|fs| - 1], fs[|fs| - 1];
      GatheredAt(front, i);
      UnfoldGather(fs, i);
      if last.index == i {
        SpelledSnoc(Own(front, i), last);
        SpelledParts(Own(front, i));
        assert EMPTY.arguments + OrEmpty(last.arguments) == OrEmpty(last.arguments);
        if !last.Says() {
          assert AllArguments(Own(front, i)) + "" == AllArguments(Own(front, i));
        }
      }
    } else {
      assert AddAll(map[], fs) == map[];
    }
  }

  lemma SpelledParts(own: seq<Fragment>)
    ensures Spelled(own) == Accum(LastId(own), LastName(own), AllArguments(own))
  {
  }

  lemma UnfoldGather(fs: seq<Fragment>, i: nat)
    requires fs != []
    ensures var front, last := fs[..|fs| - 1], fs[|fs| - 1];
            && AddAll(map[], fs) == Add(AddAll(map[], front), last)
            && Own(fs, i) == if last.index == i then Own(front, i) + [last] else Own(front, i)
  {
  }

  /** Any interleaving that keeps the order within each index gathers the same accumulators. */
  lemma InterleavingIsIrrelevant(fs: seq<Fragment>, gs: seq<Fragment>)
    requires forall i: nat :: Own(fs, i) == Own(gs, i)
    ensures AddAll(map[], fs) == AddAll(map[], gs)
  {
    hide Speaks, Spelled, Own, AddAll;
    var a, b := AddAll(map[], fs), AddAll(map[], gs);
    forall i: nat
      ensures i in a <==> i in b
      ensures i in a ==> a[i] == b[i]
    {
      GatheredAt(fs, i);
      GatheredAt(gs, i);
    }
  }

  predicate Increasing(ks: seq<nat>) {
    forall i, j :: 0 <= i < j < |ks| ==> ks[i] < ks[j]
  }

  lemma TailMembers(ks: seq<nat>, keys: set<nat>)
    requires ks != [] && Increasing(ks) && forall k :: k in ks <==> k in keys
    ensures IsLeast(ks[0], keys) && Increasing(ks[1..])
    ensures forall k :: k in ks[1..] <==> k in keys - {ks[0]}
  {
    assert ks[0] in ks;
    assert ks == [ks[0]] + ks[1..];
    forall k | k in ks[1..]
      ensures ks[0] < k
    {
      var i :| 0 <= i < |ks[1..]| && ks[1..][i] == k;
      assert ks[i + 1] == k;
    }
  }

  lemma {:induction false} AscendingUnique(ks: seq<nat>, keys: set<nat>)
    requires Increasing(ks) && forall k :: k in ks <==> k in keys
    ensures Ascending(keys) == ks
  {
    if ks == [] {
      assert keys == {};
    } else {
      hide Increasing;
      TailMembers(ks, keys);
      assert Least(keys) == ks[0];
      AscendingUnique(ks[1..], keys - {ks[0]});
    }
  }

  // ------------------------------------------------------------------ streamed against non-streamed

  /** A call with all its parts, as a vendor writes it. */
  predicate Complete(call: WireCall) {
    call.id.Some? && call.name.Some? && call.arguments.Some?
  }

  predicate Parses(codec: Codec, call: WireCall) {
    call.arguments.Some? && codec.parse(call.arguments.value).Some?
  }

  /** The fragments spell these calls at these indices, and nothing else. */
  ghost predicate Spell(fs: seq<Fragment>, ks: seq<nat>, calls: seq<WireCall>) {
    && |ks| == |calls| && Increasing(ks)
    && (forall i: nat :: Speaks(Own(fs, i)) <==> i in ks)
    && forall j :: 0 <= j < |ks| ==>
         Complete(calls[j]) &&
           Spelled(Own(fs, ks[j])) == Accum(calls[j].id.value, calls[j].name.value, calls[j].arguments.value)
  }

  lemma SpellGathers(fs: seq<Fragment>, ks: seq<nat>, calls: seq<WireCall>)
    requires Spell(fs, ks, calls)
    ensures var accs := AddAll(map[], fs);
            && Ascending(accs.Keys) == ks && (forall k <- ks :: k in accs)
            && forall j :: 0 <= j < |ks| ==>
                 Complete(calls[j]) &&
                   accs[ks[j]] == Accum(calls[j].id.value, calls[j].name.value, calls[j].arguments.value)
  {
    hide Speaks, Spelled, Own, AddAll, Increasing;
    var accs := AddAll(map[], fs);
    forall k: nat
      ensures k in ks <==> k in accs.Keys
      ensures k in accs ==> accs[k] == Spelled(Own(fs, k))
    {
      GatheredAt(fs, k);
    }
    AscendingUnique(ks, accs.Keys);
  }

  predicate AllParse(codec: Codec, calls: seq<WireCall>) {
    calls == [] || (AllParse(codec, calls[..|calls| - 1]) && Parses(codec, calls[|calls| - 1]))
  }

  lemma {:induction false} AllParseIff(codec: Codec, calls: seq<WireCall>)
    ensures AllParse(codec, calls) <==> forall call <- calls :: Parses(codec, call)
  {
    if calls != [] {
      hide Parses;
      var front, last := calls[..|calls| - 1], calls[|calls| - 1];
      AllParseIff(codec, front);
      assert calls == front + [last];
    }
  }

  /**
   * Each index once, in ascending order, with its own call; the events are all calls exactly when all arguments
   * parse.
   */
  lemma {:induction false} EventsOfCalls(codec: Codec, accs: Accums, ks: seq<nat>, calls: seq<WireCall>)
    requires |ks| == |calls| && forall k <- ks :: k in accs
    requires forall j :: 0 <= j < |ks| ==>
               Complete(calls[j]) &&
                 accs[ks[j]] == Accum(calls[j].id.value, calls[j].name.value, calls[j].arguments.value)
    ensures DeltaTexts(CallEvents(codec, accs, ks)) == []
    ensures Plain(CallEvents(codec, accs, ks)) <==> AllParse(codec, calls)
    ensures AllParse(codec, calls) ==> CallsOf(CallEvents(codec, accs, ks)) == WireMeanings(codec, calls)
  {
    if ks != [] {
      hide Plain, CallEvents, WireMeanings, WireMeaning, CallEvent, Parses, Complete, DeltaTexts, CallsOf;
      var n := |ks| - 1;
      assert forall k <- ks[..n] :: k in ks;
      EventsOfCalls(codec, accs, ks[..n], calls[..n]);
      UnfoldCallEvents(codec, accs, ks);
      var front, last := CallEvents(codec, accs, ks[..n]), CallEvent(codec, accs[ks[n]]);
      PlainSnoc(front, last);
      OneCall(codec, calls[n], last);
      EventsAppend(front, [last]);
      UnfoldMeanings(codec, calls);
    } else {
      NoEvents();
      NothingIsPlain();
    }
  }

  lemma UnfoldCallEvents(codec: Codec, accs: Accums, ks: seq<nat>)
    requires ks != [] && forall k <- ks :: k in accs
    ensures CallEvents(codec, accs, ks) ==
        CallEvents(codec, accs, ks[..|ks| - 1]) + [CallEvent(codec, accs[ks[|ks| - 1]])]
  {
  }

  lemma UnfoldMeanings(codec: Codec, calls: seq<WireCall>)
    requires calls != []
    ensures WireMeanings(codec, calls) ==
        WireMeanings(codec, calls[..|calls| - 1]) + WireMeaning(codec, calls[|calls| - 1])
  {
  }

  lemma PlainSnoc(events: seq<Event>, last: Event)
    ensures Plain(events + [last]) <==> Plain(events) && last.Ok? && !last.value.Done?
  {
    if Plain(events + [last]) {
      assert forall i :: 0 <= i < |events| ==> events[i] == (events + [last])[i];
      assert (events + [last])[|events|] == last;
    }
  }

  lemma OneCall(codec: Codec, call: WireCall, event: Event)
    requires Complete(call) && event == CallEvent(codec, Accum(call.id.value, call.name.value, call.arguments.value))
    ensures DeltaTexts([event]) == [] && (event.Ok? <==> Parses(codec, call)) && (event.Ok? ==> event.value.Tool?)
    ensures event.Ok? ==> CallsOf([event]) == WireMeaning(codec, call)
  {
    var one := [event];
    assert one[1..] == [];
  }

  // ------------------------------------------------------------------ chunk by chunk

  function TextIn(parts: seq<Signal>): string {
    if parts == [] then "" else (if parts[0].Part? then parts[0].text else "") + TextIn(parts[1..])
  }

  function FragmentsIn(parts: seq<Signal>): seq<Fragment> {
    if parts == [] then [] else (if parts[0].Part? then parts[0].fragments else []) + FragmentsIn(parts[1..])
  }

  function LastUsage(parts: seq<Signal>): Option<TokenUsage> {
    if parts == [] then None else Later(if parts[0].Part? then parts[0].usage else None, LastUsage(parts[1..]))
  }

  function LastModel(parts: seq<Signal>): Option<string> {
    if parts == [] then None else Later(if parts[0].Part? then parts[0].model else None, LastModel(parts[1..]))
  }

  /** Chunks that do not say that the answer has stopped. */
  predicate Open(parts: seq<Signal>) {
    forall i :: 0 <= i < |parts| ==> parts[i].Part? && parts[i].stop.None?
  }

  lemma {:induction false} AddAllAppend(accs: Accums, a: seq<Fragment>, b: seq<Fragment>)
    ensures AddAll(accs, a + b) == AddAll(AddAll(accs, a), b)
    decreases |b|
  {
    hide Add;
    if b == [] {
      assert a + b == a;
    } else {
      var n := |b| - 1;
      AddAllAppend(accs, a, b[..n]);
      assert (a + b)[..|a| + n] == a + b[..n];
    }
  }

  lemma FoldAllAppend(codec: Codec, rm: string, st: State, a: seq<Signal>, b: seq<Signal>)
    ensures FoldAll(codec, rm, st, a + b) == FoldAll(codec, rm, st, a) + FoldAll(codec, rm, Final(st, a), b)
    ensures Final(st, a + b) == Final(Final(st, a), b)
    decreases |a|
  {
    if a == [] {
      assert a + b == b;
    } else {
      hide Sent, Next;
      var next := Next(st, a[0]);
      assert (a + b)[1..] == a[1..] + b;
      FoldAllAppend(codec, rm, next, a[1..], b);
      AppendAssoc(Sent(codec, rm, st, a[0]), FoldAll(codec, rm, next, a[1..]),
                  FoldAll(codec, rm, Final(next, a[1..]), b));
    }
  }

  lemma OneDelta(text: string)
    ensures var events: seq<Event> := if text == "" then [] else [Ok(Delta(text))];
            Plain(events) && Concat(DeltaTexts(events)) == text && CallsOf(events) == []
  {
    if text != "" {
      var events: seq<Event> := [Ok(Delta(text))];
      assert events[1..] == [];
      assert DeltaTexts(events) == [text] + [];
      assert Concat([text]) == text;
    }
  }

  /** Text passes through and everything else is remembered, as long as the answer goes on. */
  lemma {:induction false} FoldOpen(codec: Codec, rm: string, st: State, parts: seq<Signal>)
    requires Open(parts)
    ensures var events := FoldAll(codec, rm, st, parts);
            Plain(events) && Concat(DeltaTexts(events)) == TextIn(parts) && CallsOf(events) == []
    ensures Final(st, parts) == Cells(Later(st.usage, LastUsage(parts)), Later(st.model, LastModel(parts)), st.finish,
                                      AddAll(st.accs, FragmentsIn(parts)))
    decreases |parts|
  {
    if parts != [] {
      hide Plain, DeltaTexts, CallsOf, AddAll;
      var part, next := parts[0], Next(st, parts[0]);
      FoldOpen(codec, rm, next, parts[1..]);
      AddAllAppend(st.accs, part.fragments, FragmentsIn(parts[1..]));
      OneDelta(part.text);
      var head, tail := Sent(codec, rm, st, part), FoldAll(codec, rm, next, parts[1..]);
      assert head == if part.text == "" then [] else [Ok(Delta(part.text))];
      EventsAppend(head, tail);
      ConcatAppend(DeltaTexts(head), DeltaTexts(tail));
      PlainAppend(head, tail);
    }
  }

  /** How an answer may be streamed: any chunks up to the one that says why it stopped, then chunks without calls. */
  ghost predicate Streams(codec: Codec, answer: Answer, ks: seq<nat>, before: seq<Signal>, last: Signal,
                          after: seq<Signal>) {
    && answer.stop.Some? && Open(before) && Open(after) && FragmentsIn(after) == []
    && last.Part? && last.stop == answer.stop
    && TextIn(before) + last.text + TextIn(after) == OrEmpty(answer.content)
    && Later(Later(LastUsage(before), last.usage), LastUsage(after)) == Some(answer.usage)
    && Later(Later(LastModel(before), last.model), LastModel(after)) == answer.model
    && Spell(FragmentsIn(before) + last.fragments, ks, answer.calls)
  }

  lemma FoldOneSignal(codec: Codec, rm: string, st: State, signal: Signal)
    ensures FoldAll(codec, rm, st, [signal]) == Sent(codec, rm, st, signal) && Final(st, [signal]) == Next(st, signal)
  {
    hide Sent, Next;
    assert [signal][1..] == [];
    assert Sent(codec, rm, st, signal) + [] == Sent(codec, rm, st, signal);
  }

  /** The events before `Done`, and the state `Done` is made from. */
  lemma {:induction false} FoldAnswer(codec: Codec, rm: string, answer: Answer, ks: seq<nat>, before: seq<Signal>,
                                      last: Signal, after: seq<Signal>)
    returns (flushed: seq<Event>, events: seq<Event>)
    requires Streams(codec, answer, ks, before, last, after)
    ensures flushed == if answer.stop == Some(TOOL_CALLS) then
        Flush(codec, AddAll(map[], FragmentsIn(before) + last.fragments)) else []
    ensures FoldAll(codec, rm, START, before + [last] + after) == events
    ensures Plain(events) <==> Plain(flushed)
    ensures Concat(DeltaTexts(events)) == OrEmpty(answer.content) || DeltaTexts(flushed) != []
    ensures CallsOf(events) == CallsOf(flushed)
    ensures Final(START, before + [last] + after)
         == Cells(Some(answer.usage), answer.model, FinishFor(answer.stop.value),
                  if answer.stop == Some(TOOL_CALLS) then map[]
                    else AddAll(map[], FragmentsIn(before) + last.fragments))
  {
    hide Plain, DeltaTexts, CallsOf, AddAll, FinishFor, Spell, Flush, TextIn, FragmentsIn, LastUsage, LastModel, Open,
      FoldAll, Final;
    FoldOpen(codec, rm, START, before);
    var st := Final(START, before);
    AddAllAppend(map[], FragmentsIn(before), last.fragments);
    var st' := Next(st, last);
    FoldOneSignal(codec, rm, st, last);
    FoldOpen(codec, rm, st', after);
    AddNothing(st'.accs);
    FoldAllAppend(codec, rm, START, before, [last]);
    FoldAllAppend(codec, rm, START, before + [last], after);
    flushed := if answer.stop == Some(TOOL_CALLS) then
      Flush(codec, AddAll(map[], FragmentsIn(before) + last.fragments)) else [];
    OneDelta(last.text);
    var a, d, c := FoldAll(codec, rm, START, before), if last.text == "" then [] else [Ok(Delta(last.text))],
        FoldAll(codec, rm, st', after);
    events := a + (d + flushed) + c;
    JoinEvents(a, d, flushed, c);
    assert "" + "" == "";
  }

  lemma AddNothing(accs: Accums)
    ensures AddAll(accs, []) == accs
  {
  }

  lemma JoinEvents(a: seq<Event>, d: seq<Event>, flushed: seq<Event>, c: seq<Event>)
    requires Plain(a) && Plain(d) && Plain(c) && CallsOf(a) == [] && CallsOf(d) == [] && CallsOf(c) == []
    ensures var events := a + (d + flushed) + c;
            && (Plain(events) <==> Plain(flushed)) && CallsOf(events) == CallsOf(flushed)
            && (DeltaTexts(flushed) == [] ==>
                  Concat(DeltaTexts(events)) == Concat(DeltaTexts(a)) + Concat(DeltaTexts(d)) + Concat(DeltaTexts(c)))
  {
    hide Plain, DeltaTexts, CallsOf, Concat;
    EventsAppend(d, flushed);
    EventsAppend(a, d + flushed);
    EventsAppend(a + (d + flushed), c);
    PlainJoin(a, d, flushed, c);
    assert [] + ([] + CallsOf(flushed)) + [] == CallsOf(flushed);
    if DeltaTexts(flushed) == [] {
      ConcatAppend(DeltaTexts(a), DeltaTexts(d));
      ConcatAppend(DeltaTexts(a) + DeltaTexts(d), DeltaTexts(c));
      assert DeltaTexts(a) + (DeltaTexts(d) + []) + DeltaTexts(c) == DeltaTexts(a) + DeltaTexts(d) + DeltaTexts(c);
    }
  }

  lemma PlainJoin(a: seq<Event>, d: seq<Event>, flushed: seq<Event>, c: seq<Event>)
    requires Plain(a) && Plain(d) && Plain(c)
    ensures Plain(a + (d + flushed) + c) <==> Plain(flushed)
  {
    var events := a + (d + flushed) + c;
    if Plain(events) {
      forall i | 0 <= i < |flushed|
        ensures flushed[i].Ok? && !flushed[i].value.Done?
      {
        assert events[|a| + |d| + i] == flushed[i];
      }
    } else if Plain(flushed) {
      PlainAppend(d, flushed);
      PlainAppend(a, d + flushed);
      PlainAppend(a + (d + flushed), c);
    }
  }

  /**
   * Streaming conveys what the whole answer means exactly when no call would be lost or refused: an
   * answer that stopped for tool calls needs arguments that parse, any other must have no calls.
   */
  lemma {:induction false} StreamedEqualsWholeIff(codec: Codec, rm: string, answer: Answer, ks: seq<nat>,
                                                  before: seq<Signal>, last: Signal, after: seq<Signal>)
    requires Streams(codec, answer, ks, before, last, after)
    ensures Conveys(FoldAll(codec, rm, START, before + [last] + after + [Finished]), AnswerMeaning(codec, rm, answer))
       <==> if answer.stop == Some(TOOL_CALLS) then forall call <- answer.calls :: Parses(codec, call)
         else answer.calls == []
  {
    hide FoldAll, Final, AddAll, Plain, DeltaTexts, CallsOf, FinishFor, WireMeanings, Conveys, Streams, CallEvents;
    var flushed, events := FoldAnswer(codec, rm, answer, ks, before, last, after);
    var st := Final(START, before + [last] + after);
    FoldOneSignal(codec, rm, st, Finished);
    FoldAllAppend(codec, rm, START, before + [last] + after, [Finished]);
    var c := AnswerMeaning(codec, rm, answer);
    StreamsSpell(codec, answer, ks, before, last, after);
    ConveysDone(events, c);
    var accs := AddAll(map[], FragmentsIn(before) + last.fragments);
    SpellGathers(FragmentsIn(before) + last.fragments, ks, answer.calls);
    NoEvents();
    NothingIsPlain();
    if answer.stop == Some(TOOL_CALLS) {
      EventsOfCalls(codec, accs, ks, answer.calls);
      AllParseIff(codec, answer.calls);
    } else {
      CompleteCallsMean(codec, answer.calls);
    }
  }

  lemma StreamsSpell(codec: Codec, answer: Answer, ks: seq<nat>, before: seq<Signal>, last: Signal, after: seq<Signal>)
    requires Streams(codec, answer, ks, before, last, after)
    ensures last.Part? && Spell(FragmentsIn(before) + last.fragments, ks, answer.calls) && answer.stop.Some?
  {
  }

  lemma {:induction false} CompleteCallsMean(codec: Codec, calls: seq<WireCall>)
    requires forall j :: 0 <= j < |calls| ==> Complete(calls[j])
    ensures |WireMeanings(codec, calls)| == |calls|
  {
    if calls != [] { CompleteCallsMean(codec, calls[..|calls| - 1]); }
  }

  const NO_USAGE := TokenUsage(None, None)

  /** An answer with one call, and the one chunk that streams it. */
  function OneCallAnswer(stop: string, arguments: string): Answer {
    Answer(None, [WireCall(Some("c1"), Some("lookup"), Some(arguments))], Some(stop), Some("m"), NO_USAGE)
  }

  function OneCallPart(stop: string, arguments: string): Signal {
    Part("", [Fragment(0, Some("c1"), Some("lookup"), Some(arguments))], Some(stop), Some(NO_USAGE), Some("m"))
  }

  lemma OneCallStreams(codec: Codec, stop: string, arguments: string)
    ensures Streams(codec, OneCallAnswer(stop, arguments), [0], [], OneCallPart(stop, arguments), [])
  {
    var f := Fragment(0, Some("c1"), Some("lookup"), Some(arguments));
    OneFragment(f);
    assert [] + [f] == [f];
  }

  lemma OneFragment(f: Fragment)
    requires f.index == 0 && f.id.Some? && f.name.Some? && f.arguments.Some?
    ensures Spell([f], [0], [WireCall(f.id, f.name, f.arguments)])
  {
    hide Speaks, Spelled;
    var fs: seq<Fragment> := [f];
    assert fs[..0] == [];
    forall i: nat
      ensures Own(fs, i) == if i == 0 then [] + [f] else []
    {
      assert Own(fs[..0], i) == [];
    }
    SpelledSnoc([], f);
    SpelledNothing();
    assert "" + f.arguments.value == f.arguments.value;
  }

  lemma SpelledNothing()
    ensures !Speaks([]) && LastId([]) == "" && LastName([]) == "" && AllArguments([]) == ""
  {
  }

  /** A call is lost when its answer says that it stopped for another reason. */
  lemma {:induction false} CallIsLost(codec: Codec, rm: string)
    ensures var answer, part := OneCallAnswer("stop", "{}"), OneCallPart("stop", "{}");
            && Streams(codec, answer, [0], [], part, [])
            && !Conveys(FoldAll(codec, rm, START, [] + [part] + [] + [Finished]), AnswerMeaning(codec, rm, answer))
  {
    hide Conveys, FoldAll, Streams;
    OneCallStreams(codec, "stop", "{}");
    StreamedEqualsWholeIff(codec, rm, OneCallAnswer("stop", "{}"), [0], [], OneCallPart("stop", "{}"), []);
  }

  /** Arguments that do not parse are an error when streamed, and the empty object when sent whole. */
  lemma BadArgumentsDiffer(codec: Codec, rm: string, arguments: string)
    requires codec.parse(arguments).None?
    ensures var answer, part := OneCallAnswer(TOOL_CALLS, arguments), OneCallPart(TOOL_CALLS, arguments);
            && Streams(codec, answer, [0], [], part, [])
            && !Conveys(FoldAll(codec, rm, START, [] + [part] + [] + [Finished]), AnswerMeaning(codec, rm, answer))
  {
    hide Conveys, FoldAll, Streams;
    var answer := OneCallAnswer(TOOL_CALLS, arguments);
    OneCallStreams(codec, TOOL_CALLS, arguments);
    StreamedEqualsWholeIff(codec, rm, answer, [0], [], OneCallPart(TOOL_CALLS, arguments), []);
    assert answer.calls[0] in answer.calls && !Parses(codec, answer.calls[0]);
  }

  // ------------------------------------------------------------------ from bytes

  function JsonOfFragment(f: Fragment): Json {
    Obj(map["index" := Num(f.index), "id" := OptStr(f.id),
            "function" := Obj(map["name" := OptStr(f.name), "arguments" := OptStr(f.arguments)])])
  }

  function JsonOfFragments(fs: seq<Fragment>): seq<Json> {
    if fs == [] then [] else [JsonOfFragment(fs[0])] + JsonOfFragments(fs[1..])
  }

  function JsonOfDelta(part: Signal): Json
    requires part.Part?
  {
    Obj(map["content" := if part.text == "" then Null else Str(part.text),
            "tool_calls" := if part.fragments == [] then Null else Arr(JsonOfFragments(part.fragments))])
  }

  /** A chunk that holds at least the fields of a part, with others beside them at any depth. */
  predicate Writes(json: Json, part: Signal)
    requires part.Part?
  {
    && (|| (part.text == "" && part.fragments == [] && part.stop.None? && json.At("choices") == Arr([]))
        || (Holds(json.At("choices"),
                  Arr([Obj(map["delta" := JsonOfDelta(part), "finish_reason" := OptStr(part.stop)])]))))
    && json.At("model") == OptStr(part.model)
    && (json.Has("usage") <==> part.usage.Some?)
    && (part.usage.Some? ==>
          && json.At("usage").At("prompt_tokens") == OptNum(part.usage.value.input)
          && json.At("usage").At("completion_tokens") == OptNum(part.usage.value.output))
  }

  /** A part a vendor can put on the wire: numbers in range. */
  predicate OnWire(part: Signal)
    requires part.Part?
  {
    && (forall i :: 0 <= i < |part.fragments| ==> part.fragments[i].index < 0x8000_0000_0000_0000)
    && (part.usage.Some? ==> InU32(part.usage.value.input) && InU32(part.usage.value.output))
  }

  lemma FragmentComesBack(json: Json, f: Fragment)
    requires f.index < 0x8000_0000_0000_0000 && Holds(json, JsonOfFragment(f))
    ensures FragmentOf(json) == f
  {
    hide Holds;
    var least := JsonOfFragment(f);
    FieldHeld(json, least, "index");
    FieldHeld(json, least, "id");
    FieldHeld(json, least, "function");
    FieldHeld(json.At("function"), least.At("function"), "name");
    FieldHeld(json.At("function"), least.At("function"), "arguments");
    LeafHeld(json.At("index"), Num(f.index));
    LeafHeld(json.At("id"), OptStr(f.id));
    LeafHeld(json.At("function").At("name"), OptStr(f.name));
    LeafHeld(json.At("function").At("arguments"), OptStr(f.arguments));
  }

  lemma {:induction false} FragmentsComeBack(items: seq<Json>, fs: seq<Fragment>)
    requires forall i :: 0 <= i < |fs| ==> fs[i].index < 0x8000_0000_0000_0000
    requires |items| == |fs| && |JsonOfFragments(fs)| == |fs|
    requires forall i :: 0 <= i < |fs| ==> Holds(items[i], JsonOfFragments(fs)[i])
    ensures FragmentsOf(items) == fs
  {
    if fs != [] {
      hide JsonOfFragment, FragmentOf, Holds;
      var least := JsonOfFragments(fs);
      assert least[1..] == JsonOfFragments(fs[1..]);
      assert Holds(items[0], least[0]);
      FragmentComesBack(items[0], fs[0]);
      forall i | 0 <= i < |fs| - 1
        ensures Holds(items[1..][i], JsonOfFragments(fs[1..])[i])
      {
        assert Holds(items[i + 1], least[i + 1]);
      }
      FragmentsComeBack(items[1..], fs[1..]);
    }
  }

  lemma {:induction false} OneJsonEach(fs: seq<Fragment>)
    ensures |JsonOfFragments(fs)| == |fs|
  {
    if fs != [] { OneJsonEach(fs[1..]); }
  }

  lemma NumbersComeBack(n: Option<int>)
    requires InU32(n)
    ensures OptNum(n).AsU32() == n
  {
  }

  lemma ItemsHeld(json: Json, items: seq<Json>)
    requires Holds(json, Arr(items))
    ensures json.Arr? && |json.items| == |items| && forall i :: 0 <= i < |items| ==> Holds(json.items[i], items[i])
  {
  }

  lemma ChoiceComesBack(choice: Json, part: Signal)
    requires part.Part? && OnWire(part)
    requires Holds(choice, Obj(map["delta" := JsonOfDelta(part), "finish_reason" := OptStr(part.stop)]))
    ensures choice.At("finish_reason") == OptStr(part.stop)
    ensures OrEmpty(choice.At("delta").At("content").AsStr()) == part.text
    ensures var calls := choice.At("delta").At("tool_calls");
            (if calls.Arr? then FragmentsOf(calls.items) else []) == part.fragments
  {
    hide Holds, JsonOfFragments, FragmentsOf;
    var least := Obj(map["delta" := JsonOfDelta(part), "finish_reason" := OptStr(part.stop)]);
    var delta := JsonOfDelta(part);
    FieldHeld(choice, least, "delta");
    FieldHeld(choice, least, "finish_reason");
    LeafHeld(choice.At("finish_reason"), OptStr(part.stop));
    FieldHeld(choice.At("delta"), delta, "content");
    FieldHeld(choice.At("delta"), delta, "tool_calls");
    LeafHeld(choice.At("delta").At("content"), delta.At("content"));
    OneJsonEach(part.fragments);
    if part.fragments != [] {
      ItemsHeld(choice.At("delta").At("tool_calls"), JsonOfFragments(part.fragments));
      FragmentsComeBack(choice.At("delta").At("tool_calls").items, part.fragments);
    } else {
      LeafHeld(choice.At("delta").At("tool_calls"), Null);
    }
  }

  lemma PartComesBack(json: Json, part: Signal)
    requires part.Part? && OnWire(part) && Writes(json, part)
    ensures DecodeChunk(json) == part
  {
    hide Holds, JsonOfDelta, FragmentsOf;
    if part.usage.Some? {
      NumbersComeBack(part.usage.value.input);
      NumbersComeBack(part.usage.value.output);
    }
    if json.At("choices") != Arr([]) {
      var choices := [Obj(map["delta" := JsonOfDelta(part), "finish_reason" := OptStr(part.stop)])];
      ItemsHeld(json.At("choices"), choices);
      ChoiceComesBack(json.At("choices").items[0], part);
    } else {
      NoChoice(json, part);
    }
  }

  lemma NoChoice(json: Json, part: Signal)
    requires part.Part? && Writes(json, part) && json.At("choices") == Arr([])
    ensures part.text == "" && part.fragments == [] && part.stop.None?
  {
  }

  /** A frame that holds the fields of a chunk carries it, whatever other fields it has at any depth. */
  lemma {:induction false} SignalComesBack(codec: Codec, frame: Frame, part: Signal)
    requires part.Part? && OnWire(part) && Trim(frame.data) != DONE
    requires codec.parse(frame.data).Some? && Writes(codec.parse(frame.data).value, part)
    ensures DecodeFrame(codec, frame) == part
  {
    hide DecodeChunk, Writes, OnWire, Trim;
    PartComesBack(codec.parse(frame.data).value, part);
  }

  /** What the adapter makes of the items of a frame stream. */
  function EventsOf(codec: Codec, rm: string, st: State, items: seq<Item>): seq<Event>
    decreases |items|
  {
    if items == [] then []
    else if items[0].Err? then [Err(items[0].error)] + EventsOf(codec, rm, st, items[1..])
    else
      var signal := DecodeFrame(codec, items[0].value);
      Sent(codec, rm, st, signal) + EventsOf(codec, rm, Next(st, signal), items[1..])
  }

  /** The items carry exactly these signals, frame by frame, whatever else the frames hold. */
  predicate Frames(codec: Codec, items: seq<Item>, signals: seq<Signal>) {
    && |items| == |signals|
    && forall i :: 0 <= i < |items| ==> items[i].Ok? && DecodeFrame(codec, items[i].value) == signals[i]
  }

  lemma {:induction false} EventsOfFrames(codec: Codec, rm: string, st: State, items: seq<Item>, signals: seq<Signal>)
    requires Frames(codec, items, signals)
    ensures EventsOf(codec, rm, st, items) == FoldAll(codec, rm, st, signals)
    decreases |items|
  {
    if items != [] {
      hide DecodeFrame, Sent, Next;
      EventsOfFrames(codec, rm, Next(st, signals[0]), items[1..], signals[1..]);
    }
  }

  /**
   * The same from bytes: an answer sent as an event stream, with any interleaving of its fragments, any
   * heartbeats and any chunking, conveys what the whole answer means exactly under that condition.
   */
  lemma {:induction false} BytesConveyAnswerIff(codec: Codec, rm: string, answer: Answer, ks: seq<nat>,
                                                before: seq<Signal>, last: Signal, after: seq<Signal>,
                                                blocks: seq<SseRoundTrip.Block>, t: SseRoundTrip.Terminator,
                                                body: seq<BodyItem>)
    requires Streams(codec, answer, ks, before, last, after)
    requires Frames(codec, SseRoundTrip.Events(blocks), before + [last] + after + [Finished])
    requires SseRoundTrip.AllPrintable(blocks)
    requires Bytes(body) == SseRoundTrip.Print(blocks, t) && forall i :: 0 <= i < |body| ==> body[i].Chunk?
    ensures Conveys(EventsOf(codec, rm, START, Deliver(Extract(body, ""))), AnswerMeaning(codec, rm, answer))
       <==> if answer.stop == Some(TOOL_CALLS) then forall call <- answer.calls :: Parses(codec, call)
         else answer.calls == []
  {
    hide Streams, Frames, Conveys, AnswerMeaning, SseRoundTrip.AllPrintable, Deliver, Extract, EventsOf, FoldAll;
    SseRoundTrip.RoundTrip(blocks, t, body);
    NoReadFailures(body, "");
    NothingToFilter(Extract(body, ""));
    EventsOfFrames(codec, rm, START, SseRoundTrip.Events(blocks), before + [last] + after + [Finished]);
    StreamedEqualsWholeIff(codec, rm, answer, ks, before, last, after);
  }

  // ------------------------------------------------------------------ words and errors

  /** Each finish reason of the vendor has its own; any other word has none. */
  lemma StopWords(stop: string)
    ensures FinishFor("stop") == Stop && FinishFor("length") == Length
    ensures FinishFor("tool_calls") == FinishReason.ToolUse
    ensures stop !in {"stop", "length", "tool_calls"} ==> FinishFor(stop) == Other
  {
  }

  /**
   * A call of a whole answer: skipped if it has no id or no name; else with its arguments, the empty object
   * if they are not JSON, and the JSON of an empty object if there are none.
   */
  lemma {:induction false} CallOfAnswer(codec: Codec, calls: seq<WireCall>, k: nat)
    requires k < |calls|
    ensures var (all, before, upto) :=
              (WireMeanings(codec, calls), WireMeanings(codec, calls[..k]), WireMeanings(codec, calls[..k + 1]));
            && before <= upto <= all
            && match calls[k]
               case WireCall(Some(id), Some(name), arguments) =>
                 && |upto| == |before| + 1 && upto[|before|].id == id && upto[|before|].name == name
                 && var json := codec.parse(if arguments.Some? then arguments.value else "{}");
                    upto[|before|].arguments == if json.Some? then json.value else Obj(map[])
               case _ => upto == before
  {
    var n := |calls| - 1;
    if k < n {
      CallOfAnswer(codec, calls[..n], k);
      assert calls[..n][..k] == calls[..k] && calls[..n][..k + 1] == calls[..k + 1];
    } else {
      assert calls[..k + 1] == calls;
    }
  }

  /** A frame that is not JSON, and arguments that are not, are errors that trying again cannot help. */
  lemma GarbledIsFatal(codec: Codec, rm: string, st: State, acc: Accum)
    ensures Sent(codec, rm, st, Garbled) == [Err(ProviderError(InvalidRequest, false))] && Next(st, Garbled) == st
    ensures codec.parse(acc.arguments).None? ==> CallEvent(codec, acc) == Err(ProviderError(InvalidRequest, false))
  {
  }
}
