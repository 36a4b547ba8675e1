/**
 * The layers joined: what a vendor sends as bytes, relayed by either task, becomes the reply that the
 * same answer means when it is sent whole.
 */
module Pipeline {
  import opened Text
  import opened Contract
  import Anthropic
  import OpenAi
  import Gemini
  import Sse
  import SseRoundTrip
  import StreamTask
  import Generate

  // ------------------------------------------------------------------ one vendor stream, relayed

  /** The result of a completed answer, as the tasks send it on. */
  function ResultOf(provider: string, c: ChatCompletion): StreamTask.CallResult {
    StreamTask.CallResult(c.content, provider, c.model, c.usage, c.finish, c.toolCalls)
  }

  lemma {:induction false} RelayedTexts(events: seq<Anthropic.Event>, k: nat)
    requires k <= |events| && forall j :: 0 <= j < k ==> StreamTask.IsPlain(events[j])
    ensures StreamTask.Deltas(StreamTask.RelayUpTo(events, k)) == DeltaTexts(events[..k])
    ensures StreamTask.Tools(StreamTask.RelayUpTo(events, k)) == CallsOf(events[..k])
  {
    hide DeltaTexts, CallsOf, StreamTask.Deltas, StreamTask.Tools;
    if k == 0 {
      NoEvents();
      StreamTask.Nothing();
    } else {
      RelayedTexts(events, k - 1);
      assert events[..k] == events[..k - 1] + [events[k - 1]];
      EventsAppend(events[..k - 1], [events[k - 1]]);
      StreamTask.Snoc(StreamTask.RelayUpTo(events, k - 1), StreamTask.Convert(events[k - 1]));
      OneEvent(events[k - 1]);
    }
  }

  lemma OneEvent(event: Anthropic.Event)
    requires StreamTask.IsPlain(event)
    ensures DeltaTexts([event]) == if event.value.Delta? then [event.value.text] else []
    ensures CallsOf([event]) == if event.value.Tool? then [event.value.call] else []
  {
    EventsFirst([event]);
    NoEvents();
    assert [event][1..] == [];
  }

  lemma ConveysStops(events: seq<Anthropic.Event>, c: ChatCompletion)
    requires Anthropic.Conveys(events, c)
    ensures events != [] && StreamTask.StopAt(events) == |events| - 1
    ensures forall j :: 0 <= j < |events| - 1 ==> StreamTask.IsPlain(events[j])
  {
    hide DeltaTexts, CallsOf, Concat, StreamTask.StopAt;
    var front := events[..|events| - 1];
    forall j | 0 <= j < |events| - 1
      ensures StreamTask.IsPlain(events[j])
    {
      assert front[j] == events[j];
    }
    assert !StreamTask.IsPlain(events[|events| - 1]);
  }

  /** An answer conveyed by a vendor stream is relayed whole: its text, its calls, and its result to end with. */
  lemma RelayConveys(events: seq<Anthropic.Event>, c: ChatCompletion)
    requires Anthropic.Conveys(events, c)
    ensures var open := StreamTask.Opened(events);
            && !StreamTask.EndsSilently(open) && StreamTask.Ending(open) == Ok(Done(c.usage, c.model, c.finish))
            && Concat(StreamTask.Deltas(StreamTask.Relay(open))) == c.content
            && StreamTask.Tools(StreamTask.Relay(open)) == c.toolCalls
  {
    hide StreamTask.StopAt, StreamTask.Deltas, StreamTask.Tools, StreamTask.RelayUpTo, DeltaTexts, CallsOf, Concat;
    ConveysStops(events, c);
    var n := |events| - 1;
    RelayedTexts(events, n);
    assert events == events[..n] + [events[n]];
    EventsAppend(events[..n], [events[n]]);
    DoneSaysNothing(events[n]);
    assert DeltaTexts(events[..n]) + [] == DeltaTexts(events[..n]) && CallsOf(events[..n]) + [] == CallsOf(events[..n]);
  }

  lemma DoneSaysNothing(event: Anthropic.Event)
    requires event.Ok? && event.value.Done?
    ensures DeltaTexts([event]) == [] && CallsOf([event]) == []
  {
    EventsFirst([event]);
    NoEvents();
    assert [event][1..] == [];
  }

  /** What the fixed-provider task sends of such a stream. */
  lemma FixedConveys(attempt: StreamTask.Attempt, events: seq<Anthropic.Event>, c: ChatCompletion)
    requires Anthropic.Conveys(events, c)
    ensures var t := StreamTask.OverrideTranscript(attempt, true, StreamTask.Opened(events));
            && t != [] && t[|t| - 1] == StreamTask.AiDone(ResultOf(attempt.provider, c))
            && Concat(StreamTask.Deltas(t)) == c.content && StreamTask.Tools(t) == c.toolCalls
  {
    hide Anthropic.Conveys, StreamTask.Relay, StreamTask.EndsSilently, StreamTask.Ending, Concat;
    hide StreamTask.Deltas, StreamTask.Tools;
    RelayConveys(events, c);
    var open := StreamTask.Opened(events);
    var closing := StreamTask.ClosingOf(attempt, open, StreamTask.Relay(open));
    assert closing == [StreamTask.AiDone(ResultOf(attempt.provider, c))];
    StreamTask.ClosingDeltas(closing);
    StreamTask.Append(StreamTask.Relay(open), closing);
    var deltas, tools := StreamTask.Deltas(StreamTask.Relay(open)), StreamTask.Tools(StreamTask.Relay(open));
    assert deltas + [] == deltas && tools + [] == tools;
  }

  /** What the failover task sends when its first stream conveys the answer. */
  lemma {:induction false} FailoverConveys(w: StreamTask.World, at: (nat, nat), events: seq<Anthropic.Event>,
                                           c: ChatCompletion)
    requires Anthropic.Conveys(events, c) && w.Path([at]) && w.Open(at) == StreamTask.Opened(events)
    ensures w.Ended([at])
    ensures var t := w.Transcript([at]);
            && t != [] && t[|t| - 1] == StreamTask.AiDone(ResultOf(w.attempts[at.0].provider, c))
            && Concat(StreamTask.Deltas(t)) == c.content && StreamTask.Tools(t) == c.toolCalls
  {
    hide Anthropic.Conveys, StreamTask.Relay, StreamTask.EndsSilently, StreamTask.Ending, Concat;
    hide StreamTask.Deltas, StreamTask.Tools, StreamTask.World.NextKnown;
    RelayConveys(events, c);
    var open := StreamTask.Opened(events);
    var opens: seq<(nat, nat)> := [at];
    assert opens[..0] == [] && w.Relayed([]) == [];
    assert w.Relayed(opens) == [] + StreamTask.Relay(open) == StreamTask.Relay(open);
    assert !w.Undecided(at);
    assert w.Closing(opens) == StreamTask.ClosingOf(w.attempts[at.0], open, StreamTask.Relay(open));
    var closing := w.Closing(opens);
    assert closing == [StreamTask.AiDone(ResultOf(w.attempts[at.0].provider, c))];
    StreamTask.ClosingDeltas(closing);
    StreamTask.Append(StreamTask.Relay(open), closing);
    var deltas, tools := StreamTask.Deltas(StreamTask.Relay(open)), StreamTask.Tools(StreamTask.Relay(open));
    assert deltas + [] == deltas && tools + [] == tools;
  }

  // ------------------------------------------------------------------ the reply made of it

  /** The stream sends an answer: its text in deltas, its calls, and then the result that says both again. */
  ghost predicate SendsWhole(t: seq<StreamTask.AiEvent>, provider: string, c: ChatCompletion) {
    && t != [] && t[|t| - 1] == StreamTask.AiDone(ResultOf(provider, c)) && StreamTask.OnlyLastTerminal(t)
    && Concat(StreamTask.Deltas(t)) == c.content && StreamTask.Tools(t) == c.toolCalls
  }

  /** In time for the first attempt, and never superseded while its stream is read. */
  ghost predicate Undisturbed(s: Generate.Script) {
    !s.expired(0) && forall j: nat :: s.checks(0, j).Reason().None?
  }

  /** The reply an answer stands for; an answer without text and without calls is an error. */
  function ReplyTo(provider: string, c: ChatCompletion): Result<Generate.Output, Generate.GenerateError> {
    var meta := Generate.Meta(provider, c.model, c.usage, c.finish.Length?);
    if Blank(c.content) && c.toolCalls == [] then Generate.FailedWith(InvalidRequest, meta)
    else Ok(Generate.Output(c.content, meta, false, c.toolCalls))
  }

  lemma TakesWhole(s: Generate.Script, t: seq<StreamTask.AiEvent>, provider: string, c: ChatCompletion)
    requires SendsWhole(t, provider, c) && Undisturbed(s)
    ensures Generate.Taken(s, 0, t) == (|t|, Generate.Finished)
  {
    hide StreamTask.Deltas, StreamTask.Tools, Concat;
    forall i | 0 <= i < |t|
      ensures Generate.EndAt(t[i], s.checks(0, i)).None?
    {
      assert i < |t| - 1 ==> !t[i].Terminal();
    }
    hide Generate.EndAt;
    Generate.TakenIsFirst(s, 0, t, 0);
  }

  lemma WholeRepeats(t: seq<StreamTask.AiEvent>, provider: string, c: ChatCompletion)
    requires SendsWhole(t, provider, c)
    ensures Generate.Calls(t) == c.toolCalls
    ensures Generate.MetaOf(t) == Generate.Meta(provider, c.model, c.usage, c.finish.Length?)
  {
    hide StreamTask.Deltas, StreamTask.Tools, Generate.Calls, Concat;
    var n := |t| - 1;
    forall i | 0 <= i < |t| && t[i].AiDone?
      ensures t[i].result.toolCalls == StreamTask.Tools(t[..i])
    {
      assert t[i].Terminal() && i == n;
      assert t == t[..n] + [t[n]];
      StreamTask.Snoc(t[..n], t[n]);
      assert StreamTask.Tools(t[..n]) + [] == StreamTask.Tools(t[..n]);
    }
    Generate.NoCalls();
    StreamTask.Nothing();
    Generate.RepeatsAppend([], t);
    assert [] + t == t;
  }

  lemma OneRoundOnly(s: Generate.Script, base: seq<Generate.Message>, log: seq<Generate.Round>,
                     result: Result<Generate.Output, Generate.GenerateError>, t: seq<StreamTask.AiEvent>)
    requires Generate.Concluded(s, base, log, result) && !s.expired(0) && s.streams(0) == Generate.Streaming(t)
    requires Generate.Taken(s, 0, t) == (|t|, Generate.Finished)
    ensures log == [Generate.Round(base, t)] && result == Generate.Reply(log)
  {
    hide Generate.Taken, Generate.Reply, Generate.MetaOf, Generate.Calls, Generate.TextOf, Blank;
    assert Generate.EndOf(s, 0) == Generate.Finished;
    assert log != [];
    assert Generate.RoundIs(s, base, log, 0);
    assert |log| == 1;
    assert log[..0] == [] && Generate.Received([]) == [];
    StartsBlank(base);
    assert t[..|t|] == t;
  }

  lemma StartsBlank(base: seq<Generate.Message>)
    ensures base + Generate.Continuation(Generate.TextOf([])) == base
  {
    StreamTask.Nothing();
    Generate.EmptyIsBlank();
    assert Concat([]) == "";
    assert base + [] == base;
  }

  /** A generation whose first stream sends an answer, and is not disturbed, replies with that answer. */
  lemma StreamToReply(s: Generate.Script, base: seq<Generate.Message>, log: seq<Generate.Round>,
                      result: Result<Generate.Output, Generate.GenerateError>,
                      t: seq<StreamTask.AiEvent>, provider: string, c: ChatCompletion)
    requires SendsWhole(t, provider, c) && Undisturbed(s) && s.streams(0) == Generate.Streaming(t)
    requires Generate.Concluded(s, base, log, result)
    ensures result == ReplyTo(provider, c)
  {
    hide Generate.Taken, Generate.Concluded, Generate.MetaOf, Generate.Calls, StreamTask.Deltas, StreamTask.Tools;
    hide Blank, Concat, Undisturbed;
    TakesWhole(s, t, provider, c);
    WholeRepeats(t, provider, c);
    InTime(s);
    OneRoundOnly(s, base, log, result, t);
    assert log[..0] == [] && Generate.Received([]) == [] && Generate.Received(log) == [] + t == t;
    StreamTask.Nothing();
  }

  lemma InTime(s: Generate.Script)
    requires Undisturbed(s)
    ensures !s.expired(0)
  {
  }

  /** Either task, on a vendor stream that conveys the answer. */
  ghost predicate Relays(served: Generate.Served, events: seq<Anthropic.Event>, provider: string) {
    && served.Valid()
    && match served
       case Fixed(attempt, known, open) => known && open == StreamTask.Opened(events) && provider == attempt.provider
       case Failover(w, opens) =>
         |opens| == 1 && w.Open(opens[0]) == StreamTask.Opened(events) && provider == w.attempts[opens[0].0].provider
  }

  lemma RelaysWhole(served: Generate.Served, events: seq<Anthropic.Event>, provider: string, c: ChatCompletion)
    requires Relays(served, events, provider) && Anthropic.Conveys(events, c)
    ensures SendsWhole(served.Stream(), provider, c)
  {
    hide Anthropic.Conveys, StreamTask.Deltas, StreamTask.Tools, Concat, StreamTask.OverrideTranscript;
    hide StreamTask.World.Transcript, StreamTask.Truncated, StreamTask.OnlyLastTerminal;
    Generate.StreamIsSafe(served);
    match served {
      case Fixed(attempt, _, _) => FixedConveys(attempt, events, c);
      case Failover(w, opens) =>
        assert opens == [opens[0]];
        FailoverConveys(w, opens[0], events, c);
    }
  }

  /** From a vendor stream that conveys an answer to the reply that answer stands for. */
  lemma EventsToReply(s: Generate.Script, base: seq<Generate.Message>, log: seq<Generate.Round>,
                      result: Result<Generate.Output, Generate.GenerateError>, served: Generate.Served,
                      events: seq<Anthropic.Event>, provider: string, c: ChatCompletion)
    requires Anthropic.Conveys(events, c) && Relays(served, events, provider)
    requires Undisturbed(s) && s.streams(0) == Generate.Streaming(served.Stream())
    requires Generate.Concluded(s, base, log, result)
    ensures result == ReplyTo(provider, c)
  {
    hide Anthropic.Conveys, SendsWhole, Undisturbed, Generate.Concluded, ReplyTo;
    RelaysWhole(served, events, provider, c);
    StreamToReply(s, base, log, result, served.Stream(), provider, c);
  }

  // ------------------------------------------------------------------ from bytes to reply

  /** The body is the print of these blocks, in any chunking, read to its end without a failure. */
  ghost predicate Arrives(body: seq<Sse.BodyItem>, blocks: seq<SseRoundTrip.Block>, t: SseRoundTrip.Terminator) {
    && SseRoundTrip.AllPrintable(blocks) && Sse.Bytes(body) == SseRoundTrip.Print(blocks, t)
    && forall i :: 0 <= i < |body| ==> body[i].Chunk?
  }

  function Items(body: seq<Sse.BodyItem>): seq<Sse.Item> {
    Sse.Deliver(Sse.Extract(body, ""))
  }

  /**
   * The reply to a message that Anthropic streams, in any split, with any pings, heartbeats and chunking,
   * over either task, is the reply to the same message sent whole.
   */
  lemma {:induction false} AnthropicBytesToReply(
    codec: Anthropic.Codec, message: Anthropic.Message, splits: seq<seq<string>>, signals: seq<Anthropic.Signal>,
    blocks: seq<SseRoundTrip.Block>, t: SseRoundTrip.Terminator, body: seq<Sse.BodyItem>,
    s: Generate.Script, base: seq<Generate.Message>, log: seq<Generate.Round>,
    result: Result<Generate.Output, Generate.GenerateError>, served: Generate.Served, provider: string)
    requires |splits| == |message.content|
    requires forall i :: 0 <= i < |message.content| ==> Anthropic.Splits(codec, message.content[i], splits[i])
    requires Anthropic.Relevant(signals) == Anthropic.Relevant(Anthropic.MessageSignals(message, splits))
    requires Anthropic.Carries(codec, SseRoundTrip.Events(blocks), signals) && Arrives(body, blocks, t)
    requires Relays(served, Anthropic.Events(codec, Anthropic.INITIAL, Items(body)), provider)
    requires Undisturbed(s) && s.streams(0) == Generate.Streaming(served.Stream())
    requires Generate.Concluded(s, base, log, result)
    ensures result == ReplyTo(provider, Anthropic.Meaning(message))
  {
    hide Anthropic.Conveys, Relays, Undisturbed, Generate.Concluded, ReplyTo, Anthropic.Carries, Anthropic.Splits;
    hide Anthropic.Events, Anthropic.Meaning, Anthropic.MessageSignals, Anthropic.Relevant, SseRoundTrip.AllPrintable;
    Anthropic.BytesConveyMessage(codec, message, splits, signals, blocks, t, body);
    EventsToReply(s, base, log, result, served, Anthropic.Events(codec, Anthropic.INITIAL, Items(body)), provider,
                  Anthropic.Meaning(message));
  }

  /** The same for OpenAI, under the condition on which its stream conveys the answer. */
  lemma {:induction false} OpenAiBytesToReply(
    codec: Anthropic.Codec, rm: string, answer: OpenAi.Answer, ks: seq<nat>,
    before: seq<OpenAi.Signal>, last: OpenAi.Signal, after: seq<OpenAi.Signal>,
    blocks: seq<SseRoundTrip.Block>, t: SseRoundTrip.Terminator, body: seq<Sse.BodyItem>,
    s: Generate.Script, base: seq<Generate.Message>, log: seq<Generate.Round>,
    result: Result<Generate.Output, Generate.GenerateError>, served: Generate.Served, provider: string)
    requires OpenAi.Streams(codec, answer, ks, before, last, after)
    requires if answer.stop == Some(OpenAi.TOOL_CALLS) then forall call <- answer.calls :: OpenAi.Parses(codec, call)
             else answer.calls == []
    requires OpenAi.Frames(codec, SseRoundTrip.Events(blocks), before + [last] + after + [OpenAi.Finished])
    requires Arrives(body, blocks, t)
    requires Relays(served, OpenAi.EventsOf(codec, rm, OpenAi.START, Items(body)), provider)
    requires Undisturbed(s) && s.streams(0) == Generate.Streaming(served.Stream())
    requires Generate.Concluded(s, base, log, result)
    ensures result == ReplyTo(provider, OpenAi.AnswerMeaning(codec, rm, answer))
  {
    hide Anthropic.Conveys, Relays, Undisturbed, Generate.Concluded, ReplyTo, OpenAi.Streams, OpenAi.Frames;
    hide OpenAi.EventsOf, OpenAi.AnswerMeaning, OpenAi.Parses, SseRoundTrip.AllPrintable;
    OpenAi.BytesConveyAnswerIff(codec, rm, answer, ks, before, last, after, blocks, t, body);
    EventsToReply(s, base, log, result, served, OpenAi.EventsOf(codec, rm, OpenAi.START, Items(body)), provider,
                  OpenAi.AnswerMeaning(codec, rm, answer));
  }

  /** The same for Gemini, under the condition on which its stream conveys the response. */
  lemma {:induction false} GeminiBytesToReply(
    codec: Anthropic.Codec, model: string, chunks: seq<Gemini.Chunk>, whole: Gemini.Whole,
    blocks: seq<SseRoundTrip.Block>, t: SseRoundTrip.Terminator, body: seq<Sse.BodyItem>,
    s: Generate.Script, base: seq<Generate.Message>, log: seq<Generate.Round>,
    result: Result<Generate.Output, Generate.GenerateError>, served: Generate.Served, provider: string)
    requires Gemini.Streams(chunks, whole) && Gemini.CallsFirst(chunks, 0)
    requires Gemini.Carries(codec, SseRoundTrip.Events(blocks), chunks) && Arrives(body, blocks, t)
    requires Relays(served, Gemini.ItemEvents(codec, model, None, Items(body)), provider)
    requires Undisturbed(s) && s.streams(0) == Generate.Streaming(served.Stream())
    requires Generate.Concluded(s, base, log, result)
    ensures result == ReplyTo(provider, Gemini.WholeMeaning(model, whole))
  {
    hide Anthropic.Conveys, Relays, Undisturbed, Generate.Concluded, ReplyTo, Gemini.Streams, Gemini.Carries;
    hide Gemini.ItemEvents, Gemini.WholeMeaning, Gemini.CallsFirst, SseRoundTrip.AllPrintable;
    Gemini.BytesConveyWholeIff(codec, model, chunks, whole, blocks, t, body);
    EventsToReply(s, base, log, result, served, Gemini.ItemEvents(codec, model, None, Items(body)), provider,
                  Gemini.WholeMeaning(model, whole));
  }
}
