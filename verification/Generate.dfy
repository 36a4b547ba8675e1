/**
 * Producing one reply from up to three streams: partial answers are stitched together with
 * continuation requests, tool calls are collected, and failures are classified.
 */
module Generate {
  import opened Text
  import opened Contract
  import opened StreamTask

  datatype Role = User | Assistant | ToolResult

  datatype Message = Message(role: Role, content: string, toolCalls: seq<ToolCall>, toolCallId: Option<string>)

  const CONTINUE :=
    "Continue the previous assistant message exactly where it stopped. "
    + "Do not repeat any text already written. Do not add any preamble."

  datatype CallError = NotConfigured | CallFailed(category: ErrorCategory, provider: string, model: string) | Internal

  datatype Reason = NewerMessage | Escalated

  datatype GenerateError = Provider(error: CallError) | Superseded(reason: Reason)

  /** What asking the service for a stream gives. */
  datatype AiOpen = Denied(error: CallError) | Streaming(events: seq<AiEvent>)

  /** A look at the conversation after a delta, at most once a second; a query that fails reads as false. */
  datatype Check = NotDue | Checked(newer: bool, escalated: bool) {
    function Reason(): Option<Reason> {
      if NotDue? then None else if newer then Some(NewerMessage) else if escalated then Some(Escalated) else None
    }
  }

  /** The outside world: the stream, the deadline and the checks of each attempt. */
  datatype Script = Script(streams: nat -> AiOpen, expired: nat -> bool, checks: (nat, nat) -> Check)

  /** What the last result seen says about the reply. */
  datatype Meta = Meta(provider: string, model: string, usage: TokenUsage, finishLength: bool)

  const NO_META := Meta("", "", TokenUsage(None, None), false)

  datatype Output = Output(content: string, meta: Meta, continuationUsed: bool, toolCalls: seq<ToolCall>)

  /** One stream: the messages it was asked with and the events taken from it. */
  datatype Round = Round(request: seq<Message>, consumed: seq<AiEvent>)

  // ------------------------------------------------------------------ what the rounds say

  /** Every event taken, over all rounds, in order. */
  function Received(log: seq<Round>): seq<AiEvent> {
    if log == [] then [] else Received(log[..|log| - 1]) + log[|log| - 1].consumed
  }

  function TextOf(events: seq<AiEvent>): string {
    Concat(Deltas(events))
  }

  /** The calls collected: every call event, and a result's own list only when nothing came before it. */
  function Calls(events: seq<AiEvent>): seq<ToolCall> {
    if events == [] then []
    else
      var before := Calls(events[..|events| - 1]);
      match events[|events| - 1]
      case AiTool(call) => before + [call]
      case AiDone(result) => if before == [] then result.toolCalls else before
      case _ => before
  }

  function MetaOf(events: seq<AiEvent>): Meta {
    if events == [] then NO_META
    else
      match events[|events| - 1]
      case AiDone(r) => Meta(r.provider, r.model, r.usage, r.finish.Length?)
      case _ => MetaOf(events[..|events| - 1])
  }

  /** What a request carries beyond the conversation: the text received so far, unless it is blank. */
  function Continuation(text: string): seq<Message> {
    if Blank(text) then []
    else [Message(Assistant, text, [], None), Message(User, CONTINUE, [], None)]
  }

  datatype End = Finished | Broken(category: ErrorCategory) | Cut(reason: Reason)

  /** How an event ends its round, if it does. */
  function EndAt(event: AiEvent, check: Check): Option<End> {
    match event
    case AiError(category) => Some(Broken(category))
    case AiDelta(_) => (match check.Reason() case Some(reason) => Some(Cut(reason)) case None => None)
    case _ => None
  }

  /** How many events of stream `k` are taken, and how its round ends. */
  function Taken(s: Script, k: nat, events: seq<AiEvent>, j: nat := 0): (r: (nat, End))
    requires j <= |events|
    ensures j <= r.0 <= |events|
    decreases |events| - j
  {
    if j == |events| then (j, Finished)
    else
      match EndAt(events[j], s.checks(k, j))
      case Some(end) => (j + 1, end)
      case None => Taken(s, k, events, j + 1)
  }

  predicate MayContinue(end: End) {
    end.Broken? && end.category.Retriable()
  }

  function EndOf(s: Script, k: nat): End {
    match s.streams(k) case Denied(_) => Finished case Streaming(events) => Taken(s, k, events).1
  }

  /** Round `k` of the log is what attempt `k` must have been. */
  predicate RoundIs(s: Script, base: seq<Message>, log: seq<Round>, k: nat)
    requires k < |log|
  {
    && !s.expired(k) && s.streams(k).Streaming?
    && var events := s.streams(k).events;
    && log[k].request == base + Continuation(TextOf(Received(log[..k])))
    && log[k].consumed == events[..Taken(s, k, events).0]
  }

  predicate Explains(s: Script, base: seq<Message>, log: seq<Round>) {
    && |log| <= 3
    && (forall k :: 0 <= k < |log| ==> RoundIs(s, base, log, k))
    && (forall k :: 0 <= k < |log| - 1 ==> MayContinue(EndOf(s, k)))
  }

  function FailedWith(category: ErrorCategory, meta: Meta): Result<Output, GenerateError> {
    Err(Provider(CallFailed(category, meta.provider, meta.model)))
  }

  /** The answer to a log whose last round finished. */
  function Reply(log: seq<Round>): Result<Output, GenerateError>
    requires log != []
  {
    var received := Received(log);
    if Blank(TextOf(received)) && Calls(received) == [] then FailedWith(InvalidRequest, MetaOf(received))
    else Ok(Output(TextOf(received), MetaOf(received), Deltas(Received(log[..|log| - 1])) != [], Calls(received)))
  }

  /** The log explains the result, and generation could not have gone on. */
  predicate Concluded(s: Script, base: seq<Message>, log: seq<Round>, result: Result<Output, GenerateError>) {
    && Explains(s, base, log)
    && var meta := MetaOf(Received(log));
    && var end := if log == [] then Broken(Unavailable) else EndOf(s, |log| - 1);
    && match end
       case Finished => log != [] && result == Reply(log)
       case Cut(reason) => result == Err(Superseded(reason))
       case Broken(category) =>
         if !category.Retriable() || |log| == 3 then result == FailedWith(category, meta)
         else if s.expired(|log|) then result == FailedWith(ErrorCategory.Timeout, meta)
         else s.streams(|log|).Denied? && result == Err(Provider(s.streams(|log|).error))
  }

  // ------------------------------------------------------------------ the loop

  datatype State = State(content: string, meta: Meta, continuationUsed: bool, toolCalls: seq<ToolCall>,
                         lastError: Option<ErrorCategory>)

  /** Between two attempts. */
  ghost predicate Between(s: Script, base: seq<Message>, log: seq<Round>, st: State) {
    && Explains(s, base, log)
    && (log != [] ==> MayContinue(EndOf(s, |log| - 1)))
    && st.lastError == (if log == [] then None else Some(EndOf(s, |log| - 1).category))
    && st.content == TextOf(Received(log)) && st.meta == MetaOf(Received(log)) && st.toolCalls == Calls(Received(log))
    && (st.continuationUsed <==> Deltas(Received(log)) != [])
  }

  /** Inside an attempt, after `j` events. */
  ghost predicate Reading(s: Script, log: seq<Round>, events: seq<AiEvent>, j: nat,
                          st: State, chunk: string, hadPartial: bool)
  {
    && j <= |events|
    && Taken(s, |log|, events) == Taken(s, |log|, events, j)
    && var all := Received(log) + events[..j];
    && st.content == TextOf(Received(log)) && (st.continuationUsed <==> Deltas(Received(log)) != [])
    && chunk == TextOf(events[..j]) && (hadPartial <==> Deltas(events[..j]) != [])
    && st.meta == MetaOf(all) && st.toolCalls == Calls(all)
  }

  lemma StartsReading(s: Script, base: seq<Message>, log: seq<Round>, events: seq<AiEvent>, st: State)
    requires Between(s, base, log, st)
    ensures Reading(s, log, events, 0, st, "", false)
  {
    assert Received(log) + events[..0] == Received(log);
  }

  /** The state after taking one event. */
  function Take(st: State, event: AiEvent): State {
    match event
    case AiTool(call) => st.(toolCalls := st.toolCalls + [call])
    case AiDone(r) =>
      st.(meta := Meta(r.provider, r.model, r.usage, r.finish.Length?),
          toolCalls := if st.toolCalls == [] then st.toolCalls + r.toolCalls else st.toolCalls)
    case AiError(category) => st.(lastError := Some(category))
    case AiDelta(_) => st
  }

  lemma {:induction false} TakesOne(s: Script, log: seq<Round>, events: seq<AiEvent>, j: nat, st: State, chunk: string,
                                    hadPartial: bool)
    requires Reading(s, log, events, j, st, chunk, hadPartial) && j < |events|
    ensures var event := events[j];
            var chunk' := if event.AiDelta? then chunk + event.text else chunk;
            match EndAt(event, s.checks(|log|, j))
            case None => Reading(s, log, events, j + 1, Take(st, event), chunk', hadPartial || event.AiDelta?)
            case Some(end) =>
              && Taken(s, |log|, events) == (j + 1, end)
              && TakenAll(log, events, j + 1, Take(st, event), chunk', hadPartial || event.AiDelta?)
  {
    hide EndAt, MetaOf, Calls, Deltas;
    var event, all := events[j], Received(log) + events[..j];
    assert events[..j + 1] == events[..j] + [event];
    AppendAssoc(Received(log), events[..j], [event]);
    Snoc(events[..j], event);
    TakesCall(all, event, st);
    if event.AiDelta? { ConcatSnoc(Deltas(events[..j]), event.text); }
    assert Deltas(events[..j]) + [] == Deltas(events[..j]);
  }

  lemma TakesCall(all: seq<AiEvent>, event: AiEvent, st: State)
    requires st.meta == MetaOf(all) && st.toolCalls == Calls(all)
    ensures Take(st, event).meta == MetaOf(all + [event]) && Take(st, event).toolCalls == Calls(all + [event])
  {
    assert (all + [event])[..|all|] == all;
    if event.AiDone? { assert [] + event.result.toolCalls == event.result.toolCalls; }
  }

  /** The accumulators after `j` events of the current stream. */
  ghost predicate TakenAll(log: seq<Round>, events: seq<AiEvent>, j: nat, st: State, chunk: string, hadPartial: bool) {
    && j <= |events|
    && var all := Received(log) + events[..j];
    && st.content == TextOf(Received(log)) && (st.continuationUsed <==> Deltas(Received(log)) != [])
    && chunk == TextOf(events[..j]) && (hadPartial <==> Deltas(events[..j]) != [])
    && st.meta == MetaOf(all) && st.toolCalls == Calls(all)
  }

  lemma ReadsAll(s: Script, log: seq<Round>, events: seq<AiEvent>, st: State, chunk: string, hadPartial: bool)
    requires Reading(s, log, events, |events|, st, chunk, hadPartial)
    ensures TakenAll(log, events, |events|, st, chunk, hadPartial) && Taken(s, |log|, events) == (|events|, Finished)
  {
    hide Calls, MetaOf, Deltas;
  }

  lemma RoundKept(s: Script, base: seq<Message>, log: seq<Round>, round: Round, k: nat)
    requires k < |log| && RoundIs(s, base, log, k)
    ensures RoundIs(s, base, log + [round], k)
  {
    hide Taken, TextOf, Received, Continuation;
    assert (log + [round])[..k] == log[..k];
  }

  lemma RoundAdded(s: Script, base: seq<Message>, log: seq<Round>, request: seq<Message>, events: seq<AiEvent>, n: nat)
    requires !s.expired(|log|) && s.streams(|log|) == Streaming(events)
    requires request == base + Continuation(TextOf(Received(log)))
    requires Taken(s, |log|, events).0 == n
    ensures n <= |events| && RoundIs(s, base, log + [Round(request, events[..n])], |log|)
    ensures EndOf(s, |log|) == Taken(s, |log|, events).1
  {
    hide Taken, TextOf, Received, Continuation;
    assert n <= |events|;
    assert (log + [Round(request, events[..n])])[..|log|] == log;
  }

  /** Adding the round just read to a log that explains what came before. */
  lemma {:induction false} ExplainsMore(s: Script, base: seq<Message>, log: seq<Round>, request: seq<Message>,
                                        events: seq<AiEvent>, n: nat)
    requires Explains(s, base, log) && |log| < 3 && (log != [] ==> MayContinue(EndOf(s, |log| - 1)))
    requires !s.expired(|log|) && s.streams(|log|) == Streaming(events)
    requires request == base + Continuation(TextOf(Received(log)))
    requires Taken(s, |log|, events).0 == n
    ensures n <= |events| && Explains(s, base, log + [Round(request, events[..n])])
    ensures EndOf(s, |log|) == Taken(s, |log|, events).1
  {
    hide Taken, TextOf, Received, Continuation, MayContinue, RoundIs, EndOf;
    RoundAdded(s, base, log, request, events, n);
    var log' := log + [Round(request, events[..n])];
    forall k | 0 <= k < |log'|
      ensures RoundIs(s, base, log', k)
    {
      if k < |log| { RoundKept(s, base, log, Round(request, events[..n]), k); }
    }
  }

  /** The accumulators once the round is in the log. */
  lemma AddsRound(log: seq<Round>, request: seq<Message>, events: seq<AiEvent>, n: nat, st: State, chunk: string,
                  hadPartial: bool)
    requires TakenAll(log, events, n, st, chunk, hadPartial)
    ensures var log' := log + [Round(request, events[..n])];
            && log'[..|log|] == log
            && TextOf(Received(log')) == st.content + chunk
            && (Deltas(Received(log')) != [] <==> st.continuationUsed || hadPartial)
            && (!st.continuationUsed ==> st.content == "") && (!hadPartial ==> chunk == "")
            && MetaOf(Received(log')) == st.meta && Calls(Received(log')) == st.toolCalls
  {
    hide Calls, MetaOf, Deltas;
    var log' := log + [Round(request, events[..n])];
    assert log'[..|log|] == log;
    assert Received(log') == Received(log) + events[..n];
    Append(Received(log), events[..n]);
    ConcatAppend(Deltas(Received(log)), Deltas(events[..n]));
    assert Concat([]) == "";
  }

  lemma MayContinueIff(end: End)
    ensures MayContinue(end) <==> end.Broken? && end.category.Retriable()
  {
  }

  lemma EmptyIsBlank()
    ensures Blank("")
  {
  }

  /** The messages of the next request. */
  method RequestFor(base: seq<Message>, st: State) returns (request: seq<Message>)
    requires !st.continuationUsed ==> st.content == ""
    ensures request == base + Continuation(st.content)
  {
    hide Blank, Trim;
    TrimBlank(st.content);
    EmptyIsBlank();
    request := base;
    if st.continuationUsed && Trim(st.content) != "" {
      request := request + [Message(Assistant, st.content, [], None)];
      request := request + [Message(User, CONTINUE, [], None)];
    }
  }

  lemma Begins(s: Script, base: seq<Message>)
    ensures Between(s, base, [], State("", NO_META, false, [], None))
  {
  }

  lemma StopsEarly(s: Script, base: seq<Message>, log: seq<Round>, st: State)
    requires Between(s, base, log, st) && |log| < 3
    ensures !st.continuationUsed ==> st.content == ""
    ensures st.content == TextOf(Received(log))
    ensures Explains(s, base, log) && (log != [] ==> MayContinue(EndOf(s, |log| - 1)))
    ensures s.expired(|log|) ==> Concluded(s, base, log, FailedWith(ErrorCategory.Timeout, st.meta))
    ensures !s.expired(|log|) && s.streams(|log|).Denied? ==>
        Concluded(s, base, log, Err(Provider(s.streams(|log|).error)))
  {
    hide Explains, Received, MetaOf, Calls, EndOf, Deltas;
    assert Concat([]) == "";
  }

  lemma Exhausted(s: Script, base: seq<Message>, log: seq<Round>, st: State)
    requires Between(s, base, log, st) && |log| == 3
    ensures st.lastError.Some? && Concluded(s, base, log, FailedWith(st.lastError.value, st.meta))
  {
    hide Explains, Received, MetaOf, Calls, EndOf, Deltas;
  }

  lemma {:induction false} Finishes(s: Script, base: seq<Message>, log: seq<Round>, log': seq<Round>, st: State,
                                    text: string)
    requires log' != [] && log == log'[..|log'| - 1] && Explains(s, base, log') && EndOf(s, |log|) == Finished
    requires TextOf(Received(log')) == text && MetaOf(Received(log')) == st.meta &&
        Calls(Received(log')) == st.toolCalls
    requires st.continuationUsed <==> Deltas(Received(log)) != []
    ensures Concluded(s, base, log',
                      if Trim(text) == "" && st.toolCalls == [] then FailedWith(InvalidRequest, st.meta)
                      else Ok(Output(text, st.meta, st.continuationUsed, st.toolCalls)))
  {
    hide Explains, Received, MetaOf, Calls, EndOf, Deltas, Blank;
    TrimBlank(text);
  }

  lemma {:induction false} Breaks(s: Script, base: seq<Message>, log: seq<Round>, st: State)
    requires log != [] && Explains(s, base, log) && EndOf(s, |log| - 1) != Finished
    requires MetaOf(Received(log)) == st.meta
    ensures EndOf(s, |log| - 1).Cut? ==> Concluded(s, base, log, Err(Superseded(EndOf(s, |log| - 1).reason)))
    ensures EndOf(s, |log| - 1).Broken? && !MayContinue(EndOf(s, |log| - 1)) ==>
              Concluded(s, base, log, FailedWith(EndOf(s, |log| - 1).category, st.meta))
  {
    hide Explains, Received, MetaOf, Calls, EndOf;
  }

  lemma GoesOn(s: Script, base: seq<Message>, log: seq<Round>, st: State)
    requires log != [] && Explains(s, base, log) && MayContinue(EndOf(s, |log| - 1))
    requires st.lastError == Some(EndOf(s, |log| - 1).category)
    requires st.content == TextOf(Received(log)) && st.meta == MetaOf(Received(log)) &&
        st.toolCalls == Calls(Received(log))
    requires st.continuationUsed <==> Deltas(Received(log)) != []
    ensures Between(s, base, log, st)
  {
    hide Explains, Received, MetaOf, Calls, EndOf, Deltas, TextOf;
  }

  lemma TakeKeeps(st: State, event: AiEvent, check: Check)
    ensures var st' := Take(st, event); st'.content == st.content && st'.continuationUsed == st.continuationUsed
    ensures event.AiError? ==> EndAt(event, check) == Some(Broken(event.category))
    ensures event.AiDelta? && check.Reason().Some? ==> EndAt(event, check) == Some(Cut(check.Reason().value))
    ensures (event.AiDelta? && check.Reason().None?) || event.AiTool? || event.AiDone? ==> EndAt(event, check) == None
  {
  }

  lemma TakenAllFlags(log: seq<Round>, events: seq<AiEvent>, n: nat, st: State, chunk: string, hadPartial: bool)
    requires TakenAll(log, events, n, st, chunk, hadPartial)
    ensures st.continuationUsed <==> Deltas(Received(log)) != []
    ensures n <= |events|
  {
  }

  /** One stream read to its end. */
  method ReadStream(s: Script, ghost log: seq<Round>, k: nat, events: seq<AiEvent>, st0: State)
    returns (st: State, chunk: string, hadPartial: bool, n: nat, end: End)
    requires k == |log| && Reading(s, log, events, 0, st0, "", false)
    ensures (n, end) == Taken(s, k, events) && TakenAll(log, events, n, st, chunk, hadPartial)
    ensures end.Broken? ==> st.lastError == Some(end.category)
  {
    hide *;
    st, chunk, hadPartial := st0, "", false;
    n := 0;
    while n < |events|
      invariant n <= |events| && Reading(s, log, events, n, st, chunk, hadPartial)
      decreases |events| - n
    {
      var event := events[n];
      TakesOne(s, log, events, n, st, chunk, hadPartial);
      TakeKeeps(st, event, s.checks(k, n));
      st := TakeState(st, event);
      n := n + 1;
      match event {
        case AiDelta(text) =>
          chunk, hadPartial := chunk + text, true;
          var reason := ReasonOf(s.checks(k, n - 1));
          if reason.Some? {
            return st, chunk, hadPartial, n, Cut(reason.value);
          }
        case AiError(category) =>
          return st, chunk, hadPartial, n, Broken(category);
        case _ =>
      }
    }
    ReadsAll(s, log, events, st, chunk, hadPartial);
    end := Finished;
  }

  method ReasonOf(check: Check) returns (reason: Option<Reason>)
    ensures reason == check.Reason()
  {
    match check {
      case NotDue => return None;
      case Checked(newer, escalated) =>
        if newer { return Some(NewerMessage); }
        if escalated { return Some(Escalated); }
        return None;
    }
  }

  method TakeState(st: State, event: AiEvent) returns (st': State)
    ensures st' == Take(st, event)
    ensures event.AiError? ==> st'.lastError == Some(event.category)
  {
    st' := st;
    match event {
      case AiTool(call) => st' := st'.(toolCalls := st'.toolCalls + [call]);
      case AiDone(r) =>
        st' := st'.(meta := Meta(r.provider, r.model, r.usage, r.finish.Length?));
        if st'.toolCalls == [] { st' := st'.(toolCalls := st'.toolCalls + r.toolCalls); }
      case AiError(category) => st' := st'.(lastError := Some(category));
      case AiDelta(_) =>
    }
  }

  method Generate(base: seq<Message>, s: Script) returns (result: Result<Output, GenerateError>, log: seq<Round>)
    ensures Concluded(s, base, log, result)
  {
    hide *;
    var st := State("", NO_META, false, [], None);
    log := [];
    Begins(s, base);
    for attempt := 0 to 3
      invariant |log| == attempt && Between(s, base, log, st)
    {
      StopsEarly(s, base, log, st);
      if s.expired(attempt) {
        return ErrorWith(ErrorCategory.Timeout, st.meta), log;
      }
      var request := RequestFor(base, st);
      match s.streams(attempt) {
        case Denied(error) => return Err(Provider(error)), log;
        case Streaming(events) =>
          StartsReading(s, base, log, events, st);
          var chunk, hadPartial, n, end;
          st, chunk, hadPartial, n, end := ReadStream(s, log, attempt, events, st);
          TakenAllFlags(log, events, n, st, chunk, hadPartial);
          AddsRound(log, request, events, n, st, chunk, hadPartial);
          ExplainsMore(s, base, log, request, events, n);
          MayContinueIff(end);
          ghost var before := log;
          log := log + [Round(request, events[..n])];
          match end {
            case Finished =>
              assert st.content + chunk
                  == if st.continuationUsed then (if hadPartial then st.content + chunk else st.content) else chunk;
              if st.continuationUsed && hadPartial {
                st := st.(content := st.content + chunk);
              } else if !st.continuationUsed {
                st := st.(content := chunk);
              }
              Finishes(s, base, before, log, st, st.content);
              if Trim(st.content) == "" && st.toolCalls == [] {
                return ErrorWith(InvalidRequest, st.meta), log;
              }
              return Ok(Output(st.content, st.meta, st.continuationUsed, st.toolCalls)), log;
            case Cut(reason) =>
              Breaks(s, base, log, st);
              return Err(Superseded(reason)), log;
            case Broken(category) =>
              Breaks(s, base, log, st);
              if !category.Retriable() {
                return ErrorWith(category, st.meta), log;
              }
              if st.continuationUsed {
                st := st.(content := st.content + chunk);
              } else if hadPartial {
                st := st.(content := chunk, continuationUsed := true);
              }
              GoesOn(s, base, log, st);
          }
      }
    }
    Exhausted(s, base, log, st);
    result := ErrorWith(st.lastError.value, st.meta);
  }

  function ErrorWith(category: ErrorCategory, meta: Meta): (r: Result<Output, GenerateError>)
    ensures r == FailedWith(category, meta)
  {
    Err(Provider(CallFailed(category, meta.provider, meta.model)))
  }

  // ------------------------------------------------------------------ what a run of rounds guarantees

  /** Reading stops just behind the first event that ends the round, and only there. */
  lemma {:induction false} TakenIsFirst(s: Script, k: nat, events: seq<AiEvent>, j: nat)
    requires j <= |events|
    ensures var (n, end) := Taken(s, k, events, j);
            if forall i :: j <= i < |events| ==> EndAt(events[i], s.checks(k, i)).None?
            then n == |events| && end == Finished
            else j < n && EndAt(events[n - 1], s.checks(k, n - 1)) == Some(end)
                 && forall i :: j <= i < n - 1 ==> EndAt(events[i], s.checks(k, i)).None?
    decreases |events| - j
  {
    hide EndAt;
    if j < |events| && EndAt(events[j], s.checks(k, j)).None? { TakenIsFirst(s, k, events, j + 1); }
  }

  /**
   * Every request carries the conversation, and behind it all the text received so far and the instruction
   * to go on, unless that text is blank; the first request is the conversation alone.
   */
  lemma RequestsCarryTheText(s: Script, base: seq<Message>, log: seq<Round>,
                             result: Result<Output, GenerateError>, k: nat)
    requires Concluded(s, base, log, result) && k < |log|
    ensures var text, request := Concat(Deltas(Received(log[..k]))), log[k].request;
            && (k == 0 || Blank(text) ==> request == base)
            && (!Blank(text) ==>
                  && |request| == |base| + 2 && base <= request
                  && request[|base|] == Message(Assistant, text, [], None)
                  && request[|base| + 1] == Message(User, CONTINUE, [], None))
  {
    hide Taken, MetaOf, Calls, Deltas, Blank, Reply, EndOf;
    assert RoundIs(s, base, log, k);
    assert base + [] == base;
    if k == 0 {
      assert log[..k] == [];
      Nothing();
      EmptyIsBlank();
      assert Concat([]) == "";
    }
  }

  /** The last result seen, if any: what a reply or an error says about provider and model. */
  lemma {:induction false} MetaIsOfLastResult(events: seq<AiEvent>, i: nat)
    requires i < |events| && events[i].AiDone? && forall j :: i < j < |events| ==> !events[j].AiDone?
    ensures var r, meta := events[i].result, MetaOf(events);
            && meta.provider == r.provider && meta.model == r.model && meta.usage == r.usage
            && (meta.finishLength <==> r.finish == Length)
  {
    if i < |events| - 1 { MetaIsOfLastResult(events[..|events| - 1], i); }
  }

  lemma {:induction false} MetaOfNoResult(events: seq<AiEvent>)
    requires forall j :: 0 <= j < |events| ==> !events[j].AiDone?
    ensures MetaOf(events) == Meta("", "", TokenUsage(None, None), false)
  {
    if events != [] { MetaOfNoResult(events[..|events| - 1]); }
  }

  /** An error a caller may try again after. */
  predicate WorthRetrying(category: ErrorCategory) {
    category == RateLimited || category == Unavailable || category == ErrorCategory.Timeout
  }

  /** An error of a generation, as its caller gets it. */
  predicate IsError(result: Result<Output, GenerateError>, category: ErrorCategory, meta: Meta) {
    result == Err(Provider(CallFailed(category, meta.provider, meta.model)))
  }

  /**
   * How a generation ends: with a reply made of everything received, an error for a reply without text and
   * calls, the reason it was superseded, the error that cannot be retried or was the third, a timeout before
   * an attempt, or the refusal of the service.
   */
  lemma {:induction false} EndingIs(s: Script, base: seq<Message>, log: seq<Round>,
                                    result: Result<Output, GenerateError>)
    requires Concluded(s, base, log, result)
    ensures var received, n := Received(log), |log|;
            var meta := MetaOf(received);
            if n == 0 || (n < 3 && exists c :: WorthRetrying(c) && EndOf(s, n - 1) == Broken(c)) then
              if s.expired(n) then IsError(result, ErrorCategory.Timeout, meta)
              else s.streams(n).Denied? && result == Err(Provider(s.streams(n).error))
            else
              match EndOf(s, n - 1)
              case Cut(reason) => result == Err(Superseded(reason))
              case Broken(c) => IsError(result, c, meta)
              case Finished =>
                var text, calls := Concat(Deltas(received)), Calls(received);
                if Blank(text) && calls == [] then IsError(result, InvalidRequest, meta)
                else
                  && result.Ok? && result.value.content == text && result.value.toolCalls == calls
                  && result.value.meta == meta
                  && (result.value.continuationUsed <==> Deltas(Received(log[..n - 1])) != [])
  {
    AtMostThree(s, base, log);
    hide Explains, Received, MetaOf, Calls, Deltas, EndOf, Blank;
    RetriableIff();
  }

  lemma AtMostThree(s: Script, base: seq<Message>, log: seq<Round>)
    ensures Explains(s, base, log) ==> |log| <= 3
  {
  }

  lemma RetriableIff()
    ensures forall category: ErrorCategory :: category.Retriable() <==> WorthRetrying(category)
  {
  }

  /** What ends a round is the last event taken from its stream. */
  lemma EndIsLastTaken(s: Script, base: seq<Message>, log: seq<Round>, result: Result<Output, GenerateError>, k: nat)
    requires Concluded(s, base, log, result) && k < |log|
    ensures match EndOf(s, k)
            case Finished => s.streams(k) == Streaming(log[k].consumed)
            case Broken(category) =>
              log[k].consumed != [] && log[k].consumed[|log[k].consumed| - 1] == AiError(category)
            case Cut(reason) =>
              var j := |log[k].consumed| - 1;
              && j >= 0 && log[k].consumed[j].AiDelta? && s.checks(k, j).Checked?
              && match reason
                 case NewerMessage => s.checks(k, j).newer
                 case Escalated => !s.checks(k, j).newer && s.checks(k, j).escalated
  {
    hide Reply, MetaOf, Calls, Deltas, Continuation, Received, Taken;
    assert RoundIs(s, base, log, k);
    var events := s.streams(k).events;
    TakenIsFirst(s, k, events, 0);
    assert events[..|events|] == events;
  }

  /** A result that repeats exactly the calls already sent on its stream, as the relaying tasks send it. */
  predicate Repeats(events: seq<AiEvent>) {
    forall i :: 0 <= i < |events| && events[i].AiDone? ==> events[i].result.toolCalls == Tools(events[..i])
  }

  lemma {:induction false} RepeatsAppend(a: seq<AiEvent>, b: seq<AiEvent>)
    requires Repeats(b) && Calls(a) == Tools(a)
    ensures Calls(a + b) == Tools(a + b)
    decreases |b|
  {
    hide Tools, Calls;
    if b == [] {
      assert a + b == a;
    } else {
      var front, last := b[..|b| - 1], b[|b| - 1];
      forall i | 0 <= i < |front| && front[i].AiDone?
        ensures front[i].result.toolCalls == Tools(front[..i])
      {
        assert b[i] == front[i] && b[..i] == front[..i];
      }
      RepeatsAppend(a, front);
      assert a + b == (a + front) + [last];
      Snoc(a + front, last);
      Append(a, front);
      CallsSnoc(a + front, last);
    }
  }

  lemma CallsSnoc(events: seq<AiEvent>, last: AiEvent)
    ensures Calls(events + [last])
         == if last.AiTool? then Calls(events) + [last.call]
            else if last.AiDone? && Calls(events) == [] then last.result.toolCalls
            else Calls(events)
  {
    assert (events + [last])[..|events|] == events;
  }

  /**
   * When every result repeats its stream's calls, what is collected is every call event of every round, once, in
   * order.
   */
  lemma {:induction false} CallsAreTheEvents(log: seq<Round>)
    requires forall k :: 0 <= k < |log| ==> Repeats(log[k].consumed)
    ensures Calls(Received(log)) == Tools(Received(log))
  {
    hide Repeats;
    if log != [] {
      CallsAreTheEvents(log[..|log| - 1]);
      RepeatsAppend(Received(log[..|log| - 1]), log[|log| - 1].consumed);
    } else {
      Nothing();
    }
  }

  lemma {:induction false} EarlierToolsIff(log: seq<Round>)
    ensures Tools(Received(log)) == [] <==> forall k :: 0 <= k < |log| ==> Tools(log[k].consumed) == []
  {
    hide Tools;
    Nothing();
    if log != [] {
      var front := log[..|log| - 1];
      EarlierToolsIff(front);
      Append(Received(front), log[|log| - 1].consumed);
      assert forall k :: 0 <= k < |front| ==> front[k] == log[k];
    }
  }

  /**
   * Collected calls are not cleared between attempts, so a reply carries just the calls of the stream
   * that finished exactly when no broken stream had sent one.
   */
  lemma {:induction false} CallsOfLastStreamIff(log: seq<Round>)
    requires log != [] && forall k :: 0 <= k < |log| ==> Repeats(log[k].consumed)
    ensures Calls(Received(log)) == Tools(log[|log| - 1].consumed)
       <==> forall k :: 0 <= k < |log| - 1 ==> Tools(log[k].consumed) == []
  {
    hide Repeats, Tools, Calls;
    CallsAreTheEvents(log);
    var front := log[..|log| - 1];
    Append(Received(front), log[|log| - 1].consumed);
    EarlierToolsIff(front);
    assert forall k :: 0 <= k < |front| ==> front[k] == log[k];
    assert [] + Tools(log[|log| - 1].consumed) == Tools(log[|log| - 1].consumed);
    if Tools(Received(front)) != [] {
      assert |Calls(Received(log))| > |Tools(log[|log| - 1].consumed)|;
    }
  }

  /** The reply that carries one call twice. */
  const DOUBLED := Output("", Meta("openai", "m", TokenUsage(None, None), false), false, [LOOKUP, LOOKUP])

  const RESULT := CallResult("", "openai", "m", TokenUsage(None, None), ToolUse, [LOOKUP])
  const BROKEN_STREAM := [AiTool(LOOKUP), AiError(RateLimited)]
  const WHOLE_STREAM := [AiTool(LOOKUP), AiDone(RESULT)]

  /** The fixed-provider task sends such streams. */
  lemma StreamsOfOneCall()
    ensures OverrideTranscript(Attempt("openai", "m"), true, Opened([Ok(Tool(LOOKUP)), Err(BUSY)])) == BROKEN_STREAM
    ensures OverrideTranscript(Attempt("openai", "m"), true, Opened([Ok(Tool(LOOKUP)), ANSWERED])) == WHOLE_STREAM
  {
    hide Relay, StopAt, Deltas, Tools;
    RelayOneCall(Err(BUSY));
    RelayOneCall(ANSWERED);
    OneToolCall();
    assert [AiTool(LOOKUP)] + [AiError(RateLimited)] == BROKEN_STREAM;
    assert Concat([]) == "";
    assert [AiTool(LOOKUP)] + [AiDone(RESULT)] == WHOLE_STREAM;
  }

  lemma CallsOfTwoStreams()
    ensures var all := BROKEN_STREAM + WHOLE_STREAM;
            && Deltas(BROKEN_STREAM) == [] && Deltas(all) == [] && Tools(WHOLE_STREAM) == [LOOKUP]
            && Calls(all) == [LOOKUP, LOOKUP] && MetaOf(all) == Meta("openai", "m", TokenUsage(None, None), false)
  {
    hide Deltas, Tools, Calls;
    OneToolCall();
    Nothing();
    NoCalls();
    Snoc([AiTool(LOOKUP)], AiError(RateLimited));
    assert [AiTool(LOOKUP)] + [AiError(RateLimited)] == BROKEN_STREAM;
    Snoc([AiTool(LOOKUP)], AiDone(RESULT));
    assert [AiTool(LOOKUP)] + [AiDone(RESULT)] == WHOLE_STREAM;
    Append(BROKEN_STREAM, WHOLE_STREAM);
    CallsSnoc([], AiTool(LOOKUP));
    assert [] + [AiTool(LOOKUP)] == [AiTool(LOOKUP)];
    CallsSnoc([AiTool(LOOKUP)], AiError(RateLimited));
    CallsSnoc(BROKEN_STREAM, AiTool(LOOKUP));
    CallsSnoc(BROKEN_STREAM + [AiTool(LOOKUP)], AiDone(RESULT));
    assert BROKEN_STREAM + [AiTool(LOOKUP)] + [AiDone(RESULT)] == BROKEN_STREAM + WHOLE_STREAM;
  }

  lemma NoCalls()
    ensures Calls([]) == []
  {
  }

  function TwoStreams(): Script {
    Script(k => Streaming(if k == 0 then BROKEN_STREAM else WHOLE_STREAM), _ => false, (_, _) => NotDue)
  }

  function TwoRounds(base: seq<Message>): seq<Round> {
    [Round(base, BROKEN_STREAM), Round(base, WHOLE_STREAM)]
  }

  lemma TakenOfTwo()
    ensures Taken(TwoStreams(), 0, BROKEN_STREAM) == (2, Broken(RateLimited))
    ensures Taken(TwoStreams(), 1, WHOLE_STREAM) == (2, Finished)
    ensures BROKEN_STREAM[..2] == BROKEN_STREAM && WHOLE_STREAM[..2] == WHOLE_STREAM
  {
    var s := TwoStreams();
    assert Taken(s, 0, BROKEN_STREAM, 1) == (2, Broken(RateLimited));
    assert Taken(s, 1, WHOLE_STREAM, 2) == (2, Finished) && Taken(s, 1, WHOLE_STREAM, 1) == (2, Finished);
  }

  lemma ReceivedOfTwo(base: seq<Message>)
    ensures var log := TwoRounds(base);
            && Received(log[..0]) == [] && Received(log[..1]) == BROKEN_STREAM
            && Received(log) == BROKEN_STREAM + WHOLE_STREAM
  {
    var log := TwoRounds(base);
    var first: seq<Round> := [Round(base, BROKEN_STREAM)];
    assert log[..1] == first && first[..0] == [] && log[..0] == [];
    assert Received(first) == [] + BROKEN_STREAM == BROKEN_STREAM;
  }

  lemma RoundsOfTwo(base: seq<Message>)
    ensures RoundIs(TwoStreams(), base, TwoRounds(base), 0) && RoundIs(TwoStreams(), base, TwoRounds(base), 1)
    ensures EndOf(TwoStreams(), 0) == Broken(RateLimited) && EndOf(TwoStreams(), 1) == Finished
  {
    hide Deltas, Blank, Received, Taken;
    TakenOfTwo();
    ReceivedOfTwo(base);
    CallsOfTwoStreams();
    EmptyIsBlank();
    Nothing();
    assert Concat([]) == "" && Continuation("") == [] && base + [] == base;
  }

  // ------------------------------------------------------------------ on top of the relaying tasks

  /** What served an attempt: the failover task with its world and opens there, or the fixed-provider task. */
  datatype Served =
    | Failover(world: World, opens: seq<(nat, nat)>)
    | Fixed(attempt: Attempt, known: bool, open: Open)
  {
    predicate Valid() {
      Failover? ==> world.Path(opens)
    }

    function Stream(): seq<AiEvent>
      requires Valid()
    {
      if Failover? then world.Transcript(opens) else OverrideTranscript(attempt, known, open)
    }

    /** How many vendor streams were opened. */
    function Opens(): nat {
      if Failover? then |opens| else if known then 1 else 0
    }

    function Providers(): nat {
      if Failover? then |world.attempts| else 1
    }

    /** The stream broke off after a delta without saying so. */
    predicate Truncates() {
      Failover? && Truncated(world, opens)
    }
  }

  predicate ServedBy(s: Script, served: seq<Served>) {
    forall k :: 0 <= k < |served| ==> served[k].Valid() && s.streams(k) == Streaming(served[k].Stream())
  }

  /** What both tasks guarantee of everything they send. */
  lemma {:induction false} StreamIsSafe(served: Served)
    requires served.Valid()
    ensures var t := served.Stream();
            && OnlyLastTerminal(t)
            && (t != [] && t[|t| - 1].AiDone? ==> t[|t| - 1].result.toolCalls == Tools(t))
            && (t != [] && t[|t| - 1].Terminal() <==> !served.Truncates())
  {
    hide World.Transcript, World.Path, OverrideTranscript, Tools, Deltas, Truncated;
    if served.Failover? {
      TranscriptIsSafe(served.world, served.opens);
    } else {
      OverrideAlwaysCloses(served.attempt, served.known, served.open);
    }
  }

  lemma StreamRepeats(served: Served, n: nat)
    requires served.Valid() && n <= |served.Stream()|
    ensures Repeats(served.Stream()[..n])
  {
    hide Served.Stream, Served.Valid, Served.Truncates, Tools, Deltas;
    StreamIsSafe(served);
    var t := served.Stream();
    forall i | 0 <= i < n && t[..n][i].AiDone?
      ensures t[i].result.toolCalls == Tools(t[..n][..i])
    {
      assert t[i].Terminal();
      assert i == |t| - 1;
      assert t == t[..i] + [t[i]] && t[..n][..i] == t[..i];
      Snoc(t[..i], t[i]);
      assert Tools(t[..i]) + [] == Tools(t[..i]);
    }
  }

  function TotalOpens(served: seq<Served>): nat {
    if served == [] then 0 else TotalOpens(served[..|served| - 1]) + served[|served| - 1].Opens()
  }

  lemma OpensOfOne(served: Served)
    requires served.Valid()
    ensures served.Opens() <= 3 * served.Providers()
  {
    hide World.Path;
    if served.Failover? { OpensBounded(served.world, served.opens); }
  }

  lemma {:induction false} TotalOpensBounded(served: seq<Served>, providers: nat)
    requires forall k :: 0 <= k < |served| ==> served[k].Valid() && served[k].Providers() <= providers
    ensures TotalOpens(served) <= 3 * providers * |served|
  {
    hide Served.Valid, Served.Opens, Served.Providers;
    if served != [] {
      var n := |served| - 1;
      TotalOpensBounded(served[..n], providers);
      OpensOfOne(served[n]);
      assert 3 * providers * |served| == 3 * providers * n + 3 * providers;
    }
  }

  /**
   * The reply of a generation served by the relaying tasks: exactly the text and the calls sent by its
   * streams, with at most nine vendor opens per provider of the longest list.
   */
  lemma {:induction false} ServedReply(s: Script, base: seq<Message>, log: seq<Round>,
                                       result: Result<Output, GenerateError>, served: seq<Served>, providers: nat)
    requires Concluded(s, base, log, result) && result.Ok?
    requires |served| == |log| && ServedBy(s, served)
    requires forall k :: 0 <= k < |served| ==> served[k].Providers() <= providers
    ensures result.value.content == Concat(Deltas(Received(log)))
    ensures result.value.toolCalls == Tools(Received(log))
    ensures TotalOpens(served) <= 9 * providers
  {
    hide Served.Valid, Served.Stream, Served.Providers, Taken, Tools, Deltas, Calls;
    forall k | 0 <= k < |log|
      ensures Repeats(log[k].consumed)
    {
      assert RoundIs(s, base, log, k);
      StreamRepeats(served[k], Taken(s, k, s.streams(k).events).0);
    }
    CallsAreTheEvents(log);
    TotalOpensBounded(served, providers);
    assert 3 * providers * |served| <= 3 * providers * 3;
  }

  /**
   * A reply is built on a stream that never said it was done exactly when it was served by the failover
   * task and the last vendor fell silent after a delta: such a truncated text is posted as an answer.
   */
  lemma {:induction false} TruncatedReplyIff(s: Script, base: seq<Message>, log: seq<Round>,
                                             result: Result<Output, GenerateError>, served: seq<Served>)
    requires Concluded(s, base, log, result) && result.Ok?
    requires |served| == |log| && ServedBy(s, served)
    ensures var last := log[|log| - 1].consumed;
            (last != [] && last[|last| - 1].AiDone?) <==> !served[|log| - 1].Truncates()
  {
    hide Served.Valid, Served.Stream, Served.Truncates, Taken, Tools, Deltas, Calls, Received, MetaOf;
    var n := |log| - 1;
    assert RoundIs(s, base, log, n);
    var t := served[n].Stream();
    StreamIsSafe(served[n]);
    FinishedTakesAll(s, n, t);
    assert log[n].consumed == t;
  }

  /** The two streams as the fixed-provider task sends them. */
  const SERVED_TWICE := [
    Fixed(Attempt("openai", "m"), true, Opened([Ok(Tool(LOOKUP)), Err(BUSY)])),
    Fixed(Attempt("openai", "m"), true, Opened([Ok(Tool(LOOKUP)), ANSWERED]))]

  /** So a call that the kept answer made once is collected twice. */
  lemma {:induction false} CallCollectedTwice(base: seq<Message>)
    ensures ServedBy(TwoStreams(), SERVED_TWICE) && Tools(SERVED_TWICE[1].Stream()) == [LOOKUP]
    ensures Concluded(TwoStreams(), base, TwoRounds(base), Ok(DOUBLED))
  {
    hide Deltas, Calls, MetaOf, Tools, Received, RoundIs, EndOf, Blank, OverrideTranscript;
    StreamsOfOneCall();
    RoundsOfTwo(base);
    ReceivedOfTwo(base);
    CallsOfTwoStreams();
    assert Concat([]) == "";
  }

  lemma FinishedTakesAll(s: Script, k: nat, events: seq<AiEvent>)
    requires Taken(s, k, events).1.Finished?
    ensures Taken(s, k, events).0 == |events|
    ensures forall i :: 0 <= i < |events| ==> EndAt(events[i], s.checks(k, i)).None?
  {
    TakenIsFirst(s, k, events, 0);
  }

  /** A fixed provider that refuses for good is asked once, and its own error is what the generation fails with. */
  lemma RefusalEndsAtOnce(s: Script, base: seq<Message>, log: seq<Round>, result: Result<Output, GenerateError>,
                          attempt: Attempt, error: ProviderError)
    requires Concluded(s, base, log, result) && ServedBy(s, [Fixed(attempt, true, Refused(error))])
    requires !s.expired(0) && !WorthRetrying(error.category)
    ensures |log| == 1 && log[0].request == base && result == Err(Provider(CallFailed(error.category, "", "")))
  {
    var served := Fixed(attempt, true, Refused(error));
    OverrideEndsIn(attempt, true, Refused(error), Delivered(served.Stream(), None));
    hide Received, Calls, Deltas, Reply;
    assert [served][0] == served && s.streams(0) == Streaming([AiError(error.category)]);
    assert Taken(s, 0, [AiError(error.category)]) == (1, Broken(error.category));
    RetriableIff();
    assert EndOf(s, 0) == Broken(error.category) && !MayContinue(EndOf(s, 0));
    assert log != [];
    assert RoundIs(s, base, log, 0);
    assert |log| == 1;
    RequestsCarryTheText(s, base, log, result, 0);
    ReceivedOfOne(log);
    assert log[0].consumed == [AiError(error.category)];
    MetaOfNoResult(log[0].consumed);
  }

  lemma ReceivedOfOne(log: seq<Round>)
    requires |log| == 1
    ensures Received(log) == log[0].consumed
  {
    assert log[..0] == [] && Received([]) == [];
    assert [] + log[0].consumed == log[0].consumed;
  }

  const PARTIAL := "Your refund is"

  lemma SilentRelay()
    ensures var open := Opened([Ok(Delta(PARTIAL))]); EndsSilently(open) && Relay(open) == [AiDelta(PARTIAL)]
  {
    var events: seq<VendorEvent> := [Ok(Delta(PARTIAL))];
    assert StopAt(events[1..]) == 0 && StopAt(events) == 1;
    assert RelayUpTo(events, 0) == [];
    assert RelayUpTo(events, 1) == [] + [Convert(events[0])];
  }

  lemma OneDelta()
    ensures var t := [AiDelta(PARTIAL)];
            && Deltas(t) == [PARTIAL] && TextOf(t) == PARTIAL && !Blank(PARTIAL) && Calls(t) == [] &&
              MetaOf(t) == NO_META
    ensures Deltas([]) == [] && TextOf([]) == "" && Blank("") && Calls([]) == [] && MetaOf([]) == NO_META
  {
    var t := [AiDelta(PARTIAL)];
    assert t[..0] == [];
    assert Deltas(t) == [] + [PARTIAL];
    assert Concat([PARTIAL]) == PARTIAL + Concat([PARTIAL][1..]);
    assert !IsWhitespace(PARTIAL[0]);
  }

  /** Such a reply exists: a vendor sends one delta and falls silent, and the delta is the reply. */
  lemma {:induction false} TruncatedReplyExists(base: seq<Message>)
    returns (s: Script, log: seq<Round>, served: seq<Served>)
    ensures |served| == |log| == 1 && ServedBy(s, served) && served[0].Truncates()
    ensures served[0].world.Ended(served[0].opens) && served[0].world.Ledger(served[0].opens) == []
    ensures Concluded(s, base, log, Ok(Output(PARTIAL, NO_META, false, [])))
  {
    hide Deltas, Calls, MetaOf, TextOf, Blank, Relay, StopAt;
    var open := Opened([Ok(Delta(PARTIAL))]);
    var w := World([Attempt("openai", "m")], _ => true, (_, _) => open);
    var opens := [(0, 0)];
    SilentRelay();
    OneDelta();
    var t := [AiDelta(PARTIAL)];
    assert w.NextKnown(0) == 0 && w.Open((0, 0)) == open;
    assert w.Path(opens);
    assert opens[..0] == [] && w.Relayed([]) == [] && w.Relayed(opens) == [] + t;
    assert w.LastRefusal(opens) == None && w.Closing(opens) == [];
    assert w.Transcript(opens) == t;
    s := Script(_ => Streaming(t), _ => false, (_, _) => NotDue);
    served := [Failover(w, opens)];
    log := [Round(base, t)];
    assert Taken(s, 0, t, 1) == (1, Finished);
    assert Taken(s, 0, t) == (1, Finished) && t[..1] == t;
    assert log[..0] == [] && Received([]) == [] && Received(log) == [] + t;
    assert base + [] == base;
    assert RoundIs(s, base, log, 0);
  }
}
