/**
 * The tool-chain loop of a run: rounds of generation whose tool calls are numbered, refused, executed
 * or parked for approval, on the tables of the run.
 */
module ToolChain {
  import opened Text
  import opened Contract
  import opened Generate
  import StreamTask

  datatype Outcome = Success | SupersededRun | CancelledEscalation | FailedRun | Fallback | AwaitingToolApproval

  datatype Status = Refused | AwaitingApproval | Pending | Executing | Succeeded | Failed | TimedOut

  /** A row of `tool_requests`. */
  datatype Request = Request(tool: string, arguments: Json, status: Status, chainIndex: nat)

  datatype PostKind = Holding | Answer | Acknowledgement | Apology

  /** A message added to the conversation. */
  datatype Posted = Posted(kind: PostKind, body: string)

  /** What a run does to the outside, in the order it does it. */
  datatype Act =
    | Ask(messages: seq<Message>, toolsOffered: bool)
    | SawNewer(newer: bool)
    | SawEscalated(escalated: bool)
    | SawReplied(replied: bool)
    | SawAcknowledged(acknowledged: bool)
    | Post(posted: Posted)
    | Record(outcome: Outcome)
    | DeleteEvent
    | Failure

  /** The tables as one run sees its own rows in them, and the record of its acts. */
  class Store {
    var generation: Option<Outcome>
    var requests: seq<Request>
    var messages: seq<Posted>
    var event: bool
    var trace: seq<Act>

    constructor ()
      ensures generation == None && requests == [] && messages == [] && event && trace == []
    {
      generation, requests, messages, event, trace := None, [], [], true, [];
    }

    /** Insert if absent. */
    method EnsureProvisional(fault: bool) returns (ok: bool)
      modifies this`generation
      ensures ok == !fault
      ensures generation == if ok && old(generation).None? then Some(AwaitingToolApproval) else old(generation)
    {
      if fault { return false; }
      if generation.None? { generation := Some(AwaitingToolApproval); }
      return true;
    }

    /** Insert, or complete the provisional row. */
    method InsertRecord(outcome: Outcome, fault: bool)
      modifies this`generation, this`trace
      ensures generation == (if fault then old(generation) else Some(outcome)) &&
          trace == old(trace) + [Record(outcome)]
    {
      trace := trace + [Record(outcome)];
      if !fault { generation := Some(outcome); }
    }

    /** A transaction that adds one message; a fault rolls it back. */
    method AddMessage(message: Posted, fault: bool) returns (ok: bool)
      modifies this`messages, this`trace
      ensures ok == !fault
      ensures messages == (if ok then old(messages) + [message] else old(messages))
      ensures trace == old(trace) + [if ok then Post(message) else Failure]
    {
      ok := !fault;
      if ok { messages := messages + [message]; }
      trace := trace + [if ok then Post(message) else Failure];
    }

    /** Delete the outbox event of the run. */
    method Delete(fault: bool) returns (ok: bool)
      modifies this`event, this`trace
      ensures ok == !fault
      ensures event == (old(event) && fault) && trace == old(trace) + [if ok then DeleteEvent else Failure]
    {
      ok := !fault;
      if ok { event := false; }
      trace := trace + [if ok then DeleteEvent else Failure];
    }

    /** The foreign key refuses a request whose generation row does not exist. */
    method InsertRequest(request: Request, fault: bool) returns (ok: bool, id: nat)
      modifies this`requests
      ensures ok == (!fault && generation.Some?)
      ensures requests == if ok then old(requests) + [request] else old(requests)
      ensures ok ==> id < |requests| && requests[id] == request && id == |old(requests)|
    {
      ok, id := !fault && generation.Some?, |requests|;
      if ok { requests := requests + [request]; }
    }

    /** `pending` to `executing`; a fault leaves the row as it is. */
    method MarkExecuting(i: nat, fault: bool)
      requires i < |requests|
      modifies this`requests
      ensures requests == if !fault && old(requests)[i].status.Pending?
                          then old(requests)[i := old(requests)[i].(status := Executing)] else old(requests)
    {
      if !fault && requests[i].status.Pending? { requests := requests[i := requests[i].(status := Executing)]; }
    }

    /** `executing` to a terminal status; a row in any other status is left alone without an error. */
    method MarkTerminal(i: nat, status: Status, fault: bool) returns (ok: bool)
      requires i < |requests|
      modifies this`requests
      ensures ok == !fault
      ensures requests == if ok && old(requests)[i].status.Executing?
                          then old(requests)[i := old(requests)[i].(status := status)] else old(requests)
    {
      if fault { return false; }
      if requests[i].status.Executing? { requests := requests[i := requests[i].(status := status)]; }
      return true;
    }

    method Append(act: Act)
      modifies this`trace
      ensures trace == old(trace) + [act]
    {
      trace := trace + [act];
    }
  }

  datatype Validation = UnknownOrDisabled | SchemaMismatch(detail: string) | Allowed(approvalRequired: bool)

  datatype Execution = Succeeds(shown: string) | Fails(error: string) | RunsOut {
    function Status(): Status {
      match this case Succeeds(_) => Succeeded case Fails(_) => Failed case RunsOut => TimedOut
    }

    function Text(): string {
      match this
      case Succeeds(shown) => shown
      case Fails(error) => "Error: " + error
      case RunsOut => "The tool execution timed out."
    }
  }

  datatype Step = Provision | Insert | Start | Finish

  /** The outside world: each round's generation, the tools, and which database step of which request fails. */
  datatype Env = Env(generate: nat -> Result<Output, GenerateError>, validate: ToolCall -> Validation,
                     execute: (nat, ToolCall) -> Execution, fault: (nat, Step) -> bool)
  {
    /** The tool calls of round `r`. */
    function CallsOf(r: nat): seq<ToolCall> {
      if generate(r).Ok? then generate(r).value.toolCalls else []
    }

    /** All tool calls of the first `n` rounds, in order. */
    function Asked(n: nat): seq<ToolCall> {
      if n == 0 then [] else Asked(n - 1) + CallsOf(n - 1)
    }

    /** What becomes of the call that gets number `i`. */
    function Handle(i: nat, call: ToolCall): Handling {
      if fault(i, Provision) || fault(i, Insert) then Aborted(None)
      else
        match validate(call)
        case UnknownOrDisabled => Settled(Refused, "Tool '" + call.name + "' is not available or disabled.")
        case SchemaMismatch(detail) =>
          Settled(Refused, "Tool '" + call.name + "' call had invalid arguments: " + detail)
        case Allowed(true) => Parked
        case Allowed(false) =>
          if fault(i, Finish) then Aborted(Some(if fault(i, Start) then Pending else Executing))
          else Settled(if fault(i, Start) then Pending else execute(i, call).Status(), execute(i, call).Text())
    }

    predicate Calling(r: nat) {
      generate(r).Ok? && generate(r).value.toolCalls != []
    }
  }

  /** Answered with a text and left in a status, parked for approval, or aborted leaving a row behind or not. */
  datatype Handling = Settled(status: Status, text: string) | Parked | Aborted(left: Option<Status>)

  datatype ChainEnd = Ended(result: Result<Output, GenerateError>) | Waiting | DatabaseError

  function Min(a: nat, b: nat): nat {
    if a < b then a else b
  }

  function RowOf(call: ToolCall, status: Status, i: nat): Request {
    Request(call.name, call.arguments, status, i)
  }

  /** The first `k` calls are settled: one row and one answer each, in order. */
  ghost predicate AllSettled(env: Env, calls: seq<ToolCall>, k: nat, requests: seq<Request>) {
    && k <= |calls| && k <= |requests|
    && forall i :: 0 <= i < k ==>
         env.Handle(i, calls[i]).Settled? && requests[i] == RowOf(calls[i], env.Handle(i, calls[i]).status, i)
  }

  /** The answers to the first `k` calls, as tool messages that carry the id of their call. */
  function Answers(env: Env, calls: seq<ToolCall>, k: nat): (r: seq<Message>)
    requires k <= |calls|
    ensures |r| == k
    ensures forall i :: 0 <= i < k ==> r[i].role == ToolResult && r[i].toolCallId == Some(calls[i].id)
    ensures forall i :: 0 <= i < k && env.Handle(i, calls[i]).Settled? ==> r[i].content == env.Handle(i, calls[i]).text
  {
    if k == 0 then []
    else
      var handling := env.Handle(k - 1, calls[k - 1]);
      Answers(env, calls, k - 1)
      + [Message(ToolResult, if handling.Settled? then handling.text else "", [], Some(calls[k - 1].id))]
  }

  /**
   * What the provider is sent in round `r`: an answer to every call settled before it, and tools while numbers
   * remain.
   */
  function AskOf(env: Env, base: seq<Message>, max: nat, r: nat): Act {
    Ask(base + Answers(env, env.Asked(r), Min(max, |env.Asked(r)|)), |env.Asked(r)| < max)
  }

  function Asks(env: Env, base: seq<Message>, max: nat, n: nat): (r: seq<Act>)
    ensures |r| == n && forall i :: 0 <= i < n ==> r[i] == AskOf(env, base, max, i)
  {
    if n == 0 then [] else Asks(env, base, max, n - 1) + [AskOf(env, base, max, n - 1)]
  }

  /** The first `n` rounds all asked for tools, and everything they asked for, up to the maximum, is settled. */
  ghost predicate Between(env: Env, max: nat, n: nat, requests: seq<Request>) {
    && (forall r :: 0 <= r < n ==> env.Calling(r)) && |env.Asked(n)| >= n
    && |requests| == Min(max, |env.Asked(n)|) && AllSettled(env, env.Asked(n), |requests|, requests)
  }

  /** How a run of the loop over `n` rounds ended. */
  ghost predicate Ran(env: Env, max: nat, n: nat, end: ChainEnd, requests: seq<Request>) {
    && 1 <= n <= max + 1 && |requests| <= max
    && match end
       case Ended(result) =>
         if env.Calling(n - 1) then
           n == max + 1 && Between(env, max, n, requests) && result == Err(Provider(NotConfigured))
         else
           Between(env, max, n - 1, requests) && result == env.generate(n - 1)
       case Waiting =>
         var k := |requests| - 1;
         && (forall r :: 0 <= r < n ==> env.Calling(r))
         && |env.Asked(n - 1)| <= k < |env.Asked(n)| && AllSettled(env, env.Asked(n), k, requests)
         && env.Handle(k, env.Asked(n)[k]).Parked? && requests[k] == RowOf(env.Asked(n)[k], AwaitingApproval, k)
       case DatabaseError =>
         exists k :: 0 <= k < max && AbortedAt(env, n, k, requests)
  }

  /** The database failed while the call with number `k` was handled. */
  ghost predicate AbortedAt(env: Env, n: nat, k: nat, requests: seq<Request>)
    requires n >= 1
  {
    && (forall r :: 0 <= r < n ==> env.Calling(r))
    && |env.Asked(n - 1)| <= k < |env.Asked(n)| && AllSettled(env, env.Asked(n), k, requests)
    && var call := env.Asked(n)[k];
    && env.Handle(k, call).Aborted?
    && match env.Handle(k, call).left
       case None => |requests| == k
       case Some(status) => |requests| == k + 1 && requests[k] == RowOf(call, status, k)
  }

  // ------------------------------------------------------------------ one call

  /** One call of a round gets the next number and is refused, parked or executed. */
  method HandleCall(store: Store, env: Env, i: nat, call: ToolCall) returns (handling: Handling)
    requires i == |store.requests|
    modifies store`generation, store`requests
    ensures handling == env.Handle(i, call)
    ensures store.generation == old(store.generation)
         || (old(store.generation).None? && store.generation == Some(AwaitingToolApproval))
    ensures store.generation.Some? || store.requests == old(store.requests)
    ensures match handling
            case Settled(status, _) => store.requests == old(store.requests) + [RowOf(call, status, i)]
            case Parked => store.requests == old(store.requests) + [RowOf(call, AwaitingApproval, i)]
            case Aborted(None) => store.requests == old(store.requests)
            case Aborted(Some(status)) => store.requests == old(store.requests) + [RowOf(call, status, i)]
  {
    var validation := env.validate(call);
    var provisioned := store.EnsureProvisional(env.fault(i, Provision));
    if !provisioned { return Aborted(None); }
    var status := if !validation.Allowed? then Refused else if validation.approvalRequired then AwaitingApproval
        else Pending;
    var inserted, id := store.InsertRequest(RowOf(call, status, i), env.fault(i, Insert));
    if !inserted { return Aborted(None); }
    match validation {
      case UnknownOrDisabled =>
        return Settled(Refused, "Tool '" + call.name + "' is not available or disabled.");
      case SchemaMismatch(detail) =>
        return Settled(Refused, "Tool '" + call.name + "' call had invalid arguments: " + detail);
      case Allowed(approvalRequired) =>
        if approvalRequired { return Parked; }
        store.MarkExecuting(id, env.fault(i, Start));
        var execution := env.execute(i, call);
        var finished := store.MarkTerminal(id, execution.Status(), env.fault(i, Finish));
        status := store.requests[id].status;
        if !finished { return Aborted(Some(status)); }
        return Settled(status, execution.Text());
    }
  }

  // ------------------------------------------------------------------ one round of calls

  /** Inside round `r`, after `j` of its calls. */
  ghost predicate Within(env: Env, max: nat, r: nat, j: nat, requests: seq<Request>) {
    && (forall q :: 0 <= q <= r ==> env.Calling(q)) && |env.Asked(r)| >= r
    && j <= |env.CallsOf(r)| && |requests| == Min(max, |env.Asked(r)| + j)
    && AllSettled(env, env.Asked(r + 1), |requests|, requests)
  }

  lemma AskedNext(env: Env, r: nat)
    ensures env.Asked(r + 1) == env.Asked(r) + env.CallsOf(r)
  {
  }

  /** The messages so far: the conversation, then an answer to every call settled. */
  ghost predicate Answered(env: Env, base: seq<Message>, n: nat, requests: seq<Request>, messages: seq<Message>) {
    |requests| <= |env.Asked(n)| && messages == base + Answers(env, env.Asked(n), |requests|)
  }

  lemma EntersRound(env: Env, base: seq<Message>, max: nat, r: nat, requests: seq<Request>, messages: seq<Message>)
    requires Between(env, max, r, requests) && env.Calling(r) && Answered(env, base, r, requests, messages)
    ensures Within(env, max, r, 0, requests) && Answered(env, base, r + 1, requests, messages)
  {
    hide Env.Handle, Env.Calling, Answers;
    AskedNext(env, r);
    AnswersOfPrefix(env, env.Asked(r), env.CallsOf(r), |requests|);
  }

  lemma {:induction false} AnswersOfPrefix(env: Env, calls: seq<ToolCall>, more: seq<ToolCall>, k: nat)
    requires k <= |calls|
    ensures Answers(env, calls + more, k) == Answers(env, calls, k)
  {
    hide Env.Handle;
    if k > 0 { AnswersOfPrefix(env, calls, more, k - 1); }
  }

  lemma LeavesRound(env: Env, max: nat, r: nat, j: nat, requests: seq<Request>)
    requires Within(env, max, r, j, requests) && (j == |env.CallsOf(r)| || |requests| >= max)
    ensures Between(env, max, r + 1, requests)
  {
    hide Env.Handle;
    AskedNext(env, r);
    assert env.Calling(r);
  }

  lemma NextCall(env: Env, max: nat, r: nat, j: nat, requests: seq<Request>)
    requires Within(env, max, r, j, requests) && j < |env.CallsOf(r)| && |requests| < max
    ensures |requests| < |env.Asked(r + 1)| && env.Asked(r + 1)[|requests|] == env.CallsOf(r)[j]
  {
    hide Env.Handle, Env.Calling, AllSettled;
    AskedNext(env, r);
  }

  lemma SettlesMore(env: Env, calls: seq<ToolCall>, requests: seq<Request>)
    requires |requests| < |calls| && AllSettled(env, calls, |requests|, requests)
    requires env.Handle(|requests|, calls[|requests|]).Settled?
    ensures var row := RowOf(calls[|requests|], env.Handle(|requests|, calls[|requests|]).status, |requests|);
            AllSettled(env, calls, |requests| + 1, requests + [row])
  {
    hide Env.Handle, RowOf;
  }

  lemma AnswersMore(env: Env, base: seq<Message>, n: nat, requests: seq<Request>, row: Request, messages: seq<Message>)
    requires Answered(env, base, n, requests, messages) && |requests| < |env.Asked(n)|
    requires env.Handle(|requests|, env.Asked(n)[|requests|]).Settled?
    ensures var call := env.Asked(n)[|requests|];
            Answered(env, base, n, requests + [row],
                     messages + [Message(ToolResult, env.Handle(|requests|, call).text, [], Some(call.id))])
  {
    hide Env.Handle, Env.Asked;
    var k, calls := |requests|, env.Asked(n);
    AppendAssoc(base, Answers(env, calls, k),
                [Message(ToolResult, env.Handle(k, calls[k]).text, [], Some(calls[k].id))]);
  }

  lemma SettlesCall(env: Env, max: nat, r: nat, j: nat, requests: seq<Request>, requests': seq<Request>)
    requires Within(env, max, r, j, requests) && j < |env.CallsOf(r)| && |requests| < max
    requires env.Handle(|requests|, env.CallsOf(r)[j]).Settled?
    requires requests' ==
        requests + [RowOf(env.CallsOf(r)[j], env.Handle(|requests|, env.CallsOf(r)[j]).status, |requests|)]
    ensures Within(env, max, r, j + 1, requests')
  {
    hide Env.Handle, Env.Calling, Env.Asked, Env.CallsOf, RowOf, AllSettled, Answers;
    NextCall(env, max, r, j, requests);
    SettlesMore(env, env.Asked(r + 1), requests);
  }

  lemma Parks(env: Env, max: nat, r: nat, j: nat, requests: seq<Request>, requests': seq<Request>)
    requires Within(env, max, r, j, requests) && j < |env.CallsOf(r)| && |requests| < max && r <= max
    requires env.Handle(|requests|, env.CallsOf(r)[j]).Parked?
    requires requests' == requests + [RowOf(env.CallsOf(r)[j], AwaitingApproval, |requests|)]
    ensures Ran(env, max, r + 1, Waiting, requests')
  {
    hide Env.Handle, Env.Calling, Env.Asked, Env.CallsOf, RowOf;
    NextCall(env, max, r, j, requests);
  }

  lemma Aborts(env: Env, max: nat, r: nat, j: nat, requests: seq<Request>, requests': seq<Request>)
    requires Within(env, max, r, j, requests) && j < |env.CallsOf(r)| && |requests| < max && r <= max
    requires var handling := env.Handle(|requests|, env.CallsOf(r)[j]);
             && handling.Aborted?
             && requests' == requests + (if handling.left.None? then []
                                         else [RowOf(env.CallsOf(r)[j], handling.left.value, |requests|)])
    ensures Ran(env, max, r + 1, DatabaseError, requests')
  {
    hide Env.Handle, Env.Calling, Env.Asked, Env.CallsOf, RowOf;
    NextCall(env, max, r, j, requests);
    assert AbortedAt(env, r + 1, |requests|, requests');
  }

  datatype RoundEnd = Exhausted | RoundWaiting | RoundFailed

  /** The calls of one round. */
  method HandleRound(store: Store, env: Env, max: nat, r: nat, calls: seq<ToolCall>,
                     ghost base: seq<Message>, messages0: seq<Message>, chainIndex0: nat)
    returns (messages: seq<Message>, chainIndex: nat, end: RoundEnd)
    requires chainIndex0 == |store.requests|
    requires Between(env, max, r, store.requests) && env.Calling(r) && calls == env.CallsOf(r) && r <= max
    requires Answered(env, base, r, store.requests, messages0)
    requires store.requests != [] ==> store.generation.Some?
    modifies store`generation, store`requests
    ensures store.requests != [] ==> store.generation.Some?
    ensures store.generation == old(store.generation)
         || (old(store.generation).None? && store.generation == Some(AwaitingToolApproval))
    ensures match end
            case Exhausted =>
              && Between(env, max, r + 1, store.requests) && Answered(env, base, r + 1, store.requests, messages)
              && chainIndex == |store.requests|
            case RoundWaiting => Ran(env, max, r + 1, Waiting, store.requests)
            case RoundFailed => Ran(env, max, r + 1, DatabaseError, store.requests)
  {
    hide *;
    messages, chainIndex := messages0, chainIndex0;
    var j := 0;
    EntersRound(env, base, max, r, store.requests, messages);
    while j < |calls| && chainIndex < max
      invariant j <= |calls| && Within(env, max, r, j, store.requests)
      invariant chainIndex == |store.requests|
      invariant Answered(env, base, r + 1, store.requests, messages)
      invariant store.requests != [] ==> store.generation.Some?
      invariant store.generation == old(store.generation)
             || (old(store.generation).None? && store.generation == Some(AwaitingToolApproval))
    {
      var call := calls[j];
      ghost var before := store.requests;
      NextCall(env, max, r, j, before);
      var handling := HandleCall(store, env, chainIndex, call);
      match handling {
        case Settled(status, text) =>
          SettlesCall(env, max, r, j, before, store.requests);
          AnswersMore(env, base, r + 1, before, RowOf(call, status, |before|), messages);
          messages := messages + [Message(ToolResult, text, [], Some(call.id))];
          chainIndex := chainIndex + 1;
        case Parked =>
          Parks(env, max, r, j, before, store.requests);
          return messages, chainIndex, RoundWaiting;
        case Aborted(left) =>
          assert before + [] == before;
          Aborts(env, max, r, j, before, store.requests);
          return messages, chainIndex, RoundFailed;
      }
      j := j + 1;
    }
    LeavesRound(env, max, r, j, store.requests);
    end := Exhausted;
  }

  // ------------------------------------------------------------------ all rounds

  lemma Starts(env: Env, base: seq<Message>, max: nat)
    ensures Between(env, max, 0, []) && Answered(env, base, 0, [], base) && Asks(env, base, max, 0) == []
  {
    assert base + [] == base;
  }

  lemma AsksNext(env: Env, base: seq<Message>, max: nat, r: nat, requests: seq<Request>, messages: seq<Message>)
    requires Between(env, max, r, requests) && Answered(env, base, r, requests, messages)
    ensures Asks(env, base, max, r + 1) == Asks(env, base, max, r) + [Ask(messages, |requests| < max)]
  {
    hide Env.Handle, Env.Calling, Answers, AllSettled, Env.Asked;
    var n := |env.Asked(r)|;
    assert |requests| == Min(max, n);
    assert (Min(max, n) < max) == (n < max);
  }

  lemma EndsWith(env: Env, max: nat, r: nat, requests: seq<Request>)
    requires Between(env, max, r, requests) && r <= max && !env.Calling(r)
    ensures Ran(env, max, r + 1, Ended(env.generate(r)), requests)
  {
    hide Env.Handle, Env.Calling, AllSettled, Env.Asked;
  }

  lemma CallingIff(env: Env, r: nat)
    ensures env.Calling(r) <==> env.generate(r).Ok? && env.generate(r).value.toolCalls != []
    ensures env.generate(r).Ok? ==> env.CallsOf(r) == env.generate(r).value.toolCalls
  {
  }

  lemma RunsOutOfRounds(env: Env, max: nat, requests: seq<Request>)
    requires Between(env, max, max + 1, requests)
    ensures Ran(env, max, max + 1, Ended(Err(Provider(NotConfigured))), requests)
  {
    hide Env.Handle, AllSettled, Env.Asked;
    assert env.Calling(max);
  }

  /** The whole loop: at most `max + 1` rounds. */
  method RunToolChain(store: Store, env: Env, base: seq<Message>, max: nat) returns (end: ChainEnd, ghost n: nat)
    requires store.generation == None && store.requests == [] && store.trace == []
    modifies store`generation, store`requests, store`trace
    ensures Ran(env, max, n, end, store.requests)
    ensures store.trace == Asks(env, base, max, n)
    ensures store.requests != [] ==> store.generation == Some(AwaitingToolApproval)
    ensures store.generation.Some? ==> store.generation == Some(AwaitingToolApproval)
  {
    hide *;
    var messages, chainIndex := base, 0;
    Starts(env, base, max);
    for r := 0 to max + 1
      invariant Between(env, max, r, store.requests) && Answered(env, base, r, store.requests, messages)
      invariant store.trace == Asks(env, base, max, r) && chainIndex == |store.requests|
      invariant store.requests != [] ==> store.generation.Some?
      invariant store.generation.Some? ==> store.generation == Some(AwaitingToolApproval)
    {
      AsksNext(env, base, max, r, store.requests, messages);
      store.Append(Ask(messages, chainIndex < max));
      CallingIff(env, r);
      match env.generate(r) {
        case Err(error) =>
          EndsWith(env, max, r, store.requests);
          return Ended(Err(error)), r + 1;
        case Ok(output) =>
          if output.toolCalls == [] {
            EndsWith(env, max, r, store.requests);
            return Ended(Ok(output)), r + 1;
          }
          var roundEnd;
          messages, chainIndex, roundEnd :=
            HandleRound(store, env, max, r, output.toolCalls, base, messages, chainIndex);
          match roundEnd {
            case Exhausted =>
            case RoundWaiting => return Waiting, r + 1;
            case RoundFailed => return DatabaseError, r + 1;
          }
      }
    }
    RunsOutOfRounds(env, max, store.requests);
    end, n := Ended(Err(Provider(NotConfigured))), max + 1;
  }

  // ------------------------------------------------------------------ what every run keeps

  lemma {:induction false} AskedGrows(env: Env, n: nat, m: nat)
    requires n <= m
    ensures env.Asked(n) <= env.Asked(m)
    decreases m
  {
    if n < m { AskedGrows(env, n, m - 1); }
  }

  lemma {:induction false} EveryRoundAsks(env: Env, n: nat)
    requires forall r :: 0 <= r < n ==> env.Calling(r)
    ensures |env.Asked(n)| >= n
  {
    if n > 0 {
      assert env.Calling(n - 1);
      EveryRoundAsks(env, n - 1);
    }
  }

  /**
   * Requests are numbered without gap or repeat and match the calls asked for; at most one waits for
   * approval, and only as the last request of a run that ends waiting.
   */
  lemma RequestsAreNumbered(env: Env, max: nat, n: nat, end: ChainEnd, requests: seq<Request>)
    requires Ran(env, max, n, end, requests)
    ensures |requests| <= |env.Asked(n)| && |requests| <= max
    ensures forall i :: 0 <= i < |requests| ==>
              && requests[i].chainIndex == i
              && requests[i].tool == env.Asked(n)[i].name && requests[i].arguments == env.Asked(n)[i].arguments
              && (requests[i].status.AwaitingApproval? <==> end.Waiting? && i == |requests| - 1)
  {
    hide Env.Asked, Env.Calling;
    AskedGrows(env, n - 1, n);
    if end.DatabaseError? {
      var k :| 0 <= k < max && AbortedAt(env, n, k, requests);
    }
  }

  /** The status of an executed request, by how the execution went. */
  predicate RunsTo(execution: Execution, status: Status) {
    match status
    case Succeeded => execution.Succeeds?
    case Failed => execution.Fails?
    case TimedOut => execution.RunsOut?
    case _ => false
  }

  /** What a request comes to follows from the validation of its call: refused, parked, or executed. */
  lemma StatusFollowsValidation(env: Env, max: nat, n: nat, end: ChainEnd, requests: seq<Request>, i: nat)
    requires Ran(env, max, n, end, requests) && i < |requests|
    ensures i < |env.Asked(n)|
    ensures var validation, status := env.validate(env.Asked(n)[i]), requests[i].status;
            && (status.Refused? <==> validation.UnknownOrDisabled? || validation.SchemaMismatch?)
            && (status.AwaitingApproval? <==> validation == Allowed(true))
            && (status.Pending? <==> validation == Allowed(false) && env.fault(i, Start))
            && (status.Executing? <==> validation == Allowed(false) && !env.fault(i, Start) && env.fault(i, Finish))
            && (validation == Allowed(false) && !env.fault(i, Start) && !env.fault(i, Finish) ==>
                  RunsTo(env.execute(i, env.Asked(n)[i]), status))
  {
    hide Env.Asked, Env.Calling;
    AskedGrows(env, n - 1, n);
    if end.DatabaseError? {
      var k :| 0 <= k < max && AbortedAt(env, n, k, requests);
    }
  }

  /** A run waits behind a call that needs approval, and fails in the database behind a step that failed. */
  lemma EndsForAReason(env: Env, max: nat, n: nat, end: ChainEnd, requests: seq<Request>)
    requires Ran(env, max, n, end, requests)
    ensures end.Waiting? ==>
      0 < |requests| <= |env.Asked(n)| && env.validate(env.Asked(n)[|requests| - 1]) == Allowed(true)
    ensures end.DatabaseError? ==> exists k: nat, step :: k < max && step != Start && env.fault(k, step)
  {
    hide Env.Asked, Env.Calling;
    if end.DatabaseError? {
      var k :| 0 <= k < max && AbortedAt(env, n, k, requests);
      if env.fault(k, Provision) {
      } else if env.fault(k, Insert) {
      } else {
        assert env.fault(k, Finish);
      }
    }
  }

  /** The text that answers a call, by its validation and execution. */
  predicate Says(env: Env, i: nat, call: ToolCall, text: string) {
    match env.validate(call)
    case UnknownOrDisabled => text == "Tool '" + call.name + "' is not available or disabled."
    case SchemaMismatch(detail) => text == "Tool '" + call.name + "' call had invalid arguments: " + detail
    case Allowed(_) =>
      match env.execute(i, call)
      case Succeeds(shown) => text == shown
      case Fails(error) => text == "Error: " + error
      case RunsOut => text == "The tool execution timed out."
  }

  lemma SettledSays(env: Env, i: nat, call: ToolCall)
    requires env.Handle(i, call).Settled?
    ensures Says(env, i, call, env.Handle(i, call).text)
  {
  }

  /**
   * What the provider is asked in round `r`: the conversation, then one tool message for each call settled
   * so far, with its id and the text it calls for; tools are offered while numbers remain.
   */
  lemma ProviderIsAsked(env: Env, base: seq<Message>, max: nat, n: nat, end: ChainEnd, requests: seq<Request>, r: nat)
    requires Ran(env, max, n, end, requests) && r < n
    ensures var ask, asked := Asks(env, base, max, n)[r], env.Asked(r);
            && ask.Ask? && base <= ask.messages && (ask.toolsOffered <==> |asked| < max)
            && |ask.messages| == |base| + (if |asked| < max then |asked| else max)
            && forall i :: 0 <= i < |ask.messages| - |base| ==>
                 var message := ask.messages[|base| + i];
                 && message.role == ToolResult && message.toolCalls == [] && message.toolCallId == Some(asked[i].id)
                 && Says(env, i, asked[i], message.content)
  {
    hide Env.Handle, Env.Asked, Asks, Says;
    var asked := env.Asked(r);
    var k := Min(max, |asked|);
    assert Asks(env, base, max, n)[r] == AskOf(env, base, max, r);
    var answers := Answers(env, asked, k);
    AnswersHaveNoCalls(env, asked, k);
    forall i | 0 <= i < k
      ensures Says(env, i, asked[i], answers[i].content)
    {
      SettledBefore(env, max, n, end, requests, r, i);
      SettledSays(env, i, asked[i]);
    }
  }

  lemma {:induction false} AnswersHaveNoCalls(env: Env, calls: seq<ToolCall>, k: nat)
    requires k <= |calls|
    ensures forall i :: 0 <= i < k ==> Answers(env, calls, k)[i].toolCalls == []
  {
    hide Env.Handle;
    if k > 0 { AnswersHaveNoCalls(env, calls, k - 1); }
  }

  /** A call of an earlier round with a number is settled. */
  lemma SettledBefore(env: Env, max: nat, n: nat, end: ChainEnd, requests: seq<Request>, r: nat, i: nat)
    requires Ran(env, max, n, end, requests) && r < n && i < |env.Asked(r)| && i < max
    ensures env.Handle(i, env.Asked(r)[i]).Settled?
  {
    hide Env.Handle, Env.Asked, Env.Calling;
    AskedGrows(env, r, n - 1);
    AskedGrows(env, n - 1, n);
    if end.DatabaseError? {
      var k :| 0 <= k < max && AbortedAt(env, n, k, requests);
    }
  }

  predicate Terminal(status: Status) {
    status.Refused? || status.Succeeded? || status.Failed? || status.TimedOut?
  }

  /**
   * A request followed by another, or left by a run that ended by itself, is settled unless it could not be
   * started.
   */
  lemma SettledIff(env: Env, max: nat, n: nat, end: ChainEnd, requests: seq<Request>, i: nat)
    requires Ran(env, max, n, end, requests) && i < |requests| && (end.Ended? || i < |requests| - 1)
    ensures i < |env.Asked(n)|
    ensures Terminal(requests[i].status) <==> !(env.validate(env.Asked(n)[i]) == Allowed(false) && env.fault(i, Start))
  {
    hide Env.Asked, Env.Calling;
    AskedGrows(env, n - 1, n);
    if end.DatabaseError? {
      var k :| 0 <= k < max && AbortedAt(env, n, k, requests);
    }
  }

  /** Each of the first `max` calls is refused or runs to an end. */
  predicate AllSettle(env: Env, max: nat, calls: seq<ToolCall>) {
    forall i :: 0 <= i < max && i < |calls| ==> Settles(env, i, calls[i])
  }

  /** A call is not parked, and no step of it fails that would end the run. */
  predicate Settles(env: Env, i: nat, call: ToolCall) {
    && env.validate(call) != Allowed(true) && !env.fault(i, Provision) && !env.fault(i, Insert)
    && !(env.validate(call).Allowed? && env.fault(i, Finish))
  }

  lemma SettlesIff(env: Env, i: nat, call: ToolCall)
    ensures Settles(env, i, call) <==> env.Handle(i, call).Settled?
  {
  }

  /** The placeholder error survives exactly when every round asks for tools and nothing stops the numbering. */
  lemma PlaceholderIff(env: Env, max: nat, n: nat, end: ChainEnd, requests: seq<Request>)
    requires Ran(env, max, n, end, requests)
    ensures end.Ended? && env.Calling(n - 1)
       <==> && (forall r :: 0 <= r <= max ==> env.Calling(r))
            && AllSettle(env, max, env.Asked(max + 1))
  {
    hide Env.Asked, Env.Calling, Env.Handle, Settles;
    forall i: nat, call
      ensures Settles(env, i, call) <==> env.Handle(i, call).Settled?
    {
      SettlesIff(env, i, call);
    }
    if forall r :: 0 <= r <= max ==> env.Calling(r) {
      AskedGrows(env, n, max + 1);
      match end {
        case Ended(_) =>
          assert env.Calling(n - 1);
          EveryRoundAsks(env, max + 1);
        case Waiting =>
          var k := |requests| - 1;
          assert env.Asked(n)[k] == env.Asked(max + 1)[k];
        case DatabaseError =>
          var k :| 0 <= k < max && AbortedAt(env, n, k, requests);
          assert env.Asked(n)[k] == env.Asked(max + 1)[k];
      }
    }
  }

  /**
   * When a provider that is offered no tools asks for none, the loop ends within `max + 1` rounds with
   * what the last round gave, a request waiting for approval, or a database error: never the placeholder.
   */
  lemma NeverThePlaceholder(env: Env, max: nat, n: nat, end: ChainEnd, requests: seq<Request>)
    requires Ran(env, max, n, end, requests)
    requires forall r :: 0 <= r <= max && |env.Asked(r)| >= max ==> env.CallsOf(r) == []
    ensures n <= max + 1
    ensures end.Ended? ==> !env.Calling(n - 1) && end.result == env.generate(n - 1)
  {
    hide Env.Asked, Env.Handle;
    if end.Ended? && env.Calling(n - 1) {
      EveryRoundAsks(env, max);
      CallingIff(env, max);
      assert false;
    }
  }

  // ------------------------------------------------------------------ a run with one call

  const ONE_CALL := Output("", NO_META, false, [StreamTask.LOOKUP])

  /** One round asks for one tool, which runs; the next gives `last`. */
  function OneCallEnv(last: Result<Output, GenerateError>, fault: (nat, Step) -> bool): Env {
    Env(r => if r == 0 then Ok(ONE_CALL) else last, _ => Allowed(false), (_, _) => Succeeds("found"), fault)
  }

  /** Such a run asks twice and leaves one row. */
  lemma OneCallRan(last: Result<Output, GenerateError>, fault: (nat, Step) -> bool, max: nat, n: nat, end: ChainEnd,
                   requests: seq<Request>)
    requires max >= 1 && (last.Ok? ==> last.value.toolCalls == [])
    requires !fault(0, Provision) && !fault(0, Insert) && !fault(0, Finish)
    requires Ran(OneCallEnv(last, fault), max, n, end, requests)
    ensures n == 2 && end == Ended(last)
    ensures requests == [RowOf(StreamTask.LOOKUP, if fault(0, Start) then Pending else Succeeded, 0)]
  {
    var env := OneCallEnv(last, fault);
    hide Env.Asked;
    AskedByOne(last, fault);
    assert env.Calling(0) && !env.Calling(1);
    assert env.Handle(0, StreamTask.LOOKUP).Settled?;
  }

  lemma AskedByOne(last: Result<Output, GenerateError>, fault: (nat, Step) -> bool)
    ensures OneCallEnv(last, fault).Asked(1) == [StreamTask.LOOKUP] && OneCallEnv(last, fault).Asked(0) == []
  {
    var env := OneCallEnv(last, fault);
    assert env.Asked(0) == [] && env.CallsOf(0) == [StreamTask.LOOKUP];
    assert env.Asked(1) == env.Asked(0) + env.CallsOf(0);
  }

  const FOUND := Message(ToolResult, "found", [], Some("c1"))

  lemma AnswersOfOne(last: Result<Output, GenerateError>, fault: (nat, Step) -> bool)
    requires !fault(0, Provision) && !fault(0, Insert) && !fault(0, Finish)
    ensures Answers(OneCallEnv(last, fault), [StreamTask.LOOKUP], 1) == [FOUND]
  {
    var env := OneCallEnv(last, fault);
    assert Answers(env, [StreamTask.LOOKUP], 0) == [];
    assert Answers(env, [StreamTask.LOOKUP], 1) == [] + [FOUND];
  }

  lemma AsksOfOne(last: Result<Output, GenerateError>, fault: (nat, Step) -> bool)
    requires !fault(0, Provision) && !fault(0, Insert) && !fault(0, Finish)
    ensures Asks(OneCallEnv(last, fault), [], 5, 2) == [Ask([], true), Ask([FOUND], true)]
  {
    hide Asks, Env.Asked, Env.Handle, OneCallEnv;
    var env := OneCallEnv(last, fault);
    AskedByOne(last, fault);
    AnswersOfOne(last, fault);
    assert AskOf(env, [], 5, 0) == Ask([] + [], true) && AskOf(env, [], 5, 1) == Ask([] + [FOUND], true);
    assert Asks(env, [], 5, 2)[0] == Ask([], true) && Asks(env, [], 5, 2)[1] == Ask([FOUND], true);
  }

  /** A tool runs and its result is sent on, but its request stays pending because its start was not marked. */
  method StaysPendingThoughRun() returns (store: Store)
    ensures fresh(store) && store.requests == [RowOf(StreamTask.LOOKUP, Pending, 0)]
    ensures store.trace == [Ask([], true), Ask([FOUND], true)]
  {
    hide Ran, Asks, OneCallEnv;
    store := new Store();
    var reply := Ok(Output("Found.", NO_META, false, []));
    var fault: (nat, Step) -> bool := (_, step) => step == Start;
    ghost var n;
    var end;
    end, n := RunToolChain(store, OneCallEnv(reply, fault), [], 5);
    OneCallRan(reply, fault, 5, n, end, store.requests);
    AsksOfOne(reply, fault);
  }

  // ------------------------------------------------------------------ a run with a doubled call

  /** The first round gives the reply that carries one call twice; the tool runs, and the next round answers. */
  function DoubledEnv(last: Result<Output, GenerateError>): Env {
    Env(r => if r == 0 then Ok(DOUBLED) else last, _ => Allowed(false), (_, _) => Succeeds("found"), (_, _) => false)
  }

  lemma AskedByDoubled(last: Result<Output, GenerateError>)
    ensures DoubledEnv(last).Asked(1) == DOUBLED.toolCalls && DoubledEnv(last).Asked(0) == []
  {
    var env := DoubledEnv(last);
    assert env.Asked(0) == [] && env.CallsOf(0) == DOUBLED.toolCalls;
    assert env.Asked(1) == env.Asked(0) + env.CallsOf(0);
  }

  lemma DoubledRan(last: Result<Output, GenerateError>, n: nat, end: ChainEnd, requests: seq<Request>)
    requires (last.Ok? ==> last.value.toolCalls == []) && Ran(DoubledEnv(last), 5, n, end, requests)
    ensures n == 2 && end == Ended(last)
    ensures requests == [RowOf(StreamTask.LOOKUP, Succeeded, 0), RowOf(StreamTask.LOOKUP, Succeeded, 1)]
  {
    var env := DoubledEnv(last);
    hide Env.Asked;
    AskedByDoubled(last);
    assert env.Calling(0) && !env.Calling(1);
    assert env.Handle(0, StreamTask.LOOKUP).Settled? && env.Handle(1, StreamTask.LOOKUP).Settled?;
  }

  /**
   * A stream breaks off behind a call, the retry makes the same call and ends well, and the tool runs
   * twice: the first round is a reply that generation gives, on streams that the relaying task sends.
   */
  method CallExecutedTwice() returns (store: Store)
    ensures fresh(store) && store.event
    ensures store.requests == [RowOf(StreamTask.LOOKUP, Succeeded, 0), RowOf(StreamTask.LOOKUP, Succeeded, 1)]
    ensures ServedBy(TwoStreams(), SERVED_TWICE) && StreamTask.Tools(SERVED_TWICE[1].Stream()) == [StreamTask.LOOKUP]
    ensures Concluded(TwoStreams(), [], TwoRounds([]), Ok(DOUBLED))
  {
    hide Ran, DoubledEnv, Concluded, ServedBy, StreamTask.Tools, TwoStreams, TwoRounds, Served.Stream;
    store := new Store();
    var reply := Ok(Output("Found.", NO_META, false, []));
    ghost var n;
    var end;
    end, n := RunToolChain(store, DoubledEnv(reply), [], 5);
    DoubledRan(reply, n, end, store.requests);
    CallCollectedTwice([]);
  }
}
