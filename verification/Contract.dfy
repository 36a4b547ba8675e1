/** Types shared by the provider adapters and the services above them. */
module Contract {
  import opened Text

  datatype ErrorCategory = Authentication | RateLimited | Unavailable | Timeout | InvalidRequest {
    predicate Retriable() {
      RateLimited? || Unavailable? || Timeout?
    }
  }

  /** A provider error; the human-readable detail is not part of this model. */
  datatype ProviderError = ProviderError(category: ErrorCategory, retriable: bool)

  datatype Result<+T, +E> = Ok(value: T) | Err(error: E)

  /** JSON values, with serde_json's total indexing: a missing field or a non-object gives null. */
  datatype Json =
    | Null
    | Bool(b: bool)
    | Num(n: int)
    | Str(s: string)
    | Arr(items: seq<Json>)
    | Obj(fields: map<string, Json>)
  {
    function At(key: string): Json {
      if Obj? && key in fields then fields[key] else Null
    }

    predicate Has(key: string) {
      Obj? && key in fields
    }

    function AsStr(): Option<string> {
      if Str? then Some(s) else None
    }

    /** `as_u64().map(|v| v as u32)`: out of range is absent, then the low 32 bits are kept. */
    function AsU32(): Option<int> {
      if Num? && 0 <= n < 0x1_0000_0000_0000_0000 then Some(n % 0x1_0000_0000) else None
    }

    /** `as_i64().unwrap_or(0) as usize` on a 64-bit target. */
    function AsIndex(): nat {
      if Num? && -0x8000_0000_0000_0000 <= n < 0x8000_0000_0000_0000
      then (if n < 0 then n + 0x1_0000_0000_0000_0000 else n)
      else 0
    }
  }

  /** A value holds at least these fields, at any depth; objects may hold others beside them. */
  predicate Holds(json: Json, least: Json)
    decreases least
  {
    match least
    case Obj(fields) => json.Obj? && forall key <- fields :: Holds(json.At(key), fields[key])
    case Arr(items) =>
      json.Arr? && |json.items| == |items| && forall i :: 0 <= i < |items| ==> Holds(json.items[i], items[i])
    case _ => json == least
  }

  datatype ToolCall = ToolCall(id: string, name: string, arguments: Json)

  datatype FinishReason = Stop | Length | ToolUse | Other

  datatype TokenUsage = TokenUsage(input: Option<int>, output: Option<int>)

  /** What one vendor stream yields. */
  datatype StreamEvent =
    | Delta(text: string)
    | Tool(call: ToolCall)
    | Done(usage: TokenUsage, model: string, finish: FinishReason)

  /** What a non-streaming call yields. */
  datatype ChatCompletion = ChatCompletion(
    content: string, model: string, usage: TokenUsage, finish: FinishReason, toolCalls: seq<ToolCall>)

  /** The texts of the deltas of a sequence of vendor results, in order. */
  function DeltaTexts(events: seq<Result<StreamEvent, ProviderError>>): seq<string> {
    if events == [] then []
    else (if events[0].Ok? && events[0].value.Delta? then [events[0].value.text] else []) + DeltaTexts(events[1..])
  }

  /** The tool calls of a sequence of vendor results, in order. */
  function CallsOf(events: seq<Result<StreamEvent, ProviderError>>): seq<ToolCall> {
    if events == [] then []
    else (if events[0].Ok? && events[0].value.Tool? then [events[0].value.call] else []) + CallsOf(events[1..])
  }

  lemma EventsFirst(events: seq<Result<StreamEvent, ProviderError>>)
    requires events != []
    ensures DeltaTexts(events)
         == (if events[0].Ok? && events[0].value.Delta? then [events[0].value.text] else []) + DeltaTexts(events[1..])
    ensures CallsOf(events)
         == (if events[0].Ok? && events[0].value.Tool? then [events[0].value.call] else []) + CallsOf(events[1..])
  {
  }

  lemma NoEvents()
    ensures DeltaTexts([]) == [] && CallsOf([]) == []
  {
  }

  lemma {:induction false} EventsAppend(a: seq<Result<StreamEvent, ProviderError>>,
                                        b: seq<Result<StreamEvent, ProviderError>>)
    ensures DeltaTexts(a + b) == DeltaTexts(a) + DeltaTexts(b)
    ensures CallsOf(a + b) == CallsOf(a) + CallsOf(b)
  {
    hide DeltaTexts, CallsOf;
    if a == [] {
      NoEvents();
      assert a + b == b;
      assert [] + DeltaTexts(b) == DeltaTexts(b) && [] + CallsOf(b) == CallsOf(b);
    } else {
      EventsFirst(a);
      EventsFirst(a + b);
      assert (a + b)[1..] == a[1..] + b;
      EventsAppend(a[1..], b);
    }
  }
}
