/**
 * The spawned tasks that relay a vendor stream to the caller: retry and failover before the first
 * delta, and the fixed-provider variant. Vendors are arbitrary scripts, and the receiver may hang up
 * after any number of events.
 */
module StreamTask {
  import opened Text
  import opened Contract

  type VendorEvent = Result<StreamEvent, ProviderError>

  /** What opening one vendor stream gives. */
  datatype Open = Refused(error: ProviderError) | Opened(events: seq<VendorEvent>)

  datatype Attempt = Attempt(provider: string, model: string)

  datatype CallResult = CallResult(
    content: string, provider: string, model: string, usage: TokenUsage, finish: FinishReason,
    toolCalls: seq<ToolCall>)

  /** What the task sends to its receiver. */
  datatype AiEvent =
    | AiDelta(text: string)
    | AiTool(call: ToolCall)
    | AiDone(result: CallResult)
    | AiError(category: ErrorCategory)
  {
    predicate Terminal() {
      AiDone? || AiError?
    }
  }

  datatype UsageRow = UsageRow(provider: string, model: string, success: bool, category: Option<ErrorCategory>)

  const MAX_RETRY: nat := 2

  // ------------------------------------------------------------------ what an event sequence says

  function Deltas(events: seq<AiEvent>): seq<string> {
    if events == [] then []
    else
      var last := events[|events| - 1];
      Deltas(events[..|events| - 1]) + (if last.AiDelta? then [last.text] else [])
  }

  function Tools(events: seq<AiEvent>): seq<ToolCall> {
    if events == [] then []
    else
      var last := events[|events| - 1];
      Tools(events[..|events| - 1]) + (if last.AiTool? then [last.call] else [])
  }

  predicate Running(events: seq<AiEvent>) {
    forall i :: 0 <= i < |events| ==> !events[i].Terminal()
  }

  lemma Snoc(events: seq<AiEvent>, event: AiEvent)
    ensures Deltas(events + [event]) == Deltas(events) + (if event.AiDelta? then [event.text] else [])
    ensures Tools(events + [event]) == Tools(events) + (if event.AiTool? then [event.call] else [])
  {
    assert (events + [event])[..|events|] == events;
  }

  lemma Nothing()
    ensures Deltas([]) == [] && Tools([]) == []
  {
  }

  lemma {:induction false} Append(a: seq<AiEvent>, b: seq<AiEvent>)
    ensures Deltas(a + b) == Deltas(a) + Deltas(b) && Tools(a + b) == Tools(a) + Tools(b)
    decreases |b|
  {
    hide Deltas, Tools;
    if b == [] {
      Nothing();
      assert a + b == a;
      assert Deltas(a) + [] == Deltas(a) && Tools(a) + [] == Tools(a);
    } else {
      var front, last := b[..|b| - 1], b[|b| - 1];
      Append(a, front);
      Snoc(a + front, last);
      Snoc(front, last);
      assert a + b == (a + front) + [last] && b == front + [last];
      AppendAssoc(Deltas(a), Deltas(front), if last.AiDelta? then [last.text] else []);
      AppendAssoc(Tools(a), Tools(front), if last.AiTool? then [last.call] else []);
    }
  }

  /** What a receiver that hangs up after some events has got. */
  function Delivered(events: seq<AiEvent>, hangup: Option<nat>): seq<AiEvent> {
    if hangup.Some? && hangup.value < |events| then events[..hangup.value] else events
  }

  // ------------------------------------------------------------------ one vendor stream

  predicate IsPlain(event: VendorEvent) {
    event.Ok? && !event.value.Done?
  }

  /** The position of the first `Done` or error, or the length. */
  function StopAt(events: seq<VendorEvent>): (k: nat)
    ensures k <= |events| && (forall j :: 0 <= j < k ==> IsPlain(events[j])) && (k < |events| ==> !IsPlain(events[k]))
  {
    if events == [] || !IsPlain(events[0]) then 0 else 1 + StopAt(events[1..])
  }

  function Convert(event: VendorEvent): AiEvent
    requires IsPlain(event)
  {
    if event.value.Delta? then AiDelta(event.value.text) else AiTool(event.value.call)
  }

  function RelayUpTo(events: seq<VendorEvent>, k: nat): (r: seq<AiEvent>)
    requires k <= |events| && forall j :: 0 <= j < k ==> IsPlain(events[j])
    ensures |r| == k && Running(r)
  {
    if k == 0 then [] else RelayUpTo(events, k - 1) + [Convert(events[k - 1])]
  }

  /** The deltas and tool calls relayed from one vendor stream. */
  function Relay(open: Open): (r: seq<AiEvent>)
    ensures Running(r)
  {
    if open.Refused? then [] else RelayUpTo(open.events, StopAt(open.events))
  }

  predicate EndsSilently(open: Open) {
    open.Opened? && StopAt(open.events) == |open.events|
  }

  /** The result or error that ends a vendor stream. */
  function Ending(open: Open): VendorEvent
    requires open.Opened? && !EndsSilently(open)
  {
    open.events[StopAt(open.events)]
  }

  /** Nothing a customer could have seen has been sent, and trying again may help. */
  predicate RetryAfter(open: Open, retry: nat) {
    && retry < MAX_RETRY && Deltas(Relay(open)) == []
    && match open
       case Refused(error) => error.retriable
       case Opened(_) => EndsSilently(open) || (Ending(open).Err? && Ending(open).error.retriable)
  }

  /** The next provider is tried after a refused open, or after the last open that stayed silent. */
  predicate FailoverAfter(open: Open, retry: nat) {
    !RetryAfter(open, retry) && (open.Refused? || (EndsSilently(open) && Deltas(Relay(open)) == []))
  }

  /** The event that closes the transcript when the last opened stream decides; none if it fell silent after a delta. */
  function ClosingOf(attempt: Attempt, open: Open, sent: seq<AiEvent>): seq<AiEvent> {
    if open.Refused? || EndsSilently(open) then []
    else
      match Ending(open)
      case Err(error) => [AiError(error.category)]
      case Ok(done) =>
        [AiDone(CallResult(Concat(Deltas(sent)), attempt.provider, done.model, done.usage, done.finish, Tools(sent)))]
  }

  function RowsOf(attempt: Attempt, open: Open): seq<UsageRow> {
    if open.Refused? || EndsSilently(open) then []
    else
      match Ending(open)
      case Err(error) => [UsageRow(attempt.provider, attempt.model, false, Some(error.category))]
      case Ok(done) => [UsageRow(attempt.provider, done.model, true, None)]
  }

  datatype Next = Returned | TryAgain

  /** What the task keeps while it relays: what was sent, and its two accumulators. */
  datatype Relaying = Relaying(sent: seq<AiEvent>, content: string, toolCalls: seq<ToolCall>, firstDeltaSent: bool)

  predicate Consistent(s: Relaying) {
    s.content == Concat(Deltas(s.sent)) && s.toolCalls == Tools(s.sent) && (s.firstDeltaSent <==> Deltas(s.sent) != [])
  }

  /** The receiver hung up before it took everything relayed from this stream. */
  predicate Cut(events: seq<AiEvent>, hangup: Option<nat>) {
    hangup.Some? && hangup.value < |events|
  }

  /** The usage row written when the receiver is found gone: only a delta that cannot be sent is recorded. */
  function HangupRows(attempt: Attempt, missed: AiEvent): seq<UsageRow> {
    if missed.AiDelta? then [UsageRow(attempt.provider, attempt.model, false, Some(Unavailable))] else []
  }

  /** How the task may stand after one vendor stream that was opened with `sent0` already sent. */
  predicate Pumped(attempt: Attempt, open: Open, retry: nat, hangup: Option<nat>, sent0: seq<AiEvent>,
                   s: Relaying, usage: seq<UsageRow>, next: Next)
  {
    var relayed := sent0 + Relay(open);
    match next
    case TryAgain =>
      && !Cut(relayed, hangup) && (RetryAfter(open, retry) || EndsSilently(open))
      && s.sent == relayed && Consistent(s) && usage == []
    case Returned =>
      if Cut(relayed, hangup) then
        s.sent == Delivered(relayed, hangup) && usage == HangupRows(attempt, relayed[hangup.value])
      else
        && !RetryAfter(open, retry) && !EndsSilently(open)
        && s.sent == Delivered(relayed + ClosingOf(attempt, open, relayed), hangup) && usage == RowsOf(attempt, open)
  }

  /** The loop has relayed the first `j` events. */
  ghost predicate AtEvent(events: seq<VendorEvent>, sent0: seq<AiEvent>, s: Relaying, j: nat) {
    j <= StopAt(events) && s.sent == sent0 + RelayUpTo(events, j) && Consistent(s)
  }

  lemma {:induction false} RelayMore(events: seq<VendorEvent>, sent0: seq<AiEvent>, s: Relaying, j: nat)
    requires AtEvent(events, sent0, s, j) && j < |events| && IsPlain(events[j])
    ensures j < StopAt(events)
    ensures Convert(events[j]) == if events[j].value.Delta? then AiDelta(events[j].value.text)
        else AiTool(events[j].value.call)
    ensures match events[j].value
            case Tool(call) =>
              AtEvent(events, sent0, s.(sent := s.sent + [AiTool(call)], toolCalls := s.toolCalls + [call]), j + 1)
            case Delta(text) =>
              AtEvent(events, sent0,
                      s.(sent := s.sent + [AiDelta(text)], content := s.content + text, firstDeltaSent := true), j + 1)
            case Done(_, _, _) => true
  {
    hide Deltas, Tools, Concat, StopAt, RelayUpTo, Consistent;
    var event := Convert(events[j]);
    RelayedNext(events, j);
    AppendAssoc(sent0, RelayUpTo(events, j), [event]);
    StaysConsistent(s, event);
  }

  lemma RelayedNext(events: seq<VendorEvent>, j: nat)
    requires j < |events| && IsPlain(events[j]) && j <= StopAt(events)
    ensures j < StopAt(events) && RelayUpTo(events, j + 1) == RelayUpTo(events, j) + [Convert(events[j])]
  {
    hide StopAt;
  }

  lemma StaysConsistent(s: Relaying, event: AiEvent)
    requires Consistent(s) && (event.AiDelta? || event.AiTool?)
    ensures event.AiDelta? ==>
      Consistent(s.(sent := s.sent + [event], content := s.content + event.text, firstDeltaSent := true))
    ensures event.AiTool? ==> Consistent(s.(sent := s.sent + [event], toolCalls := s.toolCalls + [event.call]))
  {
    hide Deltas, Tools, Concat;
    Snoc(s.sent, event);
    assert Deltas(s.sent) + [] == Deltas(s.sent) && Tools(s.sent) + [] == Tools(s.sent);
    if event.AiDelta? { ConcatSnoc(Deltas(s.sent), event.text); }
  }

  lemma {:induction false} RelayPrefix(events: seq<VendorEvent>, j: nat, k: nat)
    requires j <= k <= |events| && forall h :: 0 <= h < k ==> IsPlain(events[h])
    ensures RelayUpTo(events, j) <= RelayUpTo(events, k)
    decreases k
  {
    if j < k { RelayPrefix(events, j, k - 1); }
  }

  lemma HungUp(attempt: Attempt, open: Open, retry: nat, sent0: seq<AiEvent>, s: Relaying, j: nat,
               s': Relaying, usage: seq<UsageRow>)
    requires open.Opened? && AtEvent(open.events, sent0, s, j) && j < StopAt(open.events)
    requires s'.sent == s.sent && usage == HangupRows(attempt, Convert(open.events[j]))
    ensures Pumped(attempt, open, retry, Some(|s.sent|), sent0, s', usage, Returned)
  {
    RelayPrefix(open.events, j + 1, StopAt(open.events));
    var relayed := sent0 + Relay(open);
    assert sent0 + RelayUpTo(open.events, j + 1) <= relayed;
    assert RelayUpTo(open.events, j + 1)[j] == Convert(open.events[j]);
    assert s.sent <= relayed && relayed[|s.sent|] == Convert(open.events[j]);
    assert Delivered(relayed, Some(|s.sent|)) == s.sent;
  }

  lemma Stopped(attempt: Attempt, open: Open, retry: nat, hangup: Option<nat>, sent0: seq<AiEvent>, s: Relaying, j: nat)
    requires open.Opened? && AtEvent(open.events, sent0, s, j) && j < |open.events| && !IsPlain(open.events[j])
    requires Deltas(sent0) == [] && (hangup.Some? ==> |s.sent| <= hangup.value)
    ensures j == StopAt(open.events) && s.sent == sent0 + Relay(open) && !Cut(s.sent, hangup)
    ensures Ending(open) == open.events[j] && !EndsSilently(open)
    ensures s.firstDeltaSent <==> Deltas(Relay(open)) != []
  {
    Append(sent0, Relay(open));
  }

  lemma SilentEnd(attempt: Attempt, open: Open, retry: nat, hangup: Option<nat>, sent0: seq<AiEvent>, s: Relaying)
    requires open.Opened? && AtEvent(open.events, sent0, s, |open.events|)
    requires hangup.Some? ==> |s.sent| <= hangup.value
    ensures Pumped(attempt, open, retry, hangup, sent0, s, [], TryAgain)
  {
    assert |open.events| == StopAt(open.events);
  }

  lemma LastEvent(relayed: seq<AiEvent>, closing: AiEvent, hangup: Option<nat>)
    requires hangup.Some? ==> |relayed| <= hangup.value
    ensures Delivered(relayed + [closing], hangup)
         == if hangup.None? || |relayed| < hangup.value then relayed + [closing] else relayed
  {
    assert (relayed + [closing])[..|relayed|] == relayed;
  }

  /** The loop over one opened vendor stream, entered before any delta was sent. */
  method Pump(attempt: Attempt, events: seq<VendorEvent>, retry: nat, hangup: Option<nat>,
              sent0: seq<AiEvent>, toolCalls0: seq<ToolCall>)
    returns (s: Relaying, usage: seq<UsageRow>, next: Next)
    requires hangup.Some? ==> |sent0| <= hangup.value
    requires toolCalls0 == Tools(sent0) && Deltas(sent0) == []
    ensures Pumped(attempt, Opened(events), retry, hangup, sent0, s, usage, next)
  {
    hide Deltas, Tools, Convert;
    s, usage := Relaying(sent0, "", toolCalls0, false), [];
    ghost var open := Opened(events);
    var j := 0;
    assert sent0 + [] == sent0;
    while j < |events|
      invariant j <= |events| && AtEvent(events, sent0, s, j)
      invariant hangup.Some? ==> |s.sent| <= hangup.value
      invariant usage == []
      decreases |events| - j
    {
      hide RelayUpTo, StopAt, AtEvent, Pumped, Consistent;
      var event := events[j];
      var accepted := hangup.None? || |s.sent| < hangup.value;
      if IsPlain(event) {
        RelayMore(events, sent0, s, j);
      } else {
        Stopped(attempt, open, retry, hangup, sent0, s, j);
      }
      match event {
        case Ok(Tool(call)) =>
          if !accepted {
            var s' := s.(toolCalls := s.toolCalls + [call]);
            HungUp(attempt, open, retry, sent0, s, j, s', usage);
            return s', usage, Returned;
          }
          s := s.(sent := s.sent + [AiTool(call)], toolCalls := s.toolCalls + [call]);
        case Ok(Delta(text)) =>
          if !accepted {
            var s' := s.(content := s.content + text, firstDeltaSent := true);
            usage := [UsageRow(attempt.provider, attempt.model, false, Some(Unavailable))];
            HungUp(attempt, open, retry, sent0, s, j, s', usage);
            return s', usage, Returned;
          }
          s := s.(sent := s.sent + [AiDelta(text)], content := s.content + text, firstDeltaSent := true);
        case Ok(Done(tokens, model, finish)) =>
          var result := CallResult(s.content, attempt.provider, model, tokens, finish, s.toolCalls);
          usage := [UsageRow(attempt.provider, model, true, None)];
          DoneClosing(attempt, open, retry, hangup, sent0, s, j);
          if accepted {
            s := s.(sent := s.sent + [AiDone(result)]);
          }
          return s, usage, Returned;
        case Err(error) =>
          ErrorClosing(attempt, open, retry, hangup, sent0, s, j);
          if !s.firstDeltaSent {
            if error.retriable && retry < MAX_RETRY {
              return s, usage, TryAgain;
            }
          }
          usage := [UsageRow(attempt.provider, attempt.model, false, Some(error.category))];
          if accepted {
            s := s.(sent := s.sent + [AiError(error.category)]);
          }
          return s, usage, Returned;
      }
      j := j + 1;
    }
    SilentEnd(attempt, open, retry, hangup, sent0, s);
    next := TryAgain;
  }

  lemma DoneClosing(attempt: Attempt, open: Open, retry: nat, hangup: Option<nat>, sent0: seq<AiEvent>, s: Relaying,
                    j: nat)
    requires open.Opened? && AtEvent(open.events, sent0, s, j) && j < |open.events|
    requires open.events[j].Ok? && open.events[j].value.Done?
    requires Deltas(sent0) == [] && (hangup.Some? ==> |s.sent| <= hangup.value)
    ensures var done := open.events[j].value;
            var closing :=
                AiDone(CallResult(s.content, attempt.provider, done.model, done.usage, done.finish, s.toolCalls));
            Pumped(attempt, open, retry, hangup, sent0,
                   if hangup.None? || |s.sent| < hangup.value then s.(sent := s.sent + [closing]) else s,
                   [UsageRow(attempt.provider, done.model, true, None)], Returned)
  {
    hide StopAt;
    Stopped(attempt, open, retry, hangup, sent0, s, j);
    LastEvent(s.sent, ClosingOf(attempt, open, s.sent)[0], hangup);
  }

  lemma ErrorClosing(attempt: Attempt, open: Open, retry: nat, hangup: Option<nat>, sent0: seq<AiEvent>, s: Relaying,
                     j: nat)
    requires open.Opened? && AtEvent(open.events, sent0, s, j) && j < |open.events| && open.events[j].Err?
    requires Deltas(sent0) == [] && (hangup.Some? ==> |s.sent| <= hangup.value)
    ensures var error := open.events[j].error;
            if !s.firstDeltaSent && error.retriable && retry < MAX_RETRY
            then Pumped(attempt, open, retry, hangup, sent0, s, [], TryAgain)
            else Pumped(attempt, open, retry, hangup, sent0,
                        if hangup.None? || |s.sent| < hangup.value then s.(sent := s.sent + [AiError(error.category)])
                          else s,
                        [UsageRow(attempt.provider, attempt.model, false, Some(error.category))], Returned)
  {
    hide StopAt;
    Stopped(attempt, open, retry, hangup, sent0, s, j);
    LastEvent(s.sent, AiError(open.events[j].error.category), hangup);
  }

  // ------------------------------------------------------------------ the path through providers and retries

  /** The environment of one run: the attempts, which providers are known, and what each open gives. */
  datatype World = World(attempts: seq<Attempt>, known: string -> bool, script: (nat, nat) -> Open) {
    function Open(at: (nat, nat)): Open {
      script(at.0, at.1)
    }

    /** The first attempt at or after `i` whose provider is registered. */
    function NextKnown(i: nat): (k: nat)
      requires i <= |attempts|
      ensures i <= k <= |attempts| && (k < |attempts| ==> known(attempts[k].provider))
      ensures forall j :: i <= j < k ==> !known(attempts[j].provider)
      decreases |attempts| - i
    {
      if i == |attempts| || known(attempts[i].provider) then i else NextKnown(i + 1)
    }

    /** Where the task goes after an open that decided nothing. */
    function After(at: (nat, nat)): (nat, nat)
      requires at.0 < |attempts|
    {
      if RetryAfter(Open(at), at.1) then (at.0, at.1 + 1) else (NextKnown(at.0 + 1), 0)
    }

    predicate Undecided(at: (nat, nat)) {
      RetryAfter(Open(at), at.1) || FailoverAfter(Open(at), at.1)
    }

    /** The opens start at the first known provider and each undecided one is followed by its successor. */
    predicate Path(opens: seq<(nat, nat)>) {
      && (forall k :: 0 <= k < |opens| ==>
          opens[k].0 < |attempts| && opens[k].1 <= MAX_RETRY && known(attempts[opens[k].0].provider))
      && (opens != [] ==> opens[0] == (NextKnown(0), 0))
      && (forall k :: 0 <= k < |opens| - 1 ==> Undecided(opens[k]) && opens[k + 1] == After(opens[k]))
    }

    /** The path ends because its last open decides, or because no provider is left. */
    predicate Ended(opens: seq<(nat, nat)>)
      requires Path(opens)
    {
      if opens == [] then NextKnown(0) == |attempts|
      else
        var last := opens[|opens| - 1];
        !Undecided(last) || After(last).0 == |attempts|
    }

    function Relayed(opens: seq<(nat, nat)>): (r: seq<AiEvent>)
      ensures Running(r)
    {
      if opens == [] then [] else Relayed(opens[..|opens| - 1]) + Relay(Open(opens[|opens| - 1]))
    }

    /** The last open that was refused, as the task remembers it. */
    function LastRefusal(opens: seq<(nat, nat)>): Option<(nat, nat)> {
      if opens == [] then None
      else if Open(opens[|opens| - 1]).Refused? then Some(opens[|opens| - 1])
      else LastRefusal(opens[..|opens| - 1])
    }

    function Closing(opens: seq<(nat, nat)>): seq<AiEvent>
      requires Path(opens)
    {
      if opens != [] && !Undecided(opens[|opens| - 1]) then
        var last := opens[|opens| - 1];
        ClosingOf(attempts[last.0], Open(last), Relayed(opens))
      else
        match LastRefusal(opens)
        case None => [AiError(Unavailable)]
        case Some(at) => if Open(at).Refused? then [AiError(Open(at).error.category)] else []
    }

    /** Everything a patient receiver gets. */
    function Transcript(opens: seq<(nat, nat)>): seq<AiEvent>
      requires Path(opens)
    {
      Relayed(opens) + Closing(opens)
    }

    /** The usage rows written when the receiver stays. */
    function Ledger(opens: seq<(nat, nat)>): seq<UsageRow>
      requires Path(opens)
    {
      if opens != [] && !Undecided(opens[|opens| - 1]) then
        var last := opens[|opens| - 1];
        RowsOf(attempts[last.0], Open(last))
      else
        match LastRefusal(opens)
        case None => []
        case Some(at) =>
          if Open(at).Refused? && at.0 < |attempts|
          then [UsageRow("", attempts[at.0].model, false, Some(Open(at).error.category))] else []
    }

    /** The rows written: those of the ledger, unless the receiver was gone before everything was relayed. */
    predicate Billed(opens: seq<(nat, nat)>, hangup: Option<nat>, usage: seq<UsageRow>)
      requires Path(opens)
    {
      if Cut(Relayed(opens), hangup) then
        && opens != []
        && usage == HangupRows(attempts[opens[|opens| - 1].0], Relayed(opens)[hangup.value])
      else
        Ended(opens) && usage == Ledger(opens)
    }
  }

  // ------------------------------------------------------------------ the task with retry and failover

  /** The next open of an undecided path. */
  ghost predicate Heading(w: World, opens: seq<(nat, nat)>, to: (nat, nat)) {
    && w.Path(opens)
    && if opens == [] then to == (w.NextKnown(0), 0)
       else w.Undecided(opens[|opens| - 1]) && to == w.After(opens[|opens| - 1])
  }

  /** The remembered last refusal is that of the path. */
  ghost predicate Remembers(w: World, opens: seq<(nat, nat)>, lastError: Option<(ErrorCategory, string)>) {
    match w.LastRefusal(opens)
    case None => lastError == None
    case Some(at) =>
      && w.Open(at).Refused? && at.0 < |w.attempts|
      && lastError == Some((w.Open(at).error.category, w.attempts[at.0].model))
  }

  /** Nothing is decided: only tool calls of the opens so far have been sent. */
  ghost predicate Searching(w: World, opens: seq<(nat, nat)>, sent: seq<AiEvent>, toolCalls: seq<ToolCall>,
                            lastError: Option<(ErrorCategory, string)>) {
    w.Path(opens) && sent == w.Relayed(opens) && toolCalls == Tools(sent) && Deltas(sent) == []
    && Remembers(w, opens, lastError)
  }

  /** The last stream fell silent after a delta: nothing more will be sent. */
  ghost predicate FellSilent(w: World, opens: seq<(nat, nat)>, sent: seq<AiEvent>) {
    && w.Path(opens) && opens != [] && sent == w.Relayed(opens)
    && var last := opens[|opens| - 1]; EndsSilently(w.Open(last)) && !w.Undecided(last)
  }

  lemma PathSnoc(w: World, opens: seq<(nat, nat)>, at: (nat, nat))
    requires Heading(w, opens, at) && at.0 < |w.attempts| && at.1 <= MAX_RETRY && w.known(w.attempts[at.0].provider)
    ensures w.Path(opens + [at])
    ensures w.Relayed(opens + [at]) == w.Relayed(opens) + Relay(w.Open(at))
    ensures w.LastRefusal(opens + [at]) == if w.Open(at).Refused? then Some(at) else w.LastRefusal(opens)
  {
    hide Heading, World.Path, Relay;
    PathGoesOn(w, opens, at);
    assert (opens + [at])[..|opens|] == opens;
  }

  lemma {:induction false} PathGoesOn(w: World, opens: seq<(nat, nat)>, at: (nat, nat))
    requires Heading(w, opens, at) && at.0 < |w.attempts| && at.1 <= MAX_RETRY && w.known(w.attempts[at.0].provider)
    ensures w.Path(opens + [at])
  {
    hide World.Undecided, World.After, World.NextKnown;
    var next := opens + [at];
    forall k | 0 <= k < |next| - 1
      ensures w.Undecided(next[k]) && next[k + 1] == w.After(next[k])
    {
      assert next[k] == opens[k];
      if k + 1 < |opens| { assert next[k + 1] == opens[k + 1]; }
    }
  }

  /** The task is about to open the stream `at`. */
  ghost predicate Ready(w: World, opens: seq<(nat, nat)>, at: (nat, nat)) {
    Heading(w, opens, at) && at.0 < |w.attempts| && at.1 <= MAX_RETRY && w.known(w.attempts[at.0].provider)
  }

  lemma HeadingAfter(w: World, opens: seq<(nat, nat)>, at: (nat, nat))
    requires w.Path(opens + [at]) && at.0 < |w.attempts| && w.Undecided(at)
    ensures Heading(w, opens + [at], w.After(at))
  {
    hide World.Path, World.Undecided, World.After;
    assert (opens + [at])[|opens + [at]| - 1] == at;
  }

  lemma AfterRefusal(w: World, opens: seq<(nat, nat)>, at: (nat, nat), sent: seq<AiEvent>, toolCalls: seq<ToolCall>,
                     lastError: Option<(ErrorCategory, string)>)
    requires Searching(w, opens, sent, toolCalls, lastError) && Ready(w, opens, at) && w.Open(at).Refused?
    ensures Searching(w, opens + [at], sent, toolCalls, Some((w.Open(at).error.category, w.attempts[at.0].model)))
    ensures Heading(w, opens + [at],
                    if w.Open(at).error.retriable && at.1 < MAX_RETRY then (at.0, at.1 + 1)
                      else (w.NextKnown(at.0 + 1), 0))
  {
    hide World.Path, World.Relayed, World.LastRefusal, World.NextKnown, Deltas, Tools, Heading;
    assert Heading(w, opens, at);
    PathSnoc(w, opens, at);
    Nothing();
    assert sent + [] == sent;
    HeadingAfter(w, opens, at);
  }

  lemma {:induction false} SilentAfterDelta(w: World, opens: seq<(nat, nat)>, at: (nat, nat), sent: seq<AiEvent>,
                                            toolCalls: seq<ToolCall>, lastError: Option<(ErrorCategory, string)>)
    requires Searching(w, opens, sent, toolCalls, lastError) && Ready(w, opens, at)
    requires EndsSilently(w.Open(at)) && Deltas(sent + Relay(w.Open(at))) != []
    ensures FellSilent(w, opens + [at], sent + Relay(w.Open(at)))
  {
    hide World.Path, World.Relayed, World.LastRefusal, Deltas, Tools, Relay, Heading, StopAt;
    PathSnoc(w, opens, at);
    Append(sent, Relay(w.Open(at)));
    assert Deltas(Relay(w.Open(at))) != [];
    assert (opens + [at])[|opens + [at]| - 1] == at;
  }

  lemma {:induction false} NothingHeard(w: World, opens: seq<(nat, nat)>, at: (nat, nat), sent: seq<AiEvent>,
                                        toolCalls: seq<ToolCall>, lastError: Option<(ErrorCategory, string)>)
    requires Searching(w, opens, sent, toolCalls, lastError) && Ready(w, opens, at)
    requires w.Open(at).Opened? && (RetryAfter(w.Open(at), at.1) || EndsSilently(w.Open(at)))
    requires Deltas(sent + Relay(w.Open(at))) == []
    ensures Searching(w, opens + [at], sent + Relay(w.Open(at)), Tools(sent + Relay(w.Open(at))), lastError)
    ensures Heading(w, opens + [at], if at.1 < MAX_RETRY then (at.0, at.1 + 1) else (w.NextKnown(at.0 + 1), 0))
  {
    hide World.Path, World.Relayed, World.LastRefusal, World.NextKnown, Deltas, Tools, Relay, Heading, EndsSilently;
    PathSnoc(w, opens, at);
    Append(sent, Relay(w.Open(at)));
    assert Deltas(Relay(w.Open(at))) == [];
    HeadingAfter(w, opens, at);
  }

  lemma AfterReturn(w: World, opens: seq<(nat, nat)>, at: (nat, nat), sent: seq<AiEvent>, toolCalls: seq<ToolCall>,
                    lastError: Option<(ErrorCategory, string)>, hangup: Option<nat>, s: Relaying, usage: seq<UsageRow>)
    requires Searching(w, opens, sent, toolCalls, lastError) && Ready(w, opens, at) && w.Open(at).Opened?
    requires Pumped(w.attempts[at.0], w.Open(at), at.1, hangup, sent, s, usage, Returned)
    ensures w.Path(opens + [at]) && s.sent == Delivered(w.Transcript(opens + [at]), hangup)
    ensures w.Billed(opens + [at], hangup, usage)
  {
    hide World.Path, World.Relayed, World.LastRefusal, Deltas, Tools, Relay, Heading, EndsSilently, RetryAfter;
    PathSnoc(w, opens, at);
    var path := opens + [at];
    assert path[|path| - 1] == at;
    var relayed := sent + Relay(w.Open(at));
    assert w.Relayed(path) == relayed;
    if Cut(relayed, hangup) {
      assert w.Transcript(path)[..hangup.value] == relayed[..hangup.value];
    } else {
      assert !w.Undecided(at);
      assert w.Closing(path) == ClosingOf(w.attempts[at.0], w.Open(at), relayed);
      assert w.Ledger(path) == RowsOf(w.attempts[at.0], w.Open(at));
    }
  }

  lemma {:induction false} AfterPump(w: World, opens: seq<(nat, nat)>, at: (nat, nat), sent: seq<AiEvent>,
                                     toolCalls: seq<ToolCall>, lastError: Option<(ErrorCategory, string)>,
                                     hangup: Option<nat>, s: Relaying, usage: seq<UsageRow>, next: Next)
    requires Searching(w, opens, sent, toolCalls, lastError) && Ready(w, opens, at) && w.Open(at).Opened?
    requires Pumped(w.attempts[at.0], w.Open(at), at.1, hangup, sent, s, usage, next)
    ensures next.TryAgain? && s.firstDeltaSent ==> FellSilent(w, opens + [at], s.sent)
    ensures next.TryAgain? && !s.firstDeltaSent ==>
              && Searching(w, opens + [at], s.sent, s.toolCalls, lastError)
              && Heading(w, opens + [at], if at.1 < MAX_RETRY then (at.0, at.1 + 1) else (w.NextKnown(at.0 + 1), 0))
    ensures next.TryAgain? ==> !Cut(s.sent, hangup) && usage == []
    ensures next.Returned? ==>
              && w.Path(opens + [at]) && s.sent == Delivered(w.Transcript(opens + [at]), hangup)
              && w.Billed(opens + [at], hangup, usage)
  {
    hide Searching, Ready, FellSilent, Heading, World.Path, World.Transcript, World.Billed;
    hide EndsSilently, Relay, Delivered, Deltas, Tools, ClosingOf, RowsOf;
    if next.Returned? {
      AfterReturn(w, opens, at, sent, toolCalls, lastError, hangup, s, usage);
    } else {
      SearchingTools(w, opens, sent, toolCalls, lastError);
      Append(sent, Relay(w.Open(at)));
      if s.firstDeltaSent {
        NoRetryAfterDelta(w.Open(at), at.1);
        SilentAfterDelta(w, opens, at, sent, toolCalls, lastError);
      } else {
        NothingHeard(w, opens, at, sent, toolCalls, lastError);
      }
    }
  }

  lemma NoRetryAfterDelta(open: Open, retry: nat)
    requires Deltas(Relay(open)) != []
    ensures !RetryAfter(open, retry)
  {
  }

  lemma Unanswered(w: World, opens: seq<(nat, nat)>, sent: seq<AiEvent>, toolCalls: seq<ToolCall>,
                   lastError: Option<(ErrorCategory, string)>)
    requires Searching(w, opens, sent, toolCalls, lastError) && Heading(w, opens, (|w.attempts|, 0))
    ensures w.Path(opens) && w.Ended(opens)
    ensures w.Transcript(opens) == sent + [AiError(if lastError.Some? then lastError.value.0 else Unavailable)]
    ensures w.Ledger(opens)
         == if lastError.Some? then [UsageRow("", lastError.value.1, false, Some(lastError.value.0))] else []
    ensures forall hangup :: !Cut(sent, hangup) ==> w.Billed(opens, hangup, w.Ledger(opens))
  {
    if opens != [] { assert w.Undecided(opens[|opens| - 1]); }
  }

  lemma Silence(w: World, opens: seq<(nat, nat)>, sent: seq<AiEvent>)
    requires FellSilent(w, opens, sent)
    ensures w.Path(opens)
    ensures w.Transcript(opens) == sent && w.Ended(opens) && w.Ledger(opens) == []
    ensures forall hangup :: !Cut(sent, hangup) ==> w.Billed(opens, hangup, [])
  {
    assert sent + [] == sent;
  }

  lemma DeliveredWhole(events: seq<AiEvent>, hangup: Option<nat>)
    requires !Cut(events, hangup)
    ensures Delivered(events, hangup) == events
  {
  }

  /** The retry loop and the provider loop around it. */
  method RunStream(w: World, hangup: Option<nat>)
    returns (sent: seq<AiEvent>, usage: seq<UsageRow>, opens: seq<(nat, nat)>)
    ensures w.Path(opens) && sent == Delivered(w.Transcript(opens), hangup)
    ensures w.Billed(opens, hangup, usage)
  {
    hide *;
    sent, usage, opens := [], [], [];
    var toolCalls: seq<ToolCall> := [];
    var firstDeltaSent := false;
    var lastError: Option<(ErrorCategory, string)> := None;
    StartSearch(w, hangup);
    for i := 0 to |w.attempts|
      invariant !Cut(sent, hangup) && usage == []
      invariant firstDeltaSent ==> FellSilent(w, opens, sent)
      invariant !firstDeltaSent ==>
          Searching(w, opens, sent, toolCalls, lastError) && Heading(w, opens, (w.NextKnown(i), 0))
    {
      if firstDeltaSent {
        break;
      }
      NextKnownStep(w, i);
      var attempt := w.attempts[i];
      if !w.known(attempt.provider) {
        continue;
      }
      for retry := 0 to MAX_RETRY + 1
        invariant !Cut(sent, hangup) && usage == []
        invariant firstDeltaSent ==> FellSilent(w, opens, sent)
        invariant !firstDeltaSent ==> Searching(w, opens, sent, toolCalls, lastError)
        invariant !firstDeltaSent ==>
            Heading(w, opens, if retry <= MAX_RETRY then (i, retry) else (w.NextKnown(i + 1), 0))
      {
        if firstDeltaSent {
          break;
        }
        GetReady(w, opens, (i, retry));
        SearchingTools(w, opens, sent, toolCalls, lastError);
        NotCut(sent, hangup);
        match w.script(i, retry) {
          case Opened(events) =>
            var s, rows, next := Pump(attempt, events, retry, hangup, sent, toolCalls);
            AfterPump(w, opens, (i, retry), sent, toolCalls, lastError, hangup, s, rows, next);
            opens := opens + [(i, retry)];
            if next.Returned? {
              return s.sent, rows, opens;
            }
            sent, toolCalls, firstDeltaSent := s.sent, s.toolCalls, s.firstDeltaSent;
          case Refused(error) =>
            AfterRefusal(w, opens, (i, retry), sent, toolCalls, lastError);
            opens := opens + [(i, retry)];
            lastError := Some((error.category, attempt.model));
            if error.retriable && retry < MAX_RETRY {
              continue;
            }
            break;
        }
      }
    }
    if !firstDeltaSent {
      NextKnownEnd(w);
      Unanswered(w, opens, sent, toolCalls, lastError);
      var accepted := hangup.None? || |sent| < hangup.value;
      var category := Unavailable;
      if lastError.Some? {
        usage := [UsageRow("", lastError.value.1, false, Some(lastError.value.0))];
        category := lastError.value.0;
      }
      NotCut(sent, hangup);
      LastEvent(sent, AiError(category), hangup);
      if accepted {
        sent := sent + [AiError(category)];
      }
    } else {
      Silence(w, opens, sent);
      DeliveredWhole(sent, hangup);
    }
  }

  lemma StartSearch(w: World, hangup: Option<nat>)
    ensures Searching(w, [], [], [], None) && Heading(w, [], (w.NextKnown(0), 0)) && !Cut([], hangup)
  {
  }

  lemma NextKnownStep(w: World, i: nat)
    requires i < |w.attempts|
    ensures w.NextKnown(i) == if w.known(w.attempts[i].provider) then i else w.NextKnown(i + 1)
  {
  }

  lemma NextKnownEnd(w: World)
    ensures w.NextKnown(|w.attempts|) == |w.attempts|
  {
  }

  lemma GetReady(w: World, opens: seq<(nat, nat)>, at: (nat, nat))
    requires Heading(w, opens, at) && at.0 < |w.attempts| && at.1 <= MAX_RETRY && w.known(w.attempts[at.0].provider)
    ensures Ready(w, opens, at) && w.Open(at) == w.script(at.0, at.1)
  {
  }

  lemma NotCut(events: seq<AiEvent>, hangup: Option<nat>)
    ensures !Cut(events, hangup) ==> hangup.Some? ==> |events| <= hangup.value
  {
  }

  lemma {:induction false} SearchingTools(w: World, opens: seq<(nat, nat)>, sent: seq<AiEvent>,
                                          toolCalls: seq<ToolCall>, lastError: Option<(ErrorCategory, string)>)
    requires Searching(w, opens, sent, toolCalls, lastError)
    ensures toolCalls == Tools(sent) && Deltas(sent) == []
  {
  }

  // ------------------------------------------------------------------ what every transcript keeps

  lemma PathPrefix(w: World, opens: seq<(nat, nat)>, k: nat)
    requires w.Path(opens) && k <= |opens|
    ensures w.Path(opens[..k])
  {
    hide World.Undecided, World.After, World.NextKnown;
  }

  lemma UndecidedIsQuiet(w: World, at: (nat, nat))
    requires w.Undecided(at)
    ensures Deltas(Relay(w.Open(at))) == []
  {
  }

  /** Before the last open nothing but tool calls was relayed. */
  lemma {:induction false} DeltasOfLastOpen(w: World, opens: seq<(nat, nat)>)
    requires w.Path(opens) && opens != []
    ensures Deltas(w.Relayed(opens)) == Deltas(Relay(w.Open(opens[|opens| - 1])))
  {
    hide World.Undecided, World.After, World.NextKnown, Deltas, Tools, Relay;
    var front, last := opens[..|opens| - 1], opens[|opens| - 1];
    Append(w.Relayed(front), Relay(w.Open(last)));
    Nothing();
    if front != [] {
      PathPrefix(w, opens, |opens| - 1);
      DeltasOfLastOpen(w, front);
      UndecidedIsQuiet(w, opens[|opens| - 2]);
    }
    assert [] + Deltas(Relay(w.Open(last))) == Deltas(Relay(w.Open(last)));
  }

  predicate OnlyLastTerminal(events: seq<AiEvent>) {
    forall i :: 0 <= i < |events| - 1 ==> !events[i].Terminal()
  }

  /** The last opened stream sent a delta and then ended without a result or an error. */
  predicate Truncated(w: World, opens: seq<(nat, nat)>) {
    opens != [] && var last := w.Open(opens[|opens| - 1]); EndsSilently(last) && Deltas(Relay(last)) != []
  }

  lemma {:induction false} ClosingShape(w: World, opens: seq<(nat, nat)>)
    requires w.Path(opens)
    ensures |w.Closing(opens)| <= 1 && Deltas(w.Closing(opens)) == [] && Tools(w.Closing(opens)) == []
    ensures w.Closing(opens) != [] ==> w.Closing(opens)[0].Terminal()
    ensures w.Closing(opens) != [] <==> !Truncated(w, opens)
    ensures w.Closing(opens) != [] && w.Closing(opens)[0].AiDone? ==>
      && opens != [] && var last := opens[|opens| - 1]; var r := w.Closing(opens)[0].result;
      && r.content == Concat(Deltas(w.Relayed(opens))) && r.toolCalls == Tools(w.Relayed(opens))
      && r.provider == w.attempts[last.0].provider
  {
    hide World.Relayed, World.NextKnown, World.After, StopAt;
    LastRefusalIsRefused(w, opens);
    ClosingDeltas(w.Closing(opens));
  }

  lemma ClosingDeltas(closing: seq<AiEvent>)
    ensures |closing| <= 1 && (closing != [] ==> closing[0].Terminal()) ==>
        Deltas(closing) == [] && Tools(closing) == []
  {
    if |closing| == 1 { assert closing[..0] == []; }
  }

  lemma {:induction false} LastRefusalIsRefused(w: World, opens: seq<(nat, nat)>)
    ensures w.LastRefusal(opens).Some? ==> w.Open(w.LastRefusal(opens).value).Refused?
  {
    if opens != [] { LastRefusalIsRefused(w, opens[..|opens| - 1]); }
  }

  /**
   * For every script: one terminal event at most and nothing after it, all deltas from one vendor
   * stream, and a result that holds exactly what was sent. The terminal event is missing exactly when
   * the last stream fell silent after a delta.
   */
  lemma {:induction false} TranscriptIsSafe(w: World, opens: seq<(nat, nat)>)
    requires w.Path(opens)
    ensures var t := w.Transcript(opens);
            && OnlyLastTerminal(t)
            && Deltas(t) == (if opens == [] then [] else Deltas(Relay(w.Open(opens[|opens| - 1]))))
            && (t != [] && t[|t| - 1].AiDone? ==>
                  && t[|t| - 1].result.content == Concat(Deltas(t)) && t[|t| - 1].result.toolCalls == Tools(t)
                  && opens != [] && t[|t| - 1].result.provider == w.attempts[opens[|opens| - 1].0].provider)
            && (t != [] && t[|t| - 1].Terminal() <==> !Truncated(w, opens))
  {
    hide World.Closing, World.NextKnown, World.After, World.Undecided, Deltas, Tools, Relay, Truncated;
    ClosingShape(w, opens);
    Append(w.Relayed(opens), w.Closing(opens));
    Nothing();
    if opens != [] { DeltasOfLastOpen(w, opens); }
    assert Deltas(w.Relayed(opens)) + [] == Deltas(w.Relayed(opens));
    assert Tools(w.Relayed(opens)) + [] == Tools(w.Relayed(opens));
  }

  lemma {:induction false} DeltasOfPrefix(events: seq<AiEvent>, n: nat)
    requires n <= |events|
    ensures Deltas(events[..n]) <= Deltas(events)
  {
    Append(events[..n], events[n..]);
    assert events[..n] + events[n..] == events;
  }

  /** Hanging up early keeps all of this, on a prefix. */
  lemma {:induction false} DeliveredIsSafe(w: World, opens: seq<(nat, nat)>, hangup: Option<nat>)
    requires w.Path(opens)
    ensures var sent := Delivered(w.Transcript(opens), hangup);
            && OnlyLastTerminal(sent)
            && (opens == [] ==> Deltas(sent) == [])
            && (opens != [] ==> Deltas(sent) <= Deltas(Relay(w.Open(opens[|opens| - 1]))))
  {
    hide World.Transcript, Deltas, Relay;
    TranscriptIsSafe(w, opens);
    if hangup.Some? && hangup.value < |w.Transcript(opens)| {
      DeltasOfPrefix(w.Transcript(opens), hangup.value);
    }
  }

  lemma AfterIsLater(w: World, at: (nat, nat))
    requires at.0 < |w.attempts| && at.1 <= MAX_RETRY
    ensures 3 * w.After(at).0 + w.After(at).1 > 3 * at.0 + at.1
  {
  }

  lemma {:induction false} OpenRank(w: World, opens: seq<(nat, nat)>)
    requires w.Path(opens) && opens != []
    ensures var last := opens[|opens| - 1]; |opens| <= 3 * last.0 + last.1 + 1
  {
    hide World.Undecided, World.NextKnown, World.After;
    if |opens| > 1 {
      PathPrefix(w, opens, |opens| - 1);
      OpenRank(w, opens[..|opens| - 1]);
      AfterIsLater(w, opens[|opens| - 2]);
    }
  }

  /** At most three opens per attempt. */
  lemma OpensBounded(w: World, opens: seq<(nat, nat)>)
    requires w.Path(opens)
    ensures |opens| <= 3 * |w.attempts|
  {
    if opens != [] { OpenRank(w, opens); }
  }

  /** The stream gave its result, or an error that cannot be retried or came on the last retry. */
  predicate StopsTheSearch(open: Open, retry: nat) {
    && open.Opened? && !EndsSilently(open)
    && (Ending(open).Err? ==> !Ending(open).error.retriable || retry == MAX_RETRY)
  }

  /**
   * While a registered provider is left and no delta was relayed, the search ends exactly when the last
   * opened stream gave its result, or an error that cannot be retried or came on the last retry. A
   * refused open never ends it, not even one that cannot be retried.
   */
  lemma SearchEndsIff(w: World, opens: seq<(nat, nat)>)
    requires w.Path(opens) && opens != []
    requires var last := opens[|opens| - 1]; Deltas(Relay(w.Open(last))) == [] && w.NextKnown(last.0 + 1) < |w.attempts|
    ensures w.Ended(opens) <==> StopsTheSearch(w.Open(opens[|opens| - 1]), opens[|opens| - 1].1)
  {
    hide StopAt, Relay, Deltas, World.NextKnown;
  }

  const BUSY := ProviderError(RateLimited, true)

  /** A vendor whose every stream breaks off at once with a retriable error, and another that is never tried. */
  function BusyWorld(): World {
    World([Attempt("openai", "a"), Attempt("anthropic", "b")], _ => true, (_, _) => Opened([Err(BUSY)]))
  }

  const BUSY_OPENS: seq<(nat, nat)> := [(0, 0), (0, 1), (0, 2)]

  lemma BusyOpen()
    ensures var open := Opened([Err(BUSY)]);
            && !EndsSilently(open) && Ending(open) == Err(BUSY) && Relay(open) == []
            && RetryAfter(open, 0) && RetryAfter(open, 1) && !RetryAfter(open, 2) && !FailoverAfter(open, 2)
  {
    var open := Opened([Err(BUSY)]);
    assert StopAt(open.events) == 0;
    Nothing();
  }

  lemma BusyPath()
    ensures BusyWorld().Path(BUSY_OPENS) && BusyWorld().NextKnown(1) < |BusyWorld().attempts|
    ensures !BusyWorld().Undecided((0, 2)) && BusyWorld().Relayed(BUSY_OPENS) == []
  {
    hide RetryAfter, FailoverAfter, Relay;
    var w := BusyWorld();
    BusyOpen();
    assert w.NextKnown(0) == 0 && w.NextKnown(1) == 1;
    QuietOpens(w, BUSY_OPENS);
  }

  /** So a retriable error stops the search while a provider is left: three opens, one error, no failover. */
  lemma RetriableErrorStopsTheSearch()
    ensures var w, opens := BusyWorld(), BUSY_OPENS;
            && w.Path(opens) && w.Ended(opens) && w.NextKnown(1) < |w.attempts|
            && w.Transcript(opens) == [AiError(RateLimited)]
  {
    hide Tools, Deltas, Concat, Relay, EndsSilently, Ending, RetryAfter, FailoverAfter;
    hide World.Path, World.NextKnown, World.Undecided, World.Relayed;
    BusyOpen();
    BusyPath();
    assert BUSY_OPENS[2] == (0, 2) && BusyWorld().Open((0, 2)) == Opened([Err(BUSY)]);
    assert [] + [AiError(RateLimited)] == [AiError(RateLimited)];
  }

  const DENIED := ProviderError(Authentication, false)

  /** A vendor that refuses for good, and another that answers. */
  function DeniedWorld(): World {
    World([Attempt("openai", "a"), Attempt("anthropic", "b")], _ => true,
          (i, _) => if i == 0 then Refused(DENIED) else Opened([ANSWERED]))
  }

  /** A refused open goes on to the next provider although trying again cannot help. */
  lemma RefusedOpenFailsOver()
    ensures var w, opens := DeniedWorld(), [(0, 0), (1, 0)];
            && w.Path(opens) && w.Ended(opens) && w.Open((0, 0)) == Refused(DENIED) && !DENIED.retriable
            && |w.Transcript(opens)| == 1 && w.Transcript(opens)[0].AiDone?
  {
    hide Tools;
    var w, opens := DeniedWorld(), [(0, 0), (1, 0)];
    var open := Opened([ANSWERED]);
    assert StopAt(open.events) == 0 && Relay(open) == [];
    Nothing();
    assert w.NextKnown(0) == 0 && w.NextKnown(1) == 1;
    assert w.Open((0, 0)) == Refused(DENIED) && w.Open((1, 0)) == open;
    assert !RetryAfter(open, 0) && !FailoverAfter(open, 0) && FailoverAfter(Refused(DENIED), 0);
    assert w.Path(opens);
    QuietOpens(w, opens);
  }

  lemma {:induction false} QuietOpens(w: World, opens: seq<(nat, nat)>)
    requires forall k :: 0 <= k < |opens| ==> Relay(w.Open(opens[k])) == []
    ensures w.Relayed(opens) == []
  {
    hide Relay;
    if opens != [] { QuietOpens(w, opens[..|opens| - 1]); }
  }

  lemma {:induction false} EarlierCalls(w: World, opens: seq<(nat, nat)>)
    requires forall k :: 0 <= k < |opens| ==> Tools(Relay(w.Open(opens[k]))) == []
    ensures Tools(w.Relayed(opens)) == []
  {
    hide Tools, Relay;
    Nothing();
    if opens != [] {
      var front := opens[..|opens| - 1];
      EarlierCalls(w, front);
      Append(w.Relayed(front), Relay(w.Open(opens[|opens| - 1])));
    }
  }

  lemma {:induction false} CallsSurvive(w: World, opens: seq<(nat, nat)>, k: nat)
    requires k < |opens|
    ensures |Tools(w.Relayed(opens))| >= |Tools(Relay(w.Open(opens[k])))|
    decreases |opens|
  {
    hide Tools, Relay;
    var front := opens[..|opens| - 1];
    Append(w.Relayed(front), Relay(w.Open(opens[|opens| - 1])));
    if k < |front| { CallsSurvive(w, front, k); }
  }

  /** The calls sent are those of the last stream alone exactly when no abandoned stream had relayed a call. */
  lemma {:induction false} CallsFromOneStreamIff(w: World, opens: seq<(nat, nat)>)
    requires w.Path(opens) && opens != []
    ensures Tools(w.Transcript(opens)) == Tools(Relay(w.Open(opens[|opens| - 1])))
       <==> forall k :: 0 <= k < |opens| - 1 ==> Tools(Relay(w.Open(opens[k]))) == []
  {
    hide World.Path, World.Closing, Tools, Relay;
    ClosingShape(w, opens);
    Append(w.Relayed(opens), w.Closing(opens));
    var front, last := opens[..|opens| - 1], Relay(w.Open(opens[|opens| - 1]));
    Append(w.Relayed(front), last);
    assert Tools(w.Transcript(opens)) == Tools(w.Relayed(front)) + Tools(last);
    if forall k :: 0 <= k < |opens| - 1 ==> Tools(Relay(w.Open(opens[k]))) == [] {
      assert forall k :: 0 <= k < |front| ==> front[k] == opens[k];
      EarlierCalls(w, front);
      assert [] + Tools(last) == Tools(last);
    } else {
      var k :| 0 <= k < |opens| - 1 && Tools(Relay(w.Open(opens[k]))) != [];
      CallsSurvive(w, front, k);
      assert front[k] == opens[k];
    }
  }

  const LOOKUP := ToolCall("c1", "lookup", Null)
  const ANSWERED: VendorEvent := Ok(Done(TokenUsage(None, None), "m", ToolUse))

  /** The first stream sends a call and breaks off; the retry sends it again and ends well. */
  function RepeatingWorld(): World {
    World([Attempt("openai", "m")], _ => true,
          (_, retry) => Opened([Ok(Tool(LOOKUP)), if retry == 0 then Err(BUSY) else ANSWERED]))
  }

  lemma RelayOneCall(last: VendorEvent)
    requires !IsPlain(last)
    ensures var open := Opened([Ok(Tool(LOOKUP)), last]);
            !EndsSilently(open) && Ending(open) == last && Relay(open) == [AiTool(LOOKUP)]
  {
    var events: seq<VendorEvent> := [Ok(Tool(LOOKUP)), last];
    assert StopAt(events[1..]) == 0 && StopAt(events) == 1;
    assert RelayUpTo(events, 0) == [];
    assert RelayUpTo(events, 1) == [] + [AiTool(LOOKUP)];
  }

  lemma OneToolCall()
    ensures Deltas([AiTool(LOOKUP)]) == [] && Tools([AiTool(LOOKUP)]) == [LOOKUP]
  {
    assert [AiTool(LOOKUP)] == [] + [AiTool(LOOKUP)];
    Nothing();
    Snoc([], AiTool(LOOKUP));
  }

  /** So one call of one answer can be sent twice. */
  lemma {:induction false} CallSentTwice()
    ensures var w, opens := RepeatingWorld(), [(0, 0), (0, 1)];
            && w.Path(opens) && w.Ended(opens)
            && Tools(Relay(w.Open((0, 1)))) == [LOOKUP] && Tools(w.Transcript(opens)) == [LOOKUP, LOOKUP]
  {
    hide Deltas, Tools, Relay, StopAt;
    var w, opens := RepeatingWorld(), [(0, 0), (0, 1)];
    RelayOneCall(Err(BUSY));
    RelayOneCall(ANSWERED);
    OneToolCall();
    assert w.NextKnown(0) == 0;
    assert RetryAfter(w.Open((0, 0)), 0) && !RetryAfter(w.Open((0, 1)), 1) && !FailoverAfter(w.Open((0, 1)), 1);
    assert w.Path(opens);
    var one: seq<(nat, nat)> := [(0, 0)];
    assert opens[..1] == one && one[..0] == [];
    var twice := [AiTool(LOOKUP)] + [AiTool(LOOKUP)];
    assert w.Relayed(one) == [] + [AiTool(LOOKUP)];
    assert w.Relayed(opens) == twice;
    Append([AiTool(LOOKUP)], [AiTool(LOOKUP)]);
    ClosingShape(w, opens);
    Append(w.Relayed(opens), w.Closing(opens));
  }

  // ------------------------------------------------------------------ how a transcript ends

  /** The first event of a vendor stream that is neither a delta nor a call is the one at `j`. */
  predicate FirstEnd(events: seq<VendorEvent>, j: nat) {
    && j < |events| && (events[j].Err? || events[j].value.Done?)
    && forall i :: 0 <= i < j ==> events[i].Ok? && (events[i].value.Delta? || events[i].value.Tool?)
  }

  /** All events of a vendor stream are deltas and calls. */
  predicate NeverEnds(events: seq<VendorEvent>) {
    forall i :: 0 <= i < |events| ==> events[i].Ok? && (events[i].value.Delta? || events[i].value.Tool?)
  }

  /** The vendor's deltas and calls, one by one, are what is sent. */
  predicate Mirrors(events: seq<VendorEvent>, sent: seq<AiEvent>) {
    && |sent| <= |events|
    && forall i :: 0 <= i < |sent| ==>
         && events[i].Ok?
         && match events[i].value
            case Delta(text) => sent[i] == AiDelta(text)
            case Tool(call) => sent[i] == AiTool(call)
            case Done(_, _, _) => false
  }

  lemma {:induction false} RelayUpToMirrors(events: seq<VendorEvent>, k: nat)
    requires k <= |events| && forall j :: 0 <= j < k ==> IsPlain(events[j])
    ensures Mirrors(events, RelayUpTo(events, k))
  {
    if k > 0 { RelayUpToMirrors(events, k - 1); }
  }

  /** What is relayed of an opened stream are its events up to the first end, one by one. */
  lemma RelayIs(events: seq<VendorEvent>)
    ensures var open, k := Opened(events), |Relay(Opened(events))|;
            && Mirrors(events, Relay(open))
            && (EndsSilently(open) <==> NeverEnds(events)) && (EndsSilently(open) ==> k == |events|)
            && (!EndsSilently(open) ==> FirstEnd(events, k) && Ending(open) == events[k])
  {
    RelayUpToMirrors(events, StopAt(events));
  }

  lemma FirstEndIsOne(events: seq<VendorEvent>, i: nat, j: nat)
    requires FirstEnd(events, i) && FirstEnd(events, j)
    ensures i == j && !NeverEnds(events)
  {
  }

  /** A result as the vendor gave it, with the provider's name. */
  predicate IsResultOf(event: AiEvent, provider: string, end: VendorEvent) {
    && event.AiDone? && end.Ok? && end.value.Done? && event.result.provider == provider
    && event.result.model == end.value.model && event.result.usage == end.value.usage
    && event.result.finish == end.value.finish
  }

  /** The search of an ended path was decided by its last open: a result, or an error not to be retried. */
  predicate DecidedBy(open: Open, retry: nat) {
    open.Opened? && !EndsSilently(open) && !RetryAfter(open, retry)
  }

  /**
   * How the failover task closes. If the last stream decided, with that stream's own result or error. If no
   * provider was left, with the category of the last refused open, or unavailability if none was refused.
   */
  lemma {:induction false} TranscriptEndsIn(w: World, opens: seq<(nat, nat)>)
    requires w.Path(opens) && w.Ended(opens) && !Truncated(w, opens)
    ensures w.Transcript(opens) != []
    ensures var t := w.Transcript(opens);
            var last := t[|t| - 1];
            if opens != [] && DecidedBy(w.Open(opens[|opens| - 1]), opens[|opens| - 1].1) then
              var at := opens[|opens| - 1];
              var events := w.Open(at).events;
              exists j: nat :: FirstEnd(events, j)
                && (if events[j].Err? then last == AiError(events[j].error.category)
                    else IsResultOf(last, w.attempts[at.0].provider, events[j]))
            else if exists k :: 0 <= k < |opens| && w.Open(opens[k]).Refused? then
              exists k: nat :: LastRefused(w, opens, k) && last == AiError(w.Open(opens[k]).error.category)
            else last == AiError(Unavailable)
  {
    hide World.Relayed, World.NextKnown, World.After, StopAt, Relay, RetryAfter, Deltas, Tools, EndsSilently;
    ClosingShape(w, opens);
    var t := w.Transcript(opens);
    assert t[|t| - 1] == w.Closing(opens)[0];
    LastRefusalIs(w, opens);
    if opens != [] {
      var at := opens[|opens| - 1];
      UndecidedIff(w.Open(at), at.1);
      if DecidedBy(w.Open(at), at.1) {
        RelayIs(w.Open(at).events);
        var j := |Relay(w.Open(at))|;
        assert FirstEnd(w.Open(at).events, j);
      } else {
        assert w.Undecided(at) || w.Open(at).Refused? || EndsSilently(w.Open(at));
        SilentOrUndecided(w, opens);
      }
    }
  }

  /** The last open of the path that was refused is the one at `k`. */
  predicate LastRefused(w: World, opens: seq<(nat, nat)>, k: nat) {
    && k < |opens| && w.Open(opens[k]).Refused?
    && forall i :: k < i < |opens| ==> !w.Open(opens[i]).Refused?
  }

  lemma {:induction false} LastRefusalIs(w: World, opens: seq<(nat, nat)>)
    ensures match w.LastRefusal(opens)
            case None => forall k :: 0 <= k < |opens| ==> !w.Open(opens[k]).Refused?
            case Some(at) => exists k: nat :: LastRefused(w, opens, k) && opens[k] == at
  {
    if opens != [] {
      var n := |opens| - 1;
      if w.Open(opens[n]).Refused? {
        assert LastRefused(w, opens, n);
      } else {
        LastRefusalIs(w, opens[..n]);
        if w.LastRefusal(opens).Some? {
          var k: nat :| LastRefused(w, opens[..n], k) && opens[..n][k] == w.LastRefusal(opens).value;
          assert LastRefused(w, opens, k);
        }
      }
    }
  }

  lemma UndecidedIff(open: Open, retry: nat)
    ensures DecidedBy(open, retry) ==> !RetryAfter(open, retry) && !FailoverAfter(open, retry)
    ensures !DecidedBy(open, retry) && !(RetryAfter(open, retry) || FailoverAfter(open, retry)) ==>
      EndsSilently(open) && Deltas(Relay(open)) != []
  {
    hide Relay, Deltas, StopAt;
  }

  lemma SilentOrUndecided(w: World, opens: seq<(nat, nat)>)
    requires opens != [] && !Truncated(w, opens)
    requires !DecidedBy(w.Open(opens[|opens| - 1]), opens[|opens| - 1].1)
    ensures w.Undecided(opens[|opens| - 1])
  {
    var at := opens[|opens| - 1];
    UndecidedIff(w.Open(at), at.1);
    hide RetryAfter, FailoverAfter, EndsSilently, Deltas, Relay;
  }

  predicate IsSuccess(usage: seq<UsageRow>, provider: string, model: string) {
    usage == [UsageRow(provider, model, true, None)]
  }

  predicate IsFailure(usage: seq<UsageRow>, provider: string, model: string, category: ErrorCategory) {
    usage == [UsageRow(provider, model, false, Some(category))]
  }

  /** A receiver found gone is recorded when a delta could not be sent, and not when a call could not. */
  predicate GoneRow(usage: seq<UsageRow>, attempt: Attempt, missed: AiEvent) {
    if missed.AiDelta? then IsFailure(usage, attempt.provider, attempt.model, Unavailable) else usage == []
  }

  /**
   * What is billed. A receiver that leaves early is recorded at a delta. Otherwise a result is recorded with
   * its own provider and model, an error with its category: under the attempt that gave it, or, when no
   * provider was left, under no provider but the model last refused. Silence is recorded nowhere.
   */
  lemma BilledIs(w: World, opens: seq<(nat, nat)>, hangup: Option<nat>, usage: seq<UsageRow>)
    requires w.Path(opens) && w.Billed(opens, hangup, usage)
    ensures var relayed := w.Relayed(opens);
            if hangup.Some? && hangup.value < |relayed| then
              opens != [] && GoneRow(usage, w.attempts[opens[|opens| - 1].0], relayed[hangup.value])
            else if Truncated(w, opens) then usage == []
            else if opens != [] && DecidedBy(w.Open(opens[|opens| - 1]), opens[|opens| - 1].1) then
              var t, attempt := w.Transcript(opens), w.attempts[opens[|opens| - 1].0];
              && t != []
              && match t[|t| - 1]
                 case AiDone(r) => IsSuccess(usage, r.provider, r.model)
                 case AiError(category) => IsFailure(usage, attempt.provider, attempt.model, category)
                 case _ => false
            else if exists k :: 0 <= k < |opens| && w.Open(opens[k]).Refused? then
              exists k: nat :: LastRefused(w, opens, k)
                && IsFailure(usage, "", w.attempts[opens[k].0].model, w.Open(opens[k]).error.category)
            else usage == []
  {
    hide World.Relayed, World.NextKnown, World.After, StopAt, Relay, RetryAfter, FailoverAfter, Deltas, Tools;
    hide EndsSilently;
    ClosingShape(w, opens);
    LastRefusalIs(w, opens);
    if opens != [] {
      var at := opens[|opens| - 1];
      UndecidedIff(w.Open(at), at.1);
      if Truncated(w, opens) {
        TruncatedIsDecided(w, opens);
      } else if !DecidedBy(w.Open(at), at.1) {
        SilentOrUndecided(w, opens);
      }
    }
  }

  lemma TruncatedIsDecided(w: World, opens: seq<(nat, nat)>)
    requires Truncated(w, opens)
    ensures !w.Undecided(opens[|opens| - 1])
  {
    hide Deltas, Relay, StopAt;
  }

  // ------------------------------------------------------------------ the task with a fixed provider

  /** Everything a patient receiver gets from the fixed-provider task. */
  function OverrideTranscript(attempt: Attempt, known: bool, open: Open): seq<AiEvent> {
    if !known then [AiError(Unavailable)]
    else
      match open
      case Refused(error) => [AiError(error.category)]
      case Opened(_) =>
        Relay(open) + (if EndsSilently(open) then [AiError(Unavailable)] else ClosingOf(attempt, open, Relay(open)))
  }

  /** The usage row the fixed-provider task writes, if its provider is known. */
  function OverrideLedger(attempt: Attempt, known: bool, open: Open, hangup: Option<nat>): seq<UsageRow> {
    if !known then []
    else if open.Opened? && Cut(Relay(open), hangup) then HangupRows(attempt, Relay(open)[hangup.value])
    else
      match open
      case Refused(error) => [UsageRow(attempt.provider, attempt.model, false, Some(error.category))]
      case Opened(_) =>
        if EndsSilently(open) then [UsageRow(attempt.provider, attempt.model, false, Some(Unavailable))]
        else RowsOf(attempt, open)
  }

  /** The fixed-provider task: one open, no retry. */
  method RunStreamWithOverride(attempt: Attempt, known: bool, open: Open, hangup: Option<nat>)
    returns (sent: seq<AiEvent>, usage: seq<UsageRow>)
    ensures sent == Delivered(OverrideTranscript(attempt, known, open), hangup)
    ensures usage == OverrideLedger(attempt, known, open, hangup)
  {
    sent, usage := [], [];
    if !known {
      if hangup != Some(0) {
        sent := [AiError(Unavailable)];
      }
      return;
    }
    match open {
      case Refused(error) =>
        usage := [UsageRow(attempt.provider, attempt.model, false, Some(error.category))];
        if hangup != Some(0) {
          sent := [AiError(error.category)];
        }
      case Opened(events) =>
        sent, usage := RelayFixed(attempt, events, hangup);
    }
  }

  /** The relay loop of the fixed-provider task. */
  method RelayFixed(attempt: Attempt, events: seq<VendorEvent>, hangup: Option<nat>)
    returns (sent: seq<AiEvent>, usage: seq<UsageRow>)
    ensures sent == Delivered(OverrideTranscript(attempt, true, Opened(events)), hangup)
    ensures usage == OverrideLedger(attempt, true, Opened(events), hangup)
  {
    hide *;
    var s := Relaying([], "", [], false);
    ghost var open := Opened(events);
    usage := [];
    var j := 0;
    FixedStart(events);
    while j < |events|
      invariant j <= |events| && AtEvent(events, [], s, j)
      invariant hangup.Some? ==> |s.sent| <= hangup.value
      invariant usage == []
      decreases |events| - j
    {
      var event := events[j];
      var accepted := hangup.None? || |s.sent| < hangup.value;
      PlainIff(event);
      RowsAtHangup(attempt, event);
      if IsPlain(event) {
        RelayMore(events, [], s, j);
      }
      match event {
        case Ok(Tool(call)) =>
          if !accepted {
            FixedHangUp(attempt, open, s, j);
            return s.sent, usage;
          }
          s := s.(sent := s.sent + [AiTool(call)], toolCalls := s.toolCalls + [call]);
        case Ok(Delta(text)) =>
          if !accepted {
            usage := [UsageRow(attempt.provider, attempt.model, false, Some(Unavailable))];
            FixedHangUp(attempt, open, s, j);
            return s.sent, usage;
          }
          s := s.(sent := s.sent + [AiDelta(text)], content := s.content + text, firstDeltaSent := true);
        case Ok(Done(tokens, model, finish)) =>
          var result := CallResult(s.content, attempt.provider, model, tokens, finish, s.toolCalls);
          usage := [UsageRow(attempt.provider, model, true, None)];
          FixedStop(attempt, open, s, j, hangup);
          return if accepted then s.sent + [AiDone(result)] else s.sent, usage;
        case Err(error) =>
          usage := [UsageRow(attempt.provider, attempt.model, false, Some(error.category))];
          FixedStop(attempt, open, s, j, hangup);
          return if accepted then s.sent + [AiError(error.category)] else s.sent, usage;
      }
      j := j + 1;
    }
    usage := [UsageRow(attempt.provider, attempt.model, false, Some(Unavailable))];
    FixedSilence(attempt, open, s, hangup);
    var accepted := hangup.None? || |s.sent| < hangup.value;
    return if accepted then s.sent + [AiError(Unavailable)] else s.sent, usage;
  }

  lemma PlainIff(event: VendorEvent)
    ensures IsPlain(event) <==> event.Ok? && !event.value.Done?
  {
  }

  lemma RowsAtHangup(attempt: Attempt, event: VendorEvent)
    ensures IsPlain(event) ==>
      HangupRows(attempt, Convert(event))
      == if event.value.Delta? then [UsageRow(attempt.provider, attempt.model, false, Some(Unavailable))] else []
  {
  }

  lemma FixedStart(events: seq<VendorEvent>)
    ensures AtEvent(events, [], Relaying([], "", [], false), 0)
  {
  }

  lemma FixedHangUp(attempt: Attempt, open: Open, s: Relaying, j: nat)
    requires open.Opened? && AtEvent(open.events, [], s, j) && j < StopAt(open.events)
    ensures s.sent == Delivered(OverrideTranscript(attempt, true, open), Some(|s.sent|))
    ensures OverrideLedger(attempt, true, open, Some(|s.sent|)) == HangupRows(attempt, Convert(open.events[j]))
  {
    hide StopAt, ClosingOf;
    RelayPrefix(open.events, j + 1, StopAt(open.events));
    assert RelayUpTo(open.events, j + 1)[j] == Convert(open.events[j]);
    assert [] + RelayUpTo(open.events, j) == RelayUpTo(open.events, j);
    assert RelayUpTo(open.events, j) <= RelayUpTo(open.events, j + 1);
    assert OverrideTranscript(attempt, true, open)[..|s.sent|] == s.sent;
  }

  lemma FixedStop(attempt: Attempt, open: Open, s: Relaying, j: nat, hangup: Option<nat>)
    requires open.Opened? && AtEvent(open.events, [], s, j) && j < |open.events| && !IsPlain(open.events[j])
    requires hangup.Some? ==> |s.sent| <= hangup.value
    ensures var closing :=
              match open.events[j]
              case Ok(done) =>
                AiDone(CallResult(s.content, attempt.provider, done.model, done.usage, done.finish, s.toolCalls))
              case Err(error) => AiError(error.category);
            Delivered(OverrideTranscript(attempt, true, open), hangup)
            == if hangup.None? || |s.sent| < hangup.value then s.sent + [closing] else s.sent
    ensures OverrideLedger(attempt, true, open, hangup)
         == match open.events[j]
            case Ok(done) => [UsageRow(attempt.provider, done.model, true, None)]
            case Err(error) => [UsageRow(attempt.provider, attempt.model, false, Some(error.category))]
  {
    hide StopAt;
    Nothing();
    Stopped(attempt, open, 0, hangup, [], s, j);
    assert [] + Relay(open) == Relay(open);
    LastEvent(s.sent, ClosingOf(attempt, open, s.sent)[0], hangup);
  }

  lemma AllRelayed(events: seq<VendorEvent>, s: Relaying)
    requires AtEvent(events, [], s, |events|)
    ensures StopAt(events) == |events| && s.sent == RelayUpTo(events, |events|)
  {
    assert [] + RelayUpTo(events, |events|) == RelayUpTo(events, |events|);
  }

  lemma FixedSilence(attempt: Attempt, open: Open, s: Relaying, hangup: Option<nat>)
    requires open.Opened? && AtEvent(open.events, [], s, |open.events|)
    requires hangup.Some? ==> |s.sent| <= hangup.value
    ensures Delivered(OverrideTranscript(attempt, true, open), hangup)
         == if hangup.None? || |s.sent| < hangup.value then s.sent + [AiError(Unavailable)] else s.sent
    ensures OverrideLedger(attempt, true, open, hangup)
         == [UsageRow(attempt.provider, attempt.model, false, Some(Unavailable))]
  {
    hide StopAt, RelayUpTo, ClosingOf, RowsOf, HangupRows, Consistent;
    AllRelayed(open.events, s);
    assert [] + Relay(open) == Relay(open);
    LastEvent(s.sent, AiError(Unavailable), hangup);
  }

  /** The fixed-provider task always closes with exactly one terminal event. */
  lemma {:induction false} OverrideAlwaysCloses(attempt: Attempt, known: bool, open: Open)
    ensures var t := OverrideTranscript(attempt, known, open);
            && t != [] && OnlyLastTerminal(t) && t[|t| - 1].Terminal()
            && (t[|t| - 1].AiDone? ==>
                  t[|t| - 1].result.content == Concat(Deltas(t)) && t[|t| - 1].result.toolCalls == Tools(t))
  {
    hide Deltas, Tools, Relay, StopAt;
    if known && open.Opened? && !EndsSilently(open) {
      var closing := ClosingOf(attempt, open, Relay(open));
      ClosingDeltas(closing);
      Append(Relay(open), closing);
      assert Deltas(Relay(open)) + [] == Deltas(Relay(open)) && Tools(Relay(open)) + [] == Tools(Relay(open));
    }
  }

  /** What the fixed-provider task sends before its last event is what the vendor sent, one by one. */
  lemma OverrideMirrors(attempt: Attempt, events: seq<VendorEvent>)
    ensures var t := OverrideTranscript(attempt, true, Opened(events));
            && t != [] && Mirrors(events, t[..|t| - 1])
            && (FirstEnd(events, |t| - 1) || (NeverEnds(events) && |t| - 1 == |events|))
  {
    hide Deltas, Tools, Concat, Relay, EndsSilently;
    RelayIs(events);
    var t := OverrideTranscript(attempt, true, Opened(events));
    assert t[..|t| - 1] == Relay(Opened(events));
  }

  /** The error the fixed-provider task ends with, if it does. */
  ghost predicate FixedError(known: bool, open: Open, category: ErrorCategory) {
    if !known then category == Unavailable
    else
      match open
      case Refused(error) => category == error.category
      case Opened(events) =>
        || (NeverEnds(events) && category == Unavailable)
        || exists j: nat :: FirstEnd(events, j) && events[j].Err? && events[j].error.category == category
  }

  /**
   * The last event a patient receiver gets from the fixed-provider task: the error of an unknown provider, of
   * the refused open, of the stream, or of its silence; or else the vendor's own result.
   */
  lemma {:induction false} OverrideEndsIn(attempt: Attempt, known: bool, open: Open, sent: seq<AiEvent>)
    requires sent == Delivered(OverrideTranscript(attempt, known, open), None)
    ensures sent != []
    ensures forall category :: sent[|sent| - 1] == AiError(category) <==> FixedError(known, open, category)
    ensures sent[|sent| - 1].AiDone? ==>
      && known && open.Opened?
      && exists j: nat :: FirstEnd(open.events, j) && IsResultOf(sent[|sent| - 1], attempt.provider, open.events[j])
  {
    hide Deltas, Tools, Concat, Relay, EndsSilently;
    if known && open.Opened? {
      RelayIs(open.events);
      var k := |Relay(open)|;
      if !EndsSilently(open) {
        forall j: nat | FirstEnd(open.events, j)
          ensures j == k
        {
          FirstEndIsOne(open.events, j, k);
        }
        FirstEndIsOne(open.events, k, k);
      } else {
        assert forall j: nat :: !FirstEnd(open.events, j);
      }
    }
  }

  /** What the fixed-provider task bills: its result or error, under its own provider; nothing if it is unknown. */
  lemma OverrideBilledIs(attempt: Attempt, known: bool, open: Open, hangup: Option<nat>)
    ensures var usage, t := OverrideLedger(attempt, known, open, hangup), OverrideTranscript(attempt, known, open);
            && t != []
            && if !known then usage == []
               else if hangup.Some? && hangup.value < |t| - 1 then GoneRow(usage, attempt, t[hangup.value])
               else
                 match t[|t| - 1]
                 case AiDone(r) => IsSuccess(usage, attempt.provider, r.model)
                 case AiError(category) => IsFailure(usage, attempt.provider, attempt.model, category)
                 case _ => false
  {
    hide Deltas, Tools, Concat, Relay, EndsSilently;
    if known && open.Opened? {
      RelayIs(open.events);
      var t := OverrideTranscript(attempt, known, open);
      assert t[..|t| - 1] == Relay(open);
    }
  }
}
