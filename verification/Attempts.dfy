/**
 * One non-streaming answer: a validated list of provider/model pairs, the credentials that exist for
 * them, and the calls made in order until one decides.
 */
module Attempts {
  import opened Text
  import opened Contract

  // ------------------------------------------------------------------ the configuration

  datatype Pair = Pair(provider: string, model: string)

  datatype Config = Config(primary: Pair, maxOutputTokens: Option<int>, temperature: Option<real>,
                           fallbacks: Option<seq<Pair>>)

  datatype Issue =
    | UnknownProvider | EmptyModel | BadMaxTokens | BadTemperature | TooManyFallbacks
    | UnknownFallback(index: nat) | EmptyFallbackModel(index: nat)
    | SameAsPrimary(index: nat) | DuplicateFallback(index: nat)

  predicate KnownProvider(name: string) {
    name == "openai" || name == "anthropic" || name == "gemini"
  }

  predicate Usable(pair: Pair) {
    KnownProvider(pair.provider) && !Blank(pair.model)
  }

  function Fallbacks(config: Config): seq<Pair> {
    if config.fallbacks.Some? then config.fallbacks.value else []
  }

  /** The pairs in the order in which they are tried. */
  function Pairs(config: Config): seq<Pair> {
    [config.primary] + Fallbacks(config)
  }

  predicate Distinct(pairs: seq<Pair>) {
    forall i, j :: 0 <= i < j < |pairs| ==> pairs[i] != pairs[j]
  }

  /** What validation demands of a configuration. */
  predicate Acceptable(config: Config) {
    && (config.maxOutputTokens.Some? ==> config.maxOutputTokens.value > 0)
    && (config.temperature.Some? ==> 0.0 <= config.temperature.value <= 2.0)
    && |Pairs(config)| <= 4 && Distinct(Pairs(config)) && forall pair <- Pairs(config) :: Usable(pair)
  }

  /** The fallbacks before `i` are usable and differ from the primary pair and from every other fallback. */
  predicate CheckedTo(primary: Pair, fallbacks: seq<Pair>, i: nat) {
    && i <= |fallbacks|
    && (forall k :: 0 <= k < i ==> Usable(fallbacks[k]) && fallbacks[k] != primary)
    && (forall k, j :: 0 <= k < i && 0 <= j < |fallbacks| && j != k ==> fallbacks[j] != fallbacks[k])
  }

  lemma CheckedAll(config: Config)
    requires Usable(config.primary)
    ensures Distinct(Pairs(config)) && (forall pair <- Pairs(config) :: Usable(pair))
       <==> CheckedTo(config.primary, Fallbacks(config), |Fallbacks(config)|)
  {
    hide Usable, Distinct, CheckedTo;
    if Distinct(Pairs(config)) && forall pair <- Pairs(config) :: Usable(pair) {
      DistinctIsChecked(config);
    }
    if CheckedTo(config.primary, Fallbacks(config), |Fallbacks(config)|) {
      CheckedIsDistinct(config);
    }
  }

  lemma DistinctIsChecked(config: Config)
    requires Distinct(Pairs(config)) && forall pair <- Pairs(config) :: Usable(pair)
    ensures CheckedTo(config.primary, Fallbacks(config), |Fallbacks(config)|)
  {
    hide Usable;
    var pairs, fallbacks := Pairs(config), Fallbacks(config);
    forall k | 0 <= k < |fallbacks|
      ensures fallbacks[k] == pairs[k + 1] && Usable(fallbacks[k]) && fallbacks[k] != pairs[0]
    {
      assert pairs[k + 1] in pairs;
    }
  }

  lemma CheckedIsDistinct(config: Config)
    requires Usable(config.primary) && CheckedTo(config.primary, Fallbacks(config), |Fallbacks(config)|)
    ensures Distinct(Pairs(config)) && forall pair <- Pairs(config) :: Usable(pair)
  {
    hide Usable;
    var pairs, fallbacks := Pairs(config), Fallbacks(config);
    forall i, j | 0 <= i < j < |pairs|
      ensures pairs[i] != pairs[j]
    {
      assert pairs[j] == fallbacks[j - 1];
      if i > 0 { assert pairs[i] == fallbacks[i - 1]; }
    }
  }

  /** A complaint is true, and everything checked before it is in order. */
  predicate FirstComplaint(config: Config, issue: Issue) {
    var (primary, fallbacks) := (config.primary, Fallbacks(config));
    match issue
    case UnknownProvider => !KnownProvider(primary.provider)
    case EmptyModel => KnownProvider(primary.provider) && Blank(primary.model)
    case BadMaxTokens => Usable(primary) && config.maxOutputTokens.Some? && config.maxOutputTokens.value <= 0
    case BadTemperature =>
      && Usable(primary) && (config.maxOutputTokens.Some? ==> config.maxOutputTokens.value > 0)
      && config.temperature.Some? && !(0.0 <= config.temperature.value <= 2.0)
    case TooManyFallbacks => InRanges(config) && |fallbacks| > 3
    case _ => InRanges(config) && |fallbacks| <= 3 && FallbackComplaint(primary, fallbacks, issue)
  }

  /** The primary pair is usable and the limits are in range. */
  predicate InRanges(config: Config) {
    && Usable(config.primary)
    && (config.maxOutputTokens.Some? ==> config.maxOutputTokens.value > 0)
    && (config.temperature.Some? ==> 0.0 <= config.temperature.value <= 2.0)
  }

  predicate FallbackComplaint(primary: Pair, fallbacks: seq<Pair>, issue: Issue) {
    match issue
    case UnknownFallback(i) =>
      CheckedTo(primary, fallbacks, i) && i < |fallbacks| && !KnownProvider(fallbacks[i].provider)
    case EmptyFallbackModel(i) =>
      && CheckedTo(primary, fallbacks, i) && i < |fallbacks| && KnownProvider(fallbacks[i].provider)
      && Blank(fallbacks[i].model)
    case SameAsPrimary(i) =>
      CheckedTo(primary, fallbacks, i) && i < |fallbacks| && Usable(fallbacks[i]) && fallbacks[i] == primary
    case DuplicateFallback(i) =>
      && CheckedTo(primary, fallbacks, i) && i < |fallbacks| && Usable(fallbacks[i]) && fallbacks[i] != primary
      && exists j :: 0 <= j < |fallbacks| && j != i && fallbacks[j] == fallbacks[i]
    case _ => false
  }

  /** The first complaint about a configuration, if there is one. */
  method Validate(config: Config) returns (issue: Option<Issue>)
    ensures issue.None? <==> Acceptable(config)
    ensures issue.Some? ==> FirstComplaint(config, issue.value)
  {
    TrimBlank(config.primary.model);
    hide KnownProvider, Blank, Trim;
    assert config.primary in Pairs(config);
    if !KnownProvider(config.primary.provider) { return Some(UnknownProvider); }
    if Trim(config.primary.model) == "" { return Some(EmptyModel); }
    CheckedAll(config);
    hide Distinct;
    if config.maxOutputTokens.Some? && config.maxOutputTokens.value <= 0 { return Some(BadMaxTokens); }
    if config.temperature.Some? && (config.temperature.value < 0.0 || config.temperature.value > 2.0) {
      return Some(BadTemperature);
    }
    if config.fallbacks.Some? {
      var fallbacks := config.fallbacks.value;
      if |fallbacks| > 3 { return Some(TooManyFallbacks); }
      for i := 0 to |fallbacks|
        invariant CheckedTo(config.primary, fallbacks, i)
      {
        var found := CheckFallback(config.primary, fallbacks, i);
        if found.Some? { return found; }
      }
    }
    return None;
  }

  /** The checks of one fallback. */
  method CheckFallback(primary: Pair, fallbacks: seq<Pair>, i: nat) returns (issue: Option<Issue>)
    requires i < |fallbacks| && CheckedTo(primary, fallbacks, i)
    ensures issue.None? ==> CheckedTo(primary, fallbacks, i + 1)
    ensures issue.Some? ==> !CheckedTo(primary, fallbacks, |fallbacks|)
    ensures issue.Some? ==> FallbackComplaint(primary, fallbacks, issue.value)
  {
    var fallback := fallbacks[i];
    TrimBlank(fallback.model);
    hide KnownProvider, Blank, Trim;
    if !KnownProvider(fallback.provider) { return Some(UnknownFallback(i)); }
    if Trim(fallback.model) == "" { return Some(EmptyFallbackModel(i)); }
    if fallback == primary { return Some(SameAsPrimary(i)); }
    for j := 0 to |fallbacks|
      invariant forall k :: 0 <= k < j && k != i ==> fallbacks[k] != fallback
    {
      if j != i && fallbacks[j] == fallback { return Some(DuplicateFallback(i)); }
    }
    return None;
  }

  // ------------------------------------------------------------------ the attempts

  /** Looking for the key of a provider: it may fail, and there may be none. */
  datatype Credential = Broken | Absent | Present

  /** The pairs for which a key was found, in order; each lookup is answered by itself. */
  function WithKey(pairs: seq<Pair>, credential: nat -> Credential): seq<Pair> {
    if pairs == [] then []
    else
      var n := |pairs| - 1;
      WithKey(pairs[..n], credential) + (if credential(n).Present? then [pairs[n]] else [])
  }

  /** What assembling the list gives: nothing when a lookup breaks. */
  function Assembled(pairs: seq<Pair>, credential: nat -> Credential): Option<seq<Pair>> {
    if exists k :: 0 <= k < |pairs| && credential(k).Broken? then None else Some(WithKey(pairs, credential))
  }

  /** The stored fallbacks that can be read. */
  function Readable(stored: seq<Option<Pair>>): seq<Pair> {
    if stored == [] then []
    else
      var last := stored[|stored| - 1];
      Readable(stored[..|stored| - 1]) + (if last.Some? then [last.value] else [])
  }

  /** Putting the list together; a lookup that breaks ends the call. */
  method Assemble(primary: Pair, stored: seq<Option<Pair>>, credential: nat -> Credential)
    returns (attempts: Option<seq<Pair>>)
    ensures attempts == Assembled([primary] + Readable(stored), credential)
  {
    var pairs := [primary];
    for i := 0 to |stored|
      invariant pairs == [primary] + Readable(stored[..i])
    {
      assert stored[..i + 1][..i] == stored[..i];
      if stored[i].Some? { pairs := pairs + [stored[i].value]; }
    }
    assert stored[..|stored|] == stored;
    var found := [];
    for i := 0 to |pairs|
      invariant found == WithKey(pairs[..i], credential)
      invariant forall k :: 0 <= k < i ==> !credential(k).Broken?
    {
      assert pairs[..i + 1][..i] == pairs[..i];
      match credential(i) {
        case Broken => return None;
        case Absent =>
        case Present => found := found + [pairs[i]];
      }
    }
    assert pairs[..|pairs|] == pairs;
    return Some(found);
  }

  lemma {:induction false} WithKeyIsPart(pairs: seq<Pair>, credential: nat -> Credential)
    requires Distinct(pairs)
    ensures Distinct(WithKey(pairs, credential)) && |WithKey(pairs, credential)| <= |pairs|
    ensures forall pair :: pair in WithKey(pairs, credential) ==> pair in pairs
  {
    if pairs != [] {
      var front, last := pairs[..|pairs| - 1], pairs[|pairs| - 1];
      assert pairs == front + [last];
      WithKeyIsPart(front, credential);
      assert last !in front;
    }
  }

  // ------------------------------------------------------------------ the calls

  /** Which call of which attempt, counting from zero. */
  datatype Call = Call(attempt: nat, retry: nat)

  datatype Reply = Completed(completion: ChatCompletion) | Failing(error: ProviderError)

  datatype CallError = NotConfigured | ProviderFailed(category: ErrorCategory, pair: Pair)

  datatype Answer = Answer(provider: string, completion: ChatCompletion)

  const MAX_RETRY: nat := 2

  /** Every call that could be made, in order: three for each attempt whose provider is registered. */
  function Order(attempts: seq<Pair>, known: string -> bool): seq<Call> {
    if attempts == [] then []
    else
      var n := |attempts| - 1;
      Order(attempts[..n], known) + (if known(attempts[n].provider) then [Call(n, 0), Call(n, 1), Call(n, 2)] else [])
  }

  /** A success or an error that trying again cannot help. */
  predicate Decides(reply: Reply) {
    reply.Completed? || !reply.error.retriable
  }

  function Report(attempts: seq<Pair>, call: Call, reply: Reply): Result<Answer, CallError>
    requires call.attempt < |attempts|
  {
    match reply
    case Completed(completion) => Ok(Answer(attempts[call.attempt].provider, completion))
    case Failing(error) => Err(ProviderFailed(error.category, attempts[call.attempt]))
  }

  predicate Undecided(reply: Call -> Reply, calls: seq<Call>) {
    forall k :: 0 <= k < |calls| ==> !Decides(reply(calls[k]))
  }

  predicate InRange(attempts: seq<Pair>, calls: seq<Call>) {
    forall k :: 0 <= k < |calls| ==> calls[k].attempt < |attempts|
  }

  lemma {:induction false} OrderInRange(attempts: seq<Pair>, known: string -> bool)
    ensures InRange(attempts, Order(attempts, known)) && |Order(attempts, known)| <= 3 * |attempts|
  {
    if attempts != [] { OrderInRange(attempts[..|attempts| - 1], known); }
  }

  /**
   * The calls are the possible ones in order, up to the first that decides; that one, or else the last, is
   * reported.
   */
  predicate Chosen(attempts: seq<Pair>, known: string -> bool, reply: Call -> Reply, calls: seq<Call>,
                   result: Result<Answer, CallError>)
  {
    && calls <= Order(attempts, known) && InRange(attempts, calls)
    && (calls == [] ==> Order(attempts, known) == [] && result == Err(NotConfigured))
    && (calls != [] ==>
          var last := calls[|calls| - 1];
          && Undecided(reply, calls[..|calls| - 1])
          && (Decides(reply(last)) || calls == Order(attempts, known))
          && result == Report(attempts, last, reply(last)))
  }

  lemma {:induction false} OrderPrefix(attempts: seq<Pair>, known: string -> bool, i: nat)
    requires i <= |attempts|
    ensures Order(attempts[..i], known) <= Order(attempts, known)
    decreases |attempts|
  {
    if i < |attempts| {
      var n := |attempts| - 1;
      assert attempts[..n][..i] == attempts[..i];
      OrderPrefix(attempts[..n], known, i);
    } else {
      assert attempts[..i] == attempts;
    }
  }

  function Retries(i: nat, n: nat): seq<Call>
    requires n <= 3
  {
    if n == 0 then [] else Retries(i, n - 1) + [Call(i, n - 1)]
  }

  lemma ThreeRetries(i: nat)
    ensures Retries(i, 3) == [Call(i, 0), Call(i, 1), Call(i, 2)]
  {
    assert Retries(i, 0) == [];
    assert Retries(i, 1) == [Call(i, 0)];
    assert Retries(i, 2) == [Call(i, 0), Call(i, 1)];
  }

  lemma OrderOf(attempts: seq<Pair>, known: string -> bool, i: nat)
    requires i < |attempts|
    ensures Order(attempts[..i + 1], known)
         == Order(attempts[..i], known) + (if known(attempts[i].provider) then Retries(i, 3) else [])
  {
    assert attempts[..i + 1][..i] == attempts[..i];
    ThreeRetries(i);
  }

  /** No call made so far has decided, and the last one is remembered. */
  ghost predicate Trying(attempts: seq<Pair>, reply: Call -> Reply, calls: seq<Call>, lastError: Option<CallError>) {
    && InRange(attempts, calls) && Undecided(reply, calls)
    && if calls == [] then lastError.None?
       else lastError.Some? && Report(attempts, calls[|calls| - 1], reply(calls[|calls| - 1])) == Err(lastError.value)
  }

  lemma RetriesPrefix(i: nat, n: nat)
    requires n <= 3
    ensures Retries(i, n) <= Retries(i, 3)
  {
    assert Retries(i, 1) <= Retries(i, 2) <= Retries(i, 3) && Retries(i, 0) == [];
  }

  lemma Tried(attempts: seq<Pair>, reply: Call -> Reply, calls: seq<Call>, lastError: Option<CallError>, call: Call,
              error: ProviderError)
    requires Trying(attempts, reply, calls, lastError) && call.attempt < |attempts|
    requires reply(call) == Failing(error) && error.retriable
    ensures Trying(attempts, reply, calls + [call], Some(ProviderFailed(error.category, attempts[call.attempt])))
  {
  }

  lemma {:induction false} InOrder(attempts: seq<Pair>, known: string -> bool, i: nat, n: nat)
    requires i < |attempts| && n <= 3 && known(attempts[i].provider)
    ensures Order(attempts[..i], known) + Retries(i, n) <= Order(attempts, known)
  {
    hide Order, Retries;
    OrderOf(attempts, known, i);
    OrderPrefix(attempts, known, i + 1);
    RetriesPrefix(i, n);
  }

  lemma {:induction false} Decided(attempts: seq<Pair>, known: string -> bool, reply: Call -> Reply, calls: seq<Call>,
                                   lastError: Option<CallError>, i: nat, retry: nat)
    requires Trying(attempts, reply, calls, lastError) && i < |attempts| && retry <= MAX_RETRY
    requires known(attempts[i].provider) && calls == Order(attempts[..i], known) + Retries(i, retry)
    requires Decides(reply(Call(i, retry)))
    ensures Chosen(attempts, known, reply, calls + [Call(i, retry)],
                   Report(attempts, Call(i, retry), reply(Call(i, retry))))
  {
    hide Order, Decides, Retries, Report, Undecided;
    var calls' := calls + [Call(i, retry)];
    InOrder(attempts, known, i, retry + 1);
    RetriesStep(i, retry);
    AppendAssoc(Order(attempts[..i], known), Retries(i, retry), [Call(i, retry)]);
    assert calls'[..|calls'| - 1] == calls;
  }

  lemma GaveUp(attempts: seq<Pair>, known: string -> bool, reply: Call -> Reply, lastError: Option<CallError>)
    requires Trying(attempts, reply, Order(attempts, known), lastError)
    ensures Chosen(attempts, known, reply, Order(attempts, known),
                   Err(if lastError.Some? then lastError.value else NotConfigured))
  {
    hide Order, Decides;
    var calls := Order(attempts, known);
    if calls != [] { assert calls == calls[..|calls| - 1] + [calls[|calls| - 1]]; }
  }

  method RunAttempts(attempts: seq<Pair>, known: string -> bool, reply: Call -> Reply)
    returns (result: Result<Answer, CallError>, calls: seq<Call>)
    ensures Chosen(attempts, known, reply, calls, result)
  {
    hide Order, Retries, Decides, Chosen, Trying;
    var lastError: Option<CallError> := None;
    calls := [];
    Begin(attempts, known, reply);
    for i := 0 to |attempts|
      invariant calls == Order(attempts[..i], known) && Trying(attempts, reply, calls, lastError)
    {
      OrderOf(attempts, known, i);
      var pair := attempts[i];
      if !known(pair.provider) {
        assert calls + [] == calls;
        continue;
      }
      RetriesStep(i, 0);
      assert calls + [] == calls;
      for retry := 0 to 3
        invariant calls == Order(attempts[..i], known) + Retries(i, retry) && Trying(attempts, reply, calls, lastError)
      {
        RetriesStep(i, retry);
        var call := Call(i, retry);
        DecidesIff(reply(call));
        match reply(call) {
          case Completed(completion) =>
            Decided(attempts, known, reply, calls, lastError, i, retry);
            return Ok(Answer(pair.provider, completion)), calls + [call];
          case Failing(error) =>
            if !error.retriable {
              Decided(attempts, known, reply, calls, lastError, i, retry);
              return Err(ProviderFailed(error.category, pair)), calls + [call];
            }
            Tried(attempts, reply, calls, lastError, call, error);
            lastError := Some(ProviderFailed(error.category, pair));
            AppendAssoc(Order(attempts[..i], known), Retries(i, retry), [call]);
            calls := calls + [call];
        }
      }
    }
    assert attempts[..|attempts|] == attempts;
    GaveUp(attempts, known, reply, lastError);
    result := Err(if lastError.Some? then lastError.value else NotConfigured);
  }

  lemma RetriesStep(i: nat, n: nat)
    requires n < 3
    ensures Retries(i, 0) == [] && Retries(i, n + 1) == Retries(i, n) + [Call(i, n)]
  {
  }

  lemma DecidesIff(reply: Reply)
    ensures Decides(reply) <==> reply.Completed? || !reply.error.retriable
  {
  }

  lemma Begin(attempts: seq<Pair>, known: string -> bool, reply: Call -> Reply)
    ensures attempts[..0] == [] && Order([], known) == [] && Trying(attempts, reply, [], None)
  {
  }

  // ------------------------------------------------------------------ what this promises

  /** The choice is a matter of the replies alone: the first that decides in the order of the list, or else the last. */
  lemma ChoiceIsUnique(attempts: seq<Pair>, known: string -> bool, reply: Call -> Reply,
                       calls: seq<Call>, result: Result<Answer, CallError>,
                       calls': seq<Call>, result': Result<Answer, CallError>)
    requires Chosen(attempts, known, reply, calls, result) && Chosen(attempts, known, reply, calls', result')
    ensures calls == calls' && result == result'
  {
    hide Order, Decides;
    NoLonger(attempts, known, reply, calls, result, calls', result');
    NoLonger(attempts, known, reply, calls', result', calls, result);
  }

  lemma NoLonger(attempts: seq<Pair>, known: string -> bool, reply: Call -> Reply,
                 calls: seq<Call>, result: Result<Answer, CallError>,
                 calls': seq<Call>, result': Result<Answer, CallError>)
    requires Chosen(attempts, known, reply, calls, result) && Chosen(attempts, known, reply, calls', result')
    ensures |calls'| <= |calls|
  {
    hide Order, Decides, Report;
    assert calls' != [] ==> forall k :: 0 <= k < |calls'| - 1 ==> calls'[..|calls'| - 1][k] == calls'[k];
  }

  /**
   * When the stored fallbacks are those of a validated configuration, the attempts assembled from them
   * all differ, and at most twelve calls are made.
   */
  lemma ValidatedCallsAreBounded(config: Config, stored: seq<Option<Pair>>, credential: nat -> Credential,
                                 attempts: seq<Pair>, known: string -> bool, reply: Call -> Reply, calls: seq<Call>,
                                 result: Result<Answer, CallError>)
    requires Acceptable(config) && Readable(stored) == Fallbacks(config)
    requires Assembled([config.primary] + Readable(stored), credential) == Some(attempts)
    requires Chosen(attempts, known, reply, calls, result)
    ensures Distinct(attempts) && |calls| <= 12 && forall pair <- attempts :: Usable(pair)
  {
    hide Order, Decides, Usable, WithKey, Distinct, Readable;
    WithKeyIsPart(Pairs(config), credential);
    OrderInRange(attempts, known);
  }

  // ------------------------------------------------------------------ what is tried, and what is reported

  /** Exactly the pairs for which a key was found are tried, in their order. */
  lemma {:induction false} TriedIff(pairs: seq<Pair>, credential: nat -> Credential, k: nat)
    requires k < |pairs|
    ensures var (all, before) := (WithKey(pairs, credential), WithKey(pairs[..k], credential));
            && before <= all
            && (credential(k) == Present ==> |before| < |all| && all[|before|] == pairs[k])
            && (credential(k) != Present ==> WithKey(pairs[..k + 1], credential) == before)
  {
    var n := |pairs| - 1;
    if k < n {
      TriedIff(pairs[..n], credential, k);
      assert pairs[..n][..k] == pairs[..k] && pairs[..n][..k + 1] == pairs[..k + 1];
    } else {
      assert pairs[..k + 1] == pairs;
    }
  }

  /** As many pairs are tried as keys were found. */
  lemma {:induction false} TriedCount(pairs: seq<Pair>, credential: nat -> Credential)
    ensures |WithKey(pairs, credential)| == |set k: nat | k < |pairs| && credential(k) == Present|
  {
    if pairs == [] {
      assert (set k: nat | k < |pairs| && credential(k) == Present) == {};
    } else {
      var n := |pairs| - 1;
      TriedCount(pairs[..n], credential);
      var before := set k: nat | k < |pairs[..n]| && credential(k) == Present;
      var now := set k: nat | k < |pairs| && credential(k) == Present;
      assert n !in before;
      assert now == if credential(n) == Present then before + {n} else before;
    }
  }

  /** Exactly the entries that can be read are fallbacks, in their order. */
  lemma {:induction false} ReadableIs(stored: seq<Option<Pair>>, k: nat)
    requires k < |stored|
    ensures var (all, before) := (Readable(stored), Readable(stored[..k]));
            && before <= all
            && (stored[k].Some? ==> |before| < |all| && all[|before|] == stored[k].value)
            && (stored[k].None? ==> Readable(stored[..k + 1]) == before)
  {
    var n := |stored| - 1;
    if k < n {
      ReadableIs(stored[..n], k);
      assert stored[..n][..k] == stored[..k] && stored[..n][..k + 1] == stored[..k + 1];
    } else {
      assert stored[..k + 1] == stored;
    }
  }

  predicate Earlier(a: Call, b: Call) {
    a.attempt < b.attempt || (a.attempt == b.attempt && a.retry < b.retry)
  }

  /** The possible calls are the three of each attempt with a registered provider, attempt by attempt. */
  lemma {:induction false} OrderIs(attempts: seq<Pair>, known: string -> bool)
    ensures forall call :: call in Order(attempts, known) <==>
              call.attempt < |attempts| && call.retry < 3 && known(attempts[call.attempt].provider)
    ensures forall i, j :: 0 <= i < j < |Order(attempts, known)| ==>
              Earlier(Order(attempts, known)[i], Order(attempts, known)[j])
  {
    if attempts != [] {
      var n := |attempts| - 1;
      OrderIs(attempts[..n], known);
      var front := Order(attempts[..n], known);
      forall i | 0 <= i < |front|
        ensures front[i].attempt < n
      {
        assert front[i] in front;
      }
    }
  }

  /** The answer is the reply to the last call, under its provider; the error that of the last call, under its pair. */
  lemma ReportIsOfLastCall(attempts: seq<Pair>, known: string -> bool, reply: Call -> Reply, calls: seq<Call>,
                           result: Result<Answer, CallError>)
    requires Chosen(attempts, known, reply, calls, result)
    ensures result == Err(NotConfigured) <==> calls == []
    ensures result.Ok? ==>
      var last := calls[|calls| - 1];
      && last.attempt < |attempts| && reply(last) == Completed(result.value.completion)
      && result.value.provider == attempts[last.attempt].provider
    ensures result.Err? && result.error.ProviderFailed? ==>
      var last := calls[|calls| - 1];
      && last.attempt < |attempts| && reply(last).Failing? && reply(last).error.category == result.error.category
      && result.error.pair == attempts[last.attempt]
      && (reply(last).error.retriable ==> calls == Order(attempts, known))
    ensures forall k :: 0 <= k < |calls| - 1 ==> reply(calls[k]).Failing? && reply(calls[k]).error.retriable
  {
    hide Order;
    assert calls != [] ==> forall k :: 0 <= k < |calls| - 1 ==> calls[..|calls| - 1][k] == calls[k];
  }
}
