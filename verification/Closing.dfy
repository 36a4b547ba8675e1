/**
 * A whole run: the tool chain, then the recheck of the conversation and the one message, record and
 * deletion that close it, while other parties keep changing the conversation.
 */
module Closing {
  import opened Text
  import opened Contract
  import opened Generate
  import opened ToolChain
  import StreamTask

  const HOLDING := "Let me look into that for you \U{2014} I'll follow up here shortly."
  const APOLOGY := "I'm sorry \U{2014} I'm having trouble responding right now. A team member will follow up shortly."
  const ACKNOWLEDGEMENT := "Thank you for your message. A team member will be with you shortly."

  /** What the conversation holds, and whether the database fails, at each moment; moments count the acts of the run. */
  datatype Conversation = Conversation(newer: nat -> bool, escalated: nat -> bool, replied: nat -> bool,
                                       acknowledged: nat -> bool, fails: nat -> bool)
  {
    /** The three looks of the recheck that starts at `t`; a look that fails counts as having seen nothing. */
    predicate SeesNewer(t: nat) {
      !fails(t) && newer(t)
    }

    predicate SeesEscalated(t: nat) {
      !fails(t + 1) && escalated(t + 1)
    }

    predicate SeesReplied(t: nat) {
      !fails(t + 2) && replied(t + 2)
    }

    predicate Superseding(t: nat) {
      SeesNewer(t) || SeesEscalated(t) || SeesReplied(t)
    }

    /** The acknowledgement is looked for and then added. */
    predicate Acknowledges(t: nat) {
      !fails(t) && !acknowledged(t) && !fails(t + 1)
    }
  }

  /** The messages added by a run whose chain ended after `n` provider rounds. */
  function Messages(conv: Conversation, platformPersona: bool, n: nat, end: ChainEnd): seq<Posted> {
    match end
    case DatabaseError => []
    case Waiting => if conv.fails(n) then [] else [Posted(Holding, HOLDING)]
    case Ended(Ok(output)) =>
      if conv.Superseding(n) || conv.fails(n + 3) then [] else [Posted(Answer, output.content)]
    case Ended(Err(Superseded(_))) => []
    case Ended(Err(Provider(error))) =>
      match error
      case NotConfigured =>
        if platformPersona && conv.Acknowledges(n + 3) then [Posted(Acknowledgement, ACKNOWLEDGEMENT)] else []
      case CallFailed(_, _, _) => if conv.fails(n + 3) then [] else [Posted(Apology, APOLOGY)]
      case Internal => []
  }

  /** The outcome a run records; a run without a provider, or that cannot add its message, records none. */
  function Verdict(conv: Conversation, n: nat, end: ChainEnd): Option<Outcome> {
    match end
    case DatabaseError => None
    case Waiting => if conv.fails(n) then None else Some(AwaitingToolApproval)
    case Ended(Ok(_)) =>
      if conv.Superseding(n) then Some(if conv.SeesEscalated(n) then CancelledEscalation else SupersededRun)
      else if conv.fails(n + 3) then None
      else Some(Success)
    case Ended(Err(Superseded(reason))) =>
      Some(if conv.SeesEscalated(n) || reason.Escalated? then CancelledEscalation else SupersededRun)
    case Ended(Err(Provider(CallFailed(_, _, _)))) => Some(if conv.fails(n + 3) then FailedRun else Fallback)
    case Ended(Err(Provider(_))) => None
  }

  /** A failure that ends the run before its event is deleted. */
  predicate Stopped(conv: Conversation, platformPersona: bool, n: nat, end: ChainEnd) {
    match end
    case DatabaseError => true
    case Waiting => conv.fails(n)
    case Ended(Ok(_)) => !conv.Superseding(n) && conv.fails(n + 3)
    case Ended(Err(Provider(NotConfigured))) =>
      platformPersona && (conv.fails(n + 3) || (!conv.acknowledged(n + 3) && conv.fails(n + 4)))
    case Ended(Err(_)) => false
  }

  function Looks(conv: Conversation, n: nat): seq<Act> {
    [SawNewer(conv.SeesNewer(n)), SawEscalated(conv.SeesEscalated(n)), SawReplied(conv.SeesReplied(n))]
  }

  /** No provider is asked from moment `n` on. */
  predicate Quiet(trace: seq<Act>, n: nat) {
    forall i :: n <= i < |trace| ==> !trace[i].Ask?
  }

  const CLEAN := [SawNewer(false), SawEscalated(false), SawReplied(false)]

  /**
   * The acts from moment `n` on add at most one message, and add an answer only directly behind a
   * recheck that saw nothing, itself behind the last provider round.
   */
  predicate Rechecks(trace: seq<Act>, n: nat) {
    && (forall i, j :: n <= i < |trace| && n <= j < |trace| && trace[i].Post? && trace[j].Post? ==> i == j)
    && (forall i :: n <= i < |trace| && trace[i].Post? && trace[i].posted.kind.Answer? ==>
          i == n + 3 && trace[n..n + 3] == CLEAN)
  }

  predicate Adds(trace: seq<Act>, n: nat, messages: seq<Posted>) {
    && (forall i :: n <= i < |trace| && trace[i].Post? ==> messages == [trace[i].posted])
    && (messages != [] ==> exists i :: n <= i < |trace| && trace[i].Post?)
  }

  /** The run writes its one record with this outcome, or the write fails and the provisional row stays. */
  predicate Records(conv: Conversation, trace: seq<Act>, n: nat, verdict: Option<Outcome>,
                    provisional: Option<Outcome>, generation: Option<Outcome>)
  {
    && (forall i :: n <= i < |trace| && trace[i].Record? ==>
          verdict == Some(trace[i].outcome) && generation == if conv.fails(i) then provisional else verdict)
    && (verdict.None? ==> generation == provisional)
    && (verdict.Some? ==> exists i :: n <= i < |trace| && trace[i].Record?)
  }

  /** The shape of a trace whose chain ended after `n` rounds: recheck, one message at most, deletion last. */
  predicate TraceFits(conv: Conversation, n: nat, ended: bool, trace: seq<Act>, messages: seq<Posted>, ok: bool) {
    && |trace| >= n && Quiet(trace, n)
    && (ok <==> |trace| > n && trace[|trace| - 1] == DeleteEvent)
    && (forall i :: n <= i < |trace| - 1 ==> trace[i] != DeleteEvent)
    && (ended ==> |trace| > n + 3 && trace[n..n + 3] == Looks(conv, n))
    && Adds(trace, n, messages) && Rechecks(trace, n)
  }

  /** What the tables and the trace are once the run is over. */
  ghost predicate ClosedRun(conv: Conversation, platformPersona: bool, n: nat, end: ChainEnd, ok: bool,
                            provisional: Option<Outcome>, store: Store, messages0: seq<Posted>)
    reads store
  {
    && store.messages == messages0 + Messages(conv, platformPersona, n, end)
    && (ok <==> !store.event)
    && TraceFits(conv, n, end.Ended?, store.trace, Messages(conv, platformPersona, n, end), ok)
    && Records(conv, store.trace, n, Verdict(conv, n, end), provisional, store.generation)
    && (ok <==> !Stopped(conv, platformPersona, n, end) && |store.trace| > n && !conv.fails(|store.trace| - 1))
  }

  /** An act of closing that is neither a look nor the end. */
  predicate Middling(act: Act) {
    !act.Ask? && !act.DeleteEvent?
  }

  /** The messages of acts whose one message, if any, is the act at `p` of the tail. */
  predicate PostsAt(conv: Conversation, n: nat, ended: bool, tail: seq<Act>, messages: seq<Posted>, p: Option<nat>) {
    && (forall i :: 0 <= i < |tail| && tail[i].Post? ==> p == Some(i))
    && match p
       case None => messages == []
       case Some(i) =>
         && i < |tail| && tail[i].Post? && messages == [tail[i].posted]
         && (messages[0].kind.Answer? ==> ended && i == 0 && Looks(conv, n) == CLEAN)
  }

  /** The head is the chain's acts, with the looks behind them if it ended with a result. */
  predicate Behind(conv: Conversation, n: nat, ended: bool, head: seq<Act>) {
    if ended then |head| == n + 3 && head[n..] == Looks(conv, n) else |head| == n
  }

  lemma FitsPosts(conv: Conversation, n: nat, ended: bool, head: seq<Act>, tail: seq<Act>, messages: seq<Posted>,
                  p: Option<nat>)
    requires Behind(conv, n, ended, head) && PostsAt(conv, n, ended, tail, messages, p)
    ensures Adds(head + tail, n, messages) && Rechecks(head + tail, n)
  {
    hide Looks;
    var trace, m := head + tail, |head|;
    assert forall i :: m <= i < |trace| ==> trace[i] == tail[i - m];
    if ended {
      LooksPostNothing(conv, n, head);
      assert trace[n..n + 3] == head[n..];
    }
    if p.Some? { assert trace[m + p.value] == tail[p.value]; }
  }

  lemma LooksPostNothing(conv: Conversation, n: nat, head: seq<Act>)
    requires |head| == n + 3 && head[n..] == Looks(conv, n)
    ensures forall i :: n <= i < |head| ==> !head[i].Post? && !head[i].Ask? && !head[i].DeleteEvent?
  {
    assert forall i :: n <= i < |head| ==> head[i] == head[n..][i - n];
  }

  lemma FitsShape(conv: Conversation, n: nat, ended: bool, head: seq<Act>, tail: seq<Act>, ok: bool)
    requires Behind(conv, n, ended, head) && (ended ==> tail != [])
    requires forall i :: 0 <= i < |tail| - 1 ==> Middling(tail[i])
    requires tail != [] ==> !tail[|tail| - 1].Ask? && (ok <==> tail[|tail| - 1] == DeleteEvent)
    requires tail == [] ==> !ok
    ensures var trace := head + tail;
            && |trace| >= n && Quiet(trace, n)
            && (ok <==> |trace| > n && trace[|trace| - 1] == DeleteEvent)
            && (forall i :: n <= i < |trace| - 1 ==> trace[i] != DeleteEvent)
            && (ended ==> |trace| > n + 3 && trace[n..n + 3] == Looks(conv, n))
  {
    hide Looks;
    var trace, m := head + tail, |head|;
    assert forall i :: m <= i < |trace| ==> trace[i] == tail[i - m];
    if ended {
      LooksPostNothing(conv, n, head);
      assert trace[n..n + 3] == head[n..];
    }
  }

  /** Acts behind the chain, or behind its recheck, fit when they add at most one message and delete last. */
  lemma Fits(conv: Conversation, n: nat, ended: bool, head: seq<Act>, tail: seq<Act>, messages: seq<Posted>, ok: bool,
             p: Option<nat>)
    requires Behind(conv, n, ended, head) && (ended ==> tail != []) && PostsAt(conv, n, ended, tail, messages, p)
    requires forall i :: 0 <= i < |tail| - 1 ==> Middling(tail[i])
    requires tail != [] ==> !tail[|tail| - 1].Ask? && (ok <==> tail[|tail| - 1] == DeleteEvent)
    requires tail == [] ==> !ok
    ensures TraceFits(conv, n, ended, head + tail, messages, ok)
  {
    hide Looks, Adds, Rechecks, Quiet, Middling, PostsAt, Behind;
    FitsPosts(conv, n, ended, head, tail, messages, p);
    FitsShape(conv, n, ended, head, tail, ok);
  }

  /** Acts behind the chain record what they write, once at most. */
  lemma RecordsFit(conv: Conversation, n: nat, head: seq<Act>, tail: seq<Act>, q: Option<nat>, verdict: Option<Outcome>,
                   provisional: Option<Outcome>, generation: Option<Outcome>)
    requires n <= |head| && forall i :: n <= i < |head| ==> !head[i].Record?
    requires q.Some? ==>
      && q.value < |tail| && tail[q.value].Record? && verdict == Some(tail[q.value].outcome)
      && generation == if conv.fails(|head| + q.value) then provisional else verdict
    requires q.None? ==> verdict.None? && generation == provisional
    requires forall i :: 0 <= i < |tail| && tail[i].Record? ==> q == Some(i)
    ensures Records(conv, head + tail, n, verdict, provisional, generation)
  {
    var trace, m := head + tail, |head|;
    assert forall i :: m <= i < |trace| ==> trace[i] == tail[i - m];
    if q.Some? { assert trace[m + q.value] == tail[q.value]; }
  }

  lemma LooksRecordNothing(conv: Conversation, n: nat, head: seq<Act>)
    requires |head| == n + 3 && head[n..] == Looks(conv, n)
    ensures forall i :: n <= i < |head| ==> !head[i].Record?
  {
    assert forall i :: n <= i < |head| ==> head[i] == head[n..][i - n];
  }

  /** The delete that ends every branch that gets that far. */
  method Finish(store: Store, conv: Conversation) returns (ok: bool)
    modifies store`event, store`trace
    ensures ok == !conv.fails(|old(store.trace)|)
    ensures store.event == (old(store.event) && !ok)
    ensures store.trace == old(store.trace) + [if ok then DeleteEvent else Failure]
  {
    ok := store.Delete(conv.fails(|store.trace|));
  }

  lemma AwaitingApproval(conv: Conversation, platformPersona: bool, n: nat)
    ensures Messages(conv, platformPersona, n, Waiting) == if conv.fails(n) then [] else [Posted(Holding, HOLDING)]
    ensures Verdict(conv, n, Waiting) == if conv.fails(n) then None else Some(AwaitingToolApproval)
    ensures Stopped(conv, platformPersona, n, Waiting) <==> conv.fails(n)
  {
  }

  /** The interim message of a run that waits for approval. */
  method CloseWaiting(store: Store, conv: Conversation, platformPersona: bool) returns (ok: bool)
    requires store.event
    modifies store`generation, store`messages, store`event, store`trace
    ensures old(store.trace) <= store.trace
    ensures ClosedRun(conv, platformPersona, |old(store.trace)|, Waiting, ok, old(store.generation), store,
                      old(store.messages))
  {
    hide TraceFits, Middling, Records, Messages, Verdict, Stopped;
    AwaitingApproval(conv, platformPersona, |store.trace|);
    MiddlingActs();
    ghost var head, before := store.trace, store.generation;
    var posted := store.AddMessage(Posted(Holding, HOLDING), conv.fails(|store.trace|));
    if !posted {
      Fits(conv, |head|, false, head, [Failure], [], false, None);
      RecordsFit(conv, |head|, head, [Failure], None, None, store.generation, store.generation);
      return false;
    }
    store.InsertRecord(AwaitingToolApproval, conv.fails(|store.trace|));
    ok := Finish(store, conv);
    ghost var tail :=
        [Post(Posted(Holding, HOLDING)), Record(AwaitingToolApproval), if ok then DeleteEvent else Failure];
    assert store.trace == head + tail;
    Fits(conv, |head|, false, head, tail, [Posted(Holding, HOLDING)], ok, Some(0));
    RecordsFit(conv, |head|, head, tail, Some(1), Some(AwaitingToolApproval), before, store.generation);
  }

  /** The three looks, one after the other. */
  method Recheck(store: Store, conv: Conversation) returns (escalated: bool, superseded: bool)
    modifies store`trace
    ensures store.trace == old(store.trace) + Looks(conv, |old(store.trace)|)
    ensures escalated == conv.SeesEscalated(|old(store.trace)|) && superseded == conv.Superseding(|old(store.trace)|)
  {
    var newer := !conv.fails(|store.trace|) && conv.newer(|store.trace|);
    store.Append(SawNewer(newer));
    escalated := !conv.fails(|store.trace|) && conv.escalated(|store.trace|);
    store.Append(SawEscalated(escalated));
    var replied := !conv.fails(|store.trace|) && conv.replied(|store.trace|);
    store.Append(SawReplied(replied));
    superseded := newer || escalated || replied;
  }

  /** The recheck has been made, and nothing else since the chain ended. */
  ghost predicate Rechecked(conv: Conversation, n: nat, store: Store)
    reads store
  {
    store.event && |store.trace| == n + 3 && store.trace[n..] == Looks(conv, n)
  }

  /** A superseded reply is dropped, and why is recorded. */
  method DropReply(store: Store, conv: Conversation, ghost n: nat, platformPersona: bool, output: Output,
                   escalated: bool)
    returns (ok: bool)
    requires Rechecked(conv, n, store) && escalated == conv.SeesEscalated(n) && conv.Superseding(n)
    modifies store`generation, store`messages, store`event, store`trace
    ensures old(store.trace) <= store.trace
    ensures ClosedRun(conv, platformPersona, n, Ended(Ok(output)), ok, old(store.generation), store,
                      old(store.messages))
  {
    hide TraceFits, Middling, Records, Conversation.Superseding;
    MiddlingActs();
    LooksRecordNothing(conv, n, store.trace);
    ghost var head, before := store.trace, store.generation;
    var outcome := if escalated then CancelledEscalation else SupersededRun;
    store.InsertRecord(outcome, conv.fails(|store.trace|));
    ok := Finish(store, conv);
    ghost var tail := [Record(outcome), if ok then DeleteEvent else Failure];
    assert store.trace == head + tail;
    Fits(conv, n, true, head, tail, [], ok, None);
    RecordsFit(conv, n, head, tail, Some(0), Some(outcome), before, store.generation);
  }

  lemma ReplyPosted(conv: Conversation, n: nat, platformPersona: bool, output: Output)
    requires !conv.Superseding(n)
    ensures var end := Ended(Ok(output));
            && Messages(conv, platformPersona, n, end)
               == (if conv.fails(n + 3) then [] else [Posted(Answer, output.content)])
            && Verdict(conv, n, end) == (if conv.fails(n + 3) then None else Some(Success))
            && (Stopped(conv, platformPersona, n, end) <==> conv.fails(n + 3))
  {
  }

  /** A reply that nothing superseded is posted and recorded. */
  method PostReply(store: Store, conv: Conversation, ghost n: nat, platformPersona: bool, output: Output)
    returns (ok: bool)
    requires Rechecked(conv, n, store) && !conv.Superseding(n)
    modifies store`generation, store`messages, store`event, store`trace
    ensures old(store.trace) <= store.trace
    ensures ClosedRun(conv, platformPersona, n, Ended(Ok(output)), ok, old(store.generation), store,
                      old(store.messages))
  {
    CleanLooks(conv, n);
    ReplyPosted(conv, n, platformPersona, output);
    hide *;
    MiddlingActs();
    RecheckedFacts(conv, n, store);
    LooksRecordNothing(conv, n, store.trace);
    ghost var head, before, messages0 := store.trace, store.generation, store.messages;
    var answer := Posted(Answer, output.content);
    var posted := store.AddMessage(answer, conv.fails(|store.trace|));
    if !posted {
      AnswerFits(conv, n, head, [Failure], answer, false, before, store.generation, false);
      ok := false;
    } else {
      store.InsertRecord(Success, conv.fails(|store.trace|));
      ok := Finish(store, conv);
      ghost var tail := [Post(answer), Record(Success), if ok then DeleteEvent else Failure];
      assert store.trace == head + tail;
      AnswerFits(conv, n, head, tail, answer, ok, before, store.generation, true);
    }
    ClosesReply(conv, n, platformPersona, output, ok, before, store, messages0);
  }

  /** The acts of posting a reply fit, and record what they should. */
  lemma AnswerFits(conv: Conversation, n: nat, head: seq<Act>, tail: seq<Act>, answer: Posted, ok: bool,
                   before: Option<Outcome>, generation: Option<Outcome>, posted: bool)
    requires |head| == n + 3 && head[n..] == Looks(conv, n) == CLEAN && answer.kind.Answer?
    requires tail == if posted then [Post(answer), Record(Success), if ok then DeleteEvent else Failure] else [Failure]
    requires (ok ==> posted) && generation == if !posted || conv.fails(n + 4) then before else Some(Success)
    ensures TraceFits(conv, n, true, head + tail, if posted then [answer] else [], ok)
    ensures Records(conv, head + tail, n, if posted then Some(Success) else None, before, generation)
  {
    hide TraceFits, Middling, Records, Looks;
    MiddlingActs();
    LooksRecordNothing(conv, n, head);
    Fits(conv, n, true, head, tail, if posted then [answer] else [], ok, if posted then Some(0) else None);
    RecordsFit(conv, n, head, tail, if posted then Some(1) else None, if posted then Some(Success) else None, before,
               generation);
  }

  lemma ClosesReply(conv: Conversation, n: nat, platformPersona: bool, output: Output, ok: bool,
                    before: Option<Outcome>, store: Store, messages0: seq<Posted>)
    requires !conv.Superseding(n) && (ok <==> !store.event)
    requires store.messages == messages0 + (if conv.fails(n + 3) then [] else [Posted(Answer, output.content)])
    requires TraceFits(conv, n, true, store.trace,
                       if conv.fails(n + 3) then [] else [Posted(Answer, output.content)], ok)
    requires Records(conv, store.trace, n, if conv.fails(n + 3) then None else Some(Success), before, store.generation)
    requires ok <==> !conv.fails(n + 3) && |store.trace| > n && !conv.fails(|store.trace| - 1)
    ensures ClosedRun(conv, platformPersona, n, Ended(Ok(output)), ok, before, store, messages0)
  {
    ReplyPosted(conv, n, platformPersona, output);
    hide TraceFits, Records, Messages, Verdict, Stopped, Conversation.Superseding;
  }

  lemma MiddlingActs()
    ensures Middling(Failure) && (forall b :: Middling(SawAcknowledged(b)))
    ensures (forall o :: Middling(Record(o))) && forall m :: Middling(Post(m))
  {
  }

  lemma CleanLooks(conv: Conversation, n: nat)
    ensures !conv.Superseding(n) <==> Looks(conv, n) == CLEAN
  {
    var looks := Looks(conv, n);
    assert looks[0] == SawNewer(conv.SeesNewer(n)) && looks[1] == SawEscalated(conv.SeesEscalated(n));
    assert looks[2] == SawReplied(conv.SeesReplied(n));
  }

  /** What follows for the platform's own assistant without a configured provider: one acknowledgement. */
  method CloseUnconfigured(store: Store, conv: Conversation, ghost n: nat) returns (ok: bool)
    requires Rechecked(conv, n, store)
    modifies store`generation, store`messages, store`event, store`trace
    ensures old(store.trace) <= store.trace
    ensures ClosedRun(conv, true, n, Ended(Err(Provider(NotConfigured))), ok, old(store.generation), store,
                      old(store.messages))
  {
    hide TraceFits, Middling, Records, Rechecked, Messages, Verdict, Stopped, Looks;
    MiddlingActs();
    RecheckedFacts(conv, n, store);
    Unconfigured(conv, n);
    LooksRecordNothing(conv, n, store.trace);
    ghost var head, before := store.trace, store.generation;
    var t := |store.trace|;
    if conv.fails(t) {
      store.Append(Failure);
      Fits(conv, n, true, head, [Failure], [], false, None);
      RecordsFit(conv, n, head, [Failure], None, None, before, before);
      return false;
    }
    var acknowledged := conv.acknowledged(t);
    store.Append(SawAcknowledged(acknowledged));
    ghost var tail := [SawAcknowledged(acknowledged)];
    var message := Posted(Acknowledgement, ACKNOWLEDGEMENT);
    if !acknowledged {
      var posted := store.AddMessage(message, conv.fails(t + 1));
      tail := tail + [if posted then Post(message) else Failure];
      if !posted {
        assert store.trace == head + tail;
        Fits(conv, n, true, head, tail, [], false, None);
        RecordsFit(conv, n, head, tail, None, None, before, before);
        return false;
      }
    }
    ok := Finish(store, conv);
    tail := tail + [if ok then DeleteEvent else Failure];
    assert store.trace == head + tail;
    Fits(conv, n, true, head, tail, if acknowledged then [] else [message], ok, if acknowledged then None else Some(1));
    RecordsFit(conv, n, head, tail, None, None, before, before);
  }

  lemma Unconfigured(conv: Conversation, n: nat)
    ensures var end := Ended(Err(Provider(NotConfigured)));
            && Messages(conv, true, n, end)
               == (if conv.Acknowledges(n + 3) then [Posted(Acknowledgement, ACKNOWLEDGEMENT)] else [])
            && Verdict(conv, n, end) == None
            && (Stopped(conv, true, n, end) <==> conv.fails(n + 3) || (!conv.acknowledged(n + 3) && conv.fails(n + 4)))
  {
  }

  lemma RecheckedFacts(conv: Conversation, n: nat, store: Store)
    requires Rechecked(conv, n, store)
    ensures store.event && |store.trace| == n + 3 && store.trace[n..] == Looks(conv, n)
  {
  }

  /** What follows for a run whose generation was superseded: why is recorded, nothing is posted. */
  method CloseSuperseded(store: Store, conv: Conversation, ghost n: nat, platformPersona: bool, reason: Reason,
                         escalated: bool)
    returns (ok: bool)
    requires Rechecked(conv, n, store) && escalated == conv.SeesEscalated(n)
    modifies store`generation, store`messages, store`event, store`trace
    ensures old(store.trace) <= store.trace
    ensures ClosedRun(conv, platformPersona, n, Ended(Err(Superseded(reason))), ok, old(store.generation), store,
                      old(store.messages))
  {
    hide TraceFits, Middling, Records;
    MiddlingActs();
    LooksRecordNothing(conv, n, store.trace);
    ghost var head, before := store.trace, store.generation;
    var outcome := if escalated || reason.Escalated? then CancelledEscalation else SupersededRun;
    store.InsertRecord(outcome, conv.fails(|store.trace|));
    ok := Finish(store, conv);
    ghost var tail := [Record(outcome), if ok then DeleteEvent else Failure];
    assert store.trace == head + tail;
    Fits(conv, n, true, head, tail, [], ok, None);
    RecordsFit(conv, n, head, tail, Some(0), Some(outcome), before, store.generation);
  }

  lemma Failing(conv: Conversation, n: nat, platformPersona: bool, error: CallError)
    requires error.CallFailed?
    ensures var end := Ended(Err(Provider(error)));
            && Messages(conv, platformPersona, n, end) == (if conv.fails(n + 3) then [] else [Posted(Apology, APOLOGY)])
            && Verdict(conv, n, end) == Some(if conv.fails(n + 3) then FailedRun else Fallback)
            && !Stopped(conv, platformPersona, n, end)
  {
  }

  /** What follows for a run whose generation failed at the provider: an apology, if it can be added. */
  method CloseFailed(store: Store, conv: Conversation, ghost n: nat, platformPersona: bool, error: CallError)
    returns (ok: bool)
    requires Rechecked(conv, n, store) && error.CallFailed?
    modifies store`generation, store`messages, store`event, store`trace
    ensures old(store.trace) <= store.trace
    ensures ClosedRun(conv, platformPersona, n, Ended(Err(Provider(error))), ok, old(store.generation), store,
                      old(store.messages))
  {
    hide TraceFits, Middling, Records, Messages, Verdict, Stopped, Looks;
    Failing(conv, n, platformPersona, error);
    MiddlingActs();
    LooksRecordNothing(conv, n, store.trace);
    ghost var head, before := store.trace, store.generation;
    var apology := Posted(Apology, APOLOGY);
    var posted := store.AddMessage(apology, conv.fails(|store.trace|));
    var outcome := if posted then Fallback else FailedRun;
    store.InsertRecord(outcome, conv.fails(|store.trace|));
    ok := Finish(store, conv);
    ghost var tail := [if posted then Post(apology) else Failure, Record(outcome), if ok then DeleteEvent else Failure];
    assert store.trace == head + tail;
    Fits(conv, n, true, head, tail, if posted then [apology] else [], ok, if posted then Some(0) else None);
    RecordsFit(conv, n, head, tail, Some(1), Some(outcome), before, store.generation);
  }

  /**
   * What follows for a run that broke internally, or for a tenant's assistant without a provider: only the
   * deletion.
   */
  method CloseSilently(store: Store, conv: Conversation, ghost n: nat, platformPersona: bool, error: CallError)
    returns (ok: bool)
    requires Rechecked(conv, n, store) && (error.Internal? || (error.NotConfigured? && !platformPersona))
    modifies store`generation, store`messages, store`event, store`trace
    ensures old(store.trace) <= store.trace
    ensures ClosedRun(conv, platformPersona, n, Ended(Err(Provider(error))), ok, old(store.generation), store,
                      old(store.messages))
  {
    hide TraceFits, Middling, Records;
    LooksRecordNothing(conv, n, store.trace);
    ghost var head, before := store.trace, store.generation;
    ok := Finish(store, conv);
    Fits(conv, n, true, head, [if ok then DeleteEvent else Failure], [], ok, None);
    RecordsFit(conv, n, head, [if ok then DeleteEvent else Failure], None, None, before, store.generation);
  }

  /** The recheck, and what follows from it for the result of the chain. */
  method CloseEnded(store: Store, conv: Conversation, platformPersona: bool, result: Result<Output, GenerateError>)
    returns (ok: bool)
    requires store.event
    modifies store`generation, store`messages, store`event, store`trace
    ensures old(store.trace) <= store.trace
    ensures ClosedRun(conv, platformPersona, |old(store.trace)|, Ended(result), ok, old(store.generation), store,
                      old(store.messages))
  {
    hide Messages, Verdict, Stopped, ClosedRun, Conversation.Superseding, Conversation.SeesEscalated;
    ghost var n := |store.trace|;
    var escalated, superseded := Recheck(store, conv);
    match result {
      case Ok(output) =>
        if superseded {
          ok := DropReply(store, conv, n, platformPersona, output, escalated);
        } else {
          ok := PostReply(store, conv, n, platformPersona, output);
        }
      case Err(Provider(NotConfigured)) =>
        if platformPersona {
          ok := CloseUnconfigured(store, conv, n);
        } else {
          ok := CloseSilently(store, conv, n, platformPersona, NotConfigured);
        }
      case Err(Provider(Internal)) => ok := CloseSilently(store, conv, n, platformPersona, Internal);
      case Err(Provider(error)) => ok := CloseFailed(store, conv, n, platformPersona, error);
      case Err(Superseded(reason)) => ok := CloseSuperseded(store, conv, n, platformPersona, reason, escalated);
    }
  }

  /** A whole run on fresh tables. */
  method RunGeneration(store: Store, env: Env, base: seq<Message>, max: nat, conv: Conversation, platformPersona: bool)
    returns (ok: bool, end: ChainEnd, ghost n: nat, ghost provisional: Option<Outcome>)
    requires store.generation == None && store.requests == [] && store.trace == [] && store.event
    modifies store
    ensures Ran(env, max, n, end, store.requests) && Asks(env, base, max, n) <= store.trace
    ensures ClosedRun(conv, platformPersona, n, end, ok, provisional, store, old(store.messages))
    ensures provisional.Some? ==> provisional == Some(AwaitingToolApproval)
    ensures store.requests != [] ==> provisional.Some?
  {
    hide Env.Handle, Env.Asked, AllSettled, Ran, Messages, Verdict, Stopped, ClosedRun;
    end, n := RunToolChain(store, env, base, max);
    provisional := store.generation;
    match end {
      case DatabaseError =>
        ok := false;
        AbortedCloses(conv, platformPersona, n, store);
      case Waiting => ok := CloseWaiting(store, conv, platformPersona);
      case Ended(result) => ok := CloseEnded(store, conv, platformPersona, result);
    }
  }

  lemma AbortedCloses(conv: Conversation, platformPersona: bool, n: nat, store: Store)
    requires store.event && |store.trace| == n
    ensures ClosedRun(conv, platformPersona, n, DatabaseError, false, store.generation, store, store.messages)
  {
    assert store.messages + [] == store.messages;
    assert store.trace + [] == store.trace;
    Fits(conv, n, false, store.trace, [], [], false, None);
    RecordsFit(conv, n, store.trace, [], None, None, store.generation, store.generation);
  }

  // ------------------------------------------------------------------ what every run guarantees

  ghost predicate Persists(f: nat -> bool) {
    forall t, u :: t <= u && f(t) ==> f(u)
  }

  /**
   * In the trace of any run an answer is the reply of the chain, stands directly behind a recheck that
   * saw nothing, with every question to the provider before that recheck, and is the only message.
   */
  lemma {:induction false} AnswerOnlyAfterCleanRecheck(conv: Conversation, platformPersona: bool, n: nat, end: ChainEnd,
                                                       ok: bool, provisional: Option<Outcome>, store: Store,
                                                       messages0: seq<Posted>, i: nat, env: Env, base: seq<Message>,
                                                       max: nat)
    requires ClosedRun(conv, platformPersona, n, end, ok, provisional, store, messages0)
    requires Asks(env, base, max, n) <= store.trace
    requires i < |store.trace| && store.trace[i].Post? && store.trace[i].posted.kind.Answer?
    ensures i == n + 3 && store.trace[n..i] == CLEAN
    ensures forall j :: 0 <= j < |store.trace| ==> (store.trace[j].Ask? <==> j < n) && (store.trace[j].Post? ==> j == i)
    ensures end.Ended? && end.result.Ok? && store.trace[i].posted.body == end.result.value.content
    ensures store.messages == messages0 + [store.trace[i].posted]
  {
    hide Verdict, Records, Stopped, Asks;
    AsksAreAsks(env, base, max, n, store.trace);
    var messages := Messages(conv, platformPersona, n, end);
    assert messages == [store.trace[i].posted];
  }

  lemma AsksAreAsks(env: Env, base: seq<Message>, max: nat, n: nat, trace: seq<Act>)
    requires Asks(env, base, max, n) <= trace
    ensures forall j :: 0 <= j < n ==> trace[j].Ask?
  {
    hide Asks, Env.Asked, Answers;
    assert forall j :: 0 <= j < n ==> trace[j] == Asks(env, base, max, n)[j];
  }

  predicate IsAnswer(trace: seq<Act>, i: nat) {
    i < |trace| && trace[i].Post? && trace[i].posted.kind.Answer?
  }

  /** A run posts an answer exactly when its chain gave a reply, its looks saw nothing, and the insert worked. */
  lemma AnswerIff(conv: Conversation, platformPersona: bool, n: nat, end: ChainEnd, ok: bool,
                  provisional: Option<Outcome>, store: Store, messages0: seq<Posted>)
    requires ClosedRun(conv, platformPersona, n, end, ok, provisional, store, messages0)
    ensures (exists i :: n <= i && IsAnswer(store.trace, i))
       <==> end.Ended? && end.result.Ok? && store.trace[n..n + 3] == CLEAN && !conv.fails(n + 3)
  {
    hide Verdict, Records, Stopped, Quiet, Conversation.Superseding;
    CleanLooks(conv, n);
    var messages := Messages(conv, platformPersona, n, end);
    if i :| n <= i && IsAnswer(store.trace, i) {
      assert messages == [store.trace[i].posted];
    }
    if end.Ended? && end.result.Ok? && store.trace[n..n + 3] == CLEAN && !conv.fails(n + 3) {
      assert messages == [Posted(Answer, end.result.value.content)];
      var i :| n <= i < |store.trace| && store.trace[i].Post?;
      assert IsAnswer(store.trace, i);
    }
  }

  /** If the look for newer messages worked, an answer means that none was there during any provider round. */
  lemma AnswerIsToTheLastMessage(conv: Conversation, platformPersona: bool, n: nat, end: ChainEnd, ok: bool,
                                 provisional: Option<Outcome>, store: Store, messages0: seq<Posted>, i: nat, t: nat)
    requires ClosedRun(conv, platformPersona, n, end, ok, provisional, store, messages0)
    requires n <= i && IsAnswer(store.trace, i)
    requires Persists(conv.newer) && !conv.fails(n) && t <= n
    ensures !conv.newer(t)
  {
    hide ClosedRun;
    LookSawNothing(conv, platformPersona, n, end, ok, provisional, store, messages0, i, ForNewer);
    assert conv.newer(t) ==> conv.newer(n);
  }

  /** What an answer can land behind: a newer message, an open escalation, or another reply. */
  datatype Look = ForNewer | ForEscalation | ForReply {
    /** The place of the look in the recheck. */
    function Offset(): nat {
      if ForNewer? then 0 else if ForEscalation? then 1 else 2
    }
  }

  /** What a look is for, at each moment. */
  function There(conv: Conversation, look: Look): nat -> bool {
    match look
    case ForNewer => conv.newer
    case ForEscalation => conv.escalated
    case ForReply => conv.replied
  }

  lemma LookSawNothing(conv: Conversation, platformPersona: bool, n: nat, end: ChainEnd, ok: bool,
                       provisional: Option<Outcome>, store: Store, messages0: seq<Posted>, i: nat, look: Look)
    requires ClosedRun(conv, platformPersona, n, end, ok, provisional, store, messages0)
    requires n <= i && IsAnswer(store.trace, i)
    ensures i == n + 3
    ensures conv.fails(n + look.Offset()) || !There(conv, look)(n + look.Offset())
  {
    hide Verdict, Records, Stopped, Quiet;
    assert Messages(conv, platformPersona, n, end) == [store.trace[i].posted];
    var looks := Looks(conv, n);
    assert looks == CLEAN;
    assert looks[0] == CLEAN[0] && looks[1] == CLEAN[1] && looks[2] == CLEAN[2];
  }

  /** It is there from moment `t` up to moment `i`. */
  ghost predicate ThereFrom(there: nat -> bool, t: nat, i: nat) {
    forall u: nat :: t <= u <= i ==> there(u)
  }

  /** It appears at moment `t` and stays until moment `i`. */
  ghost predicate Appears(there: nat -> bool, t: nat, i: nat) {
    t > 0 && !there(t - 1) && ThereFrom(there, t, i)
  }

  /**
   * An answer lands behind a newer message, an open escalation or another reply exactly when the look for
   * it failed although it was there up to the commit, or when it appeared between that look and the
   * commit, during which nothing is locked.
   */
  lemma LateAnswerIff(conv: Conversation, platformPersona: bool, n: nat, end: ChainEnd, ok: bool,
                      provisional: Option<Outcome>, store: Store, messages0: seq<Posted>, i: nat, look: Look)
    requires ClosedRun(conv, platformPersona, n, end, ok, provisional, store, messages0)
    requires n <= i && IsAnswer(store.trace, i)
    ensures var there, m := There(conv, look), n + look.Offset();
            there(i) <==> (conv.fails(m) && ThereFrom(there, m, i)) || exists t :: m < t <= i && Appears(there, t, i)
  {
    hide ClosedRun, There;
    LookSawNothing(conv, platformPersona, n, end, ok, provisional, store, messages0, i, look);
    var there, m := There(conv, look), n + look.Offset();
    if there(i) {
      var t := Arrival(there, m, i);
      assert t > m ==> Appears(there, t, i);
    }
  }

  /** Going back from a moment at which it is there, as far as it was there all along, but not behind `m`. */
  lemma Arrival(there: nat -> bool, m: nat, i: nat) returns (t: nat)
    requires there(i) && m <= i
    ensures m <= t <= i && ThereFrom(there, t, i) && (t > m ==> Appears(there, t, i))
  {
    t := i;
    while t > m && there(t - 1)
      invariant m <= t <= i && ThereFrom(there, t, i)
    {
      t := t - 1;
    }
  }

  /**
   * The apology ignores the recheck: a run posts it behind looks that saw something exactly when its
   * chain ended in a provider error, something superseded it, and the insert worked.
   */
  lemma ApologyIgnoresRecheck(conv: Conversation, platformPersona: bool, n: nat, end: ChainEnd, ok: bool,
                              provisional: Option<Outcome>, store: Store, messages0: seq<Posted>)
    requires ClosedRun(conv, platformPersona, n, end, ok, provisional, store, messages0)
    ensures (exists i :: n + 3 <= i < |store.trace|
                && store.trace[i] == Post(Posted(Apology, APOLOGY)) && store.trace[n..n + 3] != CLEAN)
       <==> && end.Ended? && end.result.Err? && end.result.error.Provider? && end.result.error.error.CallFailed?
            && conv.Superseding(n) && !conv.fails(n + 3)
  {
    hide Verdict, Records, Stopped, Quiet, Conversation.Superseding;
    CleanLooks(conv, n);
    var messages := Messages(conv, platformPersona, n, end);
    if i :| n + 3 <= i < |store.trace|
            && store.trace[i] == Post(Posted(Apology, APOLOGY)) && store.trace[n..n + 3] != CLEAN {
      assert messages == [Posted(Apology, APOLOGY)];
    }
    if && end.Ended? && end.result.Err? && end.result.error.Provider? && end.result.error.error.CallFailed?
       && !conv.fails(n + 3) {
      assert messages == [Posted(Apology, APOLOGY)];
      var i :| n <= i < |store.trace| && store.trace[i].Post?;
      assert store.trace[i] == Post(Posted(Apology, APOLOGY));
      LooksArePrefix(conv, n, store.trace);
    }
  }

  lemma LooksArePrefix(conv: Conversation, n: nat, trace: seq<Act>)
    requires |trace| >= n + 3 && trace[n..n + 3] == Looks(conv, n)
    ensures forall i :: n <= i < n + 3 ==> !trace[i].Post?
  {
    assert forall i :: n <= i < n + 3 ==> trace[i] == trace[n..n + 3][i - n];
  }

  predicate HasAnswer(trace: seq<Act>, n: nat) {
    exists i :: n <= i < |trace| && trace[i].Post? && trace[i].posted.kind.Answer?
  }

  predicate HasPost(trace: seq<Act>, n: nat) {
    exists i :: n <= i < |trace| && trace[i].Post?
  }

  /** The outcome of a run that something superseded: cancelled when an escalation was seen, or was the reason. */
  predicate IsDropped(trace: seq<Act>, n: nat, outcome: Outcome, escalated: bool)
    requires |trace| > n + 1
  {
    outcome == if trace[n + 1] == SawEscalated(true) || escalated then CancelledEscalation else SupersededRun
  }

  /** What the record of a run says, by how its chain ended and what its trace shows. */
  lemma RecordIs(conv: Conversation, platformPersona: bool, n: nat, end: ChainEnd, ok: bool,
                 provisional: Option<Outcome>, store: Store, messages0: seq<Posted>, i: nat)
    requires ClosedRun(conv, platformPersona, n, end, ok, provisional, store, messages0)
    requires n <= i < |store.trace| && store.trace[i].Record?
    ensures store.generation == if conv.fails(i) then provisional else Some(store.trace[i].outcome)
    ensures var (trace, outcome) := (store.trace, store.trace[i].outcome);
            && (outcome == Success <==> HasAnswer(trace, n))
            && match end
               case DatabaseError => false
               case Waiting => outcome == AwaitingToolApproval && HasPost(trace, n)
               case Ended(Ok(_)) =>
                 if trace[n..n + 3] == CLEAN then outcome == Success
                 else !HasPost(trace, n) && IsDropped(trace, n, outcome, false)
               case Ended(Err(Superseded(reason))) =>
                 !HasPost(trace, n) && IsDropped(trace, n, outcome, reason == Escalated)
               case Ended(Err(Provider(CallFailed(_, _, _)))) =>
                 outcome == if HasPost(trace, n) then Fallback else FailedRun
               case Ended(Err(Provider(_))) => false
  {
    hide Stopped, Quiet, Conversation.Superseding, Conversation.SeesEscalated;
    CleanLooks(conv, n);
    if end.Ended? { assert store.trace[n + 1] == Looks(conv, n)[1]; }
    PostsAreMessages(conv, n, end.Ended?, store.trace, Messages(conv, platformPersona, n, end), ok);
  }

  lemma PostsAreMessages(conv: Conversation, n: nat, ended: bool, trace: seq<Act>, messages: seq<Posted>, ok: bool)
    requires TraceFits(conv, n, ended, trace, messages, ok)
    ensures HasPost(trace, n) <==> messages != []
    ensures HasAnswer(trace, n) <==> messages != [] && messages[0].kind.Answer?
    ensures forall i :: n <= i < |trace| && trace[i].Post? ==> messages == [trace[i].posted]
  {
    hide Quiet, Rechecks, Looks;
  }

  /** A run whose chain ended with anything to record does record it. */
  lemma RunRecords(conv: Conversation, platformPersona: bool, n: nat, end: ChainEnd, ok: bool,
                   provisional: Option<Outcome>, store: Store, messages0: seq<Posted>)
    requires ClosedRun(conv, platformPersona, n, end, ok, provisional, store, messages0)
    ensures (exists i :: n <= i < |store.trace| && store.trace[i].Record?)
       <==> match end
            case DatabaseError => false
            case Waiting => HasPost(store.trace, n)
            case Ended(Ok(_)) => store.trace[n..n + 3] != CLEAN || HasAnswer(store.trace, n)
            case Ended(Err(Superseded(_))) => true
            case Ended(Err(Provider(error))) => error.CallFailed?
  {
    hide Stopped, Quiet, Conversation.Superseding, Conversation.SeesEscalated;
    CleanLooks(conv, n);
    PostsAreMessages(conv, n, end.Ended?, store.trace, Messages(conv, platformPersona, n, end), ok);
  }

  /** Each kind of message is posted at just one end of a chain, under just these conditions, and says just this. */
  lemma PostIs(conv: Conversation, platformPersona: bool, n: nat, end: ChainEnd, ok: bool,
               provisional: Option<Outcome>, store: Store, messages0: seq<Posted>)
    requires ClosedRun(conv, platformPersona, n, end, ok, provisional, store, messages0)
    ensures HasPost(store.trace, n)
       <==> match end
            case DatabaseError => false
            case Waiting => !conv.fails(n)
            case Ended(Ok(_)) => store.trace[n..n + 3] == CLEAN && !conv.fails(n + 3)
            case Ended(Err(Superseded(_))) => false
            case Ended(Err(Provider(NotConfigured))) =>
              platformPersona && !conv.fails(n + 3) && !conv.acknowledged(n + 3) && !conv.fails(n + 4)
            case Ended(Err(Provider(CallFailed(_, _, _)))) => !conv.fails(n + 3)
            case Ended(Err(Provider(Internal))) => false
    ensures forall i :: n <= i < |store.trace| && store.trace[i].Post? ==>
              var posted := store.trace[i].posted;
              && store.messages == messages0 + [posted]
              && match end
                 case Waiting => posted == Posted(Holding, HOLDING)
                 case Ended(Ok(output)) => posted == Posted(Answer, output.content)
                 case Ended(Err(Provider(NotConfigured))) => posted == Posted(Acknowledgement, ACKNOWLEDGEMENT)
                 case Ended(Err(Provider(CallFailed(_, _, _)))) => posted == Posted(Apology, APOLOGY)
                 case _ => false
  {
    hide Stopped, Verdict, Records, Quiet, Conversation.Superseding;
    CleanLooks(conv, n);
    PostsAreMessages(conv, n, end.Ended?, store.trace, Messages(conv, platformPersona, n, end), ok);
  }

  /**
   * A run fails only if the database failed, and then keeps its event; a message that should have been
   * posted and was not makes it fail, unless it was an apology.
   */
  lemma FailureIs(conv: Conversation, platformPersona: bool, n: nat, end: ChainEnd, ok: bool,
                  provisional: Option<Outcome>, store: Store, messages0: seq<Posted>)
    requires ClosedRun(conv, platformPersona, n, end, ok, provisional, store, messages0)
    ensures ok <==> !store.event
    ensures !ok ==> end.DatabaseError? || exists t :: n <= t && conv.fails(t)
    ensures ok ==> match end
                   case DatabaseError => false
                   case Waiting => HasPost(store.trace, n)
                   case Ended(Ok(_)) => HasPost(store.trace, n) || store.trace[n..n + 3] != CLEAN
                   case Ended(Err(Provider(NotConfigured))) =>
                     HasPost(store.trace, n) || !platformPersona || conv.acknowledged(n + 3)
                   case Ended(Err(_)) => true
  {
    hide Verdict, Records, Quiet, Conversation.Superseding;
    CleanLooks(conv, n);
    PostsAreMessages(conv, n, end.Ended?, store.trace, Messages(conv, platformPersona, n, end), ok);
    if !ok && !end.DatabaseError? && !Stopped(conv, platformPersona, n, end) {
      assert |store.trace| > n ==> conv.fails(|store.trace| - 1);
    }
  }

  /**
   * A run that used tools and deleted its event keeps a row that says it waits for approval although no
   * request does, exactly when it ended unconfigured or on an internal error, or when its one record
   * could not be written.
   */
  lemma ForgottenRowIff(conv: Conversation, platformPersona: bool, env: Env, max: nat, n: nat, end: ChainEnd,
                        store: Store, messages0: seq<Posted>)
    requires Ran(env, max, n, end, store.requests)
    requires ClosedRun(conv, platformPersona, n, end, true, Some(AwaitingToolApproval), store, messages0)
    ensures store.generation == Some(AwaitingToolApproval)
            && (forall r <- store.requests :: !r.status.AwaitingApproval?)
       <==> && end.Ended?
            && (|| end.result == Err(Provider(NotConfigured))
                || end.result == Err(Provider(Internal))
                || exists i :: n <= i < |store.trace| && store.trace[i].Record? && conv.fails(i))
  {
    hide Ran, Env.Handle, Env.Asked, Messages, Quiet, Adds, Rechecks, Conversation.Superseding;
    RequestsAreNumbered(env, max, n, end, store.requests);
    if end.Waiting? {
      var k := |store.requests| - 1;
      RanWaiting(env, max, n, store.requests);
      assert store.requests[k].status.AwaitingApproval?;
    }
  }

  lemma RanWaiting(env: Env, max: nat, n: nat, requests: seq<Request>)
    requires Ran(env, max, n, Waiting, requests)
    ensures requests != []
  {
  }

  // ------------------------------------------------------------------ runs that go wrong

  function AtOnce(result: Result<Output, GenerateError>): Env {
    Env(_ => result, _ => Allowed(false), (_, _) => RunsOut, (_, _) => false)
  }

  lemma RanAtOnce(result: Result<Output, GenerateError>, n: nat, end: ChainEnd, requests: seq<Request>)
    requires Ran(AtOnce(result), 5, n, end, requests) && (result.Ok? ==> result.value.toolCalls == [])
    ensures n == 1 && end == Ended(result)
  {
    hide Env.Asked, Env.Handle;
    assert !AtOnce(result).Calling(0);
  }

  const REPLY := Output("Yes, it is open.", NO_META, false, [])

  lemma PostsReply(conv: Conversation, ok: bool, provisional: Option<Outcome>, store: Store)
    requires ClosedRun(conv, false, 1, Ended(Ok(REPLY)), ok, provisional, store, [])
    requires !conv.Superseding(1) && forall t :: t > 1 ==> !conv.fails(t)
    ensures ok && !store.event && store.messages == [Posted(Answer, REPLY.content)] && IsAnswer(store.trace, 4)
  {
    hide Verdict, Records, Quiet, Looks, Conversation.Superseding;
    var messages := Messages(conv, false, 1, Ended(Ok(REPLY)));
    assert messages == [Posted(Answer, REPLY.content)];
    assert [] + messages == messages;
    var i :| 1 <= i < |store.trace| && store.trace[i].Post?;
    assert store.trace[i].posted == messages[0];
  }

  /** The customer writes, an escalation opens and another reply is added, each just behind the look for it. */
  const RACE := Conversation(t => t >= 2, t => t >= 3, t => t >= 4, _ => false, _ => false)

  /** The whole run succeeds and posts its answer when a newer message, an escalation and a reply are all there. */
  method AnswerBehindAllThree() returns (store: Store, ok: bool)
    ensures fresh(store) && ok && !store.event
    ensures store.messages == [Posted(Answer, REPLY.content)] && IsAnswer(store.trace, 4)
    ensures forall look: Look :: There(RACE, look)(4)
    ensures forall t :: !RACE.fails(t)
  {
    hide Ran, ClosedRun;
    store := new Store();
    ghost var n, provisional;
    var end;
    ok, end, n, provisional := RunGeneration(store, AtOnce(Ok(REPLY)), [], 5, RACE, false);
    RanAtOnce(Ok(REPLY), n, end, store.requests);
    PostsReply(RACE, ok, provisional, store);
  }

  /** A newer message is there all along, and just the look for it fails. */
  const BLIND := Conversation(_ => true, _ => false, _ => false, _ => false, t => t == 1)

  /** The whole run succeeds and answers although the newer message was there from the start. */
  method AnswerThoughLookFailed() returns (store: Store, ok: bool)
    ensures fresh(store) && ok && store.messages == [Posted(Answer, REPLY.content)]
    ensures IsAnswer(store.trace, 4) && forall t :: BLIND.newer(t)
  {
    hide Ran, ClosedRun;
    store := new Store();
    ghost var n, provisional;
    var end;
    ok, end, n, provisional := RunGeneration(store, AtOnce(Ok(REPLY)), [], 5, BLIND, false);
    RanAtOnce(Ok(REPLY), n, end, store.requests);
    PostsReply(BLIND, ok, provisional, store);
  }

  const DOWN := Err(Provider(CallFailed(Unavailable, "openai", "m")))

  /** An agent has taken over before the run starts. */
  const TAKEN_OVER := Conversation(_ => false, _ => true, _ => false, _ => false, _ => false)

  /** The recheck sees the escalation, and the run apologises all the same. */
  method ApologyBehindEscalation() returns (store: Store, ok: bool)
    ensures fresh(store) && ok && store.messages == [Posted(Apology, APOLOGY)]
    ensures |store.trace| > 2 && store.trace[2] == SawEscalated(true)
  {
    hide Ran, Records, Quiet;
    store := new Store();
    ghost var n, provisional;
    var end;
    ok, end, n, provisional := RunGeneration(store, AtOnce(DOWN), [], 5, TAKEN_OVER, false);
    RanAtOnce(DOWN, n, end, store.requests);
    assert store.trace[1..4][1] == store.trace[2];
  }

  const BROKE := Err(Provider(Internal))
  const CALM := Conversation(_ => false, _ => false, _ => false, _ => false, _ => false)

  /** A tool has run, the next round breaks internally: the row waits for an approval nobody is asked for. */
  method RowForgotten() returns (store: Store, ok: bool)
    ensures fresh(store) && ok && store.messages == []
    ensures store.requests == [RowOf(StreamTask.LOOKUP, Succeeded, 0)] && store.generation == Some(AwaitingToolApproval)
  {
    hide Ran, Quiet;
    store := new Store();
    ghost var n, provisional;
    var end;
    ok, end, n, provisional := RunGeneration(store, OneCallEnv(BROKE, (_, _) => false), [], 5, CALM, false);
    OneCallRan(BROKE, (_, _) => false, 5, n, end, store.requests);
  }
}
