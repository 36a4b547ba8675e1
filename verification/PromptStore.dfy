/**
 * The versioned prompt of one tenant: saves and restores as transactions that interleave statement by
 * statement, under the row lock, or, before the first version exists, under the unique key alone.
 */
module PromptStore {
  import opened Text

  datatype Version = Version(content: string, restoredFrom: Option<int>)

  /** What a transaction wants to save; a restore has read its content from an earlier version. */
  datatype Save = Save(base: int, content: string, restoredFrom: Option<int>)

  datatype Outcome =
    | Created(version: int)
    | NoOp(version: int)
    | Conflict(activeVersion: int)
    | NotFound
    | Invalid
    | DbError

  /** A transaction between two of its statements. */
  datatype Tx =
    | Began(save: Save)
    | FoundNoPrompt(save: Save)
    | Holding(save: Save, isNew: bool)
    | Wrote(save: Save, isNew: bool)
    | Ended(outcome: Outcome)

  datatype Request = PutPrompt(base: int, content: string) | RestoreVersion(number: int, base: int)

  /**
   * What is committed (`active == 0` means that there is no prompt row), who holds the row or the
   * unique key, the transactions, and what each of them was asked to do.
   */
  datatype Db = Db(active: int, versions: map<int, Version>, lock: Option<nat>, txs: seq<Tx>, requests: seq<Request>)

  const EMPTY := Db(0, map[], None, [], [])

  /** A new request, or the next statement of a running one, which the database may make fail. */
  datatype Event = Arrives(request: Request, valid: bool) | Runs(tx: nat, ok: bool)

  // ------------------------------------------------------------------ the statements

  /** Reading and validating what is to be saved, before the transaction begins. */
  function Start(db: Db, request: Request, valid: bool): Tx {
    match request
    case PutPrompt(base, content) => if valid then Began(Save(base, content, None)) else Ended(Invalid)
    case RestoreVersion(number, base) =>
      if number !in db.versions then Ended(NotFound)
      else if !valid then Ended(Invalid)
      else Began(Save(base, db.versions[number].content, Some(number)))
  }

  function End(db: Db, t: nat, outcome: Outcome): Db
    requires t < |db.txs|
  {
    db.(txs := db.txs[t := Ended(outcome)], lock := if db.lock == Some(t) then None else db.lock)
  }

  function Hold(db: Db, t: nat, save: Save, isNew: bool): Db
    requires t < |db.txs|
  {
    db.(txs := db.txs[t := Holding(save, isNew)], lock := Some(t))
  }

  /** The next statement of a transaction; one that has to wait for a lock changes nothing. */
  function Next(db: Db, t: nat, ok: bool): Db
    requires t < |db.txs|
  {
    match db.txs[t]
    case Began(save) =>
      if db.active != 0 && db.lock.Some? then db
      else if !ok then End(db, t, DbError)
      else if db.active == 0 then
        if save.base != 0 then End(db, t, Conflict(0)) else db.(txs := db.txs[t := FoundNoPrompt(save)])
      else if save.base != db.active then End(db, t, Conflict(db.active))
      else Hold(db, t, save, false)
    case FoundNoPrompt(save) =>
      if db.active == 0 && db.lock.Some? then db
      else if !ok || db.active != 0 then End(db, t, DbError)
      else Hold(db, t, save, true)
    case Holding(save, isNew) =>
      if !ok then End(db, t, DbError)
      else if !isNew && db.active in db.versions &&
        db.versions[db.active].content == save.content then End(db, t, NoOp(db.active))
      else if save.base + 1 in db.versions then End(db, t, Conflict(if isNew then 1 else db.active))
      else db.(txs := db.txs[t := Wrote(save, isNew)])
    case Wrote(save, _) =>
      if !ok then End(db, t, DbError)
      else
        End(db.(active := save.base + 1,
                versions := db.versions[save.base + 1 := Version(save.content, save.restoredFrom)]),
            t, Created(save.base + 1))
    case Ended(_) => db
  }

  function Apply(db: Db, event: Event): Db {
    match event
    case Arrives(request, valid) =>
      db.(txs := db.txs + [Start(db, request, valid)], requests := db.requests + [request])
    case Runs(t, ok) => if t < |db.txs| then Next(db, t, ok) else db
  }

  function RunAll(db: Db, events: seq<Event>): Db {
    if events == [] then db else Apply(RunAll(db, events[..|events| - 1]), events[|events| - 1])
  }

  /** The tables and the server's transactions. */
  class Store {
    var active: int
    var versions: map<int, Version>
    var lock: Option<nat>
    var txs: seq<Tx>
    ghost var requests: seq<Request>

    ghost function Now(): Db
      reads this
    {
      Db(active, versions, lock, txs, requests)
    }

    constructor ()
      ensures Now() == EMPTY
    {
      active, versions, lock, txs, requests := 0, map[], None, [], [];
    }

    method Finish(t: nat, outcome: Outcome)
      requires t < |txs|
      modifies this
      ensures Now() == End(old(Now()), t, outcome)
    {
      txs := txs[t := Ended(outcome)];
      if lock == Some(t) { lock := None; }
    }

    /** A request arrives. */
    method Arrive(request: Request, valid: bool)
      modifies this
      ensures Now() == Apply(old(Now()), Arrives(request, valid))
    {
      var tx;
      match request {
        case PutPrompt(base, content) =>
          tx := if valid then Began(Save(base, content, None)) else Ended(Invalid);
        case RestoreVersion(number, base) =>
          if number !in versions {
            tx := Ended(NotFound);
          } else if !valid {
            tx := Ended(Invalid);
          } else {
            tx := Began(Save(base, versions[number].content, Some(number)));
          }
      }
      txs, requests := txs + [tx], requests + [request];
    }

    /** `SELECT … FOR UPDATE` and the check of the base version. */
    method LoadForUpdate(t: nat, ok: bool)
      requires t < |txs| && txs[t].Began?
      modifies this
      ensures Now() == Next(old(Now()), t, ok)
    {
      var save := txs[t].save;
      if active != 0 && lock.Some? { return; }
      if !ok {
        Finish(t, DbError);
      } else if active == 0 {
        if save.base != 0 { Finish(t, Conflict(0)); } else { txs := txs[t := FoundNoPrompt(save)]; }
      } else if save.base != active {
        Finish(t, Conflict(active));
      } else {
        txs, lock := txs[t := Holding(save, false)], Some(t);
      }
    }

    /** Inserting the prompt row; a row that exists by now violates the unique key. */
    method InsertPrompt(t: nat, ok: bool)
      requires t < |txs| && txs[t].FoundNoPrompt?
      modifies this
      ensures Now() == Next(old(Now()), t, ok)
    {
      var save := txs[t].save;
      if active == 0 && lock.Some? { return; }
      if !ok || active != 0 {
        Finish(t, DbError);
      } else {
        txs, lock := txs[t := Holding(save, true)], Some(t);
      }
    }

    /** The comparison with the active content, then the insertion of the new version. */
    method InsertVersion(t: nat, ok: bool)
      requires t < |txs| && txs[t].Holding?
      modifies this
      ensures Now() == Next(old(Now()), t, ok)
    {
      var save, isNew := txs[t].save, txs[t].isNew;
      if !ok {
        Finish(t, DbError);
      } else if !isNew && active in versions && versions[active].content == save.content {
        Finish(t, NoOp(active));
      } else if save.base + 1 in versions {
        Finish(t, Conflict(if isNew then 1 else active));
      } else {
        txs := txs[t := Wrote(save, isNew)];
      }
    }

    /** The audit entry and the commit, which makes the writes visible. */
    method Commit(t: nat, ok: bool)
      requires t < |txs| && txs[t].Wrote?
      modifies this
      ensures Now() == Next(old(Now()), t, ok)
    {
      var save := txs[t].save;
      if !ok {
        Finish(t, DbError);
      } else {
        active := save.base + 1;
        versions := versions[save.base + 1 := Version(save.content, save.restoredFrom)];
        Finish(t, Created(save.base + 1));
      }
    }

    /** The next statement of one transaction. */
    method Step(event: Event)
      modifies this
      ensures Now() == Apply(old(Now()), event)
    {
      match event {
        case Arrives(request, valid) => Arrive(request, valid);
        case Runs(t, ok) =>
          if t < |txs| {
            match txs[t] {
              case Began(_) => LoadForUpdate(t, ok);
              case FoundNoPrompt(_) => InsertPrompt(t, ok);
              case Holding(_, _) => InsertVersion(t, ok);
              case Wrote(_, _) => Commit(t, ok);
              case Ended(_) =>
            }
          }
      }
    }
  }

  // ------------------------------------------------------------------ what every interleaving keeps

  /** What a request wants to save: the content it brings, or the content of the version it names. */
  predicate Asked(db: Db, request: Request, content: string) {
    match request
    case PutPrompt(_, wanted) => content == wanted
    case RestoreVersion(number, _) => number in db.versions && db.versions[number].content == content
  }

  predicate Saves(db: Db, request: Request, save: Save) {
    save.base == request.base && Asked(db, request, save.content)
  }

  /** A finished request that reported success had its content stored under the version it reported. */
  predicate Reports(db: Db, request: Request, outcome: Outcome) {
    match outcome
    case Created(v) => v == request.base + 1 && v in db.versions && Asked(db, request, db.versions[v].content)
    case NoOp(v) => v == request.base && v in db.versions && Asked(db, request, db.versions[v].content)
    case Conflict(v) => 0 <= v <= db.active && v != request.base
    case _ => true
  }

  /** A transaction's view agrees with its request, and with what is committed while it holds the lock. */
  predicate TxIs(db: Db, t: nat, request: Request, tx: Tx) {
    match tx
    case Began(save) => Saves(db, request, save)
    case FoundNoPrompt(save) => Saves(db, request, save) && save.base == 0
    case Holding(save, isNew) =>
      Saves(db, request, save) && db.lock == Some(t) && save.base == db.active && isNew == (db.active == 0)
    case Wrote(save, isNew) =>
      && Saves(db, request, save) && db.lock == Some(t) && save.base == db.active && isNew == (db.active == 0)
      && save.base + 1 !in db.versions
      && (!isNew ==> db.active in db.versions && db.versions[db.active].content != save.content)
    case Ended(outcome) => db.lock != Some(t) && Reports(db, request, outcome)
  }

  predicate Creates(db: Db, t: nat, v: int) {
    t < |db.txs| && db.txs[t] == Ended(Created(v))
  }

  /** The versions stored are exactly 1 to the active one, each created by exactly one transaction. */
  ghost predicate Inv(db: Db) {
    && db.active >= 0 && |db.requests| == |db.txs|
    && (forall v :: v in db.versions <==> 1 <= v <= db.active)
    && (forall v <- db.versions :: exists t :: Creates(db, t, v))
    && (forall t, u, v :: Creates(db, t, v) && Creates(db, u, v) ==> t == u)
    && (db.lock.Some? ==> db.lock.value < |db.txs| && (db.txs[db.lock.value].Holding? || db.txs[db.lock.value].Wrote?))
    && (forall t :: 0 <= t < |db.txs| ==> TxIs(db, t, db.requests[t], db.txs[t]))
  }

  /** What one event may do to the committed versions: nothing, or add the next one. */
  predicate Grows(db: Db, db': Db) {
    || (db'.active == db.active && db'.versions == db.versions)
    || (db'.active == db.active + 1
        && db.active + 1 !in db.versions && db.active + 1 in db'.versions
        && db'.versions - {db.active + 1} == db.versions)
  }

  lemma GrowsKeeps(db: Db, db': Db, v: int)
    requires Grows(db, db') && v in db.versions
    ensures v in db'.versions && db'.versions[v] == db.versions[v]
  {
    if db'.versions != db.versions {
      assert v in db'.versions - {db.active + 1};
    }
  }

  /** Nothing about who created what changes when a transaction that had not ended moves to `tx`. */
  lemma SameCreators(db: Db, db': Db, t: nat)
    requires t < |db.txs| == |db'.txs| && !db.txs[t].Ended? && db'.txs == db.txs[t := db'.txs[t]]
    requires db'.txs[t].Ended? ==> !db'.txs[t].outcome.Created?
    ensures forall u, v :: Creates(db', u, v) <==> Creates(db, u, v)
  {
  }

  lemma SavesSame(db: Db, db': Db, request: Request)
    requires db'.versions == db.versions && db'.active == db.active
    ensures forall save :: Saves(db', request, save) == Saves(db, request, save)
    ensures forall outcome :: Reports(db', request, outcome) == Reports(db, request, outcome)
  {
  }

  /** A transaction moves on, with or without the lock, and the committed state stays as it is. */
  lemma MoveKeeps(db: Db, t: nat, tx: Tx, lock: Option<nat>)
    requires Inv(db) && t < |db.txs| && !db.txs[t].Ended?
    requires var db' := db.(txs := db.txs[t := tx], lock := lock); TxIs(db', t, db.requests[t], tx)
    requires tx.Ended? ==> !tx.outcome.Created?
    requires if lock == Some(t) then db.lock.None? || db.lock == Some(t)
             else lock == (if db.lock == Some(t) then None else db.lock)
    requires lock == Some(t) <==> tx.Holding? || tx.Wrote?
    ensures var db' := db.(txs := db.txs[t := tx], lock := lock); Inv(db') && Grows(db, db')
  {
    var db' := db.(txs := db.txs[t := tx], lock := lock);
    SameCreators(db, db', t);
    hide Creates, Saves, Reports;
    forall u | 0 <= u < |db'.txs|
      ensures TxIs(db', u, db'.requests[u], db'.txs[u])
    {
      assert TxIs(db, u, db.requests[u], db.txs[u]);
      SavesSame(db, db', db.requests[u]);
    }
  }

  lemma SavesGrow(db: Db, db': Db, request: Request)
    requires Grows(db, db')
    ensures forall save :: Saves(db, request, save) ==> Saves(db', request, save)
    ensures forall outcome :: Reports(db, request, outcome) ==> Reports(db', request, outcome)
  {
    if request.RestoreVersion? && request.number in db.versions { GrowsKeeps(db, db', request.number); }
    forall outcome | Reports(db, request, outcome)
      ensures Reports(db', request, outcome)
    {
      if outcome.Created? || outcome.NoOp? { GrowsKeeps(db, db', outcome.version); }
    }
  }

  lemma ArriveKeeps(db: Db, request: Request, valid: bool)
    requires Inv(db)
    ensures var db' := Apply(db, Arrives(request, valid)); Inv(db') && Grows(db, db')
  {
    var db' := Apply(db, Arrives(request, valid));
    forall u | 0 <= u < |db'.txs|
      ensures TxIs(db', u, db'.requests[u], db'.txs[u])
    {
      if u < |db.txs| {
        assert TxIs(db, u, db.requests[u], db.txs[u]);
        SavesSame(db, db', db.requests[u]);
      }
    }
    assert forall t, v :: Creates(db', t, v) <==> Creates(db, t, v);
  }

  lemma NewCreator(db: Db, db': Db, t: nat, v: int)
    requires t < |db.txs| == |db'.txs| && !db.txs[t].Ended? && db'.txs == db.txs[t := Ended(Created(v))]
    ensures forall u, w :: Creates(db', u, w) <==> Creates(db, u, w) || (u == t && w == v)
  {
  }

  lemma CommitGrows(db: Db, t: nat)
    requires Inv(db) && t < |db.txs| && db.txs[t].Wrote?
    ensures var db' := Next(db, t, true);
            && Grows(db, db') && db'.active == db.active + 1 && db'.lock == None && db'.requests == db.requests
            && db'.txs == db.txs[t := Ended(Created(db.active + 1))] && db.lock == Some(t)
            && forall v :: v in db'.versions <==> 1 <= v <= db'.active
  {
    hide Creates, Saves, Reports;
    assert TxIs(db, t, db.requests[t], db.txs[t]);
    assert Next(db, t, true).versions - {db.active + 1} == db.versions;
  }

  lemma CommitTxs(db: Db, t: nat, u: nat)
    requires Inv(db) && t < |db.txs| && db.txs[t].Wrote? && u < |db.txs|
    ensures var db' := Next(db, t, true); TxIs(db', u, db'.requests[u], db'.txs[u])
  {
    CommitGrows(db, t);
    CommitReports(db, t);
    hide Creates, Saves, Reports, Next, Grows;
    assert TxIs(db, u, db.requests[u], db.txs[u]);
    SavesGrow(db, Next(db, t, true), db.requests[u]);
  }

  lemma CommitCreators(db: Db, t: nat)
    requires Inv(db) && t < |db.txs| && db.txs[t].Wrote?
    ensures var db' := Next(db, t, true);
            && (forall v <- db'.versions :: exists u :: Creates(db', u, v))
            && (forall u, w, v :: Creates(db', u, v) && Creates(db', w, v) ==> u == w)
  {
    CommitGrows(db, t);
    CreatorsUpTo(db);
    hide Next, Grows, TxIs;
    var db' := Next(db, t, true);
    NewCreator(db, db', t, db.active + 1);
    hide Creates;
    forall v <- db'.versions
      ensures exists u :: Creates(db', u, v)
    {
      if v == db.active + 1 {
        assert Creates(db', t, v);
      } else {
        var u :| Creates(db, u, v);
        assert Creates(db', u, v);
      }
    }
  }

  lemma CommitKeeps(db: Db, t: nat)
    requires Inv(db) && t < |db.txs| && db.txs[t].Wrote?
    ensures Inv(Next(db, t, true)) && Grows(db, Next(db, t, true))
  {
    hide Next, Grows, TxIs, Creates;
    CommitGrows(db, t);
    CommitCreators(db, t);
    var db' := Next(db, t, true);
    forall u | 0 <= u < |db'.txs|
      ensures TxIs(db', u, db'.requests[u], db'.txs[u])
    {
      CommitTxs(db, t, u);
    }
  }

  lemma CreatorsUpTo(db: Db)
    requires Inv(db)
    ensures forall t: nat, v :: Creates(db, t, v) ==> 1 <= v <= db.active
  {
    forall t: nat, v | Creates(db, t, v)
      ensures 1 <= v <= db.active
    {
      assert TxIs(db, t, db.requests[t], db.txs[t]);
    }
  }

  lemma CommitReports(db: Db, t: nat)
    requires Inv(db) && t < |db.txs| && db.txs[t].Wrote?
    ensures Reports(Next(db, t, true), db.requests[t], Created(db.active + 1))
  {
    CommitGrows(db, t);
    hide Grows, Creates;
    assert TxIs(db, t, db.requests[t], db.txs[t]);
    SavesGrow(db, Next(db, t, true), db.requests[t]);
  }

  lemma {:induction false} NextKeeps(db: Db, t: nat, ok: bool)
    requires Inv(db) && t < |db.txs|
    ensures Inv(Next(db, t, ok)) && Grows(db, Next(db, t, ok))
  {
    var db' := Next(db, t, ok);
    if db.txs[t].Wrote? && ok {
      CommitKeeps(db, t);
    } else if !db.txs[t].Ended? && db' != db {
      MoveIs(db, t, ok);
      hide Inv, Next, TxIs;
      MoveKeeps(db, t, db'.txs[t], db'.lock);
    } else {
      hide Inv, TxIs;
    }
  }

  lemma MoveIs(db: Db, t: nat, ok: bool)
    requires Inv(db) && t < |db.txs| && !db.txs[t].Ended? && !(db.txs[t].Wrote? && ok) && Next(db, t, ok) != db
    ensures var db' := Next(db, t, ok);
            var (tx, lock) := (db'.txs[t], db'.lock);
            && db' == db.(txs := db.txs[t := tx], lock := lock) && TxIs(db', t, db.requests[t], tx)
            && (tx.Ended? ==> !tx.outcome.Created?)
            && (if lock == Some(t) then db.lock.None? || db.lock == Some(t)
                else lock == if db.lock == Some(t) then None else db.lock)
            && (lock == Some(t) <==> tx.Holding? || tx.Wrote?)
  {
    hide Creates;
    assert TxIs(db, t, db.requests[t], db.txs[t]);
  }

  /** Every statement of every transaction keeps the numbering, and only ever adds the next version. */
  lemma ApplyKeeps(db: Db, event: Event)
    requires Inv(db)
    ensures Inv(Apply(db, event)) && Grows(db, Apply(db, event))
  {
    hide Inv, Next;
    match event {
      case Arrives(request, valid) => ArriveKeeps(db, request, valid);
      case Runs(t, ok) => if t < |db.txs| { NextKeeps(db, t, ok); }
    }
  }

  /** Over all interleavings of saves and restores, the stored versions are exactly 1 to the active one. */
  lemma {:induction false} RunKeeps(events: seq<Event>)
    ensures Inv(RunAll(EMPTY, events))
  {
    if events != [] {
      hide Apply, Inv;
      RunKeeps(events[..|events| - 1]);
      ApplyKeeps(RunAll(EMPTY, events[..|events| - 1]), events[|events| - 1]);
    }
  }

  /** A stored version never changes and never goes away. */
  lemma {:induction false} VersionsNeverChange(events: seq<Event>, n: nat, v: int)
    requires n <= |events| && v in RunAll(EMPTY, events[..n]).versions
    ensures v in RunAll(EMPTY, events).versions
    ensures RunAll(EMPTY, events).versions[v] == RunAll(EMPTY, events[..n]).versions[v]
    decreases |events| - n
  {
    if n < |events| {
      hide Apply, Inv, RunAll;
      RunKeeps(events[..n]);
      var db := RunAll(EMPTY, events[..n]);
      ApplyKeeps(db, events[n]);
      RunStep(events, n);
      GrowsKeeps(db, Apply(db, events[n]), v);
      VersionsNeverChange(events, n + 1, v);
    } else {
      assert events[..n] == events;
    }
  }

  lemma RunStep(events: seq<Event>, n: nat)
    requires n < |events|
    ensures RunAll(EMPTY, events[..n + 1]) == Apply(RunAll(EMPTY, events[..n]), events[n])
  {
    assert events[..n + 1][..n] == events[..n];
  }

  /** Of all requests with the same base at most one creates a version, and it creates the next one. */
  lemma OneCreationPerBase(events: seq<Event>, t: nat, u: nat, v: int, w: int)
    requires Creates(RunAll(EMPTY, events), t, v) && Creates(RunAll(EMPTY, events), u, w)
    ensures var requests := RunAll(EMPTY, events).requests;
            && t < |requests| && u < |requests| && v == requests[t].base + 1
            && (requests[t].base == requests[u].base <==> t == u)
  {
    hide RunAll;
    RunKeeps(events);
    var db := RunAll(EMPTY, events);
    assert TxIs(db, t, db.requests[t], db.txs[t]) && TxIs(db, u, db.requests[u], db.txs[u]);
    if v == w { assert Creates(db, u, v); }
  }

  /** Every stored version was created by a request that asked for just its content. */
  lemma VersionsAreRequested(events: seq<Event>, v: int) returns (t: nat)
    requires v in RunAll(EMPTY, events).versions
    ensures var db := RunAll(EMPTY, events);
            && Creates(db, t, v) && t < |db.requests| && db.requests[t].base == v - 1
            && Asked(db, db.requests[t], db.versions[v].content)
  {
    hide RunAll;
    RunKeeps(events);
    var db := RunAll(EMPTY, events);
    t :| Creates(db, t, v);
    assert TxIs(db, t, db.requests[t], db.txs[t]);
  }

  /** When a restore succeeds, with or without a new version, the active content is the content of its source. */
  lemma RestoreTakesEffect(events: seq<Event>, t: nat, ok: bool)
    requires var db := RunAll(EMPTY, events);
             t < |db.txs| == |db.requests| && !db.txs[t].Ended? && db.requests[t].RestoreVersion?
    ensures var db, db' := RunAll(EMPTY, events), Next(RunAll(EMPTY, events), t, ok);
            var number := db.requests[t].number;
            db'.txs[t].Ended? && (db'.txs[t].outcome.Created? || db'.txs[t].outcome.NoOp?) ==>
              && number in db'.versions && db'.active in db'.versions
              && db'.versions[db'.active].content == db'.versions[number].content
              && db'.active == db'.txs[t].outcome.version
  {
    hide RunAll, Inv;
    RunKeeps(events);
    RestoreEnds(RunAll(EMPTY, events), t, ok);
  }

  lemma RestoreEnds(db: Db, t: nat, ok: bool)
    requires Inv(db) && t < |db.txs| && !db.txs[t].Ended? && db.requests[t].RestoreVersion?
    ensures var (db', number) := (Next(db, t, ok), db.requests[t].number);
            db'.txs[t].Ended? && (db'.txs[t].outcome.Created? || db'.txs[t].outcome.NoOp?) ==>
              && number in db'.versions && db'.active in db'.versions
              && db'.versions[db'.active].content == db'.versions[number].content
              && db'.active == db'.txs[t].outcome.version
  {
    var db' := Next(db, t, ok);
    NextKeeps(db, t, ok);
    EndsAtActive(db, t, ok);
    RequestStays(db, t, ok);
    hide Next, Creates, Saves;
    assert TxIs(db', t, db'.requests[t], db'.txs[t]);
  }

  lemma RequestStays(db: Db, t: nat, ok: bool)
    requires t < |db.txs|
    ensures Next(db, t, ok).requests == db.requests && |Next(db, t, ok).txs| == |db.txs|
  {
  }

  lemma EndsAtActive(db: Db, t: nat, ok: bool)
    requires t < |db.txs| && !db.txs[t].Ended?
    ensures var db' := Next(db, t, ok);
            db'.txs[t].Ended? && (db'.txs[t].outcome.Created? || db'.txs[t].outcome.NoOp?) ==>
              db'.active == db'.txs[t].outcome.version
  {
  }

  /** Under the lock the unique key on versions is never violated: a save that gets there is never refused for it. */
  lemma LockedSaveHasNoConflict(events: seq<Event>, t: nat, ok: bool)
    requires var db := RunAll(EMPTY, events); t < |db.txs| && db.txs[t].Holding?
    ensures var db' := Next(RunAll(EMPTY, events), t, ok);
            db'.txs[t].Wrote? || (db'.txs[t].Ended? && !db'.txs[t].outcome.Conflict?)
  {
    hide RunAll;
    RunKeeps(events);
    var db := RunAll(EMPTY, events);
    assert TxIs(db, t, db.requests[t], db.txs[t]);
  }

  // ------------------------------------------------------------------ what becomes of a request

  /** Where a transaction stands as to whether its request was taken up at all. */
  datatype Fate = Missing | Refused | TakenUp

  function FateOf(tx: Tx): Fate {
    if tx == Ended(NotFound) then Missing else if tx == Ended(Invalid) then Refused else TakenUp
  }

  lemma FateIsKept(db: Db, event: Event, t: nat)
    requires t < |db.txs|
    ensures t < |Apply(db, event).txs| && FateOf(Apply(db, event).txs[t]) == FateOf(db.txs[t])
  {
  }

  lemma {:induction false} FateOfArrival(events: seq<Event>, n: nat, m: nat)
    requires n < m <= |events| && events[n].Arrives?
    ensures var t := |RunAll(EMPTY, events[..n]).txs|;
            && t < |RunAll(EMPTY, events[..m]).txs|
            && FateOf(RunAll(EMPTY, events[..m]).txs[t])
               == FateOf(Start(RunAll(EMPTY, events[..n]), events[n].request, events[n].valid))
    decreases m
  {
    hide RunAll, FateOf, Start;
    RunStep(events, m - 1);
    if n < m - 1 {
      FateOfArrival(events, n, m - 1);
      FateIsKept(RunAll(EMPTY, events[..m - 1]), events[m - 1], |RunAll(EMPTY, events[..n]).txs|);
    }
  }

  /**
   * Over all schedules: a restore is not found exactly when its number was not stored when it arrived, and
   * any request is invalid exactly when what it would save was there and not valid.
   */
  lemma {:induction false} TurnedAwayIff(events: seq<Event>, n: nat)
    requires n < |events| && events[n].Arrives?
    ensures var (db, db') := (RunAll(EMPTY, events[..n]), RunAll(EMPTY, events));
            var (t, request) := (|db.txs|, events[n].request);
            var missing := request.RestoreVersion? && request.number !in db.versions;
            && t < |db'.txs|
            && (db'.txs[t] == Ended(NotFound) <==> missing)
            && (db'.txs[t] == Ended(Invalid) <==> !missing && !events[n].valid)
  {
    hide RunAll;
    FateOfArrival(events, n, |events|);
    assert events[..|events|] == events;
  }

  /** A valid request arrives, and its transaction runs to its end with nothing in between. */
  function Alone(request: Request, t: nat): seq<Event> {
    [Arrives(request, true), Runs(t, true), Runs(t, true), Runs(t, true), Runs(t, true)]
  }

  /** What a request wants to be saved, in this state. */
  function Wanted(db: Db, request: Request): string
    requires request.RestoreVersion? ==> request.number in db.versions
  {
    match request
    case PutPrompt(_, content) => content
    case RestoreVersion(number, _) => db.versions[number].content
  }

  lemma {:induction false} RunAloneIs(events: seq<Event>, request: Request)
    ensures var db := RunAll(EMPTY, events);
            var t := |db.txs|;
            RunAll(EMPTY, events + Alone(request, t))
            == Apply(Apply(Apply(Apply(Apply(db, Arrives(request, true)), Runs(t, true)), Runs(t, true)),
                           Runs(t, true)),
                     Runs(t, true))
  {
    hide RunAll, Apply;
    var t := |RunAll(EMPTY, events).txs|;
    var n, all := |events|, events + Alone(request, t);
    RunStep(all, n);
    RunStep(all, n + 1);
    RunStep(all, n + 2);
    RunStep(all, n + 3);
    RunStep(all, n + 4);
    assert all[..n] == events && all[..n + 5] == all;
  }

  /** The end of a request that runs alone, when no transaction holds the lock. */
  predicate EndsWell(db: Db, db': Db, t: nat, request: Request)
    requires request.RestoreVersion? ==> request.number in db.versions
  {
    && t < |db'.txs|
    && if request.base != db.active then
         db'.txs[t] == Ended(Conflict(db.active)) && db'.versions == db.versions && db'.active == db.active
       else if db.active in db.versions && db.versions[db.active].content == Wanted(db, request) then
         db'.txs[t] == Ended(NoOp(db.active)) && db'.versions == db.versions && db'.active == db.active
       else
         var source := if request.RestoreVersion? then Some(request.number) else None;
         && db'.txs[t] == Ended(Created(db.active + 1)) && db'.active == db.active + 1
         && db'.versions == db.versions[db.active + 1 := Version(Wanted(db, request), source)]
  }

  lemma AloneEndsWell(db: Db, request: Request)
    requires Inv(db) && db.lock.None? && (request.RestoreVersion? ==> request.number in db.versions)
    ensures var t := |db.txs|;
            EndsWell(db, Apply(Apply(Apply(Apply(Apply(db, Arrives(request, true)), Runs(t, true)), Runs(t, true)),
                                     Runs(t, true)), Runs(t, true)), t, request)
  {
    hide Creates, TxIs;
    var t := |db.txs|;
    var save := Save(request.base, Wanted(db, request), if request.RestoreVersion? then Some(request.number) else None);
    var d1 := Apply(db, Arrives(request, true));
    assert d1.txs[t] == Began(save);
    var d2 := Apply(d1, Runs(t, true));
    if request.base == db.active {
      if db.active == 0 {
        assert d2.txs[t] == FoundNoPrompt(save);
        var d3 := Apply(d2, Runs(t, true));
        assert d3.txs[t] == Holding(save, true);
        var d4 := Apply(d3, Runs(t, true));
        assert d4.txs[t] == Wrote(save, true);
      } else {
        assert d2.txs[t] == Holding(save, false);
      }
    }
  }

  /**
   * A valid request that runs alone ends in a conflict if its base is not the active version; else, if the
   * active version has its content already, in no change; else it creates the next version, with just that
   * content and, for a restore, the number it came from.
   */
  lemma RequestEndsWell(events: seq<Event>, request: Request)
    requires RunAll(EMPTY, events).lock.None?
    requires request.RestoreVersion? ==> request.number in RunAll(EMPTY, events).versions
    ensures var db := RunAll(EMPTY, events);
            EndsWell(db, RunAll(EMPTY, events + Alone(request, |db.txs|)), |db.txs|, request)
  {
    hide RunAll, Apply, EndsWell, Inv;
    RunKeeps(events);
    RunAloneIs(events, request);
    AloneEndsWell(RunAll(EMPTY, events), request);
  }

  // ------------------------------------------------------------------ the race for the first version

  /** At some moment the transaction had read, and had found no prompt. */
  ghost predicate ReadBeforeTheFirst(events: seq<Event>, t: nat) {
    exists n :: 0 <= n <= |events| && SawNoPrompt(RunAll(EMPTY, events[..n]), t)
  }

  predicate SawNoPrompt(db: Db, t: nat) {
    t < |db.txs| && db.txs[t].FoundNoPrompt?
  }

  /** The database fails no statement of the transaction. */
  predicate Untroubled(events: seq<Event>, t: nat) {
    forall k :: 0 <= k < |events| && events[k].Runs? && events[k].tx == t ==> events[k].ok
  }

  /** Where a save on base 0 can stand, depending on whether it found no prompt. */
  predicate FirstSaveIs(db: Db, tx: Tx, early: bool) {
    match tx
    case Began(_) => !early
    case FoundNoPrompt(_) => early
    case Holding(_, isNew) => early && isNew
    case Wrote(_, isNew) => early && isNew
    case Ended(outcome) =>
      match outcome
      case Created(v) => early && v == 1
      case DbError => early && db.active != 0
      case Conflict(v) => !early && v != 0
      case NoOp(_) => false
      case _ => !early
  }

  lemma FirstSaveStep(db: Db, t: nat, early: bool)
    requires Inv(db) && t < |db.txs| && db.requests[t].base == 0 && FirstSaveIs(db, db.txs[t], early)
    ensures var db' := Next(db, t, true);
            FirstSaveIs(db', db'.txs[t], early || db'.txs[t].FoundNoPrompt?)
  {
    assert TxIs(db, t, db.requests[t], db.txs[t]);
  }

  lemma FirstSaveOther(db: Db, db': Db, tx: Tx, early: bool)
    requires FirstSaveIs(db, tx, early) && Grows(db, db') && db.active >= 0
    ensures FirstSaveIs(db', tx, early)
  {
  }

  lemma {:induction false} EarlyStep(events: seq<Event>, t: nat)
    requires events != []
    ensures ReadBeforeTheFirst(events, t)
       <==> ReadBeforeTheFirst(events[..|events| - 1], t) || SawNoPrompt(RunAll(EMPTY, events), t)
  {
    hide RunAll, SawNoPrompt;
    var front := events[..|events| - 1];
    assert events[..|events|] == events;
    assert forall n :: 0 <= n <= |front| ==> front[..n] == events[..n];
  }

  lemma ApplyToOthers(db: Db, event: Event, t: nat)
    requires Inv(db)
    ensures var db' := Apply(db, event);
            if t < |db.txs| then
              && |db.requests| == |db.txs| && t < |db'.txs| == |db'.requests| && db'.requests[t] == db.requests[t]
              && (event.Arrives? || event.tx != t ==> db'.txs[t] == db.txs[t])
            else
              t < |db'.txs| ==>
                event.Arrives? && db'.requests[t] == event.request &&
                  db'.txs[t] == Start(db, event.request, event.valid)
  {
  }

  lemma NoneIsLost(db: Db, event: Event)
    ensures |Apply(db, event).txs| >= |db.txs|
  {
  }

  lemma {:induction false} TxsGrow(events: seq<Event>, n: nat)
    requires n <= |events|
    ensures |RunAll(EMPTY, events[..n]).txs| <= |RunAll(EMPTY, events).txs|
    decreases |events| - n
  {
    hide RunAll, Apply;
    if n < |events| {
      RunStep(events, n);
      NoneIsLost(RunAll(EMPTY, events[..n]), events[n]);
      TxsGrow(events, n + 1);
    } else {
      assert events[..n] == events;
    }
  }

  lemma NotThereYet(events: seq<Event>, t: nat)
    requires |RunAll(EMPTY, events).txs| <= t
    ensures !ReadBeforeTheFirst(events, t)
  {
    hide RunAll;
    forall n | 0 <= n <= |events|
      ensures !SawNoPrompt(RunAll(EMPTY, events[..n]), t)
    {
      TxsGrow(events, n);
    }
  }

  lemma ActiveIsNat(db: Db)
    requires Inv(db)
    ensures db.active >= 0 && |db.requests| == |db.txs|
  {
  }

  lemma StartsLate(db: Db, db': Db, request: Request, valid: bool)
    ensures FirstSaveIs(db', Start(db, request, valid), false) && !Start(db, request, valid).FoundNoPrompt?
  {
  }

  lemma {:induction false} FirstSaveFate(events: seq<Event>, t: nat)
    requires var db := RunAll(EMPTY, events); t < |db.txs| == |db.requests| && db.requests[t].base == 0
    requires Untroubled(events, t)
    ensures FirstSaveIs(RunAll(EMPTY, events), RunAll(EMPTY, events).txs[t], ReadBeforeTheFirst(events, t))
    decreases |events|
  {
    if events == [] { return; }
    hide Inv, Next, FirstSaveIs, Start, ReadBeforeTheFirst, Grows;
    var n := |events| - 1;
    var front := events[..n];
    var db, db' := RunAll(EMPTY, front), RunAll(EMPTY, events);
    RunKeeps(front);
    ApplyKeeps(db, events[n]);
    EarlyStep(events, t);
    ActiveIsNat(db);
    ApplyToOthers(db, events[n], t);
    var early := ReadBeforeTheFirst(front, t);
    if t < |db.txs| {
      assert Untroubled(front, t);
      FirstSaveFate(front, t);
      EarlyIsEarly(db, t, early);
      if events[n].Runs? && events[n].tx == t {
        FirstSaveStep(db, t, early);
      } else {
        FirstSaveOther(db, db', db.txs[t], early);
      }
    } else {
      NotThereYet(front, t);
      StartsLate(db, db', events[n].request, events[n].valid);
    }
  }

  lemma {:induction false} EarlyIsEarly(db: Db, t: nat, early: bool)
    requires t < |db.txs| && FirstSaveIs(db, db.txs[t], early)
    ensures db.txs[t].FoundNoPrompt? ==> early
  {
  }

  /**
   * Of the saves that race for the first version one creates it. Every other one that was valid, and
   * had no trouble with the database, ends with a conflict if it read behind the winner's commit, and
   * with a database error if and only if it had read before: the code then violates the unique key.
   */
  lemma {:induction false} LoserOfTheRace(events: seq<Event>, t: nat, winner: nat)
    requires Creates(RunAll(EMPTY, events), winner, 1) && t != winner && Untroubled(events, t)
    requires var db := RunAll(EMPTY, events);
             t < |db.txs| == |db.requests| && db.requests[t].base == 0 && db.txs[t].Ended?
    ensures var outcome := RunAll(EMPTY, events).txs[t].outcome;
            && (outcome.NotFound? || outcome.Invalid? || outcome.Conflict? || outcome.DbError?)
            && (outcome.DbError? <==> ReadBeforeTheFirst(events, t))
  {
    hide RunAll, ReadBeforeTheFirst;
    FirstSaveFate(events, t);
    RunKeeps(events);
    var db := RunAll(EMPTY, events);
    assert TxIs(db, winner, db.requests[winner], db.txs[winner]);
    assert !Creates(db, t, 1);
  }

  const FIRST := PutPrompt(0, "a")
  const SECOND := PutPrompt(0, "b")

  /** Two first saves: the second reads before the first commits, or behind it. */
  function Race(early: bool): seq<Event> {
    [Arrives(FIRST, true), Arrives(SECOND, true), Runs(0, true), Runs(if early then 1 else 0, true),
     Runs(0, true), Runs(0, true), Runs(if early then 0 else 1, true), Runs(1, true)]
  }

  function Both(active: int, versions: map<int, Version>, lock: Option<nat>, first: Tx, second: Tx): Db {
    Db(active, versions, lock, [first, second], [FIRST, SECOND])
  }

  const SAVE_A := Save(0, "a", None)
  const SAVE_B := Save(0, "b", None)
  const STORED: map<int, Version> := map[1 := Version("a", None)]

  lemma {:induction false} RaceBegins(early: bool)
    ensures RunAll(EMPTY, Race(early)[..3]) == Both(0, map[], None, FoundNoPrompt(SAVE_A), Began(SAVE_B))
  {
    var e := Race(early);
    assert e[..0] == [];
    RunStep(e, 0);
    RunStep(e, 1);
    RunStep(e, 2);
    assert RunAll(EMPTY, e[..1]) == Db(0, map[], None, [Began(SAVE_A)], [FIRST]);
    assert RunAll(EMPTY, e[..2]) == Both(0, map[], None, Began(SAVE_A), Began(SAVE_B));
  }

  lemma {:induction false} EarlyLoses()
    ensures RunAll(EMPTY, Race(true)).txs == [Ended(Created(1)), Ended(DbError)]
  {
    hide RunAll, Race;
    var e := Race(true);
    RaceBegins(true);
    RaceIs(true);
    RunStep(e, 3);
    RunStep(e, 4);
    RunStep(e, 5);
    RunStep(e, 6);
    RunStep(e, 7);
    assert e[..8] == e;
    assert RunAll(EMPTY, e[..4]) == Both(0, map[], None, FoundNoPrompt(SAVE_A), FoundNoPrompt(SAVE_B));
    assert RunAll(EMPTY, e[..5]) == Both(0, map[], Some(0), Holding(SAVE_A, true), FoundNoPrompt(SAVE_B));
    assert RunAll(EMPTY, e[..6]) == Both(0, map[], Some(0), Wrote(SAVE_A, true), FoundNoPrompt(SAVE_B));
    assert RunAll(EMPTY, e[..7]) == Both(1, STORED, None, Ended(Created(1)), FoundNoPrompt(SAVE_B));
  }

  lemma {:induction false} RaceIs(early: bool)
    ensures var e := Race(early);
            && |e| == 8 && e[3] == Runs(if early then 1 else 0, true) && e[4] == Runs(0, true) && e[5] == Runs(0, true)
            && e[6] == Runs(if early then 0 else 1, true) && e[7] == Runs(1, true)
  {
  }

  lemma {:induction false} LateLoses()
    ensures RunAll(EMPTY, Race(false)).txs == [Ended(Created(1)), Ended(Conflict(1))]
  {
    hide RunAll, Race;
    var l := Race(false);
    RaceBegins(false);
    RaceIs(false);
    RunStep(l, 3);
    RunStep(l, 4);
    RunStep(l, 5);
    RunStep(l, 6);
    RunStep(l, 7);
    assert l[..8] == l;
    assert RunAll(EMPTY, l[..4]) == Both(0, map[], Some(0), Holding(SAVE_A, true), Began(SAVE_B));
    assert RunAll(EMPTY, l[..5]) == Both(0, map[], Some(0), Wrote(SAVE_A, true), Began(SAVE_B));
    assert RunAll(EMPTY, l[..6]) == Both(1, STORED, None, Ended(Created(1)), Began(SAVE_B));
    assert RunAll(EMPTY, l[..7]) == Both(1, STORED, None, Ended(Created(1)), Ended(Conflict(1)));
  }

  /** Both ends of the race are reached: an early reader gets a database error, a late one a conflict. */
  lemma {:induction false} BothLosersExist()
    ensures RunAll(EMPTY, Race(true)).txs == [Ended(Created(1)), Ended(DbError)]
    ensures RunAll(EMPTY, Race(false)).txs == [Ended(Created(1)), Ended(Conflict(1))]
  {
    hide RunAll, Race;
    EarlyLoses();
    LateLoses();
  }
}
