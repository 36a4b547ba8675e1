/**
 * The outbox that many workers drain: claiming the oldest event, coalescing older events of the same
 * conversation, and deleting what is done. Each method is one SQL statement; any schedule may run them.
 */
module Outbox {
  import opened Text

  datatype Kind = CustomerMessage | ToolDecision | Unrelated

  datatype Event = Event(kind: Kind, conversation: string, createdAt: int)

  datatype Row = Row(event: Event, claimedBy: Option<nat>)

  /** Everything that ever happened to the outbox; the table itself forgets. */
  datatype Book = Book(arrived: map<nat, Event>, claims: seq<(nat, nat)>, coalesced: map<nat, nat>)

  predicate Claimed(book: Book, id: nat) {
    exists i :: 0 <= i < |book.claims| && book.claims[i].1 == id
  }

  predicate ClaimedBy(book: Book, worker: nat, id: nat) {
    exists i :: 0 <= i < |book.claims| && book.claims[i] == (worker, id)
  }

  predicate ClaimedOnce(book: Book) {
    forall i, j :: 0 <= i < j < |book.claims| ==> book.claims[i].1 != book.claims[j].1
  }

  /** A coalesced event gave way to a claimed message of the same conversation that came strictly later. */
  predicate GaveWay(book: Book, id: nat, keeper: nat) {
    && id in book.arrived && keeper in book.arrived && Claimed(book, keeper) && !Claimed(book, id)
    && book.arrived[id].kind.CustomerMessage? && book.arrived[keeper].kind.CustomerMessage?
    && book.arrived[id].conversation == book.arrived[keeper].conversation
    && book.arrived[id].createdAt < book.arrived[keeper].createdAt
  }

  predicate RowIs(book: Book, id: nat, row: Row) {
    && id in book.arrived && row.event == book.arrived[id] && id !in book.coalesced
    && match row.claimedBy case None => !Claimed(book, id) case Some(worker) => ClaimedBy(book, worker, id)
  }

  /** The table and the workers agree with the book. */
  ghost predicate Inv(rows: map<nat, Row>, held: map<nat, nat>, book: Book) {
    && ClaimedOnce(book)
    && (forall id <- rows :: RowIs(book, id, rows[id]))
    && (forall id <- book.coalesced :: GaveWay(book, id, book.coalesced[id]))
    && (forall id <- book.arrived :: id in rows || Claimed(book, id) || id in book.coalesced)
    && (forall i :: 0 <= i < |book.claims| ==> book.claims[i].1 in book.arrived)
    && (forall worker <- held :: held[worker] in rows && rows[held[worker]].claimedBy == Some(worker))
  }

  // ------------------------------------------------------------------ the statements keep the book

  lemma RowIsSame(book: Book, book': Book, id: nat, row: Row)
    requires RowIs(book, id, row) && book'.claims == book.claims
    requires id in book'.arrived && book'.arrived[id] == book.arrived[id] && id !in book'.coalesced
    ensures RowIs(book', id, row)
  {
    hide ClaimedOnce;
    SameClaims(book, book');
  }

  lemma GaveWaySame(book: Book, book': Book, id: nat, keeper: nat)
    requires GaveWay(book, id, keeper) && book'.claims == book.claims
    requires forall j <- book.arrived :: j in book'.arrived && book'.arrived[j] == book.arrived[j]
    ensures GaveWay(book', id, keeper)
  {
    hide ClaimedOnce;
    SameClaims(book, book');
  }

  lemma Known(rows: map<nat, Row>, held: map<nat, nat>, book: Book, id: nat)
    requires Inv(rows, held, book)
    ensures id in rows || Claimed(book, id) || id in book.coalesced <==> id in book.arrived
  {
    hide ClaimedBy, ClaimedOnce;
    assert id in rows ==> RowIs(book, id, rows[id]);
    assert id in book.coalesced ==> GaveWay(book, id, book.coalesced[id]);
  }

  lemma NewRow(book: Book, id: nat, event: Event)
    requires id in book.arrived && book.arrived[id] == event && id !in book.coalesced && !Claimed(book, id)
    ensures RowIs(book, id, Row(event, None))
  {
    hide Claimed;
  }

  lemma ArriveKeeps(rows: map<nat, Row>, held: map<nat, nat>, book: Book, id: nat, event: Event)
    requires Inv(rows, held, book) && id !in book.arrived
    ensures Inv(rows[id := Row(event, None)], held, book.(arrived := book.arrived[id := event]))
  {
    hide Claimed, ClaimedBy, ClaimedOnce, RowIs, GaveWay;
    Known(rows, held, book, id);
    var book' := book.(arrived := book.arrived[id := event]);
    SameClaims(book, book');
    NewRow(book', id, event);
    forall j <- book'.coalesced
      ensures GaveWay(book', j, book'.coalesced[j])
    {
      GaveWaySame(book, book', j, book.coalesced[j]);
    }
    forall j <- rows
      ensures RowIs(book', j, rows[j])
    {
      Known(rows, held, book, j);
      NotCoalesced(rows, held, book, j);
      RowIsSame(book, book', j, rows[j]);
    }
  }

  lemma NotCoalesced(rows: map<nat, Row>, held: map<nat, nat>, book: Book, id: nat)
    requires Inv(rows, held, book) && id in rows
    ensures RowIs(book, id, rows[id]) && id !in book.coalesced
  {
    hide Claimed, ClaimedBy, ClaimedOnce, GaveWay;
  }

  lemma MoreClaims(book: Book, worker: nat, id: nat)
    ensures var book' := book.(claims := book.claims + [(worker, id)]);
            && (forall j: nat :: Claimed(book', j) <==> Claimed(book, j) || j == id)
            && (forall w: nat, j: nat :: ClaimedBy(book', w, j) <==> ClaimedBy(book, w, j) || (w, j) == (worker, id))
  {
    var book' := book.(claims := book.claims + [(worker, id)]);
    assert book'.claims[|book.claims|] == (worker, id);
    forall j: nat | Claimed(book, j)
      ensures Claimed(book', j)
    {
      var i :| 0 <= i < |book.claims| && book.claims[i].1 == j;
      assert book'.claims[i].1 == j;
    }
    forall w: nat, j: nat | ClaimedBy(book, w, j)
      ensures ClaimedBy(book', w, j)
    {
      var i :| 0 <= i < |book.claims| && book.claims[i] == (w, j);
      assert book'.claims[i] == (w, j);
    }
  }

  lemma ClaimKeeps(rows: map<nat, Row>, held: map<nat, nat>, book: Book, worker: nat, id: nat)
    requires Inv(rows, held, book) && id in rows && rows[id].claimedBy.None? && worker !in held
    ensures Inv(rows[id := rows[id].(claimedBy := Some(worker))], held[worker := id],
                book.(claims := book.claims + [(worker, id)]))
  {
    hide Claimed, ClaimedBy;
    var book' := book.(claims := book.claims + [(worker, id)]);
    MoreClaims(book, worker, id);
    assert ClaimedOnce(book') by { ClaimedOnceMore(book, worker, id); }
    assert forall w <- held :: held[w] != id;
  }

  lemma ClaimedOnceMore(book: Book, worker: nat, id: nat)
    requires ClaimedOnce(book) && !Claimed(book, id)
    ensures ClaimedOnce(book.(claims := book.claims + [(worker, id)]))
  {
  }

  /** The events a worker that holds `keeper` may coalesce. */
  function Older(rows: map<nat, Row>, keeper: nat): set<nat>
    requires keeper in rows
  {
    var k := rows[keeper].event;
    set id <- rows |
      && rows[id].event.kind.CustomerMessage? && rows[id].claimedBy.None? && id != keeper
      && rows[id].event.conversation == k.conversation && rows[id].event.createdAt < k.createdAt
  }

  function GiveWay(book: Book, older: set<nat>, keeper: nat): Book {
    book.(coalesced := book.coalesced + map id <- older :: keeper)
  }

  lemma CoalesceKeeps(rows: map<nat, Row>, held: map<nat, nat>, book: Book, worker: nat)
    requires Inv(rows, held, book) && worker in held && rows[held[worker]].event.kind.CustomerMessage?
    ensures Inv(rows - Older(rows, held[worker]), held, GiveWay(book, Older(rows, held[worker]), held[worker]))
  {
    hide Claimed, ClaimedBy, ClaimedOnce;
    var keeper := held[worker];
    var older := Older(rows, keeper);
    var book' := GiveWay(book, older, keeper);
    NotCoalesced(rows, held, book, keeper);
    HolderHasClaimed(book, worker, keeper);
    SameClaims(book, book');
    forall id <- older
      ensures GaveWay(book', id, keeper)
    {
      NotCoalesced(rows, held, book, id);
    }
    assert forall w <- held :: rows[held[w]].claimedBy.Some? && held[w] !in older;
    hide RowIs, GaveWay;
    forall id <- book'.coalesced
      ensures GaveWay(book', id, book'.coalesced[id])
    {
      if id !in older { GaveWaySame(book, book', id, book.coalesced[id]); }
    }
    forall id <- rows - older
      ensures RowIs(book', id, rows[id])
    {
      NotCoalesced(rows, held, book, id);
      Known(rows, held, book, id);
      RowIsSame(book, book', id, rows[id]);
    }
  }

  lemma SameClaims(book: Book, book': Book)
    requires book.claims == book'.claims
    ensures forall id :: Claimed(book, id) == Claimed(book', id)
    ensures forall w, id :: ClaimedBy(book, w, id) == ClaimedBy(book', w, id)
    ensures ClaimedOnce(book) == ClaimedOnce(book')
  {
  }

  lemma HolderHasClaimed(book: Book, worker: nat, id: nat)
    requires ClaimedBy(book, worker, id)
    ensures Claimed(book, id)
  {
    var i :| 0 <= i < |book.claims| && book.claims[i] == (worker, id);
    assert book.claims[i].1 == id;
  }

  /** An event has one claimer at most, over the whole history. */
  lemma ClaimedByOne(book: Book, w: nat, w': nat, id: nat)
    requires ClaimedOnce(book) && ClaimedBy(book, w, id) && ClaimedBy(book, w', id)
    ensures w == w'
  {
    var i :| 0 <= i < |book.claims| && book.claims[i] == (w, id);
    var j :| 0 <= j < |book.claims| && book.claims[j] == (w', id);
    assert i == j;
  }

  lemma FinishKeeps(rows: map<nat, Row>, held: map<nat, nat>, book: Book, worker: nat, deleted: bool)
    requires Inv(rows, held, book) && worker in held
    ensures Inv(if deleted then rows - {held[worker]} else rows, held - {worker}, book)
  {
    hide Claimed, ClaimedBy, ClaimedOnce;
    var id := held[worker];
    assert RowIs(book, id, rows[id]);
    HolderHasClaimed(book, worker, id);
    assert forall w <- held - {worker} :: held[w] != id;
  }

  // ------------------------------------------------------------------ the table

  predicate Claimable(rows: map<nat, Row>, skipped: set<nat>, id: nat) {
    id in rows && rows[id].claimedBy.None? && !rows[id].event.kind.Unrelated? && id !in skipped
  }

  predicate Oldest(rows: map<nat, Row>, ids: set<nat>, id: nat) {
    id in ids && forall j <- ids :: j in rows && id in rows && rows[id].event.createdAt <= rows[j].event.createdAt
  }

  lemma {:induction false} OldestExists(rows: map<nat, Row>, ids: set<nat>)
    requires ids != {} && forall id <- ids :: id in rows
    ensures exists id :: Oldest(rows, ids, id)
  {
    var x :| x in ids;
    var rest := ids - {x};
    if rest == {} {
      forall j <- ids
        ensures j == x
      {
        assert j !in rest;
      }
      assert Oldest(rows, ids, x);
    } else {
      OldestExists(rows, rest);
      var y :| Oldest(rows, rest, y);
      var best := if rows[x].event.createdAt < rows[y].event.createdAt then x else y;
      assert forall j <- ids :: j == x || j in rest;
      assert Oldest(rows, ids, best);
    }
  }

  datatype Step =
    | Arrive(event: Event)
    | Claim(worker: nat, skipped: set<nat>)
    | Coalesce(worker: nat, fails: bool)
    | Finish(worker: nat, deleted: bool)

  class Table {
    var rows: map<nat, Row>
    var held: map<nat, nat>
    var nextId: nat
    ghost var book: Book

    ghost predicate Valid()
      reads this
    {
      Inv(rows, held, book) && forall id <- book.arrived :: id < nextId
    }

    constructor ()
      ensures Valid() && rows == map[] && held == map[] && book == Book(map[], [], map[])
    {
      rows, held, nextId, book := map[], map[], 0, Book(map[], [], map[]);
    }

    /** A new event under an id never used before. */
    method Insert(event: Event) returns (id: nat)
      requires Valid()
      modifies this
      ensures Valid() && id !in old(book.arrived)
      ensures rows == old(rows)[id := Row(event, None)] && held == old(held)
      ensures book == old(book).(arrived := old(book.arrived)[id := event])
    {
      hide Inv;
      id := nextId;
      ArriveKeeps(rows, held, book, id, event);
      rows, nextId := rows[id := Row(event, None)], nextId + 1;
      book := book.(arrived := book.arrived[id := event]);
    }

    /** An idle worker claims the oldest unclaimed event that no other transaction has locked. */
    method ClaimOldest(worker: nat, skipped: set<nat>) returns (claimed: Option<nat>)
      requires Valid()
      modifies this
      ensures Valid() && nextId == old(nextId)
      ensures claimed.None? ==> rows == old(rows) && held == old(held) && book == old(book)
      ensures claimed.None? ==> worker in held || forall id :: !Claimable(rows, skipped, id)
      ensures claimed.Some? ==> var id := claimed.value;
        && worker !in old(held) && Claimable(old(rows), skipped, id)
        && (forall j :: Claimable(old(rows), skipped, j) ==>
            old(rows)[id].event.createdAt <= old(rows)[j].event.createdAt)
        && !Claimed(old(book), id) && book == old(book).(claims := old(book.claims) + [(worker, id)])
        && rows == old(rows)[id := old(rows)[id].(claimedBy := Some(worker))] && held == old(held)[worker := id]
    {
      hide Inv, Claimed;
      if worker in held { return None; }
      var candidates := set id <- rows | Claimable(rows, skipped, id);
      if candidates == {} {
        assert forall id :: Claimable(rows, skipped, id) ==> id in candidates;
        return None;
      }
      OldestExists(rows, candidates);
      var id :| id in candidates && Oldest(rows, candidates, id);
      UnclaimedInBook(rows, held, book, id);
      ClaimKeeps(rows, held, book, worker, id);
      rows := rows[id := rows[id].(claimedBy := Some(worker))];
      held := held[worker := id];
      book := book.(claims := book.claims + [(worker, id)]);
      return Some(id);
    }

    /** Delete the older unclaimed messages of the conversation; the statement's own failure is ignored. */
    method CoalesceOlder(worker: nat, fails: bool)
      requires Valid()
      modifies this
      ensures Valid() && held == old(held) && nextId == old(nextId)
      ensures book.arrived == old(book.arrived) && book.claims == old(book.claims)
      ensures if fails || worker !in held || !old(rows)[held[worker]].event.kind.CustomerMessage? then
                rows == old(rows) && book == old(book)
              else
                && rows == old(rows) - Older(old(rows), held[worker])
                && book == GiveWay(old(book), Older(old(rows), held[worker]), held[worker])
    {
      HeldIsThere(rows, held, book, worker);
      hide Inv, Older, GiveWay;
      if !fails && worker in held && rows[held[worker]].event.kind.CustomerMessage? {
        CoalesceKeeps(rows, held, book, worker);
        GiveWayKeeps(book, Older(rows, held[worker]), held[worker]);
        var older := Older(rows, held[worker]);
        book := GiveWay(book, older, held[worker]);
        rows := rows - older;
      }
    }

    /** The worker is done with its event: it deletes it, or an error or a crash leaves it claimed for good. */
    method FinishEvent(worker: nat, deleted: bool)
      requires Valid()
      modifies this
      ensures Valid() && book == old(book) && nextId == old(nextId)
      ensures held == old(held) - {worker}
      ensures rows == if worker in old(held) && deleted then old(rows) - {old(held)[worker]} else old(rows)
    {
      hide Inv;
      if worker in held {
        FinishKeeps(rows, held, book, worker, deleted);
        if deleted { rows := rows - {held[worker]}; }
        held := held - {worker};
      } else {
        assert held - {worker} == held;
      }
    }

    /** Any schedule of any workers and arrivals. */
    method Run(schedule: seq<Step>)
      requires Valid()
      modifies this
      ensures Valid()
      ensures old(book.arrived).Keys <= book.arrived.Keys && old(book.claims) <= book.claims
    {
      hide Inv, Older;
      for i := 0 to |schedule|
        invariant Valid() && old(book.arrived).Keys <= book.arrived.Keys && old(book.claims) <= book.claims
      {
        match schedule[i] {
          case Arrive(event) => var _ := Insert(event);
          case Claim(worker, skipped) => var _ := ClaimOldest(worker, skipped);
          case Coalesce(worker, fails) => CoalesceOlder(worker, fails);
          case Finish(worker, deleted) => FinishEvent(worker, deleted);
        }
      }
    }
  }

  lemma GiveWayKeeps(book: Book, older: set<nat>, keeper: nat)
    ensures GiveWay(book, older, keeper).arrived == book.arrived && GiveWay(book, older, keeper).claims == book.claims
  {
  }

  lemma UnclaimedInBook(rows: map<nat, Row>, held: map<nat, nat>, book: Book, id: nat)
    requires Inv(rows, held, book) && id in rows && rows[id].claimedBy.None?
    ensures !Claimed(book, id)
  {
    assert RowIs(book, id, rows[id]);
  }

  lemma HeldIsThere(rows: map<nat, Row>, held: map<nat, nat>, book: Book, worker: nat)
    requires Inv(rows, held, book)
    ensures worker in held ==> held[worker] in rows
  {
  }

  // ------------------------------------------------------------------ what every reachable state keeps

  /** No event is claimed twice, and no two workers hold the same one. */
  lemma NeverHeldTwice(rows: map<nat, Row>, held: map<nat, nat>, book: Book, w: nat, w': nat)
    requires Inv(rows, held, book) && w in held && w' in held && w != w'
    ensures ClaimedOnce(book) && held[w] != held[w']
  {
  }

  /**
   * Each event is waiting unclaimed in the table, was claimed exactly once, or gave way to a claimed
   * message of its conversation that came strictly later: exactly one of the three.
   */
  lemma EveryEventAccounted(rows: map<nat, Row>, held: map<nat, nat>, book: Book, id: nat)
    requires Inv(rows, held, book) && id in book.arrived
    ensures var waiting := id in rows && rows[id].claimedBy.None?;
            var claimed := Claimed(book, id);
            var coalesced := id in book.coalesced;
            && (waiting || claimed || coalesced)
            && !(waiting && claimed) && !(waiting && coalesced) && !(claimed && coalesced)
            && (claimed ==> ClaimedOnce(book))
            && (coalesced ==> GaveWay(book, id, book.coalesced[id]))
            && (coalesced ==> id !in rows)
  {
    hide Claimed, ClaimedBy, ClaimedOnce;
    if id in rows {
      assert RowIs(book, id, rows[id]);
      if rows[id].claimedBy.Some? { HolderHasClaimed(book, rows[id].claimedBy.value, id); }
    }
    if id in book.coalesced { assert GaveWay(book, id, book.coalesced[id]); }
  }

  /** Coalescing takes every older unclaimed message of the conversation, and nothing else. */
  lemma NothingOlderIsLeft(rows: map<nat, Row>, keeper: nat, id: nat)
    requires keeper in rows && id in rows
    ensures id in rows - Older(rows, keeper)
       <==> || rows[id].event.kind != CustomerMessage || rows[id].claimedBy.Some? || id == keeper
            || rows[id].event.conversation != rows[keeper].event.conversation
            || rows[id].event.createdAt >= rows[keeper].event.createdAt
  {
  }

  /** What a worker may claim: a message of a customer or a tool decision that nobody claimed or has locked. */
  lemma ClaimableIff(rows: map<nat, Row>, skipped: set<nat>, id: nat)
    ensures Claimable(rows, skipped, id)
       <==> && id in rows && rows[id].claimedBy == None && id !in skipped
            && (rows[id].event.kind == CustomerMessage || rows[id].event.kind == ToolDecision)
  {
  }
}
