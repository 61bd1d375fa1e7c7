/** The tickets collection as the route handlers use it: documents keyed by
    their unique `ticketId`, looked up with `findOne`, listed with
    `find(...).sort({ createdAt: -1 })`, and written back with `save()`. */
module TicketStore {
  import opened Http
  import opened TicketSchema
  import opened Listing

  /** What the collection keeps true: each document is stored under its own
      `ticketId` (so no two documents share one) and passed validation. */
  predicate ValidDb(db: map<string, Ticket>) {
    forall k :: k in db ==> db[k].ticketId == k && WellFormed(db[k])
  }

  /** `findOne({ ticketId: id, userId: owner })` finds a document. */
  predicate Owns(db: map<string, Ticket>, owner: UserId, id: string) {
    id in db && db[id].userId == owner
  }

  /** The documents that `find({ userId: owner })` (or `find()` for `None`) matches. */
  function Matching(db: map<string, Ticket>, owner: Option<UserId>): set<Ticket> {
    set k | k in db && (owner.None? || db[k].userId == owner.value) :: db[k]
  }

  function CreatedAt(t: Ticket): int {
    t.createdAt
  }

  /** The collection after a handler that answered `r`: a successful answer
      is the document it saved, an error leaves the collection as it was. */
  function Committed(db: map<string, Ticket>, r: Result<Ticket>): (db': map<string, Ticket>)
    ensures r.Err? ==> db' == db
    ensures r.Ok? ==> r.value.ticketId in db' && db'[r.value.ticketId] == r.value
    ensures r.Ok? ==> forall k :: k in db && k != r.value.ticketId ==> k in db' && db'[k] == db[k]
  {
    if r.Ok? then db[r.value.ticketId := r.value] else db
  }

  class Collection {
    var tickets: map<string, Ticket>

    ghost predicate Valid()
      reads this
    {
      ValidDb(tickets)
    }

    constructor ()
      ensures Valid() && tickets == map[]
    {
      tickets := map[];
    }

    /** `findOne`, filtered by `ticketId` and, when given, by owner. */
    method FindOne(id: string, owner: Option<UserId>) returns (r: Option<Ticket>)
      ensures r.Some? <==> id in tickets && (owner.Some? ==> tickets[id].userId == owner.value)
      ensures r.Some? ==> r.value == tickets[id]
    {
      if id in tickets && (owner.None? || tickets[id].userId == owner.value) {
        r := Some(tickets[id]);
      } else {
        r := None;
      }
    }

    /** `find(filter).sort({ createdAt: -1 })`. */
    method Find(owner: Option<UserId>) returns (r: seq<Ticket>)
      ensures SortedDesc(r, CreatedAt)
      ensures ListsExactly(r, Matching(tickets, owner))
    {
      r := SortDesc(Matching(tickets, owner), CreatedAt);
    }

    /** `save()` of a new document: validation, then the unique index on `ticketId`. */
    method Insert(t: Ticket) returns (ok: bool)
      requires Valid()
      modifies this
      ensures Valid()
      ensures ok <==> WellFormed(t) && t.ticketId !in old(tickets)
      ensures tickets == if ok then old(tickets)[t.ticketId := t] else old(tickets)
    {
      ok := WellFormed(t) && t.ticketId !in tickets;
      if ok {
        tickets := tickets[t.ticketId := t];
      }
    }

    /** `save()` of a document that was loaded and changed in place. */
    method Save(t: Ticket) returns (ok: bool)
      requires Valid() && t.ticketId in tickets
      modifies this
      ensures Valid()
      ensures ok <==> WellFormed(t)
      ensures tickets == if ok then old(tickets)[t.ticketId := t] else old(tickets)
    {
      ok := WellFormed(t);
      if ok {
        tickets := tickets[t.ticketId := t];
      }
    }
  }
}
