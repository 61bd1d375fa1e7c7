/** The owner's ticket router: every lookup is `findOne({ ticketId, userId:
    caller })`, so a caller reaches only their own tickets. Each handler is a
    method on the collection, specified by a function giving its response;
    the collection afterwards is `Committed(old collection, response)`. */
module TicketRoutes {
  import opened Http
  import opened Text
  import opened TicketSchema
  import opened TicketStore
  import opened Listing

  const TicketNotFound: string := "Ticket not found"
  const RequiredFields: string := "Subject, description, and category are required"
  const ContentRequired: string := "Message content is required"

  /** `Math.floor(Math.random() * 10000)`. */
  type Draw = n: nat | n < 10000

  /** `generateTicketId`: "TKT-", the creation time, "-", the random draw. */
  function GenerateTicketId(now: Time, draw: Draw): (id: string)
    ensures |id| >= 7 && id[..4] == "TKT-"
    ensures forall i :: 4 <= i < |id| ==> IsDigit(id[i]) || id[i] == '-'
  {
    "TKT-" + NatToString(now) + "-" + NatToString(draw)
  }

  predicate AllDigits(s: string) {
    |s| >= 1 && forall i :: 0 <= i < |s| ==> IsDigit(s[i])
  }

  /** Reads the time and the draw back out of a generated id. */
  function ParseTicketId(id: string): Option<(nat, nat)> {
    if |id| >= 4 && id[..4] == "TKT-" then
      var parts := Split(id[4..], '-');
      if |parts| == 2 && AllDigits(parts[0]) && AllDigits(parts[1]) then
        Some((ParseDigits(parts[0]), ParseDigits(parts[1])))
      else None
    else None
  }

  lemma TicketIdRoundTrip(now: Time, draw: Draw)
    ensures ParseTicketId(GenerateTicketId(now, draw)) == Some((now, draw as nat))
  {
    var a, b := NatToString(now), NatToString(draw);
    var id := GenerateTicketId(now, draw);
    assert id[..4] == "TKT-";
    assert id[4..] == a + ['-'] + b;
    assert '-' !in a && '-' !in b by {
      assert forall i :: 0 <= i < |a| ==> IsDigit(a[i]);
      assert forall i :: 0 <= i < |b| ==> IsDigit(b[i]);
    }
    SplitAfterPiece(a, '-', b);
    SplitNoSeparator(b, '-');
    ParseNatToString(now);
    ParseNatToString(draw);
  }

  /** Two ids are equal only when they were generated from the same time and draw. */
  lemma TicketIdInjective(now1: Time, draw1: Draw, now2: Time, draw2: Draw)
    requires GenerateTicketId(now1, draw1) == GenerateTicketId(now2, draw2)
    ensures now1 == now2 && draw1 == draw2
  {
    TicketIdRoundTrip(now1, draw1);
    TicketIdRoundTrip(now2, draw2);
  }

  /** The draw is written with one to four digits and is not zero-padded. */
  lemma TicketIdDrawDigits(draw: Draw)
    ensures 1 <= |NatToString(draw)| <= 4
    ensures NatToString(draw)[0] == '0' ==> draw == 0
  {
    NatToStringLength(draw, 4);
  }

  // ---------------------------------------------------------------- create

  datatype CreateRequest = CreateRequest(
    subject: Option<string>,
    description: Option<string>,
    category: Option<string>,
    priority: Option<string>)

  /** The answer to `POST /` (create). `idNow` is the clock reading taken by
      `generateTicketId` and `now` the one the schema's `createdAt` and
      `updatedAt` defaults take; they are two separate reads. */
  function CreateOutcome(db: map<string, Ticket>, actor: Actor, req: CreateRequest, idNow: Time, draw: Draw, now: Time): (r: Result<Ticket>)
    ensures !Truthy(req.subject) || !Truthy(req.description) || !Truthy(req.category) ==>
      r == Err(BadRequest(RequiredFields))
    ensures r.Err? ==> r.error == BadRequest(RequiredFields) || r.error == ServerError(ServerErrorText)
    ensures r.Ok? <==>
      && Truthy(req.subject) && Truthy(req.description) && Truthy(req.category)
      && (Truthy(req.priority) ==> ParsePriority(req.priority.value).Some?)
      && Trim(req.subject.value) != "" && Trim(req.category.value) != "" && actor.id != ""
      && GenerateTicketId(idNow, draw) !in db
    ensures r.Ok? ==>
      && r.code == 201
      && WellFormed(r.value)
      && r.value.ticketId == GenerateTicketId(idNow, draw)
      && r.value.userId == actor.id
      && r.value.subject == Trim(req.subject.value)
      && r.value.description == req.description.value
      && r.value.category == Trim(req.category.value)
      && r.value.priority == (if Truthy(req.priority) then ParsePriority(req.priority.value).value else Medium)
      && r.value.status == Open
      && r.value.assignedTo.None? && r.value.messages == [] && r.value.resolutionDetails == NoResolution
      && r.value.createdAt == now && r.value.updatedAt == now
  {
    if !(Truthy(req.subject) && Truthy(req.description) && Truthy(req.category)) then
      Err(BadRequest(RequiredFields))
    else
      match ParsePriority(OrElse(req.priority, "medium"))
      case None => Err(ServerError(ServerErrorText))
      case Some(p) =>
        var t := NewTicket(GenerateTicketId(idNow, draw), actor.id, req.subject.value,
                           req.description.value, req.category.value, p, now);
        if WellFormed(t) && t.ticketId !in db then Ok(201, t) else Err(ServerError(ServerErrorText))
  }

  method Create(store: Collection, actor: Actor, req: CreateRequest, idNow: Time, draw: Draw, now: Time) returns (r: Result<Ticket>)
    requires store.Valid()
    modifies store
    ensures store.Valid()
    ensures r == CreateOutcome(old(store.tickets), actor, req, idNow, draw, now)
    ensures store.tickets == Committed(old(store.tickets), r)
  {
    if !Truthy(req.subject) || !Truthy(req.description) || !Truthy(req.category) {
      return Err(BadRequest(RequiredFields));
    }
    var priority := ParsePriority(OrElse(req.priority, "medium"));
    if priority.None? {
      return Err(ServerError(ServerErrorText));
    }
    var t := NewTicket(GenerateTicketId(idNow, draw), actor.id, req.subject.value,
                       req.description.value, req.category.value, priority.value, now);
    var ok := store.Insert(t);
    r := if ok then Ok(201, t) else Err(ServerError(ServerErrorText));
  }

  // ---------------------------------------------------------------- read

  /** `GET /`: the caller's tickets, newest first. */
  method List(store: Collection, actor: Actor) returns (r: seq<Ticket>)
    ensures SortedDesc(r, CreatedAt)
    ensures ListsExactly(r, Matching(store.tickets, Some(actor.id)))
  {
    r := store.Find(Some(actor.id));
  }

  /** `GET /:id`. */
  method Get(store: Collection, actor: Actor, id: string) returns (r: Result<Ticket>)
    ensures Owns(store.tickets, actor.id, id) ==> r == Ok(200, store.tickets[id])
    ensures !Owns(store.tickets, actor.id, id) ==> r == Err(NotFound(TicketNotFound))
  {
    var found := store.FindOne(id, Some(actor.id));
    r := if found.Some? then Ok(200, found.value) else Err(NotFound(TicketNotFound));
  }

  // ---------------------------------------------------------------- update

  datatype UpdateRequest = UpdateRequest(
    subject: Option<string>,
    description: Option<string>,
    category: Option<string>,
    priority: Option<string>,
    status: Option<string>,
    assignedTo: Option<string>)

  /** The fields as the handler assigns them: `x || ticket.x`, where only a
      caller whose role is not "user" has `status` and `assignedTo` changed.
      `None` when an enum field received a string outside its list. */
  function AssignFields(t: Ticket, role: string, req: UpdateRequest): (r: Option<Ticket>)
    ensures r.Some? <==>
      && (Truthy(req.priority) ==> ParsePriority(req.priority.value).Some?)
      && (role != "user" && Truthy(req.status) ==> ParseStatus(req.status.value).Some?)
    ensures r.Some? ==>
      var u := r.value;
      && u.subject == Trim(if Truthy(req.subject) then req.subject.value else t.subject)
      && u.description == (if Truthy(req.description) then req.description.value else t.description)
      && u.category == Trim(if Truthy(req.category) then req.category.value else t.category)
      && u.priority == (if Truthy(req.priority) then ParsePriority(req.priority.value).value else t.priority)
      && (role == "user" ==> u.status == t.status && u.assignedTo == t.assignedTo)
      && (role != "user" ==>
            && u.status == (if Truthy(req.status) then ParseStatus(req.status.value).value else t.status)
            && u.assignedTo == (if Truthy(req.assignedTo) then Some(req.assignedTo.value) else t.assignedTo))
      && u.(subject := t.subject, description := t.description, category := t.category,
            priority := t.priority, status := t.status, assignedTo := t.assignedTo) == t
  {
    assert ParsePriority(PriorityName(t.priority)) == Some(t.priority);
    assert ParseStatus(StatusName(t.status)) == Some(t.status);
    var priority := ParsePriority(OrElse(req.priority, PriorityName(t.priority)));
    var status := if role == "user" then Some(t.status) else ParseStatus(OrElse(req.status, StatusName(t.status)));
    if priority.None? || status.None? then None
    else
      Some(t.(subject := Trim(OrElse(req.subject, t.subject)),
              description := OrElse(req.description, t.description),
              category := Trim(OrElse(req.category, t.category)),
              priority := priority.value,
              status := status.value,
              assignedTo := if role == "user" then t.assignedTo
                            else if Truthy(req.assignedTo) then Some(req.assignedTo.value)
                            else t.assignedTo))
  }

  /** The answer to `PUT /:id`. */
  function UpdateOutcome(db: map<string, Ticket>, actor: Actor, id: string, req: UpdateRequest): (r: Result<Ticket>)
    requires ValidDb(db)
    ensures !Owns(db, actor.id, id) ==> r == Err(NotFound(TicketNotFound))
    ensures Owns(db, actor.id, id) && r.Err? ==> r.error == ServerError(ServerErrorText)
    ensures Owns(db, actor.id, id) ==> (r.Ok? <==>
      && (Truthy(req.priority) ==> ParsePriority(req.priority.value).Some?)
      && (actor.role != "user" && Truthy(req.status) ==> ParseStatus(req.status.value).Some?)
      && (Truthy(req.subject) ==> Trim(req.subject.value) != "")
      && (Truthy(req.category) ==> Trim(req.category.value) != ""))
    ensures r.Ok? ==>
      var was, t := db[id], r.value;
      && r.code == 200 && id in db && t.ticketId == id && WellFormed(t)
      && t.subject == (if Truthy(req.subject) then Trim(req.subject.value) else was.subject)
      && t.description == (if Truthy(req.description) then req.description.value else was.description)
      && t.category == (if Truthy(req.category) then Trim(req.category.value) else was.category)
      && t.priority == (if Truthy(req.priority) then ParsePriority(req.priority.value).value else was.priority)
      && (actor.role == "user" ==> t.status == was.status && t.assignedTo == was.assignedTo)
      && (actor.role != "user" ==>
            && t.status == (if Truthy(req.status) then ParseStatus(req.status.value).value else was.status)
            && t.assignedTo == (if Truthy(req.assignedTo) then Some(req.assignedTo.value) else was.assignedTo))
      && t.(subject := was.subject, description := was.description, category := was.category,
            priority := was.priority, status := was.status, assignedTo := was.assignedTo) == was
  {
    if !Owns(db, actor.id, id) then Err(NotFound(TicketNotFound))
    else
      var was := db[id];
      match AssignFields(was, actor.role, req)
      case None => Err(ServerError(ServerErrorText))
      case Some(t) => if WellFormed(t) then Ok(200, t) else Err(ServerError(ServerErrorText))
  }

  method Update(store: Collection, actor: Actor, id: string, req: UpdateRequest) returns (r: Result<Ticket>)
    requires store.Valid()
    modifies store
    ensures store.Valid()
    ensures r == UpdateOutcome(old(store.tickets), actor, id, req)
    ensures store.tickets == Committed(old(store.tickets), r)
  {
    var found := store.FindOne(id, Some(actor.id));
    if found.None? {
      return Err(NotFound(TicketNotFound));
    }
    var changed := AssignFields(found.value, actor.role, req);
    if changed.None? {
      return Err(ServerError(ServerErrorText));
    }
    var ok := store.Save(changed.value);
    r := if ok then Ok(200, changed.value) else Err(ServerError(ServerErrorText));
  }

  // ---------------------------------------------------------------- message

  /** `senderType` of a message the caller adds. */
  function SenderTypeOf(actor: Actor): (s: SenderType)
    ensures s == AdminSender <==> actor.role == "admin"
    ensures s == UserSender <==> actor.role != "admin"
  {
    if actor.role == "admin" then AdminSender else UserSender
  }

  /** The answer to `POST /:id/message`. */
  function AddMessageOutcome(db: map<string, Ticket>, actor: Actor, id: string, content: Option<string>, now: Time): (r: Result<Ticket>)
    requires ValidDb(db)
    ensures !Owns(db, actor.id, id) ==> r == Err(NotFound(TicketNotFound))
    ensures Owns(db, actor.id, id) && !Truthy(content) ==> r == Err(BadRequest(ContentRequired))
    ensures Owns(db, actor.id, id) && Truthy(content) ==> r.Ok?
    ensures r.Ok? ==>
      var was, t := db[id], r.value;
      && r.code == 201 && id in db && t.ticketId == id && Truthy(content)
      && |t.messages| == |was.messages| + 1
      && t.messages[..|was.messages|] == was.messages
      && t.messages[|was.messages|] == NewTicketMessage(actor.id, SenderTypeOf(actor), content.value, now)
      && (t.messages[|was.messages|].senderType == AdminSender <==> actor.role == "admin")
      && (t.status == Open <==> was.status == Open || (was.status == Resolved && actor.role != "admin"))
      && (t.status != was.status ==> was.status == Resolved && t.status == Open)
      && t.(messages := was.messages, status := was.status) == was
  {
    if !Owns(db, actor.id, id) then Err(NotFound(TicketNotFound))
    else if !Truthy(content) then Err(BadRequest(ContentRequired))
    else
      var was := db[id];
      var t := was.(messages := was.messages + [NewTicketMessage(actor.id, SenderTypeOf(actor), content.value, now)]);
      var t := if t.status == Resolved && actor.role != "admin" then t.(status := Open) else t;
      assert t.messages[..|was.messages|] == was.messages;
      if WellFormed(t) then Ok(201, t) else Err(ServerError(ServerErrorText))
  }

  method AddMessage(store: Collection, actor: Actor, id: string, content: Option<string>, now: Time) returns (r: Result<Ticket>)
    requires store.Valid()
    modifies store
    ensures store.Valid()
    ensures r == AddMessageOutcome(old(store.tickets), actor, id, content, now)
    ensures store.tickets == Committed(old(store.tickets), r)
  {
    var found := store.FindOne(id, Some(actor.id));
    if found.None? {
      return Err(NotFound(TicketNotFound));
    }
    if !Truthy(content) {
      return Err(BadRequest(ContentRequired));
    }
    var t := found.value;
    t := t.(messages := t.messages + [NewTicketMessage(actor.id, SenderTypeOf(actor), content.value, now)]);
    if t.status == Resolved && actor.role != "admin" {
      t := t.(status := Open);
    }
    var ok := store.Save(t);
    r := if ok then Ok(201, t) else Err(ServerError(ServerErrorText));
  }

  // ---------------------------------------------------------------- close

  /** The answer to `PUT /:id/close`. */
  function CloseOutcome(db: map<string, Ticket>, actor: Actor, id: string): (r: Result<Ticket>)
    requires ValidDb(db)
    ensures !Owns(db, actor.id, id) ==> r == Err(NotFound(TicketNotFound))
    ensures Owns(db, actor.id, id) ==> r.Ok? && r.code == 200
    ensures r.Ok? ==> id in db && r.value.status == Closed && r.value.(status := db[id].status) == db[id]
  {
    if !Owns(db, actor.id, id) then Err(NotFound(TicketNotFound))
    else Ok(200, db[id].(status := Closed))
  }

  /** Closing an already closed ticket answers the same and changes nothing. */
  lemma CloseIdempotent(db: map<string, Ticket>, actor: Actor, id: string)
    requires ValidDb(db)
    ensures ValidDb(Committed(db, CloseOutcome(db, actor, id)))
    ensures var db' := Committed(db, CloseOutcome(db, actor, id));
      && CloseOutcome(db', actor, id) == CloseOutcome(db, actor, id)
      && Committed(db', CloseOutcome(db', actor, id)) == db'
  {
  }

  method Close(store: Collection, actor: Actor, id: string) returns (r: Result<Ticket>)
    requires store.Valid()
    modifies store
    ensures store.Valid()
    ensures r == CloseOutcome(old(store.tickets), actor, id)
    ensures store.tickets == Committed(old(store.tickets), r)
  {
    var found := store.FindOne(id, Some(actor.id));
    if found.None? {
      return Err(NotFound(TicketNotFound));
    }
    var t := found.value.(status := Closed);
    var ok := store.Save(t);
    r := if ok then Ok(200, t) else Err(ServerError(ServerErrorText));
  }

  /** No owner route changes `updatedAt`: they save with `save()`, which the
      `findOneAndUpdate` hook does not see. */
  lemma OwnerRoutesKeepUpdatedAt(db: map<string, Ticket>, actor: Actor, id: string,
                                 req: UpdateRequest, content: Option<string>, now: Time)
    requires ValidDb(db) && id in db
    ensures Committed(db, UpdateOutcome(db, actor, id, req))[id].updatedAt == db[id].updatedAt
    ensures Committed(db, AddMessageOutcome(db, actor, id, content, now))[id].updatedAt == db[id].updatedAt
    ensures Committed(db, CloseOutcome(db, actor, id))[id].updatedAt == db[id].updatedAt
  {
  }
}
