/** The admin router's ticket handlers (lookups by `ticketId` alone, whoever
    owns the ticket), its FAQ update and its user update. The caller has
    already passed the admin middleware. */
module AdminRoutes {
  import opened Http
  import opened Text
  import opened TicketSchema
  import opened TicketStore
  import opened Listing
  import TicketRoutes

  const FaqNotFound: string := "FAQ not found"
  const UserNotFound: string := "User not found"

  /** `GET /tickets`: every ticket, newest first. */
  method ListTickets(store: Collection) returns (r: seq<Ticket>)
    ensures SortedDesc(r, CreatedAt)
    ensures ListsExactly(r, Matching(store.tickets, None))
    ensures forall k :: k in store.tickets ==> store.tickets[k] in r
  {
    r := store.Find(None);
    ListsExactlyMembers(r, Matching(store.tickets, None));
    assert forall k :: k in store.tickets ==> store.tickets[k] in Matching(store.tickets, None);
  }

  // ---------------------------------------------------------------- assign

  /** The answer to `PUT /tickets/:id/assign`: `assignedTo` becomes `agentId`
      (unset when the body has none) and the status becomes in-progress,
      whatever it was before. */
  function AssignOutcome(db: map<string, Ticket>, id: string, agentId: Option<UserId>): (r: Result<Ticket>)
    requires ValidDb(db)
    ensures id !in db ==> r == Err(NotFound(TicketRoutes.TicketNotFound))
    ensures id in db ==> r.Ok? && r.code == 200
    ensures r.Ok? ==>
      && id in db && r.value.assignedTo == agentId && r.value.status == InProgress
      && r.value.(assignedTo := db[id].assignedTo, status := db[id].status) == db[id]
  {
    if id !in db then Err(NotFound(TicketRoutes.TicketNotFound))
    else Ok(200, db[id].(assignedTo := agentId, status := InProgress))
  }

  method Assign(store: Collection, id: string, agentId: Option<UserId>) returns (r: Result<Ticket>)
    requires store.Valid()
    modifies store
    ensures store.Valid()
    ensures r == AssignOutcome(old(store.tickets), id, agentId)
    ensures store.tickets == Committed(old(store.tickets), r)
  {
    var found := store.FindOne(id, None);
    if found.None? {
      return Err(NotFound(TicketRoutes.TicketNotFound));
    }
    var t := found.value;
    t := t.(assignedTo := agentId);
    t := t.(status := InProgress);
    var ok := store.Save(t);
    r := if ok then Ok(200, t) else Err(ServerError(ServerErrorText));
  }

  // ---------------------------------------------------------------- status

  /** The answer to `PUT /tickets/:id/status`. Setting "resolved" replaces
      `resolutionDetails` by `{ resolvedBy: caller, resolvedAt: now }`, so any
      earlier notes are gone; any other status keeps it. A string that is not
      a status fails validation. */
  function SetStatusOutcome(db: map<string, Ticket>, actor: Actor, id: string, status: string, now: Time): (r: Result<Ticket>)
    requires ValidDb(db)
    ensures id !in db ==> r == Err(NotFound(TicketRoutes.TicketNotFound))
    ensures id in db ==> (r.Ok? <==> ParseStatus(status).Some?)
    ensures id in db && r.Err? ==> r.error == ServerError(ServerErrorText)
    ensures r.Ok? ==>
      && id in db && r.code == 200
      && StatusName(r.value.status) == status
      && (status == "resolved" ==> r.value.resolutionDetails == Resolution(Some(actor.id), None, Some(now)))
      && (status != "resolved" ==> r.value.resolutionDetails == db[id].resolutionDetails)
      && r.value.(status := db[id].status, resolutionDetails := db[id].resolutionDetails) == db[id]
  {
    if id !in db then Err(NotFound(TicketRoutes.TicketNotFound))
    else match ParseStatus(status)
      case None => Err(ServerError(ServerErrorText))
      case Some(st) =>
        var t := db[id].(status := st);
        var t := if status == "resolved" then t.(resolutionDetails := Resolution(Some(actor.id), None, Some(now))) else t;
        Ok(200, t)
  }

  method SetStatus(store: Collection, actor: Actor, id: string, status: string, now: Time) returns (r: Result<Ticket>)
    requires store.Valid()
    modifies store
    ensures store.Valid()
    ensures r == SetStatusOutcome(old(store.tickets), actor, id, status, now)
    ensures store.tickets == Committed(old(store.tickets), r)
  {
    var found := store.FindOne(id, None);
    if found.None? {
      return Err(NotFound(TicketRoutes.TicketNotFound));
    }
    var st := ParseStatus(status);
    if st.None? {
      return Err(ServerError(ServerErrorText));
    }
    var t := found.value.(status := st.value);
    if status == "resolved" {
      t := t.(resolutionDetails := Resolution(Some(actor.id), None, Some(now)));
    }
    var ok := store.Save(t);
    r := if ok then Ok(200, t) else Err(ServerError(ServerErrorText));
  }

  // ---------------------------------------------------------------- message

  /** The answer to `POST /tickets/:id/message`: one admin message at the
      end; a closed ticket is reopened, every other status is kept. */
  function AdminMessageOutcome(db: map<string, Ticket>, actor: Actor, id: string, content: Option<string>, now: Time): (r: Result<Ticket>)
    requires ValidDb(db)
    ensures id !in db ==> r == Err(NotFound(TicketRoutes.TicketNotFound))
    ensures id in db && !Truthy(content) ==> r == Err(BadRequest(TicketRoutes.ContentRequired))
    ensures id in db && Truthy(content) ==> r.Ok?
    ensures r.Ok? ==>
      var was, t := db[id], r.value;
      && r.code == 201 && id in db && Truthy(content)
      && |t.messages| == |was.messages| + 1
      && t.messages[..|was.messages|] == was.messages
      && t.messages[|was.messages|] == NewTicketMessage(actor.id, AdminSender, content.value, now)
      && t.status == (if was.status == Closed then Open else was.status)
      && t.(messages := was.messages, status := was.status) == was
  {
    if id !in db then Err(NotFound(TicketRoutes.TicketNotFound))
    else if !Truthy(content) then Err(BadRequest(TicketRoutes.ContentRequired))
    else
      var was := db[id];
      var t := was.(messages := was.messages + [NewTicketMessage(actor.id, AdminSender, content.value, now)]);
      var t := if t.status == Closed then t.(status := Open) else t;
      assert t.messages[..|was.messages|] == was.messages;
      if WellFormed(t) then Ok(201, t) else Err(ServerError(ServerErrorText))
  }

  method AddAdminMessage(store: Collection, actor: Actor, id: string, content: Option<string>, now: Time) returns (r: Result<Ticket>)
    requires store.Valid()
    modifies store
    ensures store.Valid()
    ensures r == AdminMessageOutcome(old(store.tickets), actor, id, content, now)
    ensures store.tickets == Committed(old(store.tickets), r)
  {
    var found := store.FindOne(id, None);
    if found.None? {
      return Err(NotFound(TicketRoutes.TicketNotFound));
    }
    if !Truthy(content) {
      return Err(BadRequest(TicketRoutes.ContentRequired));
    }
    var t := found.value;
    t := t.(messages := t.messages + [NewTicketMessage(actor.id, AdminSender, content.value, now)]);
    if t.status == Closed {
      t := t.(status := Open);
    }
    var ok := store.Save(t);
    r := if ok then Ok(201, t) else Err(ServerError(ServerErrorText));
  }

  /** The two reopening rules are not symmetric. On a resolved ticket, the
      admin route keeps the status and the owner route (for a caller whose
      role is not "admin") reopens it; on a closed ticket, the admin route
      reopens it and the owner route keeps it closed. */
  lemma ReopenRulesAsymmetric(db: map<string, Ticket>, admin: Actor, owner: Actor, id: string, content: string, now: Time)
    requires ValidDb(db) && id in db && content != ""
    requires owner.id == db[id].userId && owner.role != "admin"
    ensures db[id].status == Resolved ==>
      && AdminMessageOutcome(db, admin, id, Some(content), now).value.status == Resolved
      && TicketRoutes.AddMessageOutcome(db, owner, id, Some(content), now).value.status == Open
    ensures db[id].status == Closed ==>
      && AdminMessageOutcome(db, admin, id, Some(content), now).value.status == Open
      && TicketRoutes.AddMessageOutcome(db, owner, id, Some(content), now).value.status == Closed
  {
  }

  // ---------------------------------------------------------------- FAQs

  /** An FAQ document. The score is a JavaScript number, carried as a real. */
  datatype Faq = Faq(
    id: string,
    question: string,
    answer: string,
    category: string,
    tags: seq<string>,
    createdBy: UserId,
    updatedBy: Option<UserId>,
    isActive: bool,
    aiConfidenceScore: real,
    usageCount: nat,
    createdAt: Time,
    updatedAt: Time)

  datatype FaqUpdate = FaqUpdate(
    question: Option<string>,
    answer: Option<string>,
    category: Option<string>,
    tags: Option<seq<string>>,
    isActive: Option<bool>,
    aiConfidenceScore: Option<real>)

  /** The fields `PUT /faqs/:id` assigns: question, answer and category by
      `x || old` (an empty string keeps the old text); tags, isActive and the
      score whenever they are defined, even when falsy; updatedBy always. The
      schema trims question, category and each tag as they are assigned. */
  function MergeFaq(f: Faq, u: FaqUpdate, actor: Actor): (r: Faq)
    ensures r.question == Trim(if Truthy(u.question) then u.question.value else f.question)
    ensures r.answer == (if Truthy(u.answer) then u.answer.value else f.answer)
    ensures r.category == Trim(if Truthy(u.category) then u.category.value else f.category)
    ensures r.tags == TrimAll(if u.tags.Some? then u.tags.value else f.tags)
    ensures r.isActive == (if u.isActive.Some? then u.isActive.value else f.isActive)
    ensures r.aiConfidenceScore == (if u.aiConfidenceScore.Some? then u.aiConfidenceScore.value else f.aiConfidenceScore)
    ensures r.updatedBy == Some(actor.id)
    ensures r.(question := f.question, answer := f.answer, category := f.category, tags := f.tags,
               isActive := f.isActive, aiConfidenceScore := f.aiConfidenceScore, updatedBy := f.updatedBy) == f
  {
    f.(question := Trim(OrElse(u.question, f.question)),
       answer := OrElse(u.answer, f.answer),
       category := Trim(OrElse(u.category, f.category)),
       tags := TrimAll(IfDefined(u.tags, f.tags)),
       isActive := IfDefined(u.isActive, f.isActive),
       aiConfidenceScore := IfDefined(u.aiConfidenceScore, f.aiConfidenceScore),
       updatedBy := Some(actor.id))
  }

  /** What `save()` validates on an FAQ: the required strings are not empty
      (after the trim setters have run) and the score lies in [0, 1]. */
  predicate FaqSaves(f: Faq) {
    && f.question != ""
    && f.answer != ""
    && f.category != ""
    && f.createdBy != ""
    && 0.0 <= f.aiConfidenceScore <= 1.0
  }

  /** A merged FAQ is saved exactly when the question and category it ends up
      with are not all white space, its answer is not empty, its creator is
      set and its score is within bounds; a truthy question such as "   "
      therefore makes the save fail. */
  lemma MergedFaqSaves(f: Faq, u: FaqUpdate, actor: Actor)
    ensures var q := if Truthy(u.question) then u.question.value else f.question;
      var c := if Truthy(u.category) then u.category.value else f.category;
      var s := if u.aiConfidenceScore.Some? then u.aiConfidenceScore.value else f.aiConfidenceScore;
      FaqSaves(MergeFaq(f, u, actor)) <==>
        && !Blank(q) && !Blank(c)
        && (Truthy(u.answer) || f.answer != "")
        && f.createdBy != ""
        && 0.0 <= s <= 1.0
  {
  }

  /** The FAQ collection, keyed by `_id`. */
  class FaqCollection {
    var faqs: map<string, Faq>

    constructor ()
      ensures faqs == map[]
    {
      faqs := map[];
    }

    /** `PUT /faqs/:id`. A merged FAQ that fails validation is not stored
        and the route answers 500. After a save the route chains two
        `populate` calls on the saved document; `promisePopulate` says whether
        the database library's `Document#populate` returns a promise, in
        which case the chained call throws and the route answers 500 with the
        merged FAQ already stored. */
    method UpdateFaq(id: string, u: FaqUpdate, actor: Actor, promisePopulate: bool) returns (r: Result<Faq>)
      modifies this
      ensures id !in old(faqs) ==> r == Err(NotFound(FaqNotFound)) && faqs == old(faqs)
      ensures id in old(faqs) && !FaqSaves(MergeFaq(old(faqs)[id], u, actor)) ==>
        r == Err(ServerError(ServerErrorText)) && faqs == old(faqs)
      ensures id in old(faqs) && FaqSaves(MergeFaq(old(faqs)[id], u, actor)) ==>
        && faqs == old(faqs)[id := MergeFaq(old(faqs)[id], u, actor)]
        && r == if promisePopulate then Err(ServerError(ServerErrorText)) else Ok(200, MergeFaq(old(faqs)[id], u, actor))
    {
      if id !in faqs {
        return Err(NotFound(FaqNotFound));
      }
      var f := MergeFaq(faqs[id], u, actor);
      if !FaqSaves(f) {
        return Err(ServerError(ServerErrorText));
      }
      faqs := faqs[id := f];
      r := if promisePopulate then Err(ServerError(ServerErrorText)) else Ok(200, f);
    }
  }

  // ---------------------------------------------------------------- users

  /** The parts of a user document the admin router reads or writes. */
  datatype User = User(id: UserId, username: string, email: string, role: string, isActive: bool, isBlocked: bool)

  datatype UserUpdate = UserUpdate(isActive: Option<bool>, isBlocked: Option<bool>)

  /** `PUT /users/:id` assigns each flag only when it is defined. */
  function UpdateUserFlags(u: User, req: UserUpdate): (r: User)
    ensures r.isActive == (if req.isActive.Some? then req.isActive.value else u.isActive)
    ensures r.isBlocked == (if req.isBlocked.Some? then req.isBlocked.value else u.isBlocked)
    ensures r.(isActive := u.isActive, isBlocked := u.isBlocked) == u
  {
    var u := if req.isActive.Some? then u.(isActive := req.isActive.value) else u;
    if req.isBlocked.Some? then u.(isBlocked := req.isBlocked.value) else u
  }

  /** The user collection, keyed by `_id`. */
  class UserCollection {
    var users: map<UserId, User>

    constructor ()
      ensures users == map[]
    {
      users := map[];
    }

    /** `PUT /users/:id`. */
    method UpdateUser(id: UserId, req: UserUpdate) returns (r: Result<User>)
      modifies this
      ensures id !in old(users) ==> r == Err(NotFound(UserNotFound)) && users == old(users)
      ensures id in old(users) ==> r == Ok(200, UpdateUserFlags(old(users)[id], req)) && users == old(users)[id := r.value]
    {
      if id !in users {
        return Err(NotFound(UserNotFound));
      }
      var u := users[id];
      if req.isActive.Some? {
        u := u.(isActive := req.isActive.value);
      }
      if req.isBlocked.Some? {
        u := u.(isBlocked := req.isBlocked.value);
      }
      users := users[id := u];
      r := Ok(200, u);
    }
  }
}
