/** The Ticket document: its enumerations and their defaults, the embedded
    messages and resolution record, and what saving a document validates
    (required fields, the trimming setters, the enum lists). */
module TicketSchema {
  import opened Http
  import opened Text

  datatype Status = Open | InProgress | Resolved | Closed

  function StatusName(s: Status): string {
    match s
    case Open => "open"
    case InProgress => "in-progress"
    case Resolved => "resolved"
    case Closed => "closed"
  }

  /** The enum validator on `status`: a string is accepted iff it names a status. */
  function ParseStatus(s: string): (r: Option<Status>)
    ensures r.Some? ==> StatusName(r.value) == s
    ensures r.None? ==> forall st: Status :: StatusName(st) != s
  {
    if s == "open" then Some(Open)
    else if s == "in-progress" then Some(InProgress)
    else if s == "resolved" then Some(Resolved)
    else if s == "closed" then Some(Closed)
    else None
  }

  const DefaultStatus: Status := Open

  datatype Priority = Low | Medium | High | Critical

  function PriorityName(p: Priority): string {
    match p
    case Low => "low"
    case Medium => "medium"
    case High => "high"
    case Critical => "critical"
  }

  /** The enum validator on `priority`. */
  function ParsePriority(s: string): (r: Option<Priority>)
    ensures r.Some? ==> PriorityName(r.value) == s
    ensures r.None? ==> forall p: Priority :: PriorityName(p) != s
  {
    if s == "low" then Some(Low)
    else if s == "medium" then Some(Medium)
    else if s == "high" then Some(High)
    else if s == "critical" then Some(Critical)
    else None
  }

  const DefaultPriority: Priority := Medium

  lemma StatusNamesRoundTrip(st: Status)
    ensures ParseStatus(StatusName(st)) == Some(st)
  {
  }

  lemma PriorityNamesRoundTrip(p: Priority)
    ensures ParsePriority(PriorityName(p)) == Some(p)
  {
  }

  /** `senderType` of a ticket message: only these two are accepted. */
  datatype SenderType = UserSender | AdminSender

  datatype TicketMessage = TicketMessage(
    sender: UserId,
    senderType: SenderType,
    content: string,
    timestamp: Time,
    read: bool)

  /** A message as the schema stores it: `timestamp` defaults to the
      current time and `read` to false. Its contract is the definition the
      routes build on; the properties are stated about the routes. */
  function NewTicketMessage(sender: UserId, senderType: SenderType, content: string, now: Time): (m: TicketMessage)
    ensures !m.read && m.timestamp == now
    ensures m.sender == sender && m.senderType == senderType && m.content == content
  {
    TicketMessage(sender, senderType, content, now, false)
  }

  /** The `resolutionDetails` sub-document; every part is optional. */
  datatype Resolution = Resolution(
    resolvedBy: Option<UserId>,
    resolutionNotes: Option<string>,
    resolvedAt: Option<Time>)

  const NoResolution: Resolution := Resolution(None, None, None)

  datatype Ticket = Ticket(
    ticketId: string,
    userId: UserId,
    subject: string,
    description: string,
    priority: Priority,
    status: Status,
    category: string,
    assignedTo: Option<UserId>,
    messages: seq<TicketMessage>,
    resolutionDetails: Resolution,
    createdAt: Time,
    updatedAt: Time)

  /** What `save()` validates: the required fields are present (a required
      string may not be empty), and `subject` and `category`, which the schema
      trims on assignment, carry no surrounding white space. */
  predicate WellFormed(t: Ticket) {
    && t.ticketId != ""
    && t.userId != ""
    && t.subject != "" && Trimmed(t.subject)
    && t.description != ""
    && t.category != "" && Trimmed(t.category)
    && forall i :: 0 <= i < |t.messages| ==> t.messages[i].content != ""
  }

  /** A new document before it is saved: the defaults of the schema filled in.
      Its contract is the definition; what validation makes of it is
      `NewTicketValidates`. */
  function NewTicket(ticketId: string, userId: UserId, subject: string, description: string,
                     category: string, priority: Priority, now: Time): (t: Ticket)
    ensures t.status == DefaultStatus
    ensures t.assignedTo.None? && t.messages == [] && t.resolutionDetails == NoResolution
    ensures t.createdAt == now && t.updatedAt == now
    ensures t.subject == Trim(subject) && t.category == Trim(category)
    ensures t.ticketId == ticketId && t.userId == userId && t.description == description && t.priority == priority
  {
    Ticket(ticketId, userId, Trim(subject), description, priority, DefaultStatus, Trim(category),
           None, [], NoResolution, now, now)
  }

  /** A new document passes validation exactly when its id and owner are set,
      its description is not empty, and its subject and category are not all
      white space (the trim setters would leave them empty). */
  lemma NewTicketValidates(ticketId: string, userId: UserId, subject: string, description: string,
                           category: string, priority: Priority, now: Time)
    ensures WellFormed(NewTicket(ticketId, userId, subject, description, category, priority, now)) <==>
      ticketId != "" && userId != "" && !Blank(subject) && description != "" && !Blank(category)
  {
  }

  /** The `pre('findOneAndUpdate')` hook: stamps `updatedAt`. No route of the
      ticket or admin routers goes through it, since they all call `save()`. */
  function StampUpdatedAt(t: Ticket, now: Time): (r: Ticket)
    ensures r.updatedAt == now
    ensures r.(updatedAt := t.updatedAt) == t
  {
    t.(updatedAt := now)
  }
}
