# Support platform: tickets, chats and the client rules around them

This project models the support-interaction logic of a customer-support web
application. The server side has three parts:

- an Express router for a customer's own tickets;
- an admin router for every ticket, the FAQ entries and the users;
- a chat router, and a Socket.IO relay that forwards chat messages and typing
  notifications to the connections in a chat's room.

The client side has four parts:

- helpers that turn a chat into a support ticket;
- the chat input box;
- the request layer with its retry policy;
- the admin FAQ page.

Each source file is one Dafny module:

- `TicketSchema`, `TicketStore`, `TicketRoutes` (`ticket_schema.dfy`, `ticket_store.dfy`, `ticket_routes.dfy`):
  - the Ticket schema: enums, defaults, required and trimmed fields, the `updatedAt` hook;
  - the tickets collection as a map keyed by `ticketId`;
  - the owner routes. Every owner route is a method on the collection. A pure "outcome" function specifies its answer, and `Committed` gives the collection afterwards.
- `AdminRoutes` (`admin_routes.dfy`):
  - the admin ticket routes: list, assign, set status, admin message;
  - the FAQ update merge;
  - the user flag update.
- `ChatRoutes` (`chat_routes.dfy`): the chats collection as a sequence in insertion order, with:
  - list by participant;
  - get and history behind the participant check;
  - get-or-create by participant pair;
  - send message.
- `Relay` (`relay.dfy`): the socket relay as a room registry (room → set of connections) plus one outgoing event queue per connection.
- `TicketUtils` (`ticket_utils.dfy`):
  - the transcript written as a loop and proved equal to a recursive definition;
  - the subject with its 50-character cut;
  - the keyword rules for the category;
  - the request that creates a ticket from a chat.
- `ChatInput` (`chat_input.dfy`): the input box as a class. Its state is the text, the typing flag and the log of callback calls.
- `ApiService` (`api_service.dfy`):
  - the token, the default headers and the merge with the caller's headers;
  - `makeRequest`'s retry loop, proved against a recursive definition of the policy.
- `FaqManagement` (`faq_management.dfy`): the FAQ page's state, the tag parsing and joining with its round trip, and the list updates after a save or a delete.
- Shared helpers:
  - `Http` (`http.dfy`): the caller, optional body fields, `x || y`, HTTP results;
  - `Text` (`text.dfy`): JavaScript's `trim`, `toLowerCase`, `includes`, `split`, `join` and decimal rendering;
  - `Listing` (`listing.dfy`): `find(...).sort({ key: -1 })` as insertion into a descending list.

The model treats the following as parameters:

- the clock: `now`, and for a new ticket also `idNow`, the separate reading taken for its id;
- `Math.random` (a draw below 10000);
- the locale rendering of a timestamp (`render`);
- the id the database gives a new chat;
- each fetch's reply.

## Model

| member | source | states |
|---|---|---|
| `TicketSchema.ParseStatus` | server/models/tickets/Ticket.js:29-33 | A string is accepted as a status exactly when it names one of open, in-progress, resolved, closed; otherwise validation fails. |
| `TicketSchema.ParsePriority` | server/models/tickets/Ticket.js:24-28 | A string is accepted as a priority exactly when it names one of low, medium, high, critical. |
| `TicketSchema.StatusNamesRoundTrip` | server/models/tickets/Ticket.js:29-33 | Every status survives being written as its name and read back. |
| `TicketSchema.PriorityNamesRoundTrip` | server/models/tickets/Ticket.js:24-28 | Every priority survives being written as its name and read back. |
| `TicketSchema.NewTicketMessage` | server/models/tickets/Ticket.js:48-70 | A stored message has the given sender, sender type and content, a timestamp of now, and `read` false. |
| `TicketSchema.NewTicket` | server/models/tickets/Ticket.js:3-90 | A new document has status open, no assignee, no messages, an empty resolution record, and `createdAt = updatedAt = now`. Its subject and category are trimmed. |
| `TicketSchema.NewTicketValidates` | server/models/tickets/Ticket.js:4-23 | `WellFormed`, the schema's required fields plus the trim setters: a new document passes validation exactly when its id and owner are set, its description is not empty, and its subject and category are not all white space. |
| `TicketSchema.StampUpdatedAt` | server/models/tickets/Ticket.js:93-95 | The hook sets `updatedAt` to now and changes nothing else. |
| `TicketStore.Committed` | server/routes/tickets/index.js:115 | After an error the collection is unchanged. After a success it holds the saved document under its id, and every other document is unchanged. |
| `TicketStore.Collection.FindOne` | server/routes/tickets/index.js:32-35 | Finds a document exactly when the id is stored and, if an owner is given, the document belongs to that owner. |
| `TicketStore.Collection.Find` | server/routes/tickets/index.js:16-18 | Lists every matching document exactly once, in non-increasing `createdAt`. |
| `TicketStore.Collection.Insert` | server/models/tickets/Ticket.js:4-9 | A save of a new document succeeds exactly when it passes validation and its `ticketId` is not taken, so no two documents ever share a `ticketId`. |
| `TicketStore.Collection.Save` | server/routes/tickets/index.js:115 | A save of a loaded document succeeds exactly when it passes validation. On success it replaces the stored document; otherwise nothing changes. |
| `TicketRoutes.GenerateTicketId` | server/routes/tickets/index.js:7-9 | An id starts with "TKT-", has at least seven characters, and after the prefix holds only digits and dashes. |
| `TicketRoutes.TicketIdRoundTrip` | server/routes/tickets/index.js:7-9 | The time and the draw can be read back out of the id "TKT-now-draw". |
| `TicketRoutes.TicketIdInjective` | server/routes/tickets/index.js:7-9 | Two generated ids are equal only when their times and draws are equal. |
| `TicketRoutes.TicketIdDrawDigits` | server/routes/tickets/index.js:8 | The draw is written with one to four digits, with no zero padding. |
| `TicketRoutes.CreateOutcome` | server/routes/tickets/index.js:51-80 | A missing or empty subject, description or category gives 400. The ticket is created exactly when the fields are present, the priority is valid, the trimmed subject and category are not empty and the id is new. The created ticket belongs to the caller, defaults to medium, and starts open with no assignee and no messages. Its id is built from one clock reading (`idNow`), and its `createdAt`/`updatedAt` come from another (`now`). Every other failure is a 500. |
| `TicketRoutes.Create` | server/routes/tickets/index.js:51-80 | Answers `CreateOutcome` and stores exactly the new ticket, or nothing on an error. |
| `TicketRoutes.List` | server/routes/tickets/index.js:14-25 | The caller's own tickets, each exactly once, newest first. |
| `TicketRoutes.Get` | server/routes/tickets/index.js:30-46 | The ticket when the caller owns it; 404 otherwise, even when the ticket exists. |
| `TicketRoutes.AssignFields` | server/routes/tickets/index.js:99-113 | Each field becomes the body's value when truthy and keeps its old value otherwise. For role "user", status and `assignedTo` are kept whatever the body says. Any other role may also set them. No other field changes. |
| `TicketRoutes.UpdateOutcome` | server/routes/tickets/index.js:85-123 | 404 unless the caller owns the ticket. Otherwise it succeeds exactly when the enum values are valid and a given subject or category is not blank after trimming. On success the new fields are those `AssignFields` states; any other failure is a 500. |
| `TicketRoutes.Update` | server/routes/tickets/index.js:85-123 | Answers `UpdateOutcome`; the collection changes only on success. |
| `TicketRoutes.AddMessageOutcome` | server/routes/tickets/index.js:128-166 | 404 unless owned, then 400 for empty content. Otherwise exactly one message is appended at the end and earlier messages are unchanged. Its sender type is admin exactly when the role is "admin". The status becomes open exactly when it was open, or was resolved and the role is not "admin"; no other status changes. |
| `TicketRoutes.SenderTypeOf` | server/routes/tickets/index.js:147 | A message the caller adds has sender type admin exactly when the caller's role is "admin", and user for every other role. |
| `TicketRoutes.AddMessage` | server/routes/tickets/index.js:128-166 | Answers `AddMessageOutcome`; the collection changes only on success. |
| `TicketRoutes.CloseOutcome` | server/routes/tickets/index.js:171-191 | 404 unless owned; otherwise the ticket with status closed from any state, everything else unchanged. |
| `TicketRoutes.CloseIdempotent` | server/routes/tickets/index.js:182 | Closing again gives the same answer and leaves the collection as the first close left it. |
| `TicketRoutes.Close` | server/routes/tickets/index.js:171-191 | Answers `CloseOutcome`; the collection changes only on success. |
| `TicketRoutes.OwnerRoutesKeepUpdatedAt` | server/models/tickets/Ticket.js:93-95 | Update, message and close leave `updatedAt` at its stored value: they write with `save()`, and the hook is registered only for `findOneAndUpdate`. |
| `AdminRoutes.ListTickets` | server/routes/admin/index.js:75-87 | Every ticket in the collection, each exactly once, newest first. |
| `AdminRoutes.AssignOutcome` | server/routes/admin/index.js:92-113 | 404 for an unknown id. Otherwise `assignedTo` becomes `agentId` and the status becomes in-progress from any state, closed and resolved included. Nothing else changes. |
| `AdminRoutes.Assign` | server/routes/admin/index.js:92-113 | Answers `AssignOutcome`; the collection changes only on success. |
| `AdminRoutes.SetStatusOutcome` | server/routes/admin/index.js:118-146 | 404 for an unknown id, 500 for a string that is not a status. "resolved" replaces the resolution record by `{resolvedBy: caller, resolvedAt: now}`, dropping earlier notes. Any other status keeps the record. |
| `AdminRoutes.SetStatus` | server/routes/admin/index.js:118-146 | Answers `SetStatusOutcome`; the collection changes only on success. |
| `AdminRoutes.AdminMessageOutcome` | server/routes/admin/index.js:151-186 | 404, then 400 for empty content. Otherwise one admin message is appended at the end and earlier messages are unchanged. A closed ticket becomes open; every other status, resolved included, is kept. |
| `AdminRoutes.AddAdminMessage` | server/routes/admin/index.js:151-186 | Answers `AdminMessageOutcome`; the collection changes only on success. |
| `AdminRoutes.ReopenRulesAsymmetric` | server/routes/admin/index.js:174-176 | On a resolved ticket an admin reply keeps the status and an owner's reply reopens it. On a closed ticket an admin reply reopens it and an owner's reply keeps it closed. |
| `AdminRoutes.MergeFaq` | server/routes/admin/index.js:244-250 | Question, answer and category take the new value only when it is non-empty. Tags, isActive and score are replaced whenever defined. The schema's setters trim the question, the category and each tag (server/models/admin/Faq.js:7, 16, 20). `updatedBy` is always the caller. Nothing else changes. |
| `AdminRoutes.MergedFaqSaves` | server/models/admin/Faq.js:3-48 | `FaqSaves` is the schema's validation: the required strings are non-empty and the score lies in [0, 1]. A merged FAQ passes it exactly when its answer is not empty, its creator is set, its score is in bounds, and its question and category are not all white space. So a truthy `"   "` fails the save. |
| `AdminRoutes.FaqCollection.UpdateFaq` | server/routes/admin/index.js:234-261 | 404 with no change for an unknown id. A merged FAQ that fails validation gives 500 and nothing is stored. Otherwise the merged FAQ is stored and answered with 200, unless the library's `populate` returns a promise: then the chained second `populate` throws and the route answers 500 with the FAQ already stored. |
| `AdminRoutes.UpdateUserFlags` | server/routes/admin/index.js:311-312 | `isActive` and `isBlocked` change only when defined; nothing else changes. |
| `AdminRoutes.UserCollection.UpdateUser` | server/routes/admin/index.js:301-321 | 404 with no change for an unknown id; otherwise stores and answers the updated user. |
| `ChatRoutes.IndexOf` | server/routes/chat.js:31 | `findById` finds the position of the chat with that id, and reports absence only when no chat has it. |
| `ChatRoutes.FindPair` | server/routes/chat.js:59-61 | The first chat whose participants include both users, or none when no chat does. |
| `ChatRoutes.FindPairSymmetric` | server/routes/chat.js:59-61 | The pair lookup does not depend on the order of the two users. |
| `ChatRoutes.FindPairAppend` | server/routes/chat.js:59-72 | Appending a chat keeps any earlier match, and otherwise finds the new chat exactly when it has both users. |
| `ChatRoutes.GetOrCreateOutcome` | server/routes/chat.js:54-79 | An existing chat with both users is returned (200) with no change. Otherwise a chat with participants `[caller, userId]` and no messages is appended (201). The answer always contains both users. |
| `ChatRoutes.GetOrCreateTwice` | server/routes/chat.js:59-65 | A second get-or-create for the same pair, in either order, returns the same chat and creates nothing. |
| `ChatRoutes.SendOutcome` | server/routes/chat.js:84-121 | 404 for an unknown chat and 401 for a non-participant, each with no change. Otherwise exactly one message from the caller, with sender type user, is appended at the end. Its sentiment is the given one, or "neutral" when absent or empty. Nothing else changes. |
| `ChatRoutes.ChatCollection.ListFor` | server/routes/chat.js:11-24 | Exactly the chats whose participants include the caller, each once, most recently updated first. |
| `ChatRoutes.ChatCollection.Get` | server/routes/chat.js:29-49 | 404 for an unknown id, 401 when the caller is not a participant, otherwise the chat. |
| `ChatRoutes.ChatCollection.History` | server/routes/chat.js:126-145 | The same guards as `Get`, then the messages in the order they were appended. |
| `ChatRoutes.ChatCollection.GetOrCreate` | server/routes/chat.js:54-79 | Answers and updates as `GetOrCreateOutcome`, keeping chat ids distinct. |
| `ChatRoutes.ChatCollection.SendMessage` | server/routes/chat.js:84-121 | Answers and updates as `SendOutcome`, keeping chat ids distinct. |
| `Relay.Joined` | server/server.js:62-65 | After a join the connection is in that room, in addition to the members it had; every other room is unchanged. |
| `Relay.BroadcastRecipients` | server/server.js:68-71 | A message reaches exactly the room's members, the sender included. |
| `Relay.OthersRecipients` | server/server.js:74-80 | A typing notification reaches exactly the room's members other than the sender. |
| `Relay.Deliver` | server/server.js:70 | Each recipient's queue gets the event at its end; every other queue is unchanged. |
| `Relay.LeftAll` | server/server.js:83-85 | On disconnect the connection is removed from every room and nothing else changes. |
| `Relay.DeliverInOrder` | server/server.js:68-80 | A connection receives the events sent to it in the order they were sent. |
| `Relay.JoinIdempotent` | server/server.js:62-65 | Joining the same room twice changes nothing more. |
| `Relay.TypingReachesOthers` | server/server.js:74-76 | The typing recipients are the message recipients less the sender. |
| `Relay.Server.Connect` | server/server.js:58 | A new connection has an empty queue and is in no room. |
| `Relay.Server.JoinChat` | server/server.js:62-65 | The registry becomes `Joined`; nothing is checked against chat participants. |
| `Relay.Server.SendMessage` | server/server.js:68-71 | The payload, unchanged, is queued for every member of `data.chatId`, the sender included. |
| `Relay.Server.Typing` | server/server.js:74-80 | `{user, isTyping}` is queued for every member of the room except the sender, whose queue is unchanged. |
| `Relay.Server.TypingStart` | server/server.js:74-76 | Queues `{user, isTyping: true}` for the other members of the room. |
| `Relay.Server.TypingStop` | server/server.js:78-80 | Queues `{user, isTyping: false}` for the other members of the room. |
| `Relay.Server.Disconnect` | server/server.js:83-85 | The connection leaves the connected set and every room, and its queue is discarded; no other room or queue changes. (The handler itself only logs; this is what the socket library does on disconnect.) |
| `TicketUtils.FormatChatAsTicketDescription` | src/utils/ticketUtils.ts:39-50 | The accumulating loop produces the header followed by one "[time] Label: content" entry per message, in order. |
| `TicketUtils.Transcript` | src/utils/ticketUtils.ts:40-49 | The transcript starts with the header, grows by at least one character per message, and ends with a blank line when there is a message. |
| `TicketUtils.TranscriptPrefix` | src/utils/ticketUtils.ts:40-47 | The transcript of a prefix of the messages is a prefix of the transcript. |
| `TicketUtils.TranscriptMentions` | src/utils/ticketUtils.ts:40-47 | The transcript starts with the header and contains every message's entry and content. |
| `TicketUtils.FirstUserMessage` | src/utils/ticketUtils.ts:55 | The first message sent by the customer, all earlier messages being the AI's; none when there is no customer message. |
| `TicketUtils.Subject` | src/utils/ticketUtils.ts:72 | With no customer message: "Support Request". If that message's content has at most 50 characters, the subject is the content itself. Otherwise it is the content's first 50 characters plus "...", 53 in all. |
| `TicketUtils.LowerContents` | src/utils/ticketUtils.ts:59 | One lower-cased content per message, in order. |
| `TicketUtils.Categorize` | src/utils/ticketUtils.ts:61-69 | Always one of the five category names. It is Technical Issue exactly when a technical keyword occurs, and General Inquiry exactly when no rule's keyword occurs. |
| `TicketUtils.ExtractCategory` | src/utils/ticketUtils.ts:58-69 | The category of a conversation is one of the five names, and Technical Issue exactly when a technical keyword occurs in the lower-cased joined text. |
| `TicketUtils.CategorizeExtend` | src/utils/ticketUtils.ts:61-69 | Adding text can only move the category to an earlier rule. |
| `TicketUtils.CategoryNeverDemoted` | src/utils/ticketUtils.ts:59-69 | A later message never moves the category to a later rule. |
| `TicketUtils.EmptyChatGeneral` | src/utils/ticketUtils.ts:58 | An empty conversation is a general inquiry. |
| `TicketUtils.KeywordAnywhere` | src/utils/ticketUtils.ts:59-61 | A keyword in any one message, in any letter case, is found in the joined text. |
| `TicketUtils.TechnicalAnywhere` | src/utils/ticketUtils.ts:61-62 | A technical keyword in any message makes the ticket technical, whatever else is said. |
| `TicketUtils.BillingUnlessTechnical` | src/utils/ticketUtils.ts:63-64 | With a billing keyword present, the category is Billing exactly when no technical keyword occurs. |
| `TicketUtils.AccountUnlessEarlierRule` | src/utils/ticketUtils.ts:65-66 | With an account keyword present (e.g. "login"), the category is Account exactly when no technical or billing keyword occurs. |
| `TicketUtils.RefundUnlessEarlierRule` | src/utils/ticketUtils.ts:67-68 | With a refund keyword present, the category is Refund/Return exactly when no keyword of an earlier rule occurs. |
| `TicketUtils.GeneralWhenNoKeyword` | src/utils/ticketUtils.ts:58-69 | The category is General Inquiry exactly when no rule's keyword occurs. |
| `TicketUtils.SubstringMatch` | src/utils/ticketUtils.ts:61 | Keywords match substrings: a message with "tissue" makes a technical ticket. |
| `TicketUtils.ExtractTicketInfo` | src/utils/ticketUtils.ts:53-76 | The subject is `Subject`, the description is exactly `Transcript`, and the category is exactly `ExtractCategory`, so the transcript and keyword-rule lemmas apply to the result. Also: the description starts with the header and contains every message's content; for no messages it is the header alone; the category is one of the five names. |
| `TicketUtils.ChatTicketRequest` | src/utils/ticketUtils.ts:4-10 | The request carries the subject and description. The category defaults to "General Inquiry" and the priority to "medium". |
| `TicketUtils.ChatTicketAccepted` | src/utils/ticketUtils.ts:53-76 | A ticket built from a chat whose subject is not blank is accepted by the create route. It keeps the transcript, the inferred category and the chosen or default priority. |
| `ChatInput.AlternatingPush` | src/components/Chat/ChatInput.tsx:33-39 | A notification keeps the log alternating exactly when it is a start after an even number of notifications or a stop after an odd number. |
| `ChatInput.Notify` | src/components/Chat/ChatInput.tsx:33-48 | A start while not typing, or a stop while typing, keeps the log consistent with the flipped flag. |
| `ChatInput.SendKeeps` | src/components/Chat/ChatInput.tsx:14-19 | Sending non-blank text leaves the typing notifications alone. |
| `ChatInput.Input.HandleSend` | src/components/Chat/ChatInput.tsx:14-19 | Send happens only when the trimmed text is non-empty: the untrimmed text is sent and the box is cleared. Otherwise nothing happens. The typing flag is kept. Starts and stops go on alternating. |
| `ChatInput.Input.HandleKeyPress` | src/components/Chat/ChatInput.tsx:21-26 | Enter without Shift sends as `HandleSend`; any other key changes nothing. |
| `ChatInput.Input.HandleChange` | src/components/Chat/ChatInput.tsx:28-40 | The text is kept. A start is emitted only on non-blank text while not typing, and a stop only on blank text while typing. The flag ends up equal to "the text is not blank". |
| `ChatInput.Input.HandleBlur` | src/components/Chat/ChatInput.tsx:43-48 | A stop is emitted exactly when typing, and the flag ends false. |
| `ApiService.Classify` | src/services/apiService.ts:63-83 | A 2xx response yields its body, or no data for 204. An error response raises an error with its status and body. The message is the server's message when non-empty, else "HTTP Error: <status>". A network failure or an unparsable success body raises something without a status. |
| `ApiService.RetryDelay` | src/services/apiService.ts:92 | Each wait is between 1000 and 3000 ms: 1000 ms before the first retry and 3000 ms before the last. |
| `ApiService.RequestSpec` | src/services/apiService.ts:47-100 | The recursive retry policy. At least one attempt is made, with one wait fewer than there are attempts. The request stops only on a success, on a client error, or when every retry is spent. |
| `ApiService.RetryStep` | src/services/apiService.ts:84-95 | An attempt that neither succeeds nor raises a 4xx, with retries left, waits and retries with one retry fewer. |
| `ApiService.AttemptsBounded` | src/services/apiService.ts:6-9 | At most `retries + 1` attempts are made, four from the start, with one wait between each two. |
| `ApiService.DelaySchedule` | src/services/apiService.ts:92 | From the first attempt, the k-th wait (k = 1..3) is 1000·k ms. |
| `ApiService.ResultIsLastAttempt` | src/services/apiService.ts:84-98 | The answer is the outcome of the last attempt. Every earlier attempt failed with something other than a client error. |
| `ApiService.ClientErrorNotRetried` | src/services/apiService.ts:86-88 | A 4xx error on the first attempt is the answer, with no retry and no wait. |
| `ApiService.PersistentFailure` | src/services/apiService.ts:91-98 | When every attempt fails retryably, there are four attempts, waits of 1, 2 and 3 seconds, and the last failure is raised. |
| `ApiService.MergeHeaders` | src/services/apiService.ts:55-61 | The merged headers have the names of both; a caller's header replaces the default one with the same name. |
| `ApiService.ApiClient.SetToken` | src/services/apiService.ts:29-31 | The stored token becomes the given one. |
| `ApiService.ApiClient.Headers` | src/services/apiService.ts:34-44 | `Content-Type: application/json` is always present. `Authorization: Bearer <token>` is present exactly when the token is truthy. There are no other headers. |
| `ApiService.ApiClient.MakeRequest` | src/services/apiService.ts:47-100 | The retry loop sends the merged headers and produces exactly the trace of the recursive retry policy. |
| `Text.TrimAll` | src/components/Admin/AdminFaqManagement.tsx:72 | Each string trimmed, in order; used for the form's tag pieces and for the schema's tag setter. |
| `FaqManagement.DropEmpty` | src/components/Admin/AdminFaqManagement.tsx:72 | A string is kept exactly when it is in the input and is not empty; with no empty pieces nothing is dropped; the result is no longer than the input. |
| `FaqManagement.DropEmptyAppend` | src/components/Admin/AdminFaqManagement.tsx:72 | The filter keeps the order of what it keeps: it distributes over concatenation. |
| `FaqManagement.ParseTags` | src/components/Admin/AdminFaqManagement.tsx:72 | Parsed tags are non-empty, trimmed and comma-free. |
| `FaqManagement.JoinTags` | src/components/Admin/AdminFaqManagement.tsx:129 | No tags join to the empty string, one tag to itself, and every tag occurs in the joined text. |
| `FaqManagement.SplitJoined` | src/components/Admin/AdminFaqManagement.tsx:72-129 | Splitting joined tags on commas gives the first tag and then each later tag with one leading space. |
| `FaqManagement.TagsRoundTrip` | src/components/Admin/AdminFaqManagement.tsx:72-129 | For non-empty, trimmed, comma-free tags, parsing `tags.join(', ')` gives back the original list. |
| `FaqManagement.ParseJoinParse` | src/components/Admin/AdminFaqManagement.tsx:72-129 | Parsing, joining and parsing again gives the first parse. |
| `FaqManagement.Prepend` | src/components/Admin/AdminFaqManagement.tsx:109 | The new FAQ comes first and the rest of the list follows in order. |
| `FaqManagement.ReplaceById` | src/components/Admin/AdminFaqManagement.tsx:106 | Entries with the saved FAQ's id are replaced, all others are unchanged, and the length is kept. |
| `FaqManagement.RemoveById` | src/components/Admin/AdminFaqManagement.tsx:150 | An entry remains exactly when it was there and has a different id. |
| `FaqManagement.RemoveByIdAppend` | src/components/Admin/AdminFaqManagement.tsx:150 | Removal keeps the order of what stays: it distributes over concatenation. |
| `FaqManagement.RemoveAbsent` | src/components/Admin/AdminFaqManagement.tsx:150 | Removing an id no entry has changes nothing. |
| `FaqManagement.FaqPage.constructor` | src/components/Admin/AdminFaqManagement.tsx:22-62 | The form starts cleared. The list is the fetched one, or empty with "Failed to fetch FAQs" or "Error fetching FAQs". |
| `FaqManagement.FaqPage.ResetForm` | src/components/Admin/AdminFaqManagement.tsx:161-170 | Every form field returns to its initial value: empty texts, active, score 0.8, no FAQ being edited, form hidden. The list and error are kept. |
| `FaqManagement.FaqPage.OpenNewForm` | src/components/Admin/AdminFaqManagement.tsx:179-184 | A cleared form, shown, for a new FAQ. |
| `FaqManagement.FaqPage.HandleEdit` | src/components/Admin/AdminFaqManagement.tsx:124-133 | The form holds the FAQ's fields, with its tags joined by ", ", and is shown. |
| `FaqManagement.FaqPage.Submission` | src/components/Admin/AdminFaqManagement.tsx:68-75 | The body sent holds the form's fields and the parsed tags. |
| `FaqManagement.FaqPage.HandleSubmit` | src/components/Admin/AdminFaqManagement.tsx:101-120 | An accepted edit replaces by id, and an accepted create prepends; either one resets the form. Otherwise the form is kept, with "Failed to save FAQ" on a refusal or "Error saving FAQ" when there is no answer. |
| `FaqManagement.FaqPage.HandleDelete` | src/components/Admin/AdminFaqManagement.tsx:136-158 | Unconfirmed, nothing happens. When accepted, every entry with that id is removed. Otherwise the list is kept and "Failed to delete FAQ" or "Error deleting FAQ" is shown. The form is never touched. |
| `FaqManagement.EditSubmitsSame` | src/components/Admin/AdminFaqManagement.tsx:72-129 | A page whose form holds the fields `HandleEdit(f)` sets (tags joined by ", ") has `Submission()` equal to `f`'s own question, answer, category, tags, active flag and score, for any tags the form could have produced. |
| `Text.Trim` | src/components/Chat/ChatInput.tsx:15 | The result is `s` with its blank ends cut off: the piece of `s` that starts after its `Lead(s)` leading white-space characters and is followed only by white space, with nothing left to trim at its own ends. It is empty exactly when the input is all white space, and already-trimmed text is unchanged. |
| `Text.TrimUnique` | src/components/Chat/ChatInput.tsx:15 | Any cut of `s` into a white-space head, a middle with nothing to trim and a white-space tail has `Trim(s)` as its middle, so the contract of `Trim` fixes its value. |
| `Text.ToLower` | src/utils/ticketUtils.ts:59 | Same length, each character lower-cased. |
| `Text.Split` | src/components/Admin/AdminFaqManagement.tsx:72 | At least one piece, none containing the separator. |
| `Text.SplitAfterPiece` | src/components/Admin/AdminFaqManagement.tsx:72 | A separator after a separator-free piece splits off exactly that piece. |
| `Text.JoinIncludes` | src/utils/ticketUtils.ts:59 | Each joined part occurs in the joined text. |
| `Text.IncludesTrans` | src/utils/ticketUtils.ts:61-69 | A piece of a piece of a text is a piece of the text. |
| `Text.NatToString` | server/routes/tickets/index.js:8 | A non-empty string of decimal digits, with a leading zero only for zero. |
| `Text.ParseNatToString` | server/routes/tickets/index.js:8 | Reading the decimal rendering of a number back gives the number. |
| `Listing.InsertDescSorted` | server/routes/tickets/index.js:18 | Inserting into a list sorted by descending key keeps it sorted. |
| `Listing.SortDesc` | server/routes/tickets/index.js:18 | The documents of the set, each exactly once, in non-increasing key order. |
| `Listing.ListsExactlyMembers` | server/routes/admin/index.js:77-80 | A listing that holds each document exactly once has exactly the documents of the set, and no repeats. |

## Left out

- Persistence: MongoDB query execution, `populate`, the connection setup and the network between client and server are not modelled. The collections are in-memory maps and sequences.
- `populate`'d responses: a response carries the stored document, without the expanded `assignedTo`, `createdBy` or sender records.
- Database ids: no `ObjectId` casting. An id that is looked up but is not a valid ObjectId is treated as an unknown id, though the database would raise a cast error and the route would answer 500. Reference ids that are stored are also kept as given: `agentId` in `AdminRoutes.AssignOutcome` and `assignedTo` in `TicketRoutes.AssignFields`. A string there that is not an ObjectId fails the cast on `save()`, and the route answers 500; the model stores it and answers 200.
- The analytics endpoint (server/routes/admin/index.js:12-70) is not modelled. It relies on database aggregation and a floating-point rate.
- Authentication: the `protect` and `admin` middleware, the auth context and the auth service are not modelled. The caller `{id, role}` is an input, and the admin routes assume the caller passed the admin check.
- The FAQ list, create and delete routes (server/routes/admin/index.js:191-229, 266-281), the user list (286-296) and the user chat log (326-342) are not modelled. They are single database calls with no logic of their own beyond the `tags || []` and `score || 0.8` defaults of create.
- The FAQ schema (server/models/admin/Faq.js) is modelled only as far as an update reaches it: the trim setters, the required strings and the score bounds. The score is a real, so floating-point rounding is not modelled. `usageCount` is carried but never read, `lastUsed` is not modelled, and the FAQ's `updatedAt` hook is never fired by `save()`.
- The Chat and User models are not part of this model. A user message is appended with `read` false and the time given as `now`. The chat's `updatedAt` is left unchanged on a send. Neither model's validation is modelled: a chat message with empty content is stored as sent.
- Ticket `attachments` and `dueDate` are not modelled; no route reads or writes them.
- Concurrency and the socket transport: the relay is sequential. Delivery across processes, reconnection, and the room named by the socket's own id, which the library joins automatically, are not modelled.
- The network calls of `createTicketFromChat` (src/utils/ticketUtils.ts:12-35) are not modelled. Neither is their error on a non-ok response, nor `fetch` and `setTimeout` in the request layer. Each attempt's reply is a parameter, and the waits are returned instead of slept.
- Locale timestamps: `toLocaleString` is a parameter `render` from the timestamp to a string.
- Unicode: `toLowerCase` lower-cases ASCII letters only, and lengths count code points, where JavaScript counts UTF-16 units. That matters for the 50-character subject cut.
- JSON bodies: a response body is its `message` property plus an opaque rest. Only `options.headers` given as a plain record is modelled; the `Headers` object and array forms are not.
- AdminRoutes.SetStatusOutcome: takes `status` as a string, so a body without `status` is not modelled. The code then assigns `undefined`, which the enum validator lets through, and the save unsets the field: the route answers 200 with a ticket that has no status. The model's stored status is always one of the four, which holds only on the paths modelled.
- AdminRoutes.FaqCollection.UpdateFaq: which release of the database library is installed is not known, so whether the chained `populate` throws is the parameter `promisePopulate`.
- `ApiService.RetryDelay`: defined only for one to three retries left, the range `makeRequest` reaches from its default `maxRetries`. A caller passing a larger `retries` is not modelled.
- Rendering, loading flags and the rest of the UI (the ticket, user and dashboard pages, the chat window and its context) are not modelled. Their list updates repeat the FAQ list helpers.
- The model follows what the code does, including these behaviours:
  - an assign from closed or resolved forces in-progress;
  - a non-admin's status and `assignedTo` in an update are ignored, not refused;
  - "my bill is wrong" contains no billing keyword, so the code gives General Inquiry;
  - "app crashes on login" contains no technical keyword but contains "login", so the code gives Account, not Technical Issue.
