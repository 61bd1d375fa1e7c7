/** The client helpers that turn a chat into a ticket: the transcript used as
    the ticket description, the subject taken from the customer's first
    message, the keyword rules that choose a category, and the request that
    creates the ticket with its defaults. */
module TicketUtils {
  import opened Http
  import opened Text
  import opened TicketSchema
  import opened TicketStore
  import opened ChatRoutes
  import opened TicketRoutes

  const TranscriptHeader: string := "Customer Support Chat Transcript:\n\n"
  const CustomerLabel: string := "Customer"
  const AiLabel: string := "AI Support"

  function SenderLabel(m: ChatMessage): string {
    if m.senderType == SentByUser then CustomerLabel else AiLabel
  }

  /** The text before the content in a transcript line; `render` is the
      locale rendering of a timestamp. */
  function EntryOpening(m: ChatMessage, render: Time -> string): string {
    "[" + render(m.timestamp) + "] " + SenderLabel(m) + ": "
  }

  function Entry(m: ChatMessage, render: Time -> string): string {
    EntryOpening(m, render) + m.content + "\n\n"
  }

  /** The transcript of `ms`: the header, then one line per message in order. */
  function Transcript(ms: seq<ChatMessage>, render: Time -> string): (r: string)
    ensures TranscriptHeader <= r
    ensures |r| >= |TranscriptHeader| + |ms|
    ensures ms != [] ==> r[|r| - 2..] == "\n\n"
  {
    if ms == [] then TranscriptHeader
    else Transcript(ms[..|ms| - 1], render) + Entry(ms[|ms| - 1], render)
  }

  /** `formatChatAsTicketDescription`. */
  method FormatChatAsTicketDescription(ms: seq<ChatMessage>, render: Time -> string) returns (description: string)
    ensures description == Transcript(ms, render)
  {
    description := TranscriptHeader;
    for i := 0 to |ms|
      invariant description == Transcript(ms[..i], render)
    {
      assert ms[..i + 1][..i] == ms[..i];
      description := description + Entry(ms[i], render);
    }
    assert ms[..|ms|] == ms;
  }

  /** The transcript of a prefix of the messages is a prefix of the transcript. */
  lemma {:induction false} TranscriptPrefix(ms: seq<ChatMessage>, k: nat, render: Time -> string)
    requires k <= |ms|
    ensures Transcript(ms[..k], render) <= Transcript(ms, render)
    decreases |ms| - k
  {
    if k < |ms| {
      assert ms[..k + 1][..k] == ms[..k];
      TranscriptPrefix(ms, k + 1, render);
    } else {
      assert ms[..k] == ms;
    }
  }

  lemma TranscriptStep(ms: seq<ChatMessage>, i: nat, render: Time -> string)
    requires i < |ms|
    ensures Transcript(ms[..i + 1], render) == Transcript(ms[..i], render) + Entry(ms[i], render)
  {
    assert ms[..i + 1][..i] == ms[..i];
  }

  lemma PrefixSplit(q: string, t: string)
    requires q <= t
    ensures t == q + t[|q|..]
  {
  }

  lemma HeaderFirst(ms: seq<ChatMessage>, render: Time -> string)
    ensures TranscriptHeader <= Transcript(ms, render)
  {
    TranscriptPrefix(ms, 0, render);
    assert ms[..0] == [];
  }

  lemma EntryInTranscript(ms: seq<ChatMessage>, i: nat, render: Time -> string)
    requires i < |ms|
    ensures Includes(Transcript(ms, render), Entry(ms[i], render))
  {
    TranscriptPrefix(ms, i + 1, render);
    TranscriptStep(ms, i, render);
    var t := Transcript(ms, render);
    var q := Transcript(ms[..i + 1], render);
    PrefixSplit(q, t);
    IncludesInfix(Transcript(ms[..i], render), Entry(ms[i], render), t[|q|..]);
  }

  lemma ContentInEntry(m: ChatMessage, render: Time -> string)
    ensures Includes(Entry(m, render), m.content)
  {
    IncludesInfix(EntryOpening(m, render), m.content, "\n\n");
  }

  /** The transcript starts with the header and holds the line of every
      message, so in particular every message's content. */
  lemma TranscriptMentions(ms: seq<ChatMessage>, i: nat, render: Time -> string)
    requires i < |ms|
    ensures TranscriptHeader <= Transcript(ms, render)
    ensures Includes(Transcript(ms, render), Entry(ms[i], render))
    ensures Includes(Transcript(ms, render), ms[i].content)
  {
    HeaderFirst(ms, render);
    EntryInTranscript(ms, i, render);
    ContentInEntry(ms[i], render);
    IncludesTrans(Transcript(ms, render), Entry(ms[i], render), ms[i].content);
  }

  /** `messages.find(msg => msg.senderType === 'user')`. */
  function FirstUserMessage(ms: seq<ChatMessage>): (r: Option<nat>)
    ensures r.Some? ==> r.value < |ms| && ms[r.value].senderType == SentByUser
    ensures r.Some? ==> forall j :: 0 <= j < r.value ==> ms[j].senderType != SentByUser
    ensures r.None? ==> forall j :: 0 <= j < |ms| ==> ms[j].senderType != SentByUser
  {
    if ms == [] then None
    else if ms[0].senderType == SentByUser then Some(0)
    else match FirstUserMessage(ms[1..])
      case None => None
      case Some(k) => Some(k + 1)
  }

  const SubjectLimit: nat := 50
  const Ellipsis: string := "..."
  const DefaultSubject: string := "Support Request"

  /** The subject: the first customer message cut to 50 characters, marked
      with an ellipsis when it was cut. */
  function Subject(ms: seq<ChatMessage>): (r: string)
    ensures FirstUserMessage(ms).None? ==> r == DefaultSubject
    ensures FirstUserMessage(ms).Some? ==>
      var c := ms[FirstUserMessage(ms).value].content;
      && (|c| <= SubjectLimit ==> r == c)
      && (|c| > SubjectLimit ==> |r| == SubjectLimit + |Ellipsis| && r[..SubjectLimit] == c[..SubjectLimit] && r[SubjectLimit..] == Ellipsis)
    ensures |r| <= SubjectLimit + |Ellipsis|
  {
    match FirstUserMessage(ms)
    case None => DefaultSubject
    case Some(i) =>
      var c := ms[i].content;
      if |c| > SubjectLimit then c[..SubjectLimit] + Ellipsis else c
  }

  const TechnicalIssue: string := "Technical Issue"
  const Billing: string := "Billing"
  const Account: string := "Account"
  const RefundReturn: string := "Refund/Return"
  const GeneralInquiry: string := "General Inquiry"

  const TechnicalWords: seq<string> := ["bug", "error", "issue"]
  const BillingWords: seq<string> := ["payment", "billing", "charge"]
  const AccountWords: seq<string> := ["account", "profile", "login"]
  const RefundWords: seq<string> := ["refund", "return"]

  /** Every message's content in lower case. */
  function LowerContents(ms: seq<ChatMessage>): (r: seq<string>)
    ensures |r| == |ms|
    ensures forall i :: 0 <= i < |ms| ==> r[i] == ToLower(ms[i].content)
  {
    if ms == [] then [] else [ToLower(ms[0].content)] + LowerContents(ms[1..])
  }

  /** The lower-cased contents joined with single spaces. */
  function AllText(ms: seq<ChatMessage>): string {
    Join(LowerContents(ms), " ")
  }

  predicate MentionsAny(text: string, words: seq<string>) {
    exists i :: 0 <= i < |words| && Includes(text, words[i])
  }

  /** The keyword rules, tried in this order; the first that matches wins. */
  function Categorize(text: string): (r: string)
    ensures r in {TechnicalIssue, Billing, Account, RefundReturn, GeneralInquiry}
    ensures r == TechnicalIssue <==> MentionsAny(text, TechnicalWords)
    ensures r == GeneralInquiry <==>
      && !MentionsAny(text, TechnicalWords) && !MentionsAny(text, BillingWords)
      && !MentionsAny(text, AccountWords) && !MentionsAny(text, RefundWords)
  {
    if MentionsAny(text, TechnicalWords) then TechnicalIssue
    else if MentionsAny(text, BillingWords) then Billing
    else if MentionsAny(text, AccountWords) then Account
    else if MentionsAny(text, RefundWords) then RefundReturn
    else GeneralInquiry
  }

  /** The position of a category in the rule order; the fallback comes last. */
  function Rank(category: string): nat {
    if category == TechnicalIssue then 0
    else if category == Billing then 1
    else if category == Account then 2
    else if category == RefundReturn then 3
    else 4
  }

  function ExtractCategory(ms: seq<ChatMessage>): (r: string)
    ensures r in {TechnicalIssue, Billing, Account, RefundReturn, GeneralInquiry}
    ensures r == TechnicalIssue <==> MentionsAny(AllText(ms), TechnicalWords)
  {
    Categorize(AllText(ms))
  }

  lemma MentionsExtend(a: string, t: string, words: seq<string>)
    requires MentionsAny(a, words)
    ensures MentionsAny(a + t, words)
  {
    var i :| 0 <= i < |words| && Includes(a, words[i]);
    IncludesExtend(a, words[i], t);
  }

  /** More text can only move the category earlier in the rule order. */
  lemma CategorizeExtend(a: string, t: string)
    ensures Rank(Categorize(a + t)) <= Rank(Categorize(a))
  {
    if MentionsAny(a, TechnicalWords) { MentionsExtend(a, t, TechnicalWords); }
    if MentionsAny(a, BillingWords) { MentionsExtend(a, t, BillingWords); }
    if MentionsAny(a, AccountWords) { MentionsExtend(a, t, AccountWords); }
    if MentionsAny(a, RefundWords) { MentionsExtend(a, t, RefundWords); }
  }

  lemma {:induction false} LowerContentsAppend(ms: seq<ChatMessage>, m: ChatMessage)
    ensures LowerContents(ms + [m]) == LowerContents(ms) + [ToLower(m.content)]
  {
    var l, r := LowerContents(ms + [m]), LowerContents(ms) + [ToLower(m.content)];
    assert |l| == |r|;
    forall i | 0 <= i < |l| ensures l[i] == r[i] {
      if i < |ms| {
        assert (ms + [m])[i] == ms[i];
      }
    }
  }

  /** Nothing is mentioned in an empty text. */
  lemma NothingInEmpty(words: seq<string>)
    requires forall i :: 0 <= i < |words| ==> words[i] != ""
    ensures !MentionsAny("", words)
  {
    forall i | 0 <= i < |words| ensures !Includes("", words[i]) {
      IncludesInEmpty(words[i]);
    }
  }

  /** An empty conversation is a general inquiry. */
  lemma EmptyChatGeneral()
    ensures ExtractCategory([]) == GeneralInquiry
  {
    assert AllText([]) == "";
    NothingInEmpty(TechnicalWords);
    NothingInEmpty(BillingWords);
    NothingInEmpty(AccountWords);
    NothingInEmpty(RefundWords);
  }

  lemma AllTextAppend(ms: seq<ChatMessage>, m: ChatMessage)
    requires ms != []
    ensures AllText(ms + [m]) == AllText(ms) + (" " + ToLower(m.content))
  {
    LowerContentsAppend(ms, m);
    JoinAppend(LowerContents(ms), ToLower(m.content), " ");
  }

  /** A later message never demotes the category: once a conversation
      mentions a keyword, it stays at that rule or an earlier one. */
  lemma CategoryNeverDemoted(ms: seq<ChatMessage>, m: ChatMessage)
    ensures Rank(ExtractCategory(ms + [m])) <= Rank(ExtractCategory(ms))
  {
    if ms == [] {
      EmptyChatGeneral();
    } else {
      AllTextAppend(ms, m);
      CategorizeExtend(AllText(ms), " " + ToLower(m.content));
    }
  }

  /** A keyword in any one message, in any case, is a mention in the whole
      conversation's text. */
  lemma KeywordAnywhere(ms: seq<ChatMessage>, i: nat, words: seq<string>, w: nat)
    requires i < |ms| && w < |words|
    requires Includes(ToLower(ms[i].content), words[w])
    ensures MentionsAny(AllText(ms), words)
  {
    JoinIncludes(LowerContents(ms), " ", i);
    IncludesTrans(AllText(ms), ToLower(ms[i].content), words[w]);
  }

  /** A technical keyword in any message, in any case, makes the ticket
      technical, whatever the other messages say. */
  lemma TechnicalAnywhere(ms: seq<ChatMessage>, i: nat, w: nat)
    requires i < |ms| && w < |TechnicalWords|
    requires Includes(ToLower(ms[i].content), TechnicalWords[w])
    ensures ExtractCategory(ms) == TechnicalIssue
  {
    KeywordAnywhere(ms, i, TechnicalWords, w);
  }

  /** A billing keyword makes a billing ticket unless a technical keyword
      occurs somewhere in the conversation. */
  lemma BillingUnlessTechnical(ms: seq<ChatMessage>, i: nat, w: nat)
    requires i < |ms| && w < |BillingWords|
    requires Includes(ToLower(ms[i].content), BillingWords[w])
    ensures ExtractCategory(ms) == Billing <==> !MentionsAny(AllText(ms), TechnicalWords)
  {
    KeywordAnywhere(ms, i, BillingWords, w);
  }

  /** An account keyword ("login", say) makes an account ticket exactly when
      no technical or billing keyword occurs in the conversation. */
  lemma AccountUnlessEarlierRule(ms: seq<ChatMessage>, i: nat, w: nat)
    requires i < |ms| && w < |AccountWords|
    requires Includes(ToLower(ms[i].content), AccountWords[w])
    ensures ExtractCategory(ms) == Account <==>
      !MentionsAny(AllText(ms), TechnicalWords) && !MentionsAny(AllText(ms), BillingWords)
  {
    KeywordAnywhere(ms, i, AccountWords, w);
  }

  /** A refund keyword makes a refund ticket exactly when no keyword of an
      earlier rule occurs in the conversation. */
  lemma RefundUnlessEarlierRule(ms: seq<ChatMessage>, i: nat, w: nat)
    requires i < |ms| && w < |RefundWords|
    requires Includes(ToLower(ms[i].content), RefundWords[w])
    ensures ExtractCategory(ms) == RefundReturn <==>
      !MentionsAny(AllText(ms), TechnicalWords) && !MentionsAny(AllText(ms), BillingWords)
      && !MentionsAny(AllText(ms), AccountWords)
  {
    KeywordAnywhere(ms, i, RefundWords, w);
  }

  /** The fallback is taken exactly when no rule's keyword occurs. */
  lemma GeneralWhenNoKeyword(ms: seq<ChatMessage>)
    ensures ExtractCategory(ms) == GeneralInquiry <==>
      && !MentionsAny(AllText(ms), TechnicalWords) && !MentionsAny(AllText(ms), BillingWords)
      && !MentionsAny(AllText(ms), AccountWords) && !MentionsAny(AllText(ms), RefundWords)
  {
  }

  /** The rules match substrings, not words: a message about a "tissue"
      makes a technical ticket, since it contains "issue". */
  lemma SubstringMatch(ms: seq<ChatMessage>, i: nat)
    requires i < |ms| && Includes(ToLower(ms[i].content), "tissue")
    ensures ExtractCategory(ms) == TechnicalIssue
  {
    IncludesInfix("t", "issue", "");
    assert "t" + "issue" + "" == "tissue";
    IncludesTrans(ToLower(ms[i].content), "tissue", "issue");
    TechnicalAnywhere(ms, i, 2);
  }

  datatype TicketInfo = TicketInfo(subject: string, description: string, category: string)

  /** `extractTicketInfoFromChat`. */
  function ExtractTicketInfo(ms: seq<ChatMessage>, render: Time -> string): (r: TicketInfo)
    ensures r.subject == Subject(ms)
    ensures r.description == Transcript(ms, render)
    ensures r.category == ExtractCategory(ms)
    ensures TranscriptHeader <= r.description
    ensures ms == [] ==> r.description == TranscriptHeader && r.subject == DefaultSubject
    ensures forall i :: 0 <= i < |ms| ==> Includes(r.description, ms[i].content)
    ensures r.category in {TechnicalIssue, Billing, Account, RefundReturn, GeneralInquiry}
  {
    var d := Transcript(ms, render);
    TranscriptPrefix(ms, 0, render);
    forall i | 0 <= i < |ms| ensures Includes(d, ms[i].content) {
      TranscriptMentions(ms, i, render);
    }
    TicketInfo(Subject(ms), d, ExtractCategory(ms))
  }

  /** The body `createTicketFromChat` posts, with its defaults: category
      "General Inquiry" and priority "medium". */
  function ChatTicketRequest(subject: string, description: string, category: Option<string>, priority: Option<Priority>): (req: CreateRequest)
    ensures req.subject == Some(subject) && req.description == Some(description)
    ensures req.category == Some(if category.Some? then category.value else GeneralInquiry)
    ensures req.priority == Some(PriorityName(if priority.Some? then priority.value else Medium))
  {
    CreateRequest(Some(subject), Some(description),
                  Some(IfDefined(category, GeneralInquiry)),
                  Some(PriorityName(IfDefined(priority, Medium))))
  }

  lemma CategoriesTrimmed(c: string)
    requires c in {TechnicalIssue, Billing, Account, RefundReturn, GeneralInquiry}
    ensures c != "" && Trim(c) == c
  {
    assert Trimmed(c);
  }

  /** A ticket made from a chat is accepted by the server as soon as its
      subject is not blank: the description and the category are never
      empty and the priority is a valid one. */
  lemma ChatTicketAccepted(db: map<string, Ticket>, actor: Actor, ms: seq<ChatMessage>, render: Time -> string,
                           priority: Option<Priority>, idNow: Time, draw: Draw, now: Time)
    requires !Blank(Subject(ms)) && actor.id != "" && GenerateTicketId(idNow, draw) !in db
    ensures var info := ExtractTicketInfo(ms, render);
      var r := CreateOutcome(db, actor, ChatTicketRequest(info.subject, info.description, Some(info.category), priority), idNow, draw, now);
      && r.Ok?
      && r.value.subject == Trim(info.subject)
      && r.value.description == info.description
      && r.value.category == info.category
      && r.value.priority == (if priority.Some? then priority.value else Medium)
  {
    var info := ExtractTicketInfo(ms, render);
    CategoriesTrimmed(info.category);
    PriorityNamesRoundTrip(if priority.Some? then priority.value else Medium);
    assert info.description != "" by {
      assert |TranscriptHeader| > 0;
    }
  }
}
