/** The admin FAQ page: the form's fields, the tag list typed as one
    comma-separated string, and the local list of FAQs updated after the
    server accepted a create, an edit or a delete. The requests themselves
    are not modelled; each handler is given the server's reply. */
module FaqManagement {
  import opened Http
  import opened Text
  import opened AdminRoutes

  const TagSeparator: string := ", "
  const InitialScore: real := 0.8
  const FailedToSave: string := "Failed to save FAQ"
  const ErrorSaving: string := "Error saving FAQ"
  const FailedToDelete: string := "Failed to delete FAQ"
  const ErrorDeleting: string := "Error deleting FAQ"
  const FailedToFetch: string := "Failed to fetch FAQs"
  const ErrorFetching: string := "Error fetching FAQs"

  /** A tag as the form produces it: non-empty, trimmed, without a comma. */
  predicate IsTag(t: string) {
    t != "" && Trimmed(t) && ',' !in t
  }

  predicate AllTags(ts: seq<string>) {
    forall i :: 0 <= i < |ts| ==> IsTag(ts[i])
  }

  /** `.filter(tag => tag)`: the non-empty strings, in order. */
  function DropEmpty(ps: seq<string>): (r: seq<string>)
    ensures |r| <= |ps|
    ensures forall i :: 0 <= i < |r| ==> r[i] != "" && r[i] in ps
    ensures (forall i :: 0 <= i < |ps| ==> ps[i] != "") ==> r == ps
    ensures forall x :: x in r <==> x in ps && x != ""
  {
    if ps == [] then []
    else if ps[0] == "" then DropEmpty(ps[1..])
    else [ps[0]] + DropEmpty(ps[1..])
  }

  /** The filter keeps the order of what it keeps: it distributes over
      concatenation. */
  lemma {:induction false} DropEmptyAppend(a: seq<string>, b: seq<string>)
    ensures DropEmpty(a + b) == DropEmpty(a) + DropEmpty(b)
    decreases |a|
  {
    if a == [] {
      assert a + b == b;
    } else {
      assert (a + b)[0] == a[0] && (a + b)[1..] == a[1..] + b;
      DropEmptyAppend(a[1..], b);
    }
  }

  lemma TrimmedPieceIsTag(p: string)
    requires ',' !in p && Trim(p) != ""
    ensures IsTag(Trim(p))
  {
    if ',' in Trim(p) {
      TrimKeepsChars(p, ',');
    }
  }

  lemma KeptIsTag(ps: seq<string>, x: string)
    requires forall i :: 0 <= i < |ps| ==> ',' !in ps[i]
    requires x in TrimAll(ps) && x != ""
    ensures IsTag(x)
  {
    var j :| 0 <= j < |ps| && TrimAll(ps)[j] == x;
    TrimmedPieceIsTag(ps[j]);
  }

  /** Trimmed comma-free pieces, the empty ones dropped, are tags. */
  lemma PiecesAreTags(ps: seq<string>)
    requires forall i :: 0 <= i < |ps| ==> ',' !in ps[i]
    ensures AllTags(DropEmpty(TrimAll(ps)))
  {
    var r := DropEmpty(TrimAll(ps));
    forall i | 0 <= i < |r| ensures IsTag(r[i]) {
      KeptIsTag(ps, r[i]);
    }
  }

  /** `tags.split(',').map(tag => tag.trim()).filter(tag => tag)`. */
  function ParseTags(s: string): (r: seq<string>)
    ensures AllTags(r)
  {
    PiecesAreTags(Split(s, ','));
    DropEmpty(TrimAll(Split(s, ',')))
  }

  /** `faq.tags.join(', ')`. */
  function JoinTags(ts: seq<string>): (r: string)
    ensures ts == [] ==> r == ""
    ensures |ts| == 1 ==> r == ts[0]
    ensures forall i :: 0 <= i < |ts| ==> Includes(r, ts[i])
  {
    JoinTagsIncludes(ts);
    Join(ts, TagSeparator)
  }

  lemma JoinTagsIncludes(ts: seq<string>)
    ensures forall i :: 0 <= i < |ts| ==> Includes(Join(ts, TagSeparator), ts[i])
  {
    forall i | 0 <= i < |ts| ensures Includes(Join(ts, TagSeparator), ts[i]) {
      JoinIncludes(ts, TagSeparator, i);
    }
  }

  /** Each tag after the first, with the space the separator leaves before it. */
  function Spaced(ts: seq<string>): (r: seq<string>)
    ensures |r| == |ts|
    ensures forall i :: 0 <= i < |ts| ==> r[i] == " " + ts[i]
  {
    if ts == [] then [] else [" " + ts[0]] + Spaced(ts[1..])
  }

  lemma {:induction false} SplitJoined(p: string, ts: seq<string>)
    requires ',' !in p && |ts| >= 1 && AllTags(ts)
    ensures Split(p + JoinTags(ts), ',') == [p + ts[0]] + Spaced(ts[1..])
    decreases |ts|
  {
    if |ts| == 1 {
      assert JoinTags(ts) == ts[0];
      SplitNoSeparator(p + ts[0], ',');
    } else {
      var rest := " " + JoinTags(ts[1..]);
      assert p + JoinTags(ts) == (p + ts[0]) + [','] + rest;
      SplitAfterPiece(p + ts[0], ',', rest);
      assert AllTags(ts[1..]) by {
        forall i | 0 <= i < |ts[1..]| ensures IsTag(ts[1..][i]) {
          assert ts[1..][i] == ts[i + 1];
        }
      }
      SplitJoined(" ", ts[1..]);
      assert [" " + ts[1..][0]] + Spaced(ts[1..][1..]) == Spaced(ts[1..]);
    }
  }

  lemma TrimPieces(ts: seq<string>)
    requires |ts| >= 1 && AllTags(ts)
    ensures TrimAll([ts[0]] + Spaced(ts[1..])) == ts
  {
    var pieces := [ts[0]] + Spaced(ts[1..]);
    forall i | 0 <= i < |pieces| ensures Trim(pieces[i]) == ts[i] {
      if i > 0 {
        assert pieces[i] == [' '] + ts[i];
        TrimLeadingSpace(' ', ts[i]);
      }
    }
  }

  lemma ParseTagsUnfold(s: string)
    ensures ParseTags(s) == DropEmpty(TrimAll(Split(s, ',')))
  {
  }

  lemma NoTags()
    ensures ParseTags(JoinTags([])) == []
  {
    assert JoinTags([]) == "";
    assert Split("", ',') == [""];
    assert TrimAll([""]) == [""];
  }

  /** The tags an FAQ is edited with come back unchanged when the form is
      submitted: parsing the joined tags gives the original list. */
  lemma TagsRoundTrip(ts: seq<string>)
    requires AllTags(ts)
    ensures ParseTags(JoinTags(ts)) == ts
  {
    if ts == [] {
      NoTags();
    } else {
      var s := JoinTags(ts);
      SplitJoined("", ts);
      assert "" + s == s && "" + ts[0] == ts[0];
      var pieces := Split(s, ',');
      assert pieces == [ts[0]] + Spaced(ts[1..]);
      TrimPieces(ts);
      assert TrimAll(pieces) == ts;
      assert DropEmpty(ts) == ts;
      ParseTagsUnfold(s);
    }
  }

  /** Parsing what was parsed and joined changes nothing more. */
  lemma ParseJoinParse(s: string)
    ensures ParseTags(JoinTags(ParseTags(s))) == ParseTags(s)
  {
    TagsRoundTrip(ParseTags(s));
  }

  /** `[newFaq, ...faqs]`, the definition `FaqPage.HandleSubmit` uses after a create. */
  function Prepend(f: Faq, faqs: seq<Faq>): (r: seq<Faq>)
    ensures |r| == |faqs| + 1 && r[0] == f && r[1..] == faqs
  {
    [f] + faqs
  }

  /** `faqs.map(faq => faq._id === newFaq._id ? newFaq : faq)`. */
  function ReplaceById(faqs: seq<Faq>, f: Faq): (r: seq<Faq>)
    ensures |r| == |faqs|
    ensures forall i :: 0 <= i < |faqs| && faqs[i].id == f.id ==> r[i] == f
    ensures forall i :: 0 <= i < |faqs| && faqs[i].id != f.id ==> r[i] == faqs[i]
  {
    if faqs == [] then []
    else [if faqs[0].id == f.id then f else faqs[0]] + ReplaceById(faqs[1..], f)
  }

  /** `faqs.filter(faq => faq._id !== id)`. */
  function RemoveById(faqs: seq<Faq>, id: string): (r: seq<Faq>)
    ensures forall x :: x in r <==> x in faqs && x.id != id
    ensures |r| <= |faqs|
  {
    if faqs == [] then []
    else if faqs[0].id == id then RemoveById(faqs[1..], id)
    else [faqs[0]] + RemoveById(faqs[1..], id)
  }

  /** Removal keeps the order of what stays: it distributes over concatenation. */
  lemma {:induction false} RemoveByIdAppend(a: seq<Faq>, b: seq<Faq>, id: string)
    ensures RemoveById(a + b, id) == RemoveById(a, id) + RemoveById(b, id)
  {
    if a != [] {
      assert (a + b)[0] == a[0];
      assert (a + b)[1..] == a[1..] + b;
      RemoveByIdAppend(a[1..], b, id);
      if a[0].id != id {
        assert RemoveById(a + b, id) == [a[0]] + RemoveById(a[1..] + b, id);
        assert [a[0]] + (RemoveById(a[1..], id) + RemoveById(b, id)) == ([a[0]] + RemoveById(a[1..], id)) + RemoveById(b, id);
      }
    } else {
      assert a + b == b;
    }
  }

  /** Removing an id that is not in the list changes nothing. */
  lemma {:induction false} RemoveAbsent(faqs: seq<Faq>, id: string)
    requires forall i :: 0 <= i < |faqs| ==> faqs[i].id != id
    ensures RemoveById(faqs, id) == faqs
  {
    if faqs != [] {
      var t := faqs[1..];
      forall i | 0 <= i < |t| ensures t[i].id != id {
        assert t[i] == faqs[i + 1];
      }
      RemoveAbsent(t, id);
      assert faqs == [faqs[0]] + t;
      RemoveKeepsHead(faqs[0], t, id);
    }
  }

  lemma RemoveKeepsHead(f: Faq, t: seq<Faq>, id: string)
    requires f.id != id
    ensures RemoveById([f] + t, id) == [f] + RemoveById(t, id)
  {
    assert ([f] + t)[0] == f && ([f] + t)[1..] == t;
  }

  /** What the form submits. */
  datatype FaqData = FaqData(
    question: string,
    answer: string,
    category: string,
    tags: seq<string>,
    isActive: bool,
    aiConfidenceScore: real)

  /** The server's answer to a save or a delete: accepted (with the saved
      FAQ for a save), refused, or no answer at all. */
  datatype SaveReply = Saved(faq: Faq) | Refused | Unreachable
  datatype DeleteReply = Deleted | DeleteRefused | DeleteUnreachable
  datatype LoadReply = Loaded(list: seq<Faq>) | LoadRefused | LoadUnreachable

  class FaqPage {
    var faqs: seq<Faq>
    var error: Option<string>
    var showForm: bool
    var editingFaq: Option<Faq>
    var question: string
    var answer: string
    var category: string
    var tags: string
    var isActive: bool
    var aiConfidenceScore: real

    /** The form as `resetForm` leaves it. */
    ghost predicate FormCleared()
      reads this
    {
      && question == "" && answer == "" && category == "" && tags == ""
      && isActive && aiConfidenceScore == InitialScore
      && editingFaq.None? && !showForm
    }

    /** The page as first rendered, once the initial fetch of the FAQ list
        has been answered. */
    constructor (reply: LoadReply)
      ensures FormCleared()
      ensures reply.Loaded? ==> faqs == reply.list && error.None?
      ensures !reply.Loaded? ==> faqs == [] && error == Some(if reply.LoadRefused? then FailedToFetch else ErrorFetching)
    {
      question, answer, category, tags := "", "", "", "";
      isActive := true;
      aiConfidenceScore := InitialScore;
      editingFaq := None;
      showForm := false;
      match reply
      case Loaded(list) =>
        faqs := list;
        error := None;
      case LoadRefused =>
        faqs := [];
        error := Some(FailedToFetch);
      case LoadUnreachable =>
        faqs := [];
        error := Some(ErrorFetching);
    }

    /** `resetForm`. */
    method ResetForm()
      modifies this
      ensures FormCleared()
      ensures faqs == old(faqs) && error == old(error)
    {
      question, answer, category, tags := "", "", "", "";
      isActive := true;
      aiConfidenceScore := InitialScore;
      editingFaq := None;
      showForm := false;
    }

    /** The "Add New FAQ" button: an empty form for a new FAQ. */
    method OpenNewForm()
      modifies this
      ensures question == "" && answer == "" && category == "" && tags == ""
      ensures isActive && aiConfidenceScore == InitialScore && editingFaq.None? && showForm
      ensures faqs == old(faqs) && error == old(error)
    {
      ResetForm();
      showForm := true;
    }

    /** `handleEdit`: the form is filled from the FAQ, tags joined by ", ". */
    method HandleEdit(f: Faq)
      modifies this
      ensures editingFaq == Some(f) && showForm
      ensures question == f.question && answer == f.answer && category == f.category
      ensures tags == JoinTags(f.tags)
      ensures isActive == f.isActive && aiConfidenceScore == f.aiConfidenceScore
      ensures faqs == old(faqs) && error == old(error)
    {
      editingFaq := Some(f);
      question := f.question;
      answer := f.answer;
      category := f.category;
      tags := JoinTags(f.tags);
      isActive := f.isActive;
      aiConfidenceScore := f.aiConfidenceScore;
      showForm := true;
    }

    /** The body `handleSubmit` sends. */
    function Submission(): (d: FaqData)
      reads this
      ensures d.tags == ParseTags(tags) && AllTags(d.tags)
      ensures d.question == question && d.answer == answer && d.category == category
      ensures d.isActive == isActive && d.aiConfidenceScore == aiConfidenceScore
    {
      FaqData(question, answer, category, ParseTags(tags), isActive, aiConfidenceScore)
    }

    /** `handleSubmit` once the server has answered: an accepted edit replaces
        the FAQ with the same id, an accepted create is put first, and either
        resets the form; otherwise an error is shown and the form kept. */
    method HandleSubmit(reply: SaveReply)
      modifies this
      ensures reply.Saved? ==> FormCleared() && error == old(error)
      ensures reply.Saved? && old(editingFaq).Some? ==> faqs == ReplaceById(old(faqs), reply.faq)
      ensures reply.Saved? && old(editingFaq).None? ==> faqs == Prepend(reply.faq, old(faqs))
      ensures !reply.Saved? ==>
        && error == Some(if reply.Refused? then FailedToSave else ErrorSaving)
        && faqs == old(faqs) && editingFaq == old(editingFaq) && showForm == old(showForm)
        && question == old(question) && answer == old(answer) && category == old(category)
        && tags == old(tags) && isActive == old(isActive) && aiConfidenceScore == old(aiConfidenceScore)
    {
      match reply
      case Saved(f) =>
        if editingFaq.Some? {
          faqs := ReplaceById(faqs, f);
        } else {
          faqs := Prepend(f, faqs);
        }
        ResetForm();
      case Refused =>
        error := Some(FailedToSave);
      case Unreachable =>
        error := Some(ErrorSaving);
    }

    /** `handleDelete`: nothing happens unless the deletion is confirmed;
        an accepted delete drops every FAQ with that id. */
    method HandleDelete(id: string, confirmed: bool, reply: DeleteReply)
      modifies this
      ensures !confirmed ==> faqs == old(faqs) && error == old(error)
      ensures confirmed && reply.Deleted? ==> faqs == RemoveById(old(faqs), id) && error == old(error)
      ensures confirmed && !reply.Deleted? ==>
        faqs == old(faqs) && error == Some(if reply.DeleteRefused? then FailedToDelete else ErrorDeleting)
      ensures showForm == old(showForm) && editingFaq == old(editingFaq) && tags == old(tags)
      ensures question == old(question) && answer == old(answer) && category == old(category)
      ensures isActive == old(isActive) && aiConfidenceScore == old(aiConfidenceScore)
    {
      if !confirmed {
        return;
      }
      match reply
      case Deleted =>
        faqs := RemoveById(faqs, id);
      case DeleteRefused =>
        error := Some(FailedToDelete);
      case DeleteUnreachable =>
        error := Some(ErrorDeleting);
    }
  }

  /** A page whose form holds what `HandleEdit(f)` put there submits `f`'s
      own content, tags included, whenever those tags are ones the form could
      have produced: editing and submitting untouched changes nothing. */
  lemma EditSubmitsSame(p: FaqPage, f: Faq)
    requires AllTags(f.tags)
    requires p.question == f.question && p.answer == f.answer && p.category == f.category
    requires p.tags == JoinTags(f.tags)
    requires p.isActive == f.isActive && p.aiConfidenceScore == f.aiConfidenceScore
    ensures p.Submission() == FaqData(f.question, f.answer, f.category, f.tags, f.isActive, f.aiConfidenceScore)
  {
    TagsRoundTrip(f.tags);
  }
}
