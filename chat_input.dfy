/** The chat input box: what it holds, when it sends, and the typing
    notifications it raises. The callbacks it is given are modelled by the
    log of calls made to them. */
module ChatInput {
  import opened Text

  datatype Output = Sent(content: string) | TypingStarted | TypingStopped

  /** The typing notifications in a log, in order: true for a start. */
  function TypingLog(out: seq<Output>): (r: seq<bool>)
    ensures |r| <= |out|
  {
    if out == [] then []
    else
      var last := out[|out| - 1];
      TypingLog(out[..|out| - 1]) + (if last.TypingStarted? then [true] else if last.TypingStopped? then [false] else [])
  }

  lemma TypingLogAppend(out: seq<Output>, o: Output)
    ensures TypingLog(out + [o]) ==
      TypingLog(out) + (if o.TypingStarted? then [true] else if o.TypingStopped? then [false] else [])
  {
    assert (out + [o])[..|out|] == out;
  }

  /** Starts and stops strictly alternate, beginning with a start. */
  predicate Alternating(s: seq<bool>) {
    forall i :: 0 <= i < |s| ==> s[i] == (i % 2 == 0)
  }

  /** A notification keeps the log alternating exactly when it is a start
      after an even number of notifications, a stop after an odd number. */
  lemma AlternatingPush(s: seq<bool>, b: bool)
    requires Alternating(s)
    ensures Alternating(s + [b]) <==> b == (|s| % 2 == 0)
  {
    if b == (|s| % 2 == 0) {
      forall i | 0 <= i < |s + [b]| ensures (s + [b])[i] == (i % 2 == 0) {
        if i < |s| {
          assert (s + [b])[i] == s[i];
        }
      }
    } else {
      assert (s + [b])[|s|] == b;
    }
  }

  /** Nothing blank is ever sent. */
  predicate NoBlankSent(out: seq<Output>) {
    forall i :: 0 <= i < |out| && out[i].Sent? ==> !Blank(out[i].content)
  }

  /** What the component keeps true of its log and its typing flag: the flag
      says whether the last notification was a start, notifications
      alternate, and nothing blank is ever sent. */
  predicate Consistent(out: seq<Output>, typing: bool) {
    && Alternating(TypingLog(out))
    && (typing <==> |TypingLog(out)| % 2 == 1)
    && NoBlankSent(out)
  }

  /** A start while not typing, or a stop while typing, keeps the log
      consistent with the flag turned over. */
  lemma Notify(out: seq<Output>, start: bool)
    requires Consistent(out, !start)
    ensures Consistent(out + [if start then TypingStarted else TypingStopped], start)
  {
    var o := if start then TypingStarted else TypingStopped;
    TypingLogAppend(out, o);
    AlternatingPush(TypingLog(out), start);
    forall i | 0 <= i < |out + [o]| && (out + [o])[i].Sent? ensures !Blank((out + [o])[i].content) {
      assert i < |out| && (out + [o])[i] == out[i];
    }
  }

  /** Sending a non-blank message leaves the typing notifications alone. */
  lemma SendKeeps(out: seq<Output>, typing: bool, c: string)
    requires Consistent(out, typing) && !Blank(c)
    ensures Consistent(out + [Sent(c)], typing)
  {
    TypingLogAppend(out, Sent(c));
    forall i | 0 <= i < |out + [Sent(c)]| && (out + [Sent(c)])[i].Sent? ensures !Blank((out + [Sent(c)])[i].content) {
      if i < |out| {
        assert (out + [Sent(c)])[i] == out[i];
      }
    }
  }

  class Input {
    var message: string
    var isTyping: bool
    var emitted: seq<Output>

    ghost predicate Valid()
      reads this
    {
      Consistent(emitted, isTyping)
    }

    constructor ()
      ensures Valid()
      ensures message == "" && !isTyping && emitted == []
    {
      message := "";
      isTyping := false;
      emitted := [];
    }

    /** The send button is enabled exactly when the text is not blank. */
    function CanSend(): bool
      reads this
    {
      Trim(message) != ""
    }

    /** `handleSend`: a non-blank message is sent as typed, untrimmed, and
        the box is cleared; the typing flag is left as it was. */
    method HandleSend()
      requires Valid()
      modifies this
      ensures Valid()
      ensures old(CanSend()) ==> emitted == old(emitted) + [Sent(old(message))] && message == ""
      ensures !old(CanSend()) ==> emitted == old(emitted) && message == old(message)
      ensures isTyping == old(isTyping)
    {
      if Trim(message) != "" {
        SendKeeps(emitted, isTyping, message);
        emitted := emitted + [Sent(message)];
        message := "";
      }
    }

    /** `handleKeyPress`: Enter without Shift sends. */
    method HandleKeyPress(key: string, shiftKey: bool)
      requires Valid()
      modifies this
      ensures Valid()
      ensures key == "Enter" && !shiftKey && old(CanSend()) ==>
        emitted == old(emitted) + [Sent(old(message))] && message == ""
      ensures !(key == "Enter" && !shiftKey && old(CanSend())) ==>
        emitted == old(emitted) && message == old(message)
      ensures isTyping == old(isTyping)
    {
      if key == "Enter" && !shiftKey {
        HandleSend();
      }
    }

    /** `handleChange`: the new text is kept; typing starts when it becomes
        non-blank and stops when it becomes blank. */
    method HandleChange(value: string)
      requires Valid()
      modifies this
      ensures Valid()
      ensures message == value
      ensures isTyping == (Trim(value) != "")
      ensures Trim(value) != "" && !old(isTyping) ==> emitted == old(emitted) + [TypingStarted]
      ensures Trim(value) == "" && old(isTyping) ==> emitted == old(emitted) + [TypingStopped]
      ensures (Trim(value) != "") == old(isTyping) ==> emitted == old(emitted)
    {
      message := value;
      var typed := Trim(value) != "";
      if typed && !isTyping {
        Notify(emitted, true);
        emitted := emitted + [TypingStarted];
        isTyping := true;
      } else if !typed && isTyping {
        Notify(emitted, false);
        emitted := emitted + [TypingStopped];
        isTyping := false;
      }
    }

    /** `handleBlur`: leaving the box ends a typing notification. */
    method HandleBlur()
      requires Valid()
      modifies this
      ensures Valid()
      ensures !isTyping && message == old(message)
      ensures emitted == if old(isTyping) then old(emitted) + [TypingStopped] else old(emitted)
    {
      if isTyping {
        Notify(emitted, false);
        emitted := emitted + [TypingStopped];
        isTyping := false;
      }
    }
  }
}
