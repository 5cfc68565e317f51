/** Properties of whole runs of the `run_command` loop (oscontrol.py:62-81). */
module OsControlProps {
  import opened Wrappers
  import opened PyStr
  import opened OsControl

  /** All the text the child yields before its end of file, in order. */
  function Transcript(events: seq<Read>): string {
    if events == [] then ""
    else
      match events[0]
      case Eof => ""
      case Output(text) => text + Transcript(events[1..])
  }

  /** While the child prints only whitespace, the callback is never consulted:
      nothing is sent, nobody is asked, and the buffer keeps every byte. */
  lemma {:induction false} QuietRun(s: Session, llm: string -> Decision, events: seq<Read>, replies: seq<string>)
    requires AllSpace(s.buffer + Transcript(events))
    ensures var r := Run(s, llm, events, replies);
      && r.last.consulted == s.consulted
      && r.last.sent == s.sent
      && r.last.asked == s.asked
      && r.last.buffer == s.buffer + Transcript(events)
      && !r.ending.Raised?
    decreases |events|
  {
    if events != [] && events[0].Output? {
      var text := events[0].text;
      var rest := events[1..];
      assert s.buffer + Transcript(events) == (s.buffer + text) + Transcript(rest);
      AllSpaceConcat(s.buffer + text, Transcript(rest));
      QuietRun(s.(buffer := s.buffer + text), llm, rest, replies);
    }
  }

  /** As long as no line has gone to the child, no output is lost: the buffer
      is the old buffer followed by everything the child printed. */
  lemma {:induction false} NothingSentNothingLost(s: Session, llm: string -> Decision, events: seq<Read>, replies: seq<string>)
    ensures var r := Run(s, llm, events, replies);
      !r.ending.Raised? && r.last.sent == s.sent ==> r.last.buffer == s.buffer + Transcript(events)
    decreases |events|
  {
    if events != [] && events[0].Output? {
      var text := events[0].text;
      var e := Feed(s, llm, text, NextReply(replies));
      if e.fault.None? {
        var replies' := RunOutputStep(s, llm, events, replies);
        NothingSentNothingLost(e.next, llm, events[1..], replies');
        var r := Run(e.next, llm, events[1..], replies');
        if !r.ending.Raised? {
          assert Transcript(events) == text + Transcript(events[1..]);
          QuietStepAppends(s, e.next, r.last, text, Transcript(events[1..]));
        }
      }
    }
  }

  /** The inductive step of `NothingSentNothingLost`: a read that wrote
      nothing appended its text, and so the later reads keep it. */
  lemma QuietStepAppends(before: Session, after: Session, last: Session, text: string, later: string)
    requires after.sent == before.sent ==> after.buffer == before.buffer + text
    requires before.sent <= after.sent <= last.sent
    requires last.sent == after.sent ==> last.buffer == after.buffer + later
    ensures last.sent == before.sent ==> last.buffer == before.buffer + (text + later)
  {
  }

  /** A read that raises nothing hands the rest of the run the state after it,
      and the replies the human has not used yet. */
  lemma RunOutputStep(s: Session, llm: string -> Decision, events: seq<Read>, replies: seq<string>)
    returns (replies': seq<string>)
    requires events != [] && events[0].Output?
    requires Feed(s, llm, events[0].text, NextReply(replies)).fault.None?
    ensures var e := Feed(s, llm, events[0].text, NextReply(replies));
      && replies' == (if e.next.asked != s.asked then replies[1..] else replies)
      && Run(s, llm, events, replies) == Run(e.next, llm, events[1..], replies')
  {
    var e := Feed(s, llm, events[0].text, NextReply(replies));
    replies' := if e.next.asked != s.asked then replies[1..] else replies;
  }

  /** `a` is a suffix of `b`. */
  predicate IsSuffix(a: string, b: string) {
    |a| <= |b| && b[|b| - |a|..] == a
  }

  /** Unless an exception ended the run, the buffer at its end is a suffix of
      the old buffer followed by everything the child printed: output is only
      ever dropped from the front, when a line is written. */
  lemma {:induction false} BufferIsSuffixOfOutput(s: Session, llm: string -> Decision, events: seq<Read>, replies: seq<string>)
    ensures var r := Run(s, llm, events, replies);
      !r.ending.Raised? ==> IsSuffix(r.last.buffer, s.buffer + Transcript(events))
    decreases |events|
  {
    if events == [] || events[0].Eof? {
      assert s.buffer + Transcript(events) == s.buffer;
    } else {
      var text := events[0].text;
      var e := Feed(s, llm, text, NextReply(replies));
      if e.fault.None? {
        var replies' := RunOutputStep(s, llm, events, replies);
        BufferIsSuffixOfOutput(e.next, llm, events[1..], replies');
        var r := Run(e.next, llm, events[1..], replies');
        if !r.ending.Raised? {
          assert Transcript(events) == text + Transcript(events[1..]);
          StepKeepsSuffix(s.buffer, e.next.buffer, r.last.buffer, text, Transcript(events[1..]));
        }
      }
    }
  }

  /** The inductive step of `BufferIsSuffixOfOutput`: a read either appends
      its text to the buffer (`after == before + text`) or clears it. */
  lemma StepKeepsSuffix(before: string, after: string, last: string, text: string, later: string)
    requires after == before + text || after == ""
    requires IsSuffix(last, after + later)
    ensures IsSuffix(last, before + (text + later))
  {
    var head := before + text;
    assert before + (text + later) == head + later;
    if after == "" {
      assert after + later == later;
      var k := |later| - |last|;
      assert (head + later)[|head| + k..] == later[k..];
    } else {
      assert after + later == head + later;
    }
  }

  /** Nothing after the end of file is ever read. */
  lemma {:induction false} ReadsAfterEofIgnored(s: Session, llm: string -> Decision, before: seq<Read>, after: seq<Read>, replies: seq<string>)
    ensures Run(s, llm, before + [Eof] + after, replies) == Run(s, llm, before + [Eof], replies)
    decreases |before|
  {
    if before == [] {
      assert (before + [Eof] + after)[0] == Eof;
    } else {
      assert (before + [Eof] + after)[0] == before[0];
      assert (before + [Eof] + after)[1..] == before[1..] + [Eof] + after;
      assert (before + [Eof])[1..] == before[1..] + [Eof];
      if before[0].Output? {
        var e := Feed(s, llm, before[0].text, NextReply(replies));
        if e.fault.None? {
          var replies' := if e.next.asked != s.asked then replies[1..] else replies;
          ReadsAfterEofIgnored(e.next, llm, before[1..], after, replies');
        }
      }
    }
  }

  /** A prompt_user decision: the human is asked once, with echo off exactly
      for a "password" input type, and the child receives their reply with
      the surrounding whitespace removed; the buffer is then empty. */
  lemma PromptScenario(llm: string -> Decision, text: string, message: string, inputType: Option<string>, reply: string)
    requires !AllSpace(text)
    requires llm(text) == Decision(Some("prompt_user"), Some(message), inputType, None)
    ensures Run(EmptySession, llm, [Output(text)], [reply])
         == Outcome(Session("", [Strip(reply)], [Ask(PromptText(message), inputType == Some("password"))], [], [text]), Pending)
  {
    assert EmptySession.buffer + text == text;
  }

  /** The password example: the reply " secret123\t" reaches the child as
      "secret123". */
  lemma PasswordExample(llm: string -> Decision)
    requires llm("Password:") == Decision(Some("prompt_user"), Some("Enter password"), Some("password"), None)
    ensures var r := Run(EmptySession, llm, [Output("Password:")], [" secret123\t"]);
      r.last.sent == ["secret123"] && r.last.asked == [Ask(PromptText("Enter password"), true)]
  {
    assert !AllSpace("Password:") by {
      assert "Password:"[0] == 'P';
    }
    PromptScenario(llm, "Password:", "Enter password", Some("password"), " secret123\t");
    StripSecret();
  }

  /** `" secret123\t".strip() == "secret123"`. */
  lemma StripSecret()
    ensures Strip(" secret123\t") == "secret123"
  {
    assert " secret123\t" == " " + "secret123" + "\t";
    StripIsCore(" secret123\t", " ", "secret123", "\t");
  }

  /** A send_input decision: the suggested input goes to the child exactly as
      given, nobody is asked, and the end of file then completes the run. */
  lemma AutoAnswerScenario(llm: string -> Decision, text: string, line: string)
    requires !AllSpace(text)
    requires llm(text) == Decision(Some("send_input"), None, None, Some(line))
    ensures Run(EmptySession, llm, [Output(text), Eof], [])
         == Outcome(Session("", [line], [], [DoneText], [text]), Completed)
  {
    assert EmptySession.buffer + text == text;
  }

  /** A send_input decision without "suggested_input" raises KeyError before
      anything is written, and the buffer keeps the output. */
  lemma MissingSuggestionScenario(llm: string -> Decision, text: string)
    requires !AllSpace(text)
    requires llm(text) == Decision(Some("send_input"), None, None, None)
    ensures Run(EmptySession, llm, [Output(text)], [])
         == Outcome(Session(text, [], [], [], [text]), Raised(KeyError("suggested_input")))
  {
    assert EmptySession.buffer + text == text;
  }

  /** A wait decision does nothing: the buffer is kept, and the end of file
      then completes the run without consulting the callback again. */
  lemma WaitScenario(llm: string -> Decision, text: string)
    requires !AllSpace(text)
    requires llm(text) == Decision(Some("wait"), None, None, None)
    ensures Run(EmptySession, llm, [Output(text), Eof], [])
         == Outcome(Session(text, [], [], [DoneText], [text]), Completed)
  {
    assert EmptySession.buffer + text == text;
  }

  /** An error decision prints its message and keeps the buffer, so the next
      decision sees the earlier output followed by the new. */
  lemma ErrorScenario(llm: string -> Decision, first: string, second: string, message: string)
    requires !AllSpace(first)
    requires llm(first) == Decision(Some("error"), Some(message), None, None)
    requires llm(first + second) == Decision(Some("wait"), None, None, None)
    ensures Run(EmptySession, llm, [Output(first), Output(second)], [])
         == Outcome(Session(first + second, [], [], [ErrorText(message)], [first, first + second]), Pending)
  {
    var events := [Output(first), Output(second)];
    assert EmptySession.buffer + first == first;
    var e1 := Feed(EmptySession, llm, first, None);
    assert e1 == Effect(Session(first, [], [], [ErrorText(message)], [first]), None);
    var _ := RunOutputStep(EmptySession, llm, events, []);
    assert events[1..] == [Output(second)];
    AllSpaceConcat(first, second);
    var e2 := Feed(e1.next, llm, second, None);
    assert e2 == Effect(Session(first + second, [], [], [ErrorText(message)], [first, first + second]), None);
    var _ := RunOutputStep(e1.next, llm, [Output(second)], []);
  }
}
