/**
  The buffer-and-dispatch state machine of `LLMAgent` (oscontrol.py).

  The agent accumulates the text a child process prints in an output
  buffer. Whenever the buffer holds something other than whitespace it asks a
  decision callback (an LLM, opaque here) for a dictionary and acts on its
  "action" entry: ask a human and forward the stripped reply, forward the
  suggested input, print an error, or do nothing.

  The effects that cannot be observed from Dafny are kept in ghost logs: the
  lines written to the child (`child.sendline`), the questions put to the
  human (`getpass.getpass` / `input`), the lines printed (`print`), and the
  buffers the callback was consulted on.
 */
module OsControl {
  import opened Wrappers
  import opened PyStr

  /** The dictionary the decision callback returns. A `None` field is a key
      the dictionary does not hold; reading it with `d[key]` raises KeyError. */
  datatype Decision = Decision(
    action: Option<string>,
    message: Option<string>,
    inputType: Option<string>,
    suggestedInput: Option<string>)

  /** A question put to the human: the prompt shown and whether echo is off
      (`getpass.getpass` rather than `input`). */
  datatype Ask = Ask(prompt: string, masked: bool)

  /** The exceptions that escape `_handle_output` and end `run_command`:
      a missing dictionary key, or end of input on the human's terminal. */
  datatype Fault = KeyError(key: string) | InputEof

  /** The agent's observable state: the output buffer and the four logs. */
  datatype Session = Session(
    buffer: string,
    sent: seq<string>,
    asked: seq<Ask>,
    shown: seq<string>,
    consulted: seq<string>)

  /** The state after one handling step, and the exception it raised if any. */
  datatype Effect = Effect(next: Session, fault: Option<Fault>)

  /** One attempt to read from the child: the text it yielded, or end of file. */
  datatype Read = Output(text: string) | Eof

  /** How `run_command` stops: the child reached end of file, an exception
      escaped, or the reads given ran out while the loop would go on. */
  datatype Ending = Completed | Raised(fault: Fault) | Pending

  datatype Outcome = Outcome(last: Session, ending: Ending)

  /** The process the agent has spawned and talks to. */
  datatype Child = Child(command: string)

  const Tag := "\n[AGENT] "
  const DoneText := Tag + "Command execution completed"

  const EmptySession := Session("", [], [], [], [])

  function PromptText(message: string): string {
    Tag + message + ": "
  }

  function ErrorText(message: string): string {
    Tag + "Error detected: " + message
  }

  /** The human's next reply, or `None` once their input is exhausted. */
  function NextReply(replies: seq<string>): Option<string> {
    if |replies| > 0 then Some(replies[0]) else None
  }

  /** What `_handle_output` does for an "action" value: the branches of its
      `if`/`elif` chain, with no `else`. */
  datatype Action = PromptUser | SendInput | ReportError | Ignore

  /** The `if`/`elif` chain comparing `analysis["action"]` with the three
      action names it knows; every other value falls through. */
  function Classify(action: string): (k: Action)
    ensures k == PromptUser <==> action == "prompt_user"
    ensures k == SendInput <==> action == "send_input"
    ensures k == ReportError <==> action == "error"
  {
    if action == "prompt_user" then PromptUser
    else if action == "send_input" then SendInput
    else if action == "error" then ReportError
    else Ignore
  }

  /** The branch a decision selects, or `None` when it has no "action" key. */
  function ActionOf(d: Decision): Option<Action> {
    match d.action
    case None => None
    case Some(action) => Some(Classify(action))
  }

  /** `_handle_output`: consult the callback on the buffer and dispatch on
      the decision's "action"; `reply` is what the human types if asked. */
  function Handle(s: Session, llm: string -> Decision, reply: Option<string>): (r: Effect)
    // the callback is consulted exactly once, on the whole buffer
    ensures r.next.consulted == s.consulted + [s.buffer]
    // the child receives at most one new line
    ensures s.sent <= r.next.sent && |r.next.sent| <= |s.sent| + 1
    // the buffer is cleared exactly when a line was written, and kept otherwise
    ensures r.next.buffer == if r.next.sent == s.sent then s.buffer else ""
    // an exception leaves the child and the buffer as they were
    ensures r.fault.Some? ==> r.next.sent == s.sent && r.next.buffer == s.buffer
    // a missing key is raised before the human is asked or anything is printed
    ensures r.fault.Some? && r.fault.value.KeyError? ==> r.next.asked == s.asked && r.next.shown == s.shown
    // the human is asked at most once, and only on prompt_user
    ensures s.asked <= r.next.asked && |r.next.asked| <= |s.asked| + 1
    ensures r.next.asked != s.asked ==> ActionOf(llm(s.buffer)) == Some(PromptUser)
    // a reply is needed only once the human has been asked
    ensures r.fault.None? && r.next.asked != s.asked ==> reply.Some?
    // something is printed only for an error decision
    ensures r.next.shown != s.shown ==> ActionOf(llm(s.buffer)) == Some(ReportError)
    ensures var d := llm(s.buffer);
      d.action.None? ==> r.fault == Some(KeyError("action"))
    ensures var d := llm(s.buffer);
      ActionOf(d) == Some(PromptUser) ==>
        if d.message.None? then r.fault == Some(KeyError("message"))
        else
          && r.next.asked == s.asked + [Ask(PromptText(d.message.value), d.inputType == Some("password"))]
          && if reply.Some? then r.fault.None? && r.next.sent == s.sent + [Strip(reply.value)]
             else r.fault == Some(InputEof)
    ensures var d := llm(s.buffer);
      ActionOf(d) == Some(SendInput) ==>
        if d.suggestedInput.None? then r.fault == Some(KeyError("suggested_input"))
        else r.fault.None? && r.next.sent == s.sent + [d.suggestedInput.value]
    ensures var d := llm(s.buffer);
      ActionOf(d) == Some(ReportError) ==>
        if d.message.None? then r.fault == Some(KeyError("message"))
        else r.fault.None? && r.next.sent == s.sent && r.next.shown == s.shown + [ErrorText(d.message.value)]
    ensures ActionOf(llm(s.buffer)) == Some(Ignore) ==>
      r == Effect(s.(consulted := s.consulted + [s.buffer]), None)
  {
    var d := llm(s.buffer);
    var s1 := s.(consulted := s.consulted + [s.buffer]);
    match d.action
    case None => Effect(s1, Some(KeyError("action")))
    case Some(action) =>
      match Classify(action) {
        case PromptUser =>
          match d.message {
            case None => Effect(s1, Some(KeyError("message")))
            case Some(message) =>
              var s2 := s1.(asked := s1.asked + [Ask(PromptText(message), d.inputType == Some("password"))]);
              match reply {
                case None => Effect(s2, Some(InputEof))
                case Some(answer) => Effect(s2.(sent := s2.sent + [Strip(answer)], buffer := ""), None)
              }
          }
        case SendInput =>
          match d.suggestedInput {
            case None => Effect(s1, Some(KeyError("suggested_input")))
            case Some(line) => Effect(s1.(sent := s1.sent + [line], buffer := ""), None)
          }
        case ReportError =>
          match d.message {
            case None => Effect(s1, Some(KeyError("message")))
            case Some(message) => Effect(s1.(shown := s1.shown + [ErrorText(message)]), None)
          }
        case Ignore => Effect(s1, None)
      }
  }

  /** One pass of the `run_command` loop after a read: append the text to the
      buffer, then handle the buffer if it holds anything but whitespace.
      The source tests `output_buffer.strip()` for truth; by the contract of
      `Strip` that is `!AllSpace(buffer)`, which is what is tested here. */
  function Feed(s: Session, llm: string -> Decision, text: string, reply: Option<string>): (r: Effect)
    // whitespace only: nothing happens but the append
    ensures AllSpace(s.buffer + text) ==> r == Effect(s.(buffer := s.buffer + text), None)
    // otherwise the callback sees the buffer with the new text at its end
    ensures !AllSpace(s.buffer + text) ==> r.next.consulted == s.consulted + [s.buffer + text]
    ensures s.sent <= r.next.sent && |r.next.sent| <= |s.sent| + 1
    // no output is dropped unless a line was written
    ensures r.next.buffer == if r.next.sent == s.sent then s.buffer + text else ""
    ensures s.asked <= r.next.asked && |r.next.asked| <= |s.asked| + 1
    ensures r.fault.None? && r.next.asked != s.asked ==> reply.Some?
    ensures s.shown <= r.next.shown
  {
    var s1 := s.(buffer := s.buffer + text);
    if !AllSpace(s1.buffer) then Handle(s1, llm, reply) else Effect(s1, None)
  }

  /** `run_command` from state `s` over the reads `events`, with `replies`
      the lines the human types, in order. */
  function Run(s: Session, llm: string -> Decision, events: seq<Read>, replies: seq<string>): (r: Outcome)
    // every log only grows
    ensures s.sent <= r.last.sent && s.asked <= r.last.asked
    ensures s.shown <= r.last.shown && s.consulted <= r.last.consulted
    // at most one decision per read, and at most one line written per decision
    ensures |r.last.consulted| - |s.consulted| <= |events|
    ensures |r.last.sent| - |s.sent| <= |r.last.consulted| - |s.consulted|
    // the callback is never consulted on an empty or whitespace-only buffer
    ensures forall i :: |s.consulted| <= i < |r.last.consulted| ==> !AllSpace(r.last.consulted[i])
    // the loop only stops without an exception at end of file
    ensures r.ending.Completed? ==> Eof in events
    ensures r.ending.Pending? ==> Eof !in events
    decreases |events|
  {
    if events == [] then Outcome(s, Pending)
    else
      match events[0]
      case Eof => Outcome(s.(shown := s.shown + [DoneText]), Completed)
      case Output(text) =>
        var e := Feed(s, llm, text, NextReply(replies));
        if e.fault.Some? then Outcome(e.next, Raised(e.fault.value))
        else Run(e.next, llm, events[1..], if e.next.asked != s.asked then replies[1..] else replies)
  }

  /** The agent object: its `child`, its callback and its `output_buffer`,
      with the ghost logs standing for what it does to the outside world. */
  class LlmAgent {
    var child: Option<Child>
    const llm: string -> Decision
    var buffer: string
    ghost var sent: seq<string>
    ghost var asked: seq<Ask>
    ghost var shown: seq<string>
    ghost var consulted: seq<string>

    ghost function State(): Session
      reads this
    {
      Session(buffer, sent, asked, shown, consulted)
    }

    /** `__init__`: no child yet, an empty buffer. */
    constructor (llm: string -> Decision)
      ensures child == None && this.llm == llm
      ensures State() == EmptySession
    {
      child := None;
      this.llm := llm;
      buffer := "";
      sent, asked, shown, consulted := [], [], [], [];
    }

    /** `_analyze_output`: the callback's decision on `output`. */
    method AnalyzeOutput(output: string) returns (analysis: Decision)
      modifies this`consulted
      ensures analysis == llm(output)
      ensures consulted == old(consulted) + [output]
    {
      analysis := llm(output);
      consulted := consulted + [output];
    }

    /** `_handle_output`; it is only called once `run_command` has spawned
        the child. `prompted` tells whether the human was asked. */
    method HandleOutput(reply: Option<string>) returns (prompted: bool, fault: Option<Fault>)
      requires child.Some?
      modifies this
      ensures child == old(child)
      ensures Effect(State(), fault) == Handle(old(State()), llm, reply)
      ensures prompted <==> asked != old(asked)
    {
      prompted, fault := false, None;
      var analysis := AnalyzeOutput(buffer);
      if analysis.action.None? {
        fault := Some(KeyError("action"));
        return;
      }
      var action := analysis.action.value;
      if action == "prompt_user" {
        if analysis.message.None? {
          fault := Some(KeyError("message"));
          return;
        }
        var promptMsg := Tag + analysis.message.value;
        prompted := true;
        asked := asked + [Ask(promptMsg + ": ", analysis.inputType == Some("password"))];
        if reply.None? {
          fault := Some(InputEof);
          return;
        }
        sent := sent + [Strip(reply.value)];
        buffer := "";
      } else if action == "send_input" {
        if analysis.suggestedInput.None? {
          fault := Some(KeyError("suggested_input"));
          return;
        }
        sent := sent + [analysis.suggestedInput.value];
        buffer := "";
      } else if action == "error" {
        if analysis.message.None? {
          fault := Some(KeyError("message"));
          return;
        }
        shown := shown + [ErrorText(analysis.message.value)];
      }
    }

    /** The body of the `run_command` loop after a read that yielded `text`. */
    method ReadStep(text: string, reply: Option<string>) returns (prompted: bool, fault: Option<Fault>)
      requires child.Some?
      modifies this
      ensures child == old(child)
      ensures Effect(State(), fault) == Feed(old(State()), llm, text, reply)
      ensures prompted <==> asked != old(asked)
    {
      buffer := buffer + text;
      if Strip(buffer) != [] {
        prompted, fault := HandleOutput(reply);
      } else {
        prompted, fault := false, None;
      }
    }

    /** `run_command`: spawn `command`, then read, buffer and handle until end
        of file or until an exception escapes. */
    method RunCommand(command: string, events: seq<Read>, replies: seq<string>) returns (ending: Ending)
      modifies this
      ensures child == Some(Child(command))
      ensures Outcome(State(), ending) == Run(old(State()), llm, events, replies)
    {
      child := Some(Child(command));
      var i, rest := 0, replies;
      while i < |events|
        invariant i <= |events|
        invariant child == Some(Child(command))
        invariant Run(State(), llm, events[i..], rest) == Run(old(State()), llm, events, replies)
      {
        match events[i] {
          case Eof =>
            shown := shown + [DoneText];
            return Completed;
          case Output(text) =>
            var prompted, fault := ReadStep(text, NextReply(rest));
            if fault.Some? {
              return Raised(fault.value);
            }
            if prompted {
              rest := rest[1..];
            }
        }
        i := i + 1;
      }
      ending := Pending;
    }
  }
}
