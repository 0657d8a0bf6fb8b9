/** The `GPT4AllVoiceAssistant` object of ai-response-speech.py: its one
    piece of mutable state that the workflow depends on, `self.microphone`,
    and the methods that read or assign it, each proved against the
    specification functions of SourceSetup and Conversation. `main` is
    `Launch`. */
module Assistant {
  import opened Text
  import opened Devices
  import opened SourceSetup
  import opened Conversation

  class VoiceAssistant {
    /** `self.microphone`; None while the attribute does not exist yet. */
    var microphone: Option<Mic>

    /** `__init__` leaves `microphone` unset. The TTS set-up and the server
        check it also performs are outside this class (see `Launch`). */
    constructor ()
      ensures microphone == None
    {
      microphone := None;
    }

    /** setup_audio_source: the `while True` menu loop over the operator's
        input lines. It returns Confirmed where the source returns True,
        Cancelled where it returns False, and InputExhausted where `input()`
        would raise EOFError. */
    method SetupAudioSource(host: Host, inputs: seq<string>) returns (end: SetupEnd)
      modifies this
      ensures var r := RunSetup(host, inputs, Start(old(microphone)));
        end == Outcome(r) && microphone == r.mic
    {
      var pos, scans, tests := 0, 0, 0;
      ghost var log: seq<Event> := [];
      ghost var run := RunSetup(host, inputs, Start(microphone));
      while pos < |inputs|
        invariant pos <= |inputs|
        invariant !Ended(SetupState(pos, scans, tests, microphone, log))
        invariant run == RunSetup(host, inputs, SetupState(pos, scans, tests, microphone, log))
      {
        RunSetupStep(host, inputs, SetupState(pos, scans, tests, microphone, log));
        var event;
        pos, scans, tests, event := RunMenuRound(host, inputs, pos, scans, tests, log);
        log := log + [event];
        if event.SelectionConfirmed? {
          return Confirmed;
        } else if event.Exited? {
          return Cancelled;
        } else if event.InputEnded? {
          return InputExhausted;
        }
      }
      log := log + [InputEnded];
      return InputExhausted;
    }

    /** One pass through the body of the menu loop, reporting what it did. */
    method RunMenuRound(host: Host, inputs: seq<string>, pos: nat, scans: nat, tests: nat, ghost log: seq<Event>)
      returns (pos': nat, scans': nat, tests': nat, event: Event)
      requires pos < |inputs|
      modifies this
      ensures SetupState(pos', scans', tests', microphone, log + [event]) ==
        SourceSetup.MenuRound(host, inputs, SetupState(pos, scans, tests, old(microphone), log))
    {
      var choice := inputs[pos];
      pos', scans', tests' := pos + 1, scans, tests;
      if choice == "1" {
        var valid := GetValidAudioSources(host.names, ScanProbe(host, scans));
        scans' := scans + 1;
        event := SourcesListed(valid);
      } else if choice == "2" {
        var found := FindStereoMix(host.names);
        event := SystemAudioListed(found);
      } else if choice == "3" || choice == "4" {
        pos', scans', tests', event := TestOrSelect(host, inputs, pos, scans, tests, log);
      } else if choice == "5" {
        event := Exited;
      } else {
        event := MenuRepeated(choice);
      }
    }

    /** Choices 3 ("test specific source") and 4 ("select source and
        continue"): scan, read an index, check it against the scan, test it;
        choice 4 assigns the field before the test. */
    method TestOrSelect(host: Host, inputs: seq<string>, pos: nat, scans: nat, tests: nat, ghost log: seq<Event>)
      returns (pos': nat, scans': nat, tests': nat, event: Event)
      requires pos < |inputs| && inputs[pos] in {"3", "4"}
      modifies this
      ensures SetupState(pos', scans', tests', microphone, log + [event]) ==
        IndexRound(host, inputs, SetupState(pos, scans, tests, old(microphone), log))
    {
      var choice := inputs[pos];
      var valid := GetValidAudioSources(host.names, ScanProbe(host, scans));
      pos', scans', tests' := pos + 1, scans + 1, tests;
      if valid == [] {
        event := NoValidSources;
        return;
      }
      if pos' >= |inputs| {
        pos', event := |inputs|, InputEnded;
        return;
      }
      var line := inputs[pos'];
      pos' := pos' + 1;
      var parsed := ParseInt(line);
      if parsed.None? {
        event := NotANumber(line);
        return;
      }
      var index := parsed.value;
      if !Listed(valid, index) {
        event := IndexRejected(index);
        return;
      }
      var result := TestAudioSource(|host.names|, index, host.test(tests, index));
      tests' := tests + 1;
      if choice == "3" {
        event := SourceTested(index, result);
      } else {
        microphone := Some(DeviceMic(index));
        if result.Tested? && result.ok {
          event := SelectionConfirmed(index, result);
        } else {
          event := SelectionFailed(index, result);
        }
      }
    }

    /** listen: fall back to the default microphone when none was chosen,
        then return what was recognised, or "" on any failure. */
    method Listen(capture: Capture) returns (text: string)
      modifies this
      ensures microphone == if old(microphone) == None then Some(DefaultMic) else old(microphone)
      ensures text == Transcript(capture)
    {
      if microphone == None {
        microphone := Some(DefaultMic);
      }
      match capture
      case Understood(t) => text := t;
      case CaptureFailed => text := "";
      case NoSpeech => text := "";
      case NotUnderstood => text := "";
      case RequestFailed => text := "";
    }

    /** The first statement of a turn: `self.listen()` in voice mode,
        `input("You: ")` in typed mode. */
    method ReadTurn(voiceInput: bool, captures: seq<Capture>, lines: seq<string>, turn: nat)
      returns (userInput: string)
      requires turn < if voiceInput then |captures| else |lines|
      modifies this
      ensures userInput == (if voiceInput then Transcripts(captures) else lines)[turn]
      ensures microphone ==
        if voiceInput && old(microphone) == None then Some(DefaultMic) else old(microphone)
    {
      if voiceInput {
        userInput := Listen(captures[turn]);
      } else {
        userInput := lines[turn];
      }
    }

    /** run_interactive: in voice mode every turn listens (consuming one
        capture), in typed mode it reads one line. Returns the prompts sent
        to `generate_response` and the texts passed to `speak`. The loop of
        the source never ends by itself; here it also stops when the turn
        inputs run out. */
    method RunInteractive(voiceInput: bool, captures: seq<Capture>, lines: seq<string>,
                          replies: nat -> Option<string>)
      returns (prompts: seq<string>, spoken: seq<string>)
      modifies this
      ensures var s := Chat(if voiceInput then Transcripts(captures) else lines, voiceInput, replies);
        prompts == s.prompts && spoken == s.spoken
      ensures microphone ==
        if voiceInput && |captures| > 0 && old(microphone) == None then Some(DefaultMic) else old(microphone)
    {
      ghost var texts := if voiceInput then Transcripts(captures) else lines;
      ghost var all := Chat(texts, voiceInput, replies);
      prompts, spoken := [], [];
      var turns := if voiceInput then |captures| else |lines|;
      var turn, calls := 0, 0;
      while turn < turns
        invariant turns == |texts| && turn <= turns
        invariant all == ChatFrom(texts, voiceInput, replies, turn, calls, prompts, spoken)
        invariant microphone ==
          if voiceInput && turn > 0 && old(microphone) == None then Some(DefaultMic) else old(microphone)
      {
        var userInput := ReadTurn(voiceInput, captures, lines, turn);
        turn := turn + 1;
        if voiceInput && userInput == "" {
          continue;
        }
        if IsQuitWord(userInput) {
          spoken := spoken + [Farewell];
          break;
        }
        prompts := prompts + [userInput];
        var reply := replies(calls);
        // A reply of None is a ConnectionError: reported, and the loop goes on.
        if reply.Some? {
          spoken := spoken + [reply.value];
        } else {
          assert spoken + Said(reply) == spoken;
        }
        calls := calls + 1;
      }
    }
  }

  /** How a run of the program ends. */
  datatype LaunchOutcome =
    | ServerUnreachable                                  // ConnectionError from the health check
    | NotStarted(end: SetupEnd)                          // setup returned False, or input ran out
    | VoiceSession(prompts: seq<string>, spoken: seq<string>)

  /** main: construct the assistant (its server check raises when the
      server is not reachable), run the setup, and start the voice session
      only when the setup returned True. */
  method Launch(serverUp: bool, host: Host, setupInputs: seq<string>, captures: seq<Capture>,
                replies: nat -> Option<string>)
    returns (outcome: LaunchOutcome)
    ensures !serverUp ==> outcome == ServerUnreachable
    ensures serverUp ==>
      var end := Outcome(RunSetup(host, setupInputs, Start(None)));
      var s := Chat(Transcripts(captures), true, replies);
      outcome == if end == Confirmed then VoiceSession(s.prompts, s.spoken) else NotStarted(end)
  {
    if !serverUp {
      return ServerUnreachable;
    }
    var assistant := new VoiceAssistant();
    var end := assistant.SetupAudioSource(host, setupInputs);
    if end == Confirmed {
      var prompts, spoken := assistant.RunInteractive(true, captures, [], replies);
      outcome := VoiceSession(prompts, spoken);
    } else {
      outcome := NotStarted(end);
    }
  }
}
