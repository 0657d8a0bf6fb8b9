/** The interactive audio-source setup of ai-response-speech.py
    (`setup_audio_source`) as a state machine over the operator's input lines.
    One round reads a menu choice and, for choices 3 and 4, an index line;
    the device layer is the oracle `Host`. */
module SourceSetup {
  import opened Text
  import opened Devices

  /** What `self.microphone` holds: the default `sr.Microphone()` or
      `sr.Microphone(device_index=index)`. */
  datatype Mic = DefaultMic | DeviceMic(index: int)

  /** The host's audio layer during one setup session. The device names are
      fixed for the session; `probe(scan, i)` is the quick probe of device `i`
      in the `scan`-th call of `get_valid_audio_sources`, and `test(k, i)` is
      what the `k`-th full test, of device `i`, came to. */
  datatype Host = Host(names: seq<string>, probe: (nat, nat) -> bool, test: (nat, int) -> Run)

  function ScanProbe(host: Host, scan: nat): nat -> bool {
    (i: nat) => host.probe(scan, i)
  }

  /** What one menu round did (one entry per round). */
  datatype Event =
    | SourcesListed(valid: seq<Source>)                  // choice 1
    | SystemAudioListed(found: seq<Source>)              // choice 2
    | NoValidSources                                     // 3 or 4, empty scan
    | NotANumber(line: string)                           // 3 or 4, ValueError
    | IndexRejected(index: int)                          // 3 or 4, index not offered
    | SourceTested(index: int, result: TestResult)       // choice 3
    | SelectionFailed(index: int, result: TestResult)    // choice 4, test failed
    | SelectionConfirmed(index: int, result: TestResult) // choice 4, test passed: return True
    | Exited                                             // choice 5: return False
    | MenuRepeated(choice: string)                       // any other choice
    | InputEnded                                         // no more input: EOFError

  /** The selector between rounds: the next input line, how many scans and
      tests have been made, the `microphone` field, and the rounds so far. */
  datatype SetupState = SetupState(pos: nat, scans: nat, tests: nat, mic: Option<Mic>, log: seq<Event>)

  datatype SetupEnd = Confirmed | Cancelled | InputExhausted

  predicate Ends(e: Event) {
    e.SelectionConfirmed? || e.Exited? || e.InputEnded?
  }

  predicate Ended(st: SetupState) {
    |st.log| > 0 && Ends(st.log[|st.log| - 1])
  }

  function Emit(st: SetupState, e: Event): SetupState {
    st.(log := st.log + [e])
  }

  /** The return value of `setup_audio_source` read off the last round. */
  function Outcome(st: SetupState): SetupEnd {
    if |st.log| > 0 && st.log[|st.log| - 1].SelectionConfirmed? then Confirmed
    else if |st.log| > 0 && st.log[|st.log| - 1].Exited? then Cancelled
    else InputExhausted
  }

  /** `mic` is the device whose index was read on the line after the "4" at
      input position `at`, and which scan number `scan` offered. */
  predicate ChosenAt(host: Host, inputs: seq<string>, at: nat, scan: nat, mic: Option<Mic>) {
    && at + 1 < |inputs| && inputs[at] == "4"
    && ParseInt(inputs[at + 1]).Some?
    && var index := ParseInt(inputs[at + 1]).value;
    && 0 <= index < |host.names| && host.probe(scan, index)
    && mic == Some(DeviceMic(index))
  }

  /** Choices 3 ("test specific source") and 4 ("select source and
      continue"): scan, read an index line, check the number against the
      scan, test that device; choice 4 assigns the field before the test. */
  function IndexRound(host: Host, inputs: seq<string>, st: SetupState): (r: SetupState)
    requires st.pos < |inputs| && inputs[st.pos] in {"3", "4"}
    ensures st.pos < r.pos <= |inputs| && r.scans == st.scans + 1 && st.tests <= r.tests
    ensures |r.log| == |st.log| + 1 && r.log[..|st.log|] == st.log && !r.log[|st.log|].Exited?
    // Only choice 4 can change the microphone, and then to the index read on
    // the next line, which the scan of this round offered.
    ensures r.mic != st.mic ==>
      && inputs[st.pos] == "4"
      && (r.log[|st.log|].SelectionConfirmed? || r.log[|st.log|].SelectionFailed?)
      && ChosenAt(host, inputs, st.pos, st.scans, r.mic)
    // An empty scan reads no index line.
    ensures ValidSources(host.names, ScanProbe(host, st.scans)) == [] ==>
      r.pos == st.pos + 1 && r.log[|st.log|] == NoValidSources && r.mic == st.mic
    // Only choice 4 selects, and only choice 3 merely tests.
    ensures r.log[|st.log|].SelectionConfirmed? || r.log[|st.log|].SelectionFailed? ==> inputs[st.pos] == "4"
    ensures r.log[|st.log|].SourceTested? ==> inputs[st.pos] == "3"
    // Confirmation only right after a passed test of the chosen index.
    ensures r.log[|st.log|].SelectionConfirmed? ==>
      && var index := r.log[|st.log|].index;
      && r.pos == st.pos + 2 && r.tests == st.tests + 1
      && ParseInt(inputs[st.pos + 1]) == Some(index)
      && 0 <= index < |host.names|
      && host.probe(st.scans, index)
      && host.test(st.tests, index).Recognised?
      && r.log[|st.log|].result == Tested(true, Heard(host.test(st.tests, index).text))
      && r.mic == Some(DeviceMic(index))
    // An offered index read after "4" becomes the microphone whether or not
    // its test passes, and the round confirms exactly when the test heard
    // speech; after "3" the same index is only tested.
    ensures (st.pos + 1 < |inputs| && ParseInt(inputs[st.pos + 1]).Some?
             && Listed(ValidSources(host.names, ScanProbe(host, st.scans)), ParseInt(inputs[st.pos + 1]).value)) ==>
      && var index := ParseInt(inputs[st.pos + 1]).value;
      && r.pos == st.pos + 2 && r.tests == st.tests + 1
      && (inputs[st.pos] == "4" ==>
            && r.mic == Some(DeviceMic(index))
            && (r.log[|st.log|].SelectionConfirmed? <==> host.test(st.tests, index).Recognised?))
      && (inputs[st.pos] == "3" ==> r.mic == st.mic && r.log[|st.log|].SourceTested?)
  {
    var choice := inputs[st.pos];
    var valid := ValidSources(host.names, ScanProbe(host, st.scans));
    var scanned := st.(pos := st.pos + 1, scans := st.scans + 1);
    if valid == [] then Emit(scanned, NoValidSources)
    else if scanned.pos >= |inputs| then Emit(scanned.(pos := |inputs|), InputEnded)
    else
      var line := inputs[scanned.pos];
      var read := scanned.(pos := scanned.pos + 1);
      match ParseInt(line)
      case None => Emit(read, NotANumber(line))
      case Some(index) =>
        if !Listed(valid, index) then Emit(read, IndexRejected(index))
        else
          ListedInRange(host.names, ScanProbe(host, st.scans), index);
          var result := TestAudioSource(|host.names|, index, host.test(st.tests, index));
          var tested := read.(tests := st.tests + 1);
          if choice == "3" then Emit(tested, SourceTested(index, result))
          else
            // The field is assigned before the test runs.
            var selected := tested.(mic := Some(DeviceMic(index)));
            if result.Tested? && result.ok then Emit(selected, SelectionConfirmed(index, result))
            else Emit(selected, SelectionFailed(index, result))
  }

  /** One pass through the `while True` body of `setup_audio_source`. */
  function MenuRound(host: Host, inputs: seq<string>, st: SetupState): (r: SetupState)
    requires st.pos < |inputs|
    ensures st.pos < r.pos <= |inputs| && st.scans <= r.scans && st.tests <= r.tests
    ensures |r.log| == |st.log| + 1 && r.log[..|st.log|] == st.log
    // Choice 5, and nothing else, cancels.
    ensures r.log[|st.log|] == Exited <==> inputs[st.pos] == "5"
    ensures r.log[|st.log|] == Exited ==> r.pos == st.pos + 1 && r.mic == st.mic
    // Choices 3 and 4 are the rounds that read an index line.
    ensures inputs[st.pos] in {"3", "4"} ==> r == IndexRound(host, inputs, st)
    // Choices other than 3, 4 and 5 go straight back to the menu.
    ensures inputs[st.pos] !in {"3", "4", "5"} ==> r.pos == st.pos + 1 && !Ended(r) && r.mic == st.mic
  {
    var choice := inputs[st.pos];
    var next := st.(pos := st.pos + 1);
    if choice == "1" then
      Emit(next.(scans := st.scans + 1), SourcesListed(ValidSources(host.names, ScanProbe(host, st.scans))))
    else if choice == "2" then
      Emit(next, SystemAudioListed(SystemAudioSources(host.names)))
    else if choice == "3" || choice == "4" then
      IndexRound(host, inputs, st)
    else if choice == "5" then
      Emit(next, Exited)
    else
      Emit(next, MenuRepeated(choice))
  }

  /** `setup_audio_source` from state `st` on: rounds until one returns, or
      until the input runs out. */
  function RunSetup(host: Host, inputs: seq<string>, st: SetupState): (r: SetupState)
    decreases |inputs| - st.pos
  {
    if Ended(st) then st
    else if st.pos >= |inputs| then Emit(st, InputEnded)
    else RunSetup(host, inputs, MenuRound(host, inputs, st))
  }

  /** A round that does not end the setup hands over to the next one. */
  lemma RunSetupStep(host: Host, inputs: seq<string>, st: SetupState)
    requires !Ended(st) && st.pos < |inputs|
    ensures RunSetup(host, inputs, st) == RunSetup(host, inputs, MenuRound(host, inputs, st))
    ensures Ended(MenuRound(host, inputs, st)) ==>
      RunSetup(host, inputs, st) == MenuRound(host, inputs, st)
  {
  }

  function Start(mic: Option<Mic>): SetupState {
    SetupState(0, 0, 0, mic, [])
  }

  /** The last round of `r` read "4" and then an index line, the index named
      an existing device, the field was set to it, and the last test, of that
      device, recognised speech: the round returned True. */
  predicate PassedSelection(host: Host, inputs: seq<string>, r: SetupState) {
    && |r.log| > 0 && r.log[|r.log| - 1].SelectionConfirmed?
    && var e := r.log[|r.log| - 1];
    && 0 <= e.index < |host.names|
    && r.mic == Some(DeviceMic(e.index))
    && 2 <= r.pos <= |inputs| && inputs[r.pos - 2] == "4" && ParseInt(inputs[r.pos - 1]) == Some(e.index)
    && r.tests > 0 && host.test(r.tests - 1, e.index).Recognised?
    && e.result == Tested(true, Heard(host.test(r.tests - 1, e.index).text))
  }

  /** The setup always comes to an end, and it returns True only right after
      a round of choice 4 whose test of the chosen, offered index came back
      True; the microphone field then holds that device. */
  lemma {:induction false} ConfirmedOnlyAfterPassedTest(host: Host, inputs: seq<string>, st: SetupState)
    requires !Ended(st)
    ensures var r := RunSetup(host, inputs, st);
      && Ended(r)
      && (Outcome(r) == Confirmed ==>
            PassedSelection(host, inputs, r) && st.pos + 2 <= r.pos && st.tests < r.tests)
    decreases |inputs| - st.pos
  {
    if st.pos < |inputs| {
      var next := MenuRound(host, inputs, st);
      RunSetupStep(host, inputs, st);
      if !Ended(next) {
        ConfirmedOnlyAfterPassedTest(host, inputs, next);
      } else {
        RoundPassed(host, inputs, st);
      }
    }
  }

  /** A round that confirms is a passed selection. */
  lemma RoundPassed(host: Host, inputs: seq<string>, st: SetupState)
    requires st.pos < |inputs|
    ensures var r := MenuRound(host, inputs, st);
      r.log[|st.log|].SelectionConfirmed? ==> PassedSelection(host, inputs, r) && st.pos + 2 <= r.pos && st.tests < r.tests
  {
    var r := MenuRound(host, inputs, st);
    if r.log[|st.log|].SelectionConfirmed? {
      assert r.log[|r.log| - 1] == r.log[|st.log|];
    }
  }

  /** The setup returns False only after reading "5" at the menu. */
  lemma {:induction false} CancelledOnlyOnExit(host: Host, inputs: seq<string>, st: SetupState)
    requires !Ended(st)
    ensures var r := RunSetup(host, inputs, st);
      Outcome(r) == Cancelled ==> st.pos < r.pos <= |inputs| && inputs[r.pos - 1] == "5"
    decreases |inputs| - st.pos
  {
    if st.pos < |inputs| {
      var next := MenuRound(host, inputs, st);
      RunSetupStep(host, inputs, st);
      if !Ended(next) {
        CancelledOnlyOnExit(host, inputs, next);
      } else if next.log[|st.log|] == Exited {
        assert next.pos == st.pos + 1;
      }
    }
  }

  /** Whatever the rounds do, the microphone field ends up as it started or
      on an existing device the operator chose in a round of choice 4. */
  lemma {:induction false} MicrophoneFromChoiceFour(host: Host, inputs: seq<string>, st: SetupState)
    ensures var r := RunSetup(host, inputs, st);
      r.mic == st.mic ||
      exists at: nat, scan: nat ::
        st.pos <= at && at + 2 <= r.pos && st.scans <= scan < r.scans && ChosenAt(host, inputs, at, scan, r.mic)
    decreases |inputs| - st.pos
  {
    if !Ended(st) && st.pos < |inputs| {
      var next := MenuRound(host, inputs, st);
      MicrophoneFromChoiceFour(host, inputs, next);
      RunSetupMono(host, inputs, next);
      var r := RunSetup(host, inputs, next);
      if r.mic == next.mic && next.mic != st.mic {
        assert next.pos == st.pos + 2;
        assert ChosenAt(host, inputs, st.pos, st.scans, r.mic);
      }
    }
  }

  /** The setup only moves forward through the input and the scans. */
  lemma {:induction false} RunSetupMono(host: Host, inputs: seq<string>, st: SetupState)
    ensures var r := RunSetup(host, inputs, st); st.pos <= r.pos && st.scans <= r.scans
    decreases |inputs| - st.pos
  {
    if !Ended(st) && st.pos < |inputs| {
      RunSetupMono(host, inputs, MenuRound(host, inputs, st));
    }
  }

  /** Choices 3 and 4 turn away a non-numeric index line and any number that
      is not an existing device (negative or too large) without raising:
      the round ends back at the menu with the microphone untouched. */
  lemma BadIndexRejected(host: Host, inputs: seq<string>, st: SetupState)
    requires st.pos + 1 < |inputs| && inputs[st.pos] in {"3", "4"}
    requires var n := ParseInt(inputs[st.pos + 1]);
      n.None? || !Listed(ValidSources(host.names, ScanProbe(host, st.scans)), n.value)
    ensures var r := MenuRound(host, inputs, st);
      var n := ParseInt(inputs[st.pos + 1]);
      && r.log[|st.log|] in {NoValidSources, NotANumber(inputs[st.pos + 1])} + (if n.Some? then {IndexRejected(n.value)} else {})
      && !Ended(r)
      && r.mic == st.mic
  {
  }

  /** Entering index 5 against a two-device list is reported as an invalid
      index and leaves the selector at the menu. */
  lemma IndexFiveOfTwoDevices(host: Host, inputs: seq<string>, st: SetupState)
    requires |host.names| == 2
    requires st.pos + 1 < |inputs| && inputs[st.pos] == "4" && inputs[st.pos + 1] == "5"
    ensures var r := MenuRound(host, inputs, st);
      r.log[|st.log|] in {NoValidSources, IndexRejected(5)} && !Ended(r) && r.mic == st.mic
  {
    assert IntToString(5) == "5";
    ParsePrinted(5);
    if Listed(ValidSources(host.names, ScanProbe(host, st.scans)), 5) {
      // An offered index is an existing device, and there are only two.
      ListedInRange(host.names, ScanProbe(host, st.scans), 5);
    }
    BadIndexRejected(host, inputs, st);
  }

  /** A failed test in choice 4 leaves the field on the rejected device: with
      one device that passes the probe and a test that hears nothing, the
      inputs "4", "0", "5" cancel the setup with the microphone on device 0. */
  lemma FailedSelectionKeepsDevice()
    ensures var host := Host(["USB Mic"], (scan: nat, i: nat) => true, (k: nat, i: int) => ListenTimeout);
      var r := RunSetup(host, ["4", "0", "5"], Start(None));
      && Outcome(r) == Cancelled
      && r.mic == Some(DeviceMic(0))
      && r.log == [SelectionFailed(0, Tested(false, NoAudio)), Exited]
  {
    var host := Host(["USB Mic"], (scan: nat, i: nat) => true, (k: nat, i: int) => ListenTimeout);
    var inputs := ["4", "0", "5"];
    assert ProbeKeeps(ScanProbe(host, 0))((0, "USB Mic"));
    assert EnumerateUpTo(host.names, ProbeKeeps(ScanProbe(host, 0)), 0) == [];
    assert ValidSources(host.names, ScanProbe(host, 0)) == [(0, "USB Mic")];
    assert IntToString(0) == "0";
    ParsePrinted(0);
    var offered: seq<Source> := [(0, "USB Mic")];
    assert offered[0].0 == 0;
    assert Listed(offered, 0);
    var first := IndexRound(host, inputs, Start(None));
    assert first == MenuRound(host, inputs, Start(None));
    assert TestAudioSource(1, 0, ListenTimeout) == Tested(false, NoAudio);
    assert first.log == [SelectionFailed(0, Tested(false, NoAudio))];
    assert first.pos == 2 && first.mic == Some(DeviceMic(0));
    RunSetupStep(host, inputs, Start(None));
    var second := MenuRound(host, inputs, first);
    assert second.log == first.log + [Exited] && second.mic == first.mic;
    RunSetupStep(host, inputs, first);
  }
}
