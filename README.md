# Voice assistant audio-source workflow, modelled in Dafny

This project models the decision logic of `ai-response-speech.py`, the
GPT4All voice assistant. It covers these parts:

- the `find_stereo_mix` name heuristic for system-audio (loopback) devices;
- the `get_valid_audio_sources` scan, which keeps the devices whose quick probe succeeds;
- the outcome classification of `test_audio_source`;
- the interactive `setup_audio_source` menu, including its assignment of `self.microphone`;
- the `listen` fallback to the default microphone;
- the `run_interactive` turn loop;
- `main`, which connects the setup to the session.

The host's audio stack, the speech recogniser, the completion server and the
text-to-speech engine are oracles:

- **Audio devices:** `Host` holds the device names, a probe outcome per scan
  and device, and a full-test outcome per test and device.
- **Speech capture:** each `listen()` call is represented by a `Capture` value.
- **Completion server:** `generate_response` is a function `replies` from the
  call number to the reply. `None` means the call raised.

Files and modules:

- `text.dfy` (`Text`): ASCII lower-casing, the substring test behind `a in b`, and `int(...)`/`str(...)` on decimal integers.
- `devices.dfy` (`Devices`): the enumerate-and-filter scans and test classification.
- `setup.dfy` (`SourceSetup`): the menu as a specification state machine over the operator's input lines.
- `chat.dfy` (`Conversation`): the turn loop as a specification function, and a loop-free reference description of it.
- `assistant.dfy` (`Assistant`): the `VoiceAssistant` class with its `microphone` field. Its methods are proved against those specifications. `Launch` is `main`.

## Model

| member | source | states |
|---|---|---|
| Devices.FindStereoMix | ai-response-speech.py:62-83 | The appending loop returns exactly the system-audio sources of the device list |
| Devices.SystemAudioSourcesSpec | ai-response-speech.py:71-74 | The system-audio sources are exactly the pairs `(i, names[i])` whose lower-cased name contains some lower-cased alias, in increasing index order |
| Devices.EnumerateSpec | ai-response-speech.py:72-74 | The enumerate-and-filter scan holds a pair iff it is some `(i, names[i])` that the filter accepts; indices increase |
| Devices.NoAliasLetters | ai-response-speech.py:65-69 | Every alias contains one of the letters s, x, w, o, so a name with none of them is never a system-audio source |
| Devices.StereoMixScenario | ai-response-speech.py:62-74 | `["Built-in Mic", "Stereo Mix"]` gives `[(1, "Stereo Mix")]` |
| Devices.GetValidAudioSources | ai-response-speech.py:85-105 | The probing loop returns exactly the valid sources of the device list |
| Devices.ValidSourcesSpec | ai-response-speech.py:90-105 | The valid sources are exactly the pairs `(i, names[i])` whose own probe succeeded, in increasing index order, so a failing device is skipped without affecting the others |
| Devices.ListedInRange | ai-response-speech.py:182 | An index offered by a scan is an existing device whose probe passed |
| Devices.TestAudioSource | ai-response-speech.py:107-152 | An index at or above the device count gives False with no device opened; an index below minus the count raises IndexError; the result is True iff the whole pipeline recognised text; timeout, unrecognised audio and raised errors give distinct diagnostics |
| SourceSetup.IndexRound | ai-response-speech.py:172-216 | A choice-3 or choice-4 round scans once. An empty scan reads no index line. Only choice 4 selects and only choice 3 merely tests. The field changes only in choice 4, and only to the index parsed from the next line, which that scan offered. When the next line is an offered index, both lines are read and one test runs. After "4" the field becomes that device whether or not the test passes, and the round confirms exactly when the test recognised speech. After "3" the field is untouched and the result is only reported |
| SourceSetup.MenuRound | ai-response-speech.py:164-219 | One menu round always consumes input. Only "5" cancels, and it leaves the microphone as it was. Choices 3 and 4 behave as `IndexRound` says. Every other choice returns to the menu and leaves the field alone |
| SourceSetup.ConfirmedOnlyAfterPassedTest | ai-response-speech.py:190-210 | The setup always ends. It returns True only when its last round read "4" and then the index line, and the last test, of that index, came back True; the microphone field is then that device |
| SourceSetup.CancelledOnlyOnExit | ai-response-speech.py:218-219 | The setup returns False only right after reading "5" at the menu |
| SourceSetup.MicrophoneFromChoiceFour | ai-response-speech.py:198-204 | The microphone field ends either as it started or on the device parsed from the line after a "4" that the setup read, and offered by one of the scans the setup made |
| SourceSetup.BadIndexRejected | ai-response-speech.py:173-202 | A non-numeric index line, or any number the scan just made did not offer, goes back to the menu without raising and without touching the microphone |
| SourceSetup.IndexFiveOfTwoDevices | ai-response-speech.py:198-202 | On two devices, index 5 is rejected as invalid (or no valid sources are reported) and the menu continues |
| SourceSetup.FailedSelectionKeepsDevice | ai-response-speech.py:204-212 | The field is assigned before the test: after a failed test of device 0 followed by "5", the setup is cancelled with the microphone still on device 0 |
| Text.ParsePrinted | ai-response-speech.py:180 | `int(str(n)) == n` for the decimal syntax accepted at the index prompts |
| Text.Lower | ai-response-speech.py:73 | `.lower()` on device names here and on the quit test at line 307 keeps the length, maps each character on its own, and leaves no upper-case ASCII letter |
| Text.ParseInt | ai-response-speech.py:180 | `int(...)` on an index line (here, and at line 198 for choice 4) succeeds exactly on an optional sign followed by at least one digit, and `None` stands for the ValueError otherwise. Only a leading minus gives a negative number, and an all-digit line gives its non-negative value |
| Text.ContainsAt | ai-response-speech.py:73 | The substring test holds iff the needle occurs at some offset |
| Text.OccursContained | ai-response-speech.py:73 | A needle that occurs at an offset is contained |
| Text.ContainedOccurs | ai-response-speech.py:73 | A contained needle occurs at some offset, which the lemma returns |
| Text.MissingCharNotContained | ai-response-speech.py:73 | A needle with a character that the haystack lacks is not contained in it |
| Conversation.Transcript | ai-response-speech.py:233-254 | `listen` returns the recognised text when recognition succeeded, and `""` on every kind of failure |
| Conversation.IsQuitWord | ai-response-speech.py:307 | A quit word is never the empty string, so an empty voice input never ends the session |
| Conversation.QuitWordIgnoresCase | ai-response-speech.py:307 | The quit test ignores case; "QUIT", "Exit" and "bye" end the session |
| Conversation.ChatFromPrompts | ai-response-speech.py:298-312 | From any point, the prompts sent are the sendable texts before the first quit word |
| Conversation.ChatFromQuit | ai-response-speech.py:307-309 | From any point, the session ends on a quit word exactly when one follows |
| Conversation.ChatFromSpoken | ai-response-speech.py:307-317 | From any point, what is spoken is the reply to every call that did not raise, then the farewell if a quit word follows |
| Conversation.ChatFromMatchesReference | ai-response-speech.py:298-317 | From any point, the loop sends the sendable texts before the first quit word and speaks the reply to every call that did not raise, then the farewell if it quit |
| Conversation.ChatMatchesReference | ai-response-speech.py:298-317 | The session's prompts, its quit flag and its spoken texts equal the loop-free reference description |
| Conversation.SendableSpec | ai-response-speech.py:300-305 | A text is sendable iff it is among the inputs of the range and is not an empty voice input |
| Conversation.QuitWordsAndSilenceNeverSent | ai-response-speech.py:302-309 | No quit word is ever sent to `generate_response`, and in voice mode no empty input is |
| Conversation.FailuresDoNotEndSession | ai-response-speech.py:315-317 | The prompts sent and whether the session quits do not depend on which calls raised |
| Assistant.VoiceAssistant.constructor | ai-response-speech.py:9-21 | A new assistant has no microphone attribute |
| Assistant.VoiceAssistant.SetupAudioSource | ai-response-speech.py:154-219 | The menu loop returns what the specification state machine returns, and leaves the field as it does |
| Assistant.VoiceAssistant.RunMenuRound | ai-response-speech.py:164-219 | One pass of the loop body does what `MenuRound` specifies |
| Assistant.VoiceAssistant.TestOrSelect | ai-response-speech.py:172-216 | Choices 3 and 4 do what `IndexRound` specifies, with the field assigned before the test |
| Assistant.VoiceAssistant.Listen | ai-response-speech.py:221-254 | Sets the default microphone when none was selected and otherwise leaves it alone; returns the transcript of the capture |
| Assistant.VoiceAssistant.ReadTurn | ai-response-speech.py:300-305 | A turn reads one capture in voice mode and one line in typed mode |
| Assistant.VoiceAssistant.RunInteractive | ai-response-speech.py:293-317 | The loop's prompts and spoken texts are those of the specification `Chat`; listening selects the default microphone when none was chosen |
| Assistant.Launch | ai-response-speech.py:319-328 | An unreachable server ends the run at construction. The voice session runs iff the setup returned True. Otherwise the setup's outcome is reported |

## Left out

- HTTP requests are not modelled. `_check_server_connection` is the flag `serverUp`, and `generate_response` is the oracle `replies`. Request payloads, status codes and JSON decoding are absent.
- `setup_voice` and `speak` are left out. They are text-to-speech wrappers, and their float settings have no logical content. A spoken text is only recorded.
- `list_all_audio_sources` is left out. It only prints, and menu choice 1 does not call it.
- Audio capture, ambient-noise calibration and Google recognition are foreign calls. They are represented only by their outcomes (`Run`, `Capture`, the probe booleans).
- The device list is fixed for one run. Hot-plugging between scans is not modelled. Each scan and each test has its own oracle outcome.
- Printed messages are represented only by the diagnostic or event they report.
- Text.Lower: only ASCII letters are lower-cased. Python's Unicode `str.lower()` is not modelled.
- Text.ParseInt: accepts an optional sign followed by digits. The surrounding white space, digit-group underscores and non-ASCII decimal digits (such as "３" or "٣") that Python's `int()` also accepts are rejected.
- Assistant.VoiceAssistant.TestOrSelect: the `except Exception` branch of choice 4 is not modelled. It catches an exception from the `sr.Microphone` constructor or from the name lookup. A listed index always names an existing device, so the lookup cannot raise. The constructor is assumed not to raise.
- Assistant.VoiceAssistant.Listen: creating the default microphone is outside the method's `try`. If `sr.Microphone()` raises, `listen` raises and the field stays unset. `run_interactive` catches the exception and the next turn tries again. The model always sets the default microphone and never raises.
- Assistant.VoiceAssistant.RunInteractive: the source loop never ends by itself. The model stops when the finite turn inputs run out. In typed mode, end of input would make `input()` raise EOFError on every turn, and `except Exception` would catch it, so the source would loop forever printing the error.
- Running out of operator input during setup ends with `InputExhausted`, where the source's `input()` would raise EOFError out of `setup_audio_source`. The event `InputEnded` also stands for an index prompt that finds no input. In choice 3 that EOFError escapes at once. In choice 4, `except Exception` catches it, "Error setting source" is printed, and the next menu `input()` raises.
- `gpt4all_speech.py` and `gpt4all_text_to_speach.py` are not part of this model. They hold only network, subprocess and file I/O, and their quit-word test duplicates the one modelled here.
