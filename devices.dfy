/** Audio-source discovery in ai-response-speech.py: the name heuristic for
    system-audio (loopback) devices, the scan that keeps the devices whose
    quick probe succeeds, and the classification of one full source test.
    The host's microphones are an oracle: `names` is what
    `sr.Microphone.list_microphone_names()` returns, and every probe or test
    is represented only by its outcome. */
module Devices {
  import opened Text

  /** An `(index, name)` pair as produced by `enumerate(names)`. */
  type Source = (nat, string)

  /** The order-preserving subsequence of the first `n` pairs of
      `enumerate(names)` whose pairs satisfy `keep`. */
  function EnumerateUpTo(names: seq<string>, keep: Source -> bool, n: nat): (r: seq<Source>)
    requires n <= |names|
    decreases n
  {
    if n == 0 then []
    else
      var here := (n - 1, names[n - 1]);
      EnumerateUpTo(names, keep, n - 1) + (if keep(here) then [here] else [])
  }

  function Enumerate(names: seq<string>, keep: Source -> bool): seq<Source> {
    EnumerateUpTo(names, keep, |names|)
  }

  /** Indices strictly increase along `r`. */
  predicate Increasing(r: seq<Source>) {
    forall j, k :: 0 <= j < k < |r| ==> r[j].0 < r[k].0
  }

  /** `s` is the pair `(i, names[i])` for some `i < bound`, and `keep` accepts it. */
  predicate Entry(names: seq<string>, keep: Source -> bool, bound: nat, s: Source) {
    s.0 < bound && s.0 < |names| && s.1 == names[s.0] && keep(s)
  }

  /** Every pair among the first `n` that `EnumerateUpTo` returns is some
      `(i, names[i])` with `i < n` that `keep` accepts. */
  lemma {:induction false} EnumerateUpToSound(names: seq<string>, keep: Source -> bool, n: nat)
    requires n <= |names|
    ensures forall k :: 0 <= k < |EnumerateUpTo(names, keep, n)| ==> Entry(names, keep, n, EnumerateUpTo(names, keep, n)[k])
    decreases n
  {
    if n > 0 {
      EnumerateUpToSound(names, keep, n - 1);
      var prev := EnumerateUpTo(names, keep, n - 1);
      var r := EnumerateUpTo(names, keep, n);
      forall k | 0 <= k < |r| ensures Entry(names, keep, n, r[k]) {
        if k < |prev| {
          assert r[k] == prev[k] && Entry(names, keep, n - 1, prev[k]);
        }
      }
    }
  }

  /** Every `(i, names[i])` with `i < n` that `keep` accepts is returned. */
  lemma {:induction false} EnumerateUpToComplete(names: seq<string>, keep: Source -> bool, n: nat)
    requires n <= |names|
    ensures forall i :: 0 <= i < n && keep((i, names[i])) ==> (i, names[i]) in EnumerateUpTo(names, keep, n)
    decreases n
  {
    if n > 0 {
      EnumerateUpToComplete(names, keep, n - 1);
    }
  }

  /** The indices `EnumerateUpTo` returns strictly increase. */
  lemma {:induction false} EnumerateUpToIncreasing(names: seq<string>, keep: Source -> bool, n: nat)
    requires n <= |names|
    ensures Increasing(EnumerateUpTo(names, keep, n))
    decreases n
  {
    if n > 0 {
      EnumerateUpToIncreasing(names, keep, n - 1);
      EnumerateUpToSound(names, keep, n - 1);
      var prev := EnumerateUpTo(names, keep, n - 1);
      var r := EnumerateUpTo(names, keep, n);
      assert forall k :: 0 <= k < |prev| ==> r[k] == prev[k];
    }
  }

  /** `Enumerate` is characterised by membership and order: a pair is in the
      result exactly when it is some `(i, names[i])` that `keep` accepts, and
      the indices increase. Whether one device is kept therefore depends on
      that device alone. */
  lemma EnumerateSpec(names: seq<string>, keep: Source -> bool)
    ensures var r := Enumerate(names, keep);
      && Increasing(r)
      && (forall s :: s in r <==> s.0 < |names| && s.1 == names[s.0] && keep(s))
  {
    EnumerateUpToSound(names, keep, |names|);
    EnumerateUpToComplete(names, keep, |names|);
    EnumerateUpToIncreasing(names, keep, |names|);
    var r := Enumerate(names, keep);
    forall s | s in r ensures s.0 < |names| && s.1 == names[s.0] && keep(s) {
      var k :| 0 <= k < |r| && r[k] == s;
    }
  }

  // ---------------------------------------------------------------- find_stereo_mix

  /** The fixed alias list of `find_stereo_mix`, in the source's order. */
  const SystemAudioAliases: seq<string> :=
    ["Stereo Mix", "Stereo", "Mixed", "Mix", "What U Hear", "What You Hear", "Speakers", "Output"]

  /** `any(source.lower() in name.lower() for source in potential_sources)` */
  predicate IsSystemAudioName(name: string) {
    exists k :: 0 <= k < |SystemAudioAliases| && Contains(Lower(name), Lower(SystemAudioAliases[k]))
  }

  predicate IsSystemAudioSource(s: Source) {
    IsSystemAudioName(s.1)
  }

  /** The pairs `find_stereo_mix` returns for device list `names`. */
  function SystemAudioSources(names: seq<string>): seq<Source> {
    Enumerate(names, IsSystemAudioSource)
  }

  /** The system-audio sources are exactly the pairs `(i, names[i])` whose
      lower-cased name contains a lower-cased alias, in increasing index
      order. */
  lemma SystemAudioSourcesSpec(names: seq<string>)
    ensures Increasing(SystemAudioSources(names))
    ensures forall s :: s in SystemAudioSources(names) <==>
      s.0 < |names| && s.1 == names[s.0] && IsSystemAudioName(s.1)
  {
    EnumerateSpec(names, IsSystemAudioSource);
  }

  /** find_stereo_mix: one pass over the enumerated names, appending every
      pair whose name matches an alias. */
  method FindStereoMix(names: seq<string>) returns (found: seq<Source>)
    ensures found == SystemAudioSources(names)
  {
    found := [];
    var index := 0;
    while index < |names|
      invariant index <= |names|
      invariant found == EnumerateUpTo(names, IsSystemAudioSource, index)
    {
      var name := names[index];
      if IsSystemAudioName(name) {
        found := found + [(index, name)];
      }
      index := index + 1;
    }
  }

  /** Alias `k` has a letter at position `j` that `hay` lacks. */
  lemma AliasAbsent(hay: string, k: nat, j: nat)
    requires k < |SystemAudioAliases| && j < |SystemAudioAliases[k]|
    requires LowerChar(SystemAudioAliases[k][j]) !in hay
    ensures !Contains(hay, Lower(SystemAudioAliases[k]))
  {
    MissingCharNotContained(hay, Lower(SystemAudioAliases[k]), j);
  }

  /** Every alias, lower-cased, contains one of the letters s, x, w or o;
      a name lacking all four is never taken for a system-audio source. */
  lemma NoAliasLetters(name: string)
    requires forall c :: c in "sxwo" ==> c !in Lower(name)
    ensures !IsSystemAudioName(name)
  {
    var lname := Lower(name);
    forall k | 0 <= k < |SystemAudioAliases|
      ensures !Contains(lname, Lower(SystemAudioAliases[k]))
    {
      if k == 2 || k == 3 {
        assert LowerChar(SystemAudioAliases[k][2]) == 'x';
        AliasAbsent(lname, k, 2);
      } else {
        assert LowerChar(SystemAudioAliases[k][0]) in "swo";
        AliasAbsent(lname, k, 0);
      }
    }
  }

  lemma BuiltInMicIsNoSystemAudio()
    ensures !IsSystemAudioName("Built-in Mic")
  {
    assert Lower("Built-in Mic") == "built-in mic";
    NoAliasLetters("Built-in Mic");
  }

  lemma StereoMixIsSystemAudio()
    ensures IsSystemAudioName("Stereo Mix")
  {
    assert Lower("Stereo Mix") == "stereo mix";
    assert Contains(Lower("Stereo Mix"), Lower(SystemAudioAliases[0]));
  }

  /** A built-in microphone and a Stereo Mix device: only the second is
      reported. */
  lemma StereoMixScenario()
    ensures SystemAudioSources(["Built-in Mic", "Stereo Mix"]) == [(1, "Stereo Mix")]
  {
    var names := ["Built-in Mic", "Stereo Mix"];
    BuiltInMicIsNoSystemAudio();
    StereoMixIsSystemAudio();
    assert EnumerateUpTo(names, IsSystemAudioSource, 1) == [];
  }

  // ---------------------------------------------------------- get_valid_audio_sources

  /** The probe of `get_valid_audio_sources` (open the device and calibrate it
      for 0.1 s without an exception), as an oracle on the device index. */
  function ProbeKeeps(probeOk: nat -> bool): Source -> bool {
    (s: Source) => probeOk(s.0)
  }

  /** The pairs `get_valid_audio_sources` returns. */
  function ValidSources(names: seq<string>, probeOk: nat -> bool): seq<Source> {
    Enumerate(names, ProbeKeeps(probeOk))
  }

  /** The valid sources are exactly the pairs `(i, names[i])` whose own probe
      succeeded, in increasing index order: a failing device is skipped and
      does not affect the others. */
  lemma ValidSourcesSpec(names: seq<string>, probeOk: nat -> bool)
    ensures Increasing(ValidSources(names, probeOk))
    ensures forall s :: s in ValidSources(names, probeOk) <==>
      s.0 < |names| && s.1 == names[s.0] && probeOk(s.0)
  {
    EnumerateSpec(names, ProbeKeeps(probeOk));
  }

  /** get_valid_audio_sources: probe every device in turn; a failing probe
      skips that device and the scan goes on. */
  method GetValidAudioSources(names: seq<string>, probeOk: nat -> bool) returns (valid: seq<Source>)
    ensures valid == ValidSources(names, probeOk)
  {
    valid := [];
    for index := 0 to |names|
      invariant valid == EnumerateUpTo(names, ProbeKeeps(probeOk), index)
    {
      if probeOk(index) {
        valid := valid + [(index, names[index])];
      }
    }
  }

  /** `index in [idx for idx, _ in sources]` */
  predicate Listed(sources: seq<Source>, index: int) {
    exists k :: 0 <= k < |sources| && sources[k].0 == index
  }

  /** An index offered by a scan names an existing device. */
  lemma ListedInRange(names: seq<string>, probeOk: nat -> bool, index: int)
    requires Listed(ValidSources(names, probeOk), index)
    ensures 0 <= index < |names| && probeOk(index)
  {
    EnumerateSpec(names, ProbeKeeps(probeOk));
    var k :| 0 <= k < |ValidSources(names, probeOk)| && ValidSources(names, probeOk)[k].0 == index;
    assert ValidSources(names, probeOk)[k] in ValidSources(names, probeOk);
  }

  // --------------------------------------------------------------- test_audio_source

  /** The exception classes `test_audio_source` tells apart. */
  datatype Failure = OSFailure | OtherFailure

  /** What happened in one full test of a device once it was opened: the
      open/calibrate/listen/recognise pipeline either raised, timed out while
      waiting for speech, heard something it could not transcribe, or
      transcribed `text`. */
  datatype Run = Raised(failure: Failure) | ListenTimeout | Unrecognised | Recognised(text: string)

  /** The diagnostic category `test_audio_source` prints. */
  datatype Diagnostic =
    | OutOfRange          // "Device index ... is out of range."
    | DeviceInaccessible  // OSError: "Cannot access audio device"
    | TestError           // any other exception: "Error testing source"
    | NoAudio             // WaitTimeoutError: "No audio detected during test."
    | NotRecognised       // UnknownValueError: "Audio detected but couldn't be recognized."
    | Heard(text: string) // "Recognized: '...'"

  /** A returned test verdict, or the IndexError that escapes the name lookup
      (only the upper bound is checked, so an index below `-deviceCount`
      reaches `names[device_index]` and raises). */
  datatype TestResult = Tested(ok: bool, diagnostic: Diagnostic) | IndexErrorRaised

  /** test_audio_source(device_index) on a host with `deviceCount` devices,
      where `run` is what the test of that device came to. A negative index
      not below `-deviceCount` is looked up Python-style and handed to the
      device layer, whose outcome is again `run`. */
  function TestAudioSource(deviceCount: nat, index: int, run: Run): (r: TestResult)
    // The upper bound is checked before anything is opened.
    ensures index >= deviceCount ==> r == Tested(false, OutOfRange)
    ensures r.IndexErrorRaised? <==> index < -(deviceCount as int)
    // True exactly when the whole pipeline succeeded.
    ensures r.Tested? && r.ok <==> -(deviceCount as int) <= index < deviceCount && run.Recognised?
    ensures r.Tested? && r.ok ==> r.diagnostic == Heard(run.text)
    // The three failure modes after opening report distinct diagnostics.
    ensures -(deviceCount as int) <= index < deviceCount ==>
      r.Tested? &&
      (run == ListenTimeout <==> r.diagnostic == NoAudio) &&
      (run == Unrecognised <==> r.diagnostic == NotRecognised) &&
      (run.Raised? <==> r.diagnostic in {DeviceInaccessible, TestError})
  {
    if index >= deviceCount then Tested(false, OutOfRange)
    else if index < -(deviceCount as int) then IndexErrorRaised
    else
      match run
      case Raised(OSFailure) => Tested(false, DeviceInaccessible)
      case Raised(OtherFailure) => Tested(false, TestError)
      case ListenTimeout => Tested(false, NoAudio)
      case Unrecognised => Tested(false, NotRecognised)
      case Recognised(text) => Tested(true, Heard(text))
  }
}
