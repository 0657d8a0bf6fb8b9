/** The listening step and the turn loop of ai-response-speech.py
    (`listen` and `run_interactive`) as specification functions. Speech
    capture and recognition are an oracle represented by `Capture`; the
    completion server is an oracle `replies` giving, for the k-th call of
    `generate_response`, the reply or None when the call raised. */
module Conversation {
  import opened Text

  /** What one `listen()` call came to: an exception while opening or
      calibrating, a WaitTimeoutError, an UnknownValueError, a RequestError,
      or recognised text. */
  datatype Capture = CaptureFailed | NoSpeech | NotUnderstood | RequestFailed | Understood(text: string)

  /** The string `listen()` returns: the recognised text, and "" on every
      kind of failure. */
  function Transcript(c: Capture): (text: string)
    ensures c.Understood? ==> text == c.text
    ensures !c.Understood? ==> text == ""
  {
    match c
    case Understood(t) => t
    case _ => ""
  }

  function Transcripts(cs: seq<Capture>): (texts: seq<string>)
    ensures |texts| == |cs|
    ensures forall i :: 0 <= i < |cs| ==> texts[i] == Transcript(cs[i])
  {
    seq(|cs|, i requires 0 <= i < |cs| => Transcript(cs[i]))
  }

  /** `user_input.lower() in ['quit', 'exit', 'bye']` */
  function IsQuitWord(s: string): (b: bool)
    // An empty voice input is never taken for a quit word.
    ensures b ==> s != ""
  {
    var l := Lower(s);
    l == "quit" || l == "exit" || l == "bye"
  }

  /** The quit test ignores case: "QUIT", "Exit" and "bye" all end the session. */
  lemma QuitWordIgnoresCase(s: string)
    ensures IsQuitWord(Lower(s)) == IsQuitWord(s)
    ensures IsQuitWord("QUIT") && IsQuitWord("Exit") && IsQuitWord("bye")
  {
    LowerIdempotent(s);
    assert Lower("QUIT") == "quit";
    assert Lower("Exit") == "exit";
    assert Lower("bye") == "bye";
  }

  /** What a session did: the prompts sent to `generate_response`, in
      order, the texts passed to `speak`, and whether it ended on a quit word. */
  datatype Session = Session(prompts: seq<string>, spoken: seq<string>, quit: bool)

  const Farewell := "Goodbye!"

  /** What the reply to one call contributes to the spoken texts. */
  function Said(reply: Option<string>): seq<string> {
    match reply case Some(r) => [r] case None => []
  }

  /** `run_interactive` over the turn inputs `texts` from position `start`
      on, after `calls` calls of `generate_response`, the prompts `prompts`
      and the spoken texts `spoken`. With `skipEmpty` (voice input) an empty
      text is skipped; a quit word speaks the farewell and stops; any other
      text is sent, and the reply, when the call did not raise, is spoken.
      A raising call is reported and the loop goes on. */
  function ChatFrom(texts: seq<string>, skipEmpty: bool, replies: nat -> Option<string>, start: nat, calls: nat,
                    prompts: seq<string>, spoken: seq<string>): (s: Session)
    decreases |texts| - start
  {
    if start >= |texts| then Session(prompts, spoken, false)
    else
      var text := texts[start];
      if skipEmpty && text == "" then ChatFrom(texts, skipEmpty, replies, start + 1, calls, prompts, spoken)
      else if IsQuitWord(text) then Session(prompts, spoken + [Farewell], true)
      else ChatFrom(texts, skipEmpty, replies, start + 1, calls + 1, prompts + [text], spoken + Said(replies(calls)))
  }

  function Chat(texts: seq<string>, skipEmpty: bool, replies: nat -> Option<string>): Session {
    ChatFrom(texts, skipEmpty, replies, 0, 0, [], [])
  }

  // A reference description of the same session, built from simple pieces.

  /** The farewell, spoken when the session ends on a quit word. */
  function Closing(quit: bool): seq<string> {
    if quit then [Farewell] else []
  }

  /** Position of the first quit word at or after `start`, or |texts| when
      there is none. */
  function FirstQuit(texts: seq<string>, start: nat): (n: nat)
    requires start <= |texts|
    ensures start <= n <= |texts|
    ensures forall i :: start <= i < n ==> !IsQuitWord(texts[i])
    ensures n < |texts| ==> IsQuitWord(texts[n])
    decreases |texts| - start
  {
    if start == |texts| then start
    else if IsQuitWord(texts[start]) then start
    else FirstQuit(texts, start + 1)
  }

  /** The texts at positions `start` up to `end` that are sent: all of them,
      or the non-empty ones when empty input is skipped. */
  function Sendable(texts: seq<string>, skipEmpty: bool, start: nat, end: nat): seq<string>
    requires start <= end <= |texts|
    decreases end - start
  {
    if start == end then []
    else (if skipEmpty && texts[start] == "" then [] else [texts[start]]) + Sendable(texts, skipEmpty, start + 1, end)
  }

  /** The replies to `n` calls starting with call `from`, leaving out the
      calls that raised. */
  function Answers(replies: nat -> Option<string>, from: nat, n: nat): seq<string>
    decreases n
  {
    if n == 0 then []
    else Said(replies(from)) + Answers(replies, from + 1, n - 1)
  }

  lemma AppendAssociative(a: seq<string>, b: seq<string>, c: seq<string>)
    ensures a + b + c == a + (b + c)
  {
  }

  /** Speaking the reply to call `calls` and then the answers to the next
      `n` calls is speaking the answers to `n + 1` calls from `calls`. */
  lemma AnswersStep(replies: nat -> Option<string>, calls: nat, n: nat, spoken: seq<string>, closing: seq<string>)
    ensures spoken + Said(replies(calls)) + Answers(replies, calls + 1, n) + closing ==
      spoken + Answers(replies, calls, n + 1) + closing
  {
    var said := Said(replies(calls));
    var later := Answers(replies, calls + 1, n);
    assert spoken + said + later + closing == spoken + (said + later) + closing;
  }

  /** The prompts sent from position `start` on are the sendable texts
      before the first quit word. */
  lemma {:induction false} ChatFromPrompts(texts: seq<string>, skipEmpty: bool, replies: nat -> Option<string>,
                                           start: nat, calls: nat, prompts: seq<string>, spoken: seq<string>)
    requires start <= |texts|
    ensures ChatFrom(texts, skipEmpty, replies, start, calls, prompts, spoken).prompts ==
      prompts + Sendable(texts, skipEmpty, start, FirstQuit(texts, start))
    decreases |texts| - start
  {
    if start < |texts| && !IsQuitWord(texts[start]) {
      var text := texts[start];
      var sent' := Sendable(texts, skipEmpty, start + 1, FirstQuit(texts, start + 1));
      if skipEmpty && text == "" {
        ChatFromPrompts(texts, skipEmpty, replies, start + 1, calls, prompts, spoken);
      } else {
        ChatFromPrompts(texts, skipEmpty, replies, start + 1, calls + 1, prompts + [text], spoken + Said(replies(calls)));
        AppendAssociative(prompts, [text], sent');
      }
    }
  }

  /** From position `start` on, the session ends on a quit word exactly when
      one follows. */
  lemma {:induction false} ChatFromQuit(texts: seq<string>, skipEmpty: bool, replies: nat -> Option<string>,
                                        start: nat, calls: nat, prompts: seq<string>, spoken: seq<string>)
    requires start <= |texts|
    ensures ChatFrom(texts, skipEmpty, replies, start, calls, prompts, spoken).quit == (FirstQuit(texts, start) < |texts|)
    decreases |texts| - start
  {
    if start < |texts| && !IsQuitWord(texts[start]) {
      var text := texts[start];
      if skipEmpty && text == "" {
        ChatFromQuit(texts, skipEmpty, replies, start + 1, calls, prompts, spoken);
      } else {
        ChatFromQuit(texts, skipEmpty, replies, start + 1, calls + 1, prompts + [text], spoken + Said(replies(calls)));
      }
    }
  }

  /** What is spoken from position `start` on: the replies to the calls for
      the sendable texts, leaving out those that raised, then the farewell if
      a quit word follows. */
  lemma {:induction false} ChatFromSpoken(texts: seq<string>, skipEmpty: bool, replies: nat -> Option<string>,
                                          start: nat, calls: nat, prompts: seq<string>, spoken: seq<string>)
    requires start <= |texts|
    ensures var quitAt := FirstQuit(texts, start);
      ChatFrom(texts, skipEmpty, replies, start, calls, prompts, spoken).spoken ==
        spoken + Answers(replies, calls, |Sendable(texts, skipEmpty, start, quitAt)|) + Closing(quitAt < |texts|)
    decreases |texts| - start
  {
    if start < |texts| && !IsQuitWord(texts[start]) {
      var text := texts[start];
      var quitAt := FirstQuit(texts, start + 1);
      var n' := |Sendable(texts, skipEmpty, start + 1, quitAt)|;
      var closing := Closing(quitAt < |texts|);
      if skipEmpty && text == "" {
        ChatFromSpoken(texts, skipEmpty, replies, start + 1, calls, prompts, spoken);
      } else {
        ChatFromSpoken(texts, skipEmpty, replies, start + 1, calls + 1, prompts + [text], spoken + Said(replies(calls)));
        AnswersStep(replies, calls, n', spoken, closing);
      }
    } else if start < |texts| {
      assert spoken + Answers(replies, calls, 0) + Closing(true) == spoken + [Farewell];
    }
  }

  /** From any position, the loop sends the sendable texts before the first
      quit word and speaks the replies to those calls that did not raise,
      then the farewell if it quit. */
  lemma ChatFromMatchesReference(texts: seq<string>, skipEmpty: bool, replies: nat -> Option<string>,
                                 start: nat, calls: nat, prompts: seq<string>, spoken: seq<string>)
    requires start <= |texts|
    ensures var quitAt := FirstQuit(texts, start);
      var sent := Sendable(texts, skipEmpty, start, quitAt);
      ChatFrom(texts, skipEmpty, replies, start, calls, prompts, spoken) ==
        Session(prompts + sent, spoken + Answers(replies, calls, |sent|) + Closing(quitAt < |texts|), quitAt < |texts|)
  {
    ChatFromPrompts(texts, skipEmpty, replies, start, calls, prompts, spoken);
    ChatFromQuit(texts, skipEmpty, replies, start, calls, prompts, spoken);
    ChatFromSpoken(texts, skipEmpty, replies, start, calls, prompts, spoken);
  }

  /** The session, described without the loop: the prompts are the sendable
      texts before the first quit word, in order; it ends on a quit word
      exactly when there is one; and what is spoken is the reply to every
      call that did not raise, followed by the farewell when it quit. */
  lemma ChatMatchesReference(texts: seq<string>, skipEmpty: bool, replies: nat -> Option<string>)
    ensures var s := Chat(texts, skipEmpty, replies);
      && s.prompts == Sendable(texts, skipEmpty, 0, FirstQuit(texts, 0))
      && s.quit == (exists i :: 0 <= i < |texts| && IsQuitWord(texts[i]))
      && s.spoken == Answers(replies, 0, |s.prompts|) + Closing(s.quit)
  {
    ChatFromMatchesReference(texts, skipEmpty, replies, 0, 0, [], []);
  }

  /** A text is sent exactly when it lies in the range and is not an empty
      voice input. */
  lemma {:induction false} SendableSpec(texts: seq<string>, skipEmpty: bool, start: nat, end: nat)
    requires start <= end <= |texts|
    ensures forall t :: t in Sendable(texts, skipEmpty, start, end) <==>
      t in texts[start..end] && !(skipEmpty && t == "")
    decreases end - start
  {
    if start < end {
      SendableSpec(texts, skipEmpty, start + 1, end);
      assert texts[start..end] == [texts[start]] + texts[start + 1..end];
    }
  }

  /** No quit word is ever sent, and in voice mode no empty input is. */
  lemma QuitWordsAndSilenceNeverSent(texts: seq<string>, skipEmpty: bool, replies: nat -> Option<string>)
    ensures forall p :: p in Chat(texts, skipEmpty, replies).prompts ==>
      !IsQuitWord(p) && !(skipEmpty && p == "")
  {
    ChatMatchesReference(texts, skipEmpty, replies);
    var quitAt := FirstQuit(texts, 0);
    SendableSpec(texts, skipEmpty, 0, quitAt);
    forall p | p in texts[0..quitAt] ensures !IsQuitWord(p) {
      var i :| 0 <= i < quitAt && texts[i] == p;
    }
  }

  /** A failing `generate_response` never ends the session: the prompts
      sent do not depend on the replies. */
  lemma FailuresDoNotEndSession(texts: seq<string>, skipEmpty: bool, r1: nat -> Option<string>, r2: nat -> Option<string>)
    ensures Chat(texts, skipEmpty, r1).prompts == Chat(texts, skipEmpty, r2).prompts
    ensures Chat(texts, skipEmpty, r1).quit == Chat(texts, skipEmpty, r2).quit
  {
    ChatMatchesReference(texts, skipEmpty, r1);
    ChatMatchesReference(texts, skipEmpty, r2);
  }
}
