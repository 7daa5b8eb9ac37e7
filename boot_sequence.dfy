/** The boot sequence: two counters walk a fixed twelve-line script, typing
    one character per timer callback and, at the end of a line, moving the
    whole line into the transcript and raising the loading progress.  After
    the last line a glitch flash is started and, a moment later, the store's
    boot-complete flag is raised.  The timers become explicit `Tick` steps;
    the effect's cleanup becomes the `isCancelled` flag. */
module BootSequence {
  import opened JsRuntime
  import Store

  /** The script's lines, in order. */
  const Texts: seq<string> := [
    "> INITIALIZING  INTERFACE...",
    "> MOUNTING_CORE_COMPONENTS... [OK]",
    "> LOADING_SHADER_MODULES... [OK]",
    "> ESTABLISHING_SECURE_CONNECTION...",
    "> BYPASSING_FIREWALL... [SUCCESS]",
    "> DECRYPTING_ARCHIVES...",
    "> IDENTITY_VERIFIED: VISITOR",
    "> ACCESS_LEVEL: CLASSIFIED",
    "> SECURED_LINK_ESTABLISHED",
    "",
    "> HELLO USER",
    "> WELCOME TO SECURED TERMINAL"
  ]

  const LineCount: nat := 12

  // ---------------------------------------------------------------------
  // Progress and its labels

  /** `(messageIndex / bootMessages.length) * 100` after `k` finished lines. */
  function ProgressAfter(k: nat): (progress: real)
    ensures k <= LineCount ==> 0.0 <= progress <= 100.0
  {
    (k as real / LineCount as real) * 100.0
  }

  /** Progress starts at 0, rises strictly with every finished line and is
      exactly 100 after the last. */
  lemma ProgressRises(k: nat)
    requires k < LineCount
    ensures ProgressAfter(0) == 0.0 && ProgressAfter(LineCount) == 100.0
    ensures 0.0 <= ProgressAfter(k) < ProgressAfter(k + 1) <= 100.0
  {
  }

  /** The centre of the loader shows WELCOME instead of a percentage. */
  predicate ShowsWelcome(progress: real)
  {
    Round(progress) == 100
  }

  /** The status line reads READY rather than INITIALIZING. */
  predicate StatusReady(progress: real)
  {
    !(progress < 100.0)
  }

  /** Along the script's own progress values both labels flip exactly when
      the last line has finished: 11 lines give 91.67%, which rounds to 92. */
  lemma LabelsFlipAtTheEnd(k: nat)
    requires k <= LineCount
    ensures ShowsWelcome(ProgressAfter(k)) <==> k == LineCount
    ensures StatusReady(ProgressAfter(k)) <==> k == LineCount
  {
    if k < LineCount {
      assert ProgressAfter(k) <= 11.0 / 12.0 * 100.0;
    }
  }

  // ---------------------------------------------------------------------
  // Transcript colours

  datatype Colour = Green | Orange | Grey

  /** The class a transcript line is rendered with. */
  function LineColour(msg: string): Colour
  {
    if Contains(msg, "[OK]") || Contains(msg, "[SUCCESS]") then Green
    else if Contains(msg, "WELCOME") || Contains(msg, "CLASSIFIED") then Orange
    else Grey
  }

  /** A text lacking some character of `sub` cannot contain `sub`. */
  lemma MissingCharRulesOut(s: string, sub: string, j: nat)
    requires j < |sub| && sub[j] !in s
    ensures !Contains(s, sub)
  {
    if Contains(s, sub) {
      var i := ContainsWitness(s, sub);
    }
  }

  /** The colour each scripted line is shown in. */
  const Colours: seq<Colour> :=
    [Grey, Green, Green, Grey, Green, Grey, Grey, Orange, Grey, Grey, Grey, Orange]

  /** A line with no bracketed status that mentions WELCOME or CLASSIFIED
      at position `i` is orange. */
  lemma OrangeWith(s: string, sub: string, i: nat)
    requires '[' !in s && (sub == "WELCOME" || sub == "CLASSIFIED")
    requires i + |sub| <= |s| && s[i..i + |sub|] == sub
    ensures LineColour(s) == Orange
  {
    MissingCharRulesOut(s, "[OK]", 0);
    MissingCharRulesOut(s, "[SUCCESS]", 0);
    ContainsAt(s, sub, i);
  }

  /** A line without '[', without 'W' and without the `c`-th letter of
      CLASSIFIED has none of the four markers, so it is grey. */
  lemma GreyWithout(s: string, c: nat)
    requires c < 10
    requires forall i | 0 <= i < |s| :: s[i] != '[' && s[i] != 'W' && s[i] != "CLASSIFIED"[c]
    ensures LineColour(s) == Grey
  {
    MissingCharRulesOut(s, "[OK]", 0);
    MissingCharRulesOut(s, "[SUCCESS]", 0);
    MissingCharRulesOut(s, "WELCOME", 0);
    MissingCharRulesOut(s, "CLASSIFIED", c);
  }

  // One small lemma per line keeps each proof about a literal cheap.
  lemma Line0() ensures LineColour(Texts[0]) == Grey { GreyWithout(Texts[0], 9); }
  lemma Line1() ensures LineColour(Texts[1]) == Green { ContainsAt(Texts[1], "[OK]", 30); }
  lemma Line2() ensures LineColour(Texts[2]) == Green { ContainsAt(Texts[2], "[OK]", 28); }
  lemma Line3() ensures LineColour(Texts[3]) == Grey { GreyWithout(Texts[3], 9); }
  lemma Line4() ensures LineColour(Texts[4]) == Green { ContainsAt(Texts[4], "[SUCCESS]", 24); }
  lemma Line5() ensures LineColour(Texts[5]) == Grey { GreyWithout(Texts[5], 1); }
  lemma Line6() ensures LineColour(Texts[6]) == Grey { GreyWithout(Texts[6], 1); }
  lemma Line7() ensures LineColour(Texts[7]) == Orange { OrangeWith(Texts[7], "CLASSIFIED", 16); }
  lemma Line8() ensures LineColour(Texts[8]) == Grey { GreyWithout(Texts[8], 6); }
  lemma Line9() ensures LineColour(Texts[9]) == Grey { GreyWithout(Texts[9], 0); }
  lemma Line10() ensures LineColour(Texts[10]) == Grey { GreyWithout(Texts[10], 0); }
  lemma Line11() ensures LineColour(Texts[11]) == Orange
  {
    WelcomeAtTwo();
    OrangeWith(Texts[11], "WELCOME", 2);
  }

  lemma WelcomeAtTwo() ensures Texts[11][2..9] == "WELCOME"
  {
    var w := Texts[11];
    assert w[2] == 'W' && w[3] == 'E' && w[4] == 'L' && w[5] == 'C' && w[6] == 'O' && w[7] == 'M' && w[8] == 'E';
  }

  /** The [OK] and [SUCCESS] lines are green; the CLASSIFIED and WELCOME
      lines, which carry no bracketed status, are orange; every other line,
      the empty one included, is grey. */
  lemma ScriptColours(k: nat)
    requires k < LineCount
    ensures LineColour(Texts[k]) == Colours[k]
  {
    if k < 3 { ColoursFrom0(k); } else if k < 6 { ColoursFrom3(k); }
    else if k < 9 { ColoursFrom6(k); } else { ColoursFrom9(k); }
  }

  lemma ColoursFrom0(k: nat)
    requires k < 3
    ensures LineColour(Texts[k]) == Colours[k]
  {
    if k == 0 { Line0(); } else if k == 1 { Line1(); } else { Line2(); }
  }

  lemma ColoursFrom3(k: nat)
    requires 3 <= k < 6
    ensures LineColour(Texts[k]) == Colours[k]
  {
    if k == 3 { Line3(); } else if k == 4 { Line4(); } else { Line5(); }
  }

  lemma ColoursFrom6(k: nat)
    requires 6 <= k < 9
    ensures LineColour(Texts[k]) == Colours[k]
  {
    if k == 6 { Line6(); } else if k == 7 { Line7(); } else { Line8(); }
  }

  lemma ColoursFrom9(k: nat)
    requires 9 <= k < LineCount
    ensures LineColour(Texts[k]) == Colours[k]
  {
    if k == 9 { Line9(); } else if k == 10 { Line10(); } else { Line11(); }
  }

  /** The transcript shows only its newest six lines. */
  function VisibleLines(messages: seq<string>): (r: seq<string>)
    ensures |r| <= 6 && |r| <= |messages| && r == messages[|messages| - |r|..]
    ensures |messages| <= 6 ==> r == messages
  {
    Last(messages, 6)
  }

  // ---------------------------------------------------------------------
  // The typing state machine

  /** The two counters and what they have produced so far. */
  datatype Typing = Typing(messageIndex: nat, charIndex: nat, messages: seq<string>, currentLine: string)

  const Start: Typing := Typing(0, 0, [], "")

  // The typing machine is stated for any script; the component runs it on
  // `Texts`.

  /** The transcript is the finished lines of the script, in order, and the
      line being typed is a prefix of the next one, `charIndex` long. */
  ghost predicate TypingValid(script: seq<string>, t: Typing)
  {
    && t.messageIndex <= |script|
    && t.messages == script[..t.messageIndex]
    && (t.messageIndex < |script| ==>
          t.charIndex <= |script[t.messageIndex]| && t.currentLine == script[t.messageIndex][..t.charIndex])
    && (t.messageIndex == |script| ==> t.charIndex == 0 && t.currentLine == "")
  }

  /** One `typeMessage` callback while lines remain: type the next character,
      or finish the line. */
  function TypeStep(script: seq<string>, t: Typing): (u: Typing)
    requires t.messageIndex < |script|
    ensures TypingValid(script, t) ==> TypingValid(script, u)
    ensures t.charIndex < |script[t.messageIndex]| ==>
      u.messageIndex == t.messageIndex && u.charIndex == t.charIndex + 1 && u.messages == t.messages
    ensures t.charIndex >= |script[t.messageIndex]| ==>
      u == Typing(t.messageIndex + 1, 0, t.messages + [script[t.messageIndex]], "")
  {
    var text := script[t.messageIndex];
    if t.charIndex < |text| then
      t.(currentLine := text[..t.charIndex + 1], charIndex := t.charIndex + 1)
    else
      var u := Typing(t.messageIndex + 1, 0, t.messages + [text], "");
      assert TypingValid(script, t) ==> u.messages == script[..u.messageIndex] by {
        if TypingValid(script, t) { assert script[..t.messageIndex + 1] == script[..t.messageIndex] + [text]; }
      }
      u
  }

  /** `n` callbacks in a row (callbacks after the last line change nothing
      in the counters). */
  function Run(script: seq<string>, t: Typing, n: nat): Typing
    decreases n
  {
    if n == 0 || t.messageIndex >= |script| then t else Run(script, TypeStep(script, t), n - 1)
  }

  lemma {:induction false} RunAdds(script: seq<string>, t: Typing, a: nat, b: nat)
    ensures Run(script, t, a + b) == Run(script, Run(script, t, a), b)
    decreases a
  {
    if a > 0 && t.messageIndex < |script| {
      RunAdds(script, TypeStep(script, t), a - 1, b);
    }
  }

  /** From the start of a line, a line of length n takes n typing steps and
      one finishing step; the empty line finishes on its first step. */
  lemma {:induction false} LineTakesLengthPlusOne(script: seq<string>, t: Typing)
    requires TypingValid(script, t) && t.messageIndex < |script|
    ensures var text := script[t.messageIndex];
      t.charIndex <= |text| &&
      Run(script, t, |text| - t.charIndex + 1) == Typing(t.messageIndex + 1, 0, t.messages + [text], "")
    decreases |script[t.messageIndex]| - t.charIndex
  {
    var text := script[t.messageIndex];
    if t.charIndex < |text| {
      LineTakesLengthPlusOne(script, TypeStep(script, t));
    }
  }

  /** Callbacks needed from the start of line `k` to the end of the script. */
  function StepsFrom(script: seq<string>, k: nat): nat
    requires k <= |script|
    decreases |script| - k
  {
    if k == |script| then 0 else |script[k]| + 1 + StepsFrom(script, k + 1)
  }

  /** Typing the whole script yields the whole script as transcript, an
      empty current line and the index past the last line. */
  lemma {:induction false} WholeScript(script: seq<string>, k: nat)
    requires k <= |script|
    ensures Run(script, Typing(k, 0, script[..k], ""), StepsFrom(script, k)) == Typing(|script|, 0, script, "")
    decreases |script| - k
  {
    var t := Typing(k, 0, script[..k], "");
    if k == |script| {
      assert script[..k] == script;
    } else {
      LineTakesLengthPlusOne(script, t);
      RunAdds(script, t, |script[k]| + 1, StepsFrom(script, k + 1));
      assert script[..k] + [script[k]] == script[..k + 1];
      WholeScript(script, k + 1);
    }
  }

  // ---------------------------------------------------------------------
  // The component

  /** Which callback is scheduled next. */
  datatype Timer = TypeTimer | FinishTimer | BootTimer | NoTimer

  class Boot {
    var messageIndex: nat
    var charIndex: nat
    var messages: seq<string>
    var currentLine: string
    var isCancelled: bool
    var glitchActive: bool
    var pending: Timer
    const store: Store.NeuralState

    function State(): Typing
      reads this
    {
      Typing(messageIndex, charIndex, messages, currentLine)
    }

    ghost predicate Valid()
      reads this, store
    {
      && TypingValid(Texts, State())
      && store.loadingProgress == ProgressAfter(messageIndex)
      && (pending in {FinishTimer, BootTimer} ==> messageIndex == LineCount)
      && (glitchActive ==> messageIndex == LineCount)
    }

    /** The effect's first run: with boot not yet complete, the first
        callback is scheduled; otherwise nothing is. */
    constructor (store: Store.NeuralState)
      requires store.loadingProgress == 0.0
      ensures this.store == store && Valid() && State() == Start
      ensures !isCancelled && !glitchActive
      ensures pending == if store.bootComplete then NoTimer else TypeTimer
    {
      this.store := store;
      messageIndex, charIndex, messages, currentLine := 0, 0, [], "";
      isCancelled, glitchActive := false, false;
      pending := if store.bootComplete then NoTimer else TypeTimer;
    }

    /** The effect's cleanup.  Timers already scheduled still fire. */
    method Cancel()
      modifies this
      ensures isCancelled
      ensures State() == old(State()) && pending == old(pending) && glitchActive == old(glitchActive)
    {
      isCancelled := true;
    }

    /** A `typeMessage` callback: a cancelled run stops; past the last line
        the finishing callback is scheduled; otherwise one typing step is
        taken and the progress is written to the store. */
    method TypeCallback()
      requires Valid() && pending == TypeTimer
      modifies this, store
      ensures Valid()
      ensures isCancelled == old(isCancelled) && glitchActive == old(glitchActive)
      ensures old(isCancelled) ==>
        pending == NoTimer && State() == old(State()) && store.Snapshot() == old(store.Snapshot())
      ensures !old(isCancelled) && old(messageIndex) >= LineCount ==>
        pending == FinishTimer && State() == old(State()) && store.Snapshot() == old(store.Snapshot())
      ensures !old(isCancelled) && old(messageIndex) < LineCount ==>
        State() == TypeStep(Texts, old(State())) && pending == TypeTimer
        && store.Snapshot() == old(store.Snapshot()).(loadingProgress := ProgressAfter(messageIndex))
    {
      if isCancelled {
        pending := NoTimer;
      } else if messageIndex >= LineCount {
        pending := FinishTimer;
      } else {
        var next := TypeStep(Texts, State());
        messageIndex, charIndex := next.messageIndex, next.charIndex;
        messages, currentLine := next.messages, next.currentLine;
        if charIndex == 0 {
          // the line is finished: the progress moves on
          store.SetLoadingProgress(ProgressAfter(messageIndex));
        }
      }
    }

    /** The callback after the last line: the glitch flash starts and the
        boot-complete callback is scheduled, unless the run was cancelled. */
    method FinishCallback()
      requires Valid() && pending == FinishTimer
      modifies this
      ensures Valid()
      ensures State() == old(State()) && isCancelled == old(isCancelled)
      ensures old(isCancelled) ==> pending == NoTimer && glitchActive == old(glitchActive)
      ensures !old(isCancelled) ==> pending == BootTimer && glitchActive
    {
      if isCancelled {
        pending := NoTimer;
      } else {
        glitchActive := true;
        pending := BootTimer;
      }
    }

    /** The boot-complete callback does not look at the cancellation flag:
        it raises the store's flag, whose change re-runs the effect, whose
        cleanup cancels this run. */
    method BootCallback()
      requires Valid() && pending == BootTimer
      modifies this, store
      ensures Valid()
      ensures State() == old(State()) && glitchActive == old(glitchActive)
      ensures store.Snapshot() == old(store.Snapshot()).(bootComplete := true)
      ensures pending == NoTimer && isCancelled
    {
      store.SetBootComplete(true);
      pending := NoTimer;
      isCancelled := true;
    }

    /** The scheduled callback fires. */
    method Tick()
      requires Valid()
      modifies this, store
      ensures Valid()
      // typing callbacks
      ensures old(pending) == TypeTimer && !old(isCancelled) && old(messageIndex) < LineCount ==>
        State() == TypeStep(Texts, old(State())) && pending == TypeTimer
        && store.Snapshot() == old(store.Snapshot()).(loadingProgress := ProgressAfter(messageIndex))
      ensures old(pending) == TypeTimer && !old(isCancelled) && old(messageIndex) >= LineCount ==>
        pending == FinishTimer && State() == old(State()) && store.Snapshot() == old(store.Snapshot())
      // the flash, then the store flag; only the flash checks for cancellation
      ensures old(pending) == FinishTimer && !old(isCancelled) ==>
        glitchActive && pending == BootTimer && store.Snapshot() == old(store.Snapshot())
      ensures old(pending) == BootTimer ==>
        store.Snapshot() == old(store.Snapshot()).(bootComplete := true) && pending == NoTimer && isCancelled
      // a cancelled run stops without touching anything but the pending timer
      ensures old(isCancelled) && old(pending) != BootTimer ==>
        pending == NoTimer && State() == old(State()) && glitchActive == old(glitchActive)
        && store.Snapshot() == old(store.Snapshot())
      // the flag is raised only once every line has been typed
      ensures store.bootComplete && !old(store.bootComplete) ==> messageIndex == LineCount
      ensures old(pending) != BootTimer ==> isCancelled == old(isCancelled)
      // with nothing scheduled nothing happens
      ensures old(pending) == NoTimer ==> (State() == old(State()) && pending == NoTimer
        && glitchActive == old(glitchActive) && store.Snapshot() == old(store.Snapshot()))
    {
      match pending
      case NoTimer =>
      case TypeTimer => TypeCallback();
      case FinishTimer => FinishCallback();
      case BootTimer => BootCallback();
    }
  }
}
