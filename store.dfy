/** The global UI store (a zustand store in the site): one record of fields,
    a setter per field that overwrites that field alone, a read-modify-write
    audio toggle, and a rolling list of system messages capped at five. */
module Store {
  import opened JsRuntime

  /** How many messages the rolling list keeps. */
  const MessageCap: nat := 5

  datatype Point = Point(x: real, y: real)

  /** The store's fields as one value, so that a setter can be specified as
      "the old record with one field replaced". */
  datatype State = State(
    isLoading: bool,
    loadingProgress: real,
    bootComplete: bool,
    scrollProgress: real,
    currentPhase: int,
    projectMode: string,
    isHoveringSkill: Option<string>,
    cursorPosition: Point,
    audioEnabled: bool,
    systemMessages: seq<string>)

  function InitialState(): (s: State)
    ensures s.isLoading && s.loadingProgress == 0.0 && !s.bootComplete
    ensures s.scrollProgress == 0.0 && s.currentPhase == 0 && s.projectMode == "idle"
    ensures s.isHoveringSkill == None && s.cursorPosition == Point(0.0, 0.0)
    ensures !s.audioEnabled && s.systemMessages == []
  {
    State(true, 0.0, false, 0.0, 0, "idle", None, Point(0.0, 0.0), false, [])
  }

  /** The list `addSystemMessage` writes: the (at most) four most recent
      earlier messages, then the new one. */
  function WithMessage(msgs: seq<string>, m: string): (r: seq<string>)
    ensures |r| == if |msgs| + 1 <= MessageCap then |msgs| + 1 else MessageCap
    ensures r[|r| - 1] == m
    ensures r[..|r| - 1] == msgs[|msgs| - (|r| - 1)..]
  {
    Last(msgs, MessageCap - 1) + [m]
  }

  /** `addSystemMessage` is "append, then keep the newest five": the
      list it writes never exceeds the cap, keeps the retained messages in
      order and drops only the oldest. */
  lemma WithMessageIsAppendThenLast(msgs: seq<string>, m: string)
    ensures WithMessage(msgs, m) == Last(msgs + [m], MessageCap)
  {
    var r := WithMessage(msgs, m);
    var l := Last(msgs + [m], MessageCap);
    assert |r| == |l|;
    forall i | 0 <= i < |r| ensures r[i] == l[i] {
      if i < |r| - 1 {
        assert r[i] == r[..|r| - 1][i];
      }
    }
  }

  /** Adding several messages in order, one `addSystemMessage` each. */
  function AddAll(msgs: seq<string>, ms: seq<string>): seq<string>
    decreases |ms|
  {
    if ms == [] then msgs else AddAll(WithMessage(msgs, ms[0]), ms[1..])
  }

  /** After any non-empty run of messages the list is the newest five of
      everything added, in order; in particular it holds at most five and
      ends with the last message added. */
  lemma {:induction false} AddAllKeepsNewest(msgs: seq<string>, ms: seq<string>)
    requires ms != [] || |msgs| <= MessageCap
    ensures AddAll(msgs, ms) == Last(msgs + ms, MessageCap)
    decreases |ms|
  {
    if ms != [] {
      var next := WithMessage(msgs, ms[0]);
      AddAllKeepsNewest(next, ms[1..]);
      calc {
        AddAll(msgs, ms);
        AddAll(next, ms[1..]);
        Last(next + ms[1..], MessageCap);
        { WithMessageIsAppendThenLast(msgs, ms[0]); }
        Last(Last(msgs + [ms[0]], MessageCap) + ms[1..], MessageCap);
        { LastOfLast(msgs + [ms[0]], ms[1..]); }
        Last(msgs + [ms[0]] + ms[1..], MessageCap);
        { assert msgs + [ms[0]] + ms[1..] == msgs + ms; }
        Last(msgs + ms, MessageCap);
      }
    }
  }

  /** Taking the newest five, appending, then taking the newest five again
      is the same as appending first. */
  lemma LastOfLast(a: seq<string>, b: seq<string>)
    ensures Last(Last(a, MessageCap) + b, MessageCap) == Last(a + b, MessageCap)
  {
    var la := Last(a, MessageCap);
    var x := Last(la + b, MessageCap);
    var y := Last(a + b, MessageCap);
    assert |x| == |y|;
    forall i | 0 <= i < |x| ensures x[i] == y[i] {
      var k := |la + b| - |x| + i;
      if k < |la| {
        assert x[i] == la[k] == a[|a| - |la| + k];
      } else {
        assert x[i] == b[k - |la|];
      }
    }
  }

  /** The store object.  Each setter overwrites one field and states that
      the record is otherwise unchanged. */
  class NeuralState {
    var isLoading: bool
    var loadingProgress: real
    var bootComplete: bool
    var scrollProgress: real
    var currentPhase: int
    var projectMode: string
    var isHoveringSkill: Option<string>
    var cursorPosition: Point
    var audioEnabled: bool
    var systemMessages: seq<string>

    function Snapshot(): State
      reads this
    {
      State(isLoading, loadingProgress, bootComplete, scrollProgress, currentPhase,
            projectMode, isHoveringSkill, cursorPosition, audioEnabled, systemMessages)
    }

    constructor ()
      ensures Snapshot() == InitialState()
    {
      isLoading, loadingProgress, bootComplete := true, 0.0, false;
      scrollProgress, currentPhase := 0.0, 0;
      projectMode := "idle";
      isHoveringSkill, cursorPosition := None, Point(0.0, 0.0);
      audioEnabled, systemMessages := false, [];
    }

    method SetLoading(loading: bool)
      modifies this
      ensures Snapshot() == old(Snapshot()).(isLoading := loading)
    {
      isLoading := loading;
    }

    /** Stored as given: no clamping to 0..100. */
    method SetLoadingProgress(progress: real)
      modifies this
      ensures Snapshot() == old(Snapshot()).(loadingProgress := progress)
    {
      loadingProgress := progress;
    }

    method SetBootComplete(complete: bool)
      modifies this
      ensures Snapshot() == old(Snapshot()).(bootComplete := complete)
    {
      bootComplete := complete;
    }

    /** Stored as given: no clamping to 0..1. */
    method SetScrollProgress(progress: real)
      modifies this
      ensures Snapshot() == old(Snapshot()).(scrollProgress := progress)
    {
      scrollProgress := progress;
    }

    method SetCurrentPhase(phase: int)
      modifies this
      ensures Snapshot() == old(Snapshot()).(currentPhase := phase)
    {
      currentPhase := phase;
    }

    /** Any string: callers pass modes outside the declared union. */
    method SetProjectMode(mode: string)
      modifies this
      ensures Snapshot() == old(Snapshot()).(projectMode := mode)
    {
      projectMode := mode;
    }

    method SetHoveringSkill(skill: Option<string>)
      modifies this
      ensures Snapshot() == old(Snapshot()).(isHoveringSkill := skill)
    {
      isHoveringSkill := skill;
    }

    method SetCursorPosition(pos: Point)
      modifies this
      ensures Snapshot() == old(Snapshot()).(cursorPosition := pos)
    {
      cursorPosition := pos;
    }

    method ToggleAudio()
      modifies this
      ensures Snapshot() == old(Snapshot()).(audioEnabled := !old(audioEnabled))
    {
      audioEnabled := !audioEnabled;
    }

    method AddSystemMessage(message: string)
      modifies this
      ensures Snapshot() == old(Snapshot()).(systemMessages := WithMessage(old(systemMessages), message))
    {
      systemMessages := WithMessage(systemMessages, message);
    }

    method ClearSystemMessages()
      modifies this
      ensures Snapshot() == old(Snapshot()).(systemMessages := [])
    {
      systemMessages := [];
    }
  }

  /** Toggling the audio flag twice gives back the flag it started with, and
      touches nothing else. */
  method ToggleTwice(store: NeuralState)
    modifies store
    ensures store.Snapshot() == old(store.Snapshot())
  {
    store.ToggleAudio();
    store.ToggleAudio();
  }

  /** Clearing twice leaves the same store as clearing once. */
  method ClearTwice(store: NeuralState)
    modifies store
    ensures store.Snapshot() == old(store.Snapshot()).(systemMessages := [])
  {
    store.ClearSystemMessages();
    store.ClearSystemMessages();
  }
}
