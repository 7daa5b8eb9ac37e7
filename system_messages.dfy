/** The system-message overlay: a timer that now and then posts one of ten
    canned messages, stamped with the time; an effect that posts a mode
    message while the scroll progress passes through one of four narrow
    windows; and a render that shows the newest three messages while the
    overlay is visible. */
module SystemMessages {
  import opened JsRuntime
  import Store

  // ---------------------------------------------------------------------
  // Scroll-triggered messages

  /** The windows of the scroll effect, each open at both ends, with the
      message it posts. */
  const Windows: seq<(real, real, string)> := [
    (0.2, 0.21, "[SYSTEM] Entering VISUAL_ANALYSIS_MODE..."),
    (0.4, 0.41, "[SYSTEM] Activating HARDWARE_LINK_MODE..."),
    (0.6, 0.61, "[SYSTEM] Loading SYSTEM_ARCHITECT_MODE..."),
    (0.8, 0.81, "[SYSTEM] Accessing SKILL_DATABASE...")
  ]

  predicate InWindow(p: real, k: nat)
    requires k < |Windows|
  {
    Windows[k].0 < p < Windows[k].1
  }

  /** The effect's if-chain: the message to post for a progress value, if
      any. */
  function ScrollMessage(p: real): (m: Option<string>)
  {
    if p > 0.2 && p < 0.21 then Some("[SYSTEM] Entering VISUAL_ANALYSIS_MODE...")
    else if p > 0.4 && p < 0.41 then Some("[SYSTEM] Activating HARDWARE_LINK_MODE...")
    else if p > 0.6 && p < 0.61 then Some("[SYSTEM] Loading SYSTEM_ARCHITECT_MODE...")
    else if p > 0.8 && p < 0.81 then Some("[SYSTEM] Accessing SKILL_DATABASE...")
    else None
  }

  /** A message is posted exactly inside a window, and it is that window's
      message. */
  lemma ScrollMessageWindows(p: real)
    ensures ScrollMessage(p).Some? <==> exists k :: 0 <= k < |Windows| && InWindow(p, k)
    ensures forall k :: 0 <= k < |Windows| && InWindow(p, k) ==> ScrollMessage(p) == Some(Windows[k].2)
  {
    if ScrollMessage(p).Some? {
      if p < 0.3 {
        assert InWindow(p, 0);
      } else if p < 0.5 {
        assert InWindow(p, 1);
      } else if p < 0.7 {
        assert InWindow(p, 2);
      } else {
        assert InWindow(p, 3);
      }
    }
  }

  /** The windows do not overlap, so one progress value posts at most one
      message. */
  lemma WindowsDisjoint(p: real, j: nat, k: nat)
    requires j < k < |Windows|
    ensures !(InWindow(p, j) && InWindow(p, k))
  {
  }

  /** The window edges themselves post nothing. */
  lemma EdgesPostNothing(k: nat)
    requires k < |Windows|
    ensures ScrollMessage(Windows[k].0) == None && ScrollMessage(Windows[k].1) == None
  {
  }

  // ---------------------------------------------------------------------
  // Random messages

  const Canned: seq<string> := [
    "WARNING: Visitor detected in sector 7",
    "ALERT: Unusual pattern recognized",
    "SCAN: Analyzing user behavior...",
    "STATUS: Connection stable",
    "INFO: Data stream active",
    "NOTICE: Archives unlocked",
    "PING: Server response 12ms",
    "LOG: Session duration increasing",
    "TRACE: Mouse movement tracked",
    "DEBUG: Render pipeline optimal"
  ]

  /** `messages[Math.floor(Math.random() * messages.length)]`, stamped with
      the locale time string `time`. */
  function RandomMessage(time: string, roll: real): (m: string)
    requires 0.0 <= roll < 1.0
    ensures |m| > |time| + 3 && m[..|time| + 3] == "[" + time + "] "
    ensures m[|time| + 3..] in Canned
  {
    var k := (roll * 10.0).Floor;
    assert |Canned| == 10;
    var stamp := "[" + time + "] ";
    assert |Canned[k]| > 0;
    assert (stamp + Canned[k])[..|stamp|] == stamp;
    assert (stamp + Canned[k])[|stamp|..] == Canned[k];
    stamp + Canned[k]
  }

  // ---------------------------------------------------------------------
  // Rendering

  /** The render: nothing while hidden or empty, else the newest three. */
  function Shown(visible: bool, msgs: seq<string>): (r: seq<string>)
    ensures r == [] <==> !visible || msgs == []
    ensures |r| <= 3 && |r| <= |msgs| && r == msgs[|msgs| - |r|..]
    ensures visible ==> |r| == if |msgs| < 3 then |msgs| else 3
  {
    if !visible || msgs == [] then [] else Last(msgs, 3)
  }

  /** Right after a message is posted the overlay ends with it, and shows
      as many of the store's messages as it can, up to three. */
  lemma NewestShownLast(msgs: seq<string>, m: string)
    ensures var r := Shown(true, Store.WithMessage(msgs, m));
      r != [] && r[|r| - 1] == m && |r| == if |msgs| < 3 then |msgs| + 1 else 3
  {
  }

  // ---------------------------------------------------------------------
  // The component

  class Overlay {
    var visible: bool
    const store: Store.NeuralState

    constructor (store: Store.NeuralState)
      ensures this.store == store && !visible
    {
      this.store := store;
      visible := false;
    }

    /** The five-second interval: with `fire` above 0.85, post the canned
        message `pick` selects and show the overlay. */
    method IntervalTick(fire: real, pick: real, time: string)
      requires 0.0 <= pick < 1.0
      modifies this, store
      ensures fire > 0.85 ==> (visible && store.Snapshot() ==
        old(store.Snapshot()).(systemMessages := Store.WithMessage(old(store.systemMessages), RandomMessage(time, pick))))
      ensures fire <= 0.85 ==> visible == old(visible) && store.Snapshot() == old(store.Snapshot())
    {
      if fire > 0.85 {
        store.AddSystemMessage(RandomMessage(time, pick));
        visible := true;
      }
    }

    /** The three-second timeout each posted message schedules. */
    method HideTimeout()
      modifies this
      ensures !visible
    {
      visible := false;
    }

    /** The scroll effect, run whenever the progress changes. */
    method ScrollEffect()
      modifies store
      ensures var m := ScrollMessage(old(store.scrollProgress));
        store.Snapshot() == if m.Some?
          then old(store.Snapshot()).(systemMessages := Store.WithMessage(old(store.systemMessages), m.value))
          else old(store.Snapshot())
    {
      var m := ScrollMessage(store.scrollProgress);
      if m.Some? {
        store.AddSystemMessage(m.value);
      }
    }
  }
}
