/** The glitch effect on headings: on hover (or, rarely, on focus) the text
    is redrawn every 30 ms with its characters scrambled, a growing prefix
    shown as written, until the whole text is back.

    The source counts `charIndex` up by 1/3 per tick; here `tick` counts the
    ticks, so `charIndex` is `tick / 3` and position `i` is shown as written
    exactly when `3 * i < tick`.  `Math.random()` is a parameter: one roll in
    [0, 1) per character and tick. */
module GlitchText {
  import opened JsRuntime

  /** The scramble alphabet, 28 UTF-16 units (the em dash is stored in the
      source as the three characters of its mis-decoded UTF-8 bytes). */
  const GlitchChars: string := "!<>-_\\/[]{}\U{00E2}\U{20AC}\U{201D}=+*^?#________"

  /** `glitchChars[Math.floor(Math.random() * glitchChars.length)]`. */
  function Pick(roll: real): (c: char)
    requires 0.0 <= roll < 1.0
    ensures c in GlitchChars && c != ' '
  {
    var k := (roll * 28.0).Floor;
    assert |GlitchChars| == 28;
    GlitchChars[k]
  }

  predicate Rolls(rolls: seq<real>)
  {
    forall i :: 0 <= i < |rolls| ==> 0.0 <= rolls[i] < 1.0
  }

  /** Whether position `i` is shown as written after `tick` ticks
      (`index < charIndex`). */
  predicate Revealed(i: nat, tick: nat)
  {
    3 * i < tick
  }

  /** What one tick draws: spaces stay, revealed positions show the text,
      every other position a random glitch character. */
  function Scramble(text: string, tick: nat, rolls: seq<real>): (r: string)
    requires |rolls| == |text| && Rolls(rolls)
    ensures |r| == |text|
    ensures forall i :: 0 <= i < |text| && text[i] == ' ' ==> r[i] == ' '
    ensures forall i :: 0 <= i < |text| && Revealed(i, tick) ==> r[i] == text[i]
    ensures forall i :: 0 <= i < |text| && text[i] != ' ' && !Revealed(i, tick) ==> r[i] in GlitchChars
  {
    seq(|text|, i requires 0 <= i < |text| =>
      if text[i] == ' ' then ' '
      else if Revealed(i, tick) then text[i]
      else Pick(rolls[i]))
  }

  /** A position once shown as written stays so on every later tick: the
      revealed prefix never shrinks. */
  lemma RevealedStays(text: string, t: nat, u: nat, a: seq<real>, b: seq<real>)
    requires t <= u
    requires |a| == |text| && Rolls(a) && |b| == |text| && Rolls(b)
    ensures forall i :: 0 <= i < |text| && Revealed(i, t) ==>
      Scramble(text, t, a)[i] == text[i] && Scramble(text, u, b)[i] == text[i]
  {
  }

  /** A position not yet revealed shows a character of the alphabet, so
      where the text has a letter outside it the drawing differs. */
  lemma HiddenPositionsDiffer(text: string, tick: nat, rolls: seq<real>, i: nat)
    requires |rolls| == |text| && Rolls(rolls)
    requires i < |text| && text[i] !in GlitchChars && text[i] != ' ' && !Revealed(i, tick)
    ensures Scramble(text, tick, rolls)[i] != text[i]
  {
  }

  /** How many ticks the interval runs: it stops on the tick after which
      `charIndex` reaches the length, and always runs at least once. */
  function TickCount(text: string): (n: nat)
    ensures n >= 1 && n >= 3 * |text|
    ensures n == 1 || n == 3 * |text|
  {
    if |text| == 0 then 1 else 3 * |text|
  }

  /** By the last tick every position is revealed, so stopping loses
      nothing: the drawing would already be the text. */
  lemma AllRevealedAtTheEnd(text: string, rolls: seq<real>)
    requires |rolls| == |text| && Rolls(rolls)
    ensures Scramble(text, TickCount(text) - 1, rolls) == text
  {
    var r := Scramble(text, TickCount(text) - 1, rolls);
    forall i | 0 <= i < |text| ensures r[i] == text[i] {
      assert Revealed(i, TickCount(text) - 1);
    }
  }

  /** The component's state for one text. */
  class Glitch {
    const text: string
    var display: string
    var glitching: bool
    /** Ticks run so far in the current glitch: `charIndex * 3`. */
    var tick: nat

    /** Out of a glitch the text is shown as written; in one, the interval
        has not yet reached its last tick. */
    predicate Valid()
      reads this
    {
      (!glitching ==> display == text) && (glitching ==> tick < TickCount(text))
    }

    constructor (text: string)
      ensures this.text == text && display == text && !glitching && Valid()
    {
      this.text := text;
      display, glitching, tick := text, false, 0;
    }

    /** `triggerGlitch`: nothing while a glitch runs; otherwise a glitch
        starts with `charIndex` at 0 and the display untouched. */
    method Trigger()
      requires Valid()
      modifies this
      ensures Valid() && glitching && display == old(display)
      ensures old(glitching) ==> tick == old(tick)
      ensures !old(glitching) ==> tick == 0
    {
      if glitching {
        return;
      }
      glitching := true;
      tick := 0;
    }

    /** One run of the interval callback: draw the scramble for the current
        `charIndex`, advance it by a third, and on reaching the length stop
        and put the text back. */
    method Tick(rolls: seq<real>)
      requires Valid() && glitching && |rolls| == |text| && Rolls(rolls)
      modifies this
      ensures Valid() && tick == old(tick) + 1
      ensures tick == TickCount(text) ==> !glitching && display == text
      ensures tick < TickCount(text) ==> glitching && display == Scramble(text, old(tick), rolls)
    {
      display := Scramble(text, tick, rolls);
      tick := tick + 1;
      if tick >= TickCount(text) {
        display := text;
        glitching := false;
      }
    }

    /** `randomGlitch`: a roll above 0.98 starts a glitch, unless one is
        running. */
    method RandomGlitch(roll: real)
      requires Valid()
      modifies this
      ensures Valid()
      ensures old(glitching) || roll <= 0.98 ==> glitching == old(glitching) && tick == old(tick) && display == old(display)
      ensures !old(glitching) && roll > 0.98 ==> glitching && tick == 0 && display == old(display)
    {
      if roll > 0.98 && !glitching {
        Trigger();
      }
    }
  }

  /** The interval from start to finish: a glitch that has just started
      runs exactly `TickCount` ticks and ends with the text as written and
      no glitch running. */
  method Animate(g: Glitch, rolls: seq<seq<real>>) returns (ticks: nat)
    requires g.Valid() && g.glitching && g.tick == 0
    requires |rolls| >= TickCount(g.text)
    requires forall k :: 0 <= k < |rolls| ==> |rolls[k]| == |g.text| && Rolls(rolls[k])
    modifies g
    ensures ticks == TickCount(g.text)
    ensures g.Valid() && !g.glitching && g.display == g.text
  {
    ticks := 0;
    while g.glitching
      invariant g.Valid() && g.tick == ticks
      invariant !g.glitching ==> ticks == TickCount(g.text)
      decreases TickCount(g.text) - ticks
    {
      g.Tick(rolls[ticks]);
      ticks := ticks + 1;
    }
  }
}
