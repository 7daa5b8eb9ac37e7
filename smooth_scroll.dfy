/** The smooth-scroll provider: on every scroll event it writes the scroll
    progress (offset divided by the scrollable range, unclamped) to the store
    and then the phase that progress falls in; vim-style keys pick a scroll
    target.  Nothing is wired up until the boot sequence has completed. */
module SmoothScroll {
  import opened JsRuntime
  import Store

  /** The phase boundaries, in order: Hero | About | Projects | Skills | Contact. */
  const Thresholds: seq<real> := [0.15, 0.3, 0.7, 0.9]

  /** The if-chain of the scroll handler. */
  function PhaseOf(progress: real): (phase: int)
    ensures 0 <= phase <= 4
  {
    if progress < 0.15 then 0
    else if progress < 0.3 then 1
    else if progress < 0.7 then 2
    else if progress < 0.9 then 3
    else 4
  }

  /** How many of `ts` the value has reached. */
  function CountReached(ts: seq<real>, progress: real): (n: nat)
    ensures n <= |ts|
  {
    if ts == [] then 0
    else (if ts[0] <= progress then 1 else 0) + CountReached(ts[1..], progress)
  }

  /** The phase is the number of thresholds the progress has reached: each
      bucket is closed on the left and open on the right. */
  lemma PhaseCountsThresholds(progress: real)
    ensures PhaseOf(progress) == CountReached(Thresholds, progress)
  {
    var t1, t2, t3 := Thresholds[1..], Thresholds[2..], Thresholds[3..];
    assert t1[1..] == t2 && t2[1..] == t3 && t3[1..] == [];
    assert CountReached(t3, progress) == if 0.9 <= progress then 1 else 0;
    assert CountReached(t2, progress) == (if 0.7 <= progress then 1 else 0) + CountReached(t3, progress);
    assert CountReached(t1, progress) == (if 0.3 <= progress then 1 else 0) + CountReached(t2, progress);
  }

  /** More scroll never means an earlier phase. */
  lemma PhaseMonotone(p: real, q: real)
    requires p <= q
    ensures PhaseOf(p) <= PhaseOf(q)
  {
  }

  /** Each bucket is exactly the interval between two thresholds, whatever
      the progress, below 0 and above 1 included. */
  lemma PhaseBuckets(p: real)
    ensures PhaseOf(p) == 0 <==> p < 0.15
    ensures PhaseOf(p) == 1 <==> 0.15 <= p < 0.3
    ensures PhaseOf(p) == 2 <==> 0.3 <= p < 0.7
    ensures PhaseOf(p) == 3 <==> 0.7 <= p < 0.9
    ensures PhaseOf(p) == 4 <==> 0.9 <= p
  {
  }

  /** What the division in the scroll handler yields as a JavaScript number:
      an ordinary value, or, for a page no taller than the window, an
      infinity or NaN. */
  datatype Quotient = Finite(value: real) | PosInfinity | NegInfinity | NotANumber

  function Divide(offset: real, range: real): (q: Quotient)
    ensures range != 0.0 ==> q == Finite(offset / range)
    ensures range == 0.0 && offset > 0.0 ==> q == PosInfinity
    ensures range == 0.0 && offset < 0.0 ==> q == NegInfinity
    ensures range == 0.0 && offset == 0.0 ==> q == NotANumber
  {
    if range != 0.0 then Finite(offset / range)
    else if offset > 0.0 then PosInfinity
    else if offset < 0.0 then NegInfinity
    else NotANumber
  }

  /** The if-chain run on any JavaScript number: every comparison with NaN
      is false, so NaN falls through to the last phase. */
  function PhaseOfQuotient(q: Quotient): (phase: int)
    ensures q.Finite? ==> phase == PhaseOf(q.value)
    ensures q.NotANumber? || q.PosInfinity? ==> phase == 4
    ensures q.NegInfinity? ==> phase == 0
  {
    match q
    case Finite(v) => PhaseOf(v)
    case PosInfinity => 4
    case NegInfinity => 0
    case NotANumber => 4
  }

  /** On a page no taller than the window every scroll event lands in the
      last phase, except an upward offset, which lands in the first. */
  lemma FlatPagePhase(offset: real)
    ensures PhaseOfQuotient(Divide(offset, 0.0)) == if offset < 0.0 then 0 else 4
  {
  }

  /** Where a key press asks Lenis to scroll to. */
  datatype ScrollTarget = Offset(y: real) | Top | Bottom

  /** `handleKeyDown`: j / ArrowDown go 100 down, k / ArrowUp 100 up,
      Shift+g to the bottom, g to the top; every other key does nothing. */
  function KeyTarget(key: string, shift: bool, scroll: real): (t: Option<ScrollTarget>)
    ensures (key == "j" || key == "ArrowDown") ==> t == Some(Offset(scroll + 100.0))
    ensures (key == "k" || key == "ArrowUp") ==> t == Some(Offset(scroll - 100.0))
    ensures key == "g" ==> t == Some(if shift then Bottom else Top)
    ensures t.None? <==> key !in {"j", "ArrowDown", "k", "ArrowUp", "g"}
  {
    if key == "j" || key == "ArrowDown" then Some(Offset(scroll + 100.0))
    else if key == "k" || key == "ArrowUp" then Some(Offset(scroll - 100.0))
    else if key == "g" && shift then Some(Bottom)
    else if key == "g" then Some(Top)
    else None
  }

  /** A step down followed by a step up lands where it started. */
  lemma DownThenUp(scroll: real, shift: bool)
    ensures var down := KeyTarget("j", shift, scroll);
            down.Some? && down.value.Offset? &&
            KeyTarget("k", shift, down.value.y) == Some(Offset(scroll))
  {
  }

  /** The provider.  `listening` says whether the Lenis instance and the key
      listener exist; `scroll` is Lenis's current offset; `requested` is the
      last scroll target handed to Lenis. */
  class Provider {
    var listening: bool
    var scroll: real
    var requested: Option<ScrollTarget>
    const store: Store.NeuralState

    constructor (store: Store.NeuralState)
      ensures this.store == store && !listening && scroll == 0.0 && requested == None
    {
      this.store := store;
      listening, scroll, requested := false, 0.0, None;
    }

    /** The effect that depends on `bootComplete`: listeners exist exactly
        while the boot has completed (the cleanup removes them otherwise). */
    method BootEffect()
      modifies this
      ensures listening == store.bootComplete
      ensures scroll == old(scroll) && requested == old(requested)
    {
      listening := store.bootComplete;
    }

    /** A Lenis scroll event at `offset` with scrollable range `range`
        (document height minus window height). */
    method OnScroll(offset: real, range: real)
      requires range != 0.0
      modifies this, store
      ensures listening == old(listening) && requested == old(requested)
      ensures !listening ==> store.Snapshot() == old(store.Snapshot()) && scroll == old(scroll)
      ensures listening ==> (scroll == offset
        && store.Snapshot() == old(store.Snapshot()).(scrollProgress := offset / range,
                                                        currentPhase := PhaseOf(offset / range)))
    {
      if listening {
        scroll := offset;
        var progress := offset / range;
        store.SetScrollProgress(progress);
        store.SetCurrentPhase(PhaseOf(progress));
      }
    }

    method OnKeyDown(key: string, shift: bool)
      modifies this
      ensures listening == old(listening) && scroll == old(scroll)
      ensures requested == if listening && KeyTarget(key, shift, scroll).Some?
                           then KeyTarget(key, shift, scroll) else old(requested)
    {
      if listening {
        var t := KeyTarget(key, shift, scroll);
        if t.Some? {
          requested := t;
        }
      }
    }
  }
}
