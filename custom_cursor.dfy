/** The custom cursor: an outer ring that chases the pointer through a
    damped velocity, an inner dot on the pointer itself, three trailing
    dots, and a hover classification of the element under the pointer that
    sets the ring's scale and colour.  Nothing is shown and no listener is
    installed on a touch device, which the component assumes until its
    first effect has looked. */
module CustomCursor {
  import opened JsRuntime

  // ---------------------------------------------------------------------
  // Hover classification

  /** The element under the pointer: its tag name (upper case, as the DOM
      reports it), the tag names of its ancestors, and its classes. */
  datatype Element = Element(tag: string, ancestors: seq<string>, classes: set<string>)

  /** `target.closest(selector)` for a tag selector: the element itself or
      one of its ancestors has the tag. */
  predicate Closest(e: Element, tag: string)
  {
    e.tag == tag || tag in e.ancestors
  }

  predicate InInput(e: Element)
  {
    Closest(e, "INPUT") || Closest(e, "TEXTAREA")
  }

  predicate InButton(e: Element)
  {
    Closest(e, "BUTTON") || "hoverable-button" in e.classes
  }

  predicate InLink(e: Element)
  {
    Closest(e, "A") || "hoverable" in e.classes
  }

  datatype HoverType = Link | Button | Input

  /** `getHoverType`: an input beats a button, a button beats a link. */
  function GetHoverType(e: Element): (t: Option<HoverType>)
    ensures t == Some(Input) <==> InInput(e)
    ensures t == Some(Button) <==> !InInput(e) && InButton(e)
    ensures t == Some(Link) <==> !InInput(e) && !InButton(e) && InLink(e)
    ensures t == None <==> !InInput(e) && !InButton(e) && !InLink(e)
  {
    if InInput(e) then Some(Input)
    else if InButton(e) then Some(Button)
    else if InLink(e) then Some(Link)
    else None
  }

  /** Anything inside a text field is an input, whatever its own tag and
      classes. */
  lemma InsideAFieldIsInput(e: Element)
    requires "INPUT" in e.ancestors || "TEXTAREA" in e.ancestors
    ensures GetHoverType(e) == Some(Input)
  {
  }

  /** The classes only matter outside fields: adding or removing classes
      never turns an input into anything else or anything else into an
      input. */
  lemma ClassesNeverMakeAnInput(e: Element, classes: set<string>)
    ensures GetHoverType(e) == Some(Input) <==> GetHoverType(e.(classes := classes)) == Some(Input)
  {
  }

  // ---------------------------------------------------------------------
  // Scales and trails

  /** The ring's scale: shrunk while pressed, grown while hovering. */
  function OuterScale(clicking: bool, hovering: bool): (s: real)
    ensures clicking ==> s == 0.8
    ensures !clicking && hovering ==> s == 1.5
    ensures !clicking && !hovering ==> s == 1.0
  {
    if clicking then 0.8 else if hovering then 1.5 else 1.0
  }

  /** The dot's scale: grown while pressed, shrunk while hovering. */
  function InnerScale(clicking: bool, hovering: bool): (s: real)
    ensures clicking ==> s == 1.5
    ensures !clicking && hovering ==> s == 0.5
    ensures !clicking && !hovering ==> s == 1.0
  {
    if clicking then 1.5 else if hovering then 0.5 else 1.0
  }

  /** Ring and dot always move in opposite directions from their resting
      size, and both rest exactly when neither pressed nor hovering. */
  lemma ScalesOpposite(clicking: bool, hovering: bool)
    ensures (OuterScale(clicking, hovering) - 1.0) * (InnerScale(clicking, hovering) - 1.0) <= 0.0
    ensures OuterScale(clicking, hovering) == 1.0 <==> !clicking && !hovering
    ensures InnerScale(clicking, hovering) == 1.0 <==> !clicking && !hovering
  {
  }

  /** `Math.max(0.3, 1 - (i + 1) * 0.15)`. */
  function TrailScale(i: nat): (s: real)
    ensures s >= 0.3 && s <= 0.85
  {
    Max(0.3, 1.0 - (i + 1) as real * 0.15)
  }

  /** `Math.max(0.1, 0.4 - i * 0.1)`. */
  function TrailOpacity(i: nat): (o: real)
    ensures o >= 0.1 && o <= 0.4
  {
    Max(0.1, 0.4 - i as real * 0.1)
  }

  /** Later trail dots are never larger nor more opaque. */
  lemma TrailFades(i: nat, j: nat)
    requires i <= j
    ensures TrailScale(j) <= TrailScale(i) && TrailOpacity(j) <= TrailOpacity(i)
  {
  }

  datatype Vec = Vec(x: real, y: real)

  /** Trail dot `i` sits at `cursor + (mouse - cursor) * (1 - (i + 1) * 0.08)`. */
  function TrailPosition(cursor: Vec, mouse: Vec, i: nat): Vec
  {
    var f := 1.0 - (i + 1) as real * 0.08;
    Vec(cursor.x + (mouse.x - cursor.x) * f, cursor.y + (mouse.y - cursor.y) * f)
  }

  predicate Between(a: real, b: real, v: real)
  {
    (a <= v <= b) || (b <= v <= a)
  }

  /** Each of the three trail dots lies between the ring and the pointer
      on both axes. */
  lemma TrailBetweenRingAndPointer(cursor: Vec, mouse: Vec, i: nat)
    requires i < 3
    ensures var p := TrailPosition(cursor, mouse, i);
      Between(cursor.x, mouse.x, p.x) && Between(cursor.y, mouse.y, p.y)
  {
    var f := 1.0 - (i + 1) as real * 0.08;
    assert 0.0 <= f <= 1.0;
    AffineBetween(cursor.x, mouse.x, f);
    AffineBetween(cursor.y, mouse.y, f);
  }

  /** `a + (b - a) * f` lies between `a` and `b` for `f` in [0, 1]. */
  lemma AffineBetween(a: real, b: real, f: real)
    requires 0.0 <= f <= 1.0
    ensures Between(a, b, a + (b - a) * f)
  {
    var d := b - a;
    assert a + d * f == a + d - d * (1.0 - f);
    if a <= b {
      assert d * f >= 0.0 && d * (1.0 - f) >= 0.0;
    } else {
      var e := a - b;
      assert e * f >= 0.0 && e * (1.0 - f) >= 0.0;
      assert d * f == -(e * f) && d * (1.0 - f) == -(e * (1.0 - f));
    }
  }

  // ---------------------------------------------------------------------
  // The chase

  /** One axis of `animate`: the velocity moves a fifth of the way to the
      distance, then the ring moves 0.35 of the velocity. */
  function Chase(mouse: real, pos: real, vel: real): (r: (real, real))
  {
    var v := vel + ((mouse - pos) - vel) * 0.2;
    (pos + v * 0.35, v)
  }

  /** The ring stands still (and keeps no velocity) exactly when it is on
      the pointer with no velocity. */
  lemma ChaseRestsExactlyOnThePointer(mouse: real, pos: real, vel: real)
    ensures Chase(mouse, pos, vel) == (pos, vel) <==> pos == mouse && vel == 0.0
  {
    var v := vel + ((mouse - pos) - vel) * 0.2;
    if Chase(mouse, pos, vel) == (pos, vel) {
      assert v == vel && v * 0.35 == 0.0;
    }
  }

  /** Only the distance to the pointer matters: moving pointer and ring
      together moves the ring's next position by the same amount. */
  lemma ChaseTranslates(mouse: real, pos: real, vel: real, d: real)
    ensures Chase(mouse + d, pos + d, vel) == (Chase(mouse, pos, vel).0 + d, Chase(mouse, pos, vel).1)
  {
  }

  // ---------------------------------------------------------------------
  // The component

  class Cursor {
    const enabled: bool
    var touchDevice: bool
    var mouse: Vec
    var pos: Vec
    var vel: Vec
    var hovering: bool
    var clicking: bool
    var visible: bool
    var hoverType: Option<HoverType>

    /** The flag is the hover type being set. */
    predicate Valid()
      reads this
    {
      hovering <==> hoverType.Some?
    }

    /** Listeners and the animation loop exist, and anything renders, only
        when enabled and not on a touch device. */
    predicate Active()
      reads this
    {
      enabled && !touchDevice
    }

    /** Off-screen at (-100, -100), at rest, assumed to be a touch device. */
    constructor (enabled: bool)
      ensures this.enabled == enabled && touchDevice && !Active() && Valid()
      ensures mouse == Vec(-100.0, -100.0) && pos == Vec(-100.0, -100.0) && vel == Vec(0.0, 0.0)
      ensures !hovering && !clicking && !visible && hoverType == None
    {
      this.enabled := enabled;
      touchDevice := true;
      mouse, pos, vel := Vec(-100.0, -100.0), Vec(-100.0, -100.0), Vec(0.0, 0.0);
      hovering, clicking, visible, hoverType := false, false, false, None;
    }

    /** The mount effect's detection. */
    method DetectTouch(touch: bool)
      modifies this
      ensures touchDevice == touch
      ensures mouse == old(mouse) && pos == old(pos) && vel == old(vel) && visible == old(visible)
      ensures hovering == old(hovering) && clicking == old(clicking) && hoverType == old(hoverType)
    {
      touchDevice := touch;
    }

    method MouseMove(x: real, y: real)
      modifies this
      ensures Active() ==> mouse == Vec(x, y) && visible
      ensures !Active() ==> mouse == old(mouse) && visible == old(visible)
      ensures touchDevice == old(touchDevice) && pos == old(pos) && vel == old(vel)
      ensures hovering == old(hovering) && clicking == old(clicking) && hoverType == old(hoverType)
    {
      if Active() {
        mouse := Vec(x, y);
        visible := true;
      }
    }

    /** Mouse entering (`inside`) or leaving the document. */
    method MouseEnterLeave(inside: bool)
      modifies this
      ensures visible == if Active() then inside else old(visible)
      ensures touchDevice == old(touchDevice) && mouse == old(mouse) && pos == old(pos) && vel == old(vel)
      ensures hovering == old(hovering) && clicking == old(clicking) && hoverType == old(hoverType)
    {
      if Active() {
        visible := inside;
      }
    }

    /** Mouse button pressed (`down`) or released. */
    method MouseButton(down: bool)
      modifies this
      ensures clicking == if Active() then down else old(clicking)
      ensures touchDevice == old(touchDevice) && mouse == old(mouse) && pos == old(pos) && vel == old(vel)
      ensures hovering == old(hovering) && visible == old(visible) && hoverType == old(hoverType)
    {
      if Active() {
        clicking := down;
      }
    }

    /** `handleMouseOver`: classify the element under the pointer. */
    method MouseOver(target: Element)
      requires Valid()
      modifies this
      ensures Valid()
      ensures Active() ==> hoverType == GetHoverType(target)
      ensures !Active() ==> hoverType == old(hoverType)
      ensures touchDevice == old(touchDevice) && mouse == old(mouse) && pos == old(pos) && vel == old(vel)
      ensures clicking == old(clicking) && visible == old(visible)
    {
      if Active() {
        var t := GetHoverType(target);
        hoverType := t;
        hovering := t != None;
      }
    }

    /** One animation frame: the velocity and the ring's position, updated
        in place axis by axis; returns the two scales it applies. */
    method Animate() returns (outer: real, inner: real)
      requires Active()
      modifies this
      ensures (pos.x, vel.x) == Chase(old(mouse.x), old(pos.x), old(vel.x))
      ensures (pos.y, vel.y) == Chase(old(mouse.y), old(pos.y), old(vel.y))
      ensures outer == OuterScale(clicking, hovering) && inner == InnerScale(clicking, hovering)
      ensures touchDevice == old(touchDevice) && mouse == old(mouse) && visible == old(visible)
      ensures hovering == old(hovering) && clicking == old(clicking) && hoverType == old(hoverType)
    {
      var dx := mouse.x - pos.x;
      var dy := mouse.y - pos.y;
      vel := vel.(x := vel.x + (dx - vel.x) * 0.2);
      vel := vel.(y := vel.y + (dy - vel.y) * 0.2);
      pos := pos.(x := pos.x + vel.x * 0.35);
      pos := pos.(y := pos.y + vel.y * 0.35);
      outer := if clicking then 0.8 else if hovering then 1.5 else 1.0;
      inner := if clicking then 1.5 else if hovering then 0.5 else 1.0;
    }
  }
}
