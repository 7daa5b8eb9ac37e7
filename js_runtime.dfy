/** The JavaScript built-ins that the portfolio's logic leans on, stated over
    Dafny values: `String.prototype.trim`, `toLowerCase`, `includes`,
    `Array.prototype.slice` with a negative start, and `Math.round`,
    `Math.min`, `Math.max`.  Numbers are exact reals here. */
module JsRuntime {

  datatype Option<+T> = None | Some(value: T)

  // ---------------------------------------------------------------------
  // Numbers

  function Min(a: real, b: real): (r: real)
    ensures r <= a && r <= b && (r == a || r == b)
  {
    if a <= b then a else b
  }

  function Max(a: real, b: real): (r: real)
    ensures r >= a && r >= b && (r == a || r == b)
  {
    if a >= b then a else b
  }

  /** `Math.max(0, Math.min(1, x))`, the clamp the animation code writes out. */
  function Clamp01(x: real): (r: real)
    ensures 0.0 <= r <= 1.0
    ensures 0.0 <= x <= 1.0 ==> r == x
    ensures x < 0.0 ==> r == 0.0
    ensures x > 1.0 ==> r == 1.0
  {
    Max(0.0, Min(1.0, x))
  }

  /** `Math.round`: the nearest integer, halves rounded up. */
  function Round(x: real): (n: int)
    ensures x - 0.5 < n as real <= x + 0.5
  {
    (x + 0.5).Floor
  }

  // ---------------------------------------------------------------------
  // Strings

  /** The characters `trim` removes: ECMAScript WhiteSpace (tab, vertical tab,
      form feed, space, no-break space, the byte-order mark and the other
      space separators) and LineTerminator (LF, CR, LS, PS). */
  predicate IsWhiteSpace(c: char)
  {
    c == '\t' || c == '\n' || c == '\U{000B}' || c == '\U{000C}' || c == '\r' || c == ' '
    || c == '\U{00A0}' || c == '\U{1680}' || ('\U{2000}' <= c <= '\U{200A}')
    || c == '\U{2028}' || c == '\U{2029}' || c == '\U{202F}' || c == '\U{205F}'
    || c == '\U{3000}' || c == '\U{FEFF}'
  }

  predicate AllWhiteSpace(s: string)
  {
    forall i :: 0 <= i < |s| ==> IsWhiteSpace(s[i])
  }

  /** Drops leading white space: the result is the suffix of `s` that starts
      at its first non-white character. */
  function TrimStart(s: string): (r: string)
    ensures |r| <= |s| && r == s[|s| - |r|..]
    ensures forall i :: 0 <= i < |s| - |r| ==> IsWhiteSpace(s[i])
    ensures r != [] ==> !IsWhiteSpace(r[0])
  {
    if s != [] && IsWhiteSpace(s[0]) then TrimStart(s[1..]) else s
  }

  /** Drops trailing white space: the result is the prefix of `s` that ends
      at its last non-white character. */
  function TrimEnd(s: string): (r: string)
    ensures |r| <= |s| && r == s[..|r|]
    ensures forall i :: |r| <= i < |s| ==> IsWhiteSpace(s[i])
    ensures r != [] ==> !IsWhiteSpace(r[|r| - 1])
  {
    if s != [] && IsWhiteSpace(s[|s| - 1]) then TrimEnd(s[..|s| - 1]) else s
  }

  /** Where the piece `Trim` keeps starts: after the leading white space. */
  function TrimOffset(s: string): (a: nat)
    ensures a <= |s| && (forall i :: 0 <= i < a ==> IsWhiteSpace(s[i]))
    ensures a < |s| ==> !IsWhiteSpace(s[a])
  {
    |s| - |TrimStart(s)|
  }

  /** `s.trim()`: the piece of `s` that starts at `TrimOffset(s)` and ends
      before the trailing white space (see the lemmas below). */
  function Trim(s: string): (r: string)
    ensures TrimOffset(s) + |r| <= |s| && r == s[TrimOffset(s)..TrimOffset(s) + |r|]
  {
    TrimEnd(TrimStart(s))
  }

  /** Everything `Trim` cuts away after the piece is white space. */
  lemma TrimCutsWhiteSpace(s: string)
    ensures forall i :: TrimOffset(s) + |Trim(s)| <= i < |s| ==> IsWhiteSpace(s[i])
  {
    var t := TrimStart(s);
    WhiteTail(s, t, TrimEnd(t));
  }

  /** White space at the end of a suffix is white space at the end of the
      whole string. */
  lemma WhiteTail(s: string, t: string, r: string)
    requires |t| <= |s| && t == s[|s| - |t|..]
    requires |r| <= |t| && forall j :: |r| <= j < |t| ==> IsWhiteSpace(t[j])
    ensures forall i :: |s| - |t| + |r| <= i < |s| ==> IsWhiteSpace(s[i])
  {
    forall i | |s| - |t| + |r| <= i < |s| ensures IsWhiteSpace(s[i]) {
      assert t[i - (|s| - |t|)] == s[i];
    }
  }
  /** The piece neither starts nor ends with white space. */
  lemma TrimmedEnds(s: string)
    ensures var r := Trim(s); r != [] ==> !IsWhiteSpace(r[0]) && !IsWhiteSpace(r[|r| - 1])
  {
    var t := TrimStart(s);
    var r := TrimEnd(t);
    if r != [] {
      assert r[0] == t[0];
    }
  }

  /** `trim` leaves nothing exactly when everything is white space. */
  lemma TrimEmptyIffWhiteSpace(s: string)
    ensures Trim(s) == [] <==> AllWhiteSpace(s)
  {
    var t := TrimStart(s);
    if Trim(s) == [] {
      assert t == [];
    } else {
      TrimmedEnds(s);
      assert !IsWhiteSpace(s[TrimOffset(s)]);
    }
  }

  /** An all-white string trims to nothing from the front. */
  lemma TrimStartAllWhite(s: string)
    requires AllWhiteSpace(s)
    ensures TrimStart(s) == []
  {
  }

  /** Leading white space in front of a word with some non-white character
      is cut, and what follows the word is kept. */
  lemma {:induction false} TrimStartAppend(w: string, q: string)
    requires !AllWhiteSpace(w)
    ensures TrimStart(w + q) == TrimStart(w) + q
  {
    if IsWhiteSpace(w[0]) {
      assert (w + q)[1..] == w[1..] + q;
      assert !AllWhiteSpace(w[1..]) by {
        var i :| 0 <= i < |w| && !IsWhiteSpace(w[i]);
        assert w[1..][i - 1] == w[i];
      }
      TrimStartAppend(w[1..], q);
    }
  }

  /** White space in front is cut whatever it is followed by. */
  lemma {:induction false} TrimStartWhitePrefix(p: string, w: string)
    requires AllWhiteSpace(p)
    ensures TrimStart(p + w) == TrimStart(w)
    decreases |p|
  {
    if p == [] {
      assert p + w == w;
    } else {
      assert (p + w)[1..] == p[1..] + w;
      TrimStartWhitePrefix(p[1..], w);
    }
  }

  /** White space behind is cut whatever it follows. */
  lemma {:induction false} TrimEndWhiteSuffix(w: string, q: string)
    requires AllWhiteSpace(q)
    ensures TrimEnd(w + q) == TrimEnd(w)
    decreases |q|
  {
    if q == [] {
      assert w + q == w;
    } else {
      assert (w + q)[..|w + q| - 1] == w + q[..|q| - 1];
      TrimEndWhiteSuffix(w, q[..|q| - 1]);
    }
  }

  /** Padding a string with white space on either side does not change
      what `trim` makes of it. */
  lemma TrimIgnoresPadding(p: string, w: string, q: string)
    requires AllWhiteSpace(p) && AllWhiteSpace(q)
    ensures Trim(p + w + q) == Trim(w)
  {
    assert p + w + q == p + (w + q);
    TrimStartWhitePrefix(p, w + q);
    if AllWhiteSpace(w) {
      assert AllWhiteSpace(w + q) by {
        forall i | 0 <= i < |w + q| ensures IsWhiteSpace((w + q)[i]) {
          if i >= |w| { assert (w + q)[i] == q[i - |w|]; }
        }
      }
      TrimStartAllWhite(w + q);
      TrimStartAllWhite(w);
    } else {
      TrimStartAppend(w, q);
      TrimEndWhiteSuffix(TrimStart(w), q);
    }
  }

  /** Lower-cases the ASCII letters and leaves every other character alone. */
  function LowerChar(c: char): (d: char)
    ensures 'A' <= c <= 'Z' ==> d as int == c as int + 32
    ensures !('A' <= c <= 'Z') ==> d == c
  {
    if 'A' <= c <= 'Z' then (c as int + 32) as char else c
  }

  /** `s.toLowerCase()`, character by character. */
  function ToLower(s: string): (r: string)
    ensures |r| == |s|
    ensures forall i :: 0 <= i < |s| ==> r[i] == LowerChar(s[i])
  {
    if s == [] then [] else [LowerChar(s[0])] + ToLower(s[1..])
  }

  /** `toLowerCase` works character by character, so it distributes over
      concatenation and leaves white space alone. */
  lemma ToLowerAppend(a: string, b: string)
    ensures ToLower(a + b) == ToLower(a) + ToLower(b)
  {
    var l, r := ToLower(a + b), ToLower(a) + ToLower(b);
    forall i | 0 <= i < |l| ensures l[i] == r[i] {
      if i < |a| {
        assert (a + b)[i] == a[i];
      } else {
        assert (a + b)[i] == b[i - |a|];
      }
    }
  }

  lemma ToLowerKeepsWhiteSpace(s: string)
    requires AllWhiteSpace(s)
    ensures ToLower(s) == s
  {
  }

  /** Lower-casing neither creates nor removes white space. */
  lemma ToLowerWhiteSpace(s: string)
    ensures AllWhiteSpace(ToLower(s)) <==> AllWhiteSpace(s)
  {
    var l := ToLower(s);
    forall i | 0 <= i < |s| ensures IsWhiteSpace(l[i]) <==> IsWhiteSpace(s[i]) {
      assert l[i] == LowerChar(s[i]);
    }
  }

  /** `s.includes(sub)`: `sub` occurs somewhere in `s`. */
  predicate Contains(s: string, sub: string)
    decreases |s|
  {
    |sub| <= |s| && (s[..|sub|] == sub || Contains(s[1..], sub))
  }

  /** An occurrence at a known position is found by `Contains`. */
  lemma {:induction false} ContainsAt(s: string, sub: string, i: nat)
    requires i + |sub| <= |s| && s[i..i + |sub|] == sub
    ensures Contains(s, sub)
    decreases i
  {
    if i > 0 {
      assert s[1..][i - 1..i - 1 + |sub|] == s[i..i + |sub|];
      ContainsAt(s[1..], sub, i - 1);
    }
  }

  /** `Contains` finds only real occurrences. */
  lemma {:induction false} ContainsWitness(s: string, sub: string) returns (i: nat)
    requires Contains(s, sub)
    ensures i + |sub| <= |s| && s[i..i + |sub|] == sub
    decreases |s|
  {
    if s[..|sub|] == sub {
      i := 0;
    } else {
      var j := ContainsWitness(s[1..], sub);
      assert s[1..][j..j + |sub|] == s[j + 1..j + 1 + |sub|];
      i := j + 1;
    }
  }

  /** An occurrence stays one when text is put in front. */
  lemma ContainsAfterPrefix(p: string, s: string, sub: string)
    requires Contains(s, sub)
    ensures Contains(p + s, sub)
  {
    var i := ContainsWitness(s, sub);
    assert (p + s)[|p| + i..|p| + i + |sub|] == s[i..i + |sub|];
    ContainsAt(p + s, sub, |p| + i);
  }

  /** `a.slice(-n)` for a positive `n`: the last `n` elements, or all of them
      when there are fewer. */
  function Last<T>(s: seq<T>, n: nat): (r: seq<T>)
    requires n > 0
    ensures |r| == if |s| <= n then |s| else n
    ensures r == s[|s| - |r|..]
  {
    if |s| <= n then s else s[|s| - n..]
  }
}
