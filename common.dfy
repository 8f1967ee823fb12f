/** Shared values of the simulation: the fixed safe zone, boxes and their
    overlap test, and the small wrapper types used by several components. */
module Common {

  /** Size of the play area every player sees (js/core/constants.js). */
  const SafeZoneWidth: real := 1200.0
  const SafeZoneHeight: real := 600.0

  /** Top-left corner of the safe zone on the canvas. The viewport computes it;
      the simulation only reads it, so it is an input here. */
  datatype Zone = Zone(x: real, y: real)

  /** An axis-aligned box: top-left corner and size. */
  datatype Box = Box(x: real, y: real, w: real, h: real)

  /** Strict axis-aligned overlap: boxes that only touch do not overlap. */
  predicate Overlaps(a: Box, b: Box)
  {
    a.x < b.x + b.w && a.x + a.w > b.x &&
    a.y < b.y + b.h && a.y + a.h > b.y
  }

  datatype Option<T> = None | Some(value: T)

  function Min(a: real, b: real): real { if a <= b then a else b }
  function Max(a: real, b: real): real { if a >= b then a else b }
  function Abs(a: real): real { if a < 0.0 then -a else a }

  /** p5's constrain(v, lo, hi). */
  function Clamp(v: real, lo: real, hi: real): (r: real)
    requires lo <= hi
    ensures lo <= r <= hi
    ensures lo <= v <= hi ==> r == v
  {
    if v < lo then lo else if v > hi then hi else v
  }

  /** No element occurs twice. */
  predicate Distinct<T(==)>(s: seq<T>)
  {
    forall a, b :: 0 <= a < b < |s| ==> s[a] != s[b]
  }

  lemma DistinctAppend<T>(s: seq<T>, x: T)
    requires Distinct(s) && x !in s
    ensures Distinct(s + [x])
  {
  }

  /** Keeps the elements of `s` whose flag is set, in order
      (the effect of a backwards walk that splices out the unflagged ones). */
  function Keep<T>(s: seq<T>, keep: seq<bool>): (r: seq<T>)
    requires |keep| == |s|
    ensures |r| <= |s|
    ensures forall x :: x in r ==> x in s
  {
    if s == [] then []
    else (if keep[0] then [s[0]] else []) + Keep(s[1..], keep[1..])
  }
}
