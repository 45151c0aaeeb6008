/**
 * Values shared by every part of the simulation: optional results, the
 * three-component positions that Three.js keeps in `mesh.position`, planes,
 * and the small pieces of `Math` the game uses (abs, min, max).
 *
 * JavaScript numbers are modelled as `real`; IEEE-754 rounding is not modelled.
 */
module Basics {

  datatype Option<+T> = None | Some(value: T)

  /** A position (or direction) in scene coordinates. */
  datatype Vec3 = Vec3(x: real, y: real, z: real)

  /** The empty `new THREE.Vector3()` / default mesh position. */
  const Origin := Vec3(0.0, 0.0, 0.0)

  /** `new THREE.Plane(normal, constant)`: the points p with normal . p + constant == 0. */
  datatype Plane = Plane(normal: Vec3, constant: real)

  function Abs(r: real): (a: real)
    ensures a >= 0.0
    ensures a == r || a == -r
  {
    if r < 0.0 then -r else r
  }

  function Max(a: real, b: real): (m: real)
    ensures m >= a && m >= b
    ensures m == a || m == b
  {
    if a >= b then a else b
  }

  function Min(a: real, b: real): (m: real)
    ensures m <= a && m <= b
    ensures m == a || m == b
  {
    if a <= b then a else b
  }

  /** `Math.min(Math.max(r, lo), hi)`. */
  function Clamp(r: real, lo: real, hi: real): (c: real)
    requires lo <= hi
    ensures lo <= c <= hi
    ensures lo <= r <= hi ==> c == r
    ensures r < lo ==> c == lo
    ensures r > hi ==> c == hi
  {
    Min(Max(r, lo), hi)
  }

  /** JavaScript `splice(j, 1)`: removes the element at j; an index past the end removes nothing. */
  function Splice<T>(s: seq<T>, j: nat): (r: seq<T>)
    ensures j < |s| ==> |r| == |s| - 1
    ensures j >= |s| ==> r == s
  {
    if j < |s| then s[..j] + s[j + 1..] else s
  }

  /** The elements before index j keep their index; the ones after it move down by one. */
  lemma SpliceAt<T>(s: seq<T>, j: nat)
    requires j < |s|
    ensures forall i :: 0 <= i < j ==> Splice(s, j)[i] == s[i]
    ensures forall i :: j <= i < |s| - 1 ==> Splice(s, j)[i] == s[i + 1]
  {
  }
}
