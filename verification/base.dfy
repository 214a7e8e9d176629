/** Shared vocabulary of the engine model: optional values, points, the
    error kinds the engine throws, results, and the id lookups that every
    id-keyed operation is built on. */
module Base {

  /** Ids of primitives and layers. The engine draws them from a random
      generator; here they are opaque strings supplied by the caller, and
      nothing assumes two of them differ. */
  type Id = string

  datatype Option<+T> = None | Some(value: T)

  /** A position or a pair of per-axis factors, in exact arithmetic. */
  datatype Point = Point(x: real, y: real)

  /** One constructor per kind of exception the engine throws. */
  datatype Error =
    | InvalidSprite                    // a behaviour bound to something that is not a sprite
    | InvalidLayering(layering: int)   // a layer placement flag other than 1 or -1
    | PrimitiveNotFound(id: Id)
    | LayerNotFound(id: Id)
    | MissingGeometry                  // a visibility query on a primitive without x, y, width and height
    | MissingLayer                     // a visibility query on a primitive never added to a layer

  /** The outcome of an operation that may throw. */
  datatype Result<+T> = Ok(value: T) | Err(error: Error)

  /** A percentage setting turned into a fraction: the input is clamped
      into [0, 100] and divided by 100. Used for acceleration, deceleration
      and layer parallax alike. */
  function Fraction(percent: real): (r: real)
    ensures 0.0 <= r <= 1.0
    ensures 0.0 <= percent <= 100.0 ==> r * 100.0 == percent
    ensures percent < 0.0 ==> r == 0.0
    ensures percent > 100.0 ==> r == 1.0
  {
    var clamped := if percent < 0.0 then 0.0 else if percent > 100.0 then 100.0 else percent;
    clamped / 100.0
  }

  /** Position of the first element of `s` whose id is `id`: the search
      `Array.prototype.find` performs with an id-equality callback. */
  function FindFirst<T>(s: seq<T>, idOf: T -> Id, id: Id): (r: Option<nat>)
    ensures r.None? <==> forall i :: 0 <= i < |s| ==> idOf(s[i]) != id
    ensures r.Some? ==> r.value < |s| && idOf(s[r.value]) == id
    ensures r.Some? ==> forall j :: 0 <= j < r.value ==> idOf(s[j]) != id
  {
    if |s| == 0 then None
    else if idOf(s[0]) == id then Some(0)
    else match FindFirst(s[1..], idOf, id)
      case None => None
      case Some(k) => Some(k + 1)
  }

  /** `s` without its element at position `i`: what `splice(i, 1)` leaves. */
  function RemoveAt<T>(s: seq<T>, i: nat): (r: seq<T>)
    requires i < |s|
    ensures |r| == |s| - 1
    ensures forall j :: 0 <= j < i ==> r[j] == s[j]
    ensures forall j :: i <= j < |r| ==> r[j] == s[j + 1]
  {
    s[..i] + s[i + 1..]
  }
}
