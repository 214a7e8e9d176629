/** Layers: ordered buckets of primitives sharing one parallax factor,
    with their id-keyed add, remove and lookup operations. */
module Layers {
  import opened Base
  import opened Entities

  /** `primitives` is in insertion order, which is also update and draw
      order. `parallax` holds per-axis fractions in [0, 1]. */
  datatype Layer = Layer(name: string, id: Id, primitives: seq<Primitive>, parallax: Point)

  /** The default parallax argument, in percent: the layer scrolls with the
      camera. */
  const FullParallax := Point(100.0, 100.0)

  function PrimitiveId(p: Primitive): Id { p.id }

  /** The parallax argument after construction: each component clamped to
      [0, 100] percent and turned into a fraction. Out-of-range input is
      clamped, never rejected. */
  function ClampParallax(percent: Point): (r: Point)
    ensures 0.0 <= r.x <= 1.0 && 0.0 <= r.y <= 1.0
    ensures 0.0 <= percent.x <= 100.0 ==> r.x * 100.0 == percent.x
    ensures 0.0 <= percent.y <= 100.0 ==> r.y * 100.0 == percent.y
    ensures percent.x < 0.0 ==> r.x == 0.0
    ensures percent.x > 100.0 ==> r.x == 1.0
    ensures percent.y < 0.0 ==> r.y == 0.0
    ensures percent.y > 100.0 ==> r.y == 1.0
  {
    Point(Fraction(percent.x), Fraction(percent.y))
  }

  /** Out-of-range parallax is clamped per axis, not rejected: 150 percent
      scrolls fully, -20 percent not at all. */
  lemma ClampParallaxOutOfRange()
    ensures ClampParallax(Point(150.0, -20.0)) == Point(1.0, 0.0)
    ensures FreshLayer("bg", "l", Point(150.0, -20.0)).parallax == Point(1.0, 0.0)
  {
  }

  /** A layer built with the default parallax moves with the camera
      exactly. */
  lemma DefaultParallaxScrollsFully(name: string, id: Id)
    ensures FreshLayer(name, id, FullParallax).parallax == Point(1.0, 1.0)
  {
  }

  /** The layer the `Layer` constructor builds, before it is placed on the
      renderer's stack (`Scene.NewLayer`). */
  function FreshLayer(name: string, id: Id, parallax: Point): (l: Layer)
    ensures l.name == name && l.id == id && l.primitives == []
    ensures 0.0 <= l.parallax.x <= 1.0 && 0.0 <= l.parallax.y <= 1.0
    ensures l.parallax == ClampParallax(parallax)
  {
    Layer(name, id, [], ClampParallax(parallax))
  }

  /** The link a primitive receives when added to `l`. */
  function RefTo(l: Layer): LayerRef {
    LayerRef(l.id, l.parallax)
  }

  /** `addPrimitive`: append the primitive, with its layer link pointing
      back at this layer. No duplicate check is made. */
  function AddPrimitive(l: Layer, p: Primitive): (r: Layer)
    ensures r == l.(primitives := r.primitives)
    ensures |r.primitives| == |l.primitives| + 1
    ensures r.primitives[..|l.primitives|] == l.primitives
    ensures r.primitives[|l.primitives|] == p.(layer := Some(RefTo(l)))
  {
    l.(primitives := l.primitives + [p.(layer := Some(RefTo(l)))])
  }

  /** `removePrimitive`: take out the first primitive with this id, keep
      the others in order, and throw when none has it. The primitive itself
      is not altered. */
  function RemovePrimitive(l: Layer, id: Id): (r: Result<Layer>)
    ensures r.Err? <==> forall i :: 0 <= i < |l.primitives| ==> l.primitives[i].id != id
    ensures r.Err? ==> r.error == PrimitiveNotFound(id)
    ensures r.Ok? ==> r.value == l.(primitives := r.value.primitives)
    ensures r.Ok? ==> exists i :: (0 <= i < |l.primitives|
      && l.primitives[i].id == id
      && (forall j :: 0 <= j < i ==> l.primitives[j].id != id)
      && r.value.primitives == l.primitives[..i] + l.primitives[i + 1..])
  {
    match FindFirst(l.primitives, PrimitiveId, id)
    case None => Err(PrimitiveNotFound(id))
    case Some(i) => Ok(l.(primitives := RemoveAt(l.primitives, i)))
  }

  /** `getPrimitive`: the first primitive with this id, or a throw. */
  function GetPrimitive(l: Layer, id: Id): (r: Result<Primitive>)
    ensures r.Err? <==> forall i :: 0 <= i < |l.primitives| ==> l.primitives[i].id != id
    ensures r.Err? ==> r.error == PrimitiveNotFound(id)
    ensures r.Ok? ==> r.value.id == id
    ensures r.Ok? ==> exists i :: (0 <= i < |l.primitives|
      && l.primitives[i] == r.value
      && forall j :: 0 <= j < i ==> l.primitives[j].id != id)
  {
    match FindFirst(l.primitives, PrimitiveId, id)
    case None => Err(PrimitiveNotFound(id))
    case Some(i) => Ok(l.primitives[i])
  }

  /** Adding a primitive whose id the layer does not hold yet and then
      looking that id up finds the primitive, now linked to the layer. */
  lemma AddThenGet(l: Layer, p: Primitive)
    requires forall i :: 0 <= i < |l.primitives| ==> l.primitives[i].id != p.id
    ensures GetPrimitive(AddPrimitive(l, p), p.id) == Ok(p.(layer := Some(RefTo(l))))
  {
    var r := AddPrimitive(l, p);
    var n := |l.primitives|;
    forall j | 0 <= j < n
      ensures r.primitives[j].id != p.id
    {
      assert r.primitives[j] == r.primitives[..n][j];
    }
    assert r.primitives[n].id == p.id;
    assert FindFirst(r.primitives, PrimitiveId, p.id) == Some(n);
  }

  /** Removing what was just added restores the layer, provided no earlier
      primitive shares the id: add and remove are inverse. */
  lemma AddThenRemove(l: Layer, p: Primitive)
    requires forall i :: 0 <= i < |l.primitives| ==> l.primitives[i].id != p.id
    ensures RemovePrimitive(AddPrimitive(l, p), p.id) == Ok(l)
  {
    var r := AddPrimitive(l, p);
    var n := |l.primitives|;
    forall j | 0 <= j < n
      ensures r.primitives[j].id != p.id
    {
      assert r.primitives[j] == r.primitives[..n][j];
    }
    assert r.primitives[n].id == p.id;
    assert FindFirst(r.primitives, PrimitiveId, p.id) == Some(n);
    assert RemoveAt(r.primitives, n) == r.primitives[..n];
  }

  /** A successful removal takes out exactly the primitive the lookup of
      the same id returns, and nothing else. */
  lemma RemoveShrinksByOne(l: Layer, id: Id)
    requires RemovePrimitive(l, id).Ok?
    ensures |RemovePrimitive(l, id).value.primitives| == |l.primitives| - 1
    ensures multiset(RemovePrimitive(l, id).value.primitives) + multiset{GetPrimitive(l, id).value}
         == multiset(l.primitives)
  {
    var i := FindFirst(l.primitives, PrimitiveId, id).value;
    var s := l.primitives;
    var rest := RemovePrimitive(l, id).value.primitives;
    assert rest == s[..i] + s[i + 1..];
    assert GetPrimitive(l, id).value == s[i];
    assert s == s[..i] + [s[i]] + s[i + 1..];
    calc {
      multiset(s);
      multiset(s[..i]) + multiset([s[i]]) + multiset(s[i + 1..]);
      multiset(rest) + multiset{s[i]};
    }
  }
}
