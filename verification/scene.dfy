/** The renderer's state: the layer stack and the camera, with layer
    placement, lookup and removal. The canvas size is a parameter of the
    operations that need it. */
module Scene {
  import opened Base
  import opened Cameras
  import opened Layers

  /** `layers` is the stack in processing order: the first layer is
      updated and drawn first, the last one ends up on top. */
  datatype Renderer = Renderer(layers: seq<Layer>, camera: Camera)

  /** The renderer after a removal, and the layer `removeLayer` returns. */
  datatype Removal = Removal(rend: Renderer, removed: Layer)

  function LayerId(l: Layer): Id { l.id }

  /** The renderer's state after its constructor: no layers, and a camera
      at the origin with smoothing on at the default amount. */
  function NewRenderer(): (r: Renderer)
    ensures r.layers == []
    ensures r.camera.x == 0.0 && r.camera.y == 0.0 && r.camera.target.None?
    ensures r.camera.smoothing && r.camera.smoothingAmount == 12.0
    ensures r.camera.targetX == 0.0 && r.camera.targetY == 0.0
    ensures !r.camera.lockedTarget && r.camera.centerScreenOnTarget
    ensures r.camera == NewCamera(Point(0.0, 0.0), true, DefaultSmoothingAmount)
  {
    Renderer([], NewCamera(Point(0.0, 0.0), true, DefaultSmoothingAmount))
  }

  /** The `Layer` constructor with its placement flag: `1` puts the new
      layer at the end of the stack, `-1` at the front, and any other
      value throws, leaving the stack as it was. */
  function NewLayer(rend: Renderer, name: string, id: Id, layering: int, parallax: Point): (r: Result<Renderer>)
    ensures r.Ok? <==> layering == 1 || layering == -1
    ensures r.Err? ==> r.error == InvalidLayering(layering)
    ensures r.Ok? ==> r.value.camera == rend.camera && |r.value.layers| == |rend.layers| + 1
    ensures layering == 1 ==> r.value.layers == rend.layers + [FreshLayer(name, id, parallax)]
    ensures layering == -1 ==> r.value.layers == [FreshLayer(name, id, parallax)] + rend.layers
  {
    var layer := FreshLayer(name, id, parallax);
    if layering == 1 then Ok(rend.(layers := rend.layers + [layer]))
    else if layering == -1 then Ok(rend.(layers := [layer] + rend.layers))
    else Err(InvalidLayering(layering))
  }

  /** `getLayer`: the first layer with this id, or a throw. */
  function GetLayer(rend: Renderer, id: Id): (r: Result<Layer>)
    ensures r.Err? <==> forall i :: 0 <= i < |rend.layers| ==> rend.layers[i].id != id
    ensures r.Err? ==> r.error == LayerNotFound(id)
    ensures r.Ok? ==> r.value.id == id
    ensures r.Ok? ==> exists i :: (0 <= i < |rend.layers|
      && rend.layers[i] == r.value
      && forall j :: 0 <= j < i ==> rend.layers[j].id != id)
  {
    match FindFirst(rend.layers, LayerId, id)
    case None => Err(LayerNotFound(id))
    case Some(i) => Ok(rend.layers[i])
  }

  /** `Array.prototype.splice(start)` with no delete count: everything from
      `start` on is removed, a negative `start` counting from the end. */
  function SpliceFrom<T>(s: seq<T>, start: int): (r: seq<T>)
    ensures start < 0 && -start <= |s| ==> r == s[..|s| + start]
    ensures 0 <= start <= |s| ==> r == s[..start]
  {
    var k := if start < 0 then (if |s| + start < 0 then 0 else |s| + start)
             else if start > |s| then |s| else start;
    s[..k]
  }

  /** `removeLayer` as written: the search for the layer is right, but
      the splice is given the index of the renderer itself in its own
      layer list, which is always -1, and no delete count. */
  function RemoveLayerAsWritten(rend: Renderer, id: Id): (r: Result<Removal>)
    ensures r.Err? <==> forall i :: 0 <= i < |rend.layers| ==> rend.layers[i].id != id
    ensures r.Err? ==> r.error == LayerNotFound(id)
    ensures r.Ok? ==> Ok(r.value.removed) == GetLayer(rend, id)
    ensures r.Ok? ==> r.value.rend.camera == rend.camera
    ensures r.Ok? ==> r.value.rend.layers == rend.layers[..|rend.layers| - 1]
  {
    match FindFirst(rend.layers, LayerId, id)
    case None => Err(LayerNotFound(id))
    case Some(i) =>
      var indexOfRenderer := -1;
      Ok(Removal(rend.(layers := SpliceFrom(rend.layers, indexOfRenderer)), rend.layers[i]))
  }

  /** The discrepancy on two layers: removing the first by its id removes
      the second and keeps the first. */
  lemma RemoveLayerAsWrittenDropsWrongLayer(a: Layer, b: Layer, cam: Camera)
    requires a.id != b.id
    ensures var r := RemoveLayerAsWritten(Renderer([a, b], cam), a.id);
      r.Ok? && r.value.removed == a && r.value.rend.layers == [a]
  {
    assert FindFirst([a, b], LayerId, a.id) == Some(0);
  }

  /** `removeLayer` as evidently intended: take out the layer it found and
      return it, keeping the rest of the stack in order. */
  function RemoveLayer(rend: Renderer, id: Id): (r: Result<Removal>)
    ensures r.Err? <==> forall i :: 0 <= i < |rend.layers| ==> rend.layers[i].id != id
    ensures r.Err? ==> r.error == LayerNotFound(id)
    ensures r.Ok? ==> Ok(r.value.removed) == GetLayer(rend, id)
    ensures r.Ok? ==> r.value.rend.camera == rend.camera
    ensures r.Ok? ==> exists i :: (0 <= i < |rend.layers|
      && rend.layers[i] == r.value.removed
      && (forall j :: 0 <= j < i ==> rend.layers[j].id != id)
      && r.value.rend.layers == rend.layers[..i] + rend.layers[i + 1..])
  {
    match FindFirst(rend.layers, LayerId, id)
    case None => Err(LayerNotFound(id))
    case Some(i) => Ok(Removal(rend.(layers := RemoveAt(rend.layers, i)), rend.layers[i]))
  }

  /** Placing a layer with a fresh id and removing it again by that id
      gives back the renderer and the layer, at either end of the stack. */
  lemma NewLayerThenRemove(rend: Renderer, name: string, id: Id, layering: int, parallax: Point)
    requires layering == 1 || layering == -1
    requires forall i :: 0 <= i < |rend.layers| ==> rend.layers[i].id != id
    ensures NewLayer(rend, name, id, layering, parallax).Ok?
    ensures RemoveLayer(NewLayer(rend, name, id, layering, parallax).value, id)
         == Ok(Removal(rend, FreshLayer(name, id, parallax)))
  {
    var l := FreshLayer(name, id, parallax);
    var s := NewLayer(rend, name, id, layering, parallax).value;
    var n := |rend.layers|;
    if layering == 1 {
      assert s.layers == rend.layers + [l];
      forall j | 0 <= j < n
        ensures LayerId(s.layers[j]) != id
      {
        assert s.layers[j] == rend.layers[j];
      }
      assert LayerId(s.layers[n]) == id;
      assert FindFirst(s.layers, LayerId, id) == Some(n);
      assert RemoveAt(s.layers, n) == rend.layers;
    } else {
      assert s.layers == [l] + rend.layers;
      assert FindFirst(s.layers, LayerId, id) == Some(0);
      assert RemoveAt(s.layers, 0) == rend.layers;
    }
  }

  /** A placed layer can be found by its id when no earlier layer shares
      it. */
  lemma NewLayerThenGet(rend: Renderer, name: string, id: Id, parallax: Point)
    requires forall i :: 0 <= i < |rend.layers| ==> rend.layers[i].id != id
    ensures NewLayer(rend, name, id, 1, parallax).Ok?
    ensures GetLayer(NewLayer(rend, name, id, 1, parallax).value, id) == Ok(FreshLayer(name, id, parallax))
    ensures GetLayer(NewLayer(rend, name, id, -1, parallax).value, id) == Ok(FreshLayer(name, id, parallax))
  {
    var l := FreshLayer(name, id, parallax);
    var s := NewLayer(rend, name, id, 1, parallax).value;
    var n := |rend.layers|;
    forall j | 0 <= j < n
      ensures LayerId(s.layers[j]) != id
    {
      assert s.layers[j] == rend.layers[j];
    }
    assert LayerId(s.layers[n]) == id;
    assert FindFirst(s.layers, LayerId, id) == Some(n);
    var t := NewLayer(rend, name, id, -1, parallax).value;
    assert FindFirst(t.layers, LayerId, id) == Some(0);
  }
}
