/** The frame loop: one behaviour's, one primitive's, one layer's and the
    whole renderer's per-frame pass, each returning the updated state and
    the trace of hooks and drawing-surface calls it performed. User hooks
    appear only in the trace; the top-down controller's hooks also change
    state. */
module Frames {
  import opened Base
  import opened Keys
  import opened Traces
  import opened TopDownControl
  import opened Entities
  import opened Cameras
  import opened Layers
  import opened Scene

  datatype BehaviourRun = BehaviourRun(behaviour: Behaviour, pos: Point)

  /** A behaviour's `__loop` run against its sprite at `pos`: the
      controller runs its input then its logic; user hooks leave the model
      state alone. */
  function RunBehaviour(b: Behaviour, pos: Point, keys: KeyState): (r: BehaviourRun)
    ensures r.behaviour.host == b.host
    ensures BehaviourHooks(r.behaviour) == BehaviourHooks(b)
    ensures b.kind.Custom? ==> r == BehaviourRun(b, pos)
    ensures b.kind.TopDown? ==> r.behaviour.kind.TopDown?
    ensures b.kind.TopDown? ==> var c := b.kind.ctrl; var d := r.behaviour.kind.ctrl;
      && d == c.(xVel := d.xVel, yVel := d.yVel)
      && r.pos == Point(pos.x + d.xVel, pos.y + d.yVel)
      && (c.maxSpeed >= 0.0 ==> -c.maxSpeed <= d.xVel <= c.maxSpeed && -c.maxSpeed <= d.yVel <= c.maxSpeed)
    ensures b.kind.TopDown? ==> var m := Logic(Input(b.kind.ctrl, keys), pos);
      r == BehaviourRun(b.(kind := TopDown(m.ctrl)), m.pos)
    ensures r.behaviour == StepBehaviour(b, keys)
    ensures r.pos == Point(pos.x + StepVelocity(b, keys).x, pos.y + StepVelocity(b, keys).y)
  {
    match b.kind
    case Custom(_) => BehaviourRun(b, pos)
    case TopDown(c) =>
      var moved := Logic(Input(c, keys), pos);
      BehaviourRun(b.(kind := TopDown(moved.ctrl)), moved.pos)
  }

  /** The hook traces of a sprite's behaviours, one per list entry, the
      entry at position `i` numbered `offset + i`. */
  function BehaviourTraces(host: Id, bs: seq<Behaviour>, offset: nat): seq<seq<Event>> {
    seq(|bs|, i requires 0 <= i < |bs| => HookTrace(BehaviourHook(host, offset + i), BehaviourHooks(bs[i])))
  }

  lemma BehaviourTracesTail(host: Id, bs: seq<Behaviour>, offset: nat)
    requires |bs| > 0
    ensures Flatten(BehaviourTraces(host, bs, offset))
         == HookTrace(BehaviourHook(host, offset), BehaviourHooks(bs[0])) + Flatten(BehaviourTraces(host, bs[1..], offset + 1))
  {
    assert BehaviourTraces(host, bs, offset)[1..] == BehaviourTraces(host, bs[1..], offset + 1);
  }

  /** Two behaviour lists with the same hooks entry by entry give the same
      traces. */
  lemma BehaviourTracesSameHooks(host: Id, bs: seq<Behaviour>, cs: seq<Behaviour>, offset: nat)
    requires |bs| == |cs|
    requires forall i :: 0 <= i < |bs| ==> BehaviourHooks(bs[i]) == BehaviourHooks(cs[i])
    ensures BehaviourTraces(host, bs, offset) == BehaviourTraces(host, cs, offset)
  {
  }

  /** What one behaviour's loop does to the behaviour itself: a controller
      takes its input and logic steps, a user behaviour stays as it is. The
      controller's new state does not depend on where its sprite stands. */
  function StepBehaviour(b: Behaviour, keys: KeyState): (r: Behaviour)
    ensures r.host == b.host && BehaviourHooks(r) == BehaviourHooks(b)
    ensures b.kind.Custom? ==> r == b
    ensures b.kind.TopDown? ==> r.kind.TopDown?
  {
    match b.kind
    case Custom(_) => b
    case TopDown(c) => b.(kind := TopDown(Logic(Input(c, keys), Point(0.0, 0.0)).ctrl))
  }

  /** How far one behaviour's loop moves its sprite: a controller by its
      clamped velocity, a user behaviour not at all. */
  function StepVelocity(b: Behaviour, keys: KeyState): Point {
    match b.kind
    case Custom(_) => Point(0.0, 0.0)
    case TopDown(c) => var m := Logic(Input(c, keys), Point(0.0, 0.0)).ctrl; Point(m.xVel, m.yVel)
  }

  /** The total displacement of a sprite by its behaviours in one loop. */
  function Shift(bs: seq<Behaviour>, keys: KeyState): Point
    decreases |bs|
  {
    if |bs| == 0 then Point(0.0, 0.0)
    else
      var v := StepVelocity(bs[0], keys);
      var rest := Shift(bs[1..], keys);
      Point(v.x + rest.x, v.y + rest.y)
  }

  /** Every behaviour of a list after one step, each on its own. */
  function StepBehaviours(bs: seq<Behaviour>, keys: KeyState): seq<Behaviour> {
    seq(|bs|, i requires 0 <= i < |bs| => StepBehaviour(bs[i], keys))
  }

  /** The state a primitive's loop leaves, stated without the loop: a
      sprite is displaced by its behaviours' total shift and each of its
      behaviours takes its own step; texts and bare primitives keep their
      state, since only behaviours change the model. */
  function PrimitiveAfter(p: Primitive, keys: KeyState): (r: Primitive)
    ensures r.id == p.id && r.hooks == p.hooks && r.layer == p.layer
    ensures !p.Sprite? ==> r == p
    ensures p.Sprite? ==> r.Sprite? && r.width == p.width && r.height == p.height
    ensures p.Sprite? ==> |r.behaviours| == |p.behaviours|
  {
    if p.Sprite? then
      var d := Shift(p.behaviours, keys);
      p.(x := p.x + d.x, y := p.y + d.y, behaviours := StepBehaviours(p.behaviours, keys))
    else p
  }

  function PrimitivesAfter(ps: seq<Primitive>, keys: KeyState): seq<Primitive> {
    seq(|ps|, i requires 0 <= i < |ps| => PrimitiveAfter(ps[i], keys))
  }

  /** A layer after its loop: only its primitives change, each on its own,
      whatever the camera. */
  function LayerAfter(l: Layer, keys: KeyState): Layer {
    l.(primitives := PrimitivesAfter(l.primitives, keys))
  }

  function LayersAfter(ls: seq<Layer>, keys: KeyState): seq<Layer> {
    seq(|ls|, i requires 0 <= i < |ls| => LayerAfter(ls[i], keys))
  }

  lemma StepBehavioursCons(bs: seq<Behaviour>, keys: KeyState)
    requires |bs| > 0
    ensures StepBehaviours(bs, keys) == [StepBehaviour(bs[0], keys)] + StepBehaviours(bs[1..], keys)
  {
    assert StepBehaviours(bs, keys)[1..] == StepBehaviours(bs[1..], keys);
  }

  lemma PrimitivesAfterCons(ps: seq<Primitive>, keys: KeyState)
    requires |ps| > 0
    ensures PrimitivesAfter(ps, keys) == [PrimitiveAfter(ps[0], keys)] + PrimitivesAfter(ps[1..], keys)
  {
    assert PrimitivesAfter(ps, keys)[1..] == PrimitivesAfter(ps[1..], keys);
  }

  lemma LayersAfterCons(ls: seq<Layer>, keys: KeyState)
    requires |ls| > 0
    ensures LayersAfter(ls, keys) == [LayerAfter(ls[0], keys)] + LayersAfter(ls[1..], keys)
  {
    assert LayersAfter(ls, keys)[1..] == LayersAfter(ls[1..], keys);
  }

  datatype BehavioursRun = BehavioursRun(behaviours: seq<Behaviour>, pos: Point, trace: seq<Event>)

  /** The loop over a sprite's behaviours: each behaviour's full loop in
      list order, each seeing the position the previous ones left. */
  function RunBehaviours(host: Id, bs: seq<Behaviour>, offset: nat, pos: Point, keys: KeyState): (r: BehavioursRun)
    ensures r.behaviours == StepBehaviours(bs, keys)
    ensures r.pos == Point(pos.x + Shift(bs, keys).x, pos.y + Shift(bs, keys).y)
    ensures r.trace == Flatten(BehaviourTraces(host, bs, offset))
    decreases |bs|
  {
    if |bs| == 0 then BehavioursRun([], pos, [])
    else
      var first := RunBehaviour(bs[0], pos, keys);
      var rest := RunBehaviours(host, bs[1..], offset + 1, first.pos, keys);
      BehaviourTracesTail(host, bs, offset);
      StepBehavioursCons(bs, keys);
      BehavioursRun([first.behaviour] + rest.behaviours, rest.pos,
                    HookTrace(BehaviourHook(host, offset), BehaviourHooks(bs[0])) + rest.trace)
  }

  /** What one primitive's `__loop` invokes: for a sprite, every
      behaviour's input, logic and render in list order, then the sprite's
      own input, logic and render; for anything else, its own hooks. Absent
      hooks are skipped. */
  function PrimitiveTrace(p: Primitive): seq<Event> {
    if p.Sprite? then Flatten(BehaviourTraces(p.id, p.behaviours, 0)) + HookTrace(OwnHook(p.id), p.hooks)
    else HookTrace(OwnHook(p.id), p.hooks)
  }

  datatype PrimitiveRun = PrimitiveRun(prim: Primitive, trace: seq<Event>)

  /** One primitive's `__loop`. */
  function RunPrimitive(p: Primitive, keys: KeyState): (r: PrimitiveRun)
    ensures r.trace == PrimitiveTrace(p)
    ensures PrimitiveTrace(r.prim) == PrimitiveTrace(p)
    ensures r.prim == PrimitiveAfter(p, keys)
  {
    PrimitiveAfterKeepsTrace(p, keys);
    if p.Sprite? then
      var run := RunBehaviours(p.id, p.behaviours, 0, Point(p.x, p.y), keys);
      PrimitiveRun(p.(x := run.pos.x, y := run.pos.y, behaviours := run.behaviours),
                   run.trace + HookTrace(OwnHook(p.id), p.hooks))
    else PrimitiveRun(p, HookTrace(OwnHook(p.id), p.hooks))
  }

  /** A primitive invokes the same hooks on the next frame: stepping never
      adds, drops or reorders a behaviour, nor changes what it defines. */
  lemma PrimitiveAfterKeepsTrace(p: Primitive, keys: KeyState)
    ensures PrimitiveTrace(PrimitiveAfter(p, keys)) == PrimitiveTrace(p)
  {
    if p.Sprite? {
      BehaviourTracesSameHooks(p.id, p.behaviours, StepBehaviours(p.behaviours, keys), 0);
    }
  }

  /** Behaviours with no controller leave no mark on the model. */
  lemma {:induction false} UserBehavioursStayPut(bs: seq<Behaviour>, keys: KeyState)
    requires forall i :: 0 <= i < |bs| ==> bs[i].kind.Custom?
    ensures Shift(bs, keys) == Point(0.0, 0.0)
    ensures StepBehaviours(bs, keys) == bs
    decreases |bs|
  {
    if |bs| > 0 {
      UserBehavioursStayPut(bs[1..], keys);
    }
  }

  /** A sprite whose behaviours are all user behaviours is unchanged by its
      loop, whatever its hooks do to the drawing surface. */
  lemma UserBehavioursKeepSprite(p: Primitive, keys: KeyState)
    requires p.Sprite?
    requires forall i :: 0 <= i < |p.behaviours| ==> p.behaviours[i].kind.Custom?
    ensures RunPrimitive(p, keys).prim == p
  {
    UserBehavioursStayPut(p.behaviours, keys);
  }

  function PrimitiveTraces(ps: seq<Primitive>): seq<seq<Event>> {
    seq(|ps|, i requires 0 <= i < |ps| => PrimitiveTrace(ps[i]))
  }

  lemma PrimitiveTracesCons(p: Primitive, ps: seq<Primitive>)
    ensures Flatten(PrimitiveTraces([p] + ps)) == PrimitiveTrace(p) + Flatten(PrimitiveTraces(ps))
  {
    assert PrimitiveTraces([p] + ps)[1..] == PrimitiveTraces(ps);
  }

  datatype PrimitivesRun = PrimitivesRun(prims: seq<Primitive>, trace: seq<Event>)

  /** The loop over a layer's primitives, in list order. */
  function RunPrimitives(ps: seq<Primitive>, keys: KeyState): (r: PrimitivesRun)
    ensures |r.prims| == |ps|
    ensures forall i :: 0 <= i < |ps| ==>
      && r.prims[i].id == ps[i].id
      && r.prims[i].layer == ps[i].layer
    ensures r.prims == PrimitivesAfter(ps, keys)
    ensures r.trace == Flatten(PrimitiveTraces(ps))
    decreases |ps|
  {
    if |ps| == 0 then PrimitivesRun([], [])
    else
      var first := RunPrimitive(ps[0], keys);
      var rest := RunPrimitives(ps[1..], keys);
      PrimitiveTracesCons(ps[0], ps[1..]);
      PrimitivesAfterCons(ps, keys);
      assert [ps[0]] + ps[1..] == ps;
      PrimitivesRun([first.prim] + rest.prims, first.trace + rest.trace)
  }

  /** Running the primitives keeps what each of them will invoke next
      frame: the hooks a frame runs never depend on an earlier frame. */
  lemma {:induction false} RunPrimitivesKeepsTraces(ps: seq<Primitive>, keys: KeyState)
    ensures var r := RunPrimitives(ps, keys);
      forall i :: 0 <= i < |ps| ==> PrimitiveTrace(r.prims[i]) == PrimitiveTrace(ps[i])
    decreases |ps|
  {
    if |ps| > 0 {
      RunPrimitivesKeepsTraces(ps[1..], keys);
      var r := RunPrimitives(ps, keys);
      var rest := RunPrimitives(ps[1..], keys);
      forall i | 0 <= i < |ps|
        ensures PrimitiveTrace(r.prims[i]) == PrimitiveTrace(ps[i])
      {
        if i > 0 {
          assert r.prims[i] == rest.prims[i - 1];
          assert ps[i] == ps[1..][i - 1];
        }
      }
    }
  }

  /** What one layer's `__loop` performs: open a path, save the drawing
      transform, run the layer's body, restore, close. */
  function LayerTrace(l: Layer, cam: Camera): seq<Event> {
    [BeginPath] + [Save] + LayerBody(l, cam) + [Restore] + [ClosePath]
  }

  /** Between save and restore: translate by minus the camera position
      times the layer's parallax, then run every primitive in list order. */
  function LayerBody(l: Layer, cam: Camera): seq<Event> {
    [Translate(-cam.x * l.parallax.x, -cam.y * l.parallax.y)] + Flatten(PrimitiveTraces(l.primitives))
  }

  lemma PrimitiveTraceNeutral(p: Primitive)
    ensures Neutral(PrimitiveTrace(p))
  {
    if p.Sprite? {
      var ts := BehaviourTraces(p.id, p.behaviours, 0);
      FlattenNeutral(ts);
      var a := Flatten(ts);
      var b := HookTrace(OwnHook(p.id), p.hooks);
      forall i | 0 <= i < |a + b|
        ensures Delta((a + b)[i]) == 0
      {
        if i < |a| { assert (a + b)[i] == a[i]; } else { assert (a + b)[i] == b[i - |a|]; }
      }
    }
  }

  lemma LayerBodyNeutral(l: Layer, cam: Camera)
    ensures Neutral(LayerBody(l, cam))
  {
    var ts := PrimitiveTraces(l.primitives);
    forall i | 0 <= i < |ts|
      ensures Neutral(ts[i])
    {
      PrimitiveTraceNeutral(l.primitives[i]);
    }
    FlattenNeutral(ts);
    var mid := LayerBody(l, cam);
    forall i | 0 <= i < |mid|
      ensures Delta(mid[i]) == 0
    {
      if i > 0 { assert mid[i] == Flatten(ts)[i - 1]; }
    }
  }

  /** Every layer's loop is balanced: one save, one restore, and nothing
      between them touches the save stack. */
  lemma LayerTraceBalanced(l: Layer, cam: Camera)
    ensures Balanced(LayerTrace(l, cam))
  {
    LayerBodyNeutral(l, cam);
    BracketBalanced([BeginPath], LayerBody(l, cam), [ClosePath]);
  }

  lemma LayerBodyFrom(l: Layer, cam: Camera, t: seq<Event>)
    requires t == Flatten(PrimitiveTraces(l.primitives))
    ensures [Translate(-cam.x * l.parallax.x, -cam.y * l.parallax.y)] + t == LayerBody(l, cam)
  {
    var e := Translate(-cam.x * l.parallax.x, -cam.y * l.parallax.y);
    assert LayerBody(l, cam)[0] == e;
    assert LayerBody(l, cam)[1..] == t;
  }

  datatype LayerRun = LayerRun(layer: Layer, trace: seq<Event>)

  /** One layer's `__loop` under the camera `cam`. */
  function RunLayer(l: Layer, cam: Camera, keys: KeyState): (r: LayerRun)
    ensures r.trace == LayerTrace(l, cam)
    ensures r.layer == l.(primitives := r.layer.primitives)
    ensures |r.layer.primitives| == |l.primitives|
    ensures forall i :: 0 <= i < |l.primitives| ==> r.layer.primitives[i].id == l.primitives[i].id
    ensures r.layer == LayerAfter(l, keys)
  {
    var run := RunPrimitives(l.primitives, keys);
    LayerBodyFrom(l, cam, run.trace);
    LayerRun(l.(primitives := run.prims),
             [BeginPath] + [Save]
             + ([Translate(-cam.x * l.parallax.x, -cam.y * l.parallax.y)] + run.trace)
             + [Restore] + [ClosePath])
  }

  function LayerTraces(ls: seq<Layer>, cam: Camera): seq<seq<Event>> {
    seq(|ls|, i requires 0 <= i < |ls| => LayerTrace(ls[i], cam))
  }

  datatype LayersRun = LayersRun(layers: seq<Layer>, trace: seq<Event>)

  /** The loop over the layer stack, in stack order. */
  function RunLayers(ls: seq<Layer>, cam: Camera, keys: KeyState): (r: LayersRun)
    ensures |r.layers| == |ls|
    ensures forall i :: 0 <= i < |ls| ==>
      && r.layers[i] == ls[i].(primitives := r.layers[i].primitives)
      && |r.layers[i].primitives| == |ls[i].primitives|
    ensures r.layers == LayersAfter(ls, keys)
    ensures r.trace == Flatten(LayerTraces(ls, cam))
    decreases |ls|
  {
    if |ls| == 0 then LayersRun([], [])
    else
      var first := RunLayer(ls[0], cam, keys);
      var rest := RunLayers(ls[1..], cam, keys);
      assert LayerTraces(ls, cam)[1..] == LayerTraces(ls[1..], cam);
      LayersAfterCons(ls, keys);
      LayersRun([first.layer] + rest.layers, first.trace + rest.trace)
  }

  datatype TickRun = TickRun(rend: Renderer, trace: seq<Event>)

  /** One `__render` tick: the camera steps first, the surface is cleared,
      then every layer runs in stack order, translated by the camera's new
      position. Scheduling the next frame is the host's business. */
  function Tick(rend: Renderer, keys: KeyState, canvas: Canvas, locate: Locate, smooth: SmoothStep): (r: TickRun)
    ensures r.rend.camera == Step(rend.camera, locate, canvas, smooth)
    ensures r.trace == [CameraLogic, Clear] + Flatten(LayerTraces(rend.layers, r.rend.camera))
    ensures |r.rend.layers| == |rend.layers|
    ensures forall i :: 0 <= i < |rend.layers| ==>
      && r.rend.layers[i] == rend.layers[i].(primitives := r.rend.layers[i].primitives)
      && |r.rend.layers[i].primitives| == |rend.layers[i].primitives|
    ensures r.rend.layers == LayersAfter(rend.layers, keys)
  {
    var cam := Step(rend.camera, locate, canvas, smooth);
    var run := RunLayers(rend.layers, cam, keys);
    TickRun(Renderer(run.layers, cam), [CameraLogic, Clear] + run.trace)
  }

  /** Running the whole layer stack is balanced, whatever the camera. */
  lemma LayerTracesBalanced(ls: seq<Layer>, cam: Camera)
    ensures Balanced(Flatten(LayerTraces(ls, cam)))
  {
    var ts := LayerTraces(ls, cam);
    forall i | 0 <= i < |ts|
      ensures Balanced(ts[i])
    {
      LayerTraceBalanced(ls[i], cam);
    }
    FlattenBalanced(ts);
  }

  lemma FramePrologueBalanced()
    ensures Balanced([CameraLogic, Clear])
  {
    var head := [CameraLogic, Clear];
    assert Depth(head[..0]) == 0;
    assert head[..1] == [CameraLogic] && head[..1][..0] == [];
    assert head[..2] == head;
  }

  /** A whole tick leaves the drawing transform as it found it: every
      save of every layer is matched by its restore. */
  lemma TickBalanced(rend: Renderer, keys: KeyState, canvas: Canvas, locate: Locate, smooth: SmoothStep)
    ensures Balanced(Tick(rend, keys, canvas, locate, smooth).trace)
  {
    var cam := Tick(rend, keys, canvas, locate, smooth).rend.camera;
    LayerTracesBalanced(rend.layers, cam);
    FramePrologueBalanced();
    BalancedAppend([CameraLogic, Clear], Flatten(LayerTraces(rend.layers, cam)));
  }

  /** A sprite carrying one controller with a non-negative maximum speed
      moves by at most that speed along each axis in one loop. */
  lemma ControllerMovesBoundedly(p: Primitive, keys: KeyState)
    requires p.Sprite? && |p.behaviours| == 1 && p.behaviours[0].kind.TopDown?
    requires p.behaviours[0].kind.ctrl.maxSpeed >= 0.0
    ensures var q := RunPrimitive(p, keys).prim; var m := p.behaviours[0].kind.ctrl.maxSpeed;
      && -m <= q.x - p.x <= m
      && -m <= q.y - p.y <= m
  {
    var run := RunBehaviours(p.id, p.behaviours, 0, Point(p.x, p.y), keys);
    var first := RunBehaviour(p.behaviours[0], Point(p.x, p.y), keys);
    var rest := RunBehaviours(p.id, p.behaviours[1..], 1, first.pos, keys);
    assert run.pos == rest.pos;
    assert rest.pos == first.pos;
  }
}
