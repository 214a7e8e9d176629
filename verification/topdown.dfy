/** The top-down movement behaviour: percentage configuration, key-binding
    normalisation, per-axis acceleration with exponential decay, and the
    speed clamp followed by the position update. The behaviour's physics
    state (its velocities) lives on the controller itself. */
module TopDownControl {
  import opened Base
  import opened Keys

  /** One direction's binding as the caller passes it: absent (or any
      falsy value), a single key name, or an array of key names. */
  datatype Binding = Unset | Single(key: string) | Several(keys: seq<string>)

  datatype Bindings = Bindings(up: Binding, down: Binding, left: Binding, right: Binding)

  /** The bindings after normalisation: a key list per direction. */
  datatype KeyLists = KeyLists(up: seq<string>, down: seq<string>, left: seq<string>, right: seq<string>)

  datatype Controller = Controller(
    maxSpeed: real,
    accel: real,      // fraction of maxSpeed added per input step while a key is held
    decel: real,      // fraction of the velocity removed per input step while no key of the axis is held
    inputs: KeyLists,
    xVel: real,
    yVel: real)

  /** The sprite's new position together with the controller after `Logic`. */
  datatype Moved = Moved(ctrl: Controller, pos: Point)

  const DefaultMaxSpeed: real := 10.0
  const DefaultAccel: real := 75.0
  const DefaultDecel: real := 100.0
  const DefaultBindings: Bindings :=
    Bindings(Several(["ArrowUp"]), Several(["ArrowDown"]), Several(["ArrowLeft"]), Several(["ArrowRight"]))

  /** A binding that JavaScript reads as falsy: absent, or the empty string.
      An empty array is an object and therefore truthy. */
  predicate Falsy(b: Binding) {
    b.Unset? || b == Single("")
  }

  /** The two normalisation passes of the constructor: a falsy binding is
      replaced by the direction's default key list, then a lone string is
      wrapped into a one-element list. */
  function Normalise(b: Binding, fallback: string): (r: seq<string>)
    ensures Falsy(b) ==> r == [fallback]
    ensures b.Single? && b.key != "" ==> r == [b.key]
    ensures b.Several? ==> r == b.keys
  {
    var filled := if Falsy(b) then Several([fallback]) else b;
    match filled
    case Single(k) => [k]
    case Several(ks) => ks
    case Unset => [fallback]
  }

  function NormaliseAll(inputs: Bindings): (r: KeyLists)
    ensures r.up == Normalise(inputs.up, "ArrowUp")
    ensures r.down == Normalise(inputs.down, "ArrowDown")
    ensures r.left == Normalise(inputs.left, "ArrowLeft")
    ensures r.right == Normalise(inputs.right, "ArrowRight")
  {
    KeyLists(
      Normalise(inputs.up, "ArrowUp"),
      Normalise(inputs.down, "ArrowDown"),
      Normalise(inputs.left, "ArrowLeft"),
      Normalise(inputs.right, "ArrowRight"))
  }

  /** The controller's own part of the constructor (attaching it to the
      sprite is `Entities.AttachTopDown`). */
  function Configure(maxSpeed: real, accel: real, decel: real, inputs: Bindings): (c: Controller)
    ensures 0.0 <= c.accel <= 1.0 && 0.0 <= c.decel <= 1.0
    ensures c.accel == Fraction(accel) && c.decel == Fraction(decel)
    ensures 0.0 <= accel <= 100.0 ==> c.accel * 100.0 == accel
    ensures 0.0 <= decel <= 100.0 ==> c.decel * 100.0 == decel
    ensures c.maxSpeed == maxSpeed
    ensures c.xVel == 0.0 && c.yVel == 0.0
    ensures c.inputs == NormaliseAll(inputs)
  {
    Controller(maxSpeed, Fraction(accel), Fraction(decel), NormaliseAll(inputs), 0.0, 0.0)
  }

  /** The decay branch of `input()`: a positive velocity loses `v * decel`,
      a negative one gains `-v * decel`, zero stays zero. */
  function Decay(v: real, decel: real): real {
    if v > 0.0 then v - v * decel
    else if v < 0.0 then v + (-v) * decel
    else v
  }

  /** `input()`: apply up, down, left, right in that order, each adding or
      subtracting `maxSpeed * accel` when one of its keys is held, then
      decay each axis none of whose keys is held. */
  function Input(c: Controller, keys: KeyState): (r: Controller)
    ensures r == c.(xVel := r.xVel, yVel := r.yVel)
    ensures !AnyDown(keys, c.inputs.left) && !AnyDown(keys, c.inputs.right) ==> r.xVel == c.xVel * (1.0 - c.decel)
    ensures AnyDown(keys, c.inputs.left) && !AnyDown(keys, c.inputs.right) ==> r.xVel == c.xVel - c.maxSpeed * c.accel
    ensures !AnyDown(keys, c.inputs.left) && AnyDown(keys, c.inputs.right) ==> r.xVel == c.xVel + c.maxSpeed * c.accel
    ensures AnyDown(keys, c.inputs.left) && AnyDown(keys, c.inputs.right) ==> r.xVel == c.xVel
    ensures !AnyDown(keys, c.inputs.up) && !AnyDown(keys, c.inputs.down) ==> r.yVel == c.yVel * (1.0 - c.decel)
    ensures AnyDown(keys, c.inputs.up) && !AnyDown(keys, c.inputs.down) ==> r.yVel == c.yVel - c.maxSpeed * c.accel
    ensures !AnyDown(keys, c.inputs.up) && AnyDown(keys, c.inputs.down) ==> r.yVel == c.yVel + c.maxSpeed * c.accel
    ensures AnyDown(keys, c.inputs.up) && AnyDown(keys, c.inputs.down) ==> r.yVel == c.yVel
  {
    var step := c.maxSpeed * c.accel;
    var up := AnyDown(keys, c.inputs.up);
    var down := AnyDown(keys, c.inputs.down);
    var left := AnyDown(keys, c.inputs.left);
    var right := AnyDown(keys, c.inputs.right);
    var y1 := if up then c.yVel - step else c.yVel;
    var y2 := if down then y1 + step else y1;
    var x1 := if left then c.xVel - step else c.xVel;
    var x2 := if right then x1 + step else x1;
    var x3 := if !left && !right then Decay(x2, c.decel) else x2;
    var y3 := if !up && !down then Decay(y2, c.decel) else y2;
    c.(xVel := x3, yVel := y3)
  }

  /** `logic()`: cap each velocity at `maxSpeed`, then at `-maxSpeed`, in
      the source's order, and move the sprite by the capped velocities. */
  function Logic(c: Controller, pos: Point): (r: Moved)
    ensures r.ctrl == c.(xVel := r.ctrl.xVel, yVel := r.ctrl.yVel)
    ensures r.pos == Point(pos.x + r.ctrl.xVel, pos.y + r.ctrl.yVel)
    ensures c.maxSpeed >= 0.0 ==> -c.maxSpeed <= r.ctrl.xVel <= c.maxSpeed
    ensures c.maxSpeed >= 0.0 ==> -c.maxSpeed <= r.ctrl.yVel <= c.maxSpeed
    ensures -c.maxSpeed <= c.xVel <= c.maxSpeed ==> r.ctrl.xVel == c.xVel
    ensures -c.maxSpeed <= c.yVel <= c.maxSpeed ==> r.ctrl.yVel == c.yVel
    ensures c.maxSpeed >= 0.0 && c.xVel > c.maxSpeed ==> r.ctrl.xVel == c.maxSpeed
    ensures c.maxSpeed >= 0.0 && c.xVel < -c.maxSpeed ==> r.ctrl.xVel == -c.maxSpeed
    ensures c.maxSpeed >= 0.0 && c.yVel > c.maxSpeed ==> r.ctrl.yVel == c.maxSpeed
    ensures c.maxSpeed >= 0.0 && c.yVel < -c.maxSpeed ==> r.ctrl.yVel == -c.maxSpeed
    ensures c.maxSpeed < 0.0 ==> r.ctrl.xVel == -c.maxSpeed && r.ctrl.yVel == -c.maxSpeed
  {
    var m := c.maxSpeed;
    var x1 := if c.xVel > m then m else c.xVel;
    var y1 := if c.yVel > m then m else c.yVel;
    var x2 := if x1 < -m then -m else x1;
    var y2 := if y1 < -m then -m else y1;
    Moved(c.(xVel := x2, yVel := y2), Point(pos.x + x2, pos.y + y2))
  }

  /** Decay with a deceleration in [0, 1] never flips the sign of the
      velocity and never increases its magnitude; full deceleration stops
      the axis in one step. */
  lemma DecayShrinks(v: real, decel: real)
    requires 0.0 <= decel <= 1.0
    ensures Decay(v, decel) == v * (1.0 - decel)
    ensures v >= 0.0 ==> 0.0 <= Decay(v, decel) <= v
    ensures v <= 0.0 ==> v <= Decay(v, decel) <= 0.0
    ensures decel == 1.0 ==> Decay(v, decel) == 0.0
  {
    if v > 0.0 {
      assert v * decel <= v * 1.0;
    } else if v < 0.0 {
      assert (-v) * decel <= (-v) * 1.0;
    }
  }

  /** With no horizontal key held, `input()` shrinks the horizontal
      velocity towards zero without changing its sign, and the same holds
      vertically. */
  lemma InputReleasedDecays(c: Controller, keys: KeyState)
    requires 0.0 <= c.decel <= 1.0
    requires !AnyDown(keys, c.inputs.left) && !AnyDown(keys, c.inputs.right)
    requires !AnyDown(keys, c.inputs.up) && !AnyDown(keys, c.inputs.down)
    ensures c.xVel >= 0.0 ==> 0.0 <= Input(c, keys).xVel <= c.xVel
    ensures c.xVel <= 0.0 ==> c.xVel <= Input(c, keys).xVel <= 0.0
    ensures c.yVel >= 0.0 ==> 0.0 <= Input(c, keys).yVel <= c.yVel
    ensures c.yVel <= 0.0 ==> c.yVel <= Input(c, keys).yVel <= 0.0
    ensures c.decel == 1.0 ==> Input(c, keys).xVel == 0.0 && Input(c, keys).yVel == 0.0
  {
    DecayShrinks(c.xVel, c.decel);
    DecayShrinks(c.yVel, c.decel);
  }

  /** After any sequence of input and logic steps with a non-negative
      maximum speed, the controller's velocities never exceed it: one
      `Logic` step restores the bound whatever `Input` accumulated. */
  lemma LogicBoundsSpeed(c: Controller, keys: KeyState, pos: Point)
    requires c.maxSpeed >= 0.0
    ensures var m := Logic(Input(c, keys), pos);
      && -c.maxSpeed <= m.ctrl.xVel <= c.maxSpeed
      && -c.maxSpeed <= m.ctrl.yVel <= c.maxSpeed
      && m.pos.x - pos.x == m.ctrl.xVel
      && m.pos.y - pos.y == m.ctrl.yVel
  {
  }

  /** Normalised bindings are non-empty unless the caller passed an
      explicit empty array: every falsy or string binding yields one key. */
  lemma NormalisedNonEmpty(b: Binding, fallback: string)
    ensures |Normalise(b, fallback)| == 0 <==> b == Several([])
  {
  }

  /** Normalisation is idempotent: feeding a normalised list back in as an
      array binding returns it unchanged. */
  lemma NormaliseIdempotent(b: Binding, fallback: string)
    ensures Normalise(Several(Normalise(b, fallback)), fallback) == Normalise(b, fallback)
  {
  }

  /** The constructor's defaults: maximum speed 10, 75% acceleration and
      100% deceleration become the fractions 0.75 and 1, and each direction
      is bound to its arrow key. */
  lemma DefaultControllerSettings()
    ensures var c := Configure(DefaultMaxSpeed, DefaultAccel, DefaultDecel, DefaultBindings);
      && c.maxSpeed == 10.0 && c.accel == 0.75 && c.decel == 1.0
      && c.inputs == KeyLists(["ArrowUp"], ["ArrowDown"], ["ArrowLeft"], ["ArrowRight"])
  {
  }

  /** The worked example: maximum speed 10 with 100% acceleration and
      deceleration. Holding the right arrow from rest gives a horizontal
      velocity of 10; releasing every key then stops the sprite at once. */
  lemma FullAccelThenFullStop()
    ensures var c := Configure(10.0, 100.0, 100.0, DefaultBindings);
      var held := Input(c, map["ArrowRight" := true]);
      var released := Input(held, map["ArrowRight" := false]);
      held.xVel == 10.0 && released.xVel == 0.0 && released.yVel == 0.0
  {
    var c := Configure(10.0, 100.0, 100.0, DefaultBindings);
    assert c.accel == 1.0 && c.decel == 1.0;
    assert c.inputs.right == ["ArrowRight"];
    var pressed: KeyState := map["ArrowRight" := true];
    assert Down(pressed, c.inputs.right[0]);
    assert !AnyDown(pressed, c.inputs.left) by {
      assert c.inputs.left == ["ArrowLeft"];
    }
    assert !AnyDown(pressed, c.inputs.up) && !AnyDown(pressed, c.inputs.down) by {
      assert c.inputs.up == ["ArrowUp"] && c.inputs.down == ["ArrowDown"];
    }
    var held := Input(c, pressed);
    assert held.xVel == 10.0;
    var none: KeyState := map["ArrowRight" := false];
    assert !AnyDown(none, held.inputs.right) && !AnyDown(none, held.inputs.left);
    assert !AnyDown(none, held.inputs.up) && !AnyDown(none, held.inputs.down);
  }
}
