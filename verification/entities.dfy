/** The entity model: primitives (sprites, texts and bare primitives),
    behaviours bound to sprites, and the constructors that build them. */
module Entities {
  import opened Base
  import opened Traces
  import opened TopDownControl

  /** What a behaviour does each frame: user-supplied hooks the model only
      records, or the built-in top-down controller with its own state. */
  datatype BehaviourKind = Custom(hooks: Hooks) | TopDown(ctrl: Controller)

  /** A behaviour bound to the sprite whose id is `host`. */
  datatype Behaviour = Behaviour(host: Id, kind: BehaviourKind)

  /** The hooks a behaviour defines: the controller defines input and
      logic but no render. */
  function BehaviourHooks(b: Behaviour): (h: Hooks)
    ensures b.kind.TopDown? ==> h.input && h.logic && !h.render
  {
    match b.kind
    case Custom(h) => h
    case TopDown(_) => Hooks(true, true, false)
  }

  /** A primitive's non-owning link to the layer it was added to: the
      layer's id and its parallax factors, which never change after the
      layer is built. */
  datatype LayerRef = LayerRef(id: Id, parallax: Point)

  datatype TextStyle = TextStyle(
    color: string,
    fontStyle: string,
    fontVariant: string,
    fontWeight: string,
    textAlign: string,
    textBaseline: string)

  /** Everything a layer can hold. `hooks` says which of the primitive's
      own input, logic and render hooks are defined; `layer` is set when
      the primitive is added to a layer. */
  datatype Primitive =
    | Sprite(id: Id, x: real, y: real, width: Option<real>, height: Option<real>,
             behaviours: seq<Behaviour>, hooks: Hooks, layer: Option<LayerRef>)
    | Text(id: Id, x: real, y: real, text: string, style: TextStyle, maxWidth: Option<real>,
           hooks: Hooks, layer: Option<LayerRef>)
    | Bare(id: Id, hooks: Hooks, layer: Option<LayerRef>)

  /** A sprite as its constructor leaves it: at (x, y), no behaviours, no
      size, no hooks and no layer yet. */
  function NewSprite(id: Id, x: real, y: real): (s: Primitive)
    ensures s.Sprite? && s.id == id && s.x == x && s.y == y
    ensures s.behaviours == [] && s.layer.None? && s.hooks == NoHooks
    ensures s.width.None? && s.height.None?
  {
    Sprite(id, x, y, None, None, [], NoHooks, None)
  }

  /** Every behaviour in a sprite's list is bound to that sprite. */
  predicate HostsAgree(p: Primitive) {
    p.Sprite? ==> forall i :: 0 <= i < |p.behaviours| ==> p.behaviours[i].host == p.id
  }

  /** The `Behaviour` constructor: it throws unless it is given a sprite
      (something with a behaviour list), and otherwise binds itself to that
      sprite and appends itself to the sprite's list. */
  function Attach(target: Option<Primitive>, kind: BehaviourKind): (r: Result<Primitive>)
    ensures r.Ok? <==> target.Some? && target.value.Sprite?
    ensures r.Err? ==> r.error == InvalidSprite
    ensures r.Ok? ==> r.value.Sprite?
    ensures r.Ok? ==> r.value == target.value.(behaviours := r.value.behaviours)
    ensures r.Ok? ==> |r.value.behaviours| == |target.value.behaviours| + 1
    ensures r.Ok? ==> r.value.behaviours[..|target.value.behaviours|] == target.value.behaviours
    ensures r.Ok? ==> r.value.behaviours[|target.value.behaviours|] == Behaviour(target.value.id, kind)
  {
    match target
    case None => Err(InvalidSprite)
    case Some(p) =>
      if !p.Sprite? then Err(InvalidSprite)
      else Ok(p.(behaviours := p.behaviours + [Behaviour(p.id, kind)]))
  }

  /** The `topDownController` constructor: attach first (which may throw),
      then configure the controller. */
  function AttachTopDown(target: Option<Primitive>, maxSpeed: real, accel: real, decel: real,
                         inputs: Bindings): (r: Result<Primitive>)
    ensures r.Ok? <==> target.Some? && target.value.Sprite?
    ensures r.Ok? ==> r.value.Sprite? && |r.value.behaviours| == |target.value.behaviours| + 1
    ensures r.Ok? ==> var b := r.value.behaviours[|r.value.behaviours| - 1];
      && b.host == target.value.id
      && b.kind.TopDown?
      && 0.0 <= b.kind.ctrl.accel <= 1.0
      && 0.0 <= b.kind.ctrl.decel <= 1.0
      && b.kind.ctrl.xVel == 0.0 && b.kind.ctrl.yVel == 0.0
      && b.kind.ctrl.maxSpeed == maxSpeed
    ensures r.Ok? ==> r.value == target.value.(behaviours := target.value.behaviours
      + [Behaviour(target.value.id, TopDown(Configure(maxSpeed, accel, decel, inputs)))])
  {
    Attach(target, TopDown(Configure(maxSpeed, accel, decel, inputs)))
  }

  /** Attaching keeps every existing binding and binds the new behaviour to
      its sprite, so the list stays bound to its owner however many
      behaviours are attached. */
  lemma AttachKeepsHosts(p: Primitive, kind: BehaviourKind)
    requires HostsAgree(p)
    ensures Attach(Some(p), kind).Ok? <==> p.Sprite?
    ensures Attach(Some(p), kind).Ok? ==> HostsAgree(Attach(Some(p), kind).value)
  {
    if p.Sprite? {
      var q := Attach(Some(p), kind).value;
      forall i | 0 <= i < |q.behaviours|
        ensures q.behaviours[i].host == q.id
      {
        if i < |p.behaviours| {
          assert q.behaviours[i] == q.behaviours[..|p.behaviours|][i];
        }
      }
    }
  }

  /** Attaching two behaviours in turn appends them in attachment order:
      the list's order is the order of construction. */
  lemma AttachTwiceInOrder(p: Primitive, k1: BehaviourKind, k2: BehaviourKind)
    requires p.Sprite?
    ensures Attach(Some(p), k1).Ok?
    ensures Attach(Some(Attach(Some(p), k1).value), k2).Ok?
    ensures Attach(Some(Attach(Some(p), k1).value), k2).value.behaviours
         == p.behaviours + [Behaviour(p.id, k1), Behaviour(p.id, k2)]
  {
    var q := Attach(Some(p), k1).value;
    assert q.behaviours == p.behaviours + [Behaviour(p.id, k1)] by {
      assert q.behaviours == q.behaviours[..|p.behaviours|] + [q.behaviours[|p.behaviours|]];
    }
    var q2 := Attach(Some(q), k2).value;
    assert q2.behaviours == q2.behaviours[..|q.behaviours|] + [q2.behaviours[|q.behaviours|]];
  }

  const DefaultColor := "black"
  const DefaultFontStyle := "12px bold monospace"
  const DefaultFontVariant := "normal"
  const DefaultFontWeight := "300"
  const DefaultTextAlign := "left"
  const DefaultTextBaseline := "middle"

  /** A style argument after the constructor's defaulting: an absent or
      empty (falsy) value is replaced by the default. */
  function OrDefault(s: Option<string>, default: string): (r: string)
    ensures s.Some? && s.value != "" ==> r == s.value
    ensures s.None? || s.value == "" ==> r == default
  {
    if s.Some? && s.value != "" then s.value else default
  }

  /** The `Text` constructor. A text defines its render hook and no other. */
  function NewText(id: Id, x: real, y: real, text: string,
                   color: Option<string>, fontStyle: Option<string>, fontVariant: Option<string>,
                   fontWeight: Option<string>, textAlign: Option<string>, textBaseline: Option<string>,
                   maxWidth: Option<real>): (t: Primitive)
    ensures t.Text? && t.id == id && t.x == x && t.y == y && t.text == text && t.maxWidth == maxWidth
    ensures t.hooks == Hooks(false, false, true) && t.layer.None?
    ensures t.style.color == OrDefault(color, DefaultColor)
    ensures t.style.fontStyle == OrDefault(fontStyle, DefaultFontStyle)
    ensures t.style.fontVariant == OrDefault(fontVariant, DefaultFontVariant)
    ensures t.style.fontWeight == OrDefault(fontWeight, DefaultFontWeight)
    ensures t.style.textAlign == OrDefault(textAlign, DefaultTextAlign)
    ensures t.style.textBaseline == OrDefault(textBaseline, DefaultTextBaseline)
  {
    Text(id, x, y, text,
         TextStyle(OrDefault(color, DefaultColor), OrDefault(fontStyle, DefaultFontStyle),
                   OrDefault(fontVariant, DefaultFontVariant), OrDefault(fontWeight, DefaultFontWeight),
                   OrDefault(textAlign, DefaultTextAlign), OrDefault(textBaseline, DefaultTextBaseline)),
         maxWidth, Hooks(false, false, true), None)
  }

  predicate StyleComplete(s: TextStyle) {
    && s.color != "" && s.fontStyle != "" && s.fontVariant != ""
    && s.fontWeight != "" && s.textAlign != "" && s.textBaseline != ""
  }

  /** Whatever style arguments are given, a constructed text has every
      style field set, and rebuilding a text from its own style changes
      nothing. */
  lemma TextStyleComplete(id: Id, x: real, y: real, text: string,
                          color: Option<string>, fontStyle: Option<string>, fontVariant: Option<string>,
                          fontWeight: Option<string>, textAlign: Option<string>, textBaseline: Option<string>,
                          maxWidth: Option<real>)
    ensures var t := NewText(id, x, y, text, color, fontStyle, fontVariant, fontWeight, textAlign, textBaseline, maxWidth);
      && StyleComplete(t.style)
      && NewText(id, x, y, text, Some(t.style.color), Some(t.style.fontStyle), Some(t.style.fontVariant),
                 Some(t.style.fontWeight), Some(t.style.textAlign), Some(t.style.textBaseline), maxWidth) == t
  {
  }
}
