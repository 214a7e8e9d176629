# Iku.js engine core in Dafny

A model of the core of Iku.js, a small browser 2D scene engine:

- the entity model: primitives, sprites with behaviour lists, and texts;
- the built-in top-down movement controller;
- the camera;
- the layer stack with per-layer parallax;
- id lookups and removals on layers and on the renderer;
- the visibility query;
- the per-frame loop, as traces of the hooks it invokes and of the calls
  it makes on the drawing surface.

The model follows `Iku/game.js` and `Iku/render.js`. Every operation is a
pure function over immutable datatypes. Exceptions become `Err` results.

Modules, one per file:

| module | file | contents |
|---|---|---|
| `Base` | base.dfy | ids, points, error kinds, `Result`, percentage clamping, first-match search |
| `Keys` | keys.dfy | keyboard state and the "is any of these keys held" scan |
| `TopDownControl` | topdown.dfy | the controller: construction, `input()`, `logic()` |
| `Traces` | traces.dfy | frame events, hook traces, save/restore balance |
| `Entities` | entities.dfy | primitives, behaviours, attaching, text construction |
| `Cameras` | cameras.dfy | camera construction, targeting, per-frame step |
| `Layers` | layers.dfy | layers and their add / remove / get of primitives |
| `Scene` | scene.dfy | the renderer: layer placement, lookup, removal |
| `Visibility` | visibility.dfy | `isOnScreen`, as written and corrected |
| `Frames` | frames.dfy | behaviour, primitive, layer and renderer loops |

Modelling choices:

- JavaScript numbers are `real`. Rounding is not modelled.
- Ids are strings supplied by the caller. No two ids are assumed to differ.
- A primitive's link to its layer is a `LayerRef`: the layer's id and its
  parallax factors, which never change after construction.
- The camera holds its target as an id. The caller supplies the target's
  position as a `Locate` function.
- The smoothed camera step uses trigonometry from a geometry library that
  is not part of this model. It is a `SmoothStep` parameter.
- User-written hooks are recorded in the trace only. The top-down
  controller's hooks also change state.
- Sprite loop order follows the code. All of each behaviour's hooks run
  (input, logic, render) in list order. Then the sprite's own input, logic
  and render run. The code does only this one.
- A direction bound to an explicit empty array keeps the empty list. An
  array is truthy in JavaScript, so the default key is not applied. The
  bindings are therefore non-empty except in that one case
  (`TopDownControl.NormalisedNonEmpty`).

## Model

| member | source | states |
|---|---|---|
| Base.Fraction | Iku/game.js:247-253 | a percentage setting becomes a fraction in [0, 1]; in-range inputs are kept exactly, inputs below 0 give 0 and inputs above 100 give 1 |
| Base.FindFirst | Iku/render.js:169-171 | the id search returns none exactly when no element has the id, and otherwise the position of the first element that has it |
| Base.RemoveAt | Iku/render.js:174 | removing one element keeps every element before it and shifts every element after it down by one |
| Keys.AnyDown | Iku/game.js:264-272 | true exactly when some key of the list is held; an absent key counts as not held |
| Keys.CheckInputInDir | Iku/game.js:264-272 | the scan reports true exactly when some bound key is held (the same verdict as `AnyDown`), and stops at the first held key, where the callback fires |
| TopDownControl.Normalise | Iku/game.js:233-242 | a falsy binding becomes the direction's default key, a string becomes a one-key list, and an array is kept as given |
| TopDownControl.NormaliseAll | Iku/game.js:226-244 | each of the four directions is normalised with its own arrow-key default |
| TopDownControl.Configure | Iku/game.js:205-256 | the controller starts at rest with accel and decel each the clamped fraction of its percentage (in [0, 1], 0 below 0%, 1 above 100%), the caller's max speed, and normalised bindings |
| TopDownControl.Input | Iku/game.js:277-321 | per axis: one side held adds or subtracts maxSpeed times accel; both sides held cancel out; neither held scales the velocity by (1 - decel); nothing else changes |
| TopDownControl.Logic | Iku/game.js:326-346 | with a non-negative max speed both velocities end within [-maxSpeed, maxSpeed], in-range velocities are untouched, a velocity above the max speed becomes the max speed and one below its negative becomes that negative, on both axes, and the sprite moves by the clamped velocities; a negative max speed forces both velocities to -maxSpeed |
| TopDownControl.DecayShrinks | Iku/game.js:305-309 | with decel in [0, 1] the decay step equals v * (1 - decel), keeps the sign, never grows the magnitude, and stops the axis at full deceleration |
| TopDownControl.InputReleasedDecays | Iku/game.js:300-320 | with no key held, input moves each velocity towards zero without crossing it, and full deceleration stops the sprite |
| TopDownControl.LogicBoundsSpeed | Iku/game.js:326-346 | whatever input accumulated, after input then logic the velocities are within the max speed and the position changed by exactly the velocities |
| TopDownControl.NormalisedNonEmpty | Iku/game.js:233-242 | a normalised binding is empty exactly when the caller passed an empty array |
| TopDownControl.NormaliseIdempotent | Iku/game.js:239-242 | normalising an already normalised list returns it unchanged |
| TopDownControl.DefaultControllerSettings | Iku/game.js:205-216 | the default arguments give max speed 10, accel 0.75, decel 1 and one arrow key per direction |
| TopDownControl.FullAccelThenFullStop | Iku/game.js:205-321 | with max speed 10 and 100% accel and decel, holding the right arrow from rest gives velocity 10, and releasing every key stops the sprite in one step |
| Traces.HookTrace | Iku/game.js:128-140 | a loop invokes only its owner's hooks, in strict input, logic, render order, and invokes a phase exactly when that hook is defined |
| Traces.BracketBalanced | Iku/render.js:145-152 | a trace with one save and one matching restore, and no other save or restore, never pops more than it pushed and ends at depth zero |
| Traces.FlattenBalanced | Iku/render.js:344-346 | balanced traces run one after another stay balanced |
| Entities.BehaviourHooks | Iku/game.js:277-346 | the top-down controller defines input and logic hooks and no render hook |
| Entities.NewSprite | Iku/game.js:367-373 | a new sprite has its position, no behaviours, no size, no hooks and no layer |
| Entities.Attach | Iku/game.js:167-177 | attaching fails exactly when the target is missing or is not a sprite; otherwise the behaviour is bound to the sprite and appended at the end of its list, and nothing else changes |
| Entities.AttachTopDown | Iku/game.js:205-256 | attaching a controller fails exactly as attaching any behaviour does; on success the sprite is unchanged except that a controller configured from the arguments, at rest and bound to the sprite, is appended after the existing behaviours |
| Entities.AttachKeepsHosts | Iku/game.js:174-176 | attaching keeps every behaviour in the list bound to the sprite that owns the list |
| Entities.AttachTwiceInOrder | Iku/game.js:176 | two attachments append both behaviours in construction order |
| Entities.OrDefault | Iku/game.js:432-437 | an absent or empty style argument is replaced by its default; any other value is kept |
| Entities.NewText | Iku/game.js:414-446 | a new text keeps position, text and max width, takes each style from its argument or default, defines only a render hook and has no layer |
| Entities.TextStyleComplete | Iku/game.js:432-444 | every style field of a constructed text is non-empty, and rebuilding a text from its own style gives the same text |
| Cameras.NewCamera | Iku/render.js:38-51 | a new camera aims where it stands, tracks nothing, has centring on and keeps the smoothing settings given |
| Cameras.SetTarget | Iku/render.js:96-100 | locking on records the sprite and the centring flag and changes nothing else |
| Cameras.UnsetTarget | Iku/render.js:105-109 | unlocking clears the target and turns centring off, changing nothing else |
| Cameras.Step | Iku/render.js:56-89 | a tracked sprite sets the aim (offset by half the canvas when centring); without a target the aim is kept; then the camera snaps to the aim, or takes the eased step when smoothing; settings and target are untouched |
| Cameras.SnapIsIdempotent | Iku/render.js:56-69 | without smoothing a second step changes nothing while the target stays put |
| Cameras.CenteredTargetAtViewportMiddle | Iku/render.js:57-69 | with centring and no smoothing, after one step the tracked sprite is exactly at the middle of the viewport |
| Cameras.UnsetFreezesAtLastAim | Iku/render.js:56-109 | after unsetting the target, a snapping camera moves to its last aim and stays there |
| Layers.ClampParallax | Iku/render.js:123-129 | each parallax component becomes a fraction in [0, 1]: exact for in-range percentages, 0 below 0% and 1 above 100% |
| Layers.ClampParallaxOutOfRange | Iku/render.js:123-129 | parallax percentages (150, -20) become the factors (1, 0) |
| Layers.DefaultParallaxScrollsFully | Iku/render.js:118 | a layer built with the default parallax (100, 100) has factors (1, 1) |
| Layers.FreshLayer | Iku/render.js:118-129 | a new layer has its name and id, no primitives, and the clamped parallax fractions, each in [0, 1] |
| Layers.AddPrimitive | Iku/render.js:159-162 | adding appends the primitive, linked to this layer, after all existing ones; nothing else changes |
| Layers.RemovePrimitive | Iku/render.js:168-178 | removal fails exactly when no primitive has the id; otherwise only the first primitive with that id is taken out and the rest keep their order |
| Layers.GetPrimitive | Iku/render.js:185-195 | lookup fails exactly when no primitive has the id; otherwise it returns the first primitive with that id |
| Layers.AddThenGet | Iku/render.js:159-195 | after adding a primitive with a new id, looking that id up returns it, now linked to the layer |
| Layers.AddThenRemove | Iku/render.js:159-178 | removing a just-added primitive with a new id restores the layer exactly |
| Layers.RemoveShrinksByOne | Iku/render.js:168-195 | a successful removal takes out exactly the primitive that lookup returns: one fewer primitive, the same multiset otherwise |
| Scene.NewRenderer | Iku/render.js:223-227 | a new renderer has no layers and a fresh camera at the origin: aiming at the origin, unlocked, tracking nothing, centring on, smoothing on at the default amount 12 |
| Scene.NewLayer | Iku/render.js:118-138 | placement flag 1 appends the new layer and -1 prepends it; any other flag fails with the flag and leaves the stack alone |
| Scene.GetLayer | Iku/render.js:297-307 | lookup fails exactly when no layer has the id; otherwise it returns the first layer with that id |
| Scene.SpliceFrom | Iku/render.js:284 | a splice with no delete count keeps only what comes before the start, a negative start counting from the end |
| Scene.RemoveLayerAsWritten | Iku/render.js:279-290 | as written: it fails exactly when no layer has the id and returns the found layer, but the stack always loses its last layer |
| Scene.RemoveLayerAsWrittenDropsWrongLayer | Iku/render.js:279-290 | on a two-layer stack, removing the first layer returns it but leaves only it on the stack |
| Scene.RemoveLayer | Iku/render.js:274-290 | corrected: it fails exactly when no layer has the id; otherwise it returns the first layer with the id and takes out only that layer |
| Scene.NewLayerThenRemove | Iku/render.js:131-137 | placing a layer with a new id at either end, then removing that id, gives back the original renderer and the new layer |
| Scene.NewLayerThenGet | Iku/render.js:297-307 | a placed layer with a new id is found by that id at either end of the stack |
| Visibility.MeetsIffCommonPoint | Iku/render.js:264-269 | two closed boxes of non-negative size meet exactly when they share a point |
| Visibility.Geometry | Iku/render.js:244-254 | a primitive has geometry exactly when it is a sprite with both width and height |
| Visibility.IsOnScreen | Iku/render.js:243-270 | as written: it fails without geometry, then without a layer; otherwise it answers false exactly when the box, shifted by plus the camera times the parallax, lies wholly outside the viewport |
| Visibility.IsOnScreenIgnoresCamera | Iku/render.js:257-269 | as written, on a fully scrolling layer the answer does not depend on the camera position |
| Visibility.IsDrawnOnScreen | Iku/render.js:238-270 | corrected: the same errors, then true exactly when the box as drawn (shifted by minus the camera times the parallax) meets the canvas |
| Visibility.DrawnOnScreenIffCanvasPointCovered | Iku/render.js:238-241 | for a box of non-negative size, the corrected query is true exactly when some canvas point is covered by the drawn box |
| Visibility.AgreeAtOrigin | Iku/render.js:257-269 | with the camera at the origin the as-written and corrected queries agree |
| Visibility.IsOnScreenMissesVisibleSprite | Iku/render.js:257-269 | a sprite drawn at the canvas corner is reported off screen by the as-written query and on screen by the corrected one |
| Frames.RunBehaviour | Iku/game.js:182-194 | a user behaviour leaves state alone; a controller runs its input step on the held keys, then its logic step, and moves its sprite by the clamped velocity, which lies within its max speed |
| Frames.RunBehaviours | Iku/game.js:380-382 | every behaviour runs in list order, each seeing the position the previous ones left; the resulting list is each behaviour stepped on its own (`Frames.StepBehaviour`), the sprite ends displaced by the sum of its controllers' clamped velocities, and the trace is their loops concatenated in list order |
| Frames.RunPrimitive | Iku/game.js:378-395 | a sprite's trace is its behaviours' loops in order followed by its own hooks, and the loop leaves exactly the state `Frames.PrimitiveAfter` describes without a loop; other primitives run only their own hooks and do not change |
| Frames.StepBehaviour | Iku/game.js:182-194 | one behaviour's step keeps its host and hooks; a user behaviour is unchanged and a controller stays a controller |
| Frames.PrimitiveAfter | Iku/game.js:378-395 | the state after a primitive's loop keeps its id, hooks and layer link; a sprite stays a sprite of the same size with as many behaviours; a text or bare primitive is unchanged |
| Frames.PrimitiveAfterKeepsTrace | Iku/game.js:378-395 | after its loop a primitive invokes the same hooks in the same order as before |
| Frames.UserBehavioursStayPut | Iku/game.js:380-382 | behaviours without a controller neither move their sprite nor change |
| Frames.UserBehavioursKeepSprite | Iku/game.js:378-395 | a sprite whose behaviours are all user behaviours comes out of its loop unchanged |
| Frames.RunPrimitives | Iku/render.js:148-150 | every primitive runs in list order, keeping its id and layer link; each ends as `Frames.PrimitiveAfter` describes it, independent of its neighbours; the trace is their traces concatenated |
| Frames.RunPrimitivesKeepsTraces | Iku/render.js:148-150 | a frame never changes which hooks each primitive invokes on the next frame |
| Frames.PrimitiveTraceNeutral | Iku/game.js:128-140 | a primitive's loop neither saves nor restores the drawing transform |
| Frames.LayerTraceBalanced | Iku/render.js:143-153 | a layer's loop restores the transform it saves, given hooks that neither throw nor touch the save stack |
| Frames.RunLayer | Iku/render.js:143-153 | a layer loop opens a path, saves, translates by minus the camera times the parallax, runs its primitives in order, restores and closes; only the primitives change, each as `Frames.PrimitiveAfter` describes it, and the new state does not depend on the camera |
| Frames.RunLayers | Iku/render.js:344-346 | layers run in stack order; each keeps everything but its primitives, whose new state is each primitive's own `Frames.PrimitiveAfter`; the trace is their loops concatenated |
| Frames.LayerTracesBalanced | Iku/render.js:344-346 | the whole layer stack's run is balanced under any camera |
| Frames.Tick | Iku/render.js:337-349 | a tick steps the camera first, then clears, then runs every layer in stack order under the camera's new position; every primitive of every layer ends as `Frames.PrimitiveAfter` describes it |
| Frames.TickBalanced | Iku/render.js:337-349 | the engine's own save and restore calls over a tick are balanced, so a tick whose hooks neither throw nor touch the save stack leaves the drawing transform as it found it |
| Frames.ControllerMovesBoundedly | Iku/game.js:326-346 | a sprite with one controller of non-negative max speed moves at most that speed along each axis per loop |

## Left out

- The HTML and export builder (`Iku/builder.js`) is packaging, not engine logic.
- The input listeners are browser event handlers. The keyboard state they maintain is a parameter (`Keys.KeyState`). The mouse state is read by no part of the core.
- Id generation draws random numbers. Ids are parameters.
- The warning helper only writes to the console.
- The smoothed camera step calls trigonometry helpers that are not part of this model. It is the parameter `smooth` of `Cameras.Step`.
- Cameras.Step: the smoothed position is stated only in terms of the `smooth` parameter, not as a distance divided by the smoothing amount.
- Drawing is recorded, not performed. Pixel output, text rendering, canvas resizing and the animation-frame request are not modelled. The screen clear is one `Clear` event; its own begin and close path calls are not traced.
- The ray caster behaviour stores a setting and does nothing else. Tiled backgrounds, tilemaps and the solid (collision) behaviour are not part of this model.
- The camera's `lockedTarget` flag is recorded but never read, as in the code.
- Frames.RunBehaviour: user-written hooks are recorded in the trace; their effects on state are unknown code and are not modelled.
- Frames.RunPrimitive: the same holds for a primitive's own hooks.
- Visibility.Geometry: only sprites carry a size field in this model. A JavaScript text or bare primitive given `width` and `height` by user code has no counterpart here.
- The layer constructor writes the clamped fractions back into the caller's parallax object, and the controller constructor rewrites the caller's bindings object. Such aliasing effects on caller-owned objects are not modelled.
- The layering flag is compared with strict equality to 1 and -1. The model takes it as an integer, so non-numeric flags are not represented.
- Frames.TickBalanced: a hook is one trace event that returns normally and makes no save or restore call of its own. In the code, a layer's loop has no try/finally, so a hook that throws skips the layer's restore and also the next animation-frame request, which ends the frame loop. A user render hook that calls restore itself pops the layer's save. Neither case is modelled. Frames.LayerTraceBalanced rests on the same two assumptions.
- Primitives are values, not shared objects. In the code a primitive is one object wherever it is held. Three consequences are not modelled. A sprite added twice to a layer (no duplicate check is made) is one object whose loop runs twice per frame; the model holds two independent copies. A primitive added to a second layer has its layer link overwritten; the model's first copy keeps its old link. A behaviour attached after the sprite was added to a layer changes the object the layer holds; `Entities.Attach` returns a new value that no layer holds.
- Keys.AnyDown: the key state is a map in which a key never pressed is absent. In the code it is a plain object literal, so a name inherited from the object prototype, such as `toString` or `constructor`, reads as held although it was never pressed.
- Rounding of IEEE doubles is not modelled: arithmetic is exact.

## Findings

| source | as written | input that shows it | evidently intended | confidence | as-written member | corrected member |
|---|---|---|---|---|---|---|
| Iku/render.js:284 | `removeLayer` finds the layer but splices at the index of the renderer in its own layer list, which is -1, with no delete count | layers [a, b], remove a's id: b is removed, a stays, a is returned | remove the layer that was found and keep the others | high, not executed | Scene.RemoveLayerAsWritten, Scene.RemoveLayerAsWrittenDropsWrongLayer | Scene.RemoveLayer |
| Iku/render.js:257-260 | `isOnScreen` adds camera times parallax to the position, but each layer is drawn translated by minus camera times parallax (Iku/render.js:147) | camera at (1000, 0), canvas 800 by 600, a 10 by 10 sprite at (1000, 0) on a parallax (1, 1) layer: it is drawn at the canvas corner, yet the query answers false | compare the box as drawn with the canvas | medium, not executed | Visibility.IsOnScreen, Visibility.IsOnScreenMissesVisibleSprite | Visibility.IsDrawnOnScreen |
