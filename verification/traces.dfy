/** Frame traces: the sequence of hook invocations and drawing-surface
    calls one frame performs. Ordering properties of the frame loop are
    stated over these traces. */
module Traces {
  import opened Base

  datatype Phase = InputPhase | LogicPhase | RenderPhase

  /** Whose hook ran: a primitive's own, or the behaviour at `index` in the
      behaviour list of the sprite `host`. */
  datatype Owner = OwnHook(id: Id) | BehaviourHook(host: Id, index: nat)

  datatype Event =
    | Hook(owner: Owner, phase: Phase)
    | CameraLogic                    // the camera's per-frame step
    | Clear                          // the full-surface clear
    | BeginPath
    | Save
    | Translate(dx: real, dy: real)
    | Restore
    | ClosePath

  /** Which of the three optional hooks an entity or behaviour defines.
      An absent hook is skipped, never an error. */
  datatype Hooks = Hooks(input: bool, logic: bool, render: bool)

  const NoHooks := Hooks(false, false, false)

  function Rank(p: Phase): nat {
    match p
    case InputPhase => 0
    case LogicPhase => 1
    case RenderPhase => 2
  }

  predicate Defines(h: Hooks, p: Phase) {
    match p
    case InputPhase => h.input
    case LogicPhase => h.logic
    case RenderPhase => h.render
  }

  /** The `__loop` shared by primitives, texts and behaviours: input, then
      logic, then render, each only when defined. */
  function HookTrace(o: Owner, h: Hooks): (t: seq<Event>)
    ensures forall i :: 0 <= i < |t| ==> t[i].Hook? && t[i].owner == o
    ensures forall i, j :: 0 <= i < j < |t| ==> Rank(t[i].phase) < Rank(t[j].phase)
    ensures forall p :: Hook(o, p) in t <==> Defines(h, p)
  {
    (if h.input then [Hook(o, InputPhase)] else [])
    + (if h.logic then [Hook(o, LogicPhase)] else [])
    + (if h.render then [Hook(o, RenderPhase)] else [])
  }

  /** The traces of a sequence of loops run one after the other. */
  function Flatten(ts: seq<seq<Event>>): seq<Event> {
    if |ts| == 0 then [] else ts[0] + Flatten(ts[1..])
  }

  /** Change of the drawing-surface save stack caused by one event. */
  function Delta(e: Event): int {
    if e.Save? then 1 else if e.Restore? then -1 else 0
  }

  /** A trace that neither saves nor restores the drawing transform. */
  predicate Neutral(t: seq<Event>) {
    forall i :: 0 <= i < |t| ==> Delta(t[i]) == 0
  }

  /** Height of the save stack after a trace, starting from empty. */
  function Depth(t: seq<Event>): int {
    if |t| == 0 then 0 else Depth(t[..|t| - 1]) + Delta(t[|t| - 1])
  }

  /** Every restore matches an earlier save and the stack ends where it
      started: no transform leaks out of the trace. */
  predicate Balanced(t: seq<Event>) {
    Depth(t) == 0 && forall k :: 0 <= k <= |t| ==> Depth(t[..k]) >= 0
  }

  lemma {:induction false} DepthAppend(a: seq<Event>, b: seq<Event>)
    ensures Depth(a + b) == Depth(a) + Depth(b)
    decreases |b|
  {
    if |b| == 0 {
      assert a + b == a;
    } else {
      var b' := b[..|b| - 1];
      assert (a + b)[..|a + b| - 1] == a + b';
      DepthAppend(a, b');
    }
  }

  lemma {:induction false} DepthNeutral(t: seq<Event>)
    requires Neutral(t)
    ensures Depth(t) == 0
    decreases |t|
  {
    if |t| > 0 {
      DepthNeutral(t[..|t| - 1]);
    }
  }

  lemma {:induction false} FlattenNeutral(ts: seq<seq<Event>>)
    requires forall i :: 0 <= i < |ts| ==> Neutral(ts[i])
    ensures Neutral(Flatten(ts))
    decreases |ts|
  {
    if |ts| > 0 {
      FlattenNeutral(ts[1..]);
    }
  }

  /** Two balanced traces run one after the other form a balanced trace. */
  lemma BalancedAppend(a: seq<Event>, b: seq<Event>)
    requires Balanced(a) && Balanced(b)
    ensures Balanced(a + b)
  {
    DepthAppend(a, b);
    forall k | 0 <= k <= |a + b|
      ensures Depth((a + b)[..k]) >= 0
    {
      if k <= |a| {
        assert (a + b)[..k] == a[..k];
      } else {
        assert (a + b)[..k] == a + b[..k - |a|];
        DepthAppend(a, b[..k - |a|]);
      }
    }
  }

  lemma {:induction false} FlattenBalanced(ts: seq<seq<Event>>)
    requires forall i :: 0 <= i < |ts| ==> Balanced(ts[i])
    ensures Balanced(Flatten(ts))
    decreases |ts|
  {
    if |ts| == 0 {
      var empty: seq<Event> := [];
      assert Flatten(ts) == empty && empty[..0] == empty;
    } else {
      FlattenBalanced(ts[1..]);
      BalancedAppend(ts[0], Flatten(ts[1..]));
    }
  }

  /** A trace bracketed by one save and one restore, with no other save or
      restore around or between them, is balanced: the shape of every
      layer's loop. */
  lemma BracketBalanced(pre: seq<Event>, mid: seq<Event>, post: seq<Event>)
    requires Neutral(pre) && Neutral(mid) && Neutral(post)
    ensures Balanced(pre + [Save] + mid + [Restore] + post)
  {
    var a := pre + [Save];
    var b := a + mid;
    var c := b + [Restore];
    var t := c + post;
    DepthNeutral(pre);
    DepthNeutral(mid);
    DepthNeutral(post);
    DepthAppend(pre, [Save]);
    DepthAppend(a, mid);
    DepthAppend(b, [Restore]);
    DepthAppend(c, post);
    assert Depth([Save]) == 1 && Depth([Restore]) == -1 by {
      assert [Save][..0] == [] && [Restore][..0] == [];
    }
    forall k | 0 <= k <= |t|
      ensures Depth(t[..k]) >= 0
    {
      if k <= |pre| {
        assert t[..k] == pre[..k];
        DepthNeutral(pre[..k]);
      } else if k <= |b| {
        assert t[..k] == a + mid[..k - |a|];
        DepthNeutral(mid[..k - |a|]);
        DepthAppend(a, mid[..k - |a|]);
      } else {
        assert t[..k] == c + post[..k - |c|];
        DepthNeutral(post[..k - |c|]);
        DepthAppend(c, post[..k - |c|]);
      }
    }
    assert t == pre + [Save] + mid + [Restore] + post;
  }
}
