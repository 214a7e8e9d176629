/** The keyboard state the input listeners maintain, and the "is any of
    these keys held" query the top-down controller asks of it. */
module Keys {

  /** Key name to "currently held". The key-down listener writes `true`,
      the key-up listener `false`; a key never pressed is absent, which
      reads as not held. Names the engine's key object inherits from the
      object prototype are not represented. */
  type KeyState = map<string, bool>

  predicate Down(keys: KeyState, k: string) {
    k in keys && keys[k]
  }

  /** True when some key of `ks` is held. */
  function AnyDown(keys: KeyState, ks: seq<string>): (r: bool)
    ensures r <==> exists i :: 0 <= i < |ks| && Down(keys, ks[i])
  {
    if |ks| == 0 then false else Down(keys, ks[0]) || AnyDown(keys, ks[1..])
  }

  /** The scan `__checkInputInDir` performs: walk the bound keys in order
      and stop at the first one held. `first` is the position where the
      optional callback fires, which it does exactly once when `down`.
      Its verdict is `AnyDown`, the form `TopDownControl.Input` uses. */
  method CheckInputInDir(keys: KeyState, ks: seq<string>) returns (down: bool, first: nat)
    ensures down <==> exists i :: 0 <= i < |ks| && Down(keys, ks[i])
    ensures down == AnyDown(keys, ks)
    ensures down ==> first < |ks| && Down(keys, ks[first])
    ensures down ==> forall j :: 0 <= j < first ==> !Down(keys, ks[j])
  {
    var i := 0;
    while i < |ks|
      invariant 0 <= i <= |ks|
      invariant forall j :: 0 <= j < i ==> !Down(keys, ks[j])
    {
      if ks[i] in keys && keys[ks[i]] {
        return true, i;
      }
      i := i + 1;
    }
    return false, 0;
  }
}
