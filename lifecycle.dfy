/**
 * Notions shared by every iteration of the engine: the string map handed to
 * the hooks, the three lifecycle hooks of a state, and the name lookup and
 * name uniqueness of a registry of states.
 */
module Lifecycle {
  import opened Wrappers

  /** The `outsideParams` / `callbackParams` map passed into the hooks. */
  type Params = map<string, string>

  /** The three overridable hooks of a state. */
  datatype Hook = OnInit | OnUpdate | OnExit

  /** No two positions of `xs` hold the same value. */
  ghost predicate Distinct<T>(xs: seq<T>)
  {
    forall i, j :: 0 <= i < j < |xs| ==> xs[i] != xs[j]
  }

  /**
   * The position of the first element equal to `x`, as `std::find_if` over a
   * list finds it, or None when there is none.
   */
  function FirstIndex<T(==)>(xs: seq<T>, x: T): (r: Option<nat>)
    ensures r.Some? ==> r.value < |xs| && xs[r.value] == x
    ensures r.Some? ==> forall j :: 0 <= j < r.value ==> xs[j] != x
    ensures r.None? <==> x !in xs
  {
    if |xs| == 0 then None
    else if xs[0] == x then Some(0)
    else match FirstIndex(xs[1..], x)
      case None => None
      case Some(i) => Some(i + 1)
  }

  /** In a list without duplicates, the first match is the only match. */
  lemma {:induction false} FirstIndexOfDistinct<T>(xs: seq<T>, k: nat)
    requires Distinct(xs) && k < |xs|
    ensures FirstIndex(xs, xs[k]) == Some(k)
  {
    assert xs[k] in xs;
  }

  /** Appending a value not yet present keeps a list duplicate-free. */
  lemma AppendFreshKeepsDistinct<T>(xs: seq<T>, x: T)
    requires Distinct(xs) && x !in xs
    ensures Distinct(xs + [x])
  {
    var ys := xs + [x];
    forall i, j | 0 <= i < j < |ys| ensures ys[i] != ys[j] {
      if j == |xs| {
        assert ys[i] == xs[i] && xs[i] in xs;
      }
    }
  }
}
