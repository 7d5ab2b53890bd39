/** The iterator steps the plugin uses to pick a tab or a pane: `flatten`, then `find`. */
module Iter {
  import opened Wrappers

  /**
   * The index behind `Iterator::find`: the position of the first element
   * satisfying `p`, if any; `find` returns the element there.
   */
  function Position<T>(s: seq<T>, p: T -> bool): (r: Option<nat>)
    ensures r.Some? ==> r.value < |s| && p(s[r.value])
    ensures r.Some? ==> forall j :: 0 <= j < r.value ==> !p(s[j])
    ensures r.None? ==> forall j :: 0 <= j < |s| ==> !p(s[j])
  {
    if s == [] then None
    else if p(s[0]) then Some(0)
    else
      match Position(s[1..], p)
      case None => None
      case Some(i) => Some(i + 1)
  }

  /**
   * `Iterator::flatten` over a sequence of sequences: the inner sequences one
   * after another, in order. The result holds exactly the elements of the
   * inner sequences, the first inner sequence leading; `FlattenAppend` and
   * `FlattenSingle` fix the order of all of them and each element's count.
   */
  function Flatten<T>(ss: seq<seq<T>>): (r: seq<T>)
    ensures forall i, j :: 0 <= i < |ss| && 0 <= j < |ss[i]| ==> ss[i][j] in r
    ensures forall k :: 0 <= k < |r| ==> exists i :: 0 <= i < |ss| && r[k] in ss[i]
    ensures ss != [] ==> ss[0] <= r
  {
    if ss == [] then [] else ss[0] + Flatten(ss[1..])
  }

  /** Flattening a concatenation flattens each part and joins the results in order. */
  lemma {:induction false} FlattenAppend<T>(a: seq<seq<T>>, b: seq<seq<T>>)
    ensures Flatten(a + b) == Flatten(a) + Flatten(b)
  {
    if a == [] {
      assert a + b == b;
    } else {
      var ab := a + b;
      assert ab != [] && ab[0] == a[0] && ab[1..] == a[1..] + b;
      FlattenAppend(a[1..], b);
      assert Flatten(ab) == a[0] + Flatten(a[1..] + b);
      var x, y, z := a[0], Flatten(a[1..]), Flatten(b);
      assert x + (y + z) == (x + y) + z;
    }
  }

  /** A single inner sequence flattens to itself. */
  lemma FlattenSingle<T>(x: seq<T>)
    ensures Flatten([x]) == x
  {
    assert [x][1..] == [];
  }
}
