/** List operations shared by the social views: removing every copy of a value,
    toggling membership, and appending a value only when it is absent. */
module Collections {

  predicate NoDuplicates(xs: seq<string>) {
    forall i, j :: 0 <= i < j < |xs| ==> xs[i] != xs[j]
  }

  /** `xs.filter(x => x !== v)`. */
  function Without(xs: seq<string>, v: string): (r: seq<string>)
    ensures v !in r
    ensures forall x :: x != v ==> (x in r <==> x in xs)
    ensures |r| <= |xs|
    ensures NoDuplicates(xs) ==> NoDuplicates(r)
    decreases |xs|
  {
    if xs == [] then []
    else if xs[0] == v then Without(xs[1..], v)
    else
      var rest := Without(xs[1..], v);
      assert xs[0] !in xs[1..] ==> xs[0] !in rest;
      [xs[0]] + rest
  }

  /** Removing an absent value leaves the list as it was. */
  lemma {:induction false} WithoutAbsent(xs: seq<string>, v: string)
    requires v !in xs
    ensures Without(xs, v) == xs
    decreases |xs|
  {
    if xs != [] {
      WithoutAbsent(xs[1..], v);
      assert [xs[0]] + xs[1..] == xs;
    }
  }

  /** Removing a value just appended to a list that lacked it gives the list back. */
  lemma {:induction false} WithoutAppended(xs: seq<string>, v: string)
    requires v !in xs
    ensures Without(xs + [v], v) == xs
    decreases |xs|
  {
    if xs == [] {
      assert [v][1..] == [];
    } else {
      assert (xs + [v])[1..] == xs[1..] + [v];
      WithoutAppended(xs[1..], v);
      assert [xs[0]] + xs[1..] == xs;
    }
  }

  /** Remove `v` when present, otherwise append it. */
  function Toggle(xs: seq<string>, v: string): (r: seq<string>)
    ensures v in r <==> v !in xs
    ensures forall x :: x != v ==> (x in r <==> x in xs)
    ensures NoDuplicates(xs) ==> NoDuplicates(r)
  {
    if v in xs then Without(xs, v) else xs + [v]
  }

  /** Toggling twice restores the list when the value was absent; when it was present
      the value comes back at the end, so only the members are restored. */
  lemma ToggleTwice(xs: seq<string>, v: string)
    ensures forall x :: x in Toggle(Toggle(xs, v), v) <==> x in xs
    ensures v !in xs ==> Toggle(Toggle(xs, v), v) == xs
  {
    if v !in xs {
      WithoutAppended(xs, v);
    }
  }

  /** Append `v` unless it is already present. */
  function AddOnce(xs: seq<string>, v: string): (r: seq<string>)
    ensures v in xs ==> r == xs
    ensures v !in xs ==> r == xs + [v]
  {
    if v in xs then xs else xs + [v]
  }

  /** Adding once keeps a duplicate-free list duplicate-free, and is idempotent. */
  lemma AddOnceProperties(xs: seq<string>, v: string)
    ensures NoDuplicates(xs) ==> NoDuplicates(AddOnce(xs, v))
    ensures AddOnce(AddOnce(xs, v), v) == AddOnce(xs, v)
    ensures forall x :: x in AddOnce(xs, v) <==> x in xs || x == v
  {
  }
}
