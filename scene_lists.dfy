/**
 * Pure facts about the ordered list of additional active scenes and about
 * the three.js group that mirrors it.
 */
module SceneLists {
  import opened Scenes

  /** No element occurs twice. */
  ghost predicate Distinct<T>(xs: seq<T>)
  {
    forall i, j :: 0 <= i < j < |xs| ==> xs[i] != xs[j]
  }

  /**
   * `xs` with its first occurrence of `x` deleted, the effect both of
   * `splice(i, 1)` at the first matching index and of three.js's
   * `Group.remove`. A list without `x` is returned as it is.
   */
  function Without<T(==)>(xs: seq<T>, x: T): (r: seq<T>)
    ensures x !in xs ==> r == xs
    ensures x in xs ==> |r| == |xs| - 1
  {
    if xs == [] then []
    else
      assert xs == [xs[0]] + xs[1..];
      if xs[0] == x then xs[1..]
      else [xs[0]] + Without(xs[1..], x)
  }

  /**
   * The three.js scenes of a list of Zinc scenes, in the same order: what
   * the renderer's `scenesGroup` holds.
   */
  function Handles(xs: seq<Scene>): (hs: seq<ThreeScene>)
    ensures |hs| == |xs|
    ensures forall i :: 0 <= i < |xs| ==> hs[i] == xs[i].ThreeJSScene()
  {
    if xs == [] then [] else [xs[0].ThreeJSScene()] + Handles(xs[1..])
  }

  /** Deleting the first occurrence at index `i` keeps everything else in order. */
  lemma {:induction false} WithoutAt<T>(xs: seq<T>, x: T, i: nat)
    requires i < |xs| && xs[i] == x && x !in xs[..i]
    ensures Without(xs, x) == xs[..i] + xs[i + 1..]
  {
    assert xs == [xs[0]] + xs[1..];
    if i == 0 {
      assert xs[..0] + xs[1..] == xs[1..];
    } else {
      var tail := xs[1..];
      assert xs[..i] == [xs[0]] + tail[..i - 1];
      assert xs[0] != x;
      WithoutAt(tail, x, i - 1);
      assert xs[i + 1..] == tail[i..];
      calc {
        Without(xs, x);
        [xs[0]] + Without(tail, x);
        [xs[0]] + (tail[..i - 1] + tail[i..]);
        ([xs[0]] + tail[..i - 1]) + tail[i..];
      }
    }
  }

  /** A list headed by `h` is free of duplicates iff its tail is and does not hold `h`. */
  lemma DistinctCons<T>(h: T, t: seq<T>)
    ensures Distinct([h] + t) <==> h !in t && Distinct(t)
  {
    var xs := [h] + t;
    if h !in t && Distinct(t) {
      forall i, j | 0 <= i < j < |xs| ensures xs[i] != xs[j] {
        assert xs[j] == t[j - 1];
        if i > 0 {
          assert xs[i] == t[i - 1];
        }
      }
    }
    if Distinct(xs) {
      forall i, j | 0 <= i < j < |t| ensures t[i] != t[j] {
        assert t[i] == xs[i + 1] && t[j] == xs[j + 1];
      }
      forall k | 0 <= k < |t| ensures t[k] != h {
        assert xs[0] == h && t[k] == xs[k + 1];
      }
    }
  }

  /** Removal takes away exactly one occurrence of `x`, if there is one, and nothing else. */
  lemma {:induction false} WithoutMultiset<T>(xs: seq<T>, x: T)
    ensures multiset(Without(xs, x)) == multiset(xs) - multiset{x}
  {
    if xs != [] {
      assert xs == [xs[0]] + xs[1..];
      if xs[0] != x {
        WithoutMultiset(xs[1..], x);
      }
    }
  }

  /** Removal adds nothing: whatever is in the result was in the list. */
  lemma {:induction false} WithoutIn<T>(xs: seq<T>, x: T, y: T)
    ensures y in Without(xs, x) ==> y in xs
  {
    if xs != [] && xs[0] != x {
      WithoutIn(xs[1..], x, y);
    }
  }

  /** In a list without duplicates, removal leaves no duplicate and no trace of `x`. */
  lemma {:induction false} WithoutDistinct<T>(xs: seq<T>, x: T)
    requires Distinct(xs)
    ensures Distinct(Without(xs, x))
    ensures x !in Without(xs, x)
  {
    if xs != [] {
      assert xs == [xs[0]] + xs[1..];
      DistinctCons(xs[0], xs[1..]);
      if xs[0] != x {
        WithoutDistinct(xs[1..], x);
        WithoutIn(xs[1..], x, xs[0]);
        DistinctCons(xs[0], Without(xs[1..], x));
      }
    }
  }

  /** Appending an element that is not yet present keeps the list free of duplicates. */
  lemma AppendDistinct<T>(xs: seq<T>, x: T)
    requires Distinct(xs) && x !in xs
    ensures Distinct(xs + [x])
  {
    forall i, j | 0 <= i < j < |xs + [x]| ensures (xs + [x])[i] != (xs + [x])[j] {
      if j == |xs| {
        assert (xs + [x])[i] == xs[i];
      } else {
        assert (xs + [x])[i] == xs[i] && (xs + [x])[j] == xs[j];
      }
    }
  }

  /** Removing a scene from the list removes its three.js scene from the mirror. */
  lemma {:induction false} HandlesWithout(xs: seq<Scene>, s: Scene)
    ensures Handles(Without(xs, s)) == Without(Handles(xs), s.ThreeJSScene())
  {
    if xs != [] {
      assert Handles(xs) == [xs[0].ThreeJSScene()] + Handles(xs[1..]);
      assert [xs[0].ThreeJSScene()] + Handles(xs[1..]) == [Handles(xs)[0]] + Handles(xs)[1..];
      if xs[0] != s {
        HandlesWithout(xs[1..], s);
        assert Without(xs, s) == [xs[0]] + Without(xs[1..], s);
        assert ([xs[0]] + Without(xs[1..], s))[1..] == Without(xs[1..], s);
      }
    }
  }

  /** Appending a scene to the list appends its three.js scene to the mirror. */
  lemma HandlesAppend(xs: seq<Scene>, s: Scene)
    ensures Handles(xs + [s]) == Handles(xs) + [s.ThreeJSScene()]
  {
  }

  /**
   * The renderer's invariant on what it renders: the additional scenes hold
   * no duplicate and not the current scene, and the group holds exactly
   * their three.js scenes, in order.
   */
  ghost predicate ActiveLists(current: Scene?, xs: seq<Scene>, group: seq<ThreeScene>)
  {
    && Distinct(xs)
    && (current != null ==> current !in xs)
    && group == Handles(xs)
  }

  /** Removing a scene from the list and its three.js scene from the group keeps the invariant. */
  lemma RemoveKeepsActiveLists(current: Scene?, xs: seq<Scene>, group: seq<ThreeScene>, s: Scene)
    requires ActiveLists(current, xs, group)
    ensures ActiveLists(current, Without(xs, s), Without(group, s.ThreeJSScene()))
    ensures s !in Without(xs, s)
  {
    var ys := Without(xs, s);
    WithoutDistinct(xs, s);
    HandlesWithout(xs, s);
    assert Without(group, s.ThreeJSScene()) == Handles(ys);
    if current != null {
      var c: Scene := current;
      WithoutIn<Scene>(xs, s, c);
    }
  }

  /** Appending an inactive scene to the list and its three.js scene to the group keeps the invariant. */
  lemma AppendKeepsActiveLists(current: Scene?, xs: seq<Scene>, group: seq<ThreeScene>, s: Scene)
    requires ActiveLists(current, xs, group)
    requires s != current && s !in xs
    ensures ActiveLists(current, xs + [s], group + [s.ThreeJSScene()])
  {
    AppendDistinct(xs, s);
    HandlesAppend(xs, s);
  }
}
