/**
 * The multi-select filter rule used by the gallery's style chips and the
 * artist directory's specialty chips: clicking an option that is selected
 * removes it (every copy of it), clicking one that is not selected appends it.
 */
module ListToggle {

  predicate NoDuplicates<T(==)>(xs: seq<T>) {
    forall i, j :: 0 <= i < j < |xs| ==> xs[i] != xs[j]
  }

  /** `xs.filter(x => x !== s)` */
  function RemoveAll<T(==,!new)>(xs: seq<T>, s: T): (r: seq<T>)
    ensures multiset(r)[s] == 0
    ensures forall x | x != s :: multiset(r)[x] == multiset(xs)[x]
  {
    if xs == [] then []
    else
      var rest := RemoveAll(xs[1..], s);
      assert xs == [xs[0]] + xs[1..];
      if xs[0] == s then rest else [xs[0]] + rest
  }

  /** `xs.includes(s) ? xs.filter(x => x !== s) : [...xs, s]` */
  function Toggle<T(==,!new)>(xs: seq<T>, s: T): (r: seq<T>)
    ensures multiset(r)[s] == if s in xs then 0 else 1
    ensures forall x | x != s :: multiset(r)[x] == multiset(xs)[x]
  {
    if s in xs then RemoveAll(xs, s) else xs + [s]
  }

  /** Removing keeps the relative order of what stays: it distributes over concatenation. */
  lemma {:induction false} RemoveAllAppend<T(!new)>(a: seq<T>, b: seq<T>, s: T)
    ensures RemoveAll(a + b, s) == RemoveAll(a, s) + RemoveAll(b, s)
  {
    if a == [] {
      assert a + b == b;
    } else {
      assert (a + b)[0] == a[0] && (a + b)[1..] == a[1..] + b;
      RemoveAllAppend(a[1..], b, s);
    }
  }

  /** Removing an element that is not there changes nothing. */
  lemma {:induction false} RemoveAllAbsent<T(!new)>(xs: seq<T>, s: T)
    requires s !in xs
    ensures RemoveAll(xs, s) == xs
  {
    if xs != [] {
      assert xs[1..] + [] == xs[1..];
      assert s !in xs[1..];
      RemoveAllAbsent(xs[1..], s);
      assert xs == [xs[0]] + xs[1..];
    }
  }

  /**
   * Toggling flips the membership of the clicked option and of nothing else;
   * an absent option is appended after the unchanged list, a present one has
   * every copy removed.
   */
  lemma ToggleFlips<T(!new)>(xs: seq<T>, s: T)
    ensures s in Toggle(xs, s) <==> s !in xs
    ensures forall x | x != s :: x in Toggle(xs, s) <==> x in xs
    ensures s !in xs ==> Toggle(xs, s) == xs + [s]
    ensures s in xs ==> multiset(Toggle(xs, s))[s] == 0
  {
    var r := Toggle(xs, s);
    if s in xs {
      assert multiset(r)[s] == 0;
      forall x | x != s ensures x in r <==> x in xs {
        assert multiset(r)[x] == multiset(xs)[x];
      }
    }
  }

  /** Toggling an absent option twice restores the list exactly. */
  lemma ToggleTwiceAbsent<T(!new)>(xs: seq<T>, s: T)
    requires s !in xs
    ensures Toggle(Toggle(xs, s), s) == xs
  {
    RemoveAllAppend(xs, [s], s);
    RemoveAllAbsent(xs, s);
  }

  /** Toggling twice always restores the set of selected options. */
  lemma ToggleTwiceSameSet<T(!new)>(xs: seq<T>, s: T)
    ensures forall x :: x in Toggle(Toggle(xs, s), s) <==> x in xs
  {
    ToggleFlips(xs, s);
    ToggleFlips(Toggle(xs, s), s);
  }

  /** A duplicate-free selection stays duplicate-free. */
  lemma ToggleKeepsNoDuplicates<T(!new)>(xs: seq<T>, s: T)
    requires NoDuplicates(xs)
    ensures NoDuplicates(Toggle(xs, s))
  {
    var r := Toggle(xs, s);
    if s in xs {
      forall i, j | 0 <= i < j < |r| ensures r[i] != r[j] {
        RemoveAllCounts(xs, s, r[i]);
        if r[i] == r[j] {
          RepeatedCount(r, i, j);
          assert false;
        }
      }
    }
  }

  /** A well-formed selection: distinct entries, each one of the offered options. */
  predicate Selection<T(==)>(xs: seq<T>, options: seq<T>) {
    NoDuplicates(xs) && forall x :: x in xs ==> x in options
  }

  /** Clicking an offered option keeps a selection well formed. */
  lemma ToggleKeepsSelection<T(!new)>(xs: seq<T>, s: T, options: seq<T>)
    requires Selection(xs, options) && s in options
    ensures Selection(Toggle(xs, s), options)
  {
    ToggleKeepsNoDuplicates(xs, s);
    ToggleFlips(xs, s);
  }

  /** In a duplicate-free list every element occurs once; removal keeps that. */
  lemma RemoveAllCounts<T(!new)>(xs: seq<T>, s: T, x: T)
    requires NoDuplicates(xs)
    ensures multiset(RemoveAll(xs, s))[x] <= 1
  {
    DistinctCountAtMostOne(xs, x);
  }

  lemma {:induction false} DistinctCountAtMostOne<T(!new)>(xs: seq<T>, x: T)
    requires NoDuplicates(xs)
    ensures multiset(xs)[x] <= 1
  {
    if xs != [] {
      assert xs == [xs[0]] + xs[1..];
      DistinctCountAtMostOne(xs[1..], x);
      if xs[0] == x {
        assert x !in xs[1..];
      }
    }
  }

  /** An element found at two positions occurs at least twice. */
  lemma RepeatedCount<T>(xs: seq<T>, i: int, j: int)
    requires 0 <= i < j < |xs| && xs[i] == xs[j]
    ensures multiset(xs)[xs[i]] >= 2
  {
    assert xs == xs[..j] + xs[j..];
    assert xs[i] == xs[..j][i];
    assert xs[j] == xs[j..][0];
    assert multiset(xs) == multiset(xs[..j]) + multiset(xs[j..]);
  }
}
