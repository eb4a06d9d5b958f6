/**
  The service-list toggle that both quote forms share: clicking a service label
  removes it when it is selected and appends it when it is not
  (`includes`, then `filter` or spread).
 */
module ServiceList {
  import opened Seqs

  /** A service label as shown on its button. */
  type Label = string

  /** `xs.filter((x) => x !== s)`: every occurrence of `s` removed. */
  function RemoveAll(xs: seq<Label>, s: Label): (r: seq<Label>)
    ensures s !in r
    ensures forall x :: x in r <==> x in xs && x != s
    ensures |r| <= |xs|
  {
    if xs == [] then []
    else (if xs[0] == s then [] else [xs[0]]) + RemoveAll(xs[1..], s)
  }

  /** The new service list after clicking label `s`. */
  function Toggle(xs: seq<Label>, s: Label): (r: seq<Label>)
    ensures s in r <==> s !in xs
    ensures forall x :: x != s ==> (x in r <==> x in xs)
  {
    if s in xs then RemoveAll(xs, s) else xs + [s]
  }

  /** Removal keeps the other labels in their relative order. */
  lemma {:induction false} RemoveAllKeepsOrder(xs: seq<Label>, s: Label)
    ensures IsSubsequence(RemoveAll(xs, s), xs)
  {
    if xs != [] {
      RemoveAllKeepsOrder(xs[1..], s);
      assert [xs[0]] + xs[1..] == xs;
      if xs[0] == s {
        assert RemoveAll(xs, s) == [] + RemoveAll(xs[1..], s) == RemoveAll(xs[1..], s);
        SubsequenceSkip(xs[0], RemoveAll(xs[1..], s), xs[1..]);
      } else {
        SubsequenceCons(xs[0], RemoveAll(xs[1..], s), xs[1..]);
      }
    }
  }

  /** Removal drops exactly the occurrences of `s`: every other label keeps its
      number of occurrences. */
  lemma {:induction false} RemoveAllCounts(xs: seq<Label>, s: Label)
    ensures multiset(RemoveAll(xs, s)) == multiset(xs)[s := 0]
  {
    if xs != [] {
      RemoveAllCounts(xs[1..], s);
      assert xs == [xs[0]] + xs[1..];
      assert multiset(xs) == multiset([xs[0]]) + multiset(xs[1..]);
    }
  }

  /** Removing a label that is absent changes nothing. */
  lemma {:induction false} RemoveAllAbsent(xs: seq<Label>, s: Label)
    requires s !in xs
    ensures RemoveAll(xs, s) == xs
  {
    if xs != [] {
      RemoveAllAbsent(xs[1..], s);
      assert [xs[0]] + xs[1..] == xs;
    }
  }

  lemma {:induction false} RemoveAllAppend(xs: seq<Label>, ys: seq<Label>, s: Label)
    ensures RemoveAll(xs + ys, s) == RemoveAll(xs, s) + RemoveAll(ys, s)
  {
    if xs == [] {
      assert xs + ys == ys;
    } else {
      assert (xs + ys)[1..] == xs[1..] + ys;
      RemoveAllAppend(xs[1..], ys, s);
    }
  }

  /** Adding a label appends it at the end, so clicking an unselected label
      twice restores the list exactly. */
  lemma ToggleTwiceAbsent(xs: seq<Label>, s: Label)
    requires s !in xs
    ensures Toggle(xs, s) == xs + [s]
    ensures Toggle(Toggle(xs, s), s) == xs
  {
    RemoveAllAppend(xs, [s], s);
    RemoveAllAbsent(xs, s);
    assert RemoveAll([s], s) == [];
  }

  /** Clicking a selected label twice moves it to the end and collapses its
      duplicates into one. */
  lemma ToggleTwicePresent(xs: seq<Label>, s: Label)
    requires s in xs
    ensures Toggle(Toggle(xs, s), s) == RemoveAll(xs, s) + [s]
  {
  }

  predicate NoDuplicates(xs: seq<Label>) {
    forall i, j :: 0 <= i < j < |xs| ==> xs[i] != xs[j]
  }

  lemma {:induction false} RemoveAllNoDuplicates(xs: seq<Label>, s: Label)
    requires NoDuplicates(xs)
    ensures NoDuplicates(RemoveAll(xs, s))
  {
    if xs != [] {
      RemoveAllNoDuplicates(xs[1..], s);
      var r := RemoveAll(xs[1..], s);
      assert xs[0] !in xs[1..] by {
        forall k | 0 <= k < |xs[1..]| ensures xs[1..][k] != xs[0] {
          assert xs[1..][k] == xs[k + 1];
        }
      }
      assert xs[0] !in r;
    }
  }

  /** A list with no repeated label keeps that property under toggling, so the
      service list the forms build from the empty list is always a set. */
  lemma ToggleKeepsNoDuplicates(xs: seq<Label>, s: Label)
    requires NoDuplicates(xs)
    ensures NoDuplicates(Toggle(xs, s))
  {
    if s in xs {
      RemoveAllNoDuplicates(xs, s);
    }
  }
}
