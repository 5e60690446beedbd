/** The "toggle membership" update that both the daily check-in (feelings) and
    the journal entry (tags) apply to their list of selected labels:
    `prev.includes(x) ? prev.filter(y => y !== x) : [...prev, x]`. */
module Membership {

  predicate NoDuplicates(xs: seq<string>)
  {
    forall i, j :: 0 <= i < j < |xs| ==> xs[i] != xs[j]
  }

  /** `xs.filter(y => y !== x)`: every copy of `x` goes, every other element
      stays, in order, as often as it was there. */
  function Without(xs: seq<string>, x: string): (r: seq<string>)
    ensures x !in r
    ensures forall y :: y in r <==> y in xs && y != x
    ensures forall y :: y != x ==> multiset(r)[y] == multiset(xs)[y]
    ensures x !in xs ==> r == xs
  {
    if xs == [] then []
    else
      assert xs == [xs[0]] + xs[1..];
      if xs[0] == x then Without(xs[1..], x) else [xs[0]] + Without(xs[1..], x)
  }

  /** The toggle: remove every copy of a present label, append an absent one. */
  function Toggled(xs: seq<string>, x: string): (r: seq<string>)
    ensures x in r <==> x !in xs
    ensures forall y :: y != x ==> (y in r <==> y in xs)
  {
    if x in xs then Without(xs, x) else xs + [x]
  }

  /** The filter works element by element: filtering a concatenation
      filters each part and keeps the parts in order. */
  lemma {:induction false} WithoutDistributes(xs: seq<string>, ys: seq<string>, x: string)
    ensures Without(xs + ys, x) == Without(xs, x) + Without(ys, x)
  {
    if xs == [] {
      assert xs + ys == ys;
    } else {
      assert (xs + ys)[1..] == xs[1..] + ys;
      WithoutDistributes(xs[1..], ys, x);
    }
  }

  /** Toggling a present label takes it out where it stood and leaves every
      other label in its place. */
  lemma ToggleRemovesInPlace(a: seq<string>, b: seq<string>, x: string)
    requires x !in a && x !in b
    ensures Toggled(a + [x] + b, x) == a + b
  {
    assert x in a + [x] + b by {
      assert (a + [x] + b)[|a|] == x;
    }
    WithoutDistributes(a + [x], b, x);
    WithoutDistributes(a, [x], x);
    assert [x][1..] == [];
  }

  /** Toggling an absent label appends it at the end. */
  lemma ToggleAbsentAppends(xs: seq<string>, x: string)
    requires x !in xs
    ensures Toggled(xs, x) == xs + [x]
  {
  }

  /** Removing a label that was appended to a list without it gives the list back. */
  lemma {:induction false} WithoutAppended(xs: seq<string>, x: string)
    requires x !in xs
    ensures Without(xs + [x], x) == xs
  {
    if xs == [] {
      assert [x][1..] == [];
    } else {
      assert (xs + [x])[1..] == xs[1..] + [x];
      WithoutAppended(xs[1..], x);
      assert xs == [xs[0]] + xs[1..];
    }
  }

  /** Toggling the same absent label twice restores the original list. */
  lemma ToggleTwiceRestores(xs: seq<string>, x: string)
    requires x !in xs
    ensures Toggled(Toggled(xs, x), x) == xs
  {
    WithoutAppended(xs, x);
  }

  lemma {:induction false} WithoutKeepsNoDuplicates(xs: seq<string>, x: string)
    requires NoDuplicates(xs)
    ensures NoDuplicates(Without(xs, x))
  {
    if xs != [] {
      assert NoDuplicates(xs[1..]) by {
        forall i, j | 0 <= i < j < |xs| - 1 ensures xs[1..][i] != xs[1..][j] {
          assert xs[1..][i] == xs[i + 1] && xs[1..][j] == xs[j + 1];
        }
      }
      WithoutKeepsNoDuplicates(xs[1..], x);
      var rest := Without(xs[1..], x);
      if xs[0] != x {
        assert xs[0] !in xs[1..] by {
          forall k | 0 <= k < |xs| - 1 ensures xs[1..][k] != xs[0] {
            assert xs[1..][k] == xs[k + 1];
          }
        }
        assert xs[0] !in rest;
        var r := [xs[0]] + rest;
        forall i, j | 0 <= i < j < |r| ensures r[i] != r[j] {
          if i == 0 {
            assert r[j] == rest[j - 1];
            assert r[j] in rest;
          } else {
            assert r[i] == rest[i - 1] && r[j] == rest[j - 1];
          }
        }
      }
    }
  }

  /** A toggle never introduces a duplicate label. */
  lemma ToggleKeepsNoDuplicates(xs: seq<string>, x: string)
    requires NoDuplicates(xs)
    ensures NoDuplicates(Toggled(xs, x))
  {
    if x in xs {
      WithoutKeepsNoDuplicates(xs, x);
    } else {
      var r := xs + [x];
      forall i, j | 0 <= i < j < |r| ensures r[i] != r[j] {
        if j == |xs| {
          assert r[i] == xs[i] && r[i] in xs;
        }
      }
    }
  }
}
