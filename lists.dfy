/** List operations shared by the selection handlers and the rotator, written as the
    JavaScript array expressions they model: `indexOf`, `filter(y => y !== x)`,
    `includes` and the membership toggle `includes(x) ? filter(...) : [...xs, x]`. */
module Lists {

  /** `xs.indexOf(x)`: the first index holding x, or -1. */
  function IndexOf<T(==)>(xs: seq<T>, x: T): (r: int)
    ensures -1 <= r < |xs|
    ensures r == -1 <==> x !in xs
    ensures r >= 0 ==> xs[r] == x && forall j :: 0 <= j < r ==> xs[j] != x
  {
    if |xs| == 0 then -1
    else if xs[0] == x then 0
    else var k := IndexOf(xs[1..], x); if k == -1 then -1 else k + 1
  }

  /** `xs.filter(y => y !== x)`. */
  function RemoveAll<T(==)>(xs: seq<T>, x: T): (r: seq<T>)
    ensures x !in r
    ensures |r| == |xs| - Count(xs, x)
  {
    if |xs| == 0 then []
    else if xs[0] == x then RemoveAll(xs[1..], x)
    else [xs[0]] + RemoveAll(xs[1..], x)
  }

  function Count<T(==)>(xs: seq<T>, x: T): nat {
    if |xs| == 0 then 0 else (if xs[0] == x then 1 else 0) + Count(xs[1..], x)
  }

  /** ys can be obtained from xs by deleting elements; the survivors keep their order. */
  predicate IsSubsequence<T(==)>(ys: seq<T>, xs: seq<T>)
    decreases |xs|
  {
    if |ys| == 0 then true
    else if |xs| == 0 then false
    else if ys[0] == xs[0] then IsSubsequence(ys[1..], xs[1..])
    else IsSubsequence(ys, xs[1..])
  }

  predicate NoDuplicates<T(==)>(xs: seq<T>) {
    forall i, j :: 0 <= i < j < |xs| ==> xs[i] != xs[j]
  }

  /** Membership toggle: a present item is removed (every occurrence), an absent one
      is appended at the end. */
  function Toggle<T(==)>(xs: seq<T>, x: T): (r: seq<T>)
    ensures x in r <==> x !in xs
    ensures |r| == if x in xs then |xs| - Count(xs, x) else |xs| + 1
  {
    if x in xs then RemoveAll(xs, x) else xs + [x]
  }

  /** Removing x drops exactly the occurrences of x and keeps every other element,
      as many times as before and in the same order. */
  lemma {:induction false} RemoveAllSpec<T>(xs: seq<T>, x: T)
    ensures x !in RemoveAll(xs, x)
    ensures forall y :: y != x ==> Count(RemoveAll(xs, x), y) == Count(xs, y)
    ensures IsSubsequence(RemoveAll(xs, x), xs)
    ensures forall y :: y in RemoveAll(xs, x) <==> y in xs && y != x
  {
    if |xs| > 0 {
      RemoveAllSpec(xs[1..], x);
      var r := RemoveAll(xs[1..], x);
      if xs[0] == x {
        SubsequenceOfTail(r, xs);
      } else {
        assert ([xs[0]] + r)[1..] == r;
      }
    }
  }

  lemma {:induction false} SubsequenceOfTail<T>(ys: seq<T>, xs: seq<T>)
    requires |xs| > 0 && IsSubsequence(ys, xs[1..])
    ensures IsSubsequence(ys, xs)
    decreases |xs|, 1
  {
    if |ys| > 0 && ys[0] == xs[0] {
      var t := xs[1..];
      if |t| > 0 && ys[0] == t[0] {
        SubsequenceOfTail(ys[1..], t);
      } else {
        Drop1(ys, t);
      }
    }
  }

  lemma {:induction false} Drop1<T>(ys: seq<T>, xs: seq<T>)
    requires |ys| > 0 && IsSubsequence(ys, xs)
    ensures IsSubsequence(ys[1..], xs)
    decreases |xs|, 2
  {
    if |xs| > 0 {
      if ys[0] == xs[0] {
        SubsequenceOfTail(ys[1..], xs);
      } else {
        Drop1(ys, xs[1..]);
        SubsequenceOfTail(ys[1..], xs);
      }
    }
  }

  lemma {:induction false} RemoveAllAbsent<T>(xs: seq<T>, x: T)
    requires x !in xs
    ensures RemoveAll(xs, x) == xs
  {
    if |xs| > 0 {
      RemoveAllAbsent(xs[1..], x);
      assert [xs[0]] + xs[1..] == xs;
    }
  }

  lemma {:induction false} RemoveAllAppend<T>(xs: seq<T>, x: T)
    ensures RemoveAll(xs + [x], x) == RemoveAll(xs, x)
  {
    if |xs| == 0 {
      assert ([x])[1..] == [];
    } else {
      assert (xs + [x])[1..] == xs[1..] + [x];
      RemoveAllAppend(xs[1..], x);
    }
  }

  /** Toggling an absent item twice gives the list back. */
  lemma ToggleTwiceAbsent<T>(xs: seq<T>, x: T)
    requires x !in xs
    ensures Toggle(xs, x) == xs + [x]
    ensures Toggle(Toggle(xs, x), x) == xs
  {
    RemoveAllAppend(xs, x);
    RemoveAllAbsent(xs, x);
  }

  /** Toggling never introduces a duplicate. */
  lemma ToggleKeepsNoDuplicates<T>(xs: seq<T>, x: T)
    requires NoDuplicates(xs)
    ensures NoDuplicates(Toggle(xs, x))
    ensures x in Toggle(xs, x) <==> x !in xs
  {
    RemoveAllSpec(xs, x);
    if x in xs {
      NoDuplicatesOfSubsequence(RemoveAll(xs, x), xs);
    }
  }

  lemma {:induction false} NoDuplicatesOfSubsequence<T>(ys: seq<T>, xs: seq<T>)
    requires NoDuplicates(xs) && IsSubsequence(ys, xs)
    ensures NoDuplicates(ys)
    decreases |xs|
  {
    if |ys| > 0 {
      assert |xs| > 0;
      assert NoDuplicates(xs[1..]) by {
        forall i, j | 0 <= i < j < |xs[1..]| ensures xs[1..][i] != xs[1..][j] {
          assert xs[1..][i] == xs[i + 1] && xs[1..][j] == xs[j + 1];
        }
      }
      if ys[0] == xs[0] {
        NoDuplicatesOfSubsequence(ys[1..], xs[1..]);
        SubsequenceMembers(ys[1..], xs[1..]);
        assert xs[0] !in xs[1..] by {
          forall j | 0 <= j < |xs[1..]| ensures xs[1..][j] != xs[0] {
            assert xs[1..][j] == xs[j + 1];
          }
        }
        forall i, j | 0 <= i < j < |ys| ensures ys[i] != ys[j] {
          if i == 0 {
            assert ys[j] == ys[1..][j - 1];
            assert ys[j] in ys[1..];
          } else {
            assert ys[i] == ys[1..][i - 1] && ys[j] == ys[1..][j - 1];
          }
        }
      } else {
        NoDuplicatesOfSubsequence(ys, xs[1..]);
      }
    }
  }

  lemma {:induction false} SubsequenceMembers<T>(ys: seq<T>, xs: seq<T>)
    requires IsSubsequence(ys, xs)
    ensures forall y :: y in ys ==> y in xs
    decreases |xs|
  {
    if |ys| > 0 {
      if ys[0] == xs[0] {
        SubsequenceMembers(ys[1..], xs[1..]);
        forall y | y in ys ensures y in xs {
          if y != ys[0] {
            var k :| 0 <= k < |ys| && ys[k] == y;
            assert ys[1..][k - 1] == y;
            assert y in ys[1..];
            assert y in xs[1..];
          }
        }
      } else {
        SubsequenceMembers(ys, xs[1..]);
      }
    }
  }
}
