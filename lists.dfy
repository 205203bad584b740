/** The array operations the pages use on selection lists: `includes`
    (Dafny's `in`), `filter(item => item !== x)` and spread-append. */
module Lists {

  /** No option is selected twice. */
  predicate NoDuplicates(s: seq<string>) {
    forall i, j :: 0 <= i < j < |s| ==> s[i] != s[j]
  }

  /** `s.filter(item => item !== x)`: every copy of `x` dropped, the rest in order. */
  function Without(s: seq<string>, x: string): (r: seq<string>)
    ensures x !in r
    ensures forall y :: y in r <==> y in s && y != x
    ensures |r| <= |s|
    ensures x in s ==> |r| < |s|
    ensures NoDuplicates(s) ==> NoDuplicates(r)
  {
    if s == [] then []
    else if s[0] == x then Without(s[1..], x)
    else
      var rest := Without(s[1..], x);
      assert NoDuplicates(s) ==> s[0] !in s[1..] by {
        forall k | 0 <= k < |s| - 1 ensures NoDuplicates(s) ==> s[1..][k] != s[0] {
          assert s[1..][k] == s[k + 1];
        }
      }
      [s[0]] + rest
  }

  /** Filtering out an absent value changes nothing. */
  lemma {:induction false} WithoutAbsent(s: seq<string>, x: string)
    requires x !in s
    ensures Without(s, x) == s
  {
    if s != [] {
      WithoutAbsent(s[1..], x);
    }
  }

  /** Filtering distributes over concatenation, so the order of the kept
      elements is the order they had. */
  lemma {:induction false} WithoutConcat(a: seq<string>, b: seq<string>, x: string)
    ensures Without(a + b, x) == Without(a, x) + Without(b, x)
  {
    if a == [] {
      assert a + b == b;
    } else {
      assert (a + b)[1..] == a[1..] + b;
      WithoutConcat(a[1..], b, x);
    }
  }

  /** The element in the middle of a duplicate-free list occurs nowhere else. */
  lemma MiddleIsUnique(a: seq<string>, x: string, b: seq<string>)
    requires NoDuplicates(a + [x] + b)
    ensures x !in a && x !in b
  {
    var s := a + [x] + b;
    forall i | 0 <= i < |a| ensures a[i] != x {
      assert s[i] == a[i] && s[|a|] == x;
    }
    forall j | 0 <= j < |b| ensures b[j] != x {
      assert s[|a| + 1 + j] == b[j] && s[|a|] == x;
    }
  }

  /** In a duplicate-free list, removing a present element cuts out exactly
      that one position and keeps the rest in order. */
  lemma WithoutCutsOut(a: seq<string>, x: string, b: seq<string>)
    requires NoDuplicates(a + [x] + b)
    ensures Without(a + [x] + b, x) == a + b
  {
    MiddleIsUnique(a, x, b);
    WithoutConcat(a + [x], b, x);
    WithoutConcat(a, [x], x);
    WithoutAbsent(a, x);
    WithoutAbsent(b, x);
    assert Without([x], x) == [];
  }

  /** Appending an absent value and filtering it out again gives the original list. */
  lemma AppendThenWithout(s: seq<string>, x: string)
    requires x !in s
    ensures Without(s + [x], x) == s
  {
    WithoutConcat(s, [x], x);
    WithoutAbsent(s, x);
  }
}
