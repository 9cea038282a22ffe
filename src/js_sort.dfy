/** `Array.prototype.sort()` called without a comparator, on arrays of numeric
    ids. ECMAScript then converts every element to a string and orders the
    strings by their code units, so `[10, 9].sort()` is `[10, 9]`. The order
    is nevertheless total and antisymmetric on non-negative integers, which
    makes the sorted permutation of a list unique: two lists sort to the same
    result exactly when they hold the same ids with the same multiplicities. */
module JsSort {
  import opened JsText

  /** Code-unit (lexicographic) order on strings, as the `<` of ECMAScript
      strings extended to `<=`: a proper prefix comes first. */
  predicate LexLe(a: string, b: string)
    decreases |a|
  {
    |a| == 0 || (|b| > 0 && (a[0] < b[0] || (a[0] == b[0] && LexLe(a[1..], b[1..]))))
  }

  lemma {:induction false} LexTotal(a: string, b: string)
    ensures LexLe(a, b) || LexLe(b, a)
    decreases |a|
  {
    if |a| > 0 && |b| > 0 && a[0] == b[0] {
      LexTotal(a[1..], b[1..]);
    }
  }

  lemma {:induction false} LexAntisymmetric(a: string, b: string)
    requires LexLe(a, b) && LexLe(b, a)
    ensures a == b
    decreases |a|
  {
    if |a| > 0 {
      LexAntisymmetric(a[1..], b[1..]);
      assert a == [a[0]] + a[1..] && b == [b[0]] + b[1..];
    }
  }

  lemma {:induction false} LexTransitive(a: string, b: string, c: string)
    requires LexLe(a, b) && LexLe(b, c)
    ensures LexLe(a, c)
    decreases |a|
  {
    if |a| > 0 && a[0] == b[0] && b[0] == c[0] {
      LexTransitive(a[1..], b[1..], c[1..]);
    }
  }

  /** The default comparator on ids: their decimal texts in code-unit order. */
  predicate IdLe(x: nat, y: nat)
  {
    LexLe(Decimal(x), Decimal(y))
  }

  lemma IdLeTotal(x: nat, y: nat)
    ensures IdLe(x, y) || IdLe(y, x)
  {
    LexTotal(Decimal(x), Decimal(y));
  }

  lemma IdLeAntisymmetric(x: nat, y: nat)
    requires IdLe(x, y) && IdLe(y, x)
    ensures x == y
  {
    LexAntisymmetric(Decimal(x), Decimal(y));
    DecimalInjective(x, y);
  }

  lemma IdLeTransitive(x: nat, y: nat, z: nat)
    requires IdLe(x, y) && IdLe(y, z)
    ensures IdLe(x, z)
  {
    LexTransitive(Decimal(x), Decimal(y), Decimal(z));
  }

  /** Every neighbouring pair is in comparator order. */
  predicate Sorted(s: seq<nat>)
  {
    forall k :: 0 < k < |s| ==> IdLe(s[k - 1], s[k])
  }

  /** `t` is what sorting `s` leaves behind: a sorted rearrangement of `s`. */
  predicate SortedPermutationOf(t: seq<nat>, s: seq<nat>)
  {
    Sorted(t) && multiset(t) == multiset(s)
  }

  /** In a sorted list the first element precedes every element. */
  lemma {:induction false} SortedHeadFirst(s: seq<nat>, j: int)
    requires Sorted(s) && 0 <= j < |s|
    ensures IdLe(s[0], s[j])
    decreases j
  {
    if j == 0 {
      LexTotal(Decimal(s[0]), Decimal(s[0]));
    } else {
      SortedHeadFirst(s, j - 1);
      IdLeTransitive(s[0], s[j - 1], s[j]);
    }
  }

  /** Two sorted lists with the same multiset start with the same element. */
  lemma SortedHeadsEqual(s: seq<nat>, t: seq<nat>)
    requires Sorted(s) && Sorted(t) && multiset(s) == multiset(t) && |s| > 0
    ensures |t| > 0 && s[0] == t[0]
  {
    assert s[0] in multiset(s);
    var j :| 0 <= j < |t| && t[j] == s[0];
    SortedHeadFirst(t, j);
    assert t[0] in multiset(s);
    var i :| 0 <= i < |s| && s[i] == t[0];
    SortedHeadFirst(s, i);
    IdLeAntisymmetric(s[0], t[0]);
  }

  /** A list has only one sorted rearrangement under the default comparator. */
  lemma {:induction false} SortedPermutationUnique(s: seq<nat>, t: seq<nat>)
    requires Sorted(s) && Sorted(t) && multiset(s) == multiset(t)
    ensures s == t
    decreases |s|
  {
    if |s| == 0 {
      assert |t| == |multiset(t)| == 0;
    } else {
      SortedHeadsEqual(s, t);
      TailMultiset(s);
      TailMultiset(t);
      SortedPermutationUnique(s[1..], t[1..]);
      assert s == [s[0]] + s[1..] && t == [t[0]] + t[1..];
    }
  }

  /** Dropping the head of a list drops one occurrence of it. */
  lemma TailMultiset(s: seq<nat>)
    requires |s| > 0
    ensures multiset(s[1..]) == multiset(s) - multiset{s[0]}
    ensures Sorted(s) ==> Sorted(s[1..])
  {
    assert s == [s[0]] + s[1..];
  }

  /** Sort-then-compare is multiset comparison: the sorted forms of two lists
      are equal exactly when the lists hold the same elements, each as often. */
  lemma SortedCompareIsMultisetCompare(a: seq<nat>, sa: seq<nat>, b: seq<nat>, sb: seq<nat>)
    requires SortedPermutationOf(sa, a) && SortedPermutationOf(sb, b)
    ensures sa == sb <==> multiset(a) == multiset(b)
  {
    if multiset(a) == multiset(b) {
      SortedPermutationUnique(sa, sb);
    }
  }

  /** `a.sort()`: rearranges the array in place into comparator order. The
      engine's algorithm is not observable, because the result is unique
      (SortedPermutationUnique); this is an insertion sort by adjacent swaps. */
  method SortInPlace(a: array<nat>)
    modifies a
    ensures SortedPermutationOf(a[..], old(a[..]))
  {
    var i := 0;
    while i < a.Length
      invariant 0 <= i <= a.Length
      invariant Sorted(a[..i])
      invariant multiset(a[..]) == multiset(old(a[..]))
    {
      Insert(a, i);
      i := i + 1;
    }
    assert a[..a.Length] == a[..];
  }

  /** Moves `a[i]` down into the sorted prefix `a[..i]`. */
  method Insert(a: array<nat>, i: nat)
    requires i < a.Length && Sorted(a[..i])
    modifies a
    ensures Sorted(a[..i + 1])
    ensures multiset(a[..]) == multiset(old(a[..]))
  {
    var j := i;
    while j > 0 && !IdLe(a[j - 1], a[j])
      invariant 0 <= j <= i
      invariant forall k :: 0 < k <= i && k != j ==> IdLe(a[k - 1], a[k])
      invariant 0 < j < i ==> IdLe(a[j - 1], a[j + 1])
      invariant multiset(a[..]) == multiset(old(a[..]))
    {
      IdLeTotal(a[j - 1], a[j]);
      Swap(a, j);
      j := j - 1;
    }
  }

  /** Exchanges `a[j - 1]` and `a[j]`. */
  method Swap(a: array<nat>, j: nat)
    requires 0 < j < a.Length
    modifies a
    ensures a[j - 1] == old(a[j]) && a[j] == old(a[j - 1])
    ensures forall k :: 0 <= k < a.Length && k != j - 1 && k != j ==> a[k] == old(a[k])
    ensures multiset(a[..]) == multiset(old(a[..]))
  {
    a[j - 1], a[j] := a[j], a[j - 1];
  }
}
