/** The comparator combinators the token table is built from:
    `createAscendingComparator`, `createDescendingComparator` and
    `mergeComparators`. A comparator returns a negative number when its
    first argument sorts first, a positive one when its second does, and
    zero on a tie. */
module Comparators {

  /** Compares two keys by a strict order `lt`: -1, 1 or 0. */
  function Ascending<K>(lt: (K, K) -> bool, x: K, y: K): (r: int)
    ensures r == -1 || r == 0 || r == 1
    ensures r < 0 <==> lt(x, y)
    ensures r > 0 <==> !lt(x, y) && lt(y, x)
  {
    if lt(x, y) then -1 else if lt(y, x) then 1 else 0
  }

  /** The ascending comparison with the two keys swapped. */
  function Descending<K>(lt: (K, K) -> bool, x: K, y: K): (r: int)
    ensures r == -1 || r == 0 || r == 1
    ensures r < 0 <==> lt(y, x)
    ensures r > 0 <==> !lt(y, x) && lt(x, y)
  {
    Ascending(lt, y, x)
  }

  /** Consults the comparators in order; the first non-zero answer wins. */
  function Merge<T>(cs: seq<(T, T) -> int>, a: T, b: T): int
    decreases |cs|
  {
    if |cs| == 0 then 0
    else
      var r := cs[0](a, b);
      if r != 0 then r else Merge(cs[1..], a, b)
  }

  /** `mergeComparators`: the comparator that consults `cs` in order. */
  function MergeComparators<T>(cs: seq<(T, T) -> int>): (T, T) -> int {
    (a: T, b: T) => Merge(cs, a, b)
  }

  function Sign(x: int): int {
    if x < 0 then -1 else if x > 0 then 1 else 0
  }

  /** Booleans compare as numbers: `false < true`. */
  function BoolLess(x: bool, y: bool): bool {
    !x && y
  }

  function IntLess(x: int, y: int): bool {
    x < y
  }

  /** Lexicographic order on strings, character by character, a proper
      prefix first. */
  function StringLess(x: string, y: string): bool
    decreases |x|
  {
    if |y| == 0 then false
    else if |x| == 0 then true
    else if x[0] != y[0] then x[0] < y[0]
    else StringLess(x[1..], y[1..])
  }

  ghost predicate StrictTotalOrder<K(!new)>(lt: (K, K) -> bool) {
    && (forall x :: !lt(x, x))
    && (forall x, y, z :: lt(x, y) && lt(y, z) ==> lt(x, z))
    && (forall x, y :: x != y ==> lt(x, y) || lt(y, x))
  }

  /** What `Array.prototype.sort` needs of a comparator: every element ties
      with itself, swapping the arguments flips the sign, and "sorts no
      later than" is transitive. */
  ghost predicate Consistent<T(!new)>(c: (T, T) -> int) {
    && (forall a :: c(a, a) == 0)
    && (forall a, b :: Sign(c(a, b)) == -Sign(c(b, a)))
    && (forall a, b, d :: c(a, b) <= 0 && c(b, d) <= 0 ==> c(a, d) <= 0)
  }

  // ---------------------------------------------------------------------------
  // The key orders are strict total orders
  // ---------------------------------------------------------------------------

  lemma BoolLessIsStrictTotalOrder()
    ensures StrictTotalOrder(BoolLess)
  {
  }

  lemma IntLessIsStrictTotalOrder()
    ensures StrictTotalOrder(IntLess)
  {
  }

  lemma {:induction false} StringLessIrreflexive(x: string)
    ensures !StringLess(x, x)
    decreases |x|
  {
    if |x| > 0 {
      StringLessIrreflexive(x[1..]);
    }
  }

  lemma {:induction false} StringLessTransitive(x: string, y: string, z: string)
    requires StringLess(x, y) && StringLess(y, z)
    ensures StringLess(x, z)
    decreases |x|
  {
    if |x| > 0 && x[0] == y[0] && y[0] == z[0] {
      StringLessTransitive(x[1..], y[1..], z[1..]);
    }
  }

  lemma StringLessAsymmetric(x: string, y: string)
    ensures StringLess(x, y) ==> !StringLess(y, x)
  {
    if StringLess(x, y) && StringLess(y, x) {
      StringLessTransitive(x, y, x);
      StringLessIrreflexive(x);
    }
  }

  lemma {:induction false} StringLessTotal(x: string, y: string)
    requires x != y
    ensures StringLess(x, y) || StringLess(y, x)
    decreases |x|
  {
    if |x| > 0 && |y| > 0 && x[0] == y[0] {
      assert x == [x[0]] + x[1..] && y == [y[0]] + y[1..];
      StringLessTotal(x[1..], y[1..]);
    }
  }

  lemma StringLessIsStrictTotalOrder()
    ensures StrictTotalOrder(StringLess)
  {
    forall x: string
      ensures !StringLess(x, x)
    {
      StringLessIrreflexive(x);
    }
    forall x: string, y: string, z: string | StringLess(x, y) && StringLess(y, z)
      ensures StringLess(x, z)
    {
      StringLessTransitive(x, y, z);
    }
    forall x: string, y: string | x != y
      ensures StringLess(x, y) || StringLess(y, x)
    {
      StringLessTotal(x, y);
    }
  }

  // ---------------------------------------------------------------------------
  // Key comparators and their merge are consistent
  // ---------------------------------------------------------------------------

  /** Comparing by a key under a strict total order gives a consistent
      comparator; two elements tie exactly when their keys are equal. */
  lemma KeyComparatorConsistent<T(!new), K(!new)>(c: (T, T) -> int, key: T -> K, lt: (K, K) -> bool)
    requires StrictTotalOrder(lt)
    requires forall a, b :: c(a, b) == Ascending(lt, key(a), key(b))
    ensures Consistent(c)
    ensures forall a, b :: c(a, b) == 0 <==> key(a) == key(b)
  {
    forall a, b, d | c(a, b) <= 0 && c(b, d) <= 0
      ensures c(a, d) <= 0
    {
      assert !lt(key(b), key(a)) && !lt(key(d), key(b));
    }
  }

  /** The same for comparing by a key in descending order. */
  lemma DescendingKeyComparatorConsistent<T(!new), K(!new)>(c: (T, T) -> int, key: T -> K, lt: (K, K) -> bool)
    requires StrictTotalOrder(lt)
    requires forall a, b :: c(a, b) == Descending(lt, key(a), key(b))
    ensures Consistent(c)
    ensures forall a, b :: c(a, b) == 0 <==> key(a) == key(b)
  {
    forall a, b, d | c(a, b) <= 0 && c(b, d) <= 0
      ensures c(a, d) <= 0
    {
      assert !lt(key(a), key(b)) && !lt(key(b), key(d));
    }
  }

  /** Facts every consistent comparator has: ties are transitive, and a
      strict step followed by a weak one stays strict. */
  lemma ConsistentFacts<T(!new)>(c: (T, T) -> int, a: T, b: T, d: T)
    requires Consistent(c)
    ensures c(a, b) == 0 && c(b, d) == 0 ==> c(a, d) == 0
    ensures c(a, b) < 0 && c(b, d) <= 0 ==> c(a, d) < 0
    ensures c(a, b) <= 0 && c(b, d) < 0 ==> c(a, d) < 0
  {
    assert Sign(c(a, b)) == -Sign(c(b, a));
    assert Sign(c(b, d)) == -Sign(c(d, b));
    assert Sign(c(a, d)) == -Sign(c(d, a));
    if c(a, b) == 0 && c(b, d) == 0 {
      assert c(d, b) <= 0 && c(b, a) <= 0;
    }
  }

  /** The merge answers with the first comparator that does not tie, and
      ties exactly when every comparator ties. */
  lemma {:induction false} MergeFirstNonZero<T>(cs: seq<(T, T) -> int>, a: T, b: T, k: nat)
    requires k <= |cs|
    requires forall i :: 0 <= i < k ==> cs[i](a, b) == 0
    ensures k < |cs| && cs[k](a, b) != 0 ==> Merge(cs, a, b) == cs[k](a, b)
    ensures k == |cs| ==> Merge(cs, a, b) == 0
    decreases k
  {
    if k > 0 {
      MergeFirstNonZero(cs[1..], a, b, k - 1);
    }
  }

  lemma {:induction false} MergeTiesIffAllTie<T>(cs: seq<(T, T) -> int>, a: T, b: T)
    ensures Merge(cs, a, b) == 0 <==> forall i :: 0 <= i < |cs| ==> cs[i](a, b) == 0
    decreases |cs|
  {
    if |cs| > 0 {
      MergeTiesIffAllTie(cs[1..], a, b);
      assert forall i :: 1 <= i < |cs| ==> cs[i] == cs[1..][i - 1];
    }
  }

  lemma {:induction false} MergeReflexive<T>(cs: seq<(T, T) -> int>, a: T)
    requires forall i :: 0 <= i < |cs| ==> cs[i](a, a) == 0
    ensures Merge(cs, a, a) == 0
    decreases |cs|
  {
    if |cs| > 0 {
      MergeReflexive(cs[1..], a);
    }
  }

  lemma {:induction false} MergeAntisymmetric<T(!new)>(cs: seq<(T, T) -> int>, a: T, b: T)
    requires forall i :: 0 <= i < |cs| ==> Consistent(cs[i])
    ensures Sign(Merge(cs, a, b)) == -Sign(Merge(cs, b, a))
    decreases |cs|
  {
    if |cs| > 0 {
      assert Consistent(cs[0]);
      assert Sign(cs[0](a, b)) == -Sign(cs[0](b, a));
      MergeAntisymmetric(cs[1..], a, b);
    }
  }

  lemma {:induction false} MergeTransitive<T(!new)>(cs: seq<(T, T) -> int>, a: T, b: T, d: T)
    requires forall i :: 0 <= i < |cs| ==> Consistent(cs[i])
    requires Merge(cs, a, b) <= 0 && Merge(cs, b, d) <= 0
    ensures Merge(cs, a, d) <= 0
    decreases |cs|
  {
    if |cs| > 0 {
      var c := cs[0];
      ConsistentFacts(c, a, b, d);
      if c(a, b) == 0 && c(b, d) == 0 {
        MergeTransitive(cs[1..], a, b, d);
      }
    }
  }

  /** Merging consistent comparators gives a consistent comparator. */
  lemma MergeConsistent<T(!new)>(cs: seq<(T, T) -> int>)
    requires forall i :: 0 <= i < |cs| ==> Consistent(cs[i])
    ensures Consistent(MergeComparators(cs))
  {
    forall a: T
      ensures Merge(cs, a, a) == 0
    {
      MergeReflexive(cs, a);
    }
    forall a: T, b: T
      ensures Sign(Merge(cs, a, b)) == -Sign(Merge(cs, b, a))
    {
      MergeAntisymmetric(cs, a, b);
    }
    forall a: T, b: T, d: T | Merge(cs, a, b) <= 0 && Merge(cs, b, d) <= 0
      ensures Merge(cs, a, d) <= 0
    {
      MergeTransitive(cs, a, b, d);
    }
  }
}
