/**
 * The combinatorics behind null-production elimination: value equality of arrays,
 * every subsequence of an array, and every variant of an array with some occurrences
 * of one element deleted.
 */
module Utilities {
  import opened Common

  /** `areArraysEqual`: the same length and the same element at every index. */
  function AreArraysEqual<T(==)>(a: seq<T>, b: seq<T>): (r: bool)
    ensures r <==> a == b
  {
    |a| == |b| && forall i :: 0 <= i < |a| ==> a[i] == b[i]
  }

  // ---------------------------------------------------------------------------
  // getCombinations
  // ---------------------------------------------------------------------------

  /*
   * The memo of `getCombinations` is a `Map` from `arr.join(",")` to `arr`, read back in
   * insertion order; it is modelled by the sequence of its values, keyed by the values
   * themselves (the join is injective on the index lists this module feeds it).
   */

  /** The memo after the inner `combinations(arr)` call on a memo `memo`. */
  function Explore<T(==)>(arr: seq<T>, memo: seq<seq<T>>): seq<seq<T>>
    decreases |arr|, 1, 0
  {
    if arr in memo then memo else ExploreFrom(arr, 0, memo + [arr])
  }

  /** The memo after the `forEach` over the positions `i..` of `arr`, each deleted in turn. */
  function ExploreFrom<T(==)>(arr: seq<T>, i: nat, memo: seq<seq<T>>): seq<seq<T>>
    requires i <= |arr|
    decreases |arr|, 0, |arr| - i
  {
    if i == |arr| then memo else ExploreFrom(arr, i + 1, Explore(Delete(arr, i), memo))
  }

  /** What `getCombinations(arr)` returns: the memo's values after exploring from `arr`. */
  function Combinations<T(==)>(arr: seq<T>): (r: seq<seq<T>>)
    ensures |r| > 0 && r[0] == arr
    ensures Distinct(r)
    ensures forall c :: c in r ==> IsSubseq(c, arr)
  {
    SubseqRefl(arr);
    ExploreInv(arr, [], {}, arr);
    ExploreFromInv(arr, 0, [arr], {}, arr);
    var none: seq<seq<T>> := [];
    assert none + [arr] == [arr];
    Explore(arr, none)
  }

  /** Every subsequence of `arr`, the empty one included, is among its combinations. */
  lemma CombinationsComplete<T>(arr: seq<T>, c: seq<T>)
    requires IsSubseq(c, arr)
    ensures c in Combinations(arr)
  {
    SubseqRefl(arr);
    ExploreInv(arr, [], {}, arr);
    ClosedComplete(Combinations(arr), arr, c);
  }

  /**
   * Every entry of `memo` outside `pending` (the calls still on the stack) already has all
   * its single deletions in `memo`.
   */
  ghost predicate Closed<T>(memo: seq<seq<T>>, pending: set<seq<T>>) {
    forall x, i :: x in memo && x !in pending && 0 <= i < |x| ==> Delete(x, i) in memo
  }

  lemma {:induction false} ExploreInv<T>(arr: seq<T>, memo: seq<seq<T>>, pending: set<seq<T>>, root: seq<T>)
    requires Closed(memo, pending) && Distinct(memo)
    requires forall x :: x in pending ==> |x| > |arr|
    requires IsSubseq(arr, root)
    requires forall x :: x in memo ==> IsSubseq(x, root)
    ensures memo <= Explore(arr, memo)
    ensures arr in Explore(arr, memo)
    ensures Closed(Explore(arr, memo), pending) && Distinct(Explore(arr, memo))
    ensures forall x :: x in Explore(arr, memo) ==> IsSubseq(x, root)
    decreases |arr|, 1, 0
  {
    if arr !in memo {
      var m := memo + [arr];
      assert Closed(m, pending + {arr});
      ExploreFromInv(arr, 0, m, pending, root);
      assert m[|memo|] == arr;
    }
  }

  lemma {:induction false} ExploreFromInv<T>(arr: seq<T>, i: nat, memo: seq<seq<T>>, pending: set<seq<T>>, root: seq<T>)
    requires i <= |arr|
    requires arr in memo
    requires Closed(memo, pending + {arr}) && Distinct(memo)
    requires forall x :: x in pending ==> |x| > |arr|
    requires forall j :: 0 <= j < i ==> Delete(arr, j) in memo
    requires IsSubseq(arr, root)
    requires forall x :: x in memo ==> IsSubseq(x, root)
    ensures memo <= ExploreFrom(arr, i, memo)
    ensures Closed(ExploreFrom(arr, i, memo), pending) && Distinct(ExploreFrom(arr, i, memo))
    ensures forall x :: x in ExploreFrom(arr, i, memo) ==> IsSubseq(x, root)
    decreases |arr|, 0, |arr| - i
  {
    if i < |arr| {
      var d := Delete(arr, i);
      SubseqTrans(d, arr, root);
      ExploreInv(d, memo, pending + {arr}, root);
      var m := Explore(d, memo);
      assert forall x :: x in memo ==> x in m by {
        forall x | x in memo ensures x in m {
          var k :| 0 <= k < |memo| && memo[k] == x;
          assert m[k] == x;
        }
      }
      ExploreFromInv(arr, i + 1, m, pending, root);
    }
  }

  /** A memo closed under single deletion holds every subsequence of each of its entries. */
  lemma {:induction false} ClosedComplete<T>(memo: seq<seq<T>>, x: seq<T>, y: seq<T>)
    requires Closed(memo, {}) && x in memo && IsSubseq(y, x)
    ensures y in memo
    decreases |x|
  {
    SubseqLength(y, x);
    if |y| < |x| {
      var i := SubseqDeleteStep(y, x);
      ClosedComplete(memo, Delete(x, i), y);
    }
  }

  /**
   * `getCombinations` as the source runs it: a recursive visit that fills the memo and,
   * for an array not seen before, loops over its positions.
   */
  method GetCombinations<T(==)>(arr: seq<T>) returns (r: seq<seq<T>>)
    ensures r == Combinations(arr)
    ensures |r| > 0 && r[0] == arr && Distinct(r)
    ensures forall c :: c in r <==> IsSubseq(c, arr)
  {
    r := Visit(arr, []);
    forall c | IsSubseq(c, arr) ensures c in r {
      CombinationsComplete(arr, c);
    }
  }

  method Visit<T(==)>(arr: seq<T>, memo: seq<seq<T>>) returns (r: seq<seq<T>>)
    ensures r == Explore(arr, memo)
    decreases |arr|
  {
    if arr in memo {
      return memo;
    }
    r := memo + [arr];
    var i := 0;
    while i < |arr|
      invariant i <= |arr|
      invariant ExploreFrom(arr, i, r) == Explore(arr, memo)
    {
      r := Visit(Delete(arr, i), r);
      i := i + 1;
    }
  }

  // ---------------------------------------------------------------------------
  // combinationsWithout
  // ---------------------------------------------------------------------------

  /** The positions, counted from `k`, of the elements of `arr` equal to `e`, ascending. */
  function Positions<T(==)>(arr: seq<T>, e: T, k: nat): (r: seq<nat>)
    ensures forall x :: x in r ==> k <= x < k + |arr| && arr[x - k] == e
    ensures forall x :: k <= x < k + |arr| && arr[x - k] == e ==> x in r
    decreases |arr|
  {
    if arr == [] then []
    else
      var rest := Positions(arr[1..], e, k + 1);
      (if arr[0] == e then [k] else []) + rest
  }

  /** `arr.filter((_, i) => !idxs.includes(i))`, positions counted from `k`. */
  function Omit<T>(arr: seq<T>, idxs: seq<nat>, k: nat): seq<T>
    decreases |arr|
  {
    if arr == [] then []
    else (if k in idxs then [] else [arr[0]]) + Omit(arr[1..], idxs, k + 1)
  }

  /** `arr` with every occurrence of `e` deleted. */
  function Strip<T(==)>(arr: seq<T>, e: T): seq<T>
    decreases |arr|
  {
    if arr == [] then []
    else (if arr[0] == e then [] else [arr[0]]) + Strip(arr[1..], e)
  }

  /** `indicesCombinations.map(indices => arr.filter(...))`. */
  function Variants<T>(arr: seq<T>, choices: seq<seq<nat>>): (r: seq<seq<T>>)
    ensures |r| == |choices|
    ensures forall j :: 0 <= j < |choices| ==> r[j] == Omit(arr, choices[j], 0)
  {
    seq(|choices|, j requires 0 <= j < |choices| => Omit(arr, choices[j], 0))
  }

  /**
   * `combinationsWithout(e)(arr)`: every distinct way of deleting some of the occurrences
   * of `e` from `arr`, each at its first appearance; the first is `arr` with every `e` gone.
   */
  function CombinationsWithout<T(==)>(e: T, arr: seq<T>): (r: seq<seq<T>>)
    ensures Distinct(r)
    ensures |r| > 0 && r[0] == Strip(arr, e)
    ensures forall c :: c in r ==> IsSubseq(c, arr) && Strip(c, e) == Strip(arr, e)
    ensures e !in arr ==> r == [arr]
  {
    var vs := Variants(arr, Combinations(Positions(arr, e, 0)));
    VariantsSound(e, arr);
    OmitPositions(arr, e, 0);
    VariantsWithoutOccurrence(e, arr);
    DedupDistinct([arr]);
    Dedup(vs)
  }

  lemma VariantsSound<T>(e: T, arr: seq<T>)
    ensures forall c :: c in Variants(arr, Combinations(Positions(arr, e, 0))) ==>
      IsSubseq(c, arr) && Strip(c, e) == Strip(arr, e)
  {
    var ps := Positions(arr, e, 0);
    var choices := Combinations(ps);
    var vs := Variants(arr, choices);
    forall j | 0 <= j < |choices|
      ensures IsSubseq(vs[j], arr) && Strip(vs[j], e) == Strip(arr, e)
    {
      SubseqMembers(choices[j], ps);
      OmitSound(arr, choices[j], 0, e);
    }
  }

  lemma VariantsWithoutOccurrence<T>(e: T, arr: seq<T>)
    ensures e !in arr ==> Variants(arr, Combinations(Positions(arr, e, 0))) == [arr]
  {
    if e !in arr {
      var ps := Positions(arr, e, 0);
      PositionsAbsent(arr, e, 0);
      var empty: seq<nat> := [];
      var none: seq<seq<nat>> := [];
      assert none + [empty] == [empty];
      assert Explore(empty, none) == ExploreFrom(empty, 0, [empty]) == [empty];
      OmitNothing(arr, 0);
      assert Variants(arr, [empty])[0] == arr;
    }
  }

  /** Every way of deleting only occurrences of `e` from `arr` is produced. */
  lemma CombinationsWithoutComplete<T>(e: T, arr: seq<T>, c: seq<T>)
    requires IsSubseq(c, arr) && Strip(c, e) == Strip(arr, e)
    ensures c in CombinationsWithout(e, arr)
  {
    var ps := Positions(arr, e, 0);
    var idxs := OmitComplete(arr, c, e, 0);
    CombinationsComplete(ps, idxs);
    var choices := Combinations(ps);
    var j :| 0 <= j < |choices| && choices[j] == idxs;
    assert Variants(arr, choices)[j] == c;
  }

  /** `arr` itself and `arr` with every `e` deleted are both among the variants. */
  lemma CombinationsWithoutExtremes<T>(e: T, arr: seq<T>)
    ensures arr in CombinationsWithout(e, arr)
    ensures Strip(arr, e) in CombinationsWithout(e, arr)
  {
    SubseqRefl(arr);
    CombinationsWithoutComplete(e, arr, arr);
  }

  lemma {:induction false} PositionsAbsent<T>(arr: seq<T>, e: T, k: nat)
    requires e !in arr
    ensures Positions(arr, e, k) == []
    decreases |arr|
  {
    if arr != [] {
      assert arr[0] != e && e !in arr[1..];
      PositionsAbsent(arr[1..], e, k + 1);
    }
  }

  lemma {:induction false} OmitNothing<T>(arr: seq<T>, k: nat)
    ensures Omit(arr, [], k) == arr
    decreases |arr|
  {
    if arr != [] {
      OmitNothing(arr[1..], k + 1);
    }
  }

  /** `Omit` only looks at the positions from `k` on. */
  lemma {:induction false} OmitAgree<T>(arr: seq<T>, a: seq<nat>, b: seq<nat>, k: nat)
    requires forall x: nat :: k <= x ==> (x in a <==> x in b)
    ensures Omit(arr, a, k) == Omit(arr, b, k)
    decreases |arr|
  {
    if arr != [] {
      OmitAgree(arr[1..], a, b, k + 1);
    }
  }

  /** Omitting every position of `e` deletes every `e`. */
  lemma {:induction false} OmitPositions<T>(arr: seq<T>, e: T, k: nat)
    ensures Omit(arr, Positions(arr, e, k), k) == Strip(arr, e)
    decreases |arr|
  {
    if arr != [] {
      var ps := Positions(arr, e, k);
      var rest := Positions(arr[1..], e, k + 1);
      OmitAgree(arr[1..], ps, rest, k + 1);
      OmitPositions(arr[1..], e, k + 1);
    }
  }

  /** Omitting positions that hold `e` gives a subsequence with the same non-`e` elements. */
  lemma {:induction false} OmitSound<T>(arr: seq<T>, idxs: seq<nat>, k: nat, e: T)
    requires forall x :: x in idxs && k <= x < k + |arr| ==> arr[x - k] == e
    ensures IsSubseq(Omit(arr, idxs, k), arr)
    ensures Strip(Omit(arr, idxs, k), e) == Strip(arr, e)
    decreases |arr|
  {
    if arr != [] {
      assert forall x :: x in idxs && k + 1 <= x < k + 1 + |arr[1..]| ==> arr[1..][x - (k + 1)] == e by {
        forall x | x in idxs && k + 1 <= x < k + 1 + |arr[1..]| ensures arr[1..][x - (k + 1)] == e {
          assert arr[1..][x - (k + 1)] == arr[x - k];
        }
      }
      OmitSound(arr[1..], idxs, k + 1, e);
      var tail := Omit(arr[1..], idxs, k + 1);
      if k in idxs {
        assert Omit(arr, idxs, k) == tail;
        SubseqDropHead(tail, arr);
      } else {
        assert Omit(arr, idxs, k) == [arr[0]] + tail;
        assert ([arr[0]] + tail)[1..] == tail;
      }
    }
  }

  /** A subsequence has at most as many elements other than `e`. */
  lemma {:induction false} StripLength<T>(c: seq<T>, x: seq<T>, e: T)
    requires IsSubseq(c, x)
    ensures |Strip(c, e)| <= |Strip(x, e)|
    decreases |x|
  {
    if c != [] {
      if c[0] == x[0] && IsSubseq(c[1..], x[1..]) {
        StripLength(c[1..], x[1..], e);
      } else {
        StripLength(c, x[1..], e);
      }
    }
  }

  /**
   * A subsequence of `arr` keeping every element other than `e` is `arr` with some
   * positions of `e` omitted; the positions are returned.
   */
  lemma {:induction false} OmitComplete<T>(arr: seq<T>, c: seq<T>, e: T, k: nat) returns (idxs: seq<nat>)
    requires IsSubseq(c, arr) && Strip(c, e) == Strip(arr, e)
    ensures IsSubseq(idxs, Positions(arr, e, k))
    ensures Omit(arr, idxs, k) == c
    decreases |arr|
  {
    if arr == [] {
      assert c == [];
      idxs := [];
      return;
    }
    var rest := arr[1..];
    var ps := Positions(arr, e, k);
    var pr := Positions(rest, e, k + 1);
    if c != [] && c[0] == arr[0] && IsSubseq(c[1..], rest) {
      assert c == [c[0]] + c[1..];
      var h := if c[0] == e then [] else [c[0]];
      assert Strip(c, e) == h + Strip(c[1..], e);
      assert Strip(arr, e) == h + Strip(rest, e);
      assert Strip(c[1..], e) == (h + Strip(c[1..], e))[|h|..];
      assert Strip(rest, e) == (h + Strip(rest, e))[|h|..];
      idxs := OmitComplete(rest, c[1..], e, k + 1);
      SubseqMembers(idxs, pr);
      assert k !in idxs;
      if arr[0] == e {
        assert ps == [k] + pr && ps[1..] == pr;
        SubseqDropHead(idxs, ps);
      } else {
        assert ps == pr;
      }
    } else {
      assert IsSubseq(c, rest);
      if arr[0] != e {
        StripLength(c, rest, e);
        assert false;
      }
      idxs := OmitComplete(rest, c, e, k + 1);
      SubseqMembers(idxs, pr);
      var full := [k] + idxs;
      OmitAgree(rest, full, idxs, k + 1);
      assert full[1..] == idxs;
      assert ps == [k] + pr && ps[1..] == pr;
      idxs := full;
    }
  }
}
