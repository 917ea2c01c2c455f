/** Sequence vocabulary shared by the grammar and automaton models. */
module Common {

  /** A value that may be missing; stands for JavaScript's `undefined`. */
  datatype Option<+T> = None | Some(value: T)

  /** No element occurs twice. */
  predicate Distinct<T(==)>(s: seq<T>) {
    forall i, j :: 0 <= i < j < |s| ==> s[i] != s[j]
  }

  /** `y` is obtained from `x` by deleting some of its elements, keeping the order of the rest. */
  predicate IsSubseq<T(==)>(y: seq<T>, x: seq<T>)
    decreases |x|
  {
    if y == [] then true
    else if x == [] then false
    else (y[0] == x[0] && IsSubseq(y[1..], x[1..])) || IsSubseq(y, x[1..])
  }

  /** Adds `x` at the end unless it is already there: a JavaScript `Set` in insertion order. */
  function AddOrdered<T(==)>(s: seq<T>, x: T): (r: seq<T>)
    ensures x in r
    ensures forall y :: y in r ==> y in s || y == x
    ensures forall y :: y in s ==> y in r
    ensures Distinct(s) ==> Distinct(r)
  {
    if x in s then s else s + [x]
  }

  /** Some element of `xs` is in `ys`: `xs.some(x => ys.includes(x))`. */
  predicate SomeIncluded<T(==)>(xs: seq<T>, ys: seq<T>) {
    xs != [] && (xs[0] in ys || SomeIncluded(xs[1..], ys))
  }

  /** `some` finds a common element exactly when there is one. */
  lemma {:induction false} SomeIncludedMeans<T>(xs: seq<T>, ys: seq<T>)
    ensures SomeIncluded(xs, ys) <==> exists x :: x in xs && x in ys
  {
    if xs != [] {
      SomeIncludedMeans(xs[1..], ys);
      assert xs == [xs[0]] + xs[1..];
    }
  }

  /**
   * The elements of `s[i..]` whose earlier occurrences do not exist, in order; at `i = 0`
   * this is `s.filter((c, k) => s.findIndex(d => d == c) === k)`, the same as `[...new Set(s)]`.
   */
  function KeepFirst<T(==)>(s: seq<T>, i: nat): seq<T>
    requires i <= |s|
    decreases |s| - i
  {
    if i == |s| then []
    else (if s[i] in s[..i] then [] else [s[i]]) + KeepFirst(s, i + 1)
  }

  /** Removes repeated elements, each one kept at its first occurrence. */
  function Dedup<T(==)>(s: seq<T>): (r: seq<T>)
    ensures Distinct(r)
    ensures forall x :: x in r ==> x in s
    ensures forall x :: x in s ==> x in r
    ensures IsSubseq(r, s)
    ensures |s| > 0 ==> |r| > 0 && r[0] == s[0]
    ensures InFirstOccurrenceOrder(r, s)
  {
    KeepFirstOrder(s, 0);
    KeepFirstDistinct(s, 0);
    KeepFirstMembers(s, 0);
    KeepFirstSubseq(s, 0);
    assert s[0..] == s && s[..0] == [];
    assert forall x :: x in KeepFirst(s, 0) ==> x in s[0..];
    KeepFirst(s, 0)
  }

  /**
   * `r` lists elements of `s` in the order of their first occurrences in `s`: every occurrence
   * of a later one comes after an occurrence of an earlier one.
   */
  predicate InFirstOccurrenceOrder<T(==)>(r: seq<T>, s: seq<T>) {
    forall p, q, k :: 0 <= p < q < |r| && 0 <= k < |s| && s[k] == r[q] ==> r[p] in s[..k]
  }

  lemma {:induction false} KeepFirstOrder<T>(s: seq<T>, i: nat)
    requires i <= |s|
    ensures InFirstOccurrenceOrder(KeepFirst(s, i), s)
    decreases |s| - i
  {
    if i < |s| {
      KeepFirstOrder(s, i + 1);
      var rest := KeepFirst(s, i + 1);
      if s[i] !in s[..i] {
        forall x | x in rest ensures x !in s[..i + 1] {
          KeepFirstMembers(s, i + 1);
        }
        OrderCons(s, i, rest);
      } else {
        assert KeepFirst(s, i) == rest;
      }
    }
  }

  /** Putting `s[i]` in front of elements that all occur only after `i` keeps the order. */
  lemma OrderCons<T>(s: seq<T>, i: nat, rest: seq<T>)
    requires i < |s| && InFirstOccurrenceOrder(rest, s)
    requires forall x :: x in rest ==> x !in s[..i + 1]
    ensures InFirstOccurrenceOrder([s[i]] + rest, s)
  {
    var r := [s[i]] + rest;
    forall p, q, k | 0 <= p < q < |r| && 0 <= k < |s| && s[k] == r[q]
      ensures r[p] in s[..k]
    {
      assert r[q] == rest[q - 1] && rest[q - 1] in rest;
      if p == 0 {
        AfterPrefix(s, i + 1, k);
        assert s[..k][i] == s[i];
      } else {
        assert r[p] == rest[p - 1];
        OrderAt(rest, s, p - 1, q - 1, k);
      }
    }
  }

  /** An element missing from the first `n` elements occurs only at or after `n`. */
  lemma AfterPrefix<T>(s: seq<T>, n: nat, k: nat)
    requires n <= |s| && k < |s| && s[k] !in s[..n]
    ensures n <= k
  {
    forall j | 0 <= j < n ensures s[j] in s[..n] {
      assert s[..n][j] == s[j];
    }
  }

  lemma OrderAt<T>(r: seq<T>, s: seq<T>, p: int, q: int, k: int)
    requires InFirstOccurrenceOrder(r, s)
    requires 0 <= p < q < |r| && 0 <= k < |s| && s[k] == r[q]
    ensures r[p] in s[..k]
  {
  }

  /**
   * Deduplication is the insertion order of a `Set` built one element at a time: appending an
   * element appends it to the deduplicated sequence unless it is already there.
   */
  lemma DedupAppend<T>(s: seq<T>, x: T)
    ensures Dedup(s + [x]) == AddOrdered(Dedup(s), x)
  {
    KeepFirstAppend(s, x, 0);
  }

  lemma {:induction false} KeepFirstAppend<T>(s: seq<T>, x: T, i: nat)
    requires i <= |s|
    ensures KeepFirst(s + [x], i) == KeepFirst(s, i) + (if x in s then [] else [x])
    decreases |s| - i
  {
    var t := s + [x];
    if i == |s| {
      assert t[..i] == s;
      assert KeepFirst(t, i + 1) == [];
    } else {
      KeepFirstAppend(s, x, i + 1);
      assert t[i] == s[i] && t[..i] == s[..i];
    }
  }

  /** Removing repetitions from a sequence without any changes nothing. */
  lemma DedupDistinct<T>(s: seq<T>)
    requires Distinct(s)
    ensures Dedup(s) == s
  {
    KeepFirstAll(s, 0);
  }

  lemma {:induction false} KeepFirstAll<T>(s: seq<T>, i: nat)
    requires Distinct(s) && i <= |s|
    ensures KeepFirst(s, i) == s[i..]
    decreases |s| - i
  {
    if i < |s| {
      KeepFirstAll(s, i + 1);
      assert s[i] !in s[..i];
    }
  }

  lemma {:induction false} KeepFirstMembers<T>(s: seq<T>, i: nat)
    requires i <= |s|
    ensures forall x :: x in KeepFirst(s, i) ==> x in s[i..] && x !in s[..i]
    ensures forall x :: x in s[i..] && x !in s[..i] ==> x in KeepFirst(s, i)
    decreases |s| - i
  {
    if i < |s| {
      KeepFirstMembers(s, i + 1);
      assert s[..i + 1] == s[..i] + [s[i]];
      assert s[i..] == [s[i]] + s[i + 1..];
    }
  }

  lemma {:induction false} KeepFirstDistinct<T>(s: seq<T>, i: nat)
    requires i <= |s|
    ensures Distinct(KeepFirst(s, i))
    decreases |s| - i
  {
    if i < |s| {
      KeepFirstDistinct(s, i + 1);
      KeepFirstMembers(s, i + 1);
      assert s[..i + 1] == s[..i] + [s[i]];
      var rest := KeepFirst(s, i + 1);
      if s[i] !in s[..i] {
        assert s[i] !in rest;
        var r := [s[i]] + rest;
        assert r == KeepFirst(s, i);
        forall j, k | 0 <= j < k < |r| ensures r[j] != r[k] {
          if j > 0 {
            assert r[j] == rest[j - 1] && r[k] == rest[k - 1];
          } else {
            assert r[k] == rest[k - 1];
          }
        }
      } else {
        assert KeepFirst(s, i) == rest;
      }
    }
  }

  lemma {:induction false} KeepFirstSubseq<T>(s: seq<T>, i: nat)
    requires i <= |s|
    ensures IsSubseq(KeepFirst(s, i), s[i..])
    decreases |s| - i
  {
    if i < |s| {
      KeepFirstSubseq(s, i + 1);
      var rest := KeepFirst(s, i + 1);
      assert s[i..][1..] == s[i + 1..];
      if s[i] in s[..i] {
        assert KeepFirst(s, i) == rest;
        SubseqDropHead(rest, s[i..]);
      } else {
        var r := [s[i]] + rest;
        assert KeepFirst(s, i) == r;
        assert r[0] == s[i..][0] && r[1..] == rest;
      }
    }
  }

  /** Skipping the first element of `x` keeps a subsequence of `x[1..]` a subsequence of `x`. */
  lemma SubseqDropHead<T>(y: seq<T>, x: seq<T>)
    requires |x| > 0 && IsSubseq(y, x[1..])
    ensures IsSubseq(y, x)
  {
  }

  lemma {:induction false} SubseqRefl<T>(x: seq<T>)
    ensures IsSubseq(x, x)
    decreases |x|
  {
    if x != [] {
      SubseqRefl(x[1..]);
    }
  }

  lemma {:induction false} SubseqLength<T>(y: seq<T>, x: seq<T>)
    requires IsSubseq(y, x)
    ensures |y| <= |x|
    ensures |y| == |x| ==> y == x
    decreases |x|
  {
    if y != [] {
      if y[0] == x[0] && IsSubseq(y[1..], x[1..]) {
        SubseqLength(y[1..], x[1..]);
        if |y| == |x| {
          assert y == [y[0]] + y[1..] && x == [x[0]] + x[1..];
        }
      } else {
        SubseqLength(y, x[1..]);
      }
    }
  }

  lemma {:induction false} SubseqMembers<T>(y: seq<T>, x: seq<T>)
    requires IsSubseq(y, x)
    ensures forall z :: z in y ==> z in x
    decreases |x|
  {
    if y != [] {
      if y[0] == x[0] && IsSubseq(y[1..], x[1..]) {
        SubseqMembers(y[1..], x[1..]);
        assert y == [y[0]] + y[1..] && x == [x[0]] + x[1..];
      } else {
        SubseqMembers(y, x[1..]);
        assert x == [x[0]] + x[1..];
      }
    }
  }

  lemma {:induction false} SubseqTrans<T>(a: seq<T>, b: seq<T>, c: seq<T>)
    requires IsSubseq(a, b) && IsSubseq(b, c)
    ensures IsSubseq(a, c)
    decreases |c|
  {
    if a != [] {
      SubseqLength(a, b);
      SubseqLength(b, c);
      if b[0] == c[0] && IsSubseq(b[1..], c[1..]) {
        if a[0] == b[0] && IsSubseq(a[1..], b[1..]) {
          SubseqTrans(a[1..], b[1..], c[1..]);
        } else {
          SubseqTrans(a, b[1..], c[1..]);
        }
      } else {
        SubseqTrans(a, b, c[1..]);
      }
    }
  }

  /** The sequence without its element at position `i`: `arr.filter((_, j) => i !== j)`. */
  function Delete<T>(s: seq<T>, i: nat): (r: seq<T>)
    requires i < |s|
    ensures |r| == |s| - 1
    ensures IsSubseq(r, s)
  {
    DeleteSubseq(s, i);
    s[..i] + s[i + 1..]
  }

  lemma {:induction false} DeleteSubseq<T>(s: seq<T>, i: nat)
    requires i < |s|
    ensures IsSubseq(s[..i] + s[i + 1..], s)
    decreases i
  {
    if i == 0 {
      assert s[..0] + s[1..] == s[1..];
      SubseqRefl(s[1..]);
    } else {
      DeleteSubseq(s[1..], i - 1);
      assert s[1..][..i - 1] + s[1..][i..] == (s[..i] + s[i + 1..])[1..];
    }
  }

  /**
   * A proper subsequence of `x` is a subsequence of `x` with one element deleted:
   * single deletions reach every subsequence.
   */
  lemma {:induction false} SubseqDeleteStep<T>(y: seq<T>, x: seq<T>) returns (i: nat)
    requires IsSubseq(y, x) && |y| < |x|
    ensures i < |x| && IsSubseq(y, Delete(x, i))
    decreases |x|
  {
    if y == [] {
      i := 0;
    } else if y[0] == x[0] && IsSubseq(y[1..], x[1..]) {
      var j := SubseqDeleteStep(y[1..], x[1..]);
      i := j + 1;
      assert Delete(x, i) == [x[0]] + Delete(x[1..], j);
      assert Delete(x, i)[1..] == Delete(x[1..], j);
    } else {
      i := 0;
      assert Delete(x, 0) == x[1..];
    }
  }
}
