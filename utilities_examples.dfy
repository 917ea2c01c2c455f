/**
 * The behaviour the repository's own unit tests expect from `getCombinations` and
 * `combinationsWithout`, computed on the model.
 */
module UtilitiesExamples {
  import opened Common
  import opened Utilities

  // One-step unfoldings of the exploration, so that long concrete runs stay small.
  lemma Fresh<T>(arr: seq<T>, memo: seq<seq<T>>) requires arr !in memo ensures Explore(arr, memo) == ExploreFrom(arr, 0, memo + [arr]) {}
  lemma Seen<T>(arr: seq<T>, memo: seq<seq<T>>) requires arr in memo ensures Explore(arr, memo) == memo {}
  lemma Next<T>(arr: seq<T>, i: nat, memo: seq<seq<T>>) requires i < |arr| ensures ExploreFrom(arr, i, memo) == ExploreFrom(arr, i + 1, Explore(Delete(arr, i), memo)) {}
  lemma Done<T>(arr: seq<T>, memo: seq<seq<T>>) ensures ExploreFrom(arr, |arr|, memo) == memo {}

  lemma VectorFirst()
    ensures Explore([2, 3], [[1, 2, 3]]) == [[1, 2, 3], [2, 3], [3], [], [2]]
  {
    var e: seq<int> := [];
    var m1: seq<seq<int>> := [[1, 2, 3]];
    Fresh([2, 3], m1);
    var m2 := m1 + [[2, 3]];
    Next([2, 3], 0, m2);
    assert Delete([2, 3], 0) == [3];
    Fresh([3], m2);
    var m3 := m2 + [[3]];
    Next([3], 0, m3);
    assert Delete([3], 0) == e;
    Fresh(e, m3);
    var m4 := m3 + [e];
    Done(e, m4);
    Done([3], m4);
    Next([2, 3], 1, m4);
    assert Delete([2, 3], 1) == [2];
    Fresh([2], m4);
    var m5 := m4 + [[2]];
    Next([2], 0, m5);
    assert Delete([2], 0) == e;
    Seen(e, m5);
    Done([2], m5);
    Done([2, 3], m5);
  }

  lemma VectorSecond()
    ensures Explore([1, 3], [[1, 2, 3], [2, 3], [3], [], [2]]) == [[1, 2, 3], [2, 3], [3], [], [2], [1, 3], [1]]
  {
    var e: seq<int> := [];
    var m5: seq<seq<int>> := [[1, 2, 3], [2, 3], [3], [], [2]];
    Fresh([1, 3], m5);
    var m6 := m5 + [[1, 3]];
    Next([1, 3], 0, m6);
    assert Delete([1, 3], 0) == [3];
    Seen([3], m6);
    Next([1, 3], 1, m6);
    assert Delete([1, 3], 1) == [1];
    Fresh([1], m6);
    var m7 := m6 + [[1]];
    Next([1], 0, m7);
    assert Delete([1], 0) == e;
    Seen(e, m7);
    Done([1], m7);
    Done([1, 3], m7);
  }

  lemma VectorThird()
    ensures Explore([1, 2], [[1, 2, 3], [2, 3], [3], [], [2], [1, 3], [1]]) == [[1, 2, 3], [2, 3], [3], [], [2], [1, 3], [1], [1, 2]]
  {
    var m7: seq<seq<int>> := [[1, 2, 3], [2, 3], [3], [], [2], [1, 3], [1]];
    Fresh([1, 2], m7);
    var m8 := m7 + [[1, 2]];
    Next([1, 2], 0, m8);
    assert Delete([1, 2], 0) == [2];
    Seen([2], m8);
    Next([1, 2], 1, m8);
    assert Delete([1, 2], 1) == [1];
    Seen([1], m8);
    Done([1, 2], m8);
  }

  /** `getCombinations([1, 2, 3])` lists the subsequences in the order of the depth-first walk. */
  lemma CombinationsOfThree(a: seq<int>)
    requires a == [1, 2, 3]
    ensures Combinations(a) == [[1, 2, 3], [2, 3], [3], [], [2], [1, 3], [1], [1, 2]]
  {
    var m0: seq<seq<int>> := [];
    var m5: seq<seq<int>> := [[1, 2, 3], [2, 3], [3], [], [2]];
    var m7: seq<seq<int>> := [[1, 2, 3], [2, 3], [3], [], [2], [1, 3], [1]];
    var m8: seq<seq<int>> := [[1, 2, 3], [2, 3], [3], [], [2], [1, 3], [1], [1, 2]];
    assert Combinations(a) == Explore(a, m0);
    Fresh(a, m0);
    assert m0 + [a] == [[1, 2, 3]];
    Next(a, 0, [[1, 2, 3]]);
    assert Delete(a, 0) == [2, 3];
    VectorFirst();
    assert ExploreFrom(a, 0, [[1, 2, 3]]) == ExploreFrom(a, 1, m5);
    Next(a, 1, m5);
    assert Delete(a, 1) == [1, 3];
    VectorSecond();
    assert ExploreFrom(a, 1, m5) == ExploreFrom(a, 2, m7);
    Next(a, 2, m7);
    assert Delete(a, 2) == [1, 2];
    VectorThird();
    assert ExploreFrom(a, 2, m7) == ExploreFrom(a, 3, m8);
    Done(a, m8);
  }

  lemma PairFirst<T>(p: T, q: T)
    requires p != q
    ensures Explore([q], [[p, q]]) == [[p, q], [q], []]
  {
    var e: seq<T> := [];
    var m1: seq<seq<T>> := [[p, q]];
    var m2: seq<seq<T>> := [[p, q], [q]];
    var m3: seq<seq<T>> := [[p, q], [q], []];
    Fresh([q], m1);
    assert m1 + [[q]] == m2;
    Next([q], 0, m2);
    assert Delete([q], 0) == e;
    Fresh(e, m2);
    assert m2 + [e] == m3;
    Done(e, m3);
    Done([q], m3);
  }

  lemma PairSecond<T>(p: T, q: T)
    requires p != q
    ensures Explore([p], [[p, q], [q], []]) == [[p, q], [q], [], [p]]
  {
    var e: seq<T> := [];
    var m3: seq<seq<T>> := [[p, q], [q], []];
    var m4: seq<seq<T>> := [[p, q], [q], [], [p]];
    Fresh([p], m3);
    assert m3 + [[p]] == m4;
    Next([p], 0, m4);
    assert Delete([p], 0) == e;
    Seen(e, m4);
    Done([p], m4);
  }

  lemma PairCombinations<T>(p: T, q: T)
    requires p != q
    ensures Combinations([p, q]) == [[p, q], [q], [], [p]]
  {
    var m0: seq<seq<T>> := [];
    var m1: seq<seq<T>> := [[p, q]];
    var m3: seq<seq<T>> := [[p, q], [q], []];
    var m4: seq<seq<T>> := [[p, q], [q], [], [p]];
    assert Combinations([p, q]) == Explore([p, q], m0);
    Fresh([p, q], m0);
    assert m0 + [[p, q]] == m1;
    Next([p, q], 0, m1);
    assert Delete([p, q], 0) == [q];
    PairFirst(p, q);
    Next([p, q], 1, m3);
    assert Delete([p, q], 1) == [p];
    PairSecond(p, q);
    Done([p, q], m4);
  }

  lemma ChoicesOfABCB(arr: seq<string>)
    requires arr == ["a", "b", "c", "b"]
    ensures Combinations(Positions(arr, "b", 0)) == [[1, 3], [3], [], [1]]
  {
    assert Positions(["a", "b", "c", "b"], "b", 0) == [1, 3];
    PairCombinations(1, 3);
  }

  /** Four variants, given what each index set leaves. */
  lemma VariantsOfFour<T>(arr: seq<T>, c0: seq<nat>, c1: seq<nat>, c2: seq<nat>, c3: seq<nat>,
                          v0: seq<T>, v1: seq<T>, v2: seq<T>, v3: seq<T>)
    requires Omit(arr, c0, 0) == v0 && Omit(arr, c1, 0) == v1 && Omit(arr, c2, 0) == v2 && Omit(arr, c3, 0) == v3
    ensures Variants(arr, [c0, c1, c2, c3]) == [v0, v1, v2, v3]
  {
    var ws := Variants(arr, [c0, c1, c2, c3]);
    assert ws[0] == v0 && ws[1] == v1 && ws[2] == v2 && ws[3] == v3;
  }

  lemma VariantsOfABCB(arr: seq<string>, choices: seq<seq<nat>>)
    requires arr == ["a", "b", "c", "b"] && choices == [[1, 3], [3], [], [1]]
    ensures Variants(arr, choices) == [["a", "c"], ["a", "b", "c"], ["a", "b", "c", "b"], ["a", "c", "b"]]
  {
    OmitsOfABCB0(); OmitsOfABCB1(); OmitsOfABCB2(); OmitsOfABCB3();
    VariantsOfFour(arr, [1, 3], [3], [], [1], ["a", "c"], ["a", "b", "c"], ["a", "b", "c", "b"], ["a", "c", "b"]);
  }

  /** `combinationsWithout("b")(["a", "b", "c", "b"])`, in the order the exploration finds the index sets. */
  lemma WithoutB(arr: seq<string>)
    requires arr == ["a", "b", "c", "b"]
    ensures CombinationsWithout("b", arr) == [["a", "c"], ["a", "b", "c"], ["a", "b", "c", "b"], ["a", "c", "b"]]
  {
    var choices: seq<seq<nat>> := [[1, 3], [3], [], [1]];
    var vs: seq<seq<string>> := [["a", "c"], ["a", "b", "c"], ["a", "b", "c", "b"], ["a", "c", "b"]];
    ChoicesOfABCB(arr);
    VariantsOfABCB(arr, choices);
    DistinctWithoutB();
    DedupDistinct(vs);
    WithoutSteps("b", arr, choices, vs, vs);
  }

  lemma WithoutSteps<T>(e: T, arr: seq<T>, choices: seq<seq<nat>>, vs: seq<seq<T>>, r: seq<seq<T>>)
    requires Combinations(Positions(arr, e, 0)) == choices
    requires Variants(arr, choices) == vs && Dedup(vs) == r
    ensures CombinationsWithout(e, arr) == r
  {
  }

  lemma SingleCombinations<T>(p: T)
    ensures Combinations([p]) == [[p], []]
  {
    var e: seq<T> := [];
    var m0: seq<seq<T>> := [];
    var m1: seq<seq<T>> := [[p]];
    var m2: seq<seq<T>> := [[p], []];
    assert Combinations([p]) == Explore([p], m0);
    Fresh([p], m0);
    assert m0 + [[p]] == m1;
    Next([p], 0, m1);
    assert Delete([p], 0) == e;
    Fresh(e, m1);
    assert m1 + [e] == m2;
    Done(e, m2);
    Done([p], m2);
  }

  lemma OmitsOfABCB0()
    ensures Omit(["a", "b", "c", "b"], [1, 3], 0) == ["a", "c"]
  {
  }

  lemma OmitsOfABCB1()
    ensures Omit(["a", "b", "c", "b"], [3], 0) == ["a", "b", "c"]
  {
  }

  lemma OmitsOfABCB2()
    ensures Omit(["a", "b", "c", "b"], [1], 0) == ["a", "c", "b"]
  {
  }

  lemma OmitsOfABCB3()
    ensures Omit(["a", "b", "c", "b"], [], 0) == ["a", "b", "c", "b"]
  {
  }

  lemma DistinctWithoutB()
    ensures Distinct([["a", "c"], ["a", "b", "c"], ["a", "b", "c", "b"], ["a", "c", "b"]])
  {
  }

  /** `combinationsWithout("A")(["b", "A"])` is `[["b"], ["b", "A"]]`. */
  lemma WithoutA(arr: seq<string>)
    requires arr == ["b", "A"]
    ensures CombinationsWithout("A", arr) == [["b"], ["b", "A"]]
  {
    var choices: seq<seq<nat>> := [[1], []];
    var expected: seq<seq<string>> := [["b"], ["b", "A"]];
    assert Combinations(Positions(arr, "A", 0)) == choices by {
      assert Positions(["b", "A"], "A", 0) == [1];
      SingleCombinations(1);
    }
    assert Variants(arr, choices) == expected by {
      var vs := Variants(arr, choices);
      assert Omit(["b", "A"], [1], 0) == ["b"];
      assert Omit(["b", "A"], [], 0) == ["b", "A"];
      assert |vs| == 2 && vs[0] == expected[0] && vs[1] == expected[1];
    }
    assert Dedup(expected) == expected by {
      DedupDistinct(expected);
    }
  }

  lemma OmitsOfABBC0()
    ensures Omit(["a", "b", "b", "c"], [1, 2], 0) == ["a", "c"]
  {
  }

  lemma OmitsOfABBC1()
    ensures Omit(["a", "b", "b", "c"], [2], 0) == ["a", "b", "c"]
  {
  }

  lemma OmitsOfABBC2()
    ensures Omit(["a", "b", "b", "c"], [1], 0) == ["a", "b", "c"]
  {
  }

  lemma OmitsOfABBC3()
    ensures Omit(["a", "b", "b", "c"], [], 0) == ["a", "b", "b", "c"]
  {
  }

  /** The duplicate produced by dropping either `"b"` is removed, keeping the first. */
  lemma DedupWithoutBB(vs: seq<seq<string>>)
    requires vs == [["a", "c"], ["a", "b", "c"], ["a", "b", "b", "c"], ["a", "b", "c"]]
    ensures Dedup(vs) == [["a", "c"], ["a", "b", "c"], ["a", "b", "b", "c"]]
  {
    assert vs[..0] == [] && vs[..1] == [vs[0]] && vs[..2] == [vs[0], vs[1]];
    assert vs[..3] == [vs[0], vs[1], vs[2]];
    assert vs[0] != vs[1] && vs[2] != vs[0] && vs[2] != vs[1];
    assert KeepFirst(vs, 4) == [];
    assert KeepFirst(vs, 3) == [];
    assert KeepFirst(vs, 2) == [vs[2]];
    assert KeepFirst(vs, 1) == [vs[1], vs[2]];
    assert KeepFirst(vs, 0) == [vs[0], vs[1], vs[2]];
  }

  lemma ChoicesOfABBC(arr: seq<string>)
    requires arr == ["a", "b", "b", "c"]
    ensures Combinations(Positions(arr, "b", 0)) == [[1, 2], [2], [], [1]]
  {
    assert Positions(["a", "b", "b", "c"], "b", 0) == [1, 2];
    PairCombinations(1, 2);
  }

  lemma VariantsOfABBC(arr: seq<string>, choices: seq<seq<nat>>)
    requires arr == ["a", "b", "b", "c"] && choices == [[1, 2], [2], [], [1]]
    ensures Variants(arr, choices) == [["a", "c"], ["a", "b", "c"], ["a", "b", "b", "c"], ["a", "b", "c"]]
  {
    OmitsOfABBC0(); OmitsOfABBC1(); OmitsOfABBC2(); OmitsOfABBC3();
    VariantsOfFour(arr, [1, 2], [2], [], [1], ["a", "c"], ["a", "b", "c"], ["a", "b", "b", "c"], ["a", "b", "c"]);
  }

  /** `combinationsWithout("b")(["a", "b", "b", "c"])` lists `["a", "b", "c"]` once. */
  lemma WithoutRepeatedB(arr: seq<string>)
    requires arr == ["a", "b", "b", "c"]
    ensures CombinationsWithout("b", arr) == [["a", "c"], ["a", "b", "c"], ["a", "b", "b", "c"]]
  {
    var choices: seq<seq<nat>> := [[1, 2], [2], [], [1]];
    var vs: seq<seq<string>> := [["a", "c"], ["a", "b", "c"], ["a", "b", "b", "c"], ["a", "b", "c"]];
    ChoicesOfABBC(arr);
    VariantsOfABBC(arr, choices);
    DedupWithoutBB(vs);
    WithoutSteps("b", arr, choices, vs, [["a", "c"], ["a", "b", "c"], ["a", "b", "b", "c"]]);
  }
}
