/**
 * Classification and start-symbol examples from the repository's tests, with small grammars at
 * the boundaries of the classes.
 */
module GrammarsExamples {
  import opened Grammars

  /** The variant-2 grammar of the lab 4 tests. */
  const V2: Grammar := Grammar("S", [
      Production(["S"], ["a", "B"]),
      Production(["S"], ["b", "A"]),
      Production(["A"], ["B"]),
      Production(["A"], ["b"]),
      Production(["A"], ["a", "D"]),
      Production(["A"], ["A", "S"]),
      Production(["A"], ["b", "A", "A", "B"]),
      Production(["A"], []),
      Production(["B"], ["b"]),
      Production(["B"], ["b", "S"]),
      Production(["C"], ["A", "B"]),
      Production(["D"], ["B", "B"])
    ], ["S", "A", "B", "C", "D"], ["a", "b"])

  /** `A -> A S` breaks both linearity directions, so the grammar is only context-free. */
  lemma V2IsContextFree()
    ensures GetClassification(V2) == ContextFree
  {
    V2NotRegular();
    V2LeftSides();
  }

  /**
   * A nonterminal before the last symbol of one right side rules out the right-linear form, and
   * one after the first symbol of another rules out the left-linear form.
   */
  lemma NotRegularAt(g: Grammar, p: Production, q: Production, x: string, y: string)
    requires p in g.productions && q in g.productions
    requires x in DropLast(p.to) && x !in g.terminal
    requires y in Tail(q.to) && y !in g.terminal
    ensures !IsRegular(g)
  {
  }

  lemma V2NotRegular()
    ensures !IsRegular(V2)
  {
    var p := V2.productions[5];
    assert p == Production(["A"], ["A", "S"]);
    assert DropLast(p.to) == ["A"] && Tail(p.to) == ["S"];
    NotRegularAt(V2, p, p, "A", "S");
  }

  lemma V2LeftSides()
    ensures IsContextFree(V2)
  {
    var ps := V2.productions;
    forall p | p in ps
      ensures |p.from| == 1 && AllIn(p.from, V2.nonTerminal)
    {
      var i :| 0 <= i < |ps| && ps[i] == p;
      assert ps[i].from in [["S"], ["A"], ["B"], ["C"], ["D"]];
    }
  }

  /** The start `S` occurs on right sides, so the pass changes the grammar; as written it adds `S -> S`. */
  lemma V2WithoutRighthandStart()
    ensures WithoutRighthandStartAsWritten(V2) != V2
    ensures WithoutRighthandStartAsWritten(V2).start == "S'"
    ensures WithoutRighthandStartAsWritten(V2).productions[12] == Production(["S"], ["S"])
    ensures WithoutRighthandStart(V2).productions[12] == Production(["S'"], ["S"])
  {
    assert V2.productions[5] in V2.productions && "S" in V2.productions[5].to;
  }

  /** A grammar whose start occurs on no right side is returned unchanged. */
  lemma StartOnlyOnTheLeft(g: Grammar)
    requires g == Grammar("S", [
      Production(["S"], ["a", "B"]),
      Production(["S"], ["b", "A"]),
      Production(["A"], ["a"])
    ], ["S", "A", "B"], ["a", "b"])
    ensures WithoutRighthandStartAsWritten(g) == g
  {
    assert !HasRighthandStart(g);
  }

  /** Right-linear productions only: regular. */
  lemma RightLinearIsRegular(g: Grammar)
    requires g == Grammar("S", [Production(["S"], ["a", "A"]), Production(["A"], ["b"])], ["S", "A"], ["a", "b"])
    ensures GetClassification(g) == Regular
  {
    assert IsRegularLeftToRight(g);
  }

  /** A terminal between two nonterminals breaks both directions. */
  lemma TerminalInTheMiddleIsNotRegular(g: Grammar)
    requires g == Grammar("S", [Production(["S"], ["A", "a", "B"])], ["S", "A", "B"], ["a"])
    ensures GetClassification(g) == ContextFree
  {
    var p := g.productions[0];
    assert DropLast(p.to) == ["A", "a"];
    assert "A" in DropLast(p.to) && "A" !in g.terminal;
    assert "B" in Tail(p.to) && "B" !in g.terminal;
  }

  /** One right-linear and one left-linear production: each direction fails on one of them. */
  lemma MixedDirectionsIsNotRegular(g: Grammar)
    requires g == Grammar("S", [Production(["S"], ["a", "A"]), Production(["A"], ["B", "b"])], ["S", "A", "B"], ["a", "b"])
    ensures GetClassification(g) == ContextFree
  {
    assert DropLast(g.productions[1].to) == ["B"] && Tail(g.productions[0].to) == ["A"];
    NotRegularAt(g, g.productions[1], g.productions[0], "B", "A");
  }

  /** A terminal on a left side fails every test. */
  lemma TerminalOnTheLeftIsRecursive(g: Grammar)
    requires g == Grammar("S", [Production(["S"], ["a", "A"]), Production(["a", "A"], ["a", "b"])], ["S", "A"], ["a", "b"])
    ensures GetClassification(g) == Recursive
  {
    assert "a" in LeftSides(g.productions);
  }

  /** Left sides of two nonterminals: context-sensitive but not context-free. */
  lemma TwoNonterminalsOnTheLeft(g: Grammar)
    requires g == Grammar("S", [Production(["S"], ["A", "B"]), Production(["A", "B"], ["B", "A"])], ["S", "A", "B"], ["a"])
    ensures GetClassification(g) == ContextSensitive
  {
    ContextSensitiveCharacterization(g);
    assert |g.productions[1].from| != 1;
  }
}
