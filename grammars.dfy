/**
 * Grammars whose left-hand sides are sequences of symbols, their place in the Chomsky hierarchy,
 * and the pass that moves the start symbol off the right-hand sides.
 */
module Grammars {

  datatype Production = Production(from: seq<string>, to: seq<string>)

  datatype Grammar = Grammar(start: string, productions: seq<Production>, nonTerminal: seq<string>, terminal: seq<string>)

  datatype Classification = Regular | ContextFree | ContextSensitive | Recursive

  /** A copy built from fresh productions and fresh symbol lists; as a value it equals the original. */
  function Clone(g: Grammar): (r: Grammar)
    ensures r == g
  {
    var ps := seq(|g.productions|, i requires 0 <= i < |g.productions| =>
      Production(g.productions[i].from, g.productions[i].to));
    assert ps == g.productions;
    Grammar(g.start, ps, g.nonTerminal[..], g.terminal[..])
  }

  // ---------------------------------------------------------------------------
  // Classification
  // ---------------------------------------------------------------------------

  /** `to.slice(0, -1)`: everything but the last symbol. */
  function DropLast(s: seq<string>): seq<string> {
    if |s| == 0 then [] else s[..|s| - 1]
  }

  /** `to.slice(1)`: everything but the first symbol. */
  function Tail(s: seq<string>): seq<string> {
    if |s| == 0 then [] else s[1..]
  }

  /** Every symbol of `ws` occurs in `vocabulary`. */
  predicate AllIn(ws: seq<string>, vocabulary: seq<string>) {
    forall w :: w in ws ==> w in vocabulary
  }

  /** The left side is one nonterminal. */
  predicate FromNonTerminal(p: Production, nonTerminal: seq<string>) {
    |p.from| == 1 && p.from[0] in nonTerminal
  }

  predicate IsRegularLeftToRight(g: Grammar) {
    forall p :: p in g.productions ==>
      FromNonTerminal(p, g.nonTerminal) && AllIn(DropLast(p.to), g.terminal)
  }

  predicate IsRegularRightToLeft(g: Grammar) {
    forall p :: p in g.productions ==>
      FromNonTerminal(p, g.nonTerminal) && AllIn(Tail(p.to), g.terminal)
  }

  /** One linearity direction for the whole grammar. */
  predicate IsRegular(g: Grammar) {
    IsRegularLeftToRight(g) || IsRegularRightToLeft(g)
  }

  predicate IsContextFree(g: Grammar) {
    forall p :: p in g.productions ==> |p.from| == 1 && AllIn(p.from, g.nonTerminal)
  }

  /** `productions.flatMap(({ from }) => from)`. */
  function LeftSides(ps: seq<Production>): seq<string> {
    if ps == [] then [] else ps[0].from + LeftSides(ps[1..])
  }

  predicate IsContextSensitive(g: Grammar) {
    forall w :: w in LeftSides(g.productions) ==> w in g.nonTerminal
  }

  /**
   * The first class, in the order regular, context-free, context-sensitive, whose test the
   * grammar passes, else recursive. The reported class's test and every weaker one hold, and
   * every stronger one fails.
   */
  function GetClassification(g: Grammar): (r: Classification)
    ensures r == Regular <==> IsRegular(g)
    ensures r == Regular ==> IsContextFree(g) && IsContextSensitive(g)
    ensures r == ContextFree ==> !IsRegular(g) && IsContextFree(g) && IsContextSensitive(g)
    ensures r == ContextSensitive ==> !IsRegular(g) && !IsContextFree(g) && IsContextSensitive(g)
    ensures r == Recursive ==> !IsRegular(g) && !IsContextFree(g) && !IsContextSensitive(g)
  {
    RegularIsContextFree(g);
    ContextFreeIsContextSensitive(g);
    if IsRegular(g) then Regular
    else if IsContextFree(g) then ContextFree
    else if IsContextSensitive(g) then ContextSensitive
    else Recursive
  }

  /** Right-linear form stated by positions: every symbol but the last is a terminal. */
  ghost predicate RightLinear(g: Grammar) {
    forall p, i :: p in g.productions && 0 <= i < |p.to| - 1 ==> p.to[i] in g.terminal
  }

  /** Left-linear form stated by positions: every symbol but the first is a terminal. */
  ghost predicate LeftLinear(g: Grammar) {
    forall p, i :: p in g.productions && 1 <= i < |p.to| ==> p.to[i] in g.terminal
  }

  lemma RegularCharacterization(g: Grammar)
    ensures IsRegular(g) <==>
      (forall p :: p in g.productions ==> |p.from| == 1 && p.from[0] in g.nonTerminal) &&
      (RightLinear(g) || LeftLinear(g))
  {
    forall p | p in g.productions
      ensures AllIn(DropLast(p.to), g.terminal) <==> forall i :: 0 <= i < |p.to| - 1 ==> p.to[i] in g.terminal
      ensures AllIn(Tail(p.to), g.terminal) <==> forall i :: 1 <= i < |p.to| ==> p.to[i] in g.terminal
    {
      if |p.to| > 0 {
        assert forall i :: 0 <= i < |p.to| - 1 ==> DropLast(p.to)[i] == p.to[i];
        assert forall i :: 1 <= i < |p.to| ==> Tail(p.to)[i - 1] == p.to[i];
      }
    }
  }

  lemma {:induction false} LeftSidesMembers(ps: seq<Production>, w: string)
    ensures w in LeftSides(ps) <==> exists p :: p in ps && w in p.from
  {
    if ps != [] {
      LeftSidesMembers(ps[1..], w);
      assert forall p :: p in ps ==> p == ps[0] || p in ps[1..];
    }
  }

  /** The context-sensitive test reads every left-hand symbol of every production. */
  lemma ContextSensitiveCharacterization(g: Grammar)
    ensures IsContextSensitive(g) <==>
      forall p, w :: p in g.productions && w in p.from ==> w in g.nonTerminal
  {
    forall w {
      LeftSidesMembers(g.productions, w);
    }
  }

  lemma RegularIsContextFree(g: Grammar)
    ensures IsRegular(g) ==> IsContextFree(g)
  {
  }

  lemma ContextFreeIsContextSensitive(g: Grammar)
    ensures IsContextFree(g) ==> IsContextSensitive(g)
  {
    ContextSensitiveCharacterization(g);
  }

  // ---------------------------------------------------------------------------
  // withoutRighthandStart
  // ---------------------------------------------------------------------------

  /** The fresh start symbol `${start}'`. */
  function Primed(s: string): string {
    s + "'"
  }

  predicate HasRighthandStart(g: Grammar) {
    exists p :: p in g.productions && g.start in p.to
  }

  /**
   * `withoutRighthandStart` as written: when the start occurs on a right side, the new start is
   * `start'`, but the appended production is `start -> start` rather than `start' -> start`.
   */
  function WithoutRighthandStartAsWritten(g: Grammar): Grammar {
    if HasRighthandStart(g) then
      Grammar(Primed(g.start), g.productions + [Production([g.start], [g.start])],
        g.nonTerminal + [Primed(g.start)], g.terminal)
    else Clone(g)
  }

  /** The pass with the evidently intended production `start' -> start`. */
  function WithoutRighthandStart(g: Grammar): Grammar {
    if HasRighthandStart(g) then
      Grammar(Primed(g.start), g.productions + [Production([Primed(g.start)], [g.start])],
        g.nonTerminal + [Primed(g.start)], g.terminal)
    else Clone(g)
  }

  /** `start'` is a new symbol: no production reads or writes it. */
  predicate PrimedIsFresh(g: Grammar) {
    forall p :: p in g.productions ==> Primed(g.start) !in p.to && Primed(g.start) !in p.from
  }

  /** Both versions leave a grammar whose start is on no right side unchanged. */
  lemma WithoutRighthandStartUnchanged(g: Grammar)
    requires !HasRighthandStart(g)
    ensures WithoutRighthandStartAsWritten(g) == g
    ensures WithoutRighthandStart(g) == g
  {
  }

  /**
   * As written, the new start symbol has no production at all, so the grammar it heads
   * derives nothing; the added production only rewrites the old start into itself.
   */
  lemma AsWrittenStartHasNoProduction(g: Grammar)
    requires HasRighthandStart(g) && PrimedIsFresh(g)
    ensures var r := WithoutRighthandStartAsWritten(g);
      r.start == Primed(g.start) &&
      r.productions == g.productions + [Production([g.start], [g.start])] &&
      forall p :: p in r.productions ==> r.start !in p.from
  {
    var r := WithoutRighthandStartAsWritten(g);
    forall p | p in r.productions
      ensures r.start !in p.from
    {
      if p !in g.productions {
        assert p == Production([g.start], [g.start]);
        assert |Primed(g.start)| != |g.start|;
      }
    }
  }

  /**
   * The corrected pass: the new start occurs on no right side, it has exactly the one
   * production `start' -> start`, the old productions are kept in order, and the symbol lists
   * grow only by the new start.
   */
  lemma WithoutRighthandStartMovesStart(g: Grammar)
    requires HasRighthandStart(g) && PrimedIsFresh(g)
    ensures var r := WithoutRighthandStart(g);
      !HasRighthandStart(r) &&
      r.productions[..|g.productions|] == g.productions &&
      (forall p :: p in r.productions && p.from == [r.start] ==> p.to == [g.start]) &&
      Production([r.start], [g.start]) in r.productions &&
      r.nonTerminal == g.nonTerminal + [r.start] && r.terminal == g.terminal
  {
    var r := WithoutRighthandStart(g);
    assert |Primed(g.start)| != |g.start|;
    forall p | p in r.productions
      ensures r.start !in p.to
      ensures p.from == [r.start] ==> p.to == [g.start]
    {
      if p in g.productions {
        assert r.start in p.from ==> false;
        assert p.from == [r.start] ==> r.start in p.from;
      }
    }
  }

  /** Applying the corrected pass a second time changes nothing. */
  lemma WithoutRighthandStartIdempotent(g: Grammar)
    requires PrimedIsFresh(g)
    ensures WithoutRighthandStart(WithoutRighthandStart(g)) == WithoutRighthandStart(g)
  {
    if HasRighthandStart(g) {
      WithoutRighthandStartMovesStart(g);
    }
  }

  /** The corrected pass keeps a context-free grammar context-free. */
  lemma WithoutRighthandStartKeepsContextFree(g: Grammar)
    requires IsContextFree(g)
    ensures IsContextFree(WithoutRighthandStart(g))
  {
  }
}
