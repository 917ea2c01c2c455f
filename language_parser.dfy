/**
 * The recognizer for right-linear grammars: it reads the input one symbol at a time, follows the
 * first production of the current symbol whose right side starts with the next input symbol, and
 * continues from that right side's last symbol, never backtracking.
 */
module LanguageParser {
  import opened Common
  import opened Vocabulary

  /** A symbol sequence and the position of the next symbol to read. */
  datatype Input<V> = Input(input: seq<V>, index: nat)

  /** `createInput(input)`: reading starts at the first symbol. */
  function CreateInput<V>(input: seq<V>): Input<V> {
    Input(input, 0)
  }

  /** `s[i]` in JavaScript: missing (`undefined`) past the end. */
  function At<V>(s: seq<V>, i: nat): (r: Option<V>)
    ensures r.Some? <==> i < |s|
    ensures r.Some? ==> r.value == s[i]
  {
    if i < |s| then Some(s[i]) else None
  }

  /** `terminal.includes(c)`, where a missing `c` is never included. */
  predicate Includes<V(==)>(vocabulary: seq<V>, c: Option<V>) {
    c.Some? && c.value in vocabulary
  }

  /** `productions.some(p => p.from === state && p.to[0] === c)`, comparing possibly missing symbols. */
  predicate SomeStartsWith<V(==)>(ps: seq<Production<V>>, state: V, c: Option<V>) {
    exists p :: p in ps && p.from == state && At(p.to, 0) == c
  }

  /** Production `p` can consume `symbol` from `state`. */
  predicate Matches<V(==)>(p: Production<V>, state: V, symbol: V) {
    p.from == state && |p.to| > 0 && p.to[0] == symbol
  }

  /** The state after following `p`: the last symbol of its right side. */
  function Next<V>(p: Production<V>): V
    requires |p.to| > 0
  {
    p.to[|p.to| - 1]
  }

  /**
   * `productions.filter(p => p.from === state).find(p => p.to[0] === symbol)`: the first
   * production in list order that can consume `symbol` from `state`, if any.
   */
  function FirstMatch<V(==)>(ps: seq<Production<V>>, state: V, symbol: V): (r: Option<Production<V>>)
    ensures r.Some? ==> Matches(r.value, state, symbol)
  {
    if ps == [] then None
    else if Matches(ps[0], state, symbol) then Some(ps[0])
    else FirstMatch(ps[1..], state, symbol)
  }

  /**
   * The production found is the earliest in list order that can consume `symbol` from `state`,
   * and none is found only when no production can.
   */
  lemma {:induction false} FirstMatchIsFirst<V>(ps: seq<Production<V>>, state: V, symbol: V)
    ensures FirstMatch(ps, state, symbol).Some? ==>
      exists i :: 0 <= i < |ps| && ps[i] == FirstMatch(ps, state, symbol).value &&
        forall j :: 0 <= j < i ==> !Matches(ps[j], state, symbol)
    ensures FirstMatch(ps, state, symbol).None? ==> forall p :: p in ps ==> !Matches(p, state, symbol)
  {
    if ps != [] && !Matches(ps[0], state, symbol) {
      FirstMatchIsFirst(ps[1..], state, symbol);
      var r := FirstMatch(ps, state, symbol);
      if r.Some? {
        var i :| 0 <= i < |ps[1..]| && ps[1..][i] == r.value &&
          forall j :: 0 <= j < i ==> !Matches(ps[1..][j], state, symbol);
        assert ps[i + 1] == r.value;
        assert forall j :: 0 <= j < i + 1 ==> !Matches(ps[j], state, symbol) by {
          forall j | 0 <= j < i + 1 ensures !Matches(ps[j], state, symbol) {
            if j > 0 {
              assert ps[j] == ps[1..][j - 1];
            }
          }
        }
      } else {
        assert forall p :: p in ps ==> p == ps[0] || p in ps[1..];
      }
    }
  }

  /**
   * `isValid` as written. At the end of the input it looks up `input[index]`, which is past the
   * end, so the terminal test on that missing symbol always fails.
   */
  function IsValidAsWritten<V(==)>(g: Grammar<V>, inp: Input<V>, state: V): bool
    requires inp.index <= |inp.input|
    decreases |inp.input| - inp.index
  {
    if inp.index == |inp.input| then
      var c := At(inp.input, inp.index);
      Includes(g.terminal, c) && SomeStartsWith(g.productions, state, c)
    else
      match FirstMatch(g.productions, state, inp.input[inp.index])
      case None => false
      case Some(p) => IsValidAsWritten(g, Input(inp.input, inp.index + 1), Next(p))
  }

  /** As written, no input is accepted from any state. */
  lemma {:induction false} AsWrittenRejectsEverything<V>(g: Grammar<V>, inp: Input<V>, state: V)
    requires inp.index <= |inp.input|
    ensures !IsValidAsWritten(g, inp, state)
    decreases |inp.input| - inp.index
  {
    if inp.index < |inp.input| {
      var m := FirstMatch(g.productions, state, inp.input[inp.index]);
      if m.Some? {
        AsWrittenRejectsEverything(g, Input(inp.input, inp.index + 1), Next(m.value));
      }
    }
  }

  /**
   * The recognizer with the evidently intended end-of-input test: the input is accepted when the
   * state reached after reading it is a terminal, that is, when the last production followed
   * ended in a terminal.
   */
  function IsValid<V(==)>(g: Grammar<V>, inp: Input<V>, state: V): bool
    requires inp.index <= |inp.input|
    decreases |inp.input| - inp.index
  {
    if inp.index == |inp.input| then state in g.terminal
    else
      match FirstMatch(g.productions, state, inp.input[inp.index])
      case None => false
      case Some(p) => IsValid(g, Input(inp.input, inp.index + 1), Next(p))
  }

  /** `parser.isValid(createInput(w))`: validation starts from the grammar's start symbol. */
  function Validate<V(==)>(g: Grammar<V>, w: seq<V>): bool {
    IsValid(g, CreateInput(w), g.start)
  }

  /**
   * Reference semantics: some walk through the productions reads `w` from `state` and ends
   * on a terminal, whichever matching production each step takes.
   */
  ghost predicate Reaches<V(!new)>(g: Grammar<V>, state: V, w: seq<V>)
    decreases |w|
  {
    if w == [] then state in g.terminal
    else exists p :: p in g.productions && Matches(p, state, w[0]) && Reaches(g, Next(p), w[1..])
  }

  /** Any two productions that can consume the same symbol from the same state lead to the same state. */
  ghost predicate NextIsUnique<V(!new)>(g: Grammar<V>) {
    forall p, q, s, a :: p in g.productions && q in g.productions && Matches(p, s, a) && Matches(q, s, a) ==>
      Next(p) == Next(q)
  }

  /** What the recognizer accepts is read by a walk of the grammar. */
  lemma {:induction false} IsValidSound<V(!new)>(g: Grammar<V>, inp: Input<V>, state: V)
    requires inp.index <= |inp.input|
    requires IsValid(g, inp, state)
    ensures Reaches(g, state, inp.input[inp.index..])
    decreases |inp.input| - inp.index
  {
    if inp.index < |inp.input| {
      FirstMatchIsFirst(g.productions, state, inp.input[inp.index]);
      var p := FirstMatch(g.productions, state, inp.input[inp.index]).value;
      var i :| 0 <= i < |g.productions| && g.productions[i] == p;
      IsValidSound(g, Input(inp.input, inp.index + 1), Next(p));
      assert inp.input[inp.index..][1..] == inp.input[inp.index + 1..];
    }
  }

  /** When matching productions agree on the next state, the first match is as good as any, so every walk is found. */
  lemma {:induction false} IsValidComplete<V(!new)>(g: Grammar<V>, inp: Input<V>, state: V)
    requires inp.index <= |inp.input|
    requires NextIsUnique(g)
    requires Reaches(g, state, inp.input[inp.index..])
    ensures IsValid(g, inp, state)
    decreases |inp.input| - inp.index
  {
    if inp.index < |inp.input| {
      var w := inp.input[inp.index..];
      assert w[1..] == inp.input[inp.index + 1..];
      var q :| q in g.productions && Matches(q, state, w[0]) && Reaches(g, Next(q), w[1..]);
      FirstMatchIsFirst(g.productions, state, inp.input[inp.index]);
      var p := FirstMatch(g.productions, state, inp.input[inp.index]).value;
      var i :| 0 <= i < |g.productions| && g.productions[i] == p;
      assert Next(p) == Next(q);
      IsValidComplete(g, Input(inp.input, inp.index + 1), Next(p));
    }
  }

  /** Validation from the start symbol, stated against the reference semantics. */
  lemma ValidateReaches<V(!new)>(g: Grammar<V>, w: seq<V>)
    ensures Validate(g, w) ==> Reaches(g, g.start, w)
    ensures NextIsUnique(g) && Reaches(g, g.start, w) ==> Validate(g, w)
  {
    assert w[0..] == w;
    if Validate(g, w) {
      IsValidSound(g, CreateInput(w), g.start);
    }
    if NextIsUnique(g) && Reaches(g, g.start, w) {
      IsValidComplete(g, CreateInput(w), g.start);
    }
  }

  /** Only the first matching production is tried: a walk through a later one is not found. */
  lemma NoBacktracking(g: Grammar<string>)
    requires g == Grammar("S", [Production("S", ["a", "A"]), Production("S", ["a", "B"]), Production("B", ["b"])],
      ["S", "A", "B"], ["a", "b"])
    ensures Reaches(g, "S", ["a", "b"])
    ensures !Validate(g, ["a", "b"])
  {
    SecondAlternativeReaches(g);
    FirstAlternativeSticks(g);
  }

  lemma SecondAlternativeReaches(g: Grammar<string>)
    requires g == Grammar("S", [Production("S", ["a", "A"]), Production("S", ["a", "B"]), Production("B", ["b"])],
      ["S", "A", "B"], ["a", "b"])
    ensures Reaches(g, "S", ["a", "b"])
  {
    var p1 := g.productions[1];
    var p2 := g.productions[2];
    assert Reaches(g, "b", []);
    assert ["a", "b"][1..] == ["b"] && ["b"][1..] == [];
    assert Matches(p2, "B", "b") && Next(p2) == "b";
    assert Reaches(g, "B", ["b"]);
    assert Matches(p1, "S", "a") && Next(p1) == "B";
  }

  lemma FirstAlternativeSticks(g: Grammar<string>)
    requires g == Grammar("S", [Production("S", ["a", "A"]), Production("S", ["a", "B"]), Production("B", ["b"])],
      ["S", "A", "B"], ["a", "b"])
    ensures !Validate(g, ["a", "b"])
  {
    assert FirstMatch(g.productions, "S", "a") == Some(g.productions[0]);
    assert FirstMatch(g.productions, "A", "b") == None;
  }
}
