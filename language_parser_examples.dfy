/** The lab 1 recognizer tests, computed on the model. */
module LanguageParserExamples {
  import opened Common
  import opened Vocabulary
  import opened LanguageParser

  /**
   * The lab 1 grammar as the tests build it: the fixture's lists are passed to `createGrammar`
   * in swapped positions, so `S`, `R`, `L` are the nonterminals and `a` to `f` the terminals.
   */
  const Lab1: Grammar<string> := Grammar("S", [
      Production("S", ["a", "S"]),
      Production("S", ["b", "S"]),
      Production("S", ["c", "R"]),
      Production("R", ["d", "L"]),
      Production("R", ["e"]),
      Production("L", ["f", "L"]),
      Production("L", ["e", "L"]),
      Production("L", ["d"])
    ], ["S", "R", "L"], ["a", "b", "c", "d", "e", "f"])

  // One reading step of the recognizer, so that concrete runs unfold one symbol at a time.

  lemma Follow<V>(g: Grammar<V>, w: seq<V>, i: nat, state: V, p: Production<V>)
    requires i < |w| && FirstMatch(g.productions, state, w[i]) == Some(p)
    ensures IsValid(g, Input(w, i), state) == IsValid(g, Input(w, i + 1), Next(p))
  {
  }

  lemma Stuck<V>(g: Grammar<V>, w: seq<V>, i: nat, state: V)
    requires i < |w| && FirstMatch(g.productions, state, w[i]) == None
    ensures !IsValid(g, Input(w, i), state)
  {
  }

  lemma Finish<V>(g: Grammar<V>, w: seq<V>, state: V)
    ensures IsValid(g, Input(w, |w|), state) == (state in g.terminal)
  {
  }

  lemma MatchLd()
    ensures FirstMatch(Lab1.productions, "L", "d") == Some(Lab1.productions[7])
  {
  }

  lemma MatchLe()
    ensures FirstMatch(Lab1.productions, "L", "e") == Some(Lab1.productions[6])
  {
  }

  lemma MatchLf()
    ensures FirstMatch(Lab1.productions, "L", "f") == Some(Lab1.productions[5])
  {
  }

  lemma MatchRR()
    ensures FirstMatch(Lab1.productions, "R", "R") == None
  {
  }

  lemma MatchRd()
    ensures FirstMatch(Lab1.productions, "R", "d") == Some(Lab1.productions[3])
  {
  }

  lemma MatchRe()
    ensures FirstMatch(Lab1.productions, "R", "e") == Some(Lab1.productions[4])
  {
  }

  lemma MatchRx()
    ensures FirstMatch(Lab1.productions, "R", "x") == None
  {
  }

  lemma MatchSS()
    ensures FirstMatch(Lab1.productions, "S", "S") == None
  {
  }

  lemma MatchSa()
    ensures FirstMatch(Lab1.productions, "S", "a") == Some(Lab1.productions[0])
  {
  }

  lemma MatchSb()
    ensures FirstMatch(Lab1.productions, "S", "b") == Some(Lab1.productions[1])
  {
  }

  lemma MatchSc()
    ensures FirstMatch(Lab1.productions, "S", "c") == Some(Lab1.productions[2])
  {
  }

  lemma MatchSd()
    ensures FirstMatch(Lab1.productions, "S", "d") == None
  {
  }

  lemma MatchSe()
    ensures FirstMatch(Lab1.productions, "S", "e") == None
  {
  }

  lemma MatchSf()
    ensures FirstMatch(Lab1.productions, "S", "f") == None
  {
  }

  lemma MatchSl()
    ensures FirstMatch(Lab1.productions, "S", "l") == None
  {
  }

  lemma MatchSp()
    ensures FirstMatch(Lab1.productions, "S", "p") == None
  {
  }

  lemma AcceptsAbce(w: seq<string>)
    requires w == ["a", "b", "c", "e"]
    ensures Validate(Lab1, w)
  {
    MatchSa();
    Follow(Lab1, w, 0, "S", Lab1.productions[0]);
    MatchSb();
    Follow(Lab1, w, 1, "S", Lab1.productions[1]);
    MatchSc();
    Follow(Lab1, w, 2, "S", Lab1.productions[2]);
    MatchRe();
    Follow(Lab1, w, 3, "R", Lab1.productions[4]);
    Finish(Lab1, w, "e");
  }

  lemma AcceptsAbcdfd(w: seq<string>)
    requires w == ["a", "b", "c", "d", "f", "d"]
    ensures Validate(Lab1, w)
  {
    MatchSa();
    Follow(Lab1, w, 0, "S", Lab1.productions[0]);
    MatchSb();
    Follow(Lab1, w, 1, "S", Lab1.productions[1]);
    MatchSc();
    Follow(Lab1, w, 2, "S", Lab1.productions[2]);
    MatchRd();
    Follow(Lab1, w, 3, "R", Lab1.productions[3]);
    MatchLf();
    Follow(Lab1, w, 4, "L", Lab1.productions[5]);
    MatchLd();
    Follow(Lab1, w, 5, "L", Lab1.productions[7]);
    Finish(Lab1, w, "d");
  }

  lemma AcceptsCdd(w: seq<string>)
    requires w == ["c", "d", "d"]
    ensures Validate(Lab1, w)
  {
    MatchSc();
    Follow(Lab1, w, 0, "S", Lab1.productions[2]);
    MatchRd();
    Follow(Lab1, w, 1, "R", Lab1.productions[3]);
    MatchLd();
    Follow(Lab1, w, 2, "L", Lab1.productions[7]);
    Finish(Lab1, w, "d");
  }

  lemma RejectsDse(w: seq<string>)
    requires w == ["d", "s", "e"]
    ensures !Validate(Lab1, w)
  {
    MatchSd();
    Stuck(Lab1, w, 0, "S");
  }

  lemma RejectsFed(w: seq<string>)
    requires w == ["f", "e", "d"]
    ensures !Validate(Lab1, w)
  {
    MatchSf();
    Stuck(Lab1, w, 0, "S");
  }

  lemma RejectsEfa(w: seq<string>)
    requires w == ["e", "f", "a"]
    ensures !Validate(Lab1, w)
  {
    MatchSe();
    Stuck(Lab1, w, 0, "S");
  }

  lemma RejectsAbcx(w: seq<string>)
    requires w == ["a", "b", "c", "x"]
    ensures !Validate(Lab1, w)
  {
    MatchSa();
    Follow(Lab1, w, 0, "S", Lab1.productions[0]);
    MatchSb();
    Follow(Lab1, w, 1, "S", Lab1.productions[1]);
    MatchSc();
    Follow(Lab1, w, 2, "S", Lab1.productions[2]);
    MatchRx();
    Stuck(Lab1, w, 3, "R");
  }

  lemma RejectsAlz(w: seq<string>)
    requires w == ["a", "l", "z"]
    ensures !Validate(Lab1, w)
  {
    MatchSa();
    Follow(Lab1, w, 0, "S", Lab1.productions[0]);
    MatchSl();
    Stuck(Lab1, w, 1, "S");
  }

  lemma RejectsAbpr(w: seq<string>)
    requires w == ["a", "b", "p", "r"]
    ensures !Validate(Lab1, w)
  {
    MatchSa();
    Follow(Lab1, w, 0, "S", Lab1.productions[0]);
    MatchSb();
    Follow(Lab1, w, 1, "S", Lab1.productions[1]);
    MatchSp();
    Stuck(Lab1, w, 2, "S");
  }

  lemma RejectsAbc(w: seq<string>)
    requires w == ["a", "b", "c"]
    ensures !Validate(Lab1, w)
  {
    MatchSa();
    Follow(Lab1, w, 0, "S", Lab1.productions[0]);
    MatchSb();
    Follow(Lab1, w, 1, "S", Lab1.productions[1]);
    MatchSc();
    Follow(Lab1, w, 2, "S", Lab1.productions[2]);
    Finish(Lab1, w, "R");
  }

  lemma RejectsAbcde(w: seq<string>)
    requires w == ["a", "b", "c", "d", "e"]
    ensures !Validate(Lab1, w)
  {
    MatchSa();
    Follow(Lab1, w, 0, "S", Lab1.productions[0]);
    MatchSb();
    Follow(Lab1, w, 1, "S", Lab1.productions[1]);
    MatchSc();
    Follow(Lab1, w, 2, "S", Lab1.productions[2]);
    MatchRd();
    Follow(Lab1, w, 3, "R", Lab1.productions[3]);
    MatchLe();
    Follow(Lab1, w, 4, "L", Lab1.productions[6]);
    Finish(Lab1, w, "L");
  }

  lemma RejectsAcd(w: seq<string>)
    requires w == ["a", "c", "d"]
    ensures !Validate(Lab1, w)
  {
    MatchSa();
    Follow(Lab1, w, 0, "S", Lab1.productions[0]);
    MatchSc();
    Follow(Lab1, w, 1, "S", Lab1.productions[2]);
    MatchRd();
    Follow(Lab1, w, 2, "R", Lab1.productions[3]);
    Finish(Lab1, w, "L");
  }

  lemma RejectsAbS(w: seq<string>)
    requires w == ["a", "b", "S"]
    ensures !Validate(Lab1, w)
  {
    MatchSa();
    Follow(Lab1, w, 0, "S", Lab1.productions[0]);
    MatchSb();
    Follow(Lab1, w, 1, "S", Lab1.productions[1]);
    MatchSS();
    Stuck(Lab1, w, 2, "S");
  }

  lemma RejectsCR(w: seq<string>)
    requires w == ["c", "R"]
    ensures !Validate(Lab1, w)
  {
    MatchSc();
    Follow(Lab1, w, 0, "S", Lab1.productions[2]);
    MatchRR();
    Stuck(Lab1, w, 1, "R");
  }

  /** The sentences the tests expect to be accepted are rejected by the recognizer as written. */
  lemma AsWrittenRejectsAbce(w: seq<string>)
    requires w == ["a", "b", "c", "e"]
    ensures Validate(Lab1, w)
    ensures !IsValidAsWritten(Lab1, CreateInput(w), Lab1.start)
  {
    AcceptsAbce(w);
    AsWrittenRejectsEverything(Lab1, CreateInput(w), Lab1.start);
  }
}
