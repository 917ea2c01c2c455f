/** The lab 2 automaton tests, computed on the model, and an automaton whose construction never ends. */
module StateMachineExamples {
  import opened Common
  import opened Vocabulary
  import opened StateMachine

  /** The lab 2 fixture: a nondeterministic automaton over `a` and `b`. */
  const Lab2: Automaton := Automaton("q0", ["q0", "q1", "q2", "q3", "q4"], [
      Transition("q0", "q1", "a"),
      Transition("q1", "q1", "b"),
      Transition("q1", "q2", "a"),
      Transition("q2", "q2", "b"),
      Transition("q2", "q3", "b"),
      Transition("q3", "q4", "b"),
      Transition("q3", "q1", "a")
    ], ["q4"])

  lemma Lab2Effects()
    ensures Effects(Lab2) == ["a", "b"]
  {
    var es := EffectList(Lab2.transitions);
    assert es == ["a", "b", "a", "b", "b", "b", "a"];
    assert es[..0] == [] && es[..1] == ["a"] && es[..2] == ["a", "b"];
    assert es[..3] == ["a", "b", "a"] && es[..4] == ["a", "b", "a", "b"];
    assert es[..5] == ["a", "b", "a", "b", "b"] && es[..6] == ["a", "b", "a", "b", "b", "b"];
    assert KeepFirst(es, 7) == [];
    assert KeepFirst(es, 6) == [];
    assert KeepFirst(es, 5) == [];
    assert KeepFirst(es, 4) == [];
    assert KeepFirst(es, 3) == [];
    assert KeepFirst(es, 2) == [];
    assert KeepFirst(es, 1) == ["b"];
    assert KeepFirst(es, 0) == ["a", "b"];
  }

  /** `toGrammar` on the fixture: the move into the final `q4` drops its target. */
  lemma Lab2ToGrammar()
    ensures ToGrammar(Lab2) == Grammar("q0", [
      Production("q0", ["a", "q1"]),
      Production("q1", ["b", "q1"]),
      Production("q1", ["a", "q2"]),
      Production("q2", ["b", "q2"]),
      Production("q2", ["b", "q3"]),
      Production("q3", ["b"]),
      Production("q3", ["a", "q1"])
    ], ["q0", "q1", "q2", "q3", "q4"], ["a", "b"])
  {
    Lab2Effects();
    Lab2Productions();
  }

  lemma Lab2Productions()
    ensures Productions(Lab2, Lab2.transitions) == [
      Production("q0", ["a", "q1"]),
      Production("q1", ["b", "q1"]),
      Production("q1", ["a", "q2"]),
      Production("q2", ["b", "q2"]),
      Production("q2", ["b", "q3"]),
      Production("q3", ["b"]),
      Production("q3", ["a", "q1"])
    ]
  {
    var ts := Lab2.transitions;
    var ps := Productions(Lab2, ts);
    ProductionsAt(Lab2, ts);
    assert ps[0] == TransitionToProduction(Lab2, ts[0]) == Production("q0", ["a", "q1"]);
    assert ps[1] == TransitionToProduction(Lab2, ts[1]) == Production("q1", ["b", "q1"]);
    assert ps[2] == TransitionToProduction(Lab2, ts[2]) == Production("q1", ["a", "q2"]);
    assert ps[3] == TransitionToProduction(Lab2, ts[3]) == Production("q2", ["b", "q2"]);
    assert ps[4] == TransitionToProduction(Lab2, ts[4]) == Production("q2", ["b", "q3"]);
    assert ps[5] == TransitionToProduction(Lab2, ts[5]) == Production("q3", ["b"]);
    assert ps[6] == TransitionToProduction(Lab2, ts[6]) == Production("q3", ["a", "q1"]);
  }

  /** Two transitions leave `q2` on `b`. */
  lemma Lab2IsNotDeterministic()
    ensures !Deterministic(Lab2.transitions)
  {
    assert Lab2.transitions[3].from == Lab2.transitions[4].from;
    assert Lab2.transitions[3].effect == Lab2.transitions[4].effect;
  }

  lemma ThreeStatesAreDeterministic(ts: seq<Transition>)
    requires ts == [Transition("q1", "q2", "a"), Transition("q2", "q2", "b"), Transition("q2", "q3", "a")]
    ensures Deterministic(ts)
  {
  }

  // One-step unfoldings used to compute the subset construction on the fixture.

  lemma TargetsOfOne(ts: seq<Transition>, u: string, e: string)
    ensures Targets(ts, [u], e) == Outgoing(ts, u, e)
  {
    assert [u][..0] == [];
  }

  lemma TargetsOfMore(ts: seq<Transition>, us: seq<string>, u: string, e: string)
    ensures Targets(ts, us + [u], e) == Targets(ts, us, e) + Outgoing(ts, u, e)
  {
    assert (us + [u])[..|us|] == us;
  }

  lemma EmittedPair(a: Automaton, state: string, e1: string, e2: string)
    ensures Emitted(a, state, [e1, e2]) == EmitOne(a, state, e1) + EmitOne(a, state, e2)
  {
    assert [e1, e2][..1] == [e1] && [e1][..0] == [];
    assert Emitted(a, state, [e1]) == EmitOne(a, state, e1);
  }

  lemma EnqueuedPair(a: Automaton, state: string, visited: seq<string>, e1: string, e2: string)
    ensures Enqueued(a, state, visited, [e1, e2]) == EnqueueOne(a, state, visited, e1) + EnqueueOne(a, state, visited, e2)
  {
    assert [e1, e2][..1] == [e1] && [e1][..0] == [];
    assert Enqueued(a, state, visited, [e1]) == EnqueueOne(a, state, visited, e1);
  }

  /** The transitions emitted over a two-letter alphabet, given the two successor names. */
  lemma EmittedPairIs(a: Automaton, state: string, e1: string, e2: string, n1: string, n2: string, emitted: seq<Transition>)
    requires Successor(a, state, e1) == n1 && Successor(a, state, e2) == n2
    requires emitted == (if n1 != "" then [Transition(state, n1, e1)] else []) + (if n2 != "" then [Transition(state, n2, e2)] else [])
    ensures Emitted(a, state, [e1, e2]) == emitted
  {
    EmittedPair(a, state, e1, e2);
  }

  /** The names enqueued over a two-letter alphabet, given the two successor names. */
  lemma EnqueuedPairIs(a: Automaton, state: string, visited: seq<string>, e1: string, e2: string, n1: string, n2: string,
                        queued: seq<string>)
    requires Successor(a, state, e1) == n1 && Successor(a, state, e2) == n2
    requires queued == (if n1 != "" && n1 !in visited then [n1] else []) + (if n2 != "" && n2 !in visited then [n2] else [])
    ensures Enqueued(a, state, visited, [e1, e2]) == queued
  {
    EnqueuedPair(a, state, visited, e1, e2);
  }

  lemma OutgoingQ0A()
    ensures Outgoing(Lab2.transitions, "q0", "a") == ["q1"]
  {
  }

  lemma OutgoingQ0B()
    ensures Outgoing(Lab2.transitions, "q0", "b") == []
  {
  }

  lemma OutgoingQ1A()
    ensures Outgoing(Lab2.transitions, "q1", "a") == ["q2"]
  {
  }

  lemma OutgoingQ1B()
    ensures Outgoing(Lab2.transitions, "q1", "b") == ["q1"]
  {
  }

  lemma OutgoingQ2A()
    ensures Outgoing(Lab2.transitions, "q2", "a") == []
  {
  }

  lemma OutgoingQ2B()
    ensures Outgoing(Lab2.transitions, "q2", "b") == ["q2", "q3"]
  {
  }

  lemma OutgoingQ3A()
    ensures Outgoing(Lab2.transitions, "q3", "a") == ["q1"]
  {
  }

  lemma OutgoingQ3B()
    ensures Outgoing(Lab2.transitions, "q3", "b") == ["q4"]
  {
  }

  lemma OutgoingQ4A()
    ensures Outgoing(Lab2.transitions, "q4", "a") == []
  {
  }

  lemma OutgoingQ4B()
    ensures Outgoing(Lab2.transitions, "q4", "b") == []
  {
  }

  lemma UnpackPlain(x: string)
    requires |x| > 0 && x[0] != '{'
    ensures Unpack(x) == [x]
  {
  }

  lemma UnpackQ23()
    ensures Unpack("{q2,q3}") == ["q2", "q3"]
  {
    FormatQ23();
    UnpackFormat(["q2", "q3"]);
  }

  lemma UnpackQ234()
    ensures Unpack("{q2,q3,q4}") == ["q2", "q3", "q4"]
  {
    FormatQ234();
    UnpackFormat(["q2", "q3", "q4"]);
  }

  lemma SuccessorQ0A()
    ensures Successor(Lab2, "q0", "a") == "q1"
  {
    UnpackPlain("q0");
    TargetsOfOne(Lab2.transitions, "q0", "a");
    OutgoingQ0A();
    assert Targets(Lab2.transitions, ["q0"], "a") == ["q1"];
  }

  lemma SuccessorQ0B()
    ensures Successor(Lab2, "q0", "b") == ""
  {
    UnpackPlain("q0");
    TargetsOfOne(Lab2.transitions, "q0", "b");
    OutgoingQ0B();
    assert Targets(Lab2.transitions, ["q0"], "b") == [];
  }

  lemma SuccessorQ1A()
    ensures Successor(Lab2, "q1", "a") == "q2"
  {
    UnpackPlain("q1");
    TargetsOfOne(Lab2.transitions, "q1", "a");
    OutgoingQ1A();
    assert Targets(Lab2.transitions, ["q1"], "a") == ["q2"];
  }

  lemma SuccessorQ1B()
    ensures Successor(Lab2, "q1", "b") == "q1"
  {
    UnpackPlain("q1");
    TargetsOfOne(Lab2.transitions, "q1", "b");
    OutgoingQ1B();
    assert Targets(Lab2.transitions, ["q1"], "b") == ["q1"];
  }

  lemma SuccessorQ2A()
    ensures Successor(Lab2, "q2", "a") == ""
  {
    UnpackPlain("q2");
    TargetsOfOne(Lab2.transitions, "q2", "a");
    OutgoingQ2A();
    assert Targets(Lab2.transitions, ["q2"], "a") == [];
  }

  lemma SuccessorQ2B()
    ensures Successor(Lab2, "q2", "b") == "{q2,q3}"
  {
    UnpackPlain("q2");
    TargetsOfOne(Lab2.transitions, "q2", "b");
    OutgoingQ2B();
    assert Targets(Lab2.transitions, ["q2"], "b") == ["q2", "q3"];
  }

  lemma SuccessorQ23A()
    ensures Successor(Lab2, "{q2,q3}", "a") == "q1"
  {
    UnpackQ23();
    OutgoingQ2A();
    OutgoingQ3A();
    TargetsPair(Lab2.transitions, "q2", "q3", "a", [], ["q1"]);
  }

  lemma FormatQ23()
    ensures Format(["q2", "q3"]) == "{q2,q3}"
  {
    assert Join(["q2", "q3"]) == "q2" + "," + "q3";
  }

  lemma FormatQ234()
    ensures Format(["q2", "q3", "q4"]) == "{q2,q3,q4}"
  {
    assert ["q2", "q3", "q4"][1..] == ["q3", "q4"];
    assert Join(["q3", "q4"]) == "q3" + "," + "q4";
    assert Join(["q2", "q3", "q4"]) == "q2" + "," + "q3,q4";
  }

  lemma TargetsPair(ts: seq<Transition>, u1: string, u2: string, e: string, o1: seq<string>, o2: seq<string>)
    requires Outgoing(ts, u1, e) == o1 && Outgoing(ts, u2, e) == o2
    ensures Targets(ts, [u1, u2], e) == o1 + o2
  {
    TargetsOfOne(ts, u1, e);
    TargetsOfMore(ts, [u1], u2, e);
    assert [u1] + [u2] == [u1, u2];
  }

  lemma TargetsTriple(ts: seq<Transition>, u1: string, u2: string, u3: string, e: string,
                      o1: seq<string>, o2: seq<string>, o3: seq<string>)
    requires Outgoing(ts, u1, e) == o1 && Outgoing(ts, u2, e) == o2 && Outgoing(ts, u3, e) == o3
    ensures Targets(ts, [u1, u2, u3], e) == o1 + o2 + o3
  {
    TargetsPair(ts, u1, u2, e, o1, o2);
    TargetsOfMore(ts, [u1, u2], u3, e);
    assert [u1, u2] + [u3] == [u1, u2, u3];
  }

  lemma TargetsQ23B()
    ensures Targets(Lab2.transitions, ["q2", "q3"], "b") == ["q2", "q3", "q4"]
  {
    OutgoingQ2B();
    OutgoingQ3B();
    TargetsPair(Lab2.transitions, "q2", "q3", "b", ["q2", "q3"], ["q4"]);
  }

  lemma SuccessorQ23B()
    ensures Successor(Lab2, "{q2,q3}", "b") == "{q2,q3,q4}"
  {
    UnpackQ23();
    TargetsQ23B();
    FormatQ234();
  }

  lemma SuccessorQ234A()
    ensures Successor(Lab2, "{q2,q3,q4}", "a") == "q1"
  {
    UnpackQ234();
    OutgoingQ2A();
    OutgoingQ3A();
    OutgoingQ4A();
    TargetsTriple(Lab2.transitions, "q2", "q3", "q4", "a", [], ["q1"], []);
  }

  lemma TargetsQ234B()
    ensures Targets(Lab2.transitions, ["q2", "q3", "q4"], "b") == ["q2", "q3", "q4"]
  {
    OutgoingQ2B();
    OutgoingQ3B();
    OutgoingQ4B();
    TargetsTriple(Lab2.transitions, "q2", "q3", "q4", "b", ["q2", "q3"], ["q4"], []);
  }

  lemma SuccessorQ234B()
    ensures Successor(Lab2, "{q2,q3,q4}", "b") == "{q2,q3,q4}"
  {
    UnpackQ234();
    TargetsQ234B();
    FormatQ234();
  }

  lemma FinalFacts()
    ensures !IsFinalName(Lab2, "q0") && !IsFinalName(Lab2, "q1") && !IsFinalName(Lab2, "q2")
    ensures !IsFinalName(Lab2, "{q2,q3}")
    ensures IsFinalName(Lab2, "{q2,q3,q4}")
  {
    UnpackPlain("q0");
    UnpackPlain("q1");
    UnpackPlain("q2");
    UnpackQ23();
    UnpackQ234();
    assert "q4" in Unpack("{q2,q3,q4}");
  }


  /** The facts about the fixture that the five iterations of the construction use. */
  lemma Lab2Facts()
    ensures Effects(Lab2) == ["a", "b"]
    ensures Successor(Lab2, "q0", "a") == "q1" && Successor(Lab2, "q0", "b") == ""
    ensures Successor(Lab2, "q1", "a") == "q2" && Successor(Lab2, "q1", "b") == "q1"
    ensures Successor(Lab2, "q2", "a") == "" && Successor(Lab2, "q2", "b") == "{q2,q3}"
    ensures Successor(Lab2, "{q2,q3}", "a") == "q1" && Successor(Lab2, "{q2,q3}", "b") == "{q2,q3,q4}"
    ensures Successor(Lab2, "{q2,q3,q4}", "a") == "q1" && Successor(Lab2, "{q2,q3,q4}", "b") == "{q2,q3,q4}"
    ensures !IsFinalName(Lab2, "q0") && !IsFinalName(Lab2, "q1") && !IsFinalName(Lab2, "q2")
    ensures !IsFinalName(Lab2, "{q2,q3}") && IsFinalName(Lab2, "{q2,q3,q4}")
  {
    Lab2Effects();
    SuccessorQ0A();
    SuccessorQ0B();
    SuccessorQ1A();
    SuccessorQ1B();
    SuccessorQ2A();
    SuccessorQ2B();
    SuccessorQ23A();
    SuccessorQ23B();
    SuccessorQ234A();
    SuccessorQ234B();
    FinalFacts();
  }

  lemma Step0Shape(w: Work, r: Work)
    requires w == Work(["q0"], [], [], [], [])
    requires r == Work(["q1"], ["q0"], [Transition("q0", "q1", "a")], [], ["q0"])
    ensures AddOrdered(w.states, "q0") == ["q0"]
    ensures r == Work(w.queue[1..] + ["q1"], ["q0"], w.transitions + [Transition("q0", "q1", "a")], w.finalStates, w.dequeued + ["q0"])
    ensures [Transition("q0", "q1", "a")] == (if "q1" != "" then [Transition("q0", "q1", "a")] else []) + (if "" != "" then [Transition("q0", "", "b")] else [])
    ensures ["q1"] == (if "q1" != "" && "q1" !in ["q0"] then ["q1"] else []) + (if "" != "" && "" !in ["q0"] then [""] else [])
  {
  }

  lemma Step0(a: Automaton, w: Work)
    requires Effects(a) == ["a", "b"]
    requires Successor(a, "q0", "a") == "q1" && Successor(a, "q0", "b") == "" && !IsFinalName(a, "q0")
    requires w == Work(["q0"], [], [], [], [])
    ensures Step(a, w) == Work(["q1"], ["q0"], [Transition("q0", "q1", "a")], [], ["q0"])
  {
    var r := Work(["q1"], ["q0"], [Transition("q0", "q1", "a")], [], ["q0"]);
    Step0Shape(w, r);
    EmittedPairIs(a, "q0", "a", "b", "q1", "", [Transition("q0", "q1", "a")]);
    EnqueuedPairIs(a, "q0", ["q0"], "a", "b", "q1", "", ["q1"]);
    StepIs(a, w, "q0", ["a", "b"], ["q0"], [Transition("q0", "q1", "a")], ["q1"], false, r);
  }

  lemma Step1Shape(w: Work, r: Work)
    requires w == Work(["q1"], ["q0"], [Transition("q0", "q1", "a")], [], ["q0"])
    requires r == Work(["q2"], ["q0", "q1"], [Transition("q0", "q1", "a"), Transition("q1", "q2", "a"), Transition("q1", "q1", "b")], [], ["q0", "q1"])
    ensures AddOrdered(w.states, "q1") == ["q0", "q1"]
    ensures r == Work(w.queue[1..] + ["q2"], ["q0", "q1"], w.transitions + [Transition("q1", "q2", "a"), Transition("q1", "q1", "b")], w.finalStates, w.dequeued + ["q1"])
    ensures [Transition("q1", "q2", "a"), Transition("q1", "q1", "b")] == (if "q2" != "" then [Transition("q1", "q2", "a")] else []) + (if "q1" != "" then [Transition("q1", "q1", "b")] else [])
    ensures ["q2"] == (if "q2" != "" && "q2" !in ["q0", "q1"] then ["q2"] else []) + (if "q1" != "" && "q1" !in ["q0", "q1"] then ["q1"] else [])
  {
  }

  lemma Step1(a: Automaton, w: Work)
    requires Effects(a) == ["a", "b"]
    requires Successor(a, "q1", "a") == "q2" && Successor(a, "q1", "b") == "q1" && !IsFinalName(a, "q1")
    requires w == Work(["q1"], ["q0"], [Transition("q0", "q1", "a")], [], ["q0"])
    ensures Step(a, w) == Work(["q2"], ["q0", "q1"], [Transition("q0", "q1", "a"), Transition("q1", "q2", "a"), Transition("q1", "q1", "b")], [], ["q0", "q1"])
  {
    var r := Work(["q2"], ["q0", "q1"], [Transition("q0", "q1", "a"), Transition("q1", "q2", "a"), Transition("q1", "q1", "b")], [], ["q0", "q1"]);
    Step1Shape(w, r);
    EmittedPairIs(a, "q1", "a", "b", "q2", "q1", [Transition("q1", "q2", "a"), Transition("q1", "q1", "b")]);
    EnqueuedPairIs(a, "q1", ["q0", "q1"], "a", "b", "q2", "q1", ["q2"]);
    StepIs(a, w, "q1", ["a", "b"], ["q0", "q1"], [Transition("q1", "q2", "a"), Transition("q1", "q1", "b")], ["q2"], false, r);
  }

  lemma Step2Shape(w: Work, r: Work)
    requires w == Work(["q2"], ["q0", "q1"], [Transition("q0", "q1", "a"), Transition("q1", "q2", "a"), Transition("q1", "q1", "b")], [], ["q0", "q1"])
    requires r == Work(["{q2,q3}"], ["q0", "q1", "q2"], [Transition("q0", "q1", "a"), Transition("q1", "q2", "a"), Transition("q1", "q1", "b"), Transition("q2", "{q2,q3}", "b")], [], ["q0", "q1", "q2"])
    ensures AddOrdered(w.states, "q2") == ["q0", "q1", "q2"]
    ensures r == Work(w.queue[1..] + ["{q2,q3}"], ["q0", "q1", "q2"], w.transitions + [Transition("q2", "{q2,q3}", "b")], w.finalStates, w.dequeued + ["q2"])
    ensures [Transition("q2", "{q2,q3}", "b")] == (if "" != "" then [Transition("q2", "", "a")] else []) + (if "{q2,q3}" != "" then [Transition("q2", "{q2,q3}", "b")] else [])
    ensures ["{q2,q3}"] == (if "" != "" && "" !in ["q0", "q1", "q2"] then [""] else []) + (if "{q2,q3}" != "" && "{q2,q3}" !in ["q0", "q1", "q2"] then ["{q2,q3}"] else [])
  {
  }

  lemma Step2(a: Automaton, w: Work)
    requires Effects(a) == ["a", "b"]
    requires Successor(a, "q2", "a") == "" && Successor(a, "q2", "b") == "{q2,q3}" && !IsFinalName(a, "q2")
    requires w == Work(["q2"], ["q0", "q1"], [Transition("q0", "q1", "a"), Transition("q1", "q2", "a"), Transition("q1", "q1", "b")], [], ["q0", "q1"])
    ensures Step(a, w) == Work(["{q2,q3}"], ["q0", "q1", "q2"], [Transition("q0", "q1", "a"), Transition("q1", "q2", "a"), Transition("q1", "q1", "b"), Transition("q2", "{q2,q3}", "b")], [], ["q0", "q1", "q2"])
  {
    var r := Work(["{q2,q3}"], ["q0", "q1", "q2"], [Transition("q0", "q1", "a"), Transition("q1", "q2", "a"), Transition("q1", "q1", "b"), Transition("q2", "{q2,q3}", "b")], [], ["q0", "q1", "q2"]);
    Step2Shape(w, r);
    EmittedPairIs(a, "q2", "a", "b", "", "{q2,q3}", [Transition("q2", "{q2,q3}", "b")]);
    EnqueuedPairIs(a, "q2", ["q0", "q1", "q2"], "a", "b", "", "{q2,q3}", ["{q2,q3}"]);
    StepIs(a, w, "q2", ["a", "b"], ["q0", "q1", "q2"], [Transition("q2", "{q2,q3}", "b")], ["{q2,q3}"], false, r);
  }

  lemma Step3Shape(w: Work, r: Work)
    requires w == Work(["{q2,q3}"], ["q0", "q1", "q2"], [Transition("q0", "q1", "a"), Transition("q1", "q2", "a"), Transition("q1", "q1", "b"), Transition("q2", "{q2,q3}", "b")], [], ["q0", "q1", "q2"])
    requires r == Work(["{q2,q3,q4}"], ["q0", "q1", "q2", "{q2,q3}"], [Transition("q0", "q1", "a"), Transition("q1", "q2", "a"), Transition("q1", "q1", "b"), Transition("q2", "{q2,q3}", "b"), Transition("{q2,q3}", "q1", "a"), Transition("{q2,q3}", "{q2,q3,q4}", "b")], [], ["q0", "q1", "q2", "{q2,q3}"])
    ensures AddOrdered(w.states, "{q2,q3}") == ["q0", "q1", "q2", "{q2,q3}"]
    ensures r == Work(w.queue[1..] + ["{q2,q3,q4}"], ["q0", "q1", "q2", "{q2,q3}"], w.transitions + [Transition("{q2,q3}", "q1", "a"), Transition("{q2,q3}", "{q2,q3,q4}", "b")], w.finalStates, w.dequeued + ["{q2,q3}"])
    ensures [Transition("{q2,q3}", "q1", "a"), Transition("{q2,q3}", "{q2,q3,q4}", "b")] == (if "q1" != "" then [Transition("{q2,q3}", "q1", "a")] else []) + (if "{q2,q3,q4}" != "" then [Transition("{q2,q3}", "{q2,q3,q4}", "b")] else [])
    ensures ["{q2,q3,q4}"] == (if "q1" != "" && "q1" !in ["q0", "q1", "q2", "{q2,q3}"] then ["q1"] else []) + (if "{q2,q3,q4}" != "" && "{q2,q3,q4}" !in ["q0", "q1", "q2", "{q2,q3}"] then ["{q2,q3,q4}"] else [])
  {
  }

  lemma Step3(a: Automaton, w: Work)
    requires Effects(a) == ["a", "b"]
    requires Successor(a, "{q2,q3}", "a") == "q1" && Successor(a, "{q2,q3}", "b") == "{q2,q3,q4}" && !IsFinalName(a, "{q2,q3}")
    requires w == Work(["{q2,q3}"], ["q0", "q1", "q2"], [Transition("q0", "q1", "a"), Transition("q1", "q2", "a"), Transition("q1", "q1", "b"), Transition("q2", "{q2,q3}", "b")], [], ["q0", "q1", "q2"])
    ensures Step(a, w) == Work(["{q2,q3,q4}"], ["q0", "q1", "q2", "{q2,q3}"], [Transition("q0", "q1", "a"), Transition("q1", "q2", "a"), Transition("q1", "q1", "b"), Transition("q2", "{q2,q3}", "b"), Transition("{q2,q3}", "q1", "a"), Transition("{q2,q3}", "{q2,q3,q4}", "b")], [], ["q0", "q1", "q2", "{q2,q3}"])
  {
    var r := Work(["{q2,q3,q4}"], ["q0", "q1", "q2", "{q2,q3}"], [Transition("q0", "q1", "a"), Transition("q1", "q2", "a"), Transition("q1", "q1", "b"), Transition("q2", "{q2,q3}", "b"), Transition("{q2,q3}", "q1", "a"), Transition("{q2,q3}", "{q2,q3,q4}", "b")], [], ["q0", "q1", "q2", "{q2,q3}"]);
    Step3Shape(w, r);
    EmittedPairIs(a, "{q2,q3}", "a", "b", "q1", "{q2,q3,q4}", [Transition("{q2,q3}", "q1", "a"), Transition("{q2,q3}", "{q2,q3,q4}", "b")]);
    EnqueuedPairIs(a, "{q2,q3}", ["q0", "q1", "q2", "{q2,q3}"], "a", "b", "q1", "{q2,q3,q4}", ["{q2,q3,q4}"]);
    StepIs(a, w, "{q2,q3}", ["a", "b"], ["q0", "q1", "q2", "{q2,q3}"], [Transition("{q2,q3}", "q1", "a"), Transition("{q2,q3}", "{q2,q3,q4}", "b")], ["{q2,q3,q4}"], false, r);
  }

  lemma Step4Shape(w: Work, r: Work)
    requires w == Work(["{q2,q3,q4}"], ["q0", "q1", "q2", "{q2,q3}"], [Transition("q0", "q1", "a"), Transition("q1", "q2", "a"), Transition("q1", "q1", "b"), Transition("q2", "{q2,q3}", "b"), Transition("{q2,q3}", "q1", "a"), Transition("{q2,q3}", "{q2,q3,q4}", "b")], [], ["q0", "q1", "q2", "{q2,q3}"])
    requires r == Work([], ["q0", "q1", "q2", "{q2,q3}", "{q2,q3,q4}"], [Transition("q0", "q1", "a"), Transition("q1", "q2", "a"), Transition("q1", "q1", "b"), Transition("q2", "{q2,q3}", "b"), Transition("{q2,q3}", "q1", "a"), Transition("{q2,q3}", "{q2,q3,q4}", "b"), Transition("{q2,q3,q4}", "q1", "a"), Transition("{q2,q3,q4}", "{q2,q3,q4}", "b")], ["{q2,q3,q4}"], ["q0", "q1", "q2", "{q2,q3}", "{q2,q3,q4}"])
    ensures AddOrdered(w.states, "{q2,q3,q4}") == ["q0", "q1", "q2", "{q2,q3}", "{q2,q3,q4}"]
    ensures r == Work(w.queue[1..] + [], ["q0", "q1", "q2", "{q2,q3}", "{q2,q3,q4}"], w.transitions + [Transition("{q2,q3,q4}", "q1", "a"), Transition("{q2,q3,q4}", "{q2,q3,q4}", "b")], AddOrdered(w.finalStates, "{q2,q3,q4}"), w.dequeued + ["{q2,q3,q4}"])
    ensures [Transition("{q2,q3,q4}", "q1", "a"), Transition("{q2,q3,q4}", "{q2,q3,q4}", "b")] == (if "q1" != "" then [Transition("{q2,q3,q4}", "q1", "a")] else []) + (if "{q2,q3,q4}" != "" then [Transition("{q2,q3,q4}", "{q2,q3,q4}", "b")] else [])
    ensures [] == (if "q1" != "" && "q1" !in ["q0", "q1", "q2", "{q2,q3}", "{q2,q3,q4}"] then ["q1"] else []) + (if "{q2,q3,q4}" != "" && "{q2,q3,q4}" !in ["q0", "q1", "q2", "{q2,q3}", "{q2,q3,q4}"] then ["{q2,q3,q4}"] else [])
  {
    var n := "{q2,q3,q4}";
    assert |n| == 10;
    assert n !in w.states by {
      assert forall x :: x in w.states ==> |x| < 10;
    }
    assert n !in w.finalStates;
  }

  lemma Step4(a: Automaton, w: Work)
    requires Effects(a) == ["a", "b"]
    requires Successor(a, "{q2,q3,q4}", "a") == "q1" && Successor(a, "{q2,q3,q4}", "b") == "{q2,q3,q4}" && IsFinalName(a, "{q2,q3,q4}")
    requires w == Work(["{q2,q3,q4}"], ["q0", "q1", "q2", "{q2,q3}"], [Transition("q0", "q1", "a"), Transition("q1", "q2", "a"), Transition("q1", "q1", "b"), Transition("q2", "{q2,q3}", "b"), Transition("{q2,q3}", "q1", "a"), Transition("{q2,q3}", "{q2,q3,q4}", "b")], [], ["q0", "q1", "q2", "{q2,q3}"])
    ensures Step(a, w) == Work([], ["q0", "q1", "q2", "{q2,q3}", "{q2,q3,q4}"], [Transition("q0", "q1", "a"), Transition("q1", "q2", "a"), Transition("q1", "q1", "b"), Transition("q2", "{q2,q3}", "b"), Transition("{q2,q3}", "q1", "a"), Transition("{q2,q3}", "{q2,q3,q4}", "b"), Transition("{q2,q3,q4}", "q1", "a"), Transition("{q2,q3,q4}", "{q2,q3,q4}", "b")], ["{q2,q3,q4}"], ["q0", "q1", "q2", "{q2,q3}", "{q2,q3,q4}"])
  {
    var r := Work([], ["q0", "q1", "q2", "{q2,q3}", "{q2,q3,q4}"], [Transition("q0", "q1", "a"), Transition("q1", "q2", "a"), Transition("q1", "q1", "b"), Transition("q2", "{q2,q3}", "b"), Transition("{q2,q3}", "q1", "a"), Transition("{q2,q3}", "{q2,q3,q4}", "b"), Transition("{q2,q3,q4}", "q1", "a"), Transition("{q2,q3,q4}", "{q2,q3,q4}", "b")], ["{q2,q3,q4}"], ["q0", "q1", "q2", "{q2,q3}", "{q2,q3,q4}"]);
    Step4Shape(w, r);
    EmittedPairIs(a, "{q2,q3,q4}", "a", "b", "q1", "{q2,q3,q4}", [Transition("{q2,q3,q4}", "q1", "a"), Transition("{q2,q3,q4}", "{q2,q3,q4}", "b")]);
    EnqueuedPairIs(a, "{q2,q3,q4}", ["q0", "q1", "q2", "{q2,q3}", "{q2,q3,q4}"], "a", "b", "q1", "{q2,q3,q4}", []);
    StepIs(a, w, "{q2,q3,q4}", ["a", "b"], ["q0", "q1", "q2", "{q2,q3}", "{q2,q3,q4}"], [Transition("{q2,q3,q4}", "q1", "a"), Transition("{q2,q3,q4}", "{q2,q3,q4}", "b")], [], true, r);
  }

  /** The final work of the construction on the fixture. */
  const Lab2Done: Work := Work([], ["q0", "q1", "q2", "{q2,q3}", "{q2,q3,q4}"], [Transition("q0", "q1", "a"), Transition("q1", "q2", "a"), Transition("q1", "q1", "b"), Transition("q2", "{q2,q3}", "b"), Transition("{q2,q3}", "q1", "a"), Transition("{q2,q3}", "{q2,q3,q4}", "b"), Transition("{q2,q3,q4}", "q1", "a"), Transition("{q2,q3,q4}", "{q2,q3,q4}", "b")], ["{q2,q3,q4}"], ["q0", "q1", "q2", "{q2,q3}", "{q2,q3,q4}"])

  lemma Lab2Run()
    ensures Run(Lab2, Start(Lab2), 5) == Some(Lab2Done)
  {
    var w0: Work := Work(["q0"], [], [], [], []);
    var w1: Work := Work(["q1"], ["q0"], [Transition("q0", "q1", "a")], [], ["q0"]);
    var w2: Work := Work(["q2"], ["q0", "q1"], [Transition("q0", "q1", "a"), Transition("q1", "q2", "a"), Transition("q1", "q1", "b")], [], ["q0", "q1"]);
    var w3: Work := Work(["{q2,q3}"], ["q0", "q1", "q2"], [Transition("q0", "q1", "a"), Transition("q1", "q2", "a"), Transition("q1", "q1", "b"), Transition("q2", "{q2,q3}", "b")], [], ["q0", "q1", "q2"]);
    var w4: Work := Work(["{q2,q3,q4}"], ["q0", "q1", "q2", "{q2,q3}"], [Transition("q0", "q1", "a"), Transition("q1", "q2", "a"), Transition("q1", "q1", "b"), Transition("q2", "{q2,q3}", "b"), Transition("{q2,q3}", "q1", "a"), Transition("{q2,q3}", "{q2,q3,q4}", "b")], [], ["q0", "q1", "q2", "{q2,q3}"]);
    var w5: Work := Lab2Done;
    Lab2Facts();
    Step0(Lab2, w0);
    RunStep(Lab2, w0, 5);
    Step1(Lab2, w1);
    RunStep(Lab2, w1, 4);
    Step2(Lab2, w2);
    RunStep(Lab2, w2, 3);
    Step3(Lab2, w3);
    RunStep(Lab2, w3, 2);
    Step4(Lab2, w4);
    RunStep(Lab2, w4, 1);
  }

  lemma DeterminizeIs(a: Automaton, fuel: nat, w: Work)
    requires Run(a, Start(a), fuel) == Some(w)
    ensures Determinize(a, fuel) == Some(Automaton(a.initialState, w.states, w.transitions, w.finalStates))
  {
  }

  lemma Lab2DoneDistinct()
    ensures Distinct(Lab2Done.dequeued)
  {
  }

  /** `toDeterministic` on the fixture gives the automaton the lab 2 test expects. */
  lemma Lab2ToDeterministic()
    ensures Determinize(Lab2, 5) == Some(Automaton("q0", ["q0", "q1", "q2", "{q2,q3}", "{q2,q3,q4}"], [
      Transition("q0", "q1", "a"),
      Transition("q1", "q2", "a"),
      Transition("q1", "q1", "b"),
      Transition("q2", "{q2,q3}", "b"),
      Transition("{q2,q3}", "q1", "a"),
      Transition("{q2,q3}", "{q2,q3,q4}", "b"),
      Transition("{q2,q3,q4}", "q1", "a"),
      Transition("{q2,q3,q4}", "{q2,q3,q4}", "b")
    ], ["{q2,q3,q4}"]))
  {
    Lab2Run();
    DeterminizeIs(Lab2, 5, Lab2Done);
  }

  /** No state of the fixture is dequeued twice, so its result is deterministic. */
  lemma Lab2ResultIsDeterministic()
    ensures Determinize(Lab2, 5).Some? && Deterministic(Determinize(Lab2, 5).value.transitions)
  {
    Lab2Run();
    Lab2DoneDistinct();
    DeterminizeDeterministic(Lab2, 5);
  }

  // ---------------------------------------------------------------------------
  // A state dequeued twice
  // ---------------------------------------------------------------------------

  /** `x` reaches `y` on both effects, so `y` is queued twice before it is visited. */
  const Twice: Automaton := Automaton("x", ["x", "y"], [
      Transition("x", "y", "a"),
      Transition("x", "y", "b"),
      Transition("y", "y", "a")
    ], [])

  lemma TwiceEffects()
    ensures Effects(Twice) == ["a", "b"]
  {
    var es := EffectList(Twice.transitions);
    assert es == ["a", "b", "a"];
    assert es[..0] == [] && es[..1] == ["a"] && es[..2] == ["a", "b"];
    assert KeepFirst(es, 3) == [];
    assert KeepFirst(es, 2) == [];
    assert KeepFirst(es, 1) == ["b"];
    assert KeepFirst(es, 0) == ["a", "b"];
  }

  lemma OutgoingTwice()
    ensures Outgoing(Twice.transitions, "x", "a") == ["y"] && Outgoing(Twice.transitions, "x", "b") == ["y"]
    ensures Outgoing(Twice.transitions, "y", "a") == ["y"] && Outgoing(Twice.transitions, "y", "b") == []
  {
  }

  lemma SuccessorTwice()
    ensures Successor(Twice, "x", "a") == "y" && Successor(Twice, "x", "b") == "y"
    ensures Successor(Twice, "y", "a") == "y" && Successor(Twice, "y", "b") == ""
  {
    OutgoingTwice();
    UnpackPlain("x");
    UnpackPlain("y");
    SuccessorOfPlain(Twice, "x", "a", ["y"], "y");
    SuccessorOfPlain(Twice, "x", "b", ["y"], "y");
    SuccessorOfPlain(Twice, "y", "a", ["y"], "y");
    SuccessorOfPlain(Twice, "y", "b", [], "");
  }

  lemma TwiceFacts()
    ensures Effects(Twice) == ["a", "b"]
    ensures Successor(Twice, "x", "a") == "y" && Successor(Twice, "x", "b") == "y"
    ensures Successor(Twice, "y", "a") == "y" && Successor(Twice, "y", "b") == ""
    ensures !IsFinalName(Twice, "x") && !IsFinalName(Twice, "y")
  {
    TwiceEffects();
    SuccessorTwice();
    FinalTwice();
  }

  lemma FinalTwice()
    ensures !IsFinalName(Twice, "x") && !IsFinalName(Twice, "y")
  {
    UnpackPlain("x");
    UnpackPlain("y");
  }

  lemma TwiceShape0(w: Work, r: Work)
    requires w == Work(["x"], [], [], [], [])
    requires r == Work(["y", "y"], ["x"], [Transition("x", "y", "a"), Transition("x", "y", "b")], [], ["x"])
    ensures AddOrdered(w.states, "x") == ["x"]
    ensures r == Work(w.queue[1..] + ["y", "y"], ["x"], w.transitions + [Transition("x", "y", "a"), Transition("x", "y", "b")], w.finalStates, w.dequeued + ["x"])
    ensures [Transition("x", "y", "a"), Transition("x", "y", "b")] == (if "y" != "" then [Transition("x", "y", "a")] else []) + (if "y" != "" then [Transition("x", "y", "b")] else [])
    ensures ["y", "y"] == (if "y" != "" && "y" !in ["x"] then ["y"] else []) + (if "y" != "" && "y" !in ["x"] then ["y"] else [])
  {
  }

  /** Dequeuing `x` pushes `y` once per effect: nothing marks `y` as waiting. */
  lemma TwiceStep0(a: Automaton, w: Work)
    requires Effects(a) == ["a", "b"]
    requires Successor(a, "x", "a") == "y" && Successor(a, "x", "b") == "y" && !IsFinalName(a, "x")
    requires w == Work(["x"], [], [], [], [])
    ensures Step(a, w) == Work(["y", "y"], ["x"], [Transition("x", "y", "a"), Transition("x", "y", "b")], [], ["x"])
  {
    var r := Work(["y", "y"], ["x"], [Transition("x", "y", "a"), Transition("x", "y", "b")], [], ["x"]);
    TwiceShape0(w, r);
    EmittedPairIs(a, "x", "a", "b", "y", "y", [Transition("x", "y", "a"), Transition("x", "y", "b")]);
    EnqueuedPairIs(a, "x", ["x"], "a", "b", "y", "y", ["y", "y"]);
    StepIs(a, w, "x", ["a", "b"], ["x"], [Transition("x", "y", "a"), Transition("x", "y", "b")], ["y", "y"], false, r);
  }

  lemma TwiceShape1(w: Work, r: Work)
    requires w == Work(["y", "y"], ["x"], [Transition("x", "y", "a"), Transition("x", "y", "b")], [], ["x"])
    requires r == Work(["y"], ["x", "y"], [Transition("x", "y", "a"), Transition("x", "y", "b"), Transition("y", "y", "a")], [], ["x", "y"])
    ensures AddOrdered(w.states, "y") == ["x", "y"]
    ensures r == Work(w.queue[1..] + [], ["x", "y"], w.transitions + [Transition("y", "y", "a")], w.finalStates, w.dequeued + ["y"])
    ensures [Transition("y", "y", "a")] == (if "y" != "" then [Transition("y", "y", "a")] else []) + (if "" != "" then [Transition("y", "", "b")] else [])
    ensures [] == (if "y" != "" && "y" !in ["x", "y"] then ["y"] else []) + (if "" != "" && "" !in ["x", "y"] then [""] else [])
  {
  }

  /** Dequeuing `y` visits it, emits its loop and queues nothing, since `y` is now visited. */
  lemma TwiceStep1(a: Automaton, w: Work)
    requires Effects(a) == ["a", "b"]
    requires Successor(a, "y", "a") == "y" && Successor(a, "y", "b") == "" && !IsFinalName(a, "y")
    requires w == Work(["y", "y"], ["x"], [Transition("x", "y", "a"), Transition("x", "y", "b")], [], ["x"])
    ensures Step(a, w) == Work(["y"], ["x", "y"], [Transition("x", "y", "a"), Transition("x", "y", "b"), Transition("y", "y", "a")], [], ["x", "y"])
  {
    var r := Work(["y"], ["x", "y"], [Transition("x", "y", "a"), Transition("x", "y", "b"), Transition("y", "y", "a")], [], ["x", "y"]);
    TwiceShape1(w, r);
    EmittedPairIs(a, "y", "a", "b", "y", "", [Transition("y", "y", "a")]);
    EnqueuedPairIs(a, "y", ["x", "y"], "a", "b", "y", "", []);
    StepIs(a, w, "y", ["a", "b"], ["x", "y"], [Transition("y", "y", "a")], [], false, r);
  }

  lemma TwiceShape2(w: Work, r: Work)
    requires w == Work(["y"], ["x", "y"], [Transition("x", "y", "a"), Transition("x", "y", "b"), Transition("y", "y", "a")], [], ["x", "y"])
    requires r == Work([], ["x", "y"], [Transition("x", "y", "a"), Transition("x", "y", "b"), Transition("y", "y", "a"), Transition("y", "y", "a")], [], ["x", "y", "y"])
    ensures AddOrdered(w.states, "y") == ["x", "y"]
    ensures r == Work(w.queue[1..] + [], ["x", "y"], w.transitions + [Transition("y", "y", "a")], w.finalStates, w.dequeued + ["y"])
    ensures [Transition("y", "y", "a")] == (if "y" != "" then [Transition("y", "y", "a")] else []) + (if "" != "" then [Transition("y", "", "b")] else [])
    ensures [] == (if "y" != "" && "y" !in ["x", "y"] then ["y"] else []) + (if "" != "" && "" !in ["x", "y"] then [""] else [])
  {
  }

  /** Dequeuing the second `y` emits its loop a second time. */
  lemma TwiceStep2(a: Automaton, w: Work)
    requires Effects(a) == ["a", "b"]
    requires Successor(a, "y", "a") == "y" && Successor(a, "y", "b") == "" && !IsFinalName(a, "y")
    requires w == Work(["y"], ["x", "y"], [Transition("x", "y", "a"), Transition("x", "y", "b"), Transition("y", "y", "a")], [], ["x", "y"])
    ensures Step(a, w) == Work([], ["x", "y"], [Transition("x", "y", "a"), Transition("x", "y", "b"), Transition("y", "y", "a"), Transition("y", "y", "a")], [], ["x", "y", "y"])
  {
    var r := Work([], ["x", "y"], [Transition("x", "y", "a"), Transition("x", "y", "b"), Transition("y", "y", "a"), Transition("y", "y", "a")], [], ["x", "y", "y"]);
    TwiceShape2(w, r);
    EmittedPairIs(a, "y", "a", "b", "y", "", [Transition("y", "y", "a")]);
    EnqueuedPairIs(a, "y", ["x", "y"], "a", "b", "y", "", []);
    StepIs(a, w, "y", ["a", "b"], ["x", "y"], [Transition("y", "y", "a")], [], false, r);
  }

  /** The final work on `Twice`: `y` was dequeued twice and its loop emitted twice. */
  const TwiceDone: Work := Work([], ["x", "y"], [
      Transition("x", "y", "a"),
      Transition("x", "y", "b"),
      Transition("y", "y", "a"),
      Transition("y", "y", "a")
    ], [], ["x", "y", "y"])

  lemma TwiceRun()
    ensures Run(Twice, Start(Twice), 3) == Some(TwiceDone)
  {
    var w0: Work := Work(["x"], [], [], [], []);
    var w1: Work := Work(["y", "y"], ["x"], [Transition("x", "y", "a"), Transition("x", "y", "b")], [], ["x"]);
    var w2: Work := Work(["y"], ["x", "y"], [Transition("x", "y", "a"), Transition("x", "y", "b"), Transition("y", "y", "a")], [], ["x", "y"]);
    TwiceFacts();
    TwiceStep0(Twice, w0);
    RunStep(Twice, w0, 3);
    TwiceStep1(Twice, w1);
    RunStep(Twice, w1, 2);
    TwiceStep2(Twice, w2);
    RunStep(Twice, w2, 1);
  }

  /**
   * As written, `toDeterministic` on `Twice` ends with two transitions leaving `y` on `a`: its
   * result is not deterministic.
   */
  lemma TwiceIsNotDeterministic()
    ensures Determinize(Twice, 3).Some?
    ensures !Deterministic(Determinize(Twice, 3).value.transitions)
  {
    TwiceRun();
    DeterminizeIs(Twice, 3, TwiceDone);
    var ts := Determinize(Twice, 3).value.transitions;
    assert ts[2] == ts[3];
  }

  // ---------------------------------------------------------------------------
  // Names that keep growing
  // ---------------------------------------------------------------------------

  /** Two states that reach each other and themselves on `a`. */
  const Growth: Automaton := Automaton("x", ["x", "y"], [
      Transition("x", "x", "a"),
      Transition("x", "y", "a"),
      Transition("y", "x", "a"),
      Transition("y", "y", "a")
    ], [])

  lemma OutgoingGrowth()
    ensures Outgoing(Growth.transitions, "x", "a") == ["x", "y"]
    ensures Outgoing(Growth.transitions, "y", "a") == ["x", "y"]
  {
  }

  lemma FormatXY()
    ensures Format(["x", "y"]) == "{x,y}"
    ensures Format(["x", "y", "x", "y"]) == "{x,y,x,y}"
  {
    assert Join(["x", "y"]) == "x" + "," + "y";
    assert ["x", "y", "x", "y"][1..] == ["y", "x", "y"] && ["y", "x", "y"][1..] == ["x", "y"];
    assert Join(["y", "x", "y"]) == "y" + "," + "x,y";
    assert Join(["x", "y", "x", "y"]) == "x" + "," + "y,x,y";
  }

  /** The successor of a plain name, from its targets. */
  lemma SuccessorOfPlain(a: Automaton, s: string, e: string, targets: seq<string>, n: string)
    requires Unpack(s) == [s] && Outgoing(a.transitions, s, e) == targets && Format(targets) == n
    ensures Successor(a, s, e) == n
  {
    TargetsOfOne(a.transitions, s, e);
  }

  /** The successor of a name with two constituents, from their targets. */
  lemma SuccessorOfPair(a: Automaton, s: string, u1: string, u2: string, e: string,
                        o1: seq<string>, o2: seq<string>, n: string)
    requires Unpack(s) == [u1, u2]
    requires Outgoing(a.transitions, u1, e) == o1 && Outgoing(a.transitions, u2, e) == o2
    requires Format(o1 + o2) == n
    ensures Successor(a, s, e) == n
  {
    TargetsPair(a.transitions, u1, u2, e, o1, o2);
  }

  lemma UnpackXY()
    ensures Unpack("x") == ["x"] && Unpack("{x,y}") == ["x", "y"]
  {
    FormatXY();
    UnpackFormat(["x", "y"]);
  }

  /**
   * The successor of `{x,y}` is `{x,y,x,y}`, not `{x,y}` again: names list targets with their
   * repetitions, so each iteration queues a longer name and the walk never ends.
   */
  lemma GrowthNamesGrow()
    ensures Successor(Growth, "x", "a") == "{x,y}"
    ensures Successor(Growth, "{x,y}", "a") == "{x,y,x,y}"
    ensures "{x,y,x,y}" != "{x,y}"
  {
    OutgoingGrowth();
    FormatXY();
    UnpackXY();
    SuccessorOfPlain(Growth, "x", "a", ["x", "y"], "{x,y}");
    assert ["x", "y"] + ["x", "y"] == ["x", "y", "x", "y"];
    SuccessorOfPair(Growth, "{x,y}", "x", "y", "a", ["x", "y"], ["x", "y"], "{x,y,x,y}");
    assert |"{x,y,x,y}"| != |"{x,y}"|;
  }

  /** `n` copies of `x, y` in a row. */
  function Pairs(n: nat): (r: seq<string>)
    ensures |r| == 2 * n
    ensures forall u :: u in r ==> u == "x" || u == "y"
  {
    if n == 0 then [] else Pairs(n - 1) + ["x", "y"]
  }

  /** The constituents of the `k`-th name the walk on `Growth` dequeues. */
  function Constituents(k: nat): (r: seq<string>)
    ensures |r| > 0
    ensures forall u :: u in r ==> u == "x" || u == "y"
  {
    if k == 0 then ["x"] else Pairs(|Constituents(k - 1)|)
  }

  /** The `k`-th name the walk on `Growth` dequeues: `x`, `{x,y}`, `{x,y,x,y}`, ... */
  function GrowthName(k: nat): string {
    Format(Constituents(k))
  }

  /** The names visited before the `k`-th one. */
  function GrowthVisited(k: nat): (r: seq<string>)
    ensures |r| == k && forall i :: 0 <= i < k ==> r[i] == GrowthName(i)
  {
    if k == 0 then [] else GrowthVisited(k - 1) + [GrowthName(k - 1)]
  }

  lemma {:induction false} ConstituentsGrow(i: nat, j: nat)
    requires i < j
    ensures |Constituents(i)| < |Constituents(j)|
    decreases j
  {
    if i < j - 1 {
      ConstituentsGrow(i, j - 1);
    }
  }

  lemma UnpackGrowthName(k: nat)
    ensures Unpack(GrowthName(k)) == Constituents(k)
  {
    UnpackFormat(Constituents(k));
  }

  /** Different steps dequeue different names. */
  lemma GrowthNamesDiffer(i: nat, j: nat)
    requires i != j
    ensures GrowthName(i) != GrowthName(j)
  {
    UnpackGrowthName(i);
    UnpackGrowthName(j);
    if i < j {
      ConstituentsGrow(i, j);
    } else {
      ConstituentsGrow(j, i);
    }
  }

  lemma {:induction false} TargetsOfPairs(a: Automaton, us: seq<string>)
    requires Outgoing(a.transitions, "x", "a") == ["x", "y"] && Outgoing(a.transitions, "y", "a") == ["x", "y"]
    requires forall u :: u in us ==> u == "x" || u == "y"
    ensures Targets(a.transitions, us, "a") == Pairs(|us|)
    decreases |us|
  {
    if us != [] {
      var init := us[..|us| - 1];
      assert forall u :: u in init ==> u in us;
      TargetsOfPairs(a, init);
      assert us[|us| - 1] in us;
    }
  }

  /** Each name's successor is the next, longer name. */
  lemma GrowthSuccessor(a: Automaton, k: nat)
    requires Outgoing(a.transitions, "x", "a") == ["x", "y"] && Outgoing(a.transitions, "y", "a") == ["x", "y"]
    ensures Successor(a, GrowthName(k), "a") == GrowthName(k + 1)
  {
    UnpackGrowthName(k);
    TargetsOfPairs(a, Constituents(k));
  }

  /** The queue and the visited states after one iteration. */
  lemma StepQueue(a: Automaton, w: Work)
    requires w.queue != []
    ensures Step(a, w).states == AddOrdered(w.states, w.queue[0])
    ensures Step(a, w).queue == w.queue[1..] + Enqueued(a, w.queue[0], Step(a, w).states, Effects(a))
  {
  }

  /**
   * On a one-effect alphabet, dequeuing the only queued name `s` whose successor `n` is named
   * and not visited leaves `n` alone in the queue.
   */
  lemma StepAlone(a: Automaton, w: Work, s: string, n: string)
    requires Effects(a) == ["a"] && w.queue == [s] && s !in w.states
    requires Successor(a, s, "a") == n && n != "" && n !in w.states + [s]
    ensures Step(a, w).queue == [n] && Step(a, w).states == w.states + [s]
  {
    StepQueue(a, w);
    assert ["a"][..0] == [];
    assert Enqueued(a, s, w.states + [s], ["a"]) == [n];
  }

  /** The `k`-th name is not among the names visited before it. */
  lemma GrowthUnvisited(k: nat)
    ensures GrowthName(k) !in GrowthVisited(k)
  {
    var v := GrowthVisited(k);
    forall i | 0 <= i < |v| ensures v[i] != GrowthName(k) {
      GrowthNamesDiffer(i, k);
    }
  }

  /** The walk is at its `k`-th iteration: the `k`-th name alone in the queue, the earlier ones visited. */
  predicate Looping(w: Work, k: nat) {
    w.queue == [GrowthName(k)] && w.states == GrowthVisited(k)
  }

  /** One iteration from the `k`-th name alone in the queue leaves the next name alone in it. */
  lemma GrowthStep(a: Automaton, w: Work, k: nat)
    requires Outgoing(a.transitions, "x", "a") == ["x", "y"] && Outgoing(a.transitions, "y", "a") == ["x", "y"]
    requires Effects(a) == ["a"]
    requires Looping(w, k)
    ensures Looping(Step(a, w), k + 1)
  {
    GrowthUnvisited(k);
    GrowthUnvisited(k + 1);
    GrowthSuccessor(a, k);
    UnpackGrowthName(k + 1);
    StepAlone(a, w, GrowthName(k), GrowthName(k + 1));
  }

  /** A loop whose every iteration keeps `P`, which implies a nonempty queue, never ends. */
  lemma {:induction false} LoopingNeverEnds(next: Work -> Work, P: Work -> bool, w: Work, fuel: nat)
    requires forall v: Work {:trigger P(v)} :: P(v) ==> v.queue != []
    requires forall v: Work {:trigger next(v)} :: P(v) ==> P(next(v))
    requires P(w)
    ensures Iterate(next, w, fuel) == None
    decreases fuel
  {
    if fuel > 0 {
      LoopingNeverEnds(next, P, next(w), fuel - 1);
    }
  }

  /** `toDeterministic` never ends on an automaton with the transitions of `Growth` from `x`. */
  lemma GrowthLike(a: Automaton, fuel: nat)
    requires Outgoing(a.transitions, "x", "a") == ["x", "y"] && Outgoing(a.transitions, "y", "a") == ["x", "y"]
    requires Effects(a) == ["a"] && a.initialState == "x"
    ensures Determinize(a, fuel) == None
  {
    var P := (v: Work) => exists j: nat :: Looping(v, j);
    forall v: Work | P(v) ensures v.queue != [] && P(Iteration(a)(v)) {
      var j: nat :| Looping(v, j);
      assert Iteration(a)(v) == Step(a, v);
      GrowthStep(a, v, j);
    }
    assert GrowthName(0) == "x";
    assert Looping(Start(a), 0);
    LoopingNeverEnds(Iteration(a), P, Start(a), fuel);
  }

  lemma ElementAt<T>(s: seq<T>, i: nat)
    ensures i < |s| ==> s[i] in s
  {
  }

  /** An automaton whose transitions all share one effect has that effect as its alphabet. */
  lemma SingleEffect(a: Automaton, e: string)
    requires a.transitions != [] && forall t :: t in a.transitions ==> t.effect == e
    ensures Effects(a) == [e]
  {
    var r := Effects(a);
    assert a.transitions[0] in a.transitions;
    assert e in r;
    forall x | x in r ensures x == e {
      var i :| 0 <= i < |a.transitions| && a.transitions[i].effect == x;
      assert a.transitions[i] in a.transitions;
    }
    ElementAt(r, 0);
    ElementAt(r, 1);
  }

  /** `toDeterministic` on `Growth` does not end, however many iterations it is given. */
  lemma GrowthDoesNotEnd(fuel: nat)
    ensures Determinize(Growth, fuel) == None
  {
    OutgoingGrowth();
    SingleEffect(Growth, "a");
    GrowthLike(Growth, fuel);
  }
}
