/**
 * Finite automata over string-named states and effects: the effect alphabet, the projection to a
 * right-linear grammar, the determinism check and the subset construction, whose composite states
 * are named by listing their constituents in braces.
 */
module StateMachine {
  import opened Common
  import opened Vocabulary

  datatype Transition = Transition(from: string, to: string, effect: string)

  datatype Automaton = Automaton(initialState: string, states: seq<string>, transitions: seq<Transition>, finalStates: seq<string>)

  // ---------------------------------------------------------------------------
  // The effect alphabet
  // ---------------------------------------------------------------------------

  /** `transitions.map(t => t.effect)`. */
  function EffectList(ts: seq<Transition>): (r: seq<string>)
    ensures |r| == |ts| && forall i :: 0 <= i < |ts| ==> r[i] == ts[i].effect
  {
    seq(|ts|, i requires 0 <= i < |ts| => ts[i].effect)
  }

  /**
   * The alphabet computed by the constructor, `[...new Set(transitions.map(t => t.effect))]`:
   * every effect of a transition once, in the order of first use.
   */
  function Effects(a: Automaton): (r: seq<string>)
    ensures Distinct(r)
    ensures forall e :: e in r ==> exists i :: 0 <= i < |a.transitions| && a.transitions[i].effect == e
    ensures forall t :: t in a.transitions ==> t.effect in r
    ensures IsSubseq(r, EffectList(a.transitions))
    ensures InFirstOccurrenceOrder(r, EffectList(a.transitions))
  {
    var r := Dedup(EffectList(a.transitions));
    assert forall e :: e in r ==> e in EffectList(a.transitions);
    r
  }

  // ---------------------------------------------------------------------------
  // Composite state names
  // ---------------------------------------------------------------------------

  /** `xs.join(",")`. */
  function Join(xs: seq<string>): string {
    if |xs| == 0 then "" else if |xs| == 1 then xs[0] else xs[0] + "," + Join(xs[1..])
  }

  /** `s.split(",")`: the pieces between commas; the empty string splits into one empty piece. */
  function Split(s: string): (r: seq<string>)
    ensures |r| > 0
  {
    if |s| == 0 then [""]
    else if s[0] == ',' then [""] + Split(s[1..])
    else
      var rest := Split(s[1..]);
      [[s[0]] + rest[0]] + rest[1..]
  }

  /** `formatCompositeState`: no name for no state, a single state keeps its name, more are braced. */
  function Format(states: seq<string>): string {
    if |states| == 0 then ""
    else if |states| == 1 then states[0]
    else "{" + Join(states) + "}"
  }

  /** `state.startsWith("{") && state.endsWith("}")`. */
  predicate IsBraced(s: string) {
    |s| > 0 && s[0] == '{' && s[|s| - 1] == '}'
  }

  /** `unpackCompositeState`: the constituents of a braced name, or the name itself. */
  function Unpack(s: string): (r: seq<string>)
    ensures |r| > 0
  {
    if IsBraced(s) then Split(s[1..|s| - 1]) else [s]
  }

  /** A name that can stand as a constituent: non-empty, without commas, not braced. */
  predicate IsPlainName(x: string) {
    x != "" && ',' !in x && !IsBraced(x)
  }

  lemma {:induction false} SplitPlain(x: string)
    requires ',' !in x
    ensures Split(x) == [x]
    decreases |x|
  {
    if |x| > 0 {
      SplitPlain(x[1..]);
      assert [x[0]] + x[1..] == x;
    }
  }

  lemma {:induction false} SplitAfter(x: string, rest: string)
    requires ',' !in x
    ensures Split(x + "," + rest) == [x] + Split(rest)
    decreases |x|
  {
    if |x| == 0 {
      assert x + "," + rest == [','] + rest;
      assert (x + "," + rest)[1..] == rest;
    } else {
      var s := x + "," + rest;
      assert s[0] == x[0] && s[1..] == x[1..] + "," + rest;
      SplitAfter(x[1..], rest);
      assert [x[0]] + x[1..] == x;
    }
  }

  /** Splitting a join of comma-free names gives the names back. */
  lemma {:induction false} SplitJoin(xs: seq<string>)
    requires |xs| > 0 && forall x :: x in xs ==> ',' !in x
    ensures Split(Join(xs)) == xs
    decreases |xs|
  {
    if |xs| == 1 {
      SplitPlain(xs[0]);
    } else {
      SplitJoin(xs[1..]);
      SplitAfter(xs[0], Join(xs[1..]));
      assert [xs[0]] + xs[1..] == xs;
    }
  }

  /** Formatting then unpacking a non-empty list of plain names gives the list back. */
  lemma UnpackFormat(xs: seq<string>)
    requires |xs| > 0 && forall x :: x in xs ==> IsPlainName(x)
    ensures Unpack(Format(xs)) == xs
  {
    if |xs| > 1 {
      var s := Format(xs);
      assert s[1..|s| - 1] == Join(xs);
      SplitJoin(xs);
    } else {
      assert xs[0] in xs && xs == [xs[0]];
    }
  }

  /** Only the empty list and the list of one empty name format to the empty name. */
  lemma FormatEmpty(xs: seq<string>)
    ensures Format(xs) == "" <==> xs == [] || xs == [""]
  {
    if |xs| > 1 {
      assert |Format(xs)| > 0;
      assert |xs| != |[""]|;
    } else if |xs| == 1 {
      assert xs == [xs[0]];
    }
  }

  // ---------------------------------------------------------------------------
  // Projection to a grammar
  // ---------------------------------------------------------------------------

  /** `transitionToProduction`: a move into a final state only emits its effect. */
  function TransitionToProduction(a: Automaton, t: Transition): Production<string> {
    if t.to in a.finalStates then Production(t.from, [t.effect])
    else Production(t.from, [t.effect, t.to])
  }

  /** The `reduce` of `toGrammar`: the productions of the first transitions, in order. */
  function Productions(a: Automaton, ts: seq<Transition>): (r: seq<Production<string>>)
    ensures |r| == |ts|
  {
    if ts == [] then [] else Productions(a, ts[..|ts| - 1]) + [TransitionToProduction(a, ts[|ts| - 1])]
  }

  /** `toGrammar`. */
  function ToGrammar(a: Automaton): Grammar<string> {
    Grammar(a.initialState, Productions(a, a.transitions), a.states, Effects(a))
  }

  lemma {:induction false} ProductionsAt(a: Automaton, ts: seq<Transition>)
    ensures forall i :: 0 <= i < |ts| ==> Productions(a, ts)[i] == TransitionToProduction(a, ts[i])
    decreases |ts|
  {
    if ts != [] {
      ProductionsAt(a, ts[..|ts| - 1]);
    }
  }

  /**
   * The projection has one production per transition, in order, rewriting the source state into
   * the effect followed by the target, the target dropped when it is final; the effect is
   * always a terminal of the projected grammar.
   */
  lemma ToGrammarShape(a: Automaton)
    ensures var g := ToGrammar(a);
      g.start == a.initialState && g.nonTerminal == a.states && g.terminal == Effects(a) &&
      |g.productions| == |a.transitions| &&
      forall i :: 0 <= i < |a.transitions| ==>
        var p, t := g.productions[i], a.transitions[i];
        p.from == t.from && |p.to| > 0 && p.to[0] == t.effect && p.to[0] in g.terminal &&
        (t.to in a.finalStates ==> p.to == [t.effect]) &&
        (t.to !in a.finalStates ==> p.to == [t.effect, t.to])
  {
    ProductionsAt(a, a.transitions);
    assert forall i :: 0 <= i < |a.transitions| ==> a.transitions[i] in a.transitions;
  }

  // ---------------------------------------------------------------------------
  // Determinism
  // ---------------------------------------------------------------------------

  /** No two transitions leave the same state on the same effect. */
  predicate Deterministic(ts: seq<Transition>) {
    forall i, j :: 0 <= i < j < |ts| ==> ts[i].from != ts[j].from || ts[i].effect != ts[j].effect
  }

  /** The `from`/`effect` signatures of the transitions seen so far. */
  function Signatures(ts: seq<Transition>): set<(string, string)> {
    set t | t in ts :: (t.from, t.effect)
  }

  lemma DeterministicExtend(ts: seq<Transition>, t: Transition)
    ensures Deterministic(ts + [t]) <==> Deterministic(ts) && (t.from, t.effect) !in Signatures(ts)
  {
    var us := ts + [t];
    if Deterministic(us) {
      assert forall i, j :: 0 <= i < j < |ts| ==> ts[i] == us[i] && ts[j] == us[j];
      forall u | u in ts ensures (u.from, u.effect) != (t.from, t.effect) {
        var i :| 0 <= i < |ts| && ts[i] == u;
        assert us[i] == u && us[|ts|] == t;
      }
    }
    if Deterministic(ts) && (t.from, t.effect) !in Signatures(ts) {
      forall i, j | 0 <= i < j < |us| ensures us[i].from != us[j].from || us[i].effect != us[j].effect {
        if j == |ts| {
          assert us[i] in ts;
        } else {
          assert us[i] == ts[i] && us[j] == ts[j];
        }
      }
    }
  }

  /** `isDeterministic`: records each transition's signature and flags a repeat. */
  method IsDeterministic(a: Automaton) returns (r: bool)
    ensures r == Deterministic(a.transitions)
  {
    var signatures: set<(string, string)> := {};
    var collision := false;
    for i := 0 to |a.transitions|
      invariant signatures == Signatures(a.transitions[..i])
      invariant collision == !Deterministic(a.transitions[..i])
    {
      var t := a.transitions[i];
      DeterministicExtend(a.transitions[..i], t);
      if (t.from, t.effect) in signatures {
        collision := true;
      }
      signatures := signatures + {(t.from, t.effect)};
      assert a.transitions[..i + 1] == a.transitions[..i] + [t];
    }
    assert a.transitions[..|a.transitions|] == a.transitions;
    r := !collision;
  }

  // ---------------------------------------------------------------------------
  // Subset construction
  // ---------------------------------------------------------------------------

  /** `transitions.filter(t => t.from === s && t.effect === effect).map(t => t.to)`. */
  function Outgoing(ts: seq<Transition>, s: string, e: string): seq<string> {
    if ts == [] then []
    else (if ts[0].from == s && ts[0].effect == e then [ts[0].to] else []) + Outgoing(ts[1..], s, e)
  }

  /** The `reduce` over the constituents: the targets of each constituent on `e`, in order. */
  function Targets(ts: seq<Transition>, us: seq<string>, e: string): seq<string> {
    if us == [] then [] else Targets(ts, us[..|us| - 1], e) + Outgoing(ts, us[|us| - 1], e)
  }

  /** `unpackedState.some(s => finalStates.includes(s))`. */
  predicate IsFinalName(a: Automaton, state: string) {
    SomeIncluded(Unpack(state), a.finalStates)
  }

  /** The name of the state reached from `state` on `e`. */
  function Successor(a: Automaton, state: string, e: string): string {
    Format(Targets(a.transitions, Unpack(state), e))
  }

  /** The transition pushed for one effect, if the successor has a name. */
  function EmitOne(a: Automaton, state: string, e: string): seq<Transition> {
    var n := Successor(a, state, e);
    if n != "" then [Transition(state, n, e)] else []
  }

  /** The transitions pushed for the effects `es`, in order. */
  function Emitted(a: Automaton, state: string, es: seq<string>): seq<Transition> {
    if es == [] then [] else Emitted(a, state, es[..|es| - 1]) + EmitOne(a, state, es[|es| - 1])
  }

  /** The name queued for one effect: a named successor not yet among the visited states. */
  function EnqueueOne(a: Automaton, state: string, visited: seq<string>, e: string): seq<string> {
    var n := Successor(a, state, e);
    if n != "" && n !in visited then [n] else []
  }

  /** The names queued for the effects `es`, in order; the visited states do not change meanwhile. */
  function Enqueued(a: Automaton, state: string, visited: seq<string>, es: seq<string>): seq<string> {
    if es == [] then [] else Enqueued(a, state, visited, es[..|es| - 1]) + EnqueueOne(a, state, visited, es[|es| - 1])
  }

  /**
   * The construction's variables between two iterations: the queue, the visited states and the
   * final ones in insertion order, the transitions pushed so far, and the history of dequeued
   * names, kept to state when the result is deterministic.
   */
  datatype Work = Work(queue: seq<string>, states: seq<string>, transitions: seq<Transition>,
                       finalStates: seq<string>, dequeued: seq<string>)

  function Start(a: Automaton): Work {
    Work([a.initialState], [], [], [], [])
  }

  /** One iteration of the `while` loop of `toDeterministic`. */
  function Step(a: Automaton, w: Work): Work
    requires w.queue != []
  {
    var state := w.queue[0];
    var states := AddOrdered(w.states, state);
    var es := Effects(a);
    Work(w.queue[1..] + Enqueued(a, state, states, es),
         states,
         w.transitions + Emitted(a, state, es),
         if IsFinalName(a, state) then AddOrdered(w.finalStates, state) else w.finalStates,
         w.dequeued + [state])
  }

  /** One iteration as a function on the whole work; a work with an empty queue is left as it is. */
  function Iteration(a: Automaton): Work -> Work {
    (w: Work) => if w.queue == [] then w else Step(a, w)
  }

  /**
   * The loop `while (queue.length)` with the body `next`, run for at most `fuel` iterations;
   * `None` when the queue is still not empty after them.
   */
  function Iterate(next: Work -> Work, w: Work, fuel: nat): Option<Work>
    decreases fuel
  {
    if w.queue == [] then Some(w)
    else if fuel == 0 then None
    else Iterate(next, next(w), fuel - 1)
  }

  /** The construction's loop from `w`, for at most `fuel` iterations. */
  function Run(a: Automaton, w: Work, fuel: nat): Option<Work> {
    Iterate(Iteration(a), w, fuel)
  }

  /** `toDeterministic`, given at most `fuel` iterations. */
  function Determinize(a: Automaton, fuel: nat): Option<Automaton> {
    match Run(a, Start(a), fuel)
    case None => None
    case Some(w) => Some(Automaton(a.initialState, w.states, w.transitions, w.finalStates))
  }

  /** One iteration of the construction, given what it emits and enqueues. */
  lemma StepIs(a: Automaton, w: Work, state: string, es: seq<string>, states: seq<string>,
               emitted: seq<Transition>, queued: seq<string>, final: bool, r: Work)
    requires w.queue != [] && state == w.queue[0] && Effects(a) == es
    requires AddOrdered(w.states, state) == states
    requires Emitted(a, state, es) == emitted
    requires Enqueued(a, state, states, es) == queued
    requires IsFinalName(a, state) == final
    requires r == Work(w.queue[1..] + queued, states, w.transitions + emitted,
      if final then AddOrdered(w.finalStates, state) else w.finalStates, w.dequeued + [state])
    ensures Step(a, w) == r
  {
  }

  lemma RunStep(a: Automaton, w: Work, fuel: nat)
    requires w.queue != [] && fuel > 0
    ensures Run(a, w, fuel) == Run(a, Step(a, w), fuel - 1)
  {
    assert Iteration(a)(w) == Step(a, w);
  }

  /**
   * The `forEach` over the alphabet for one dequeued `state`: pushes a transition for each
   * effect with a named successor and queues the successors not yet visited.
   */
  method Expand(a: Automaton, state: string, visited: seq<string>, effects: seq<string>,
                transitions0: seq<Transition>, queue0: seq<string>)
    returns (transitions: seq<Transition>, queue: seq<string>)
    ensures transitions == transitions0 + Emitted(a, state, effects)
    ensures queue == queue0 + Enqueued(a, state, visited, effects)
  {
    transitions, queue := transitions0, queue0;
    var unpacked := Unpack(state);
    for k := 0 to |effects|
      invariant transitions == transitions0 + Emitted(a, state, effects[..k])
      invariant queue == queue0 + Enqueued(a, state, visited, effects[..k])
    {
      var effect := effects[k];
      var toState := Format(Targets(a.transitions, unpacked, effect));
      assert toState == Successor(a, state, effect);
      assert effects[..k + 1][..k] == effects[..k] && effects[..k + 1][k] == effect;
      assert Emitted(a, state, effects[..k + 1]) == Emitted(a, state, effects[..k]) + EmitOne(a, state, effect);
      assert Enqueued(a, state, visited, effects[..k + 1])
        == Enqueued(a, state, visited, effects[..k]) + EnqueueOne(a, state, visited, effect);
      if toState != "" {
        transitions := transitions + [Transition(state, toState, effect)];
        if toState !in visited {
          queue := queue + [toState];
        }
      }
    }
    assert effects[..|effects|] == effects;
  }

  /**
   * One iteration of the `while` loop of `toDeterministic`: dequeues the head of the queue,
   * records it as a state (and as a final state when one of its constituents is final) and
   * expands it over the alphabet `effects`.
   */
  method Dequeue(a: Automaton, effects: seq<string>, w: Work) returns (r: Work)
    requires w.queue != [] && effects == Effects(a)
    ensures r == Step(a, w)
  {
    var state := w.queue[0];
    var states := AddOrdered(w.states, state);
    var finalStates := w.finalStates;
    var unpacked := Unpack(state);
    if SomeIncluded(unpacked, a.finalStates) {
      finalStates := AddOrdered(finalStates, state);
    }
    var transitions, queue := Expand(a, state, states, effects, w.transitions, w.queue[1..]);
    r := Work(queue, states, transitions, finalStates, w.dequeued + [state]);
  }

  /**
   * The `while` loop of `toDeterministic`, run from `w` for at most `fuel` iterations. Its
   * specification names one iteration `next`, any function that agrees with `Step`.
   */
  method Drain(a: Automaton, effects: seq<string>, ghost next: Work -> Work, w: Work, fuel: nat)
    returns (r: Option<Work>)
    requires effects == Effects(a)
    requires forall v: Work {:trigger Step(a, v)} :: v.queue != [] ==> next(v) == Step(a, v)
    ensures r == Iterate(next, w, fuel)
  {
    var work := w;
    var budget := fuel;
    while work.queue != []
      invariant Iterate(next, w, fuel) == Iterate(next, work, budget)
      decreases budget
    {
      if budget == 0 {
        return None;
      }
      work := Dequeue(a, effects, work);
      budget := budget - 1;
    }
    return Some(work);
  }

  /**
   * `toDeterministic`: a breadth-first walk from the initial state that names each set of
   * targets by `formatCompositeState`. Names are not canonical, so the walk need not end; it is
   * given at most `fuel` iterations and reports `None` when they run out.
   */
  method ToDeterministic(a: Automaton, fuel: nat) returns (r: Option<Automaton>)
    ensures r == Determinize(a, fuel)
  {
    var effects := Effects(a);
    var done := Drain(a, effects, Iteration(a), Start(a), fuel);
    if done.None? {
      return None;
    }
    var w := done.value;
    return Some(Automaton(a.initialState, w.states, w.transitions, w.finalStates));
  }

  // ---------------------------------------------------------------------------
  // Properties of the subset construction
  // ---------------------------------------------------------------------------

  lemma {:induction false} OutgoingMembers(ts: seq<Transition>, s: string, e: string, x: string)
    ensures x in Outgoing(ts, s, e) <==> exists t :: t in ts && t.from == s && t.effect == e && t.to == x
    decreases |ts|
  {
    if ts != [] {
      OutgoingMembers(ts[1..], s, e, x);
      assert forall t :: t in ts ==> t == ts[0] || t in ts[1..];
    }
  }

  /** The targets on `e` of a list of constituents are the targets on `e` of its members. */
  lemma {:induction false} TargetsMembers(ts: seq<Transition>, us: seq<string>, e: string, x: string)
    ensures x in Targets(ts, us, e) <==> exists t :: t in ts && t.from in us && t.effect == e && t.to == x
    decreases |us|
  {
    if us != [] {
      var init, last := us[..|us| - 1], us[|us| - 1];
      TargetsMembers(ts, init, e, x);
      OutgoingMembers(ts, last, e, x);
      assert forall u :: u in us <==> u in init || u == last by {
        assert us == init + [last];
      }
    }
  }

  /**
   * For one dequeued state, exactly the effects of `es` with a named successor produce a
   * transition, from that state to that successor.
   */
  lemma {:induction false} EmittedMembers(a: Automaton, state: string, es: seq<string>, t: Transition)
    ensures t in Emitted(a, state, es) <==>
      t.from == state && t.effect in es && t.to == Successor(a, state, t.effect) && t.to != ""
    decreases |es|
  {
    if es != [] {
      var init, last := es[..|es| - 1], es[|es| - 1];
      EmittedMembers(a, state, init, t);
      assert es == init + [last];
    }
  }

  /** At most one transition per effect: the alphabet has no repeats, so neither do the emitted effects. */
  lemma {:induction false} EmittedDeterministic(a: Automaton, state: string, es: seq<string>)
    requires Distinct(es)
    ensures Deterministic(Emitted(a, state, es))
    decreases |es|
  {
    if es != [] {
      var init, last := es[..|es| - 1], es[|es| - 1];
      assert es == init + [last];
      assert Distinct(init);
      EmittedDeterministic(a, state, init);
      var head := Emitted(a, state, init);
      var one := EmitOne(a, state, last);
      var all: seq<Transition> := head + one;
      forall i, j | 0 <= i < j < |all|
        ensures all[i].from != all[j].from || all[i].effect != all[j].effect
      {
        if j >= |head| {
          assert all[j] == one[0] && one[0].effect == last;
          assert all[i] == head[i] && head[i] in head;
          EmittedMembers(a, state, init, head[i]);
        } else {
          assert all[i] == head[i] && all[j] == head[j];
        }
      }
    }
  }

  /** Every emitted successor is visited already or queued. */
  lemma {:induction false} EmittedTargetsQueued(a: Automaton, state: string, visited: seq<string>, es: seq<string>)
    ensures forall t :: t in Emitted(a, state, es) ==> t.to in visited || t.to in Enqueued(a, state, visited, es)
    decreases |es|
  {
    if es != [] {
      EmittedTargetsQueued(a, state, visited, es[..|es| - 1]);
    }
  }

  lemma DeterministicAppend(ts: seq<Transition>, us: seq<Transition>, state: string)
    requires Deterministic(ts) && Deterministic(us)
    requires forall t :: t in ts ==> t.from != state
    requires forall u :: u in us ==> u.from == state
    ensures Deterministic(ts + us)
  {
    var vs := ts + us;
    forall i, j | 0 <= i < j < |vs| ensures vs[i].from != vs[j].from || vs[i].effect != vs[j].effect {
      if j < |ts| {
        assert vs[i] == ts[i] && vs[j] == ts[j];
      } else if i >= |ts| {
        assert vs[i] == us[i - |ts|] && vs[j] == us[j - |ts|];
      } else {
        assert vs[i] == ts[i] && ts[i] in ts && vs[j] == us[j - |ts|] && us[j - |ts|] in us;
      }
    }
  }

  /** What holds of the construction's variables between any two iterations. */
  ghost predicate Inv(a: Automaton, w: Work) {
    (forall t :: t in w.transitions ==> t.from in w.states) &&
    (forall t :: t in w.transitions ==> t.to in w.states || t.to in w.queue) &&
    (forall t :: t in w.transitions ==> t.to != "" && t.effect in Effects(a)) &&
    (forall t :: t in w.transitions ==> t.to == Successor(a, t.from, t.effect)) &&
    (forall s, e :: s in w.dequeued && e in Effects(a) && Successor(a, s, e) != "" ==>
      Transition(s, Successor(a, s, e), e) in w.transitions) &&
    (forall s :: s in w.finalStates ==> s in w.states && IsFinalName(a, s)) &&
    (forall s :: s in w.states && IsFinalName(a, s) ==> s in w.finalStates) &&
    Distinct(w.states) && Distinct(w.finalStates) &&
    (forall s :: s in w.states ==> s in w.dequeued) &&
    (forall s :: s in w.dequeued ==> s in w.states) &&
    (Distinct(w.dequeued) ==> Deterministic(w.transitions))
  }

  lemma StepInv(a: Automaton, w: Work)
    requires w.queue != [] && Inv(a, w)
    ensures Inv(a, Step(a, w))
  {
    var state := w.queue[0];
    var w' := Step(a, w);
    var es := Effects(a);
    var added := Emitted(a, state, es);
    forall t | t in added
      ensures t.from == state && t.to != "" && t.effect in es && t.to == Successor(a, state, t.effect)
    {
      EmittedMembers(a, state, es, t);
    }
    forall s, e | s in w'.dequeued && e in es && Successor(a, s, e) != ""
      ensures Transition(s, Successor(a, s, e), e) in w'.transitions
    {
      if s !in w.dequeued {
        assert s == state;
        EmittedMembers(a, state, es, Transition(s, Successor(a, s, e), e));
      }
    }
    EmittedTargetsQueued(a, state, w'.states, es);
    forall t | t in w'.transitions
      ensures t.to in w'.states || t.to in w'.queue
    {
      if t !in w.transitions {
        assert t in added;
      } else if t.to !in w.states && t.to != state {
        assert t.to in w.queue && t.to != w.queue[0];
        assert t.to in w.queue[1..];
      }
    }
    if Distinct(w'.dequeued) {
      assert Distinct(w.dequeued) by {
        forall i, j | 0 <= i < j < |w.dequeued| ensures w.dequeued[i] != w.dequeued[j] {
          assert w'.dequeued[i] == w.dequeued[i] && w'.dequeued[j] == w.dequeued[j];
        }
      }
      assert state !in w.dequeued by {
        forall i | 0 <= i < |w.dequeued| ensures w.dequeued[i] != state {
          assert w'.dequeued[i] == w.dequeued[i] && w'.dequeued[|w.dequeued|] == state;
        }
      }
      EmittedDeterministic(a, state, es);
      DeterministicAppend(w.transitions, added, state);
    }
  }

  /** A property of the work that every iteration keeps holds of the work the loop ends with. */
  lemma {:induction false} IteratePreserves(next: Work -> Work, w: Work, fuel: nat, P: Work -> bool)
    requires forall v {:trigger next(v)} :: P(v) && v.queue != [] ==> P(next(v))
    requires P(w) && Iterate(next, w, fuel).Some?
    ensures P(Iterate(next, w, fuel).value)
    decreases fuel
  {
    if w.queue != [] {
      IteratePreserves(next, next(w), fuel - 1, P);
    }
  }

  /** The loop ends only with an empty queue. */
  lemma {:induction false} IterateDrains(next: Work -> Work, w: Work, fuel: nat)
    requires Iterate(next, w, fuel).Some?
    ensures Iterate(next, w, fuel).value.queue == []
    decreases fuel
  {
    if w.queue != [] {
      IterateDrains(next, next(w), fuel - 1);
    }
  }

  lemma RunInv(a: Automaton, w: Work, fuel: nat)
    requires Inv(a, w) && Run(a, w, fuel).Some?
    ensures Inv(a, Run(a, w, fuel).value) && Run(a, w, fuel).value.queue == []
  {
    forall v | Inv(a, v) && v.queue != [] ensures Inv(a, Iteration(a)(v)) {
      StepInv(a, v);
    }
    IteratePreserves(Iteration(a), w, fuel, v => Inv(a, v));
    IterateDrains(Iteration(a), w, fuel);
  }

  /** Visited states stay visited. */
  lemma RunGrows(a: Automaton, w: Work, fuel: nat)
    requires Run(a, w, fuel).Some?
    ensures forall s :: s in w.states ==> s in Run(a, w, fuel).value.states
  {
    var P := (v: Work) => forall s :: s in w.states ==> s in v.states;
    forall v | P(v) && v.queue != [] ensures P(Iteration(a)(v)) {
      assert Iteration(a)(v) == Step(a, v);
    }
    IteratePreserves(Iteration(a), w, fuel, P);
  }

  /**
   * What `toDeterministic` returns: the original initial state, visited once each; every
   * transition joins two visited states on an effect of the alphabet and leads to the named
   * successor of its source on that effect; every visited state has that transition for each
   * effect with a named successor; a visited state is final exactly when one of its
   * constituents is final.
   */
  lemma DeterminizeSound(a: Automaton, fuel: nat)
    requires Determinize(a, fuel).Some?
    ensures var d := Determinize(a, fuel).value;
      d.initialState == a.initialState && a.initialState in d.states && Distinct(d.states) &&
      (forall t :: t in d.transitions ==>
        t.from in d.states && t.to in d.states && t.to != "" && t.effect in Effects(a)) &&
      (forall t :: t in d.transitions ==> t.to == Successor(a, t.from, t.effect)) &&
      (forall s, e :: s in d.states && e in Effects(a) && Successor(a, s, e) != "" ==>
        Transition(s, Successor(a, s, e), e) in d.transitions) &&
      (forall s :: s in d.finalStates ==> s in d.states && IsFinalName(a, s)) &&
      (forall s :: s in d.states && IsFinalName(a, s) ==> s in d.finalStates)
  {
    var w := Run(a, Start(a), fuel).value;
    RunFromStart(a, fuel);
    FinishedWork(a, w);
    assert Determinize(a, fuel).value == Automaton(a.initialState, w.states, w.transitions, w.finalStates);
  }

  lemma RunFromStart(a: Automaton, fuel: nat)
    requires Run(a, Start(a), fuel).Some?
    ensures Inv(a, Run(a, Start(a), fuel).value) && Run(a, Start(a), fuel).value.queue == []
    ensures a.initialState in Run(a, Start(a), fuel).value.states
  {
    StartInv(a);
    RunInv(a, Start(a), fuel);
    StartVisitsInitial(a, fuel);
  }

  lemma StartInv(a: Automaton)
    ensures Inv(a, Start(a))
  {
  }

  lemma StepVisits(a: Automaton, w: Work)
    requires w.queue != []
    ensures w.queue[0] in Step(a, w).states
  {
  }

  /** The head of the queue is visited by the time the loop ends. */
  lemma FirstVisited(a: Automaton, w: Work, fuel: nat)
    requires w.queue != [] && Run(a, w, fuel).Some?
    ensures w.queue[0] in Run(a, w, fuel).value.states
  {
    var first := w.queue[0];
    var P := (v: Work) => (v.queue == w.queue && v.states == w.states) || first in v.states;
    forall v | P(v) && v.queue != [] ensures P(Iteration(a)(v)) {
      StepVisits(a, v);
      assert Iteration(a)(v) == Step(a, v);
    }
    IteratePreserves(Iteration(a), w, fuel, P);
    IterateDrains(Iteration(a), w, fuel);
  }

  lemma StartVisitsInitial(a: Automaton, fuel: nat)
    requires Run(a, Start(a), fuel).Some?
    ensures a.initialState in Run(a, Start(a), fuel).value.states
  {
    FirstVisited(a, Start(a), fuel);
  }

  lemma FinishedWork(a: Automaton, w: Work)
    requires Inv(a, w) && w.queue == []
    ensures Distinct(w.states)
    ensures forall t :: t in w.transitions ==>
      t.from in w.states && t.to in w.states && t.to != "" && t.effect in Effects(a)
    ensures forall t :: t in w.transitions ==> t.to == Successor(a, t.from, t.effect)
    ensures forall s, e :: s in w.states && e in Effects(a) && Successor(a, s, e) != "" ==>
      Transition(s, Successor(a, s, e), e) in w.transitions
    ensures forall s :: s in w.finalStates ==> s in w.states && IsFinalName(a, s)
    ensures forall s :: s in w.states && IsFinalName(a, s) ==> s in w.finalStates
  {
  }

  /**
   * When no name is dequeued twice, which the work queue does not rule out by itself, the
   * result is deterministic.
   */
  lemma DeterminizeDeterministic(a: Automaton, fuel: nat)
    requires Run(a, Start(a), fuel).Some? && Distinct(Run(a, Start(a), fuel).value.dequeued)
    ensures Deterministic(Determinize(a, fuel).value.transitions)
  {
    RunInv(a, Start(a), fuel);
  }
}
