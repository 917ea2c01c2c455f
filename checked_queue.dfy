/**
 * The subset construction with the check the work queue is missing: a successor is enqueued
 * only when it is neither visited nor already waiting in the queue. Every name is then dequeued
 * once, and the result is deterministic whenever the construction ends.
 */
module CheckedQueue {
  import opened Common
  import opened StateMachine

  /** The queue after the successor on `e` is pushed, unless it is unnamed, visited or waiting. */
  function EnqueueFresh(a: Automaton, state: string, visited: seq<string>, queue: seq<string>, e: string): (r: seq<string>)
    ensures Distinct(queue) ==> Distinct(r)
    ensures |queue| <= |r| && r[..|queue|] == queue
    ensures forall n :: n in r ==> n in queue || n !in visited
  {
    var n := Successor(a, state, e);
    if n != "" && n !in visited && n !in queue then queue + [n] else queue
  }

  /**
   * The queue after the `forEach` over the effects `es`: each effect sees the names the earlier
   * ones pushed, while the visited states stay as they are.
   */
  function EnqueueAll(a: Automaton, state: string, visited: seq<string>, queue: seq<string>, es: seq<string>): (r: seq<string>)
    ensures Distinct(queue) ==> Distinct(r)
    ensures |queue| <= |r| && r[..|queue|] == queue
    ensures forall n :: n in r ==> n in queue || n !in visited
    decreases |es|
  {
    if es == [] then queue
    else
      var before := EnqueueAll(a, state, visited, queue, es[..|es| - 1]);
      var r := EnqueueFresh(a, state, visited, before, es[|es| - 1]);
      assert r[..|queue|] == before[..|before|][..|queue|];
      r
  }

  /** One iteration of the loop with the queue checked before each push. */
  function StepOnce(a: Automaton, w: Work): Work
    requires w.queue != []
  {
    var state := w.queue[0];
    var states := AddOrdered(w.states, state);
    var es := Effects(a);
    Work(EnqueueAll(a, state, states, w.queue[1..], es),
         states,
         w.transitions + Emitted(a, state, es),
         if IsFinalName(a, state) then AddOrdered(w.finalStates, state) else w.finalStates,
         w.dequeued + [state])
  }

  function IterationOnce(a: Automaton): Work -> Work {
    (w: Work) => if w.queue == [] then w else StepOnce(a, w)
  }

  /** The construction with the checked queue, for at most `fuel` iterations. */
  function DeterminizeOnce(a: Automaton, fuel: nat): Option<Automaton> {
    match Iterate(IterationOnce(a), Start(a), fuel)
    case None => None
    case Some(w) => Some(Automaton(a.initialState, w.states, w.transitions, w.finalStates))
  }

  /**
   * Between iterations: the waiting names are distinct and none has been dequeued, no name has
   * been dequeued twice, every dequeued name is visited, and the transitions leave dequeued
   * names without two of them sharing a source and an effect.
   */
  ghost predicate OnceInv(w: Work) {
    Distinct(w.queue) && Distinct(w.dequeued) &&
    (forall q :: q in w.queue ==> q !in w.dequeued) &&
    (forall s :: s in w.dequeued ==> s in w.states) &&
    (forall t :: t in w.transitions ==> t.from in w.dequeued) &&
    Deterministic(w.transitions)
  }

  lemma StepOnceInv(a: Automaton, w: Work)
    requires w.queue != [] && OnceInv(w)
    ensures OnceInv(StepOnce(a, w))
  {
    var state := w.queue[0];
    var w' := StepOnce(a, w);
    var es := Effects(a);
    var added := Emitted(a, state, es);
    assert w.queue == [state] + w.queue[1..];
    assert state !in w.queue[1..] by {
      forall i | 0 <= i < |w.queue[1..]| ensures w.queue[1..][i] != state {
        assert w.queue[1..][i] == w.queue[i + 1];
      }
    }
    assert Distinct(w.queue[1..]) by {
      forall i, j | 0 <= i < j < |w.queue[1..]| ensures w.queue[1..][i] != w.queue[1..][j] {
        assert w.queue[1..][i] == w.queue[i + 1] && w.queue[1..][j] == w.queue[j + 1];
      }
    }
    assert Distinct(w'.dequeued) by {
      forall i, j | 0 <= i < j < |w'.dequeued| ensures w'.dequeued[i] != w'.dequeued[j] {
        if j < |w.dequeued| {
          assert w'.dequeued[i] == w.dequeued[i] && w'.dequeued[j] == w.dequeued[j];
        } else {
          assert w'.dequeued[i] == w.dequeued[i];
        }
      }
    }
    forall t | t in added ensures t.from == state {
      EmittedMembers(a, state, es, t);
    }
    EmittedDeterministic(a, state, es);
    DeterministicAppend(w.transitions, added, state);
  }

  /** Whenever the checked construction ends, its result is deterministic. */
  lemma DeterminizeOnceDeterministic(a: Automaton, fuel: nat)
    requires DeterminizeOnce(a, fuel).Some?
    ensures Deterministic(DeterminizeOnce(a, fuel).value.transitions)
  {
    forall v | OnceInv(v) && v.queue != [] ensures OnceInv(IterationOnce(a)(v)) {
      StepOnceInv(a, v);
      assert IterationOnce(a)(v) == StepOnce(a, v);
    }
    assert OnceInv(Start(a));
    IteratePreserves(IterationOnce(a), Start(a), fuel, (v: Work) => OnceInv(v));
  }
}
