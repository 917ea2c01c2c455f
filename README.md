# FLFA labs core in Dafny

A model of the formal-languages core of the FLFA labs repository. It covers four parts:

- **Finite automata** (`src/state-machine/automaton.ts`). The effect alphabet, the projection of
  an automaton to a right-linear grammar, the determinism check, and the subset construction
  `toDeterministic`. The construction names composite states `{q2,q3}` by listing their
  constituents.
- **Grammars with string-sequence left sides** (`src/grammar/grammar.ts`). Cloning, the Chomsky
  classification (regular, context-free, context-sensitive, recursive), and the
  `withoutRighthandStart` pass.
- **Combinatorics used by null-production elimination** (`src/grammar/utilities.ts`).
  `areArraysEqual`, the memoised depth-first `getCombinations`, and `combinationsWithout`.
- **The right-linear recognizer** (`src/parser/language-parser.ts`, with `src/parser/input.ts`
  and the grammar types of `src/grammar/index.ts`).

Modules:

| file | module | models |
|---|---|---|
| `common.dfy` | `Common` | `Option`; distinctness; subsequences; the order-preserving `Set` (`AddOrdered`, `Dedup`) |
| `vocabulary.dfy` | `Vocabulary` | the generic `Production`/`Grammar` of `src/grammar/index.ts` |
| `state_machine.dfy` | `StateMachine` | automata (see below) |
| `checked_queue.dfy` | `CheckedQueue` | the subset construction with a corrected queue check |
| `grammars.dfy` | `Grammars` | the `Grammar` class of `grammar.ts` |
| `utilities.dfy` | `Utilities` | `utilities.ts` |
| `language_parser.dfy` | `LanguageParser` | the recognizer |
| `*_examples.dfy` | — | the repository's tests and fixtures, computed on the model |

In `StateMachine`, `Automaton` is a datatype: the source object never changes after
construction. The loops that work step by step are methods, each proved equal to a function
that specifies it:

- `isDeterministic` is the method `IsDeterministic`, specified by `Deterministic`.
- The `while` loop of `toDeterministic` is the method `Drain`, specified by `Iterate`.
- One iteration of that loop is `Dequeue`, specified by `Step`.
- The `forEach` over the alphabet is `Expand`, specified by `Emitted`/`Enqueued`.

In `Utilities`, the recursive `combinations` closure with its `Map` memo is the method `Visit`
with its `while` loop, specified by the mutually recursive `Explore`/`ExploreFrom`.

## Model

| member | source | states |
|---|---|---|
| Common.AddOrdered | src/state-machine/automaton.ts:99 | `Set.add` on an insertion-ordered set: the element is present afterwards, nothing else is new, nothing is lost, and distinctness is kept |
| Common.Dedup | src/state-machine/automaton.ts:44 | `[...new Set(xs)]`: distinct, exactly the members of `xs`, a subsequence of `xs` keeping its first element, and in first-occurrence order: every occurrence of a later element comes after an occurrence of an earlier one |
| Common.DedupAppend | src/state-machine/automaton.ts:44 | building the set one element at a time: deduplicating `s + [x]` equals adding `x` to the deduplicated `s` |
| Common.DedupDistinct | src/grammar/utilities.ts:34-36 | the keep-first filter leaves a list without repeats unchanged |
| Common.SomeIncludedMeans | src/state-machine/automaton.ts:102 | `xs.some(s => ys.includes(s))` holds exactly when the two lists share an element |
| StateMachine.EffectList | src/state-machine/automaton.ts:44 | `transitions.map(t => t.effect)`: same length, the i-th effect at index i |
| StateMachine.Effects | src/state-machine/automaton.ts:44 | the alphabet has no repeats, contains the effect of every transition and nothing else, and lists the effects in the order of their first use |
| StateMachine.Format | src/state-machine/automaton.ts:9-17 | `formatCompositeState`: no states give the empty name, one state keeps its name, more are comma-joined in braces in the order given, with no sorting or deduplication; `UnpackFormat` and `FormatEmpty` state its round trip and its empty case |
| StateMachine.Split | src/state-machine/automaton.ts:21 | `split(",")` never returns an empty list |
| StateMachine.Unpack | src/state-machine/automaton.ts:19-24 | unpacking a name always yields at least one constituent |
| StateMachine.SplitJoin | src/state-machine/automaton.ts:16-21 | splitting a comma join of comma-free names gives the names back |
| StateMachine.UnpackFormat | src/state-machine/automaton.ts:9-24 | formatting then unpacking a non-empty list of plain names (non-empty, comma-free, not braced) gives the list back |
| StateMachine.FormatEmpty | src/state-machine/automaton.ts:9-17 | a list formats to the empty name exactly when it is empty or is the single empty name |
| StateMachine.TransitionToProduction | src/state-machine/automaton.ts:47-59 | a transition becomes `from -> effect` when its target is final and `from -> effect to` otherwise; `ToGrammarShape` states this for every transition |
| StateMachine.ToGrammar | src/state-machine/automaton.ts:61-75 | `toGrammar`: the initial state as start, the projected transitions in order, the states as nonterminals and the alphabet as terminals; stated by `ToGrammarShape` |
| StateMachine.Productions | src/state-machine/automaton.ts:62-67 | the `reduce` gives one production per transition |
| StateMachine.ProductionsAt | src/state-machine/automaton.ts:47-67 | the i-th production is the projection of the i-th transition |
| StateMachine.ToGrammarShape | src/state-machine/automaton.ts:47-75 | the grammar starts at the initial state, has the states as nonterminals and the alphabet as terminals, and maps a move into a final state to `from -> effect` and any other move to `from -> effect to` |
| StateMachine.Deterministic | src/state-machine/automaton.ts:77-89 | the reference meaning of `isDeterministic`: no two transition positions share a source and an effect; the loop `IsDeterministic` is proved to compute it |
| StateMachine.DeterministicExtend | src/state-machine/automaton.ts:80-86 | appending a transition keeps determinism exactly when its `from`/`effect` signature is new |
| StateMachine.IsDeterministic | src/state-machine/automaton.ts:77-89 | the signature loop answers true exactly when no two transitions share a source and an effect |
| StateMachine.Step | src/state-machine/automaton.ts:97-128 | one iteration of the `while` loop: shift the head, add it to the visited states and, when a constituent is final, to the final states, push one transition per alphabet effect with a named successor and queue the unvisited successors; `StepInv` and `EmittedMembers` state what it keeps and emits |
| StateMachine.Iterate | src/state-machine/automaton.ts:97 | `while (queue.length > 0)` with a given body, run for at most `fuel` iterations; `IteratePreserves` and `IterateDrains` are its loop rules |
| StateMachine.Determinize | src/state-machine/automaton.ts:91-132 | `toDeterministic` as a function: the loop from the initial state, then the automaton of the initial state, the visited states, the pushed transitions and the final states; `None` when the fuel runs out; `DeterminizeSound` and `DeterminizeDeterministic` state its meaning |
| StateMachine.Expand | src/state-machine/automaton.ts:108-127 | the `forEach` over the alphabet appends exactly the emitted transitions and the queued names, in alphabet order |
| StateMachine.Dequeue | src/state-machine/automaton.ts:98-127 | one loop iteration computes `Step` |
| StateMachine.Drain | src/state-machine/automaton.ts:97-128 | the `while` loop computes `Iterate` of the iteration for at most `fuel` iterations |
| StateMachine.ToDeterministic | src/state-machine/automaton.ts:91-132 | the method returns `Determinize`: the automaton built from the final work, or `None` if the fuel runs out |
| StateMachine.OutgoingMembers | src/state-machine/automaton.ts:110-113 | the filtered targets are exactly the targets of the transitions leaving `s` on `e` |
| StateMachine.TargetsMembers | src/state-machine/automaton.ts:109-114 | the targets of a composite state are the targets of its constituents on `e` |
| StateMachine.EmittedMembers | src/state-machine/automaton.ts:116-122 | an emitted transition leaves the dequeued state on an effect of the alphabet and has a named target, the formatted successor |
| StateMachine.EmittedDeterministic | src/state-machine/automaton.ts:108-122 | one state's pushed transitions never share an effect |
| StateMachine.EmittedTargetsQueued | src/state-machine/automaton.ts:117-125 | every pushed transition's target is visited or queued |
| StateMachine.DeterministicAppend | src/state-machine/automaton.ts:118-122 | adding a new source's deterministic transitions to deterministic ones stays deterministic |
| StateMachine.StepInv | src/state-machine/automaton.ts:97-128 | one iteration preserves the loop invariant `Inv` |
| StateMachine.IteratePreserves | src/state-machine/automaton.ts:97-128 | a property that each iteration preserves holds when the loop ends |
| StateMachine.IterateDrains | src/state-machine/automaton.ts:97 | the loop ends only with an empty queue |
| StateMachine.RunInv | src/state-machine/automaton.ts:97-128 | the invariant holds at loop exit and the queue is empty |
| StateMachine.RunGrows | src/state-machine/automaton.ts:99 | visited states stay visited |
| StateMachine.FirstVisited | src/state-machine/automaton.ts:98-99 | the head of the queue is visited by the time the loop ends |
| StateMachine.StartVisitsInitial | src/state-machine/automaton.ts:92 | the initial state is among the resulting states |
| StateMachine.DeterminizeSound | src/state-machine/automaton.ts:91-132 | the result keeps the initial state and lists each state once; every transition joins two of its states on an alphabet effect and leads to the named subset successor of its source; every state has its transition for each effect with a named successor; a state is final iff one of its constituents is |
| StateMachine.DeterminizeDeterministic | src/state-machine/automaton.ts:91-132 | the result is deterministic whenever no name was dequeued twice |
| CheckedQueue.StepOnce | src/state-machine/automaton.ts:97-128 | the corrected iteration: as `Step`, but a successor is queued only when it is neither visited nor already waiting (corrects lines 123-125) |
| CheckedQueue.DeterminizeOnce | src/state-machine/automaton.ts:91-132 | the corrected construction, built from `StepOnce`; `DeterminizeOnceDeterministic` states that its result is deterministic |
| CheckedQueue.EnqueueFresh | src/state-machine/automaton.ts:123-125 | the corrected push keeps the queue duplicate-free, extends it, and adds no visited name |
| CheckedQueue.EnqueueAll | src/state-machine/automaton.ts:108-127 | the corrected `forEach` keeps the queue duplicate-free, extends it, and adds no visited name |
| CheckedQueue.StepOnceInv | src/state-machine/automaton.ts:97-128 | with the corrected check, one iteration keeps the queue and dequeued history distinct and disjoint, and keeps the transitions deterministic |
| CheckedQueue.DeterminizeOnceDeterministic | src/state-machine/automaton.ts:91-132 | with the corrected check, the result is deterministic for every automaton |
| StateMachineExamples.Lab2Effects | fixtures/lab2-state-machine.ts:6-14 | the fixture's alphabet is `a`, `b` |
| StateMachineExamples.Lab2ToGrammar | tests/lab2.spec.ts:14-30 | `toGrammar` on the fixture gives the grammar the test expects |
| StateMachineExamples.Lab2IsNotDeterministic | tests/lab2.spec.ts:32-34 | the fixture is not deterministic |
| StateMachineExamples.ThreeStatesAreDeterministic | tests/lab2.spec.ts:36-48 | the three-transition automaton is deterministic |
| StateMachineExamples.Lab2Run | src/state-machine/automaton.ts:97-128 | the loop on the fixture ends after five iterations with the expected work |
| StateMachineExamples.Lab2ToDeterministic | tests/lab2.spec.ts:50-69 | `toDeterministic` on the fixture gives the automaton the test expects, in the same order |
| StateMachineExamples.Lab2ResultIsDeterministic | tests/lab2.spec.ts:71-74 | that result is deterministic |
| StateMachineExamples.UnpackQ23 | src/state-machine/automaton.ts:19-24 | `{q2,q3}` unpacks to `q2`, `q3` |
| StateMachineExamples.TwiceRun | src/state-machine/automaton.ts:123-125 | on `x -a-> y`, `x -b-> y`, `y -a-> y`, `y` is queued twice and dequeued twice, emitting `y -a-> y` twice |
| StateMachineExamples.TwiceIsNotDeterministic | src/state-machine/automaton.ts:117-125 | the construction ends on that automaton and its result is not deterministic |
| StateMachineExamples.GrowthNamesGrow | src/state-machine/automaton.ts:9-17 | with `x` and `y` reaching both on `a`, the successor of `{x,y}` is `{x,y,x,y}`, a new name |
| StateMachineExamples.GrowthSuccessor | src/state-machine/automaton.ts:109-116 | the successor of the k-th name is the (k+1)-th, twice as long |
| StateMachineExamples.GrowthNamesDiffer | src/state-machine/automaton.ts:9-17 | the growing names are pairwise different |
| StateMachineExamples.GrowthStep | src/state-machine/automaton.ts:97-128 | each iteration leaves exactly one new, unvisited name in the queue |
| StateMachineExamples.LoopingNeverEnds | src/state-machine/automaton.ts:97 | a loop whose every iteration keeps a non-empty queue does not end within any fuel |
| StateMachineExamples.GrowthLike | src/state-machine/automaton.ts:91-132 | any automaton with those outgoing moves from `x` and `y` on its only effect makes `toDeterministic` run forever |
| StateMachineExamples.SingleEffect | src/state-machine/automaton.ts:44 | transitions all on one effect give a one-letter alphabet |
| StateMachineExamples.GrowthDoesNotEnd | src/state-machine/automaton.ts:91-132 | `toDeterministic` does not end on the growth automaton, for any fuel |
| Grammars.Clone | src/grammar/grammar.ts:14-22 | the copy, rebuilt production by production, equals the original |
| Grammars.GetClassification | src/grammar/grammar.ts:24-40 | `regular` iff the regular test passes; each answer means the earlier tests failed and its own passed |
| Grammars.IsRegular | src/grammar/grammar.ts:42-66 | `isRegular`: every production passes the left-to-right test, or every production passes the right-to-left test; `RegularCharacterization` states its meaning |
| Grammars.IsContextFree | src/grammar/grammar.ts:68-74 | `isContextFree`: every left side is one symbol, a nonterminal |
| Grammars.IsContextSensitive | src/grammar/grammar.ts:76-81 | `isContextSensitive`: every symbol of the flattened left sides is a nonterminal; `ContextSensitiveCharacterization` states its meaning |
| Grammars.RegularCharacterization | src/grammar/grammar.ts:42-66 | regular iff every left side is one nonterminal and, in every right side, either all symbols but the last or all symbols but the first are terminals |
| Grammars.LeftSidesMembers | src/grammar/grammar.ts:78-79 | the `flatMap` holds exactly the left-side symbols of the productions |
| Grammars.ContextSensitiveCharacterization | src/grammar/grammar.ts:76-81 | context-sensitive iff every left-side symbol is a nonterminal |
| Grammars.RegularIsContextFree | src/grammar/grammar.ts:29-34 | a regular grammar passes the context-free test |
| Grammars.ContextFreeIsContextSensitive | src/grammar/grammar.ts:68-81 | a context-free grammar passes the context-sensitive test |
| Grammars.WithoutRighthandStartAsWritten | src/grammar/grammar.ts:83-102 | `withoutRighthandStart` as written: with the start on a right side, start `S'`, the productions followed by `S -> S`, `S'` added to the nonterminals, the terminals kept; otherwise a clone |
| Grammars.WithoutRighthandStart | src/grammar/grammar.ts:83-102 | the corrected pass, which appends `S' -> S` instead |
| Grammars.WithoutRighthandStartUnchanged | src/grammar/grammar.ts:86-101 | a start that is on no right side leaves the grammar as it is |
| Grammars.AsWrittenStartHasNoProduction | src/grammar/grammar.ts:88-100 | as written, the new start `S'` has no production at all |
| Grammars.WithoutRighthandStartMovesStart | src/grammar/grammar.ts:83-102 | corrected: the new start is on no right side, its only production is `S' -> S`, and the old productions and symbols are kept |
| Grammars.WithoutRighthandStartIdempotent | src/grammar/grammar.ts:83-102 | corrected: a second application changes nothing |
| Grammars.WithoutRighthandStartKeepsContextFree | src/grammar/grammar.ts:83-102 | corrected: a context-free grammar stays context-free |
| GrammarsExamples.V2IsContextFree | fixtures/lab4-grammars.ts:3-26 | the variant-2 grammar is classified context-free |
| GrammarsExamples.NotRegularAt | src/grammar/grammar.ts:45-65 | a non-terminal inside one right side and after the head of another breaks both regular directions |
| GrammarsExamples.V2WithoutRighthandStart | tests/lab4.spec.ts:39-42 | the pass changes the variant-2 grammar; as written it appends `S -> S`, corrected `S' -> S` |
| GrammarsExamples.StartOnlyOnTheLeft | tests/lab4.spec.ts:44-58 | a grammar whose start is on no right side is returned unchanged |
| GrammarsExamples.RightLinearIsRegular | src/grammar/grammar.ts:45-53 | a right-linear grammar is classified regular |
| GrammarsExamples.MixedDirectionsIsNotRegular | src/grammar/grammar.ts:45-65 | mixing right- and left-linear productions is classified context-free |
| GrammarsExamples.TerminalOnTheLeftIsRecursive | src/grammar/grammar.ts:35-39 | a terminal on a left side is classified recursive |
| GrammarsExamples.TwoNonterminalsOnTheLeft | src/grammar/grammar.ts:68-81 | two nonterminals on a left side is classified context-sensitive |
| Utilities.AreArraysEqual | src/grammar/utilities.ts:1-4 | true exactly when the arrays are equal as values |
| Utilities.Combinations | src/grammar/utilities.ts:6-20 | the list starts with the array itself, has no repeats, and holds only subsequences of the array |
| Utilities.CombinationsComplete | src/grammar/utilities.ts:6-20 | every subsequence of the array is listed |
| Utilities.Explore | src/grammar/utilities.ts:8-17 | the recursive `combinations` closure: an array already in the memo adds nothing, otherwise it is recorded and each one-element deletion is explored in index order; `ExploreInv` states what it keeps |
| Utilities.ExploreFrom | src/grammar/utilities.ts:14-16 | the `forEach` over the deletion indices from `i` on, threading the memo; `ExploreFromInv` states what it keeps |
| Utilities.ExploreInv | src/grammar/utilities.ts:9-17 | one `combinations` call keeps the memo's old entries, adds its argument, and keeps the memo closed under deleting one element |
| Utilities.ExploreFromInv | src/grammar/utilities.ts:14-16 | the `forEach` over deletions keeps the memo closed and duplicate-free |
| Utilities.ClosedComplete | src/grammar/utilities.ts:14-16 | a memo closed under one-element deletion holds every subsequence of its members |
| Utilities.GetCombinations | src/grammar/utilities.ts:6-20 | the method returns `Combinations`: the array first, no repeats, and exactly its subsequences |
| Utilities.Visit | src/grammar/utilities.ts:8-17 | the closure's loop computes `Explore` |
| Utilities.Positions | src/grammar/utilities.ts:25-28 | the indices collected are exactly those holding the element |
| Utilities.Omit | src/grammar/utilities.ts:30-32 | `arr.filter((_, i) => !idxs.includes(i))`, with indices counted from `k`; `OmitSound`, `OmitPositions` and `OmitComplete` state what it removes |
| Utilities.Variants | src/grammar/utilities.ts:30-32 | one filtered array per index combination |
| Utilities.CombinationsWithout | src/grammar/utilities.ts:22-37 | no repeats; first the array without any occurrence of `e`; each entry is a subsequence that differs from the array only in occurrences of `e`; just the array when `e` is absent |
| Utilities.CombinationsWithoutComplete | src/grammar/utilities.ts:22-37 | every way of deleting some occurrences of `e` is listed |
| Utilities.CombinationsWithoutExtremes | src/grammar/utilities.ts:22-37 | the array itself and the array without any `e` are both listed |
| Utilities.VariantsSound | src/grammar/utilities.ts:29-32 | each variant deletes only occurrences of `e` |
| Utilities.OmitPositions | src/grammar/utilities.ts:30-32 | filtering out every index of `e` removes every `e` |
| Utilities.OmitComplete | src/grammar/utilities.ts:30-32 | every subsequence that drops only occurrences of `e` is one filter of some subset of `e`'s indices |
| UtilitiesExamples.CombinationsOfThree | tests/lab4-utilities.spec.ts:22-27 | `getCombinations([1, 2, 3])` in the order the test expects |
| UtilitiesExamples.WithoutB | tests/lab4-utilities.spec.ts:30-44 | `combinationsWithout("b")(["a", "b", "c", "b"])` as expected |
| UtilitiesExamples.WithoutA | tests/lab4-utilities.spec.ts:39-42 | `combinationsWithout("A")(["b", "A"])` as expected |
| UtilitiesExamples.WithoutRepeatedB | tests/lab4-utilities.spec.ts:47-57 | the duplicate from two adjacent `b`s is listed once |
| LanguageParser.At | src/parser/language-parser.ts:13 | reading past the end gives no symbol; otherwise the symbol at the index |
| LanguageParser.FirstMatch | src/parser/language-parser.ts:23-26 | a production found belongs to the current state and starts with the next symbol |
| LanguageParser.FirstMatchIsFirst | src/parser/language-parser.ts:23-26 | the found production is the earliest that matches; none is found only when none matches |
| LanguageParser.IsValidAsWritten | src/parser/language-parser.ts:7-34 | `isValid` as written: follow the first matching production per symbol, reject when none matches, and at the end test the out-of-range symbol |
| LanguageParser.IsValid | src/parser/language-parser.ts:7-34 | the corrected recognizer: the same walk, accepting at the end exactly when the state reached is a terminal |
| LanguageParser.Validate | src/parser/language-parser.ts:9 | validation from `createInput(w)` and the grammar's start symbol, the default state argument |
| LanguageParser.Reaches | src/parser/language-parser.ts:7-34 | the independent reference: some walk through the productions, each starting with the next symbol and continuing from its last symbol, reads the word and ends on a terminal |
| LanguageParser.AsWrittenRejectsEverything | src/parser/language-parser.ts:12-20 | as written, `isValid` rejects every input from every state |
| LanguageParser.IsValidSound | src/parser/language-parser.ts:7-34 | corrected: an accepted input is read by some walk through the productions ending on a terminal |
| LanguageParser.IsValidComplete | src/parser/language-parser.ts:7-34 | corrected: when matching productions agree on the next state, every input such a walk reads is accepted |
| LanguageParser.ValidateReaches | src/parser/language-parser.ts:9 | from the start symbol, both directions of the above |
| LanguageParser.NoBacktracking | src/parser/language-parser.ts:23-33 | the recognizer never backtracks: with `S -> a A` listed before `S -> a B` and `B -> b`, the input `ab` is read by a walk through the second production yet rejected |
| LanguageParserExamples.AcceptsAbce | tests/lab1.spec.ts:57-64 | `abce` is accepted |
| LanguageParserExamples.AcceptsAbcdfd | tests/lab1.spec.ts:57-64 | `abcdfd` is accepted |
| LanguageParserExamples.AcceptsCdd | tests/lab1.spec.ts:57-64 | `cdd` is accepted |
| LanguageParserExamples.RejectsDse | tests/lab1.spec.ts:18-26 | `dse` is rejected |
| LanguageParserExamples.RejectsFed | tests/lab1.spec.ts:18-26 | `fed` is rejected |
| LanguageParserExamples.RejectsEfa | tests/lab1.spec.ts:18-26 | `efa` is rejected |
| LanguageParserExamples.RejectsAbcx | tests/lab1.spec.ts:28-36 | `abcx` is rejected |
| LanguageParserExamples.RejectsAlz | tests/lab1.spec.ts:28-36 | `alz` is rejected |
| LanguageParserExamples.RejectsAbpr | tests/lab1.spec.ts:28-36 | `abpr` is rejected |
| LanguageParserExamples.RejectsAbc | tests/lab1.spec.ts:38-46 | `abc` is rejected |
| LanguageParserExamples.RejectsAbcde | tests/lab1.spec.ts:38-46 | `abcde` is rejected |
| LanguageParserExamples.RejectsAcd | tests/lab1.spec.ts:38-46 | `acd` is rejected |
| LanguageParserExamples.RejectsAbS | tests/lab1.spec.ts:48-55 | `abS` is rejected |
| LanguageParserExamples.RejectsCR | tests/lab1.spec.ts:48-55 | `cR` is rejected |
| LanguageParserExamples.AsWrittenRejectsAbce | src/parser/language-parser.ts:12-20 | `abce` is accepted by the corrected recognizer and rejected by the one as written |

## Left out

- The normal-form passes that `tests/lab4.spec.ts` and `demo/cnf.ts` call are not part of
  `grammar.ts`: `withoutNullProductions`, `withoutUnitProductions`, `toChomskyNormalForm` and
  `toString`. The same holds for `getAvailableLetter`, which `utilities.ts` does not define. They
  are not part of this model.
- `generateSentence` (randomness) is not part of this model, nor are the parser combinators, the
  JSON parser and the demos.
- `serializeToDot` returns the empty string and is not modelled.
- Keys built from strings are modelled by the values they encode, assuming the key is injective.
  This covers the `${from}-${effect}` signatures of `isDeterministic` and the `arr.join(",")` memo
  keys of `getCombinations`. Where that assumption fails, the source can see a false collision,
  for example between transitions from `a-b` on `c` and from `a` on `b-c`. The model does not
  capture such collisions.
- StateMachine.ToDeterministic: the loop is given a `fuel` bound on its iterations and reports
  `None` when the bound runs out. Composite names are not canonical, so the source loop need not
  end, and `GrowthDoesNotEnd` shows an automaton on which it never does. The model states no
  termination.
- Automata, grammars and inputs are values. `clone`'s freshness is not captured, and neither is
  the aliasing between an input grammar and the result of `withoutRighthandStart` (the
  `terminal` array is shared).
- LanguageParser.IsValid: it requires `index <= input.length`. `createInput` always starts at 0
  and the recursion only increments, so no call from the source passes a larger index.
- The generic recognizer compares symbols with `==` on a type with equality. JavaScript's `===`
  on strings coincides with that.
- Indices and lengths are unbounded integers. The source's array sizes never approach the
  JavaScript limits.
- Two properties one would expect of the subset construction do not hold of the code. The
  model follows the code and proves that they fail:
  - Composite names are not canonical: constituents keep their order and repetitions
    (`GrowthNamesGrow`).
  - `toDeterministic` does not always produce a deterministic automaton (`TwiceIsNotDeterministic`).

## Findings

| source | as written | input that shows it | evidently intended | confidence | as-written member | corrected member |
|---|---|---|---|---|---|---|
| src/parser/language-parser.ts:12-20 | at the end of the input the test reads `input[index]`, one past the last symbol, so the terminal test always fails and `isValid` is false for every input | `abce` with the lab 1 grammar, which the tests expect to be accepted | accept when the state reached after the last symbol is a terminal | high (not executed) | LanguageParser.AsWrittenRejectsEverything | LanguageParser.IsValidSound |
| src/grammar/grammar.ts:88-100 | the new start is `S'`, but the appended production is `S -> S`, so `S'` has no production and the grammar derives nothing | the variant-2 grammar of `tests/lab4.spec.ts` | append `S' -> S` | high (not executed) | Grammars.AsWrittenStartHasNoProduction | Grammars.WithoutRighthandStartMovesStart |
| src/state-machine/automaton.ts:123-125 | a successor is queued when it is not yet visited, even if it is already waiting in the queue; it is then dequeued twice and its transitions are pushed twice | the automaton `x -a-> y`, `x -b-> y`, `y -a-> y`, which gives two `y -a-> y` transitions | queue a successor only when it is neither visited nor queued, so that the result is deterministic | medium (not executed) | StateMachineExamples.TwiceIsNotDeterministic | CheckedQueue.DeterminizeOnceDeterministic |
