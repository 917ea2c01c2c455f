/**
 * The generic grammar record shared by the automaton projection and the recognizer: a production
 * rewrites one symbol of the vocabulary `V` into a sequence of symbols.
 */
module Vocabulary {

  /** `{ from, to }` with a single left-hand symbol. */
  datatype Production<V> = Production(from: V, to: seq<V>)

  /** `createGrammar(start, productions, nonTerminal, terminal)` builds exactly this record. */
  datatype Grammar<V> = Grammar(start: V, productions: seq<Production<V>>, nonTerminal: seq<V>, terminal: seq<V>)
}
