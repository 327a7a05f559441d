/** Loops that visit each element of a set once, in any order. */
module Traversal {
  /** What is still to be visited, and what has been visited. */
  ghost predicate Visiting<T>(rest: set<T>, done: set<T>, all: set<T>) {
    rest !! done && rest + done == all
  }

  lemma VisitOne<T>(rest: set<T>, done: set<T>, all: set<T>, x: T)
    requires Visiting(rest, done, all) && x in rest
    ensures Visiting(rest - {x}, done + {x}, all) && x in all && x !in done
  {}
}
