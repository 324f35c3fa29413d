/** Folded definitions: `forall u {:trigger UnfoldX(u)} :: UnfoldX(u) ==> P` stays closed until a proof says `UnfoldX(true)`. */
module Folding {
  predicate UnfoldParse(u: bool) {
    u == u
  }

  predicate UnfoldGood(u: bool) {
    u == u
  }

  predicate UnfoldPrint(u: bool) {
    u == u
  }

  predicate UnfoldLines(u: bool) {
    u == u
  }

  predicate UnfoldRecovery(u: bool) {
    u == u
  }

  predicate UnfoldStage(u: bool) {
    u == u
  }

  predicate UnfoldGate(u: bool) {
    u == u
  }

  predicate UnfoldCourse(u: bool) {
    u == u
  }

  predicate UnfoldRun(u: bool) {
    u == u
  }

  predicate UnfoldPublication(u: bool) {
    u == u
  }

  predicate UnfoldRelease(u: bool) {
    u == u
  }

  predicate UnfoldRow(u: bool) {
    u == u
  }

  predicate UnfoldLink(u: bool) {
    u == u
  }
}
