/** Types and small facts shared by every model of this project. */
module Prelude {

  datatype Option<+T> = None | Some(value: T)

  /** A thread is named by its position in the thread table of a model. */
  type Tid = nat

  /** A delegated section is named by the order in which its call began. */
  type OpId = nat

  /** Adding one new element to a finite set adds one to its size. */
  lemma SizeWith<T>(s: set<T>, s': set<T>, x: T)
    requires x !in s && s' == s + {x}
    ensures |s'| == |s| + 1
  {
  }

  /** Removing one element from a finite set takes one from its size. */
  lemma SizeWithout<T>(s: set<T>, s': set<T>, x: T)
    requires x in s && s' == s - {x}
    ensures |s'| == |s| - 1
  {
  }

  /** A subset is no larger than the set it is taken from. */
  lemma SubsetSize<T>(a: set<T>, b: set<T>)
    requires a <= b
    ensures |a| <= |b|
  {
    assert b == a + (b - a);
  }

  function Min(a: int, b: int): int {
    if a < b then a else b
  }

  /** Some thread is at program point pc. */
  ghost predicate Somewhere<PC>(pcs: seq<PC>, pc: PC) {
    exists u: Tid :: u < |pcs| && pcs[u] == pc
  }

  /** A step of a thread that is not there does not change that. */
  lemma StaysSomewhere<PC>(pcs: seq<PC>, pc: PC, t: Tid, next: PC)
    requires t < |pcs| && pcs[t] != pc && Somewhere(pcs, pc)
    ensures Somewhere(pcs[t := next], pc)
  {
    var u: Tid :| u < |pcs| && pcs[u] == pc;
    assert pcs[t := next][u] == pc;
  }
}
