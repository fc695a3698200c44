/**
 * Vocabulary shared by the ecosystem controller and the contract-service
 * simulator: optional values, identifiers, and the first-match search that
 * `Array.prototype.find` and `findIndex` perform.
 */
module Common {

  datatype Option<T> = None | Some(value: T)

  /** Identifiers (database ids, participant ids, contract ids) are compared by equality only. */
  type Id = string

  /** `i` is the index at which `find` stops: the first element of `s` satisfying `p`. */
  ghost predicate IsFirst<T>(s: seq<T>, i: int, p: T -> bool) {
    0 <= i < |s| && p(s[i]) && forall j :: 0 <= j < i ==> !p(s[j])
  }

  /** Some element of `s` satisfies `p` (`Array.prototype.some`). */
  ghost predicate HasMatch<T>(s: seq<T>, p: T -> bool) {
    exists i :: 0 <= i < |s| && p(s[i])
  }

  /** `findIndex`, with `None` for -1. */
  function FindFirst<T>(s: seq<T>, p: T -> bool): (r: Option<nat>)
    ensures r.Some? <==> HasMatch(s, p)
    ensures r.Some? ==> IsFirst(s, r.value, p)
  {
    if s == [] then None
    else if p(s[0]) then Some(0)
    else match FindFirst(s[1..], p)
      case None => None
      case Some(k) => Some(k + 1)
  }

  /** Only one index can be the first match. */
  lemma FirstIsUnique<T>(s: seq<T>, i: int, j: int, p: T -> bool)
    requires IsFirst(s, i, p) && IsFirst(s, j, p)
    ensures i == j
  {
  }
}
