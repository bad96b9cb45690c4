/** Vocabulary shared by every module. */
module Base {

  /** A Go pointer or optional field. */
  datatype Option<+T> = None | Some(value: T) {
    function GetOr(fallback: T): T {
      if Some? then value else fallback
    }
  }

  /** A value whose content the operator copies without looking at it. */
  datatype Opaque = Opaque(id: nat)

  predicate Distinct<T(==)>(s: seq<T>) {
    forall i, j :: 0 <= i < j < |s| ==> s[i] != s[j]
  }

  function Elements<T>(s: seq<T>): set<T> {
    set x | x in s
  }
}
