/** Small vocabulary shared by every module of the ledger model. */
module Common {

  datatype Option<+T> = None | Some(value: T)

  datatype Result<+R, +E> = Success(value: R) | Failure(error: E)

  /** Instants and durations, in seconds. */
  type Time = real

  /** Row identifiers. The system uses UUID strings; only their identity matters. */
  type Id = nat

  function MinOf(a: real, b: real): real {
    if a <= b then a else b
  }

  function MaxOf(a: real, b: real): real {
    if a <= b then b else a
  }

  predicate NoDup<T(==)>(s: seq<T>) {
    forall i, j :: 0 <= i < j < |s| ==> s[i] != s[j]
  }

  function Elements<T>(s: seq<T>): set<T> {
    set x | x in s
  }

  lemma HeadIsMember<T>(s: seq<T>)
    ensures s == [] || s[0] in s
  {
  }

  /** Distinct elements and positions are the same in number. */
  lemma {:induction false} ElementsCount<T>(s: seq<T>)
    ensures |Elements(s)| <= |s|
    ensures NoDup(s) ==> |Elements(s)| == |s|
  {
    if s == [] {
      assert Elements(s) == {};
    } else {
      var rest := s[1..];
      ElementsCount(rest);
      assert Elements(s) == {s[0]} + Elements(rest);
      if NoDup(s) {
        assert forall i :: 0 <= i < |rest| ==> rest[i] == s[i + 1];
        assert s[0] !in Elements(rest);
      }
    }
  }

  lemma {:induction false} SubsetCount<T>(a: set<T>, b: set<T>)
    requires a <= b
    ensures |a| <= |b|
    ensures |a| == |b| ==> a == b
  {
    if a == {} {
    } else {
      var x :| x in a;
      SubsetCount(a - {x}, b - {x});
    }
  }
}
