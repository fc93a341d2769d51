/** Small vocabulary shared by the other modules. */
module Basics {

  datatype Option<+T> = None | Some(value: T)

  datatype Result<+T, +E> = Ok(value: T) | Err(error: E)

  type Byte = n: nat | n < 256

  /** No element occurs at two positions. */
  ghost predicate NoDup<T>(s: seq<T>) {
    forall i, j :: 0 <= i < j < |s| ==> s[i] != s[j]
  }

  /** The elements of a sequence, as a set. */
  function Elems<T>(s: seq<T>): (r: set<T>) {
    set x | x in s
  }

  lemma ElemsAppend<T>(s: seq<T>, x: T)
    ensures Elems(s + [x]) == Elems(s) + {x}
  {
    assert (s + [x])[|s|] == x;
    forall y ensures y in Elems(s + [x]) <==> y in Elems(s) + {x} {
      if y in s {
        var i :| 0 <= i < |s| && s[i] == y;
        assert (s + [x])[i] == y;
      }
    }
  }

  /** A sequence without repetitions drawn from a finite set is no longer than the set. */
  lemma {:induction false} NoDupLength<T>(s: seq<T>, u: set<T>)
    requires NoDup(s) && Elems(s) <= u
    ensures |s| <= |u|
    decreases |s|
  {
    if s != [] {
      var x := s[|s| - 1];
      var t := s[..|s| - 1];
      forall y | y in Elems(t) ensures y in u - {x} {
        assert y in s;
      }
      assert x in s;
      NoDupLength(t, u - {x});
    }
  }
}
