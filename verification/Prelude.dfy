/** Types and small facts shared by every component model. */
module Prelude {

  datatype Option<+T> = None | Some(value: T)

  /** One UTF-16 code unit: what indexing a JavaScript string yields. */
  type CodeUnit = n: int | 0 <= n < 0x1_0000

  /** A JavaScript string. */
  type Str = seq<CodeUnit>

  /** Lower case of an ASCII letter. */
  function LowerUnit(c: CodeUnit): CodeUnit {
    if 65 <= c <= 90 then c + 32 else c
  }

  /** The pixel dimensions of an image. */
  datatype Dims = Dims(width: nat, height: nat)

  /** All pieces joined, in order. */
  function Flatten<T>(parts: seq<seq<T>>): seq<T> {
    if parts == [] then [] else parts[0] + Flatten(parts[1..])
  }

  lemma {:induction false} FlattenAppend<T>(a: seq<seq<T>>, b: seq<seq<T>>)
    ensures Flatten(a + b) == Flatten(a) + Flatten(b)
  {
    if a == [] {
      assert a + b == b;
    } else {
      assert (a + b)[1..] == a[1..] + b;
      FlattenAppend(a[1..], b);
    }
  }

  lemma FlattenSnoc<T>(a: seq<seq<T>>, last: seq<T>)
    ensures Flatten(a + [last]) == Flatten(a) + last
  {
    FlattenAppend(a, [last]);
    assert [last][1..] == [];
    assert Flatten([last]) == last + [];
  }

  predicate Distinct<T(==)>(s: seq<T>) {
    forall i, j :: 0 <= i < j < |s| ==> s[i] != s[j]
  }
}
