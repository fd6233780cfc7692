/** Lists without repeats. */
module Lists {
  predicate NoRepeats<T(==)>(list: seq<T>) {
    forall i, j | 0 <= i < j < |list| :: list[i] != list[j]
  }

  lemma NoRepeatsTail<T>(list: seq<T>)
    requires NoRepeats(list) && list != []
    ensures NoRepeats(list[1..]) && list[0] !in list[1..]
  {
  }

  lemma NoRepeatsAppend<T>(a: seq<T>, b: seq<T>)
    requires NoRepeats(a) && NoRepeats(b) && forall x | x in b :: x !in a
    ensures NoRepeats(a + b)
  {
    forall i, j | 0 <= i < j < |a + b|
      ensures (a + b)[i] != (a + b)[j]
    {
      if i < |a| <= j {
        assert b[j - |a|] in b && a[i] in a;
      }
    }
  }

  /** Every element stands on one side of a cut only. */
  lemma NoRepeatsSplit<T>(list: seq<T>, k: nat, x: T)
    requires NoRepeats(list) && k <= |list|
    ensures x in list[k..] <==> x in list && x !in list[..k]
  {
    assert list == list[..k] + list[k..];
  }
}
