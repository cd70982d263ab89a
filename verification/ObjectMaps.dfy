// The objects held by a map from numbers.
module ObjectMaps {

  lemma {:induction false} AddedValues<T>(m: map<nat, T>, k: nat, x: T)
    requires k !in m
    ensures m[k := x].Values == m.Values + {x}
  {
    var m' := m[k := x];
    assert forall j <- m :: m'[j] == m[j];
    assert m'[k] == x;
  }

  lemma {:induction false} RemovedValues<T>(m: map<nat, T>, k: nat)
    requires k in m && forall j <- m :: j != k ==> m[j] != m[k]
    ensures (m - {k}).Values == m.Values - {m[k]}
  {
    var m' := m - {k};
    assert forall j <- m' :: m'[j] == m[j];
    forall x <- m.Values - {m[k]}
      ensures x in m'.Values
    {
      var j :| j in m && m[j] == x;
      assert m'[j] == x;
    }
  }
}
