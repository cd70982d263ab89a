// Counting how often things happened.
module Tallies {

  function Once(b: bool): nat {
    if b then 1 else 0
  }

  function Plus<T(==, !new)>(tally: multiset<T>, x: T): (r: multiset<T>)
    ensures forall y :: r[y] == tally[y] + Once(y == x)
  {
    tally + multiset{x}
  }
}
