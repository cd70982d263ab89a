// The keys a gate hands out.
module LoginKeys {
  import opened Decimals

  const KEY_COUNT: nat := 0x1_0000_0000

  // The key handed out by the i-th call: the counter is 32 bits wide.
  function Key(i: nat): string {
    Decimal(i % KEY_COUNT)
  }

  // Two calls hand out the same key exactly when a multiple of 2^32 calls lies
  // between them.
  lemma {:induction false} KeysRepeat(i: nat, j: nat)
    ensures Key(i) == Key(j) <==> i % KEY_COUNT == j % KEY_COUNT
  {
    ValueOfDecimal(i % KEY_COUNT);
    ValueOfDecimal(j % KEY_COUNT);
  }
}
