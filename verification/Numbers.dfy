/** Numbers and sequences of numbers. */
module Numbers {
  // The numbers below n, in order.
  function UpTo(n: nat): seq<nat> {
    seq(n, i => i)
  }

  lemma MulMonotone(a: nat, b: nat, c: nat)
    requires a <= b
    ensures a * c <= b * c
  {
  }
}
