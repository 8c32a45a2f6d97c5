/** The few facts about products that proofs need by name. */
module Products {

  lemma MulOrder(a: int, b: int, c: nat)
    requires a <= b
    ensures a * c <= b * c
  {
  }

  lemma MulStrict(a: int, b: int, c: nat)
    requires a < b
    ensures a * c + c <= b * c
  {
    MulOrder(a + 1, b, c);
    Spread(a, 1, c);
  }

  lemma MulGrows(a: nat, b: nat)
    requires b >= 1
    ensures a * b >= a
  {
  }

  lemma Spread(a: int, b: int, c: int)
    ensures (a + b) * c == a * c + b * c
  {
  }

  lemma Swap(a: int, b: int)
    ensures a * b == b * a
  {
  }
}
