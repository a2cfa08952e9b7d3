/** The `unsigned int` version counters that the mask volume, the raycaster's
    volume data and the per-context texture records carry. */
module Version {

  const Modulus: int := 0x1_0000_0000

  /** A C++ `unsigned int`: 32 bits, wrapping on overflow. */
  type U32 = v: int | 0 <= v < Modulus

  /** `++v` on an `unsigned int`: one more, wrapping to 0 after the largest value. */
  function Next(v: U32): (w: U32)
    ensures w != v
    ensures w == (v + 1) % Modulus
  {
    if v == Modulus - 1 then 0 else v + 1
  }

  /** Two increments in a row never land back on the starting value either,
      so a consumer that last saw `v` also notices a pair of updates. */
  lemma NextNextChanges(v: U32)
    ensures Next(Next(v)) != v
    ensures Next(Next(v)) == (v + 2) % Modulus
  {
    if v == Modulus - 2 {
      assert Next(v) == Modulus - 1;
    }
  }
}
