/** Powers of two, and shifts: a number's high bits and its low ones. */
module Powers {

  function Pow2(k: nat): (p: nat)
    ensures p >= 1
  {
    if k == 0 then 1 else 2 * Pow2(k - 1)
  }

  /** a without its last k bits. */
  function Shr(a: nat, k: nat): nat
    decreases k
  {
    if k == 0 then a else Shr(a / 2, k - 1)
  }

  /** a followed by k zero bits. */
  function Shl(a: nat, k: nat): nat
    decreases k
  {
    if k == 0 then a else 2 * Shl(a, k - 1)
  }

  /** The last k bits of a. */
  function Low(a: nat, k: nat): nat
    decreases k
  {
    if k == 0 then 0 else 2 * Low(a / 2, k - 1) + a % 2
  }

  lemma {:induction false} Pow2Grows(j: nat, k: nat)
    ensures Pow2(k) <= Pow2(j + k) && (j > 0 ==> Pow2(k) < Pow2(j + k))
  {
    if j > 0 {
      Pow2Grows(j - 1, k);
    }
  }

  /** High and low bits make the number. */
  lemma {:induction false} HighAndLow(a: nat, k: nat)
    ensures a == Shl(Shr(a, k), k) + Low(a, k) && Low(a, k) < Pow2(k)
    decreases k
  {
    if k > 0 {
      HighAndLow(a / 2, k - 1);
    }
  }

  /** And are the only ones that do. */
  lemma {:induction false} ShrOfShl(x: nat, k: nat, r: nat)
    requires r < Pow2(k)
    ensures Shr(Shl(x, k) + r, k) == x
    decreases k
  {
    if k > 0 {
      assert (Shl(x, k) + r) / 2 == Shl(x, k - 1) + r / 2;
      ShrOfShl(x, k - 1, r / 2);
    }
  }

  lemma {:induction false} ShrShr(a: nat, j: nat, k: nat)
    ensures Shr(a, j + k) == Shr(Shr(a, j), k)
    decreases j
  {
    if j > 0 {
      ShrShr(a / 2, j - 1, k);
    }
  }

  lemma {:induction false} ShlShl(x: nat, j: nat, k: nat)
    ensures Shl(x, j + k) == Shl(Shl(x, j), k)
    decreases k
  {
    if k > 0 {
      ShlShl(x, j, k - 1);
    }
  }

  /** Dropping bits below a shifted number leaves it where it is. */
  lemma {:induction false} ShrBelow(h: nat, x: nat, j: nat, k: nat)
    ensures Shr(Shl(h, j + k) + x, k) == Shl(h, j) + Shr(x, k)
    decreases k
  {
    if k > 0 {
      assert (Shl(h, j + k) + x) / 2 == Shl(h, j + (k - 1)) + x / 2;
      ShrBelow(h, x / 2, j, k - 1);
    }
  }

  lemma {:induction false} ShlFits(x: nat, j: nat, k: nat, r: nat)
    requires x < Pow2(j) && r < Pow2(k)
    ensures Shl(x, k) + r < Pow2(j + k)
    decreases k
  {
    if k > 0 {
      ShlFits(x, j, k - 1, r / 2);
    }
  }

  lemma {:induction false} ShrFits(a: nat, j: nat, k: nat)
    requires a < Pow2(j + k)
    ensures Shr(a, k) < Pow2(j)
    decreases k
  {
    if k > 0 {
      ShrFits(a / 2, j, k - 1);
    }
  }

  lemma {:induction false} NextBlock(a: nat, k: nat)
    ensures Shr(a + Pow2(k), k) == Shr(a, k) + 1
    decreases k
  {
    if k > 0 {
      assert (a + Pow2(k)) / 2 == a / 2 + Pow2(k - 1);
      NextBlock(a / 2, k - 1);
    }
  }
}
