/** IP prefixes as numbers, and the one normal form a route has. */
module Prefixes {
  import opened Powers
  import opened Wrappers

  /** An address block: the first bits bits of addr, 32 or 128 bits wide. */
  datatype Prefix = Prefix(six: bool, addr: nat, bits: nat)

  // What marks a mapped address, the bits in an address of each family, and the length of
  // the prefix ::ffff:0:0. These are functions rather than constants so that the verifier
  // does not compute shifts and powers of two of them.
  function Marker(): nat { 0xffff }
  function Bits4(): nat { 32 }
  function Bits6(): nat { 128 }
  function MarkedBits(): nat { 96 }

  function Width(six: bool): nat { if six then Bits6() else Bits4() }

  predicate Sound(p: Prefix) {
    p.bits <= Width(p.six) && p.addr < Pow2(Width(p.six))
  }

  type Net = p: Prefix | Sound(p) witness Prefix(false, 0, 0)

  /** How many bits of an address p leaves open. */
  function Host(p: Net): nat { Width(p.six) - p.bits }

  /** a begins as p does. */
  predicate Begins(p: Net, a: nat) { Shr(a, Host(p)) == Shr(p.addr, Host(p)) }

  /** p holds the address a of its family. */
  predicate Covers(p: Net, six: bool, a: nat) {
    p.six == six && a < Pow2(Width(six)) && Begins(p, a)
  }

  /** An IPv6 address that stands for an IPv4 one: it is in ::ffff:0:0/96. */
  predicate Mapped(a: nat) { Shr(a, Bits4()) == Marker() }

  /** The IPv6 address that stands for the IPv4 address a. */
  function MappedForm(a: nat): nat { Shl(Marker(), Bits4()) + a }

  function Masked(p: Net): Net {
    MaskFits(p);
    Prefix(p.six, Shl(Shr(p.addr, Host(p)), Host(p)), p.bits)
  }

  /** The IPv4 prefix that an IPv4-mapped one of length at least 96 maps. */
  function Unmapped(p: Net): Net
    requires p.six && p.bits >= MarkedBits()
  {
    HighAndLow(p.addr, Bits4());
    Prefix(false, Low(p.addr, Bits4()), p.bits - MarkedBits())
  }

  /** What parseRoute makes of a parsed prefix: an IPv4-mapped one becomes the IPv4 one
      it maps, unless it is too short to be one, and host bits are dropped. */
  function Normal(p: Net): Option<Net> {
    if p.six && Mapped(p.addr) then
      if p.bits < MarkedBits() then None else Some(Masked(Unmapped(p)))
    else Some(Masked(p))
  }

  lemma MaskFits(p: Net)
    ensures Shl(Shr(p.addr, Host(p)), Host(p)) <= p.addr
  {
    HighAndLow(p.addr, Host(p));
  }

  // ------------------------------------------------------- by the numbers

  lemma {:induction false} ShlIsProduct(x: nat, k: nat)
    ensures Shl(x, k) == x * Pow2(k)
    decreases k
  {
    if k > 0 {
      ShlIsProduct(x, k - 1);
    }
  }

  lemma ThirtyTwoBits()
    ensures Pow2(Bits4()) == 0x1_0000_0000
  {
    var k := Bits4() / 8;
    Pow2Double(k, 16);
    Pow2Double(2 * k, 256);
    Pow2Double(4 * k, 65536);
  }

  lemma Pow2Double(k: nat, p: nat)
    requires Pow2(k) == p
    ensures Pow2(2 * k) == p * p
  {
    Pow2Sum(k, k);
  }

  lemma {:induction false} Pow2Sum(j: nat, k: nat)
    ensures Pow2(j + k) == Pow2(j) * Pow2(k)
    decreases k
  {
    if k > 0 {
      Pow2Sum(j, k - 1);
    }
  }

  /** The IPv4 addresses are those below 2^32, and ::ffff:0:0/96 holds the IPv6 addresses that
      stand for them, each at its place. */
  lemma MappedByNumbers(a: nat)
    ensures a < Pow2(Width(false)) <==> a < 0x1_0000_0000
    ensures Mapped(a) <==> 0xffff_0000_0000 <= a < 0x1_0000_0000_0000
    ensures MappedForm(a) == 0xffff_0000_0000 + a
    ensures Mapped(a) ==> Low(a, Bits4()) == a - 0xffff_0000_0000
  {
    ThirtyTwoBits();
    ShlIsProduct(Marker(), Bits4());
    HighAndLow(a, Bits4());
    ShlIsProduct(Shr(a, Bits4()), Bits4());
  }

  lemma WidthsAre32And128()
    ensures Width(false) == 32 && Width(true) == 128
  {
  }

  // ------------------------------------------------------- masking

  /** Masking drops no address and adds none. */
  lemma MaskedCoversTheSame(p: Net, six: bool, a: nat)
    ensures Covers(Masked(p), six, a) <==> Covers(p, six, a)
  {
    ShrOfShl(Shr(p.addr, Host(p)), Host(p), 0);
  }

  /** Masking k bits keeps what is above the last v, or clears the bit next to them. */
  lemma MaskAbove(a: nat, k: nat, v: nat)
    ensures k <= v ==> Shr(Shl(Shr(a, k), k), v) == Shr(a, v)
    ensures k > v ==> Shr(Shl(Shr(a, k), k), v) % 2 == 0
  {
    var x := Shr(a, k);
    if k <= v {
      ShrOfShl(x, k, 0);
      ShrShr(a, k, v - k);
      ShrShr(Shl(x, k), k, v - k);
    } else {
      ShlShl(x, k - v, v);
      ShrOfShl(Shl(x, k - v), v, 0);
    }
  }

  /** A prefix that is not IPv4-mapped does not become so by being masked. */
  lemma MaskedStaysUnmapped(p: Net)
    requires p.six && !Mapped(p.addr)
    ensures !Mapped(Masked(p).addr)
  {
    MaskAbove(p.addr, Host(p), Bits4());
  }

  // ------------------------------------------------------- the normal form

  /** The normal form covers what the prefix covered: the same addresses, or for an
      IPv4-mapped prefix the IPv4 addresses whose mapped forms it covered. Refused are
      exactly the IPv4-mapped prefixes shorter than /96. */
  lemma NormalCoversTheSame(p: Net, a: nat)
    ensures Normal(p).None? <==> p.six && Mapped(p.addr) && p.bits < MarkedBits()
    ensures !(p.six && Mapped(p.addr)) ==> (Covers(Normal(p).value, p.six, a) <==> Covers(p, p.six, a))
    ensures p.six && Mapped(p.addr) && p.bits >= MarkedBits() && a < Pow2(Bits4()) ==>
              (Covers(Normal(p).value, false, a) <==> Covers(p, true, MappedForm(a)))
  {
    if p.six && Mapped(p.addr) {
      if p.bits >= MarkedBits() && a < Pow2(Bits4()) {
        MappedCovers(p, a);
      }
    } else {
      MaskedCoversTheSame(p, p.six, a);
    }
  }

  lemma {:induction false} MarkerFits(k: nat)
    requires k >= 16
    ensures Marker() < Pow2(k)
    decreases k
  {
    if k == 16 {
      var j := k - 4;
      assert Pow2(4) == 16 && Pow2(8) == 256 && Pow2(12) == 4096;
      assert Pow2(j + 1) == 2 * Pow2(j) && Pow2(j + 2) == 2 * Pow2(j + 1);
      assert Pow2(j + 3) == 2 * Pow2(j + 2) && Pow2(j + 4) == 2 * Pow2(j + 3);
    } else {
      MarkerFits(k - 1);
    }
  }

  lemma MappedFits(a: nat)
    requires a < Pow2(Bits4())
    ensures MappedForm(a) < Pow2(Bits6())
  {
    var high := Bits6() - Bits4();
    MarkerFits(high);
    ShlFits(Marker(), high, Bits4(), a);
  }

  lemma AlikeBelow(addr: nat, h: nat, a: nat, v: nat, k: nat)
    requires k <= v && Shr(addr, v) == h
    ensures Shr(Shl(h, v) + a, k) == Shr(addr, k) <==> Shr(a, k) == Shr(Low(addr, v), k)
  {
    HighAndLow(addr, v);
    ShrBelow(h, a, v - k, k);
    ShrBelow(h, Low(addr, v), v - k, k);
  }

  lemma UnmappedBegins(p: Net, a: nat)
    requires p.six && Mapped(p.addr) && p.bits >= MarkedBits()
    ensures Begins(Unmapped(p), a) <==> Begins(p, MappedForm(a))
  {
    assert Host(Unmapped(p)) == Host(p) <= Bits4();
    AlikeBelow(p.addr, Marker(), a, Bits4(), Host(p));
  }

  lemma MappedCovers(p: Net, a: nat)
    requires p.six && Mapped(p.addr) && p.bits >= MarkedBits() && a < Pow2(Bits4())
    ensures Covers(Masked(Unmapped(p)), false, a) <==> Covers(p, true, MappedForm(a))
  {
    UnmappedBegins(p, a);
    MappedFits(a);
    MaskedCoversTheSame(Unmapped(p), false, a);
  }

  /** Normalising again changes nothing, and no IPv6 result stands for an IPv4 address. */
  lemma NormalIsNormal(p: Net)
    requires Normal(p).Some?
    ensures Normal(Normal(p).value) == Normal(p)
    ensures Normal(p).value.six ==> !Mapped(Normal(p).value.addr)
  {
    if p.six && Mapped(p.addr) {
      MaskedOnce(Unmapped(p));
    } else {
      MaskedOnce(p);
      if p.six {
        MaskedStaysUnmapped(p);
      }
    }
  }

  lemma MaskedOnce(p: Net)
    ensures Masked(Masked(p)) == Masked(p)
  {
    ShrOfShl(Shr(p.addr, Host(p)), Host(p), 0);
  }

  lemma NormalIsMasked(p: Net)
    requires Normal(p) == Some(p)
    ensures Masked(p) == p
  {
    if p.six && Mapped(p.addr) {
      NormalIsNormal(p);
    }
  }

  lemma SameLengthSameRoute(p: Net, q: Net)
    requires Masked(p) == p && Masked(q) == q && p.bits == q.bits && Covers(q, p.six, p.addr)
    ensures p == q
  {
    assert Host(p) == Host(q);
  }

  /** Two routes in normal form that hold the same addresses are the same route. */
  lemma NormalIsCanonical(p: Net, q: Net)
    requires Normal(p) == Some(p) && Normal(q) == Some(q)
    requires forall six, a :: Covers(p, six, a) <==> Covers(q, six, a)
    ensures p == q
  {
    NormalIsMasked(p);
    NormalIsMasked(q);
    assert Covers(p, p.six, p.addr);
    assert Covers(q, p.six, p.addr);
    if p.bits < q.bits {
      LongerCoversLess(p, q);
    } else if q.bits < p.bits {
      LongerCoversLess(q, p);
    } else {
      SameLengthSameRoute(p, q);
    }
  }

  lemma Neighbours(a: nat, w: nat, j: nat, k: nat)
    requires j < k <= w && a < Pow2(w) && a == Shl(Shr(a, k), k)
    ensures a + Pow2(j) < Pow2(w) && Shr(a + Pow2(j), k) == Shr(a, k) && Shr(a + Pow2(j), j) != Shr(a, j)
  {
    var x := Shr(a, k);
    Pow2Grows(k - j, j);
    ShrOfShl(x, k, Pow2(j));
    ShrFits(a, w - k, k);
    ShlFits(x, w - k, k, Pow2(j));
    NextBlock(a, j);
  }

  /** A masked prefix holds two addresses that no longer prefix holds both of. */
  lemma LongerCoversLess(p: Net, q: Net)
    requires p.six == q.six && p.bits < q.bits && Masked(p) == p
    ensures var b := p.addr + Pow2(Host(q));
            && Covers(p, p.six, p.addr) && Covers(p, p.six, b)
            && !(Covers(q, p.six, p.addr) && Covers(q, p.six, b))
  {
    Neighbours(p.addr, Width(p.six), Host(q), Host(p));
  }
}
