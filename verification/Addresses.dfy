/** Addresses and prefixes as numbers: which prefixes may be declared local
    (internal/dataplane/plan.go), which addresses are public
    (internal/platform/public.go), and how far a local prefix can reach. */
module Addresses {
  import opened Arithmetic

  datatype Family = V4 | V6

  function Power2(k: nat): (r: nat)
    ensures r > 0
  {
    if k == 0 then 1 else 2 * Power2(k - 1)
  }

  function Width(f: Family): nat { if f.V4? then 32 else 128 }

  /** A prefix as written, base and length; a text that does not parse is out of
      bounds. */
  datatype Prefix = Prefix(family: Family, base: nat, length: nat) {

    predicate Parsed() {
      length <= Width(family) && base < if family.V4? then 0x1_0000_0000 else 0x1_0000_0000_0000_0000_0000_0000_0000_0000
    }

    function Size(): (r: nat)
      requires Parsed()
      ensures r > 0
    {
      Power2(Width(family) - length)
    }

    predicate Contains(a: nat)
      requires Parsed()
    {
      base <= a < base + Size()
    }
  }

  // ----- private and link-local addresses

  /** The block lo..hi and its prefix length. */
  datatype Block = Block(lo: nat, hi: nat, length: nat) {
    predicate Has(a: nat) { lo <= a < hi }
  }

  /** 10/8, 172.16/12, 192.168/16 and 169.254/16; for IPv6 fc00::/7 and fe80::/10
      and, because such addresses are unmapped first, the mapped forms. */
  function Blocks(f: Family): seq<Block> {
    if f.V4? then
      [Block(0x0a00_0000, 0x0b00_0000, 8), Block(0xac10_0000, 0xac20_0000, 12),
       Block(0xc0a8_0000, 0xc0a9_0000, 16), Block(0xa9fe_0000, 0xa9ff_0000, 16)]
    else
      [Block(0xfc00_0000_0000_0000_0000_0000_0000_0000, 0xfe00_0000_0000_0000_0000_0000_0000_0000, 7),
       Block(0xfe80_0000_0000_0000_0000_0000_0000_0000, 0xfec0_0000_0000_0000_0000_0000_0000_0000, 10),
       Block(0xffff_0a00_0000, 0xffff_0b00_0000, 104), Block(0xffff_ac10_0000, 0xffff_ac20_0000, 108),
       Block(0xffff_c0a8_0000, 0xffff_c0a9_0000, 112), Block(0xffff_a9fe_0000, 0xffff_a9ff_0000, 112)]
  }

  predicate Internal(f: Family, a: nat) { exists i :: 0 <= i < |Blocks(f)| && Blocks(f)[i].Has(a) }

  /** What is accepted as a local prefix: canonical, not everything, and with a
      private or link-local base.  Nothing is asked of the length. */
  predicate Sound(p: Prefix) {
    p.Parsed() && p.length != 0 && p.base % p.Size() == 0 && Internal(p.family, p.base)
  }

  // ----- arithmetic

  lemma Doubled(a: nat, d: nat)
    requires d > 0 && a % d == 0
    ensures (2 * a) % d == 0
  {
    assert a == d * (a / d);
    assert 2 * a == d * (2 * (a / d));
    Unique(2 * a, d, 2 * (a / d), 0);
  }

  /** A smaller power of two divides a larger one. */
  lemma {:induction false} Power2Divides(j: nat, k: nat)
    requires j <= k
    ensures Power2(k) % Power2(j) == 0 && Power2(j) <= Power2(k)
    decreases k
  {
    if j < k {
      Power2Divides(j, k - 1);
      Doubled(Power2(k - 1), Power2(j));
    }
  }

  /** What a number divides, its divisors divide. */
  lemma Through(a: nat, b: nat, c: nat)
    requires b > 0 && c > 0 && a % b == 0 && b % c == 0
    ensures a % c == 0
  {
    var m, n := a / b, b / c;
    assert a == b * m && b == c * n;
    assert a == c * (n * m) by { assert c * n * m == c * (n * m); }
    Unique(a, c, n * m, 0);
  }

  /** Aligned numbers in an aligned block leave room for their own size. */
  lemma AlignedRoom(size: nat, lo: nat, hi: nat, base: nat)
    requires size > 0 && lo % size == 0 && hi % size == 0 && base % size == 0 && lo <= base < hi
    ensures base + size <= hi
  {
    var k, j := base / size, hi / size;
    assert base == size * k && hi == size * j;
    Mono(size, k, j);
    Mono(size, j, k);
  }

  lemma Powers4()
    ensures Power2(16) == 0x1_0000 && Power2(20) == 0x10_0000 && Power2(24) == 0x100_0000
  {
    assert Power2(8) == 0x100;
    assert Power2(16) == 0x1_0000;
  }

  lemma Powers64()
    ensures Power2(64) == 0x1_0000_0000_0000_0000
  {
    Powers4();
    assert Power2(32) == 0x1_0000_0000;
    assert Power2(40) == 0x100_0000_0000;
    assert Power2(48) == 0x1_0000_0000_0000;
    assert Power2(56) == 0x100_0000_0000_0000;
  }

  lemma Powers6()
    ensures Power2(118) == 0x40_0000_0000_0000_0000_0000_0000_0000
    ensures Power2(121) == 0x200_0000_0000_0000_0000_0000_0000_0000
  {
    Powers64();
    assert Power2(72) == 0x100_0000_0000_0000_0000;
    assert Power2(80) == 0x1_0000_0000_0000_0000_0000;
    assert Power2(88) == 0x100_0000_0000_0000_0000_0000;
    assert Power2(96) == 0x1_0000_0000_0000_0000_0000_0000;
    assert Power2(104) == 0x100_0000_0000_0000_0000_0000_0000;
    assert Power2(112) == 0x1_0000_0000_0000_0000_0000_0000_0000;
  }

  // ----- blocks

  predicate BlockOk(f: Family, b: Block) {
    && b.length <= Width(f) && b.hi == b.lo + Power2(Width(f) - b.length)
    && b.lo % Power2(Width(f) - b.length) == 0 && b.hi % Power2(Width(f) - b.length) == 0
  }

  /** Each block is aligned and as large as its length says. */
  lemma BlockAligned(f: Family, i: nat)
    requires i < |Blocks(f)|
    ensures BlockOk(f, Blocks(f)[i])
  {
    if f.V4? { BlockAligned4(i); } else { BlockAligned6(i); }
  }

  lemma BlockAligned4(i: nat)
    requires i < 4
    ensures BlockOk(V4, Blocks(V4)[i])
  {
    Powers4();
  }

  lemma BlockAligned6(i: nat)
    requires i < 6
    ensures BlockOk(V6, Blocks(V6)[i])
  {
    if i < 2 { Powers6(); } else { Powers4(); }
  }

  /** What follows a block is not internal. */
  lemma BlockEnds(f: Family, i: nat)
    requires i < |Blocks(f)|
    ensures !Internal(f, Blocks(f)[i].hi)
  {
  }

  // ----- how far a local prefix reaches

  /** Not longer than the block its base lies in. */
  predicate Narrow(p: Prefix) {
    exists i :: 0 <= i < |Blocks(p.family)| && Blocks(p.family)[i].Has(p.base) && p.length >= Blocks(p.family)[i].length
  }

  lemma NarrowStays(p: Prefix, b: Block, a: nat)
    requires Sound(p) && BlockOk(p.family, b) && b.Has(p.base) && p.length >= b.length && p.Contains(a)
    ensures b.Has(a)
  {
    var size, block := p.Size(), Power2(Width(p.family) - b.length);
    Power2Divides(Width(p.family) - p.length, Width(p.family) - b.length);
    Through(b.lo, block, size);
    Through(b.hi, block, size);
    AlignedRoom(size, b.lo, b.hi, p.base);
  }

  lemma WideLeaves(p: Prefix, b: Block)
    requires Sound(p) && BlockOk(p.family, b) && b.Has(p.base) && p.length < b.length
    ensures p.Contains(b.hi)
  {
    var size, block := p.Size(), Power2(Width(p.family) - b.length);
    Power2Divides(Width(p.family) - b.length + 1, Width(p.family) - p.length);
    Power2Divides(Width(p.family) - b.length, Width(p.family) - p.length);
    Through(p.base, size, block);
    AlignedRoom(block, b.lo, b.hi, p.base);
  }

  /** An accepted prefix reaches only private and link-local addresses if and only
      if it is not shorter than the block of its base. */
  lemma ReachExact(p: Prefix)
    requires Sound(p)
    ensures (forall a :: p.Contains(a) ==> Internal(p.family, a)) <==> Narrow(p)
  {
    var i :| 0 <= i < |Blocks(p.family)| && Blocks(p.family)[i].Has(p.base);
    BlockAligned(p.family, i);
    if Narrow(p) {
      var j :| 0 <= j < |Blocks(p.family)| && Blocks(p.family)[j].Has(p.base) && p.length >= Blocks(p.family)[j].length;
      BlockAligned(p.family, j);
      forall a | p.Contains(a) ensures Internal(p.family, a) {
        NarrowStays(p, Blocks(p.family)[j], a);
      }
    } else {
      WideLeaves(p, Blocks(p.family)[i]);
      BlockEnds(p.family, i);
    }
  }

  /** 10.0.0.0/7 is accepted and holds 11.0.0.1. */
  lemma WidePrefixAccepted()
    ensures var p := Prefix(V4, 0x0a00_0000, 7);
            Sound(p) && !Narrow(p) && p.Contains(0x0b00_0001) && !Internal(V4, 0x0b00_0001)
  {
    Powers4();
    assert Power2(25) == 0x200_0000;
    assert Blocks(V4)[0].Has(0x0a00_0000);
  }

  // ----- public addresses

  /** Ranges that no public address lies in. */
  function Reserved(f: Family): seq<Prefix> {
    if f.V4? then
      [Prefix(V4, 0x0000_0000, 8), Prefix(V4, 0x0a00_0000, 8), Prefix(V4, 0x6440_0000, 10), Prefix(V4, 0x7f00_0000, 8),
       Prefix(V4, 0xa9fe_0000, 16), Prefix(V4, 0xac10_0000, 12), Prefix(V4, 0xc000_0000, 24), Prefix(V4, 0xc000_0200, 24),
       Prefix(V4, 0xc0a8_0000, 16), Prefix(V4, 0xc612_0000, 15), Prefix(V4, 0xc633_6400, 24), Prefix(V4, 0xcb00_7100, 24),
       Prefix(V4, 0xe000_0000, 4), Prefix(V4, 0xf000_0000, 4)]
    else
      [Prefix(V6, 0, 96), Prefix(V6, 0x0064_ff9b_0000_0000_0000_0000_0000_0000, 96),
       Prefix(V6, 0x0064_ff9b_0001_0000_0000_0000_0000_0000, 48), Prefix(V6, 0x0100_0000_0000_0000_0000_0000_0000_0000, 64),
       Prefix(V6, 0x2001_0000_0000_0000_0000_0000_0000_0000, 23), Prefix(V6, 0x2001_0db8_0000_0000_0000_0000_0000_0000, 32),
       Prefix(V6, 0x2002_0000_0000_0000_0000_0000_0000_0000, 16), Prefix(V6, 0x3fff_0000_0000_0000_0000_0000_0000_0000, 20),
       Prefix(V6, 0xfec0_0000_0000_0000_0000_0000_0000_0000, 10), Prefix(V6, 0xfc00_0000_0000_0000_0000_0000_0000_0000, 7),
       Prefix(V6, 0xfe80_0000_0000_0000_0000_0000_0000_0000, 10), Prefix(V6, 0xff00_0000_0000_0000_0000_0000_0000_0000, 8)]
  }

  predicate Mapped(f: Family, a: nat) { f.V6? && 0xffff_0000_0000 <= a < 0x1_0000_0000_0000 }

  /** A public address that is not written in mapped form. */
  predicate Public(f: Family, a: nat) {
    && Prefix(f, a, Width(f)).Parsed() && !Mapped(f, a)
    && forall i :: 0 <= i < |Reserved(f)| ==> Reserved(f)[i].Parsed() && !Reserved(f)[i].Contains(a)
  }

  /** A public address; a mapped one is unmapped first. */
  predicate PublicUnmapped(f: Family, a: nat) {
    if Mapped(f, a) then Public(V4, a - 0xffff_0000_0000) else Public(f, a)
  }

  /** No public address is private or link-local. */
  lemma PublicIsOutside(f: Family, a: nat)
    requires PublicUnmapped(f, a)
    ensures !Internal(f, a)
  {
    if Mapped(f, a) {
      PublicNotInternal(V4, a - 0xffff_0000_0000);
      MappedBlocks(a);
    } else {
      PublicNotInternal(f, a);
    }
  }

  lemma PublicNotInternal(f: Family, a: nat)
    requires Public(f, a)
    ensures !Internal(f, a)
  {
    if f.V4? { PublicNotInternal4(a); } else { PublicNotInternal6(a); }
  }

  lemma PublicNotInternal4(a: nat)
    requires Public(V4, a)
    ensures !Internal(V4, a)
  {
    Powers4();
    assert !Reserved(V4)[1].Contains(a) && !Reserved(V4)[4].Contains(a) && !Reserved(V4)[5].Contains(a) && !Reserved(V4)[8].Contains(a);
  }

  lemma PublicNotInternal6(a: nat)
    requires Public(V6, a)
    ensures !Internal(V6, a)
  {
    Powers6();
    assert !Reserved(V6)[9].Contains(a) && !Reserved(V6)[10].Contains(a);
  }

  /** The mapped blocks are the IPv4 blocks, shifted. */
  lemma MappedBlocks(a: nat)
    requires Mapped(V6, a)
    ensures Internal(V6, a) <==> Internal(V4, a - 0xffff_0000_0000)
  {
    var b := a - 0xffff_0000_0000;
    if Internal(V6, a) {
      var i :| 0 <= i < |Blocks(V6)| && Blocks(V6)[i].Has(a);
      assert i >= 2;
      assert Blocks(V4)[i - 2].Has(b);
    }
    if Internal(V4, b) {
      var i :| 0 <= i < |Blocks(V4)| && Blocks(V4)[i].Has(b);
      assert Blocks(V6)[i + 2].Has(a);
    }
  }

  // ----- synthetic addresses

  /** 198.18.0.0/15 and fd66:6f70:656e::/48 */
  function FakePool(f: Family): Block {
    if f.V4? then Block(0xc612_0000, 0xc614_0000, 15)
    else Block(0xfd66_6f70_656e_0000_0000_0000_0000_0000, 0xfd66_6f70_656f_0000_0000_0000_0000_0000, 48)
  }

  /** A prefix that does not meet the pool holds none of its addresses. */
  lemma PoolApart(p: Prefix, a: nat)
    requires p.Parsed() && !MeetsPool(p) && FakePool(p.family).Has(a)
    ensures !p.Contains(a)
  {
  }

  predicate MeetsPool(p: Prefix) {
    p.Parsed() && p.base < FakePool(p.family).hi && FakePool(p.family).lo < p.base + p.Size()
  }
}
