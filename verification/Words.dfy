/** Single bits of 64-bit words, as the bitmap of internal/continuity/peer.go tests,
    sets and clears them. */
module Words {

  /** 1 << k on 64 bits. */
  function One(k: nat): bv64 { if k == 0 then 1 else One(k - 1) << 1 }

  lemma LowBit(x: bv64)
    ensures 1 & (x << 1) == 0
  {
  }

  lemma Doubled(x: bv64, y: bv64)
    requires x & y == 0
    ensures (x << 1) & (y << 1) == 0
  {
  }

  lemma {:induction false} OnesApart(j: nat, k: nat)
    requires j < k
    ensures One(j) & One(k) == 0
  {
    if j == 0 {
      LowBit(One(k - 1));
    } else {
      OnesApart(j - 1, k - 1);
      Doubled(One(j - 1), One(k - 1));
    }
  }

  lemma TopBit()
    ensures One(63) == 0x8000_0000_0000_0000
  {
    assert One(8) == 0x100;
    assert One(16) == 0x1_0000;
    assert One(24) == 0x100_0000;
    assert One(32) == 0x1_0000_0000;
    assert One(40) == 0x100_0000_0000;
    assert One(48) == 0x1_0000_0000_0000;
    assert One(56) == 0x100_0000_0000_0000;
  }

  lemma Halved(x: bv64)
    requires x << 1 != 0
    ensures x != 0
  {
  }

  lemma {:induction false} OneIsThere(k: nat)
    requires k < 64
    ensures One(k) != 0
    decreases 63 - k
  {
    if k == 63 {
      TopBit();
    } else {
      OneIsThere(k + 1);
      Halved(One(k));
    }
  }

  /** 1 << k for every column k. */
  function Shifts(n: nat): seq<bv64> { if n == 0 then [] else Shifts(n - 1) + [One(n - 1)] }

  lemma {:induction false} ShiftsAt(n: nat)
    ensures |Shifts(n)| == n && forall k :: 0 <= k < n ==> Shifts(n)[k] == One(k)
  {
    if n > 0 { ShiftsAt(n - 1); }
  }

  /** Masks of which none is empty and no two share a bit. */
  predicate Columns(masks: seq<bv64>) {
    && |masks| == 64
    && (forall k :: 0 <= k < |masks| ==> masks[k] != 0)
    && (forall j, k :: 0 <= j < k < |masks| ==> masks[j] & masks[k] == 0)
  }

  /** The shifts of the source are such masks. */
  lemma ShiftsAreColumns()
    ensures Columns(Shifts(64))
  {
    ShiftsAt(64);
    var m := Shifts(64);
    forall k | 0 <= k < 64 ensures m[k] != 0 { OneIsThere(k); }
    forall j, k | 0 <= j < k < 64 ensures m[j] & m[k] == 0 { OnesApart(j, k); }
  }

  // The source's test, set and clear of the column that a mask selects.

  predicate Has(word: bv64, mask: bv64) { word & mask != 0 }
  function With(word: bv64, mask: bv64): bv64 { word | mask }
  function Without(word: bv64, mask: bv64): bv64 { word & !mask }

  lemma OwnColumn(word: bv64, mask: bv64)
    requires mask != 0
    ensures Has(With(word, mask), mask) && !Has(Without(word, mask), mask)
  {
  }

  lemma Untouched(word: bv64, mask: bv64, other: bv64)
    requires mask & other == 0
    ensures (word | mask) & other == word & other && (word & !mask) & other == word & other
  {
  }

  lemma Same(a: bv64, b: bv64)
    requires a == b
    ensures (a != 0) == (b != 0)
  {
  }

  lemma SetsOther(word: bv64, mask: bv64, other: bv64)
    requires mask & other == 0
    ensures ((word | mask) & other != 0) == (word & other != 0)
  {
    Untouched(word, mask, other);
    Same((word | mask) & other, word & other);
  }

  lemma ClearsOther(word: bv64, mask: bv64, other: bv64)
    requires mask & other == 0
    ensures ((word & !mask) & other != 0) == (word & other != 0)
  {
    Untouched(word, mask, other);
    Same((word & !mask) & other, word & other);
  }

  lemma HasWith(word: bv64, mask: bv64, other: bv64)
    ensures Has(With(word, mask), other) == ((word | mask) & other != 0) && Has(word, other) == (word & other != 0)
  {
  }

  lemma HasWithout(word: bv64, mask: bv64, other: bv64)
    ensures Has(Without(word, mask), other) == ((word & !mask) & other != 0) && Has(word, other) == (word & other != 0)
  {
  }

  lemma OtherSet(word: bv64, mask: bv64, other: bv64)
    requires mask & other == 0
    ensures Has(With(word, mask), other) == Has(word, other)
  {
    SetsOther(word, mask, other);
    HasWith(word, mask, other);
  }

  lemma OtherCleared(word: bv64, mask: bv64, other: bv64)
    requires mask & other == 0
    ensures Has(Without(word, mask), other) == Has(word, other)
  {
    ClearsOther(word, mask, other);
    HasWithout(word, mask, other);
  }

  lemma Crossed(x: bv64, y: bv64)
    ensures x & y == y & x
  {
  }

  lemma ColumnsApart(masks: seq<bv64>, j: nat, k: nat)
    requires Columns(masks) && j < 64 && k < 64 && j != k
    ensures masks[k] & masks[j] == 0
  {
    if j < k { Crossed(masks[j], masks[k]); }
  }
}
