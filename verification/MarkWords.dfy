/** The evaluator keeps a mark as two numbers; the tables mask 32-bit words.  Every
    reading and writing of a mark by the evaluator is the masking of its word. */
module MarkWords {
  import opened Packets

  // ----- a word and its bytes

  function Byte3(w: bv32): bv8 { (w >> 24) as bv8 }
  function Byte2(w: bv32): bv8 { ((w >> 16) & 0xff) as bv8 }
  function Byte1(w: bv32): bv8 { ((w >> 8) & 0xff) as bv8 }
  function Byte0(w: bv32): bv8 { (w & 0xff) as bv8 }

  /** The evaluator's view of a word. */
  function MarkOf(w: bv32): Mark {
    Mark(256 * (Byte3(w) as nat) + (Byte2(w) as nat), 256 * (Byte1(w) as nat) + (Byte0(w) as nat))
  }

  /** Mark(slot) of the source. */
  function SlotMark(slot: bv8): bv32 { 0x4f000000 | ((slot as bv32) << 16) }

  lemma SameByte(a: bv8, b: bv8)
    ensures (a as nat) == (b as nat) ==> a == b
  {
  }

  lemma SmallByte(a: bv8)
    ensures (a as nat) < 256
  {
  }

  // ----- masks and bytes

  lemma OwnerBytes(w: bv32, slot: bv8)
    ensures w & 0xffff0000 == SlotMark(slot) <==> Byte3(w) == 0x4f && Byte2(w) == slot
  {
  }

  lemma NamespaceByte(w: bv32)
    ensures w & 0xff000000 == 0x4f000000 <==> Byte3(w) == 0x4f
  {
  }

  lemma EngineByte(w: bv32)
    ensures w & 0x0000c000 == 0 <==> Byte1(w) < 64
  {
  }

  lemma LessByte(b: bv8)
    ensures b < 64 <==> (b as nat) < 64
  {
  }

  lemma WrittenBytes(w: bv32, slot: bv8)
    ensures var x := (w & 0x0000ffff) | SlotMark(slot);
            Byte3(x) == 0x4f && Byte2(x) == slot && Byte1(x) == Byte1(w) && Byte0(x) == Byte0(w)
  {
  }

  lemma TaggedBytes(w: bv32)
    requires w & 0x0000c000 == 0
    ensures var x := w | 0x4000;
            Byte3(x) == Byte3(w) && Byte2(x) == Byte2(w) && Byte1(x) == Byte1(w) | 0x40 && Byte0(x) == Byte0(w) && Byte1(w) & 0x40 == 0
  {
  }

  lemma TaggedByte(b: bv8)
    requires b & 0x40 == 0
    ensures ((b | 0x40) as nat) == (b as nat) + 64
  {
  }

  // ----- the evaluator

  lemma OwnerRead(w: bv32, slot: bv8)
    ensures MarkOf(w).owner == Owner(slot as nat) <==> w & 0xffff0000 == SlotMark(slot)
  {
    OwnerBytes(w, slot);
    SameByte(Byte3(w), 0x4f);
    SameByte(Byte2(w), slot);
    SmallByte(Byte2(w));
    SmallByte(slot);
  }

  lemma NamespaceRead(w: bv32)
    ensures Foreign(MarkOf(w)) <==> w & 0xff000000 != 0x4f000000
  {
    NamespaceByte(w);
    SameByte(Byte3(w), 0x4f);
    SmallByte(Byte2(w));
  }

  lemma EngineRead(w: bv32)
    ensures MarkOf(w).low / 0x4000 % 4 == 0 <==> w & 0x0000c000 == 0
  {
    EngineByte(w);
    LessByte(Byte1(w));
    SmallByte(Byte1(w));
    SmallByte(Byte0(w));
    UpperBits(Byte1(w) as nat, Byte0(w) as nat);
  }

  lemma UpperBits(high: nat, low: nat)
    requires high < 256 && low < 256
    ensures (256 * high + low) / 0x4000 % 4 == 0 <==> high < 64
  {
  }

  /** Every match of the evaluator on a mark is the source's mask on its word. */
  lemma ReadsAreMasks(w: bv32, slot: bv8, p: Packet)
    ensures Hits(CtOwner(Owner(slot as nat)), p.(ct := MarkOf(w))) <==> w & 0xffff0000 == SlotMark(slot)
    ensures Hits(MetaOwner(Owner(slot as nat)), p.(meta := MarkOf(w))) <==> w & 0xffff0000 == SlotMark(slot)
    ensures Hits(CtForeign, p.(ct := MarkOf(w))) <==> w & 0xff000000 != 0x4f000000
    ensures Hits(EngineClear, p.(meta := MarkOf(w))) <==> w & 0x0000c000 == 0
  {
    OwnerRead(w, slot);
    NamespaceRead(w);
    EngineRead(w);
  }

  lemma OwnerWritten(w: bv32, slot: bv8)
    ensures MarkOf((w & 0x0000ffff) | SlotMark(slot)) == Mark(Owner(slot as nat), MarkOf(w).low)
  {
    WrittenBytes(w, slot);
  }

  lemma TagWritten(w: bv32)
    requires w & 0x0000c000 == 0
    ensures MarkOf(w | 0x4000) == MarkOf(w).(low := Tagged(MarkOf(w).low))
  {
    var low := MarkOf(w).low;
    assert MarkOf(w | 0x4000) == MarkOf(w).(low := low + 0x4000) by { TaggedMark(w); }
    assert Tagged(low) == low + 0x4000 by { EngineRead(w); }
  }

  lemma TaggedMark(w: bv32)
    requires w & 0x0000c000 == 0
    ensures MarkOf(w | 0x4000) == MarkOf(w).(low := MarkOf(w).low + 0x4000)
  {
    TaggedBytes(w);
    TaggedByte(Byte1(w));
  }

  /** Every mark the evaluator writes is the word the source writes: the lower half
      is kept, and an engine's tag is its bit. */
  lemma WritesAreMasks(w: bv32, slot: bv8, r: Rule, p: Packet)
    ensures r.setCt == Owner(slot as nat) ==> Marked(r, p.(ct := MarkOf(w))).ct == MarkOf((w & 0x0000ffff) | SlotMark(slot))
    ensures r.setMeta == Owner(slot as nat) ==> Marked(r, p.(meta := MarkOf(w))).meta == MarkOf((w & 0x0000ffff) | SlotMark(slot))
    ensures w & 0x0000c000 == 0 ==> MarkOf(w | 0x4000) == MarkOf(w).(low := Tagged(MarkOf(w).low))
  {
    OwnerWritten(w, slot);
    if w & 0x0000c000 == 0 { TagWritten(w); }
  }
}
