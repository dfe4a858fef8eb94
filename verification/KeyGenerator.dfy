/**
 64-bit keys with an 8-bit tag, an 8-bit slot and a 48-bit sequence (KeyGenerator.h).  The bit
 fields do not overlap, so shifts and masks are divisions, remainders and sums of powers of two.
 */
module KeyGenerator {
  import opened Basics

  const SEQUENCES: nat := 0x1_0000_0000_0000       // 2^48
  const SLOT_UNIT: nat := SEQUENCES
  const TAG_UNIT: nat := 0x100_0000_0000_0000      // 2^56
  const DB_QUERY: nat := 1                         // KeyTag::DBQuery

  function GetTag(id: nat): nat { id / TAG_UNIT % 256 }

  function GetSlot(id: nat): nat { id / SLOT_UNIT % 256 }

  function GetSeq(id: nat): nat { id % SEQUENCES }

  predicate IsValid(id: nat) { GetSeq(id) != 0 }

  /** The sequence field of the n-th key: n modulo 2^48, skipping the reserved 0. */
  function SeqField(n: nat): nat { if n % SEQUENCES == 0 then 1 else n % SEQUENCES }

  /** The key returned by the n-th call of Next on a generator. */
  function KeyOf(tag: nat, slot: nat, n: nat): nat { tag * TAG_UNIT + slot * SLOT_UNIT + SeqField(n) }

  class Generator {
    const tag: nat
    const slot: nat
    var count: nat   // mSeq

    constructor (tag: nat, slot: nat)
      requires tag < 256 && slot < 256
      ensures this.tag == tag && this.slot == slot && count == 0
    {
      this.tag, this.slot, this.count := tag, slot, 0;
    }

    /** The counter wraps at 2^64, which 2^48 divides, so only the sequence field can repeat. */
    method Next() returns (id: nat)
      requires tag < 256 && slot < 256 && count < WORD
      modifies this
      ensures count == (old(count) + 1) % WORD
      ensures id == KeyOf(tag, slot, old(count) + 1)
    {
      var field := (count + 1) % WORD % SEQUENCES;
      count := (count + 1) % WORD;
      if field == 0 { field := 1; }
      id := tag * TAG_UNIT + slot * SLOT_UNIT + field;
    }
  }

  /** Every key carries its tag and slot back, and is valid. */
  lemma KeyFields(tag: nat, slot: nat, n: nat)
    requires tag < 256 && slot < 256
    ensures var id := KeyOf(tag, slot, n);
            GetTag(id) == tag && GetSlot(id) == slot && GetSeq(id) == SeqField(n) && IsValid(id)
  {
    var id, q := KeyOf(tag, slot, n), SeqField(n);
    assert id == tag * 256 * SLOT_UNIT + slot * SLOT_UNIT + q;
    assert id / SLOT_UNIT == tag * 256 + slot;
  }

  /** Two keys are equal exactly when tag, slot and sequence field are. */
  lemma KeysEqual(tag: nat, slot: nat, n: nat, tag': nat, slot': nat, n': nat)
    requires tag < 256 && slot < 256 && tag' < 256 && slot' < 256
    ensures KeyOf(tag, slot, n) == KeyOf(tag', slot', n') <==>
            tag == tag' && slot == slot' && SeqField(n) == SeqField(n')
  {
    KeyFields(tag, slot, n);
    KeyFields(tag', slot', n');
  }

  /** The first 2^48 - 1 keys of a generator are pairwise distinct; the next one repeats the first. */
  lemma FirstRepeat(tag: nat, slot: nat, n: nat, m: nat)
    requires tag < 256 && slot < 256 && 0 < n < m
    ensures m < SEQUENCES ==> KeyOf(tag, slot, n) != KeyOf(tag, slot, m)
    ensures KeyOf(tag, slot, SEQUENCES) == KeyOf(tag, slot, 1)
  {
    KeysEqual(tag, slot, n, tag, slot, m);
  }
}
