/**
 * The flag word of td's TL serialisation helpers (BEGIN_STORE_FLAGS /
 * STORE_FLAG / END_STORE_FLAGS and their PARSE_ counterparts): the i-th
 * stored flag becomes bit i of one unsigned word, and the parser rejects a
 * word that has a bit set beyond the flags it knows.
 */
module TlFlags {
  import opened Wrappers

  function Pow2(k: nat): (p: nat)
    ensures p >= 1
  {
    if k == 0 then 1 else 2 * Pow2(k - 1)
  }

  /** The flag word STORE_FLAG builds from `bits`, first flag in bit 0. */
  function Pack(bits: seq<bool>): (word: nat)
    ensures word < Pow2(|bits|)
  {
    if bits == [] then 0 else (if bits[0] then 1 else 0) + 2 * Pack(bits[1..])
  }

  /** Bit i of the word, as PARSE_FLAG reads it. */
  predicate Bit(word: nat, i: nat)
  {
    if i == 0 then word % 2 == 1 else Bit(word / 2, i - 1)
  }

  /** The first k flags of the word; None when a higher bit is set (END_PARSE_FLAGS fails). */
  function Unpack(word: nat, k: nat): (r: Option<seq<bool>>)
    ensures r.Some? <==> word < Pow2(k)
    ensures r.Some? ==> |r.value| == k && forall i :: 0 <= i < k ==> r.value[i] == Bit(word, i)
  {
    if word < Pow2(k) then Some(seq(k, i requires 0 <= i < k => Bit(word, i))) else None
  }

  lemma {:induction false} PackBit(bits: seq<bool>, i: nat)
    requires i < |bits|
    ensures Bit(Pack(bits), i) == bits[i]
  {
    var rest := Pack(bits[1..]);
    var b := if bits[0] then 1 else 0;
    assert Pack(bits) == b + 2 * rest;
    if i == 0 {
      assert Pack(bits) % 2 == b;
    } else {
      assert Pack(bits) / 2 == rest;
      PackBit(bits[1..], i - 1);
      assert bits[1..][i - 1] == bits[i];
    }
  }

  /** Parsing a packed word gives back exactly the stored flags. */
  lemma {:induction false} UnpackPack(bits: seq<bool>)
    ensures Unpack(Pack(bits), |bits|) == Some(bits)
  {
    var r := Unpack(Pack(bits), |bits|);
    assert r.Some?;
    forall i | 0 <= i < |bits| ensures r.value[i] == bits[i] {
      PackBit(bits, i);
    }
    assert r.value == bits;
  }

  /** Conversely, a word the parser accepts is the packing of the flags it reads. */
  lemma {:induction false} PackUnpack(word: nat, k: nat)
    requires word < Pow2(k)
    ensures Pack(Unpack(word, k).value) == word
  {
    var bits := Unpack(word, k).value;
    if k == 0 {
      assert bits == [];
    } else {
      var tail := Unpack(word / 2, k - 1).value;
      assert bits[1..] == tail by {
        forall i | 0 <= i < k - 1 ensures bits[1..][i] == tail[i] {
          assert bits[i + 1] == Bit(word, i + 1);
        }
      }
      PackUnpack(word / 2, k - 1);
      assert bits[0] == (word % 2 == 1);
    }
  }
}
