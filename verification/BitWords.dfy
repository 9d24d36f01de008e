/**
 Bits of 64-bit words, indexed across the words: bit `i` is bit `i % 64` of word `i / 64`.
 */
module BitWords {
  function Mask(k: bv6): bv64 {
    1 << k
  }

  predicate WordBit(word: bv64, k: bv6) {
    word & Mask(k) != 0
  }

  /** The place of bit `index` within its word. */
  function Place(index: nat): bv6 {
    (index % 64) as bv6
  }

  /** Whether bit `index` of the words is set. */
  predicate Bit(words: seq<bv64>, index: nat)
    requires index < 64 * |words|
  {
    WordBit(words[index / 64], Place(index))
  }

  lemma SetSame(word: bv64, k: bv6)
    ensures WordBit(word | Mask(k), k)
  {
  }

  lemma SetOther(word: bv64, k: bv6, k': bv6)
    requires k != k'
    ensures WordBit(word | Mask(k), k') == WordBit(word, k')
  {
  }

  lemma ClearSame(word: bv64, k: bv6)
    ensures !WordBit(word & !Mask(k), k)
  {
  }

  lemma ClearOther(word: bv64, k: bv6, k': bv6)
    requires k != k'
    ensures WordBit(word & !Mask(k), k') == WordBit(word, k')
  {
  }

  lemma PlacesDiffer(j: nat, k: nat)
    requires j % 64 != k % 64
    ensures Place(j) != Place(k)
  {
  }

  method SetInWord(word: bv64, k: bv6) returns (r: bv64)
    ensures forall k' :: WordBit(r, k') <==> k' == k || WordBit(word, k')
  {
    r := word | Mask(k);
    forall k' ensures WordBit(r, k') <==> k' == k || WordBit(word, k') {
      if k' == k {
        SetSame(word, k);
      } else {
        SetOther(word, k, k');
      }
    }
  }

  method ClearInWord(word: bv64, k: bv6) returns (r: bv64)
    ensures forall k' :: WordBit(r, k') <==> k' != k && WordBit(word, k')
  {
    r := word & !Mask(k);
    forall k' ensures WordBit(r, k') <==> k' != k && WordBit(word, k') {
      if k' == k {
        ClearSame(word, k);
      } else {
        ClearOther(word, k, k');
      }
    }
  }

  method BitIsSet(words: array<bv64>, index: nat) returns (isSet: bool)
    requires index < 64 * words.Length
    ensures isSet == Bit(words[..], index)
  {
    isSet := WordBit(words[index / 64], Place(index));
  }

  method SetBit(words: array<bv64>, index: nat)
    requires index < 64 * words.Length
    modifies words
    ensures forall j: nat | j < 64 * words.Length :: Bit(words[..], j) <==> j == index || Bit(old(words[..]), j)
  {
    ghost var before := words[..];
    var word := SetInWord(words[index / 64], Place(index));
    words[index / 64] := word;
    forall j: nat | j < 64 * words.Length ensures Bit(words[..], j) <==> j == index || Bit(before, j) {
      if j % 64 != index % 64 {
        PlacesDiffer(j, index);
      }
    }
  }

  method ClearBit(words: array<bv64>, index: nat)
    requires index < 64 * words.Length
    modifies words
    ensures forall j: nat | j < 64 * words.Length :: Bit(words[..], j) <==> j != index && Bit(old(words[..]), j)
  {
    ghost var before := words[..];
    var word := ClearInWord(words[index / 64], Place(index));
    words[index / 64] := word;
    forall j: nat | j < 64 * words.Length ensures Bit(words[..], j) <==> j != index && Bit(before, j) {
      if j % 64 != index % 64 {
        PlacesDiffer(j, index);
      }
    }
  }

  lemma ZeroHasNoBits(words: seq<bv64>)
    requires forall i :: 0 <= i < |words| ==> words[i] == 0
    ensures forall j: nat | j < 64 * |words| :: !Bit(words, j)
  {
  }
}
