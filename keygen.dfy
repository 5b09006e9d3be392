/**
 * Client keys: `genkey` of webserver.js. The source picks each character at
 * position `Math.floor(Math.random() * chars.length)`; here those positions
 * are a parameter (one per character), so key generation is a pure function.
 */
module KeyGen {

  /** The 50 characters a key is made of. */
  const Alphabet: string := "ABCDEFGHIJKLMNOPQRSTUVWXYZ0123456789!@#$%^&*()_+-="

  /** The length `genkey` uses when none is given, and the one `/addclient` asks for. */
  const DefaultLength: nat := 16

  /** The range of `Math.random()`. */
  predicate IsRandomDraw(r: real) {
    0.0 <= r < 1.0
  }

  /** `Math.floor(r * chars.length)`, with the product taken exactly: a position in the alphabet. */
  function CharIndex(r: real): (i: nat)
    requires IsRandomDraw(r)
    ensures i < |Alphabet|
    ensures i as real <= r * |Alphabet| as real
  {
    (r * |Alphabet| as real).Floor
  }

  /** Every index is a position in the alphabet. */
  predicate AllPositions(indices: seq<nat>) {
    forall i :: 0 <= i < |indices| ==> indices[i] < |Alphabet|
  }

  predicate OverAlphabet(key: string) {
    forall i :: 0 <= i < |key| ==> key[i] in Alphabet
  }

  /** `genkey(indices.Length)`: one character per index, the i-th character at the i-th chosen position. */
  function GenKey(indices: seq<nat>): (key: string)
    requires AllPositions(indices)
    ensures |key| == |indices|
    ensures forall i :: 0 <= i < |key| ==> key[i] == Alphabet[indices[i]]
    ensures OverAlphabet(key)
  {
    if indices == [] then ""
    else [Alphabet[indices[0]]] + GenKey(indices[1..])
  }

  /** The first position of `c` in `s`. */
  function PositionIn(c: char, s: string): (i: nat)
    requires c in s
    ensures i < |s| && s[i] == c
    ensures forall j :: 0 <= j < i ==> s[j] != c
  {
    if s[0] == c then 0 else 1 + PositionIn(c, s[1..])
  }

  /** Positions that make `GenKey` produce `key`. */
  function PositionsFor(key: string): (indices: seq<nat>)
    requires OverAlphabet(key)
    ensures |indices| == |key| && AllPositions(indices)
    ensures forall i :: 0 <= i < |key| ==> Alphabet[indices[i]] == key[i]
  {
    if key == [] then []
    else [PositionIn(key[0], Alphabet)] + PositionsFor(key[1..])
  }

  /**
   * Every string of alphabet characters is a key `genkey` can produce: each
   * length-n string over the alphabet comes from some n positions.
   */
  lemma EveryKeyIsReachable(key: string)
    requires OverAlphabet(key)
    ensures GenKey(PositionsFor(key)) == key
  {
  }
}
