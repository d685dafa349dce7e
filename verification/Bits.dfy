/** Machine words as strings of bits, most significant bit first.                          */
module Bits {

  type Word = w: seq<bool> | |w| == 32 witness seq(32, i => false)
  type Byte = b: seq<bool> | |b| == 8 witness seq(8, i => false)

  const ZERO_BYTE: Byte := [false, false, false, false, false, false, false, false]
  const ZERO_WORD: Word := ZERO_BYTE + ZERO_BYTE + ZERO_BYTE + ZERO_BYTE

  function Xor(a: seq<bool>, b: seq<bool>): (c: seq<bool>)
    requires |a| == |b|
    ensures |c| == |a| && forall i :: 0 <= i < |a| ==> c[i] == (a[i] != b[i])
  {
    seq(|a|, i requires 0 <= i < |a| => a[i] != b[i])
  }

  function And(a: seq<bool>, b: seq<bool>): (c: seq<bool>)
    requires |a| == |b|
    ensures |c| == |a| && forall i :: 0 <= i < |a| ==> c[i] == (a[i] && b[i])
  {
    seq(|a|, i requires 0 <= i < |a| => a[i] && b[i])
  }

  function Or(a: seq<bool>, b: seq<bool>): (c: seq<bool>)
    requires |a| == |b|
    ensures |c| == |a| && forall i :: 0 <= i < |a| ==> c[i] == (a[i] || b[i])
  {
    seq(|a|, i requires 0 <= i < |a| => a[i] || b[i])
  }

  function Not(a: seq<bool>): (c: seq<bool>)
    ensures |c| == |a| && forall i :: 0 <= i < |a| ==> c[i] == !a[i]
  {
    seq(|a|, i requires 0 <= i < |a| => !a[i])
  }

  function Rol(x: Word, n: nat): Word
    requires n <= 32
  {
    x[n..] + x[..n]
  }

  lemma XorCancel(a: seq<bool>, b: seq<bool>)
    requires |a| == |b|
    ensures Xor(Xor(a, b), b) == a
  {
  }

  lemma RolXor(a: Word, b: Word, n: nat)
    requires n <= 32
    ensures Rol(Xor(a, b), n) == Xor(Rol(a, n), Rol(b, n))
  {
  }

  lemma RolInverse(a: Word, n: nat)
    requires n <= 32
    ensures Rol(Rol(a, n), 32 - n) == a
  {
  }

  lemma AndXor(a: Word, c: Word, k: Word)
    ensures And(Xor(a, c), k) == Xor(And(a, k), And(c, k))
  {
  }

  lemma OrXor(a: Word, c: Word, k: Word)
    ensures Or(Xor(a, c), k) == Xor(Or(a, k), And(c, Not(k)))
  {
  }

}
