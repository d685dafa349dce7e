/** The Camellia cipher as sections 2.3 and 2.4 of RFC 3713 write it, for any four S-boxes
    and any table of raw subkeys.                                                         */
module Camellia {
  import opened Bits

  /** Half a block, as the two words the kernel keeps it in. */
  datatype Half = Half(l: Word, r: Word)

  datatype Boxes = Boxes(s1: Byte -> Byte, s2: Byte -> Byte, s3: Byte -> Byte, s4: Byte -> Byte)

  const ZERO := Half(ZERO_WORD, ZERO_WORD)

  function Add(a: Half, b: Half): Half { Half(Xor(a.l, b.l), Xor(a.r, b.r)) }

  // ---------- the components ----------

  /** Byte i of a word, the most significant being byte 1. */
  function ByteAt(x: Word, i: nat): Byte
    requires 1 <= i <= 4
  {
    x[8 * (i - 1)..8 * i]
  }

  function Cat(b1: Byte, b2: Byte, b3: Byte, b4: Byte): Word { b1 + b2 + b3 + b4 }

  function Sum5(a: Byte, b: Byte, c: Byte, d: Byte, e: Byte): Byte { Xor(Xor(Xor(Xor(a, b), c), d), e) }

  function Sum6(a: Byte, b: Byte, c: Byte, d: Byte, e: Byte, f: Byte): Byte { Xor(Sum5(a, b, c, d, e), f) }

  /** The P-layer. */
  function P(t1: Byte, t2: Byte, t3: Byte, t4: Byte, t5: Byte, t6: Byte, t7: Byte, t8: Byte): Half {
    Half(Cat(Sum6(t1, t3, t4, t6, t7, t8), Sum6(t1, t2, t4, t5, t7, t8),
             Sum6(t1, t2, t3, t5, t6, t8), Sum6(t2, t3, t4, t5, t6, t7)),
         Cat(Sum5(t1, t2, t6, t7, t8), Sum5(t2, t3, t5, t7, t8),
             Sum5(t3, t4, t5, t6, t8), Sum5(t1, t4, t5, t6, t7)))
  }

  /** The S-layer and the P-layer on a half that already carries its key. */
  function SP(s: Boxes, x: Half): Half {
    P(s.s1(ByteAt(x.l, 1)), s.s2(ByteAt(x.l, 2)), s.s3(ByteAt(x.l, 3)), s.s4(ByteAt(x.l, 4)),
      s.s2(ByteAt(x.r, 1)), s.s3(ByteAt(x.r, 2)), s.s4(ByteAt(x.r, 3)), s.s1(ByteAt(x.r, 4)))
  }

  function F(s: Boxes, x: Half, k: Half): Half { SP(s, Add(x, k)) }

  function FL(x: Half, k: Half): Half {
    var r := Xor(x.r, Rol(And(x.l, k.l), 1));
    Half(Xor(x.l, Or(r, k.r)), r)
  }

  function FLInv(y: Half, k: Half): Half {
    var l := Xor(y.l, Or(y.r, k.r));
    Half(l, Xor(y.r, Rol(And(l, k.l), 1)))
  }

  // ---------- the network ----------

  datatype Block = Block(d1: Half, d2: Half)

  /** Two consecutive rounds: the first changes the right half, the second the left one. */
  function RoundPair(s: Boxes, b: Block, k1: Half, k2: Half): Block {
    var d2 := Add(b.d2, F(s, b.d1, k1));
    Block(Add(b.d1, F(s, d2, k2)), d2)
  }

  /** Table layout: entry 0 is kw1, entry 1 kw2; group g has its six round keys at 8g+2 to
      8g+7 and, unless it is the last, its FL keys at 8g+8 and 8g+9; kw3 and kw4 are at 8n
      and 8n+1, where n is the number of groups (3 for 18 rounds, 4 for 24). */
  predicate IsTable(t: seq<Half>, n: nat) { n > 0 && |t| == 8 * n + 2 }

  function Group(s: Boxes, t: seq<Half>, g: nat, b: Block): Block
    requires 8 * g + 8 <= |t|
  {
    var b1 := RoundPair(s, b, t[8 * g + 2], t[8 * g + 3]);
    var b2 := RoundPair(s, b1, t[8 * g + 4], t[8 * g + 5]);
    RoundPair(s, b2, t[8 * g + 6], t[8 * g + 7])
  }

  function FLLayer(t: seq<Half>, g: nat, b: Block): Block
    requires 8 * g + 10 <= |t|
  {
    Block(FL(b.d1, t[8 * g + 8]), FLInv(b.d2, t[8 * g + 9]))
  }

  /** The state on entering the rounds of group g. */
  function Entering(s: Boxes, t: seq<Half>, n: nat, m: Block, g: nat): Block
    requires IsTable(t, n) && g < n
  {
    if g == 0 then Block(Add(m.d1, t[0]), Add(m.d2, t[1]))
    else FLLayer(t, g - 1, Group(s, t, g - 1, Entering(s, t, n, m, g - 1)))
  }

  function Textbook(s: Boxes, t: seq<Half>, n: nat, m: Block): Block
    requires IsTable(t, n)
  {
    var b := Group(s, t, n - 1, Entering(s, t, n, m, n - 1));
    Block(Add(b.d2, t[8 * n]), Add(b.d1, t[8 * n + 1]))
  }
}
