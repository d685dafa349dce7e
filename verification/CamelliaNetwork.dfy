/** The network that the kernel runs: four 32-bit tables per half, the key added at the end
    of the round through half a P-layer, two of the four whitening keys gone.             */
module CamelliaNetwork {
  import opened Bits
  import opened Camellia

  // ---------- the rounds ----------

  function Sp1110(s: Boxes, b: Byte): Word { Cat(s.s1(b), s.s1(b), s.s1(b), ZERO_BYTE) }
  function Sp0222(s: Boxes, b: Byte): Word { Cat(ZERO_BYTE, s.s2(b), s.s2(b), s.s2(b)) }
  function Sp3033(s: Boxes, b: Byte): Word { Cat(s.s3(b), ZERO_BYTE, s.s3(b), s.s3(b)) }
  function Sp4404(s: Boxes, b: Byte): Word { Cat(s.s4(b), s.s4(b), ZERO_BYTE, s.s4(b)) }

  function LookupL(s: Boxes, x: Word): Word {
    Xor(Xor(Xor(Sp1110(s, ByteAt(x, 1)), Sp0222(s, ByteAt(x, 2))), Sp3033(s, ByteAt(x, 3))), Sp4404(s, ByteAt(x, 4)))
  }

  function LookupR(s: Boxes, x: Word): Word {
    Xor(Xor(Xor(Sp1110(s, ByteAt(x, 4)), Sp0222(s, ByteAt(x, 1))), Sp3033(s, ByteAt(x, 2))), Sp4404(s, ByteAt(x, 3)))
  }

  function Ror8(x: Word): Word { Rol(x, 24) }

  /** What CAMELLIA_ROUNDSM adds to the other half. */
  function RoundSM(s: Boxes, x: Half, k: Half): Half {
    var il := Xor(LookupL(s, x.l), k.l);
    var ir := Xor(LookupR(s, x.r), Xor(il, k.r));
    Half(ir, Xor(Ror8(il), ir))
  }

  function KRoundPair(s: Boxes, b: Block, k1: Half, k2: Half): Block {
    var d2 := Add(b.d2, RoundSM(s, b.d1, k1));
    Block(Add(b.d1, RoundSM(s, d2, k2)), d2)
  }

  function KGroup(s: Boxes, t: seq<Half>, g: nat, b: Block): Block
    requires 8 * g + 8 <= |t|
  {
    var b1 := KRoundPair(s, b, t[8 * g + 2], t[8 * g + 3]);
    var b2 := KRoundPair(s, b1, t[8 * g + 4], t[8 * g + 5]);
    KRoundPair(s, b2, t[8 * g + 6], t[8 * g + 7])
  }

  function KEntering(s: Boxes, t: seq<Half>, n: nat, m: Block, g: nat): Block
    requires IsTable(t, n) && g < n
  {
    if g == 0 then Block(Add(m.d1, t[0]), m.d2)
    else FLLayer(t, g - 1, KGroup(s, t, g - 1, KEntering(s, t, n, m, g - 1)))
  }

  /** camellia_do_encrypt, including the swap of halves left to its caller. */
  function Encrypt(s: Boxes, t: seq<Half>, n: nat, m: Block): Block
    requires IsTable(t, n)
  {
    var b := KGroup(s, t, n - 1, KEntering(s, t, n, m, n - 1));
    Block(Add(b.d2, t[8 * n]), b.d1)
  }

  // ---------- the rewritten subkeys ----------

  /** The last half of the P-layer, which the key of a round still goes through ... */
  function HalfP(k: Half): Half { Half(Xor(k.l, k.r), Xor(Ror8(k.l), Xor(k.l, k.r))) }

  /** ... and its inverse, applied to the subkeys in advance. */
  function HalfPInv(k: Half): Half {
    var dw := Rol(Xor(k.l, k.r), 8);
    Half(dw, Xor(k.l, dw))
  }

  /** How FLInv, and FL backwards, carry a difference: both are affine with this linear
      part. */
  function Carry(c: Half, k: Half): Half {
    var l := Xor(c.l, And(c.r, Not(k.r)));
    Half(l, Xor(c.r, Rol(And(l, k.l), 1)))
  }

  /** kw2 as seen by group g, after passing the FLInv layers before it. */
  function Kw2At(t: seq<Half>, g: nat): Half
    requires 8 * g + 2 <= |t|
  {
    if g == 0 then t[1] else Carry(Kw2At(t, g - 1), t[8 * g + 1])
  }

  /** kw4 as seen by group g, after passing backwards the FL layers behind it. */
  function Kw4At(t: seq<Half>, n: nat, g: nat): Half
    requires IsTable(t, n) && g < n
    decreases n - g
  {
    if g == n - 1 then t[8 * n + 1] else Carry(Kw4At(t, n, g + 1), t[8 * g + 8])
  }

  /** u is t with kw2 and kw4 absorbed into the other subkeys. */
  predicate Absorbs(t: seq<Half>, u: seq<Half>, n: nat) {
    && IsTable(t, n) && IsTable(u, n)
    && u[0] == Add(t[0], Kw4At(t, n, 0))
    && u[8 * n] == Add(t[8 * n], Kw2At(t, n - 1))
    && (forall g :: 0 <= g < n ==> AbsorbsGroup(t, u, n, g))
    && (forall g :: 0 <= g < n - 1 ==> SameFLKeys(t, u, g))
  }

  predicate AbsorbsGroup(t: seq<Half>, u: seq<Half>, n: nat, g: nat)
    requires IsTable(t, n) && IsTable(u, n) && g < n
  {
    var c, d := Kw2At(t, g), Kw4At(t, n, g);
    && u[8 * g + 2] == Add(t[8 * g + 2], d) && u[8 * g + 3] == Add(t[8 * g + 3], c)
    && u[8 * g + 4] == Add(t[8 * g + 4], d) && u[8 * g + 5] == Add(t[8 * g + 5], c)
    && u[8 * g + 6] == Add(t[8 * g + 6], d) && u[8 * g + 7] == Add(t[8 * g + 7], c)
  }

  predicate SameFLKeys(t: seq<Half>, u: seq<Half>, g: nat) {
    8 * g + 10 <= |t| && 8 * g + 10 <= |u| && u[8 * g + 8] == t[8 * g + 8] && u[8 * g + 9] == t[8 * g + 9]
  }

  /** What the right half still carries when it enters group g. */
  function LeftOver(u: seq<Half>, g: nat): Half
    requires 8 * g + 2 <= |u|
  {
    if g == 0 then ZERO else Carry(u[8 * g - 1], u[8 * g + 1])
  }

  /** What the left half must carry when it leaves group g. */
  function Ahead(u: seq<Half>, n: nat, g: nat): Half
    requires IsTable(u, n) && g < n
  {
    if g == n - 1 then ZERO else Carry(u[8 * g + 10], u[8 * g + 8])
  }

  /** v is u with every key XOR moved to the end of the preceding round. */
  predicate Folds(u: seq<Half>, v: seq<Half>, n: nat) {
    && IsTable(u, n) && IsTable(v, n)
    && v[0] == Add(u[0], u[2])
    && v[8 * n] == Add(u[8 * n], u[8 * n - 1])
    && (forall g :: 0 <= g < n ==> FoldsGroup(u, v, n, g))
    && (forall g :: 0 <= g < n - 1 ==> SameFLKeys(u, v, g))
  }

  predicate FoldsGroup(u: seq<Half>, v: seq<Half>, n: nat, g: nat)
    requires IsTable(u, n) && IsTable(v, n) && g < n
  {
    && v[8 * g + 2] == Add(LeftOver(u, g), u[8 * g + 3])
    && v[8 * g + 3] == Add(u[8 * g + 2], u[8 * g + 4])
    && v[8 * g + 4] == Add(u[8 * g + 3], u[8 * g + 5])
    && v[8 * g + 5] == Add(u[8 * g + 4], u[8 * g + 6])
    && v[8 * g + 6] == Add(u[8 * g + 5], u[8 * g + 7])
    && v[8 * g + 7] == Add(u[8 * g + 6], Ahead(u, n, g))
  }

  /** w is v with the inverse half P-layer applied to the round keys. */
  predicate HalfInverts(v: seq<Half>, w: seq<Half>, n: nat) {
    && IsTable(v, n) && IsTable(w, n)
    && w[0] == v[0] && w[8 * n] == v[8 * n]
    && (forall g :: 0 <= g < n ==> HalfInvertsGroup(v, w, n, g))
    && (forall g :: 0 <= g < n - 1 ==> SameFLKeys(v, w, g))
  }

  predicate HalfInvertsGroup(v: seq<Half>, w: seq<Half>, n: nat, g: nat)
    requires IsTable(v, n) && IsTable(w, n) && g < n
  {
    && w[8 * g + 2] == HalfPInv(v[8 * g + 2]) && w[8 * g + 3] == HalfPInv(v[8 * g + 3])
    && w[8 * g + 4] == HalfPInv(v[8 * g + 4]) && w[8 * g + 5] == HalfPInv(v[8 * g + 5])
    && w[8 * g + 6] == HalfPInv(v[8 * g + 6]) && w[8 * g + 7] == HalfPInv(v[8 * g + 7])
  }

  // ---------- algebra ----------

  lemma CatXor(a1: Byte, a2: Byte, a3: Byte, a4: Byte, b1: Byte, b2: Byte, b3: Byte, b4: Byte)
    ensures Xor(Cat(a1, a2, a3, a4), Cat(b1, b2, b3, b4)) == Cat(Xor(a1, b1), Xor(a2, b2), Xor(a3, b3), Xor(a4, b4))
  {
  }

  lemma Ror8Cat(a1: Byte, a2: Byte, a3: Byte, a4: Byte)
    ensures Ror8(Cat(a1, a2, a3, a4)) == Cat(a4, a1, a2, a3)
  {
  }

  function Sum3(a: Byte, b: Byte, c: Byte): Byte { Xor(Xor(a, b), c) }

  /** Four look-ups on one word: each output byte is the sum of three of the four. */
  lemma LookupBytes(t1: Byte, t2: Byte, t3: Byte, t4: Byte)
    ensures Xor(Xor(Xor(Cat(t1, t1, t1, ZERO_BYTE), Cat(ZERO_BYTE, t2, t2, t2)), Cat(t3, ZERO_BYTE, t3, t3)),
                Cat(t4, t4, ZERO_BYTE, t4))
            == Cat(Sum3(t1, t3, t4), Sum3(t1, t2, t4), Sum3(t1, t2, t3), Sum3(t2, t3, t4))
  {
    var z := ZERO_BYTE;
    CatXor(t1, t1, t1, z, z, t2, t2, t2);
    CatXor(Xor(t1, z), Xor(t1, t2), Xor(t1, t2), Xor(z, t2), t3, z, t3, t3);
    CatXor(Xor(Xor(t1, z), t3), Xor(Xor(t1, t2), z), Sum3(t1, t2, t3), Xor(Xor(z, t2), t3), t4, t4, z, t4);
    assert Xor(Xor(Xor(t1, z), t3), t4) == Sum3(t1, t3, t4) && Xor(Xor(Xor(t1, t2), z), t4) == Sum3(t1, t2, t4);
    assert Xor(Sum3(t1, t2, t3), z) == Sum3(t1, t2, t3) && Xor(Xor(Xor(z, t2), t3), t4) == Sum3(t2, t3, t4);
  }

  /** The table look-ups and half a P-layer are the textbook S- and P-layers. */
  lemma LookupsAreSP(s: Boxes, x: Half)
    ensures SP(s, x) == HalfP(Half(LookupL(s, x.l), LookupR(s, x.r)))
  {
    var t1, t2, t3, t4 := s.s1(ByteAt(x.l, 1)), s.s2(ByteAt(x.l, 2)), s.s3(ByteAt(x.l, 3)), s.s4(ByteAt(x.l, 4));
    var t5, t6, t7, t8 := s.s2(ByteAt(x.r, 1)), s.s3(ByteAt(x.r, 2)), s.s4(ByteAt(x.r, 3)), s.s1(ByteAt(x.r, 4));
    LookupBytes(t1, t2, t3, t4);
    LookupBytes(t8, t5, t6, t7);
    PIsHalfP(t1, t2, t3, t4, t5, t6, t7, t8);
  }

  lemma PIsHalfP(t1: Byte, t2: Byte, t3: Byte, t4: Byte, t5: Byte, t6: Byte, t7: Byte, t8: Byte)
    ensures P(t1, t2, t3, t4, t5, t6, t7, t8) ==
            HalfP(Half(Cat(Sum3(t1, t3, t4), Sum3(t1, t2, t4), Sum3(t1, t2, t3), Sum3(t2, t3, t4)),
                       Cat(Sum3(t8, t6, t7), Sum3(t8, t5, t7), Sum3(t8, t5, t6), Sum3(t5, t6, t7))))
  {
    var a1, a2, a3, a4 := Sum3(t1, t3, t4), Sum3(t1, t2, t4), Sum3(t1, t2, t3), Sum3(t2, t3, t4);
    var b1, b2, b3, b4 := Sum3(t8, t6, t7), Sum3(t8, t5, t7), Sum3(t8, t5, t6), Sum3(t5, t6, t7);
    CatXor(a1, a2, a3, a4, b1, b2, b3, b4);
    Ror8Cat(a1, a2, a3, a4);
    CatXor(a4, a1, a2, a3, Xor(a1, b1), Xor(a2, b2), Xor(a3, b3), Xor(a4, b4));
    assert Xor(a1, b1) == Sum6(t1, t3, t4, t6, t7, t8) && Xor(a2, b2) == Sum6(t1, t2, t4, t5, t7, t8);
    assert Xor(a3, b3) == Sum6(t1, t2, t3, t5, t6, t8) && Xor(a4, b4) == Sum6(t2, t3, t4, t5, t6, t7);
    assert Xor(a4, Xor(a1, b1)) == Sum5(t1, t2, t6, t7, t8) && Xor(a1, Xor(a2, b2)) == Sum5(t2, t3, t5, t7, t8);
    assert Xor(a2, Xor(a3, b3)) == Sum5(t3, t4, t5, t6, t8) && Xor(a3, Xor(a4, b4)) == Sum5(t1, t4, t5, t6, t7);
  }

  lemma HalfPIsLinear(a: Half, b: Half)
    ensures HalfP(Add(a, b)) == Add(HalfP(a), HalfP(b))
  {
    RolXor(a.l, b.l, 24);
  }

  lemma HalfPInverse(k: Half)
    ensures HalfP(HalfPInv(k)) == k
  {
    RolInverse(Xor(k.l, k.r), 8);
  }

  lemma RoundIsHalfP(s: Boxes, x: Half, k: Half)
    ensures RoundSM(s, x, k) == HalfP(Add(Half(LookupL(s, x.l), LookupR(s, x.r)), k))
  {
  }

  /** A kernel round with a key through the inverse half P-layer: the textbook layers of the
      input, plus the key. */
  lemma RoundAddsKey(s: Boxes, x: Half, k: Half)
    ensures RoundSM(s, x, HalfPInv(k)) == Add(SP(s, x), k)
  {
    LookupsAreSP(s, x);
    HalfPIsLinear(Half(LookupL(s, x.l), LookupR(s, x.r)), HalfPInv(k));
    HalfPInverse(k);
    RoundIsHalfP(s, x, HalfPInv(k));
  }

  lemma FLInvCarries(x: Half, c: Half, k: Half)
    ensures FLInv(Add(x, c), k) == Add(FLInv(x, k), Carry(c, k))
  {
    OrXor(x.r, c.r, k.r);
    var l, cl := Xor(x.l, Or(x.r, k.r)), Xor(c.l, And(c.r, Not(k.r)));
    assert Xor(Xor(x.l, c.l), Or(Xor(x.r, c.r), k.r)) == Xor(l, cl);
    AndXor(l, cl, k.l);
    RolXor(And(l, k.l), And(cl, k.l), 1);
  }

  lemma FLUndoesFLInv(x: Half, k: Half)
    ensures FL(FLInv(x, k), k) == x && FLInv(FL(x, k), k) == x
  {
    var y := FLInv(x, k);
    XorCancel(x.r, Rol(And(y.l, k.l), 1));
    XorCancel(x.l, Or(x.r, k.r));
    var z := FL(x, k);
    XorCancel(x.l, Or(z.r, k.r));
    XorCancel(x.r, Rol(And(x.l, k.l), 1));
  }

  lemma FLCarries(x: Half, c: Half, k: Half)
    ensures FL(Add(x, Carry(c, k)), k) == Add(FL(x, k), c)
  {
    FLUndoesFLInv(x, k);
    FLInvCarries(FL(x, k), c, k);
    FLUndoesFLInv(Add(FL(x, k), c), k);
  }

  lemma CarryIsLinear(a: Half, b: Half, k: Half)
    ensures Carry(Add(a, b), k) == Add(Carry(a, k), Carry(b, k))
  {
    var al, bl := Xor(a.l, And(a.r, Not(k.r))), Xor(b.l, And(b.r, Not(k.r)));
    assert Xor(Xor(a.l, b.l), And(Xor(a.r, b.r), Not(k.r))) == Xor(al, bl);
    AndXor(al, bl, k.l);
    RolXor(And(al, k.l), And(bl, k.l), 1);
  }
}
