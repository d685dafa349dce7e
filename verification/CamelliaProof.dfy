/** The kernel's network with the kernel's subkeys is the textbook cipher, and decryption
    undoes encryption under any subkeys.                                                  */
module CamelliaProof {
  import opened Bits
  import opened Camellia
  import opened CamelliaNetwork

  /** The kernel state k stands for the textbook state b: the left half is masked by d and
      z, the right one by c and w. */
  predicate Masked(b: Block, k: Block, d: Half, c: Half, z: Half, w: Half) {
    k.d1 == Add(Add(b.d1, d), z) && k.d2 == Add(Add(b.d2, c), w)
  }

  lemma AddRemask(d: Half, c: Half, m: Half, f: Half, x: Half)
    ensures Add(Add(Add(d, c), m), Add(f, Add(m, x))) == Add(Add(Add(d, f), c), x)
  {
  }

  /** A masked half enters its round with exactly the raw key on it. */
  lemma UnmaskKey(d: Half, c: Half, t: Half)
    ensures Add(Add(d, c), Add(t, c)) == Add(d, t)
  {
  }

  /** Two rounds: kernel keys that swap mask w for x and mask z for y. */
  lemma PairStep(s: Boxes, b: Block, k: Block, d: Half, c: Half, z: Half, w: Half, t1: Half, t2: Half, x: Half, y: Half)
    requires Masked(b, k, d, c, z, w) && z == Add(t1, d) && x == Add(t2, c)
    ensures Masked(RoundPair(s, b, t1, t2), KRoundPair(s, k, HalfPInv(Add(w, x)), HalfPInv(Add(z, y))), d, c, y, x)
  {
    UnmaskKey(b.d1, d, t1);
    var f1 := SP(s, k.d1);
    RoundAddsKey(s, k.d1, Add(w, x));
    AddRemask(b.d2, c, w, f1, x);
    var d2, k2 := Add(b.d2, f1), Add(k.d2, Add(f1, Add(w, x)));
    UnmaskKey(d2, c, t2);
    RoundAddsKey(s, k2, Add(z, y));
    AddRemask(b.d1, d, z, SP(s, k2), y);
  }

  /** Subkeys w for a raw table t: the three passes of camellia_setup_tail. */
  ghost predicate SetUp(t: seq<Half>, w: seq<Half>, n: nat) {
    exists u, v :: Absorbs(t, u, n) && Folds(u, v, n) && HalfInverts(v, w, n)
  }

  lemma GroupStep(s: Boxes, t: seq<Half>, u: seq<Half>, v: seq<Half>, w: seq<Half>, n: nat, g: nat, b: Block, k: Block)
    requires Absorbs(t, u, n) && Folds(u, v, n) && HalfInverts(v, w, n) && g < n
    requires Masked(b, k, Kw4At(t, n, g), Kw2At(t, g), u[8 * g + 2], LeftOver(u, g))
    ensures Masked(Group(s, t, g, b), KGroup(s, w, g, k), Kw4At(t, n, g), Kw2At(t, g), Ahead(u, n, g), u[8 * g + 7])
  {
    var d, c := Kw4At(t, n, g), Kw2At(t, g);
    assert AbsorbsGroup(t, u, n, g) && FoldsGroup(u, v, n, g) && HalfInvertsGroup(v, w, n, g);
    PairStep(s, b, k, d, c, u[8 * g + 2], LeftOver(u, g), t[8 * g + 2], t[8 * g + 3], u[8 * g + 3], u[8 * g + 4]);
    var b1, k1 := RoundPair(s, b, t[8 * g + 2], t[8 * g + 3]), KRoundPair(s, k, w[8 * g + 2], w[8 * g + 3]);
    PairStep(s, b1, k1, d, c, u[8 * g + 4], u[8 * g + 3], t[8 * g + 4], t[8 * g + 5], u[8 * g + 5], u[8 * g + 6]);
    var b2, k2 := RoundPair(s, b1, t[8 * g + 4], t[8 * g + 5]), KRoundPair(s, k1, w[8 * g + 4], w[8 * g + 5]);
    PairStep(s, b2, k2, d, c, u[8 * g + 6], u[8 * g + 5], t[8 * g + 6], t[8 * g + 7], u[8 * g + 7], Ahead(u, n, g));
  }

  /** Through an FL layer every mask becomes the one of the next group. */
  lemma LayerStep(t: seq<Half>, u: seq<Half>, v: seq<Half>, w: seq<Half>, n: nat, g: nat, b: Block, k: Block)
    requires Absorbs(t, u, n) && Folds(u, v, n) && HalfInverts(v, w, n) && g < n - 1
    requires Masked(b, k, Kw4At(t, n, g), Kw2At(t, g), Ahead(u, n, g), u[8 * g + 7])
    ensures Masked(FLLayer(t, g, b), FLLayer(w, g, k), Kw4At(t, n, g + 1), Kw2At(t, g + 1), u[8 * g + 10],
                   LeftOver(u, g + 1))
  {
    hide FL, FLInv, Add, Carry;
    assert SameFLKeys(t, u, g) && SameFLKeys(u, v, g) && SameFLKeys(v, w, g);
    var k8, k9 := t[8 * g + 8], t[8 * g + 9];
    AddAssoc(b.d1, Kw4At(t, n, g), Ahead(u, n, g));
    CarryIsLinear(Kw4At(t, n, g + 1), u[8 * g + 10], k8);
    FLCarries(b.d1, Add(Kw4At(t, n, g + 1), u[8 * g + 10]), k8);
    AddAssoc(FL(b.d1, k8), Kw4At(t, n, g + 1), u[8 * g + 10]);
    AddAssoc(b.d2, Kw2At(t, g), u[8 * g + 7]);
    FLInvCarries(b.d2, Add(Kw2At(t, g), u[8 * g + 7]), k9);
    CarryIsLinear(Kw2At(t, g), u[8 * g + 7], k9);
    AddAssoc(FLInv(b.d2, k9), Kw2At(t, g + 1), Carry(u[8 * g + 7], k9));
  }

  lemma AddAssoc(a: Half, b: Half, c: Half)
    ensures Add(Add(a, b), c) == Add(a, Add(b, c))
  {
  }

  lemma AddZero(a: Half)
    ensures Add(a, ZERO) == a
  {
  }

  /** After the initial whitening. */
  lemma StartMasked(t: seq<Half>, u: seq<Half>, v: seq<Half>, w: seq<Half>, n: nat, m: Block)
    requires Absorbs(t, u, n) && Folds(u, v, n) && HalfInverts(v, w, n)
    ensures Masked(Block(Add(m.d1, t[0]), Add(m.d2, t[1])), Block(Add(m.d1, w[0]), m.d2),
                   Kw4At(t, n, 0), Kw2At(t, 0), u[2], LeftOver(u, 0))
  {
    AddAssoc(m.d1, t[0], Kw4At(t, n, 0));
    AddAssoc(m.d1, u[0], u[2]);
    CancelKw2(m.d2, t[1]);
    AddZero(m.d2);
  }

  lemma GroupAndLayerStep(s: Boxes, t: seq<Half>, u: seq<Half>, v: seq<Half>, w: seq<Half>, n: nat, g: nat, b: Block, k: Block)
    requires Absorbs(t, u, n) && Folds(u, v, n) && HalfInverts(v, w, n) && g < n - 1
    requires Masked(b, k, Kw4At(t, n, g), Kw2At(t, g), u[8 * g + 2], LeftOver(u, g))
    ensures Masked(FLLayer(t, g, Group(s, t, g, b)), FLLayer(w, g, KGroup(s, w, g, k)),
                   Kw4At(t, n, g + 1), Kw2At(t, g + 1), u[8 * g + 10], LeftOver(u, g + 1))
  {
    GroupStep(s, t, u, v, w, n, g, b, k);
    LayerStep(t, u, v, w, n, g, Group(s, t, g, b), KGroup(s, w, g, k));
  }

  lemma {:induction false} EnteringMasked(s: Boxes, t: seq<Half>, u: seq<Half>, v: seq<Half>, w: seq<Half>, n: nat, m: Block, g: nat)
    requires Absorbs(t, u, n) && Folds(u, v, n) && HalfInverts(v, w, n) && g < n
    ensures Masked(Entering(s, t, n, m, g), KEntering(s, w, n, m, g), Kw4At(t, n, g), Kw2At(t, g), u[8 * g + 2],
                   LeftOver(u, g))
  {
    hide Group, KGroup, FLLayer, Masked;
    if g == 0 {
      StartMasked(t, u, v, w, n, m);
    } else {
      EnteringMasked(s, t, u, v, w, n, m, g - 1);
      GroupAndLayerStep(s, t, u, v, w, n, g - 1, Entering(s, t, n, m, g - 1), KEntering(s, w, n, m, g - 1));
    }
  }

  lemma CancelKw2(a: Half, k: Half)
    ensures Add(Add(a, k), k) == a
  {
  }

  /** After the last group and the final whitening. */
  lemma EndUnmasked(b: Block, k: Block, kw3: Half, kw4: Half, c: Half, x: Half)
    requires Masked(b, k, kw4, c, ZERO, x)
    ensures Block(Add(k.d2, Add(Add(kw3, c), x)), k.d1) == Block(Add(b.d2, kw3), Add(b.d1, kw4))
  {
    AddZero(Add(b.d1, kw4));
    LastWhitening(b.d2, c, x, kw3);
  }

  /** For every S-box, every raw table, every number of groups and every block: the kernel's
      network on the rewritten subkeys computes the textbook cipher. */
  lemma EncryptIsTextbook(s: Boxes, t: seq<Half>, w: seq<Half>, n: nat, m: Block)
    requires IsTable(t, n) && IsTable(w, n) && SetUp(t, w, n)
    ensures Encrypt(s, w, n, m) == Textbook(s, t, n, m)
  {
    hide Group, KGroup, Entering, KEntering, Masked;
    var u, v :| Absorbs(t, u, n) && Folds(u, v, n) && HalfInverts(v, w, n);
    var b, k := Entering(s, t, n, m, n - 1), KEntering(s, w, n, m, n - 1);
    EnteringMasked(s, t, u, v, w, n, m, n - 1);
    GroupStep(s, t, u, v, w, n, n - 1, b, k);
    EndUnmasked(Group(s, t, n - 1, b), KGroup(s, w, n - 1, k), t[8 * n], t[8 * n + 1], Kw2At(t, n - 1), u[8 * n - 1]);
  }

  lemma LastWhitening(b: Half, c: Half, x: Half, t: Half)
    ensures Add(Add(Add(b, c), x), Add(Add(t, c), x)) == Add(b, t)
  {
  }

  // ---------- decryption ----------

  function Swapped(b: Block): Block { Block(b.d2, b.d1) }

  /** The rounds of group g in the order of camellia_do_decrypt. */
  function DGroup(s: Boxes, t: seq<Half>, g: nat, b: Block): Block
    requires 8 * g + 8 <= |t|
  {
    var b1 := KRoundPair(s, b, t[8 * g + 7], t[8 * g + 6]);
    var b2 := KRoundPair(s, b1, t[8 * g + 5], t[8 * g + 4]);
    KRoundPair(s, b2, t[8 * g + 3], t[8 * g + 2])
  }

  function DFLLayer(t: seq<Half>, g: nat, b: Block): Block
    requires 8 * g + 10 <= |t|
  {
    Block(FL(b.d1, t[8 * g + 9]), FLInv(b.d2, t[8 * g + 8]))
  }

  /** The state after the rounds of group g, counting down from the last group. */
  function Leaving(s: Boxes, t: seq<Half>, n: nat, m: Block, g: nat): Block
    requires IsTable(t, n) && g < n
    decreases n - g
  {
    if g == n - 1 then DGroup(s, t, g, Block(Add(m.d1, t[8 * n]), m.d2))
    else DGroup(s, t, g, DFLLayer(t, g, Leaving(s, t, n, m, g + 1)))
  }

  /** camellia_do_decrypt, including the swap of halves left to its caller. */
  function Decrypt(s: Boxes, t: seq<Half>, n: nat, m: Block): Block
    requires IsTable(t, n)
  {
    var b := Leaving(s, t, n, m, 0);
    Block(Add(b.d2, t[0]), b.d1)
  }

  lemma PairUndone(s: Boxes, b: Block, k1: Half, k2: Half)
    ensures KRoundPair(s, Swapped(KRoundPair(s, b, k1, k2)), k2, k1) == Swapped(b)
  {
    var d2 := Add(b.d2, RoundSM(s, b.d1, k1));
    CancelKw2(b.d1, RoundSM(s, d2, k2));
    CancelKw2(b.d2, RoundSM(s, b.d1, k1));
  }

  lemma GroupUndone(s: Boxes, t: seq<Half>, g: nat, b: Block)
    requires 8 * g + 8 <= |t|
    ensures DGroup(s, t, g, Swapped(KGroup(s, t, g, b))) == Swapped(b)
  {
    var b1 := KRoundPair(s, b, t[8 * g + 2], t[8 * g + 3]);
    var b2 := KRoundPair(s, b1, t[8 * g + 4], t[8 * g + 5]);
    PairUndone(s, b2, t[8 * g + 6], t[8 * g + 7]);
    PairUndone(s, b1, t[8 * g + 4], t[8 * g + 5]);
    PairUndone(s, b, t[8 * g + 2], t[8 * g + 3]);
  }

  lemma LayerUndone(t: seq<Half>, g: nat, b: Block)
    requires 8 * g + 10 <= |t|
    ensures DFLLayer(t, g, Swapped(FLLayer(t, g, b))) == Swapped(b)
  {
    FLUndoesFLInv(b.d2, t[8 * g + 9]);
    FLUndoesFLInv(b.d1, t[8 * g + 8]);
  }

  lemma {:induction false} LeavingUndone(s: Boxes, t: seq<Half>, n: nat, m: Block, g: nat)
    requires IsTable(t, n) && g < n
    ensures Leaving(s, t, n, Encrypt(s, t, n, m), g) == Swapped(KEntering(s, t, n, m, g))
    decreases n - g
  {
    hide KGroup, DGroup, FLLayer, DFLLayer;
    GroupUndone(s, t, g, KEntering(s, t, n, m, g));
    if g == n - 1 {
      CancelKw2(KGroup(s, t, n - 1, KEntering(s, t, n, m, n - 1)).d2, t[8 * n]);
    } else {
      LeavingUndone(s, t, n, m, g + 1);
      LayerUndone(t, g, KGroup(s, t, g, KEntering(s, t, n, m, g)));
    }
  }

  /** Under any subkeys whatever, decryption undoes encryption. */
  lemma DecryptUndoesEncrypt(s: Boxes, t: seq<Half>, n: nat, m: Block)
    requires IsTable(t, n)
    ensures Decrypt(s, t, n, Encrypt(s, t, n, m)) == m
  {
    LeavingUndone(s, t, n, m, 0);
    CancelKw2(m.d1, t[0]);
  }

  lemma {:induction false} EnteringRedone(s: Boxes, t: seq<Half>, n: nat, c: Block, g: nat)
    requires IsTable(t, n) && g < n
    ensures KGroup(s, t, g, KEntering(s, t, n, Decrypt(s, t, n, c), g))
         == Swapped(if g == n - 1 then Block(Add(c.d1, t[8 * n]), c.d2) else DFLLayer(t, g, Leaving(s, t, n, c, g + 1)))
  {
    hide KGroup, DGroup, FLLayer, DFLLayer;
    var b := if g == n - 1 then Block(Add(c.d1, t[8 * n]), c.d2) else DFLLayer(t, g, Leaving(s, t, n, c, g + 1));
    GroupRedone(s, t, g, b);
    if g == 0 {
      CancelKw2(Leaving(s, t, n, c, 0).d2, t[0]);
    } else {
      EnteringRedone(s, t, n, c, g - 1);
      LayerRedone(t, g - 1, Leaving(s, t, n, c, g));
    }
  }

  lemma GroupRedone(s: Boxes, t: seq<Half>, g: nat, b: Block)
    requires 8 * g + 8 <= |t|
    ensures KGroup(s, t, g, Swapped(DGroup(s, t, g, b))) == Swapped(b)
  {
    var b1 := KRoundPair(s, b, t[8 * g + 7], t[8 * g + 6]);
    var b2 := KRoundPair(s, b1, t[8 * g + 5], t[8 * g + 4]);
    PairUndone(s, b2, t[8 * g + 3], t[8 * g + 2]);
    PairUndone(s, b1, t[8 * g + 5], t[8 * g + 4]);
    PairUndone(s, b, t[8 * g + 7], t[8 * g + 6]);
  }

  lemma LayerRedone(t: seq<Half>, g: nat, b: Block)
    requires 8 * g + 10 <= |t|
    ensures FLLayer(t, g, Swapped(DFLLayer(t, g, b))) == Swapped(b)
  {
    FLUndoesFLInv(b.d2, t[8 * g + 8]);
    FLUndoesFLInv(b.d1, t[8 * g + 9]);
  }

  /** Under any subkeys whatever, encryption undoes decryption. */
  lemma EncryptUndoesDecrypt(s: Boxes, t: seq<Half>, n: nat, c: Block)
    requires IsTable(t, n)
    ensures Encrypt(s, t, n, Decrypt(s, t, n, c)) == c
  {
    hide KGroup, DGroup, FLLayer, DFLLayer;
    EnteringRedone(s, t, n, c, n - 1);
    CancelKw2(c.d1, t[8 * n]);
  }
}
