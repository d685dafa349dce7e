/** camellia.c as it runs: arrays of words rewritten in place.                             */
module CamelliaKernel {
  import opened Bits
  import opened Camellia
  import opened CamelliaNetwork
  import opened CamelliaProof

  /** Two parallel arrays of words as a table of halves. */
  ghost function Table(a: array<Word>, b: array<Word>): (t: seq<Half>)
    requires a.Length == b.Length
    reads a, b
    ensures |t| == a.Length
  {
    seq(a.Length, i requires 0 <= i < a.Length reads a, b => Half(a[i], b[i]))
  }

  /** SUBKEY_L and SUBKEY_R: one array holding both words of every entry. */
  ghost function Subkeys(k: array<Word>, n: nat): (t: seq<Half>)
    requires k.Length >= 16 * n + 4
    reads k
    ensures |t| == 8 * n + 2
  {
    seq(8 * n + 2, i requires 0 <= i < 8 * n + 2 reads k => Half(k[2 * i], k[2 * i + 1]))
  }

  // ---------- absorbing kw2 and kw4 ----------

  /** The keys of the second, fourth and sixth round of group h. */
  predicate EvenRounds(t: seq<Half>, u: seq<Half>, h: nat, c: Half)
    requires 8 * h + 8 <= |t| && 8 * h + 8 <= |u|
  {
    u[8 * h + 3] == Add(t[8 * h + 3], c) && u[8 * h + 5] == Add(t[8 * h + 5], c) && u[8 * h + 7] == Add(t[8 * h + 7], c)
  }

  predicate EvenRoundsKept(t: seq<Half>, u: seq<Half>, h: nat)
    requires 8 * h + 8 <= |t| && 8 * h + 8 <= |u|
  {
    u[8 * h + 3] == t[8 * h + 3] && u[8 * h + 5] == t[8 * h + 5] && u[8 * h + 7] == t[8 * h + 7]
  }

  predicate OddRounds(t: seq<Half>, u: seq<Half>, h: nat, d: Half)
    requires 8 * h + 8 <= |t| && 8 * h + 8 <= |u|
  {
    u[8 * h + 2] == Add(t[8 * h + 2], d) && u[8 * h + 4] == Add(t[8 * h + 4], d) && u[8 * h + 6] == Add(t[8 * h + 6], d)
  }

  predicate OddRoundsKept(t: seq<Half>, u: seq<Half>, h: nat)
    requires 8 * h + 8 <= |t| && 8 * h + 8 <= |u|
  {
    u[8 * h + 2] == t[8 * h + 2] && u[8 * h + 4] == t[8 * h + 4] && u[8 * h + 6] == t[8 * h + 6]
  }

  /** Groups before g have absorbed kw2; entry 1 holds it as group g sees it. */
  ghost predicate Kw2Done(t: seq<Half>, u: seq<Half>, n: nat, g: nat) {
    && IsTable(t, n) && IsTable(u, n) && g <= n
    && u[1] == Kw2At(t, if g < n then g else n - 1)
    && u[0] == t[0] && u[8 * n] == t[8 * n] && u[8 * n + 1] == t[8 * n + 1]
    && (forall h :: 0 <= h < g ==> EvenRounds(t, u, h, Kw2At(t, h)))
    && (forall h :: g <= h < n ==> EvenRoundsKept(t, u, h))
    && (forall h :: 0 <= h < n ==> OddRoundsKept(t, u, h))
    && (forall h :: 0 <= h < n - 1 ==> SameFLKeys(t, u, h))
  }

  lemma Kw2Step(t: seq<Half>, u: seq<Half>, u1: seq<Half>, n: nat, g: nat)
    requires Kw2Done(t, u, n, g) && g < n && |u1| == |u| && EvenRounds(u, u1, g, u[1])
    requires forall i :: 0 <= i < |u| && i !in {1, 8 * g + 3, 8 * g + 5, 8 * g + 7} ==> u1[i] == u[i]
    requires u1[1] == if g + 1 < n then Carry(u[1], u[8 * g + 9]) else u[1]
    ensures Kw2Done(t, u1, n, g + 1)
  {
    hide Add, Carry;
    assert g + 1 < n ==> SameFLKeys(t, u, g);
    forall h | 0 <= h < g + 1 ensures EvenRounds(t, u1, h, Kw2At(t, h)) {
      if h < g { assert EvenRounds(t, u, h, Kw2At(t, h)); } else { assert EvenRoundsKept(t, u, h); }
    }
    forall h | g + 1 <= h < n ensures EvenRoundsKept(t, u1, h) { assert EvenRoundsKept(t, u, h); }
    forall h | 0 <= h < n ensures OddRoundsKept(t, u1, h) { assert OddRoundsKept(t, u, h); }
    forall h | 0 <= h < n - 1 ensures SameFLKeys(t, u1, h) { assert SameFLKeys(t, u, h); }
  }

  method XorEntry(subL: array<Word>, subR: array<Word>, i: nat, c: Half)
    requires subL != subR && i < subL.Length == subR.Length
    modifies subL, subR
    ensures Table(subL, subR) == old(Table(subL, subR))[i := Add(old(Table(subL, subR))[i], c)]
  {
    subL[i] := Xor(subL[i], c.l);
    subR[i] := Xor(subR[i], c.r);
  }

  method SetEntry(subL: array<Word>, subR: array<Word>, i: nat, c: Half)
    requires subL != subR && i < subL.Length == subR.Length
    modifies subL, subR
    ensures Table(subL, subR) == old(Table(subL, subR))[i := c]
  {
    subL[i], subR[i] := c.l, c.r;
  }

  /** The running whitening key passes an FLInv layer, or an FL layer backwards. */
  method PassLayer(c: Half, k: Half) returns (d: Half)
    ensures d == Carry(c, k)
  {
    var l := Xor(c.l, And(c.r, Not(k.r)));
    var dw := And(l, k.l);
    d := Half(l, Xor(c.r, Rol(dw, 1)));
  }

  /** The even rounds of group g, then the FLInv layer behind it. */
  method AbsorbKw2Group(subL: array<Word>, subR: array<Word>, n: nat, g: nat, ghost t: seq<Half>)
    requires subL != subR && subL.Length == subR.Length == 8 * n + 2 && g < n
    requires Kw2Done(t, Table(subL, subR), n, g)
    modifies subL, subR
    ensures Kw2Done(t, Table(subL, subR), n, g + 1)
  {
    hide Kw2Done, Add, Carry;
    var c := Half(subL[1], subR[1]);
    ghost var u := Table(subL, subR);
    XorEntry(subL, subR, 8 * g + 3, c);
    XorEntry(subL, subR, 8 * g + 5, c);
    XorEntry(subL, subR, 8 * g + 7, c);
    if g + 1 < n {
      assert Table(subL, subR)[8 * g + 9] == u[8 * g + 9];
      var d := PassLayer(c, Half(subL[8 * g + 9], subR[8 * g + 9]));
      SetEntry(subL, subR, 1, d);
    }
    Kw2Step(t, u, Table(subL, subR), n, g);
  }

  /** Groups from g on have absorbed kw4. */
  ghost predicate Kw4Done(t: seq<Half>, u: seq<Half>, n: nat, g: nat) {
    && IsTable(t, n) && IsTable(u, n) && g <= n
    && u[0] == t[0] && u[8 * n] == t[8 * n]
    && (forall h :: 0 <= h < n ==> EvenRoundsKept(t, u, h))
    && (forall h :: 0 <= h < g ==> OddRoundsKept(t, u, h))
    && (forall h :: g <= h < n ==> OddRounds(t, u, h, Kw4At(t, n, h)))
    && (forall h :: 0 <= h < n - 1 ==> SameFLKeys(t, u, h))
  }

  lemma Kw4Step(t: seq<Half>, u: seq<Half>, u1: seq<Half>, n: nat, g: nat)
    requires g < n && Kw4Done(t, u, n, g + 1) && |u1| == |u| && OddRounds(u, u1, g, Kw4At(t, n, g))
    requires forall i :: 0 <= i < |u| && i != 8 * g + 2 && i != 8 * g + 4 && i != 8 * g + 6 ==> u1[i] == u[i]
    ensures Kw4Done(t, u1, n, g)
  {
    hide Add, Carry;
    forall h | 0 <= h < n ensures EvenRoundsKept(t, u1, h) { assert EvenRoundsKept(t, u, h); }
    forall h | 0 <= h < g ensures OddRoundsKept(t, u1, h) { assert OddRoundsKept(t, u, h); }
    forall h | g <= h < n ensures OddRounds(t, u1, h, Kw4At(t, n, h)) {
      if h == g { assert OddRoundsKept(t, u, h); } else { assert OddRounds(t, u, h, Kw4At(t, n, h)); }
    }
    forall h | 0 <= h < n - 1 ensures SameFLKeys(t, u1, h) { assert SameFLKeys(t, u, h); }
  }

  lemma Kw4Back(t: seq<Half>, u: seq<Half>, n: nat, g: nat)
    requires 0 < g < n && Kw4Done(t, u, n, g + 1)
    ensures Kw4At(t, n, g - 1) == Carry(Kw4At(t, n, g), u[8 * g])
  {
    hide Carry;
    assert SameFLKeys(t, u, g - 1);
  }

  /** The odd rounds of group g, then the FL layer before it, backwards. */
  method AbsorbKw4Group(subL: array<Word>, subR: array<Word>, n: nat, g: nat, kw4: Half, ghost t: seq<Half>)
    returns (next: Half)
    requires subL != subR && subL.Length == subR.Length == 8 * n + 2 && g < n
    requires Kw4Done(t, Table(subL, subR), n, g + 1) && kw4 == Kw4At(t, n, g)
    modifies subL, subR
    ensures Kw4Done(t, Table(subL, subR), n, g)
    ensures next == if g > 0 then Kw4At(t, n, g - 1) else kw4
  {
    hide Kw4Done, Add, Carry, Kw4At;
    ghost var u := Table(subL, subR);
    XorEntry(subL, subR, 8 * g + 6, kw4);
    XorEntry(subL, subR, 8 * g + 4, kw4);
    XorEntry(subL, subR, 8 * g + 2, kw4);
    Kw4Step(t, u, Table(subL, subR), n, g);
    next := kw4;
    if g > 0 {
      Kw4Back(t, u, n, g);
      assert Table(subL, subR)[8 * g] == u[8 * g];
      next := PassLayer(kw4, Half(subL[8 * g], subR[8 * g]));
    }
  }

  lemma {:induction false} Kw4AtSame(t: seq<Half>, t1: seq<Half>, n: nat, g: nat)
    requires IsTable(t, n) && IsTable(t1, n) && g < n && t1[8 * n + 1] == t[8 * n + 1]
    requires forall h :: 0 <= h < n - 1 ==> SameFLKeys(t, t1, h)
    ensures Kw4At(t1, n, g) == Kw4At(t, n, g)
    decreases n - g
  {
    hide Carry;
    if g < n - 1 {
      assert SameFLKeys(t, t1, g);
      Kw4AtSame(t, t1, n, g + 1);
    }
  }

  /** Both passes together absorb both keys. */
  lemma BothAbsorbed(t: seq<Half>, x: seq<Half>, t1: seq<Half>, y: seq<Half>, u: seq<Half>, n: nat)
    requires Kw2Done(t, x, n, n) && t1 == x[8 * n := Add(x[8 * n], x[1])]
    requires Kw4Done(t1, y, n, 0) && u == y[0 := Add(y[0], Kw4At(t1, n, 0))]
    ensures Absorbs(t, u, n)
  {
    hide Add, Carry;
    forall h | 0 <= h < n - 1 ensures SameFLKeys(t, t1, h) { assert SameFLKeys(t, x, h); }
    forall h | 0 <= h < n - 1 ensures SameFLKeys(t, u, h) { assert SameFLKeys(t, t1, h) && SameFLKeys(t1, y, h); }
    Kw4AtSame(t, t1, n, 0);
    forall g | 0 <= g < n ensures AbsorbsGroup(t, u, n, g) {
      Kw4AtSame(t, t1, n, g);
      assert EvenRounds(t, x, g, Kw2At(t, g)) && OddRoundsKept(t, x, g);
      assert EvenRoundsKept(t1, y, g) && OddRounds(t1, y, g, Kw4At(t1, n, g));
    }
  }

  /** The first part of camellia_setup_tail. */
  method Absorb(subL: array<Word>, subR: array<Word>, max: nat)
    requires subL != subR && (max == 24 || max == 32) && subL.Length == subR.Length == max + 2
    modifies subL, subR
    ensures Absorbs(old(Table(subL, subR)), Table(subL, subR), max / 8)
  {
    hide Kw4Done, Kw2Done, Add, Carry, Kw4At, Absorbs;
    ghost var t := Table(subL, subR);
    var n := max / 8;
    NothingAbsorbed(t, n);
    AbsorbKw2Group(subL, subR, n, 0, t);
    AbsorbKw2Group(subL, subR, n, 1, t);
    AbsorbKw2Group(subL, subR, n, 2, t);
    if max == 32 { AbsorbKw2Group(subL, subR, n, 3, t); }
    ghost var x := Table(subL, subR);
    XorEntry(subL, subR, max, Half(subL[1], subR[1]));
    ghost var t1 := Table(subL, subR);
    NothingAbsorbed(t1, n);
    var kw4 := Half(subL[max + 1], subR[max + 1]);
    if max == 32 { kw4 := AbsorbKw4Group(subL, subR, n, 3, kw4, t1); }
    kw4 := AbsorbKw4Group(subL, subR, n, 2, kw4, t1);
    kw4 := AbsorbKw4Group(subL, subR, n, 1, kw4, t1);
    kw4 := AbsorbKw4Group(subL, subR, n, 0, kw4, t1);
    ghost var y := Table(subL, subR);
    XorEntry(subL, subR, 0, kw4);
    BothAbsorbed(t, x, t1, y, Table(subL, subR), n);
  }

  lemma NothingAbsorbed(t: seq<Half>, n: nat)
    requires IsTable(t, n)
    ensures Kw2Done(t, t, n, 0) && Kw4Done(t, t, n, n) && Kw4At(t, n, n - 1) == t[8 * n + 1]
  {
  }

  // ---------- moving the key XORs ----------

  method SetKey(subkey: array<Word>, n: nat, i: nat, c: Half)
    requires subkey.Length >= 16 * n + 4 && i < 8 * n + 2
    modifies subkey
    ensures Subkeys(subkey, n) == old(Subkeys(subkey, n))[i := c]
  {
    subkey[2 * i] := c.l;
    subkey[2 * i + 1] := c.r;
  }

  /** The groups before g have been written. */
  ghost predicate FoldedTo(u: seq<Half>, v: seq<Half>, n: nat, g: nat) {
    && IsTable(u, n) && IsTable(v, n) && g <= n
    && v[0] == Add(u[0], u[2])
    && (forall h :: 0 <= h < g ==> FoldsGroup(u, v, n, h))
    && (forall h :: 0 <= h < g && h < n - 1 ==> SameFLKeys(u, v, h))
  }

  lemma FoldStep(u: seq<Half>, v: seq<Half>, v1: seq<Half>, n: nat, g: nat)
    requires g < n && FoldedTo(u, v, n, g) && |v1| == |v| && FoldsGroup(u, v1, n, g)
    requires g < n - 1 ==> SameFLKeys(u, v1, g)
    requires forall i :: 0 <= i < 8 * g + 2 ==> v1[i] == v[i]
    ensures FoldedTo(u, v1, n, g + 1)
  {
    hide Add, Carry, LeftOver, Ahead;
    forall h | 0 <= h < g + 1 ensures FoldsGroup(u, v1, n, h) {
      if h < g { assert FoldsGroup(u, v, n, h); }
    }
    forall h | 0 <= h < g + 1 && h < n - 1 ensures SameFLKeys(u, v1, h) {
      if h < g { assert SameFLKeys(u, v, h); }
    }
  }

  method EntryOf(subL: array<Word>, subR: array<Word>, i: nat) returns (c: Half)
    requires i < subL.Length == subR.Length
    ensures c == Table(subL, subR)[i]
  {
    c := Half(subL[i], subR[i]);
  }

  method SumOf(subL: array<Word>, subR: array<Word>, i: nat, j: nat) returns (c: Half)
    requires i < subL.Length == subR.Length && j < subL.Length
    ensures c == Add(Table(subL, subR)[i], Table(subL, subR)[j])
  {
    c := Half(Xor(subL[i], subL[j]), Xor(subR[i], subR[j]));
  }

  /** tl and tr before the first round of group g. */
  method LeftOverOf(subL: array<Word>, subR: array<Word>, g: nat) returns (c: Half)
    requires 8 * g + 2 <= subL.Length == subR.Length
    ensures c == LeftOver(Table(subL, subR), g)
  {
    hide Carry;
    if g == 0 { return ZERO; }
    var x := EntryOf(subL, subR, 8 * g - 1);
    var k := EntryOf(subL, subR, 8 * g + 1);
    c := PassLayer(x, k);
  }

  /** tl and tr behind the last round of group g. */
  method AheadOf(subL: array<Word>, subR: array<Word>, n: nat, g: nat) returns (c: Half)
    requires g < n && subL.Length == subR.Length == 8 * n + 2
    ensures c == Ahead(Table(subL, subR), n, g)
  {
    hide Carry;
    if g == n - 1 { return ZERO; }
    var x := EntryOf(subL, subR, 8 * g + 10);
    var k := EntryOf(subL, subR, 8 * g + 8);
    c := PassLayer(x, k);
  }

  /** The round keys of group g between the first and the last. */
  method FoldMiddle(subkey: array<Word>, subL: array<Word>, subR: array<Word>, n: nat, g: nat)
    requires subkey != subL && subkey != subR && subL.Length == subR.Length == 8 * n + 2 && g < n
    requires subkey.Length >= 16 * n + 4
    modifies subkey
    ensures var u, w := Table(subL, subR), Subkeys(subkey, n);
            && w[8 * g + 3] == Add(u[8 * g + 2], u[8 * g + 4]) && w[8 * g + 4] == Add(u[8 * g + 3], u[8 * g + 5])
            && w[8 * g + 5] == Add(u[8 * g + 4], u[8 * g + 6]) && w[8 * g + 6] == Add(u[8 * g + 5], u[8 * g + 7])
            && forall i :: 0 <= i < |w| && (i < 8 * g + 3 || 8 * g + 6 < i) ==> w[i] == old(Subkeys(subkey, n))[i]
  {
    hide Add;
    ghost var u := Table(subL, subR);
    var c := SumOf(subL, subR, 8 * g + 2, 8 * g + 4);
    SetKey(subkey, n, 8 * g + 3, c);
    c := SumOf(subL, subR, 8 * g + 3, 8 * g + 5);
    SetKey(subkey, n, 8 * g + 4, c);
    c := SumOf(subL, subR, 8 * g + 4, 8 * g + 6);
    SetKey(subkey, n, 8 * g + 5, c);
    c := SumOf(subL, subR, 8 * g + 5, 8 * g + 7);
    SetKey(subkey, n, 8 * g + 6, c);
    assert Table(subL, subR) == u;
  }

  /** The six round keys of group g. */
  method FoldRounds(subkey: array<Word>, subL: array<Word>, subR: array<Word>, n: nat, g: nat)
    requires subkey != subL && subkey != subR && subL.Length == subR.Length == 8 * n + 2 && g < n
    requires subkey.Length >= 16 * n + 4
    modifies subkey
    ensures FoldsGroup(Table(subL, subR), Subkeys(subkey, n), n, g)
    ensures forall i :: 0 <= i < 8 * g + 2 ==> Subkeys(subkey, n)[i] == old(Subkeys(subkey, n))[i]
  {
    hide Add, Carry, LeftOver, Ahead;
    ghost var u := Table(subL, subR);
    var first := LeftOverOf(subL, subR, g);
    var last := AheadOf(subL, subR, n, g);
    var k3 := EntryOf(subL, subR, 8 * g + 3);
    var k6 := EntryOf(subL, subR, 8 * g + 6);
    SetKey(subkey, n, 8 * g + 2, Add(first, k3));
    FoldMiddle(subkey, subL, subR, n, g);
    SetKey(subkey, n, 8 * g + 7, Add(k6, last));
    assert Table(subL, subR) == u;
  }

  /** The FL keys of group g. */
  method CopyFLKeys(subkey: array<Word>, subL: array<Word>, subR: array<Word>, n: nat, g: nat)
    requires subkey != subL && subkey != subR && subL.Length == subR.Length == 8 * n + 2 && g + 1 < n
    requires subkey.Length >= 16 * n + 4
    modifies subkey
    ensures SameFLKeys(Table(subL, subR), Subkeys(subkey, n), g)
    ensures forall i :: 0 <= i < 8 * g + 8 ==> Subkeys(subkey, n)[i] == old(Subkeys(subkey, n))[i]
  {
    ghost var u := Table(subL, subR);
    var c := EntryOf(subL, subR, 8 * g + 8);
    SetKey(subkey, n, 8 * g + 8, c);
    c := EntryOf(subL, subR, 8 * g + 9);
    SetKey(subkey, n, 8 * g + 9, c);
    assert Table(subL, subR) == u;
  }

  lemma FoldsGroupKept(u: seq<Half>, v: seq<Half>, w: seq<Half>, n: nat, g: nat)
    requires IsTable(u, n) && IsTable(v, n) && IsTable(w, n) && g < n && FoldsGroup(u, v, n, g)
    requires forall i :: 0 <= i < 8 * g + 8 ==> w[i] == v[i]
    ensures FoldsGroup(u, w, n, g)
  {
  }

  /** Writes the six round keys of group g and its FL keys. */
  method FoldGroup(subkey: array<Word>, subL: array<Word>, subR: array<Word>, n: nat, g: nat)
    requires subkey != subL && subkey != subR && subL.Length == subR.Length == 8 * n + 2 && g < n
    requires subkey.Length >= 16 * n + 4 && FoldedTo(Table(subL, subR), Subkeys(subkey, n), n, g)
    modifies subkey
    ensures FoldedTo(Table(subL, subR), Subkeys(subkey, n), n, g + 1)
  {
    hide FoldedTo, FoldsGroup, SameFLKeys;
    ghost var u, v := Table(subL, subR), Subkeys(subkey, n);
    FoldRounds(subkey, subL, subR, n, g);
    ghost var w := Subkeys(subkey, n);
    assert Table(subL, subR) == u;
    if g < n - 1 {
      CopyFLKeys(subkey, subL, subR, n, g);
      FoldsGroupKept(u, w, Subkeys(subkey, n), n, g);
    }
    assert Table(subL, subR) == u;
    FoldStep(u, v, Subkeys(subkey, n), n, g);
  }

  /** The second part of camellia_setup_tail. */
  method Fold(subkey: array<Word>, subL: array<Word>, subR: array<Word>, max: nat)
    requires subkey != subL && subkey != subR && (max == 24 || max == 32) && subL.Length == subR.Length == max + 2
    requires subkey.Length >= 2 * max + 4
    modifies subkey
    ensures Folds(Table(subL, subR), Subkeys(subkey, max / 8), max / 8)
  {
    hide Add, Carry, LeftOver, Ahead, FoldsGroup, SameFLKeys;
    var n := max / 8;
    ghost var u := Table(subL, subR);
    var c := SumOf(subL, subR, 0, 2);
    SetKey(subkey, n, 0, c);
    FoldGroup(subkey, subL, subR, n, 0);
    FoldGroup(subkey, subL, subR, n, 1);
    FoldGroup(subkey, subL, subR, n, 2);
    if max == 32 { FoldGroup(subkey, subL, subR, n, 3); }
    ghost var v := Subkeys(subkey, n);
    c := SumOf(subL, subR, max, max - 1);
    SetKey(subkey, n, max, c);
    assert Table(subL, subR) == u;
    LastKeyFolds(u, v, Subkeys(subkey, n), n);
  }

  lemma LastKeyFolds(u: seq<Half>, v: seq<Half>, v1: seq<Half>, n: nat)
    requires FoldedTo(u, v, n, n) && v1 == v[8 * n := Add(u[8 * n], u[8 * n - 1])]
    ensures Folds(u, v1, n)
  {
    hide Add, Carry, LeftOver, Ahead;
    forall h | 0 <= h < n ensures FoldsGroup(u, v1, n, h) { assert FoldsGroup(u, v, n, h); }
    forall h | 0 <= h < n - 1 ensures SameFLKeys(u, v1, h) { assert SameFLKeys(u, v, h); }
  }

  // ---------- the inverse half P-layer ----------

  ghost predicate InvertedTo(v: seq<Half>, w: seq<Half>, n: nat, g: nat) {
    && IsTable(v, n) && IsTable(w, n) && g <= n
    && (forall h :: 0 <= h < g ==> HalfInvertsGroup(v, w, n, h))
    && (forall h :: 0 <= h < g && h < n - 1 ==> SameFLKeys(v, w, h))
    && w[0] == v[0]
    && (forall i :: 8 * g <= i < 8 * n + 2 ==> w[i] == v[i])
  }

  lemma InvertStep(v: seq<Half>, w: seq<Half>, w1: seq<Half>, n: nat, g: nat)
    requires g < n && InvertedTo(v, w, n, g) && |w1| == |w| && HalfInvertsGroup(w, w1, n, g)
    requires forall i :: 0 <= i < |w| && (i < 8 * g + 2 || 8 * g + 8 <= i) ==> w1[i] == w[i]
    ensures InvertedTo(v, w1, n, g + 1)
  {
    hide HalfPInv;
    forall h | 0 <= h < g + 1 ensures HalfInvertsGroup(v, w1, n, h) {
      if h < g { assert HalfInvertsGroup(v, w, n, h); }
    }
    forall h | 0 <= h < g + 1 && h < n - 1 ensures SameFLKeys(v, w1, h) {
      if h < g { assert SameFLKeys(v, w, h); }
    }
  }

  method InvertKey(subkey: array<Word>, n: nat, i: nat)
    requires subkey.Length >= 16 * n + 4 && i < 8 * n + 2
    modifies subkey
    ensures Subkeys(subkey, n) == old(Subkeys(subkey, n))[i := HalfPInv(old(Subkeys(subkey, n))[i])]
  {
    var dw := Xor(subkey[2 * i], subkey[2 * i + 1]);
    dw := Rol(dw, 8);
    subkey[2 * i + 1] := Xor(subkey[2 * i], dw);
    subkey[2 * i] := dw;
  }

  method InvertThree(subkey: array<Word>, n: nat, i: nat)
    requires subkey.Length >= 16 * n + 4 && i + 2 < 8 * n + 2
    modifies subkey
    ensures var v := old(Subkeys(subkey, n));
            Subkeys(subkey, n) == v[i := HalfPInv(v[i])][i + 1 := HalfPInv(v[i + 1])][i + 2 := HalfPInv(v[i + 2])]
  {
    hide HalfPInv;
    InvertKey(subkey, n, i);
    InvertKey(subkey, n, i + 1);
    InvertKey(subkey, n, i + 2);
  }

  method InvertGroup(subkey: array<Word>, n: nat, i: nat, ghost g: nat, ghost v: seq<Half>)
    requires subkey.Length >= 16 * n + 4 && g < n && i == 8 * g + 2 && InvertedTo(v, Subkeys(subkey, n), n, g)
    modifies subkey
    ensures InvertedTo(v, Subkeys(subkey, n), n, g + 1)
  {
    hide HalfPInv, InvertedTo;
    ghost var w := Subkeys(subkey, n);
    InvertThree(subkey, n, i);
    InvertThree(subkey, n, i + 3);
    InvertStep(v, w, Subkeys(subkey, n), n, g);
  }

  /** The loop at the end of camellia_setup_tail. */
  method InvertHalves(subkey: array<Word>, max: nat)
    requires (max == 24 || max == 32) && subkey.Length >= 2 * max + 4
    modifies subkey
    ensures HalfInverts(old(Subkeys(subkey, max / 8)), Subkeys(subkey, max / 8), max / 8)
  {
    hide HalfPInv, HalfInvertsGroup, SameFLKeys;
    var n := max / 8;
    ghost var v := Subkeys(subkey, n);
    ghost var g := 0;
    var i := 2;
    while i < max
      invariant i == 8 * g + 2 && g <= n && InvertedTo(v, Subkeys(subkey, n), n, g)
      decreases max - i
    {
      InvertGroup(subkey, n, i, g, v);
      g := g + 1;
      i := i + 8;
    }
  }

  /** camellia_setup_tail: subkeys that set up the kernel's network for the raw table. */
  method SetupTail(subkey: array<Word>, subL: array<Word>, subR: array<Word>, max: nat)
    requires subkey != subL && subkey != subR && subL != subR && (max == 24 || max == 32)
    requires subL.Length == subR.Length == max + 2 && subkey.Length >= 2 * max + 4
    modifies subkey, subL, subR
    ensures SetUp(old(Table(subL, subR)), Subkeys(subkey, max / 8), max / 8)
  {
    hide Absorbs, Folds, HalfInverts;
    ghost var t := Table(subL, subR);
    Absorb(subL, subR, max);
    ghost var u := Table(subL, subR);
    Fold(subkey, subL, subR, max);
    ghost var v := Subkeys(subkey, max / 8);
    InvertHalves(subkey, max);
    assert Absorbs(t, u, max / 8) && Folds(u, v, max / 8) && HalfInverts(v, Subkeys(subkey, max / 8), max / 8);
  }

  // ---------- encryption and decryption ----------

  ghost function BlockOf(io: array<Word>): Block
    requires io.Length == 4
    reads io
  {
    Block(Half(io[0], io[1]), Half(io[2], io[3]))
  }

  function Key(subkey: seq<Word>, i: nat): Half
    requires 2 * i + 1 < |subkey|
  {
    Half(subkey[2 * i], subkey[2 * i + 1])
  }

  /** CAMELLIA_ROUNDSM from io[x], io[x+1] into io[y], io[y+1]. */
  method RoundInto(s: Boxes, subkey: array<Word>, io: array<Word>, k: nat, x: nat, y: nat)
    requires io != subkey && io.Length == 4 && {x, y} == {0, 2} && 2 * k + 1 < subkey.Length
    modifies io
    ensures Half(io[x], io[x + 1]) == old(Half(io[x], io[x + 1]))
    ensures Half(io[y], io[y + 1]) ==
            Add(old(Half(io[y], io[y + 1])), RoundSM(s, old(Half(io[x], io[x + 1])), Key(subkey[..], k)))
  {
    var xl, xr := io[x], io[x + 1];
    var ir := Sp1110(s, ByteAt(xr, 4));
    var il := Sp1110(s, ByteAt(xl, 1));
    ir := Xor(ir, Sp0222(s, ByteAt(xr, 1)));
    il := Xor(il, Sp0222(s, ByteAt(xl, 2)));
    ir := Xor(ir, Sp3033(s, ByteAt(xr, 2)));
    il := Xor(il, Sp3033(s, ByteAt(xl, 3)));
    ir := Xor(ir, Sp4404(s, ByteAt(xr, 3)));
    il := Xor(il, Sp4404(s, ByteAt(xl, 4)));
    assert ir == LookupR(s, xr) && il == LookupL(s, xl);
    hide LookupL, LookupR, Sp1110, Sp0222, Sp3033, Sp4404;
    il := Xor(il, subkey[2 * k]);
    ir := Xor(ir, Xor(il, subkey[2 * k + 1]));
    io[y] := Xor(io[y], ir);
    io[y + 1] := Xor(io[y + 1], Xor(Ror8(il), ir));
  }

  method RoundPairInto(s: Boxes, subkey: array<Word>, io: array<Word>, k1: nat, k2: nat)
    requires io != subkey && io.Length == 4 && 2 * k1 + 1 < subkey.Length && 2 * k2 + 1 < subkey.Length
    modifies io
    ensures BlockOf(io) == KRoundPair(s, old(BlockOf(io)), Key(subkey[..], k1), Key(subkey[..], k2))
  {
    hide RoundSM, Add;
    RoundInto(s, subkey, io, k1, 0, 2);
    RoundInto(s, subkey, io, k2, 2, 0);
  }

  lemma KeyIsEntry(subkey: array<Word>, n: nat, i: nat)
    requires subkey.Length >= 16 * n + 4 && i < 8 * n + 2
    ensures Key(subkey[..], i) == Subkeys(subkey, n)[i]
  {
  }

  /** ROUNDS(i) of camellia_do_encrypt. */
  method Rounds(s: Boxes, subkey: array<Word>, io: array<Word>, n: nat, g: nat)
    requires io != subkey && io.Length == 4 && subkey.Length >= 16 * n + 4 && g < n
    modifies io
    ensures BlockOf(io) == KGroup(s, Subkeys(subkey, n), g, old(BlockOf(io)))
  {
    hide KRoundPair;
    forall i | 0 <= i < 8 * n + 2 ensures Key(subkey[..], i) == Subkeys(subkey, n)[i] { KeyIsEntry(subkey, n, i); }
    ghost var keys := Subkeys(subkey, n);
    RoundPairInto(s, subkey, io, 8 * g + 2, 8 * g + 3);
    RoundPairInto(s, subkey, io, 8 * g + 4, 8 * g + 5);
    RoundPairInto(s, subkey, io, 8 * g + 6, 8 * g + 7);
    assert Subkeys(subkey, n) == keys;
  }

  /** CAMELLIA_FLS with the FL key at entry k1 and the FLInv key at entry k2. */
  method Fls(subkey: array<Word>, io: array<Word>, k1: nat, k2: nat)
    requires io != subkey && io.Length == 4 && 2 * k1 + 1 < subkey.Length && 2 * k2 + 1 < subkey.Length
    modifies io
    ensures BlockOf(io) == Block(FL(old(BlockOf(io)).d1, Key(subkey[..], k1)), FLInv(old(BlockOf(io)).d2, Key(subkey[..], k2)))
  {
    var t0, t2 := And(io[0], subkey[2 * k1]), Or(io[3], subkey[2 * k2 + 1]);
    io[2] := Xor(io[2], t2);
    io[1] := Xor(io[1], Rol(t0, 1));
    var t3, t1 := And(io[2], subkey[2 * k2]), Or(io[1], subkey[2 * k1 + 1]);
    io[0] := Xor(io[0], t1);
    io[3] := Xor(io[3], Rol(t3, 1));
  }

  /** FLS(i) of camellia_do_encrypt. */
  method Layer(subkey: array<Word>, io: array<Word>, n: nat, g: nat)
    requires io != subkey && io.Length == 4 && subkey.Length >= 16 * n + 4 && g + 1 < n
    modifies io
    ensures BlockOf(io) == FLLayer(Subkeys(subkey, n), g, old(BlockOf(io)))
  {
    hide FL, FLInv;
    KeyIsEntry(subkey, n, 8 * g + 8);
    KeyIsEntry(subkey, n, 8 * g + 9);
    ghost var keys := Subkeys(subkey, n);
    Fls(subkey, io, 8 * g + 8, 8 * g + 9);
    assert Subkeys(subkey, n) == keys;
  }

  method XorHalf(subkey: array<Word>, io: array<Word>, k: nat, y: nat)
    requires io != subkey && io.Length == 4 && (y == 0 || y == 2) && 2 * k + 1 < subkey.Length
    modifies io
    ensures y == 0 ==> BlockOf(io) == Block(Add(old(BlockOf(io)).d1, Key(subkey[..], k)), old(BlockOf(io)).d2)
    ensures y == 2 ==> BlockOf(io) == Block(old(BlockOf(io)).d1, Add(old(BlockOf(io)).d2, Key(subkey[..], k)))
  {
    io[y] := Xor(io[y], subkey[2 * k]);
    io[y + 1] := Xor(io[y + 1], subkey[2 * k + 1]);
  }

  /** camellia_do_encrypt: the halves of the result are still to be swapped. */
  method DoEncrypt(s: Boxes, subkey: array<Word>, io: array<Word>, max: nat)
    requires io != subkey && io.Length == 4 && (max == 24 || max == 32) && subkey.Length >= 2 * max + 4
    modifies io
    ensures Swapped(BlockOf(io)) == Encrypt(s, Subkeys(subkey, max / 8), max / 8, old(BlockOf(io)))
  {
    hide KGroup, FLLayer, Add;
    var n := max / 8;
    ghost var keys, m := Subkeys(subkey, n), BlockOf(io);
    KeyIsEntry(subkey, n, 0);
    KeyIsEntry(subkey, n, max);
    XorHalf(subkey, io, 0, 0);
    assert BlockOf(io) == KEntering(s, keys, n, m, 0);
    EncryptGroup(s, subkey, io, n, 0, keys, m);
    EncryptGroup(s, subkey, io, n, 1, keys, m);
    if max == 32 { EncryptGroup(s, subkey, io, n, 2, keys, m); }
    Rounds(s, subkey, io, n, n - 1);
    XorHalf(subkey, io, max, 2);
  }

  method EncryptGroup(s: Boxes, subkey: array<Word>, io: array<Word>, n: nat, g: nat, ghost keys: seq<Half>, ghost m: Block)
    requires io != subkey && io.Length == 4 && subkey.Length >= 16 * n + 4 && g + 1 < n && keys == Subkeys(subkey, n)
    requires BlockOf(io) == KEntering(s, keys, n, m, g)
    modifies io
    ensures BlockOf(io) == KEntering(s, keys, n, m, g + 1) && keys == Subkeys(subkey, n)
  {
    hide KGroup, FLLayer;
    Rounds(s, subkey, io, n, g);
    assert keys == Subkeys(subkey, n);
    Layer(subkey, io, n, g);
    assert keys == Subkeys(subkey, n);
  }

  /** camellia_encrypt on words: under subkeys set up from a raw table, the textbook cipher. */
  method EncryptBlock(s: Boxes, subkey: array<Word>, src: array<Word>, dst: array<Word>, max: nat)
    requires dst != subkey && src.Length == dst.Length == 4 && (max == 24 || max == 32)
    requires subkey.Length >= 2 * max + 4
    modifies dst
    ensures BlockOf(dst) == Encrypt(s, Subkeys(subkey, max / 8), max / 8, old(BlockOf(src)))
    ensures forall t :: IsTable(t, max / 8) && SetUp(t, Subkeys(subkey, max / 8), max / 8) ==>
              BlockOf(dst) == Textbook(s, t, max / 8, old(BlockOf(src)))
  {
    hide Encrypt, SetUp, Textbook;
    ghost var keys, m := Subkeys(subkey, max / 8), BlockOf(src);
    var tmp := new Word[4][src[0], src[1], src[2], src[3]];
    DoEncrypt(s, subkey, tmp, max);
    dst[0], dst[1], dst[2], dst[3] := tmp[2], tmp[3], tmp[0], tmp[1];
    assert keys == Subkeys(subkey, max / 8);
    forall t | IsTable(t, max / 8) && SetUp(t, keys, max / 8)
      ensures Encrypt(s, keys, max / 8, m) == Textbook(s, t, max / 8, m)
    {
      EncryptIsTextbook(s, t, keys, max / 8, m);
    }
  }

  /** ROUNDS(i) of camellia_do_decrypt. */
  method RoundsBack(s: Boxes, subkey: array<Word>, io: array<Word>, n: nat, g: nat)
    requires io != subkey && io.Length == 4 && subkey.Length >= 16 * n + 4 && g < n
    modifies io
    ensures BlockOf(io) == DGroup(s, Subkeys(subkey, n), g, old(BlockOf(io)))
  {
    hide KRoundPair;
    forall i | 0 <= i < 8 * n + 2 ensures Key(subkey[..], i) == Subkeys(subkey, n)[i] { KeyIsEntry(subkey, n, i); }
    ghost var keys := Subkeys(subkey, n);
    RoundPairInto(s, subkey, io, 8 * g + 7, 8 * g + 6);
    RoundPairInto(s, subkey, io, 8 * g + 5, 8 * g + 4);
    RoundPairInto(s, subkey, io, 8 * g + 3, 8 * g + 2);
    assert Subkeys(subkey, n) == keys;
  }

  method DecryptGroup(s: Boxes, subkey: array<Word>, io: array<Word>, n: nat, g: nat, ghost keys: seq<Half>, ghost m: Block)
    requires io != subkey && io.Length == 4 && subkey.Length >= 16 * n + 4 && g + 1 < n && keys == Subkeys(subkey, n)
    requires BlockOf(io) == Leaving(s, keys, n, m, g + 1)
    modifies io
    ensures BlockOf(io) == Leaving(s, keys, n, m, g) && keys == Subkeys(subkey, n)
  {
    hide DGroup, FL, FLInv;
    KeyIsEntry(subkey, n, 8 * g + 8);
    KeyIsEntry(subkey, n, 8 * g + 9);
    Fls(subkey, io, 8 * g + 9, 8 * g + 8);
    assert keys == Subkeys(subkey, n);
    RoundsBack(s, subkey, io, n, g);
    assert keys == Subkeys(subkey, n);
  }

  /** camellia_do_decrypt: the halves of the result are still to be swapped. */
  method DoDecrypt(s: Boxes, subkey: array<Word>, io: array<Word>, max: nat)
    requires io != subkey && io.Length == 4 && (max == 24 || max == 32) && subkey.Length >= 2 * max + 4
    modifies io
    ensures Swapped(BlockOf(io)) == Decrypt(s, Subkeys(subkey, max / 8), max / 8, old(BlockOf(io)))
  {
    hide DGroup, DFLLayer, Add;
    var n := max / 8;
    ghost var keys, m := Subkeys(subkey, n), BlockOf(io);
    KeyIsEntry(subkey, n, 0);
    KeyIsEntry(subkey, n, max);
    XorHalf(subkey, io, max, 0);
    RoundsBack(s, subkey, io, n, n - 1);
    assert keys == Subkeys(subkey, n) && BlockOf(io) == Leaving(s, keys, n, m, n - 1);
    if max == 32 { DecryptGroup(s, subkey, io, n, 2, keys, m); }
    DecryptGroup(s, subkey, io, n, 1, keys, m);
    DecryptGroup(s, subkey, io, n, 0, keys, m);
    XorHalf(subkey, io, 0, 2);
  }

  /** camellia_decrypt on words: the inverse of encryption, whatever the subkeys. */
  method DecryptBlock(s: Boxes, subkey: array<Word>, src: array<Word>, dst: array<Word>, max: nat)
    requires dst != subkey && src.Length == dst.Length == 4 && (max == 24 || max == 32)
    requires subkey.Length >= 2 * max + 4
    modifies dst
    ensures Encrypt(s, Subkeys(subkey, max / 8), max / 8, BlockOf(dst)) == old(BlockOf(src))
    ensures forall m :: old(BlockOf(src)) == Encrypt(s, Subkeys(subkey, max / 8), max / 8, m) ==> BlockOf(dst) == m
  {
    hide Encrypt, Decrypt;
    ghost var keys, c := Subkeys(subkey, max / 8), BlockOf(src);
    var tmp := new Word[4][src[0], src[1], src[2], src[3]];
    DoDecrypt(s, subkey, tmp, max);
    dst[0], dst[1], dst[2], dst[3] := tmp[2], tmp[3], tmp[0], tmp[1];
    assert keys == Subkeys(subkey, max / 8);
    EncryptUndoesDecrypt(s, keys, max / 8, c);
    forall m | c == Encrypt(s, keys, max / 8, m) ensures BlockOf(dst) == m {
      DecryptUndoesEncrypt(s, keys, max / 8, m);
    }
  }
}
