/** What the authenticated blocks and the sealed message say to a reader of RFC 3610, in terms of the
    values read off them and not of the functions that write them (crypto/ccm.c). */
module CcmFormat {
  import opened Bytes
  import opened Modes
  import opened Ccm

  // ---------- the header of the associated data ----------

  /** Section 2.2 of RFC 3610: two bytes below 2^16 - 2^8, else the mark 0xfffe and four bytes. */
  lemma HeaderSays(a: nat)
    requires a < 0x1_0000_0000
    ensures var h := AdataHeader(a);
            && (a < 0xff00 ==> |h| == 2 && Value(h) == a)
            && (a >= 0xff00 ==> |h| == 6 && h[..2] == [0xff, 0xfe] && Value(h[2..]) == a)
  {
    FourValue([0, 0, 0, 0]);
    TwoDigits(a);
    TwoDigits(0xfffe);
    ValueOfDigits(a, 2);
    ValueOfDigits(a, 4);
    hide Digits, Value, Pow256;
    if a < 0xff00 {
      Below(a, Pow256(2));
    } else {
      Below(a, Pow256(4));
      assert AdataHeader(a)[2..] == Digits(a, 4);
    }
  }

  // ---------- padding ----------

  /** n rounded up to whole blocks. */
  function RoundUp(n: nat): nat { (n + BLOCK - 1) / BLOCK * BLOCK }

  /** The data itself, then zeros up to the next whole block. */
  lemma {:induction false} PadShape(x: seq<Byte>)
    ensures |PadBlocks(x)| == RoundUp(|x|) && x <= PadBlocks(x)
    ensures forall i :: |x| <= i < RoundUp(|x|) ==> PadBlocks(x)[i] == 0
    decreases |x|
  {
    if |x| >= BLOCK {
      var t := x[BLOCK..];
      PadShape(t);
      assert RoundUp(|x|) == BLOCK + RoundUp(|t|);
      assert x == x[..BLOCK] + t;
      forall i | |x| <= i < RoundUp(|x|) ensures PadBlocks(x)[i] == 0 { assert PadBlocks(x)[i] == PadBlocks(t)[i - BLOCK]; }
    }
  }

  // ---------- the blocks ----------

  lemma FlagsSay(lp: nat, m: nat, adata: bool)
    requires lp <= 7 && LegalTag(m)
    ensures var f := Flags(lp, m, adata); f % 8 == lp && 2 * (f / 8 % 8) + 2 == m && (f / 64 == if adata then 1 else 0)
  {
  }

  /** The first block: flags, nonce and the length of the text. */
  ghost predicate FirstSays(b: seq<Byte>, iv: seq<Byte>, m: nat, adata: bool, n: nat)
    requires LegalIv(iv)
  {
    var l := LengthBytes(iv);
    && |b| == BLOCK
    && b[0] % 8 + 1 == l && 2 * (b[0] / 8 % 8) + 2 == m && (b[0] / 64 == if adata then 1 else 0)
    && b[1..BLOCK - l] == iv[1..BLOCK - l]
    && Value(b[BLOCK - l..]) == n % Pow256(l)
  }

  lemma FirstBlockSays(iv: seq<Byte>, m: nat, adata: bool, n: nat)
    requires LegalIv(iv) && LegalTag(m)
    ensures FirstSays(FirstBlock(iv, m, adata, n), iv, m, adata, n)
  {
    var b, l := FirstBlock(iv, m, adata, n), LengthBytes(iv);
    ValueOfDigits(n, l);
    FlagsSay(iv[0], m, adata);
    hide Digits, Value, Pow256, Flags, LegalTag;
    assert b[0] == Flags(iv[0], m, adata);
    assert b[BLOCK - l..] == Digits(n, l);
    assert b[1..BLOCK - l] == Nonce(iv)[1..] == iv[1..BLOCK - l];
  }

  /** The bytes the header takes. */
  function HeaderSize(a: nat): nat { if a == 0 then 0 else if a < 0xff00 then 2 else 6 }

  /** The blocks of the associated data: its length, the data itself, zeros up to a whole block. */
  ghost predicate AdataSays(d: seq<Byte>, assoc: seq<Byte>) {
    var a, h := |assoc|, HeaderSize(|assoc|);
    && |d| == RoundUp(h + a) >= h + a
    && (0 < a < 0xff00 ==> Value(d[..2]) == a)
    && (a >= 0xff00 ==> d[0] == 0xff && d[1] == 0xfe && Value(d[2..6]) == a)
    && d[h..h + a] == assoc
    && forall i :: h + a <= i < |d| ==> d[i] == 0
  }

  lemma AdataBlocksSay(assoc: seq<Byte>)
    requires |assoc| < 0x1_0000_0000
    ensures AdataSays(AdataBlocks(assoc), assoc)
  {
    if assoc != [] {
      var x := AdataHeader(|assoc|) + assoc;
      HeaderSays(|assoc|);
      PadShape(x);
      hide AdataHeader, PadBlocks, Value, RoundUp;
      var s := AdataBlocks(assoc);
      assert s[..|x|] == x;
      var h := |AdataHeader(|assoc|)|;
      assert s[..h] == x[..h] == AdataHeader(|assoc|);
      assert s[h..h + |assoc|] == x[h..] == assoc;
      if h == 6 { assert s[2..6] == s[..6][2..] && s[..2] == s[..6][..2]; }
    }
  }

  ghost predicate TextSays(p: seq<Byte>, text: seq<Byte>) {
    |p| == RoundUp(|text|) && text <= p && forall i :: |text| <= i < |p| ==> p[i] == 0
  }

  /** Everything that is authenticated can be read off the blocks that are absorbed: the first one,
      those of the associated data, and then those of the text. */
  lemma BlocksSay(iv: seq<Byte>, m: nat, held: seq<Byte>, assoc: seq<Byte>, plain: seq<Byte>)
    requires LegalIv(iv) && LegalTag(m) && |assoc| < 0x1_0000_0000
    ensures var s, at := Absorbed(iv, m, held, assoc, plain), BLOCK + RoundUp(HeaderSize(|assoc|) + |assoc|);
            && BLOCK <= at <= |s|
            && FirstSays(s[..BLOCK], iv, m, assoc != [], |plain|)
            && AdataSays(s[BLOCK..at], assoc)
            && TextSays(s[at..], if assoc == [] then held + plain else plain)
  {
    var b, d, p := FirstBlock(iv, m, assoc != [], |plain|), AdataBlocks(assoc), PadBlocks(Behind(held, assoc, plain));
    FirstBlockSays(iv, m, assoc != [], |plain|);
    AdataBlocksSay(assoc);
    assert |d| == RoundUp(HeaderSize(|assoc|) + |assoc|);
    PadShape(Behind(held, assoc, plain));
    hide FirstBlock, AdataBlocks, PadBlocks, RoundUp, FirstSays, AdataSays;
    Laid(b, d, p);
  }

  lemma Laid(b: seq<Byte>, d: seq<Byte>, p: seq<Byte>)
    ensures var s := b + d + p; s[..|b|] == b && s[|b|..|b| + |d|] == d && s[|b| + |d|..] == p
  {
  }

  // ---------- the tag and the counter blocks ----------

  /** The MAC is the last block of the cipher block chaining encryption under a zero IV. */
  lemma {:induction false} MacIsLastBlock(c: Cipher, iv: seq<Byte>, x: seq<Byte>)
    requires IsCipher16(c) && |iv| == BLOCK && x != [] && Blocks(|x|, BLOCK)
    ensures |Crypt(c, CbcEncrypt, iv, x)| == |x| >= BLOCK
    ensures Feed(c, iv, x).0 == Crypt(c, CbcEncrypt, iv, x)[|x| - BLOCK..]
    decreases |x|
  {
    hide XorByte;
    var h, t := x[..BLOCK], x[BLOCK..];
    CryptLengths(c, CbcEncrypt, iv, x);
    XorComm(iv, h);
    var o := c.enc(Xor(iv, h));
    assert x == h + t;
    if t == [] {
      CryptNothing(c, CbcEncrypt, o);
    } else {
      MacIsLastBlock(c, o, t);
      assert Crypt(c, CbcEncrypt, iv, x) == o + Crypt(c, CbcEncrypt, o, t);
    }
  }

  /** The tag of a request: the last cipher block over the blocks absorbed, from a zero IV. */
  lemma TagIsLastBlock(c: Cipher, iv: seq<Byte>, m: nat, held: seq<Byte>, assoc: seq<Byte>, plain: seq<Byte>)
    requires IsCipher16(c) && LegalIv(iv) && LegalTag(m) && |assoc| < 0x1_0000_0000
    ensures var s := Absorbed(iv, m, held, assoc, plain);
            var out := Crypt(c, CbcEncrypt, Zeros(BLOCK), s);
            |out| == |s| >= BLOCK && Mac(c, iv, m, held, assoc, plain) == out[|s| - BLOCK..]
  {
    hide Mac, Absorbed, Crypt, Feed;
    var s := Absorbed(iv, m, held, assoc, plain);
    MacIsCbcMac(c, iv, m, held, assoc, plain);
    WholeBlocks(iv, m, held, assoc, plain);
    MacIsLastBlock(c, Zeros(BLOCK), s);
  }

  lemma WholeBlocks(iv: seq<Byte>, m: nat, held: seq<Byte>, assoc: seq<Byte>, plain: seq<Byte>)
    requires LegalIv(iv) && LegalTag(m) && |assoc| < 0x1_0000_0000
    ensures var s := Absorbed(iv, m, held, assoc, plain); |s| >= BLOCK && Blocks(|s|, BLOCK)
  {
    hide Absorbed, Blocks, FirstSays, AdataSays, RoundUp;
    BlocksSay(iv, m, held, assoc, plain);
    RoundedUp(HeaderSize(|assoc|) + |assoc|, |Behind(held, assoc, plain)|);
    BlocksAreMultiples(|Absorbed(iv, m, held, assoc, plain)|, BLOCK);
  }

  lemma RoundedUp(p: nat, q: nat)
    ensures (BLOCK + RoundUp(p) + RoundUp(q)) % BLOCK == 0
  {
  }

  /** A_i of section 2.3 of RFC 3610: the flags L' (already the first byte of the nonce part), the nonce, the counter. */
  lemma CounterBlocks(iv: seq<Byte>, k: nat)
    requires LegalIv(iv) && k < Pow256(LengthBytes(iv))
    ensures CounterAt(ClearCounter(iv), k) == Nonce(iv) + Digits(k, LengthBytes(iv))
  {
    var n, l := Nonce(iv), LengthBytes(iv);
    hide Digits, Value, Pow256;
    ValueAppend(n, Zeros(l));
    ZerosValue(l);
    ValueAppend(n, Digits(k, l));
    ValueOfDigits(k, l);
    Below(k, Pow256(l));
    DigitsOfValue(n + Digits(k, l));
  }

  /** Sections 2.3 and 2.4 of RFC 3610: byte i of the text is combined with the block for counter
      1 + i / 16, byte j of the tag with the block for counter 0. */
  lemma SealSays(c: Cipher, iv: seq<Byte>, m: nat, held: seq<Byte>, assoc: seq<Byte>, plain: seq<Byte>, i: nat, j: nat)
    requires IsCipher16(c) && LegalIv(iv) && LegalTag(m) && i < |plain| && j < m && 1 + i / BLOCK < Pow256(LengthBytes(iv))
    ensures var sealed := Seal(c, iv, m, held, assoc, plain);
            var l, n := LengthBytes(iv), |plain|;
            var a0, ai := c.enc(Nonce(iv) + Digits(0, l)), c.enc(Nonce(iv) + Digits(1 + i / BLOCK, l));
            && |sealed| == n + m && |a0| == |ai| == BLOCK
            && sealed[i] == XorByte(plain[i], ai[i % BLOCK])
            && sealed[n + j] == XorByte(Mac(c, iv, m, held, assoc, plain)[j], a0[j])
  {
    hide Mac, Crypt, CounterAt, XorByte, Digits, Pow256;
    var t := Mac(c, iv, m, held, assoc, plain);
    var input := t + plain;
    CryptLengths(c, Counter, ClearCounter(iv), input);
    CounterStream(c, ClearCounter(iv), input, BLOCK + i);
    CounterStream(c, ClearCounter(iv), input, j);
    CounterBlocks(iv, 1 + i / BLOCK);
    CounterBlocks(iv, 0);
    assert (BLOCK + i) / BLOCK == 1 + i / BLOCK && (BLOCK + i) % BLOCK == i % BLOCK && j / BLOCK == 0 && j % BLOCK == j;
  }
}
