/** Counter with CBC-MAC (crypto/ccm.c; RFC 3610): the formatting, the running MAC, sealing and
    opening, and what they guarantee. */
module Ccm {
  import opened Bytes
  import opened Modes

  const BLOCK := 16

  ghost predicate IsCipher16(c: Cipher) { IsCipher(c) && c.bsize == BLOCK }

  // ---------- formatting ----------

  predicate LegalTag(m: nat) { m in {4, 6, 8, 10, 12, 14, 16} }

  /** The IV: L' in the first byte, then the nonce, then L bytes for the counter. */
  predicate LegalIv(iv: seq<Byte>) { |iv| == BLOCK && 1 <= iv[0] <= 7 }

  /** The number of bytes the length and the counter get. */
  function LengthBytes(iv: seq<Byte>): nat
    requires LegalIv(iv)
  {
    (iv[0] as int) + 1
  }

  function Nonce(iv: seq<Byte>): seq<Byte>
    requires LegalIv(iv)
  {
    iv[..BLOCK - LengthBytes(iv)]
  }

  function Flags(lp: nat, m: nat, adata: bool): (f: nat)
    requires lp <= 7 && LegalTag(m)
    ensures f < 128
  {
    lp + 8 * ((m - 2) / 2) + (if adata then 64 else 0)
  }

  /** set_msg_len refuses a length only beyond 256 to the number of bytes. */
  predicate Accepted(n: nat, bytes: nat) { bytes >= 4 || n <= Pow256(bytes) }

  /** B_0 of section 2.2 of RFC 3610. */
  function FirstBlock(iv: seq<Byte>, m: nat, adata: bool, n: nat): (b: seq<Byte>)
    requires LegalIv(iv) && LegalTag(m)
    ensures |b| == BLOCK
  {
    [Flags(iv[0], m, adata)] + Nonce(iv)[1..] + Digits(n, LengthBytes(iv))
  }

  /** The encoding of the length of the associated data. */
  function AdataHeader(a: nat): (h: seq<Byte>)
    ensures |h| == 2 || |h| == 6
  {
    if a < 65280 then Digits(a, 2) else Digits(0xfffe, 2) + Digits(a, 4)
  }

  /** Zero-padded to whole blocks. */
  function PadBlocks(x: seq<Byte>): seq<Byte>
    decreases |x|
  {
    if x == [] then [] else if |x| < BLOCK then Padded(x, BLOCK) else x[..BLOCK] + PadBlocks(x[BLOCK..])
  }

  function AdataBlocks(assoc: seq<Byte>): seq<Byte> {
    if assoc == [] then [] else PadBlocks(AdataHeader(|assoc|) + assoc)
  }

  /** The blocks B_0, B_1, ... that are authenticated. */
  function Formatted(iv: seq<Byte>, m: nat, assoc: seq<Byte>, plain: seq<Byte>): seq<Byte>
    requires LegalIv(iv) && LegalTag(m)
  {
    FirstBlock(iv, m, assoc != [], |plain|) + AdataBlocks(assoc) + PadBlocks(plain)
  }

  /** What the text is absorbed behind: with no associated data, the bytes held back from before. */
  function Behind(held: seq<Byte>, assoc: seq<Byte>, plain: seq<Byte>): seq<Byte> {
    if assoc == [] then held + plain else plain
  }

  /** The blocks absorbed when `held` was held back before the request began. */
  function Absorbed(iv: seq<Byte>, m: nat, held: seq<Byte>, assoc: seq<Byte>, plain: seq<Byte>): seq<Byte>
    requires LegalIv(iv) && LegalTag(m)
  {
    FirstBlock(iv, m, assoc != [], |plain|) + AdataBlocks(assoc) + PadBlocks(Behind(held, assoc, plain))
  }

  // ---------- the running MAC ----------

  /** What absorbing `total` (bytes held back before, then new ones) makes of the state o: the new
      state and the bytes held back, fewer than a block. */
  function Feed(c: Cipher, o: seq<Byte>, total: seq<Byte>): (seq<Byte>, seq<Byte>)
    decreases |total|
  {
    if |total| < BLOCK then (o, total) else Feed(c, c.enc(Xor(o, total[..BLOCK])), total[BLOCK..])
  }

  /** What is held back is padded and absorbed. */
  function Flush(c: Cipher, o: seq<Byte>, held: seq<Byte>): seq<Byte>
    requires |held| <= BLOCK
  {
    if held == [] then o else c.enc(Xor(o, Padded(held, BLOCK)))
  }

  lemma {:induction false} FeedHolds(c: Cipher, o: seq<Byte>, total: seq<Byte>)
    requires IsCipher16(c) && |o| == BLOCK
    ensures |Feed(c, o, total).0| == BLOCK && |Feed(c, o, total).1| < BLOCK
    decreases |total|
  {
    if |total| >= BLOCK { FeedHolds(c, c.enc(Xor(o, total[..BLOCK])), total[BLOCK..]); }
  }

  function Digest(c: Cipher, o: seq<Byte>, x: seq<Byte>): seq<Byte>
    requires IsCipher16(c) && |o| == BLOCK
  {
    FeedHolds(c, o, x);
    Flush(c, Feed(c, o, x).0, Feed(c, o, x).1)
  }

  /** However the data is cut, the state is the same. */
  lemma {:induction false} FeedSplits(c: Cipher, o: seq<Byte>, a: seq<Byte>, b: seq<Byte>)
    ensures var (o1, held) := Feed(c, o, a); Feed(c, o, a + b) == Feed(c, o1, held + b)
    decreases |a|
  {
    if |a| >= BLOCK {
      assert (a + b)[..BLOCK] == a[..BLOCK] && (a + b)[BLOCK..] == a[BLOCK..] + b;
      FeedSplits(c, c.enc(Xor(o, a[..BLOCK])), a[BLOCK..], b);
    }
  }

  /** Absorbing and flushing is absorbing the zero-padded blocks. */
  lemma {:induction false} DigestPads(c: Cipher, o: seq<Byte>, x: seq<Byte>)
    requires IsCipher16(c) && |o| == BLOCK
    ensures Feed(c, o, PadBlocks(x)) == (Digest(c, o, x), [])
    decreases |x|
  {
    if x == [] {
    } else if |x| < BLOCK {
      assert Padded(x, BLOCK)[..BLOCK] == Padded(x, BLOCK) && Padded(x, BLOCK)[BLOCK..] == [];
    } else {
      var h, t := x[..BLOCK], x[BLOCK..];
      assert (h + PadBlocks(t))[..BLOCK] == h && (h + PadBlocks(t))[BLOCK..] == PadBlocks(t);
      DigestPads(c, c.enc(Xor(o, h)), t);
    }
  }

  lemma DigestLength(c: Cipher, o: seq<Byte>, x: seq<Byte>)
    requires IsCipher16(c) && |o| == BLOCK
    ensures |Digest(c, o, x)| == BLOCK
  {
    FeedHolds(c, o, x);
  }

  /** crypto_ccm_auth; `held` is what an earlier use of the request left in the buffer. */
  function Mac(c: Cipher, iv: seq<Byte>, m: nat, held: seq<Byte>, assoc: seq<Byte>, plain: seq<Byte>): (t: seq<Byte>)
    requires IsCipher16(c) && LegalIv(iv) && LegalTag(m)
    ensures |t| == BLOCK
  {
    var o0 := c.enc(FirstBlock(iv, m, assoc != [], |plain|));
    DigestLength(c, o0, AdataHeader(|assoc|) + assoc);
    var o1 := if assoc == [] then o0 else Digest(c, o0, AdataHeader(|assoc|) + assoc);
    DigestLength(c, o1, Behind(held, assoc, plain));
    Digest(c, o1, Behind(held, assoc, plain))
  }

  /** CBC-MAC: each block is combined with the encryption of the one before, starting from zero. */
  function CbcMac(c: Cipher, blocks: seq<Byte>): seq<Byte> { Feed(c, Zeros(BLOCK), blocks).0 }

  lemma XorZeros(x: seq<Byte>)
    requires |x| == BLOCK
    ensures Xor(Zeros(BLOCK), x) == x
  {
    hide XorByte;
    forall i | 0 <= i < BLOCK ensures XorByte(0, x[i]) == x[i] { XorZero(x[i]); }
  }

  /** The buffered computation is the CBC-MAC of the blocks absorbed; with nothing held back, of the
      formatted, zero-padded blocks. */
  lemma MacIsCbcMac(c: Cipher, iv: seq<Byte>, m: nat, held: seq<Byte>, assoc: seq<Byte>, plain: seq<Byte>)
    requires IsCipher16(c) && LegalIv(iv) && LegalTag(m)
    ensures Mac(c, iv, m, held, assoc, plain) == CbcMac(c, Absorbed(iv, m, held, assoc, plain))
    ensures Mac(c, iv, m, [], assoc, plain) == CbcMac(c, Formatted(iv, m, assoc, plain))
  {
    hide Mac, Absorbed, CbcMac, Formatted;
    AbsorbedMac(c, iv, m, held, assoc, plain);
    AbsorbedMac(c, iv, m, [], assoc, plain);
    NothingHeld(iv, m, assoc, plain);
  }

  lemma NothingHeld(iv: seq<Byte>, m: nat, assoc: seq<Byte>, plain: seq<Byte>)
    requires LegalIv(iv) && LegalTag(m)
    ensures Absorbed(iv, m, [], assoc, plain) == Formatted(iv, m, assoc, plain)
  {
    assert [] + plain == plain;
  }

  lemma AbsorbedMac(c: Cipher, iv: seq<Byte>, m: nat, held: seq<Byte>, assoc: seq<Byte>, plain: seq<Byte>)
    requires IsCipher16(c) && LegalIv(iv) && LegalTag(m)
    ensures Mac(c, iv, m, held, assoc, plain) == CbcMac(c, Absorbed(iv, m, held, assoc, plain))
  {
    hide Digest, FirstBlock, PadBlocks, AdataHeader, Feed, Behind;
    var b0, a, p := FirstBlock(iv, m, assoc != [], |plain|), AdataBlocks(assoc), PadBlocks(Behind(held, assoc, plain));
    var o0 := c.enc(b0);
    StartFromZero(c, b0, a + p);
    assert b0 + a + p == b0 + (a + p);
    var o1 := if assoc == [] then o0 else Digest(c, o0, AdataHeader(|assoc|) + assoc);
    if assoc == [] {
      assert a + p == p;
    } else {
      DigestPads(c, o0, AdataHeader(|assoc|) + assoc);
      DigestLength(c, o0, AdataHeader(|assoc|) + assoc);
      FeedSplits(c, o0, a, p);
      assert [] + p == p;
    }
    DigestPads(c, o1, Behind(held, assoc, plain));
  }

  /** The first block is combined with zeros, that is, with nothing. */
  lemma StartFromZero(c: Cipher, b0: seq<Byte>, rest: seq<Byte>)
    requires IsCipher16(c) && |b0| == BLOCK
    ensures CbcMac(c, b0 + rest) == Feed(c, c.enc(b0), rest).0
  {
    XorZeros(b0);
    assert (b0 + rest)[..BLOCK] == b0 && (b0 + rest)[BLOCK..] == rest;
  }

  // ---------- the formatting is injective ----------

  /** The flags give away all three of their parts. */
  lemma FlagsInjective(lp: nat, m: nat, a: bool, lp': nat, m': nat, a': bool)
    requires lp <= 7 && lp' <= 7 && LegalTag(m) && LegalTag(m')
    requires Flags(lp, m, a) == Flags(lp', m', a')
    ensures lp == lp' && m == m' && a == a'
  {
  }

  lemma {:induction false} DigitsInjective(v: nat, w: nat, n: nat)
    requires v < Pow256(n) && w < Pow256(n) && Digits(v, n) == Digits(w, n)
    ensures v == w
  {
    ValueOfDigits(v, n);
    ValueOfDigits(w, n);
    Below(v, Pow256(n));
    Below(w, Pow256(n));
  }

  /** Lengths up to and including 256 to the n with the same digits. */
  lemma DigitsWrap(v: nat, w: nat, n: nat)
    requires v <= Pow256(n) && w <= Pow256(n) && Digits(v, n) == Digits(w, n)
    ensures v == w || (v == 0 && w == Pow256(n)) || (v == Pow256(n) && w == 0)
  {
    ValueOfDigits(v, n);
    ValueOfDigits(w, n);
    ReducedOnce(v, Pow256(n));
    ReducedOnce(w, Pow256(n));
  }

  lemma ReducedOnce(v: nat, m: nat)
    requires v <= m && m > 0
    ensures v % m == if v == m then 0 else v
  {
  }

  /** The first block says what it should, but for a message that fills the length field. */
  lemma FirstBlockInjective(iv: seq<Byte>, m: nat, a: bool, n: nat, iv': seq<Byte>, m': nat, a': bool, n': nat)
    requires LegalIv(iv) && LegalTag(m) && LegalIv(iv') && LegalTag(m')
    requires n <= Pow256(LengthBytes(iv)) && n' <= Pow256(LengthBytes(iv'))
    requires FirstBlock(iv, m, a, n) == FirstBlock(iv', m', a', n')
    ensures Nonce(iv) == Nonce(iv') && m == m' && a == a' && LengthBytes(iv) == LengthBytes(iv')
    ensures var top := Pow256(LengthBytes(iv)); n == n' || (n == 0 && n' == top) || (n == top && n' == 0)
  {
    hide Digits, Pow256, Flags;
    var b, b' := FirstBlock(iv, m, a, n), FirstBlock(iv', m', a', n');
    assert b[0] == Flags(iv[0], m, a) && b'[0] == Flags(iv'[0], m', a');
    FlagsInjective(iv[0], m, a, iv'[0], m', a');
    var l := LengthBytes(iv);
    assert b[1..BLOCK - l] == Nonce(iv)[1..] && b'[1..BLOCK - l] == Nonce(iv')[1..];
    assert Nonce(iv) == [iv[0]] + Nonce(iv)[1..] && Nonce(iv') == [iv'[0]] + Nonce(iv')[1..];
    assert b[BLOCK - l..] == Digits(n, l) && b'[BLOCK - l..] == Digits(n', l);
    DigitsWrap(n, n', l);
  }

  lemma TwoDigits(v: nat)
    ensures Digits(v, 2) == [v / 256 % 256, v % 256] && Pow256(2) == 65536
  {
  }

  /** No header is the beginning of another one's message. */
  lemma HeaderInjective(a: nat, x: seq<Byte>, a': nat, x': seq<Byte>)
    requires a < 0x1_0000_0000 && a' < 0x1_0000_0000 && AdataHeader(a) + x == AdataHeader(a') + x'
    ensures a == a' && x == x'
  {
    hide Digits, Pow256;
    var s, s' := AdataHeader(a) + x, AdataHeader(a') + x';
    TwoDigits(a);
    TwoDigits(a');
    TwoDigits(0xfffe);
    assert Pow256(4) == 0x1_0000_0000 by { FourValue([0, 0, 0, 0]); }
    assert (a < 65280 ==> s[..2] == Digits(a, 2) && s[0] < 255) && (a >= 65280 ==> s[0] == 255 && s[2..6] == Digits(a, 4));
    assert (a' < 65280 ==> s'[..2] == Digits(a', 2) && s'[0] < 255) && (a' >= 65280 ==> s'[0] == 255 && s'[2..6] == Digits(a', 4));
    if a < 65280 { DigitsInjective(a, a', 2); } else { DigitsInjective(a, a', 4); }
    assert s[|AdataHeader(a)|..] == x && s'[|AdataHeader(a')|..] == x';
  }

  /** Padding a string of known length hides nothing, and says where the next one starts. */
  lemma {:induction false} PadInjective(x: seq<Byte>, y: seq<Byte>, x': seq<Byte>, y': seq<Byte>)
    requires |x| == |x'| && PadBlocks(x) + y == PadBlocks(x') + y'
    ensures x == x' && y == y'
    decreases |x|
  {
    var s, s' := PadBlocks(x) + y, PadBlocks(x') + y';
    if x == [] {
      assert s == y && s' == y';
    } else if |x| < BLOCK {
      assert s[..|x|] == x && s'[..|x|] == x' && s[BLOCK..] == y && s'[BLOCK..] == y';
    } else {
      assert s[..BLOCK] == x[..BLOCK] && s'[..BLOCK] == x'[..BLOCK];
      assert s[BLOCK..] == PadBlocks(x[BLOCK..]) + y && s'[BLOCK..] == PadBlocks(x'[BLOCK..]) + y';
      PadInjective(x[BLOCK..], y, x'[BLOCK..], y');
      assert x == x[..BLOCK] + x[BLOCK..] && x' == x'[..BLOCK] + x'[BLOCK..];
    }
  }

  lemma {:induction false} PadStarts(x: seq<Byte>)
    ensures x <= PadBlocks(x)
    decreases |x|
  {
    if |x| >= BLOCK {
      PadStarts(x[BLOCK..]);
      assert x == x[..BLOCK] + x[BLOCK..];
    }
  }

  /** Padded associated data followed by anything: the length in the header tells them apart. */
  lemma AdataInjective(a: seq<Byte>, y: seq<Byte>, a': seq<Byte>, y': seq<Byte>)
    requires 0 < |a| < 0x1_0000_0000 && 0 < |a'| < 0x1_0000_0000
    requires AdataBlocks(a) + y == AdataBlocks(a') + y'
    ensures a == a' && y == y'
  {
    hide AdataHeader, PadBlocks;
    var s, h, h' := AdataBlocks(a) + y, AdataHeader(|a|), AdataHeader(|a'|);
    PadStarts(h + a);
    PadStarts(h' + a');
    assert s[..|h + a|] == h + a && s[..|h' + a'|] == h' + a';
    assert s == h + s[|h|..] && s == h' + s[|h'|..];
    HeaderInjective(|a|, s[|h|..], |a'|, s[|h'|..]);
    PadInjective(h + a, y, h' + a', y');
    assert (h + a)[|h|..] == a && (h' + a')[|h'|..] == a';
  }

  /** Padded messages, one the beginning of the other. */
  lemma PadPrefix(x: seq<Byte>, x': seq<Byte>)
    requires PadBlocks(x) <= PadBlocks(x')
    ensures |x| == |x'| ==> x == x'
    ensures x' == [] ==> x == []
  {
    hide PadBlocks;
    var rest := PadBlocks(x')[|PadBlocks(x)|..];
    assert PadBlocks(x) + rest == PadBlocks(x') + [];
    if |x| == |x'| { PadInjective(x, rest, x', []); }
    if x' == [] {
      PadStarts(x);
      assert PadBlocks([]) == [] by { PadNothing(); }
      assert |x| <= |PadBlocks(x)|;
    }
  }

  lemma PadNothing()
    ensures PadBlocks([]) == []
  {
  }

  /** After the first block. */
  lemma RestPrefix(assoc: seq<Byte>, plain: seq<Byte>, assoc': seq<Byte>, plain': seq<Byte>)
    requires |assoc| < 0x1_0000_0000 && |assoc'| < 0x1_0000_0000 && (assoc == [] <==> assoc' == [])
    requires AdataBlocks(assoc) + PadBlocks(plain) <= AdataBlocks(assoc') + PadBlocks(plain')
    ensures assoc == assoc' && PadBlocks(plain) <= PadBlocks(plain')
  {
    hide AdataBlocks, PadBlocks;
    var r, r' := AdataBlocks(assoc) + PadBlocks(plain), AdataBlocks(assoc') + PadBlocks(plain');
    var rest := r'[|r|..];
    if assoc != [] {
      assert r' == r + rest == AdataBlocks(assoc) + (PadBlocks(plain) + rest);
      AdataInjective(assoc, PadBlocks(plain) + rest, assoc', PadBlocks(plain'));
    } else {
      NoAdata();
    }
  }

  /** For every length that is accepted: if the blocks of one input begin those of another, the inputs
      are the same, or one message is empty and the other exactly fills the length field. */
  lemma FormattedPrefixFree(iv: seq<Byte>, m: nat, assoc: seq<Byte>, plain: seq<Byte>,
                            iv': seq<Byte>, m': nat, assoc': seq<Byte>, plain': seq<Byte>)
    requires LegalIv(iv) && LegalTag(m) && LegalIv(iv') && LegalTag(m')
    requires |plain| <= Pow256(LengthBytes(iv)) && |plain'| <= Pow256(LengthBytes(iv'))
    requires |assoc| < 0x1_0000_0000 && |assoc'| < 0x1_0000_0000
    requires Formatted(iv, m, assoc, plain) <= Formatted(iv', m', assoc', plain')
    ensures Nonce(iv) == Nonce(iv') && m == m' && assoc == assoc'
    ensures plain == plain' || (plain == [] && |plain'| == Pow256(LengthBytes(iv)))
  {
    hide FirstBlock, AdataBlocks, PadBlocks, Pow256;
    var b, b' := FirstBlock(iv, m, assoc != [], |plain|), FirstBlock(iv', m', assoc' != [], |plain'|);
    var r, r' := AdataBlocks(assoc) + PadBlocks(plain), AdataBlocks(assoc') + PadBlocks(plain');
    var s, s' := Formatted(iv, m, assoc, plain), Formatted(iv', m', assoc', plain');
    assert s == b + r && s' == b' + r';
    assert s[..BLOCK] == b && s'[..BLOCK] == b' && s[BLOCK..] == r && s'[BLOCK..] == r';
    assert b == b' && r <= r';
    FirstBlockInjective(iv, m, assoc != [], |plain|, iv', m', assoc' != [], |plain'|);
    RestPrefix(assoc, plain, assoc', plain');
    PadPrefix(plain, plain');
  }

  /** For every length that is accepted: no two different inputs are authenticated as the same blocks. */
  lemma FormattedInjective(iv: seq<Byte>, m: nat, assoc: seq<Byte>, plain: seq<Byte>,
                           iv': seq<Byte>, m': nat, assoc': seq<Byte>, plain': seq<Byte>)
    requires LegalIv(iv) && LegalTag(m) && LegalIv(iv') && LegalTag(m')
    requires |plain| <= Pow256(LengthBytes(iv)) && |plain'| <= Pow256(LengthBytes(iv'))
    requires |assoc| < 0x1_0000_0000 && |assoc'| < 0x1_0000_0000
    requires Formatted(iv, m, assoc, plain) == Formatted(iv', m', assoc', plain')
    ensures Nonce(iv) == Nonce(iv') && m == m' && assoc == assoc' && plain == plain'
  {
    hide Formatted, Pow256;
    FormattedPrefixFree(iv, m, assoc, plain, iv', m', assoc', plain');
    FormattedPrefixFree(iv', m', assoc', plain', iv, m, assoc, plain);
  }

  lemma NoAdata()
    ensures AdataBlocks([]) == [] && forall x: seq<Byte> :: AdataBlocks([]) + x == x
  {
  }

  /** The exception is real: with two or three length bytes a message that fills the length field is
      accepted, and the blocks of the empty message begin its blocks. */
  lemma LengthWraps(iv: seq<Byte>, m: nat, assoc: seq<Byte>, plain: seq<Byte>)
    requires LegalIv(iv) && LengthBytes(iv) <= 3 && LegalTag(m) && |plain| == Pow256(LengthBytes(iv))
    ensures Accepted(|plain|, LengthBytes(iv))
    ensures Formatted(iv, m, assoc, []) < Formatted(iv, m, assoc, plain)
  {
    var l := LengthBytes(iv);
    ValueOfDigits(Pow256(l), l);
    ValueOfDigits(0, l);
    Remainder(Pow256(l), Pow256(l), 1, 0);
    Below(0, Pow256(l));
    SameValue(Digits(Pow256(l), l), Digits(0, l));
    hide Digits, Pow256, AdataBlocks;
    assert FirstBlock(iv, m, assoc != [], |plain|) == FirstBlock(iv, m, assoc != [], 0);
    PadStarts(plain);
    PadNothing();
  }

  // ---------- sealing and opening ----------

  /** The IV with the counter bytes cleared. */
  function ClearCounter(iv: seq<Byte>): (r: seq<Byte>)
    requires LegalIv(iv)
    ensures |r| == BLOCK
  {
    Nonce(iv) + Zeros(LengthBytes(iv))
  }

  /** crypto_ccm_encrypt: tag and message under one counter stream, the tag first; the result is
      the ciphertext followed by the encrypted tag. */
  function Seal(c: Cipher, iv: seq<Byte>, m: nat, held: seq<Byte>, assoc: seq<Byte>, plain: seq<Byte>): seq<Byte>
    requires IsCipher16(c) && LegalIv(iv) && LegalTag(m)
  {
    CryptLengths(c, Counter, ClearCounter(iv), Mac(c, iv, m, held, assoc, plain) + plain);
    var out := Crypt(c, Counter, ClearCounter(iv), Mac(c, iv, m, held, assoc, plain) + plain);
    out[BLOCK..] + out[..m]
  }

  datatype Opened = TooShort | TooLong | BadTag | Plain(plain: seq<Byte>)

  /** Lengths are 32-bit, and so is the number of bytes under the counter stream. */
  const MAX_BYTES := 0x1_0000_0000

  /** crypto_ccm_decrypt: `stale` is what the tag buffer holds beyond the tag. The MAC is computed
      from the IV as the counter stream left it. */
  function Open(c: Cipher, iv: seq<Byte>, m: nat, held: seq<Byte>, assoc: seq<Byte>, sealed: seq<Byte>, stale: seq<Byte>): Opened
    requires IsCipher16(c) && LegalIv(iv) && LegalTag(m) && |stale| == BLOCK - m && |sealed| + BLOCK < MAX_BYTES
  {
    if |sealed| < m then TooShort
    else
      var n := |sealed| - m;
      var input := sealed[n..] + stale + sealed[..n];
      CryptLengths(c, Counter, ClearCounter(iv), input);
      var out := Crypt(c, Counter, ClearCounter(iv), input);
      var iv' := After(c, Counter, ClearCounter(iv), input);
      IvStaysLegal(c, iv, input);
      if !Accepted(n, LengthBytes(iv')) then TooLong
      else if Mac(c, iv', m, held, assoc, out[BLOCK..])[..m] != out[..m] then BadTag
      else Plain(out[BLOCK..])
  }

  /** How many blocks n bytes take. */
  function BlockCount(n: nat): nat { if n == 0 then 0 else if n < BLOCK then 1 else 1 + BlockCount(n - BLOCK) }

  lemma {:induction false} BlockCountBound(n: nat)
    ensures BLOCK * BlockCount(n) < n + BLOCK
  {
    if n >= BLOCK { BlockCountBound(n - BLOCK); }
  }

  /** The counter stream never carries out of the counter bytes while they can count its blocks. */
  lemma {:induction false} CounterStaysLow(c: Cipher, h: seq<Byte>, t: seq<Byte>, data: seq<Byte>)
    requires IsCipher16(c) && Value(t) + BlockCount(|data|) < Pow256(|t|)
    ensures var r := After(c, Counter, h + t, data); |r| == |h| + |t| && r[..|h|] == h
    decreases |data|
  {
    if data != [] {
      hide Value, Digits, Pow256;
      NoCarry(h, t);
      ValueOfDigits(Value(t) + 1, |t|);
      Below(Value(t) + 1, Pow256(|t|));
      if |data| >= BLOCK { CounterStaysLow(c, h, Inc(t), data[BLOCK..]); }
    }
  }

  lemma {:induction false} AfterIsCounter(c: Cipher, iv: seq<Byte>, data: seq<Byte>)
    requires IsCipher16(c) && |iv| == BLOCK
    ensures After(c, Counter, iv, data) == CounterAt(iv, BlockCount(|data|))
    decreases |data|
  {
    hide Digits, Value, CounterAt, Inc;
    IncLength(iv);
    if data == [] {
      CounterAtZero(iv);
    } else if |data| < BLOCK {
      CounterAtZero(Inc(iv));
      CounterAtNext(iv, 0);
    } else {
      AfterIsCounter(c, Inc(iv), data[BLOCK..]);
      CounterAtNext(iv, BlockCount(|data| - BLOCK));
    }
  }

  lemma {:induction false} CounterAtZero(iv: seq<Byte>)
    ensures CounterAt(iv, 0) == iv
  {
    DigitsOfValue(iv);
  }

  /** Counting may carry into the first byte at most once, and only if the others overflow. */
  lemma FirstByteCarries(iv: seq<Byte>, k: nat)
    requires LegalIv(iv) && k < Pow256(15)
    ensures var r := CounterAt(iv, k);
            |r| == BLOCK && iv[0] <= r[0] <= iv[0] + 1 && (Value(iv[1..]) + k < Pow256(15) ==> r[0] == iv[0])
  {
    hide Value, Digits, Pow256;
    var p, r, v := Pow256(15), CounterAt(iv, k), Value(iv[1..]);
    assert iv == [iv[0]] + iv[1..] && r == [r[0]] + r[1..];
    ValueAppend([iv[0]], iv[1..]);
    ValueAppend([r[0]], r[1..]);
    OneValue(iv[0]);
    OneValue(r[0]);
    ValueFits(iv[1..]);
    ValueFits(r[1..]);
    ValueOfDigits(Value(iv) + k, BLOCK);
    PowAdds(1, 15);
    OnePow();
    Small(iv[0], v, k, p);
    Below(Value(iv) + k, Pow256(BLOCK));
    Leads(iv[0], v + k, r[0], Value(r[1..]), p);
  }

  lemma OnePow()
    ensures Pow256(1) == 256
  {
  }

  lemma {:induction false} OneValue(x: Byte)
    ensures Value([x]) == x
  {
  }

  lemma Small(lp: nat, v: nat, k: nat, p: nat)
    requires lp <= 7 && v < p && k < p
    ensures lp * p + v + k < 256 * p
  {
  }

  lemma Leads(a: nat, v: nat, b: nat, w: nat, p: nat)
    requires a * p + v == b * p + w && w < p && v < 2 * p
    ensures a <= b <= a + 1 && (v < p ==> a == b)
  {
    if b < a { Gap(b, a, p); } else if b > a { Gap(a, b, p); }
    if b > a + 1 { Gap(a + 1, b, p); }
  }

  lemma Gap(a: nat, b: nat, p: nat)
    requires a < b
    ensures b * p >= a * p + p && (a + 1) * p == a * p + p
  {
  }

  /** Whatever the length, the IV the counter stream leaves is one the formatting can handle. */
  lemma IvStaysLegal(c: Cipher, iv: seq<Byte>, data: seq<Byte>)
    requires IsCipher16(c) && LegalIv(iv) && |data| < MAX_BYTES
    ensures LegalIv(After(c, Counter, ClearCounter(iv), data))
  {
    hide Value, Pow256, CounterAt;
    var iv0, k, l := ClearCounter(iv), BlockCount(|data|), LengthBytes(iv);
    BlockCountBound(|data|);
    AfterIsCounter(c, iv0, data);
    PowersGrow(8, 15);
    EightBytes();
    FirstByteCarries(iv0, k);
    if l == 8 {
      var h, z := iv0[1..8], Zeros(8);
      assert iv0[1..] == h + z;
      ValueAppend(h, z);
      ZerosValue(8);
      ValueFits(h);
      PowAdds(7, 8);
      Room(Value(h), Pow256(7), Pow256(8), k);
    }
  }

  lemma Room(v: nat, p: nat, q: nat, k: nat)
    requires v < p && k < q
    ensures v * q + k < p * q
  {
    Multiple(p - v, q);
    assert (p - v) * q == p * q - v * q;
  }

  lemma {:induction false} PowersGrow(a: nat, b: nat)
    requires a <= b
    ensures Pow256(a) <= Pow256(b)
  {
    if a < b { PowersGrow(a, b - 1); }
  }

  lemma EightBytes()
    ensures Pow256(8) > MAX_BYTES
  {
  }

  lemma EnoughCounters(n: nat, l: nat)
    requires 2 <= l && n <= Pow256(l)
    ensures BlockCount(BLOCK + n) < Pow256(l)
  {
    BlockCountBound(BLOCK + n);
    AtLeast65536(l);
  }

  lemma {:induction false} AtLeast65536(l: nat)
    requires l >= 2
    ensures Pow256(l) >= 65536
  {
  }

  /** The IV the counter stream leaves has the nonce it was given. */
  lemma NonceSurvives(c: Cipher, iv: seq<Byte>, data: seq<Byte>)
    requires IsCipher16(c) && LegalIv(iv) && BLOCK <= |data| <= BLOCK + Pow256(LengthBytes(iv))
    ensures var iv' := After(c, Counter, ClearCounter(iv), data); LegalIv(iv') && Nonce(iv') == Nonce(iv)
  {
    hide Value, Pow256;
    var l := LengthBytes(iv);
    ZerosValue(l);
    EnoughCounters(|data| - BLOCK, l);
    CounterStaysLow(c, Nonce(iv), Zeros(l), data);
    var iv' := After(c, Counter, ClearCounter(iv), data);
    assert iv'[..BLOCK - l][0] == iv[0];
  }

  /** Only the nonce of an IV matters to the MAC. */
  lemma MacOfNonce(c: Cipher, iv: seq<Byte>, iv': seq<Byte>, m: nat, held: seq<Byte>, assoc: seq<Byte>, plain: seq<Byte>)
    requires IsCipher16(c) && LegalIv(iv) && LegalIv(iv') && LegalTag(m) && Nonce(iv) == Nonce(iv')
    ensures Mac(c, iv, m, held, assoc, plain) == Mac(c, iv', m, held, assoc, plain) && ClearCounter(iv) == ClearCounter(iv')
  {
    hide Digest, AdataHeader, Flags, Digits, Behind;
    assert Nonce(iv)[0] == iv[0] && Nonce(iv')[0] == iv'[0];
  }

  /** Round trip: for every nonce, associated data, tag size, stale buffer contents, and message of
      an accepted length, opening under the same nonce what was sealed returns the message exactly
      when the bytes held back on the two sides, `held` and `held2`, lead to the same tag. */
  lemma OpenAfterSeal(c: Cipher, iv: seq<Byte>, iv2: seq<Byte>, m: nat, held: seq<Byte>, held2: seq<Byte>,
                      assoc: seq<Byte>, plain: seq<Byte>, stale: seq<Byte>)
    requires IsCipher16(c) && LegalIv(iv) && LegalIv(iv2) && Nonce(iv) == Nonce(iv2)
    requires LegalTag(m) && |stale| == BLOCK - m && |plain| <= Pow256(LengthBytes(iv)) && |plain| + m + BLOCK < MAX_BYTES
    ensures |Seal(c, iv, m, held, assoc, plain)| == |plain| + m
    ensures Open(c, iv2, m, held2, assoc, Seal(c, iv, m, held, assoc, plain), stale) ==
            if Mac(c, iv, m, held2, assoc, plain)[..m] == Mac(c, iv, m, held, assoc, plain)[..m] then Plain(plain) else BadTag
  {
    hide Crypt, After, Mac, Pow256, ClearCounter;
    MacOfNonce(c, iv, iv2, m, held, assoc, plain);
    var t, iv0 := Mac(c, iv, m, held, assoc, plain), ClearCounter(iv);
    var out := Crypt(c, Counter, iv0, t + plain);
    CryptLengths(c, Counter, iv0, t + plain);
    var sealed := out[BLOCK..] + out[..m];
    var n := |plain|;
    assert sealed[n..] == out[..m] && sealed[..n] == out[BLOCK..];
    var input := sealed[n..] + stale + sealed[..n];
    SameNonceLength(iv, iv2);
    NonceSurvives(c, iv2, input);
    var iv' := After(c, Counter, iv0, input);
    StreamOpens(c, iv0, t, plain, stale, m);
    MacOfNonce(c, iv, iv', m, held2, assoc, plain);
    SameNonceLength(iv, iv');
  }

  /** With associated data, or with the same bytes held back, in particular none, on both sides, the
      round trip is complete. */
  lemma OpenUndoesSeal(c: Cipher, iv: seq<Byte>, iv2: seq<Byte>, m: nat, held: seq<Byte>, held2: seq<Byte>,
                       assoc: seq<Byte>, plain: seq<Byte>, stale: seq<Byte>)
    requires IsCipher16(c) && LegalIv(iv) && LegalIv(iv2) && Nonce(iv) == Nonce(iv2) && (held == held2 || assoc != [])
    requires LegalTag(m) && |stale| == BLOCK - m && |plain| <= Pow256(LengthBytes(iv)) && |plain| + m + BLOCK < MAX_BYTES
    ensures |Seal(c, iv, m, held, assoc, plain)| == |plain| + m
    ensures Open(c, iv2, m, held2, assoc, Seal(c, iv, m, held, assoc, plain), stale) == Plain(plain)
  {
    assert Mac(c, iv, m, held2, assoc, plain) == Mac(c, iv, m, held, assoc, plain);
    hide Mac, Pow256, Open, Seal;
    OpenAfterSeal(c, iv, iv2, m, held, held2, assoc, plain, stale);
  }

  // ---------- what bytes held back from before do ----------

  /** Rounded up to whole blocks. */
  function Up(n: nat): (r: nat)
    ensures n <= r < n + BLOCK
  {
    if n == 0 then 0 else if n < BLOCK then BLOCK else BLOCK + Up(n - BLOCK)
  }

  lemma {:induction false} PadIsZeros(x: seq<Byte>)
    ensures PadBlocks(x) == Padded(x, Up(|x|))
    decreases |x|
  {
    if |x| >= BLOCK {
      PadIsZeros(x[BLOCK..]);
      assert x == x[..BLOCK] + x[BLOCK..];
    }
  }

  predicate AllZero(x: seq<Byte>) { forall i :: 0 <= i < |x| ==> x[i] == 0 }

  /** A string that equals itself moved behind h bytes, zeros following, is zero from the end down. */
  lemma {:induction false} ShiftedIsZero(q: seq<Byte>, n: nat, h: nat, i: nat)
    requires h > 0 && i < n && n + h <= |q|
    requires forall k :: n <= k < |q| ==> q[k] == 0
    requires forall k :: 0 <= k < n ==> q[k + h] == q[k]
    ensures q[i] == 0
    decreases n - i
  {
    assert q[i + h] == q[i];
    if i + h < n { ShiftedIsZero(q, n, h, i + h); }
  }

  lemma PadAt(x: seq<Byte>)
    ensures |PadBlocks(x)| == Up(|x|)
    ensures forall i :: 0 <= i < |x| ==> PadBlocks(x)[i] == x[i]
    ensures forall i :: |x| <= i < Up(|x|) ==> PadBlocks(x)[i] == 0
  {
    PadIsZeros(x);
    hide PadBlocks, Up;
  }

  lemma SamePadding(held: seq<Byte>, x: seq<Byte>)
    requires held != [] && PadBlocks(held + x) == PadBlocks(x)
    ensures x != [] && AllZero(held) && AllZero(x) && Up(|held| + |x|) == Up(|x|)
  {
    PadAt(held + x);
    PadAt(x);
    hide PadBlocks;
    var h, n, q := |held|, |x|, PadBlocks(x);
    assert Up(0) == 0;
    hide Up;
    forall k | 0 <= k < n ensures q[k + h] == q[k] { assert (held + x)[k + h] == x[k]; }
    forall i | 0 <= i < n ensures x[i] == 0 { ShiftedIsZero(q, n, h, i); }
    forall i | 0 <= i < h ensures held[i] == 0 { assert (held + x)[i] == held[i]; }
  }

  lemma ZerosPadTheSame(held: seq<Byte>, x: seq<Byte>)
    requires AllZero(held) && AllZero(x) && Up(|held| + |x|) == Up(|x|)
    ensures PadBlocks(held + x) == PadBlocks(x)
  {
    PadAt(held + x);
    PadAt(x);
    hide PadBlocks, Up;
    assert AllZero(held + x);
  }

  /** Bytes held back change what is absorbed, except zeros before a text of zeros that ends in the
      same block. */
  lemma HeldBytesShow(held: seq<Byte>, x: seq<Byte>)
    ensures PadBlocks(held + x) == PadBlocks(x) <==>
            held == [] || (x != [] && AllZero(held) && AllZero(x) && Up(|held| + |x|) == Up(|x|))
  {
    hide PadBlocks, Up, AllZero;
    if held == [] {
      assert held + x == x;
    } else if PadBlocks(held + x) == PadBlocks(x) {
      SamePadding(held, x);
    } else if AllZero(held) && AllZero(x) && Up(|held| + |x|) == Up(|x|) {
      ZerosPadTheSame(held, x);
    }
  }

  /** The same for all that is absorbed in a request without associated data; with associated data
      nothing held back matters. */
  lemma HeldBytesAreAbsorbed(iv: seq<Byte>, m: nat, held: seq<Byte>, assoc: seq<Byte>, plain: seq<Byte>)
    requires LegalIv(iv) && LegalTag(m)
    ensures Absorbed(iv, m, held, assoc, plain) == Formatted(iv, m, assoc, plain) <==>
            || assoc != [] || held == []
            || (plain != [] && AllZero(held) && AllZero(plain) && Up(|held| + |plain|) == Up(|plain|))
  {
    HeldBytesShow(held, plain);
    hide FirstBlock, PadBlocks, AdataBlocks;
    var b := FirstBlock(iv, m, assoc != [], |plain|) + AdataBlocks(assoc);
    var p, q := PadBlocks(Behind(held, assoc, plain)), PadBlocks(plain);
    assert (b + p)[|b|..] == p && (b + q)[|b|..] == q;
  }

  /** The cipher that changes nothing. */
  function Identity(): Cipher { Cipher(BLOCK, x => x, x => x) }

  lemma ByteChanges(a: Byte)
    ensures XorByte(a, 1) != a
  {
    hide XorByte;
    XorByteCancel(1, a);
    XorByteCancel(0, a);
    XorZero(a);
  }

  /** The tags of a request with neither associated data nor text. */
  lemma EmptyMacs(c: Cipher, iv: seq<Byte>, m: nat)
    requires IsCipher16(c) && LegalIv(iv) && LegalTag(m)
    ensures var o := c.enc(FirstBlock(iv, m, false, 0));
            Mac(c, iv, m, [], [], []) == o && Mac(c, iv, m, [1], [], []) == c.enc(Xor(o, Padded([1], BLOCK)))
  {
    hide FirstBlock, Xor, Padded;
    var none: seq<Byte> := [];
    assert [1] + none == [1] && none + none == none;
  }

  lemma IdentityIsACipher()
    ensures IsCipher16(Identity())
  {
  }

  /** A failing input: one byte 1 held back on the sealing side, no associated data and no text. */
  lemma StaleByteBreaksTheTag(iv: seq<Byte>, m: nat, stale: seq<Byte>)
    requires LegalIv(iv) && LegalTag(m) && |stale| == BLOCK - m
    ensures IsCipher16(Identity())
    ensures Absorbed(iv, m, [1], [], []) != Formatted(iv, m, [], [])
    ensures |Seal(Identity(), iv, m, [1], [], [])| + BLOCK < MAX_BYTES
    ensures Open(Identity(), iv, m, [], [], Seal(Identity(), iv, m, [1], [], []), stale) == BadTag
  {
    var c, b := Identity(), FirstBlock(iv, m, false, 0);
    HeldBytesAreAbsorbed(iv, m, [1], [], []);
    IdentityIsACipher();
    EmptyMacs(c, iv, m);
    ByteChanges(b[0]);
    hide Seal, Open, Pow256, FirstBlock, Absorbed, Formatted, XorByte, Mac;
    assert Mac(c, iv, m, [1], [], [])[..m][0] == XorByte(b[0], 1) && Mac(c, iv, m, [], [], [])[..m][0] == b[0];
    OpenAfterSeal(c, iv, iv, m, [1], [], [], [], stale);
  }

  lemma SameNonceLength(iv: seq<Byte>, iv': seq<Byte>)
    requires LegalIv(iv) && LegalIv(iv') && Nonce(iv) == Nonce(iv')
    ensures LengthBytes(iv) == LengthBytes(iv')
  {
  }

  /** The second pass restores the tag's first m bytes and the message; bytes beyond m do not matter. */
  lemma StreamOpens(c: Cipher, iv0: seq<Byte>, t: seq<Byte>, plain: seq<Byte>, stale: seq<Byte>, m: nat)
    requires IsCipher16(c) && |iv0| == |t| == BLOCK && m <= BLOCK && |stale| == BLOCK - m
    requires |Crypt(c, Counter, iv0, t + plain)| == BLOCK + |plain|
    ensures var out := Crypt(c, Counter, iv0, t + plain);
            var back := Crypt(c, Counter, iv0, out[..m] + stale + out[BLOCK..]);
            |back| == BLOCK + |plain| && back[..m] == t[..m] && back[BLOCK..] == plain
  {
    hide Crypt, Inc;
    var k, next := c.enc(iv0), Inc(iv0);
    IncLength(iv0);
    CryptCons(c, Counter, iv0, t, plain);
    var head, tail := Xor(t, k), Crypt(c, Counter, next, plain);
    var out := Crypt(c, Counter, iv0, t + plain);
    assert out == head + tail;
    assert out[..m] == head[..m] && out[BLOCK..] == tail;
    var h2 := head[..m] + stale;
    CryptCons(c, Counter, iv0, h2, tail);
    CounterUndoesItself(c, next, plain);
    XorPart(t, k, stale, m);
  }

  lemma XorPart(t: seq<Byte>, k: seq<Byte>, stale: seq<Byte>, m: nat)
    requires |t| == |k| == BLOCK && m <= BLOCK && |stale| == BLOCK - m
    ensures Xor(Xor(t, k)[..m] + stale, k)[..m] == t[..m]
  {
    hide XorByte;
    forall i | 0 <= i < m ensures XorByte(XorByte(t[i], k[i]), k[i]) == t[i] { XorByteCancel(t[i], k[i]); }
  }
}
