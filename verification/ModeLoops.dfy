/** The loops of crypto/cbc.c and crypto/ctr.c over one stretch of memory: an address is an array
    and an offset. Each is proved to compute Modes.Crypt and to leave Modes.After in the IV. */
module ModeLoops {
  import opened Bytes
  import opened Modes

  /** The cipher's block function from one address to another; the two may be the same. */
  method EncryptOne(c: Cipher, dst: array<Byte>, d: nat, src: array<Byte>, s: nat)
    requires IsCipher(c) && d + c.bsize <= dst.Length && s + c.bsize <= src.Length
    modifies dst
    ensures dst[..] == Splice(old(dst[..]), d, c.enc(old(src[..])[s..s + c.bsize]))
  {
    assert src[s..s + c.bsize] == src[..][s..s + c.bsize];
    Put(dst, d, c.enc(src[s..s + c.bsize]));
  }

  method DecryptOne(c: Cipher, dst: array<Byte>, d: nat, src: array<Byte>, s: nat)
    requires IsCipher(c) && d + c.bsize <= dst.Length && s + c.bsize <= src.Length
    modifies dst
    ensures dst[..] == Splice(old(dst[..]), d, c.dec(old(src[..])[s..s + c.bsize]))
  {
    assert src[s..s + c.bsize] == src[..][s..s + c.bsize];
    Put(dst, d, c.dec(src[s..s + c.bsize]));
  }

  /** k bytes of `data` are done: their image stands at d, and iv is the chaining value they leave. */
  ghost predicate Done(c: Cipher, m: Mode, iv0: seq<Byte>, data: seq<Byte>,
                       was: seq<Byte>, d: nat, now: seq<Byte>, iv: seq<Byte>, k: nat)
  {
    && IsCipher(c) && |iv0| == c.bsize && k <= |data| && Blocks(k, c.bsize) && d + |data| <= |was|
    && |Crypt(c, m, iv0, data[..k])| == k && |iv| == c.bsize
    && now == Splice(was, d, Crypt(c, m, iv0, data[..k]))
    && iv == After(c, m, iv0, data[..k])
  }

  lemma DoneNothing(c: Cipher, m: Mode, iv0: seq<Byte>, data: seq<Byte>, was: seq<Byte>, d: nat)
    requires IsCipher(c) && |iv0| == c.bsize && d + |data| <= |was|
    ensures Done(c, m, iv0, data, was, d, was, iv0, 0)
  {
  }

  lemma DoneBlock(c: Cipher, m: Mode, iv0: seq<Byte>, data: seq<Byte>, was: seq<Byte>, d: nat,
                  now: seq<Byte>, iv: seq<Byte>, k: nat, next: seq<Byte>)
    requires Done(c, m, iv0, data, was, d, now, iv, k) && k + c.bsize <= |data|
    requires var block := data[k..k + c.bsize];
             |Out(c, m, iv, block)| == c.bsize && next == Splice(now, d + k, Out(c, m, iv, block))
    ensures Done(c, m, iv0, data, was, d, next, Next(c, m, iv, data[k..k + c.bsize]), k + c.bsize)
  {
    hide Crypt, After, Out, Next;
    var block := data[k..k + c.bsize];
    CryptAppend(c, m, iv0, data[..k], block);
    CryptOneBlock(c, m, iv, block);
    assert data[..k + c.bsize] == data[..k] + block;
    BlockLengths(c, m, iv, block);
    SpliceAppend(was, d, Crypt(c, m, iv0, data[..k]), Out(c, m, iv, block));
  }

  lemma SpliceAppend(was: seq<Byte>, d: nat, a: seq<Byte>, b: seq<Byte>)
    requires d + |a| + |b| <= |was|
    ensures Splice(Splice(was, d, a), d + |a|, b) == Splice(was, d, a + b)
  {
  }

  /** In place, the bytes not yet done are as they were. */
  lemma StillThere(c: Cipher, m: Mode, iv0: seq<Byte>, data: seq<Byte>, was: seq<Byte>, d: nat,
                   now: seq<Byte>, iv: seq<Byte>, k: nat)
    requires Done(c, m, iv0, data, was, d, now, iv, k) && k + c.bsize <= |data| && data == was[d..d + |data|]
    ensures |now| == |was| && now[d + k..d + k + c.bsize] == data[k..k + c.bsize]
  {
    hide Crypt, After, Splice;
    SpliceRest(was, d, Crypt(c, m, iv0, data[..k]), d + k, d + k + c.bsize);
    SliceOfSlice(was, d, |data|, k, k + c.bsize);
  }

  lemma SliceOfSlice(was: seq<Byte>, d: nat, n: nat, lo: nat, hi: nat)
    requires d + n <= |was| && lo <= hi <= n
    ensures was[d..d + n][lo..hi] == was[d + lo..d + hi]
  {
    var a, b := was[d..d + n][lo..hi], was[d + lo..d + hi];
    assert |a| == |b| && forall i :: 0 <= i < |a| ==> a[i] == b[i];
  }

  lemma SpliceRest(was: seq<Byte>, d: nat, x: seq<Byte>, lo: nat, hi: nat)
    requires d + |x| <= |was| && lo <= hi <= |was| && (hi <= d || d + |x| <= lo)
    ensures Splice(was, d, x)[lo..hi] == was[lo..hi]
  {
  }

  /** How many bytes a loop over whole blocks handles. */
  function Handled(n: nat, b: nat): nat
    requires b > 0
  {
    if n < b then 0 else b + Handled(n - b, b)
  }

  lemma {:induction false} HandledIs(n: nat, b: nat)
    requires b > 0
    ensures Handled(n, b) <= n < Handled(n, b) + b && Blocks(Handled(n, b), b)
  {
    if n >= b { HandledIs(n - b, b); }
  }

  // ---------- one block ----------

  method CbcEncryptBlock(c: Cipher, src: array<Byte>, s: nat, dst: array<Byte>, d: nat, iv: array<Byte>)
    requires IsCipher(c) && src != dst && iv != src && iv != dst && iv.Length == c.bsize
    requires s + c.bsize <= src.Length && d + c.bsize <= dst.Length
    modifies dst, iv
    ensures var block := src[..][s..s + c.bsize];
            && |Out(c, CbcEncrypt, old(iv[..]), block)| == c.bsize
            && dst[..] == Splice(old(dst[..]), d, Out(c, CbcEncrypt, old(iv[..]), block))
            && iv[..] == Next(c, CbcEncrypt, old(iv[..]), block)
  {
    ghost var prev, block := iv[..], src[..][s..s + c.bsize];
    CryptoXor(iv, 0, src, s, c.bsize);
    EncryptsXor(c, prev, block);
    SpliceAll(prev, Xor(prev, block));
    hide Out, Splice, Xor;
    assert prev[0..c.bsize] == prev;
    assert iv[..] == Xor(prev, block) == iv[..][0..c.bsize];
    EncryptOne(c, dst, d, iv, 0);
    assert dst[d..d + c.bsize] == dst[..][d..d + c.bsize];
    Put(iv, 0, dst[d..d + c.bsize]);
    SpliceAll(Xor(prev, block), dst[..][d..d + c.bsize]);
  }

  lemma SpliceAll(was: seq<Byte>, x: seq<Byte>)
    requires |x| == |was|
    ensures Splice(was, 0, x) == x
  {
  }

  lemma EncryptsXor(c: Cipher, iv: seq<Byte>, block: seq<Byte>)
    requires IsCipher(c) && |iv| == |block| == c.bsize
    ensures c.enc(Xor(iv, block)) == Out(c, CbcEncrypt, iv, block) == Next(c, CbcEncrypt, iv, block)
    ensures |Out(c, CbcEncrypt, iv, block)| == c.bsize
  {
    XorComm(iv, block);
  }

  method CbcEncryptBlockInPlace(c: Cipher, buf: array<Byte>, p: nat, iv: array<Byte>, at: nat)
    requires IsCipher(c) && p + c.bsize <= buf.Length && at + c.bsize <= iv.Length
    requires iv == buf ==> at + c.bsize <= p
    modifies buf
    ensures var prev, block := old(iv[..])[at..at + c.bsize], old(buf[..])[p..p + c.bsize];
            && |Out(c, CbcEncrypt, prev, block)| == c.bsize
            && buf[..] == Splice(old(buf[..]), p, Out(c, CbcEncrypt, prev, block))
  {
    ghost var was, prev, block := buf[..], iv[..][at..at + c.bsize], buf[..][p..p + c.bsize];
    CryptoXor(buf, p, iv, at, c.bsize);
    assert buf[..][p..p + c.bsize] == Xor(block, prev);
    EncryptsXor(c, prev, block);
    EncryptOne(c, buf, p, buf, p);
    SpliceTwice(was, p, Xor(block, prev), Out(c, CbcEncrypt, prev, block));
  }

  lemma SpliceTwice(was: seq<Byte>, p: nat, x: seq<Byte>, y: seq<Byte>)
    requires |x| == |y| && p + |x| <= |was|
    ensures Splice(Splice(was, p, x), p, y) == Splice(was, p, y)
  {
  }

  method CbcDecryptBlock(c: Cipher, src: array<Byte>, s: nat, dst: array<Byte>, d: nat, iv: array<Byte>, at: nat)
    requires IsCipher(c) && src != dst && iv != dst && at + c.bsize <= iv.Length
    requires s + c.bsize <= src.Length && d + c.bsize <= dst.Length
    modifies dst
    ensures var prev, block := iv[..][at..at + c.bsize], src[..][s..s + c.bsize];
            && |Out(c, CbcDecrypt, prev, block)| == c.bsize
            && dst[..] == Splice(old(dst[..]), d, Out(c, CbcDecrypt, prev, block))
  {
    ghost var was, prev, block := dst[..], iv[..][at..at + c.bsize], src[..][s..s + c.bsize];
    DecryptOne(c, dst, d, src, s);
    assert dst[..][d..d + c.bsize] == c.dec(block);
    CryptoXor(dst, d, iv, at, c.bsize);
    SpliceTwice(was, d, c.dec(block), Xor(c.dec(block), prev));
  }

  method CounterBlock(c: Cipher, src: array<Byte>, s: nat, dst: array<Byte>, d: nat, ctrblk: array<Byte>)
    requires IsCipher(c) && src != dst && ctrblk != src && ctrblk != dst && ctrblk.Length == c.bsize
    requires s + c.bsize <= src.Length && d + c.bsize <= dst.Length
    modifies dst, ctrblk
    ensures var block := src[..][s..s + c.bsize];
            && |Out(c, Counter, old(ctrblk[..]), block)| == c.bsize
            && dst[..] == Splice(old(dst[..]), d, Out(c, Counter, old(ctrblk[..]), block))
            && ctrblk[..] == Next(c, Counter, old(ctrblk[..]), block)
  {
    ghost var was, prev, block := dst[..], ctrblk[..], src[..][s..s + c.bsize];
    assert prev[0..c.bsize] == prev;
    EncryptOne(c, dst, d, ctrblk, 0);
    assert dst[..][d..d + c.bsize] == c.enc(prev);
    CryptoXor(dst, d, src, s, c.bsize);
    XorComm(c.enc(prev), block);
    SpliceTwice(was, d, c.enc(prev), Xor(block, c.enc(prev)));
    CryptoInc(ctrblk);
  }

  method CounterBlockInPlace(c: Cipher, buf: array<Byte>, p: nat, ctrblk: array<Byte>)
    requires IsCipher(c) && ctrblk != buf && ctrblk.Length == c.bsize && p + c.bsize <= buf.Length
    modifies buf, ctrblk
    ensures var block := old(buf[..])[p..p + c.bsize];
            && |Out(c, Counter, old(ctrblk[..]), block)| == c.bsize
            && buf[..] == Splice(old(buf[..]), p, Out(c, Counter, old(ctrblk[..]), block))
            && ctrblk[..] == Next(c, Counter, old(ctrblk[..]), block)
  {
    hide Splice, Xor;
    ghost var prev := ctrblk[..];
    var keystream := new Byte[c.bsize](_ => 0);
    assert prev[0..c.bsize] == prev;
    SpliceAll(keystream[..], c.enc(prev));
    EncryptOne(c, keystream, 0, ctrblk, 0);
    assert keystream[..] == c.enc(prev) == keystream[..][0..c.bsize];
    CryptoXor(buf, p, keystream, 0, c.bsize);
    CryptoInc(ctrblk);
  }

  // ---------- stretches ----------

  /** crypto_cbc_encrypt_segment. */
  method CbcEncryptSegment(c: Cipher, src: array<Byte>, s: nat, dst: array<Byte>, d: nat, nbytes: nat, iv: array<Byte>)
    returns (left: nat)
    requires IsCipher(c) && src != dst && iv != src && iv != dst && iv.Length == c.bsize <= nbytes
    requires s + nbytes <= src.Length && d + nbytes <= dst.Length
    modifies dst, iv
    ensures left < c.bsize
    ensures Done(c, CbcEncrypt, old(iv[..]), old(src[..])[s..s + nbytes], old(dst[..]), d, dst[..], iv[..], nbytes - left)
  {
    hide Crypt, After, Out, Blocks, Done, Next, Splice;
    ghost var iv0, data, was := iv[..], src[..][s..s + nbytes], dst[..];
    DoneNothing(c, CbcEncrypt, iv0, data, was, d);
    var k := 0;
    left := nbytes;
    while left >= c.bsize
      invariant k + left == nbytes && Done(c, CbcEncrypt, iv0, data, was, d, dst[..], iv[..], k)
    {
      ghost var now, prev := dst[..], iv[..];
      assert src[..][s + k..s + k + c.bsize] == data[k..k + c.bsize];
      CbcEncryptBlock(c, src, s + k, dst, d + k, iv);
      DoneBlock(c, CbcEncrypt, iv0, data, was, d, now, prev, k, dst[..]);
      k, left := k + c.bsize, left - c.bsize;
    }
  }

  /** crypto_cbc_encrypt_inplace: the chaining value is read where the last block was written. */
  method CbcEncryptInPlace(c: Cipher, buf: array<Byte>, pos: nat, nbytes: nat, walkIv: array<Byte>) returns (left: nat)
    requires IsCipher(c) && walkIv != buf && walkIv.Length == c.bsize <= nbytes && pos + nbytes <= buf.Length
    modifies buf, walkIv
    ensures left < c.bsize
    ensures Done(c, CbcEncrypt, old(walkIv[..]), old(buf[..])[pos..pos + nbytes], old(buf[..]), pos, buf[..], walkIv[..], nbytes - left)
  {
    hide Crypt, After, Out, Blocks, Done, Next, Splice;
    ghost var iv0, data, was := walkIv[..], buf[..][pos..pos + nbytes], buf[..];
    ghost var chain := iv0;
    DoneNothing(c, CbcEncrypt, iv0, data, was, pos);
    var iv, at := walkIv, 0;
    var k := 0;
    left := nbytes;
    while left >= c.bsize
      invariant k + left == nbytes && walkIv[..] == iv0
      invariant (iv == walkIv && at == 0) || (iv == buf && at + c.bsize == pos + k)
      invariant |chain| == c.bsize && iv[..][at..at + c.bsize] == chain
      invariant Done(c, CbcEncrypt, iv0, data, was, pos, buf[..], chain, k)
    {
      ghost var now, block := buf[..], data[k..k + c.bsize];
      StillThere(c, CbcEncrypt, iv0, data, was, pos, now, chain, k);
      CbcEncryptBlockInPlace(c, buf, pos + k, iv, at);
      DoneBlock(c, CbcEncrypt, iv0, data, was, pos, now, chain, k, buf[..]);
      NextIsOut(c, chain, block);
      iv, at, chain := buf, pos + k, Next(c, CbcEncrypt, chain, block);
      k, left := k + c.bsize, left - c.bsize;
    }
    assert iv[at..at + c.bsize] == iv[..][at..at + c.bsize];
    SpliceAll(iv0, chain);
    Put(walkIv, 0, iv[at..at + c.bsize]);
  }

  lemma NextIsOut(c: Cipher, iv: seq<Byte>, block: seq<Byte>)
    ensures Next(c, CbcEncrypt, iv, block) == Out(c, CbcEncrypt, iv, block)
  {
  }

  /** crypto_cbc_decrypt_segment: the chaining value is read where the last block was read. */
  method CbcDecryptSegment(c: Cipher, src: array<Byte>, s: nat, dst: array<Byte>, d: nat, nbytes: nat, walkIv: array<Byte>)
    returns (left: nat)
    requires IsCipher(c) && src != dst && walkIv != src && walkIv != dst && walkIv.Length == c.bsize <= nbytes
    requires s + nbytes <= src.Length && d + nbytes <= dst.Length
    modifies dst, walkIv
    ensures left < c.bsize
    ensures Done(c, CbcDecrypt, old(walkIv[..]), old(src[..])[s..s + nbytes], old(dst[..]), d, dst[..], walkIv[..], nbytes - left)
  {
    hide Crypt, After, Out, Blocks, Done, Splice;
    ghost var iv0, data, was := walkIv[..], src[..][s..s + nbytes], dst[..];
    ghost var chain := iv0;
    DoneNothing(c, CbcDecrypt, iv0, data, was, d);
    var iv, at := walkIv, 0;
    var k := 0;
    left := nbytes;
    while left >= c.bsize
      invariant k + left == nbytes && walkIv[..] == iv0 && src[..] == old(src[..])
      invariant (iv == walkIv && at == 0) || (iv == src && at + c.bsize == s + k)
      invariant |chain| == c.bsize && iv[..][at..at + c.bsize] == chain
      invariant Done(c, CbcDecrypt, iv0, data, was, d, dst[..], chain, k)
    {
      ghost var now, block := dst[..], data[k..k + c.bsize];
      SliceOfSlice(src[..], s, nbytes, k, k + c.bsize);
      assert s + (k + c.bsize) == s + k + c.bsize;
      CbcDecryptBlock(c, src, s + k, dst, d + k, iv, at);
      DoneBlock(c, CbcDecrypt, iv0, data, was, d, now, chain, k, dst[..]);
      iv, at, chain := src, s + k, block;
      k, left := k + c.bsize, left - c.bsize;
    }
    assert iv[at..at + c.bsize] == iv[..][at..at + c.bsize];
    SpliceAll(iv0, chain);
    Put(walkIv, 0, iv[at..at + c.bsize]);
  }

  /** crypto_ctr_crypt_segment. */
  method CounterSegment(c: Cipher, src: array<Byte>, s: nat, dst: array<Byte>, d: nat, nbytes: nat, iv: array<Byte>)
    returns (left: nat)
    requires IsCipher(c) && src != dst && iv != src && iv != dst && iv.Length == c.bsize <= nbytes
    requires s + nbytes <= src.Length && d + nbytes <= dst.Length
    modifies dst, iv
    ensures left < c.bsize
    ensures Done(c, Counter, old(iv[..]), old(src[..])[s..s + nbytes], old(dst[..]), d, dst[..], iv[..], nbytes - left)
  {
    hide Crypt, After, Out, Blocks, Done, Next, Splice;
    ghost var iv0, data, was := iv[..], src[..][s..s + nbytes], dst[..];
    DoneNothing(c, Counter, iv0, data, was, d);
    var k := 0;
    left := nbytes;
    while left >= c.bsize
      invariant k + left == nbytes && Done(c, Counter, iv0, data, was, d, dst[..], iv[..], k)
    {
      ghost var now, prev := dst[..], iv[..];
      assert src[..][s + k..s + k + c.bsize] == data[k..k + c.bsize];
      CounterBlock(c, src, s + k, dst, d + k, iv);
      DoneBlock(c, Counter, iv0, data, was, d, now, prev, k, dst[..]);
      k, left := k + c.bsize, left - c.bsize;
    }
  }

  /** crypto_ctr_crypt_inplace. */
  method CounterInPlace(c: Cipher, buf: array<Byte>, pos: nat, nbytes: nat, iv: array<Byte>) returns (left: nat)
    requires IsCipher(c) && iv != buf && iv.Length == c.bsize <= nbytes && pos + nbytes <= buf.Length
    modifies buf, iv
    ensures left < c.bsize
    ensures Done(c, Counter, old(iv[..]), old(buf[..])[pos..pos + nbytes], old(buf[..]), pos, buf[..], iv[..], nbytes - left)
  {
    hide Crypt, After, Out, Blocks, Done, Next, Splice;
    ghost var iv0, data, was := iv[..], buf[..][pos..pos + nbytes], buf[..];
    DoneNothing(c, Counter, iv0, data, was, pos);
    var k := 0;
    left := nbytes;
    while left >= c.bsize
      invariant k + left == nbytes && Done(c, Counter, iv0, data, was, pos, buf[..], iv[..], k)
    {
      ghost var now, prev := buf[..], iv[..];
      StillThere(c, Counter, iv0, data, was, pos, now, prev, k);
      CounterBlockInPlace(c, buf, pos + k, iv);
      DoneBlock(c, Counter, iv0, data, was, pos, now, prev, k, buf[..]);
      k, left := k + c.bsize, left - c.bsize;
    }
  }

  /** crypto_ctr_crypt_final: a last stretch shorter than a block. */
  method CounterFinal(c: Cipher, src: array<Byte>, s: nat, dst: array<Byte>, d: nat, nbytes: nat, iv: array<Byte>)
    requires IsCipher(c) && iv != src && iv != dst && iv.Length == c.bsize && 0 < nbytes < c.bsize
    requires s + nbytes <= src.Length && d + nbytes <= dst.Length
    modifies dst, iv
    ensures var data := old(src[..])[s..s + nbytes];
            && |Crypt(c, Counter, old(iv[..]), data)| == nbytes
            && dst[..] == Splice(old(dst[..]), d, Crypt(c, Counter, old(iv[..]), data))
            && iv[..] == After(c, Counter, old(iv[..]), data)
  {
    ghost var data, iv0 := src[..][s..s + nbytes], iv[..];
    var keystream := new Byte[c.bsize](_ => 0);
    assert iv0[0..c.bsize] == iv0;
    EncryptOne(c, keystream, 0, iv, 0);
    assert keystream[..] == c.enc(iv0);
    CryptoXor(keystream, 0, src, s, nbytes);
    XorPrefix(c.enc(iv0), data);
    assert keystream[0..nbytes] == keystream[..][0..nbytes] == Xor(data, c.enc(iv0));
    Put(dst, d, keystream[0..nbytes]);
    CryptoInc(iv);
  }

  lemma XorPrefix(k: seq<Byte>, data: seq<Byte>)
    requires |data| <= |k|
    ensures Xor(k[0..|data|], data) == Xor(data, k)
  {
    XorComm(data, k);
  }

  // ---------- backwards ----------

  /** Bitwise and. */
  function And(a: nat, m: nat): nat {
    if a == 0 || m == 0 then 0 else (if a % 2 == 1 && m % 2 == 1 then 1 else 0) + 2 * And(a / 2, m / 2)
  }

  /** Masking with one less than a power of two takes the remainder. */
  lemma {:induction false} MaskIsRemainder(n: nat, k: nat)
    ensures Pow2(k) > 0 && And(n, Pow2(k) - 1) == n % Pow2(k)
  {
    if k > 0 {
      MaskIsRemainder(n / 2, k - 1);
      var p := Pow2(k - 1);
      assert Pow2(k) == 2 * p && (2 * p - 1) / 2 == p - 1;
      HalfMod(n, p);
    }
  }

  lemma HalfMod(v: nat, p: nat)
    requires p > 0
    ensures v % 2 + 2 * (v / 2 % p) == v % (2 * p)
  {
    var q, r := v / 2 / p, v / 2 % p;
    assert v / 2 == q * p + r;
    assert v == q * (2 * p) + (2 * r + v % 2);
    Remainder(v, 2 * p, q, 2 * r + v % 2);
  }

  lemma MaskedLength(n: nat, b: nat, bits: nat)
    requires b == Pow2(bits) && b > 0
    ensures n - And(n, b - 1) == Handled(n, b)
  {
    hide Handled, Blocks, And, Pow2;
    HandledIs(n, b);
    BlocksAreMultiples(Handled(n, b), b);
    MaskIsRemainder(n, bits);
    LeftOver(n, Handled(n, b), b);
  }

  lemma LeftOver(n: nat, h: nat, b: nat)
    requires b > 0 && h % b == 0 && h <= n < h + b
    ensures n % b == n - h
  {
    assert h == h / b * b;
    Remainder(n, b, h / b, n - h);
  }

  /** The bytes from q to `total` are decrypted, those before are as they were. */
  ghost predicate Back(c: Cipher, data: seq<Byte>, was: seq<Byte>, pos: nat, total: nat, now: seq<Byte>, q: nat) {
    && IsCipher(c) && c.bsize <= q <= total <= |data| && pos + |data| <= |was|
    && var image := Crypt(c, CbcDecrypt, data[q - c.bsize..q], data[q..total]);
       |image| == total - q && now == Splice(was, pos + q, image)
  }

  lemma BackStart(c: Cipher, data: seq<Byte>, was: seq<Byte>, pos: nat, total: nat)
    requires IsCipher(c) && c.bsize <= total <= |data| && pos + |data| <= |was|
    ensures Back(c, data, was, pos, total, was, total)
  {
  }

  /** One block further back, chained to what stands before it (or to the IV). */
  lemma BackBlock(c: Cipher, data: seq<Byte>, was: seq<Byte>, pos: nat, total: nat, now: seq<Byte>, q: nat,
                  prev: seq<Byte>, next: seq<Byte>)
    requires Back(c, data, was, pos, total, now, q) && |prev| == c.bsize
    requires var block := data[q - c.bsize..q];
             |Out(c, CbcDecrypt, prev, block)| == c.bsize &&
             next == Splice(now, pos + q - c.bsize, Out(c, CbcDecrypt, prev, block))
    ensures var image := Crypt(c, CbcDecrypt, prev, data[q - c.bsize..total]);
            |image| == total - q + c.bsize && next == Splice(was, pos + q - c.bsize, image)
  {
    hide Crypt, Out, Splice;
    var block, tail := data[q - c.bsize..q], data[q..total];
    CryptCons(c, CbcDecrypt, prev, block, tail);
    assert block + tail == data[q - c.bsize..total];
    SpliceBefore(was, pos + q - c.bsize, Out(c, CbcDecrypt, prev, block), Crypt(c, CbcDecrypt, block, tail));
  }

  lemma SpliceBefore(was: seq<Byte>, d: nat, a: seq<Byte>, b: seq<Byte>)
    requires d + |a| + |b| <= |was|
    ensures Splice(Splice(was, d + |a|, b), d, a) == Splice(was, d, a + b)
  {
  }

  lemma BackStill(c: Cipher, data: seq<Byte>, was: seq<Byte>, pos: nat, total: nat, now: seq<Byte>, q: nat, lo: nat)
    requires Back(c, data, was, pos, total, now, q) && data == was[pos..pos + |data|] && lo + c.bsize <= q
    ensures |now| == |was| && now[pos + lo..pos + lo + c.bsize] == data[lo..lo + c.bsize]
  {
    hide Crypt, Splice;
    SpliceRest(was, pos + q, Crypt(c, CbcDecrypt, data[q - c.bsize..q], data[q..total]), pos + lo, pos + lo + c.bsize);
    SliceOfSlice(was, pos, |data|, lo, lo + c.bsize);
  }

  lemma {:induction false} AfterIsLast(c: Cipher, iv: seq<Byte>, data: seq<Byte>)
    requires IsCipher(c) && |iv| == c.bsize <= |data| && Blocks(|data|, c.bsize)
    ensures After(c, CbcDecrypt, iv, data) == data[|data| - c.bsize..]
    decreases |data|
  {
    if |data| > c.bsize {
      AfterIsLast(c, data[..c.bsize], data[c.bsize..]);
    } else {
      assert data[..c.bsize] == data && data[c.bsize..] == [];
    }
  }

  lemma BackDone(c: Cipher, iv0: seq<Byte>, data: seq<Byte>, was: seq<Byte>, pos: nat, total: nat, now: seq<Byte>)
    requires IsCipher(c) && |iv0| == c.bsize <= total <= |data| && pos + |data| <= |was| && Blocks(total, c.bsize)
    requires var image := Crypt(c, CbcDecrypt, iv0, data[0..total]); |image| == total && now == Splice(was, pos, image)
    ensures Done(c, CbcDecrypt, iv0, data, was, pos, now, data[total - c.bsize..total], total)
  {
    assert data[0..total] == data[..total] && data[..total][total - c.bsize..] == data[total - c.bsize..total];
    AfterIsLast(c, iv0, data[..total]);
  }

  /** Decrypt the block at p in place and combine it with the one before. */
  method DecryptOntoPrevious(c: Cipher, buf: array<Byte>, p: nat)
    requires IsCipher(c) && c.bsize <= p && p + c.bsize <= buf.Length
    modifies buf
    ensures var prev, block := old(buf[..])[p - c.bsize..p], old(buf[..])[p..p + c.bsize];
            && |Out(c, CbcDecrypt, prev, block)| == c.bsize
            && buf[..] == Splice(old(buf[..]), p, Out(c, CbcDecrypt, prev, block))
  {
    hide Splice, XorByte, IsCipher;
    ghost var was, prev, block := buf[..], buf[..][p - c.bsize..p], buf[..][p..p + c.bsize];
    DecryptOne(c, buf, p, buf, p);
    DecryptLength(c, block);
    SpliceRest(was, p, c.dec(block), p - c.bsize, p);
    CryptoXor(buf, p, buf, p - c.bsize, c.bsize);
    SpliceTwice(was, p, c.dec(block), Xor(c.dec(block), prev));
  }

  /** Decrypt the block at p in place and combine it with the IV. */
  method DecryptOntoIv(c: Cipher, buf: array<Byte>, p: nat, iv: array<Byte>)
    requires IsCipher(c) && p + c.bsize <= buf.Length && iv != buf && iv.Length == c.bsize
    modifies buf
    ensures var block := old(buf[..])[p..p + c.bsize];
            && |Out(c, CbcDecrypt, iv[..], block)| == c.bsize
            && buf[..] == Splice(old(buf[..]), p, Out(c, CbcDecrypt, iv[..], block))
  {
    hide Splice, XorByte, IsCipher;
    ghost var was, block := buf[..], buf[..][p..p + c.bsize];
    DecryptOne(c, buf, p, buf, p);
    DecryptLength(c, block);
    assert iv[..][0..c.bsize] == iv[..];
    CryptoXor(buf, p, iv, 0, c.bsize);
    SpliceTwice(was, p, c.dec(block), Xor(c.dec(block), iv[..]));
  }

  lemma DecryptLength(c: Cipher, block: seq<Byte>)
    requires IsCipher(c) && |block| == c.bsize
    ensures |c.dec(block)| == c.bsize
  {
  }

  /** The blocks after the first, from the last one, at p, back. */
  method DecryptBackwards(c: Cipher, buf: array<Byte>, pos: nat, last: nat, nbytes: nat, ghost data: seq<Byte>)
    returns (left: nat)
    requires IsCipher(c) && last + c.bsize <= nbytes < last + 2 * c.bsize && Blocks(last, c.bsize)
    requires pos + nbytes <= buf.Length && data == buf[..][pos..pos + nbytes]
    modifies buf
    ensures left == nbytes - last && Back(c, data, old(buf[..]), pos, last + c.bsize, buf[..], c.bsize)
  {
    hide Crypt, Out, Blocks, Splice, Back;
    ghost var was, total := buf[..], last + c.bsize;
    var b := c.bsize;
    left := nbytes;
    var p := last;
    BackStart(c, data, was, pos, total);
    while left - b >= b
      invariant left == p + (nbytes - last) && 0 <= p <= last && Blocks(p, b)
      invariant Back(c, data, was, pos, total, buf[..], p + b)
      decreases left
    {
      MoreBlocks(p, b);
      BackwardBlock(c, buf, pos, p, total, data, was);
      left := left - b;
      p := p - b;
    }
    MoreBlocks(p, b);
  }

  method BackwardBlock(c: Cipher, buf: array<Byte>, pos: nat, p: nat, ghost total: nat, ghost data: seq<Byte>, ghost was: seq<Byte>)
    requires IsCipher(c) && c.bsize <= p && pos + p + c.bsize <= buf.Length
    requires |was| == buf.Length && pos + |data| <= |was| && data == was[pos..pos + |data|]
    requires Back(c, data, was, pos, total, buf[..], p + c.bsize)
    modifies buf
    ensures Back(c, data, was, pos, total, buf[..], p)
  {
    hide Crypt, Out, Splice, Back;
    var b := c.bsize;
    ghost var now := buf[..];
    BackFits(c, data, was, pos, total, now, p + b);
    BackStill(c, data, was, pos, total, now, p + b, p);
    BackStill(c, data, was, pos, total, now, p + b, p - b);
    DecryptOntoPrevious(c, buf, pos + p);
    BackBlock(c, data, was, pos, total, now, p + b, data[p - b..p], buf[..]);
    BackAgain(c, data, was, pos, total, buf[..], p);
  }

  lemma BackFits(c: Cipher, data: seq<Byte>, was: seq<Byte>, pos: nat, total: nat, now: seq<Byte>, q: nat)
    requires Back(c, data, was, pos, total, now, q)
    ensures q <= total <= |data|
  {
  }

  /** crypto_cbc_decrypt_inplace: from the last block to the first, so that each block's
      predecessor is still there when it is needed. */
  method CbcDecryptInPlace(c: Cipher, buf: array<Byte>, pos: nat, nbytes: nat, walkIv: array<Byte>, ghost bits: nat)
    returns (left: nat)
    requires IsCipher(c) && walkIv != buf && walkIv.Length == c.bsize <= nbytes && pos + nbytes <= buf.Length
    requires c.bsize == Pow2(bits)
    modifies buf, walkIv
    ensures left < c.bsize
    ensures Done(c, CbcDecrypt, old(walkIv[..]), old(buf[..])[pos..pos + nbytes], old(buf[..]), pos, buf[..], walkIv[..], nbytes - left)
  {
    hide Crypt, After, Out, Blocks, Splice, Back, Done, And, Handled;
    ghost var iv0, data, was := walkIv[..], buf[..][pos..pos + nbytes], buf[..];
    var b := c.bsize;
    ghost var total := Handled(nbytes, b);
    HandledIs(nbytes, b);
    MaskedLength(nbytes, b, bits);
    AtLeastOne(nbytes, b);
    var last: nat := nbytes - And(nbytes, b - 1) - b;
    SliceOfSlice(was, pos, nbytes, total - b, total);
    var lastIv := buf[pos + last..pos + last + b];
    assert lastIv == buf[..][pos + last..pos + last + b];
    FewerBlocks(total, b);
    left := DecryptBackwards(c, buf, pos, last, nbytes, data);
    BackStill(c, data, was, pos, total, buf[..], b, 0);
    ghost var now := buf[..];
    DecryptOntoIv(c, buf, pos, walkIv);
    left := left - b;
    BackBlock(c, data, was, pos, total, now, b, iv0, buf[..]);
    BackDone(c, iv0, data, was, pos, total, buf[..]);
    SpliceAll(iv0, lastIv);
    Put(walkIv, 0, lastIv);
  }

  lemma BackAgain(c: Cipher, data: seq<Byte>, was: seq<Byte>, pos: nat, total: nat, now: seq<Byte>, q: nat)
    requires IsCipher(c) && c.bsize <= q <= total <= |data| && pos + |data| <= |was|
    requires var image := Crypt(c, CbcDecrypt, data[q - c.bsize..q], data[q..total]);
             |image| == total - q && now == Splice(was, pos + q, image)
    ensures Back(c, data, was, pos, total, now, q)
  {
  }

  lemma AtLeastOne(n: nat, b: nat)
    requires 0 < b <= n
    ensures Handled(n, b) >= b
  {
  }

  lemma FewerBlocks(n: nat, b: nat)
    requires 0 < b <= n && Blocks(n, b)
    ensures Blocks(n - b, b)
  {
  }

  lemma MoreBlocks(n: nat, b: nat)
    requires b > 0 && Blocks(n, b)
    ensures n == 0 || (n >= b && Blocks(n - b, b))
  {
  }
}
