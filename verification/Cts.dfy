/** Ciphertext stealing on top of chaining (crypto/cts.c; section 8 of RFC 2040). */
module Cts {
  import opened Bytes
  import opened Modes
  import opened ModeLoops
  import opened BlkcipherWalks

  // ---------- the last two blocks ----------

  /** One block and 1 to bsize bytes more: the last ciphertext block goes first, and the block
      before it, cut to the length of the last plaintext, goes last. */
  function StealEncrypt(c: Cipher, iv: seq<Byte>, t: seq<Byte>): (seq<Byte>, seq<Byte>)
    requires IsCipher(c) && |iv| == c.bsize <= |t| <= 2 * c.bsize
  {
    var b := c.bsize;
    var c1 := Out(c, CbcEncrypt, iv, t[..b]);
    var c2 := Out(c, CbcEncrypt, c1, Padded(t[b..], b));
    (c2 + c1[..|t| - b], c2)
  }

  function StealDecrypt(c: Cipher, iv: seq<Byte>, t: seq<Byte>): (seq<Byte>, seq<Byte>)
    requires IsCipher(c) && |iv| == c.bsize <= |t| <= 2 * c.bsize
  {
    var b, n := c.bsize, |t| - c.bsize;
    var x := Xor(c.dec(t[..b]), Padded(t[b..], b));
    (Xor(c.dec(t[b..] + x[n..]), iv) + x[..n], t[..b])
  }

  /** The last block decrypted yields the stolen tail of the block before it. */
  lemma Recovered(c1: seq<Byte>, p2: seq<Byte>, b: nat)
    requires |c1| == b && |p2| <= b
    ensures var x := Xor(Xor(Padded(p2, b), c1), Padded(c1[..|p2|], b)); x[..|p2|] == p2 && x[|p2|..] == c1[|p2|..]
  {
    hide XorByte;
    var n, x := |p2|, Xor(Xor(Padded(p2, b), c1), Padded(c1[..|p2|], b));
    forall i | 0 <= i < b ensures x[i] == if i < n then p2[i] else c1[i] {
      if i < n {
        XorByteCancel(p2[i], c1[i]);
      } else {
        XorZero(c1[i]);
      }
    }
  }

  lemma StealUndone(c: Cipher, iv: seq<Byte>, t: seq<Byte>)
    requires IsCipher(c) && |iv| == c.bsize <= |t| <= 2 * c.bsize
    ensures var (ct, next) := StealEncrypt(c, iv, t);
            |ct| == |t| && StealDecrypt(c, iv, ct) == (t, next)
  {
    hide XorByte;
    var b, p1, p2 := c.bsize, t[..c.bsize], t[c.bsize..];
    var n := |p2|;
    BlockLengths(c, CbcEncrypt, iv, p1);
    var c1 := Out(c, CbcEncrypt, iv, p1);
    BlockLengths(c, CbcEncrypt, c1, Padded(p2, b));
    var c2 := Out(c, CbcEncrypt, c1, Padded(p2, b));
    var ct := c2 + c1[..n];
    assert ct[..b] == c2 && ct[b..] == c1[..n];
    Recovered(c1, p2, b);
    assert c1[..n] + c1[n..] == c1;
    XorCancel(p1, iv);
    assert p1 + p2 == t;
  }

  // ---------- whole messages ----------

  /** The number of blocks before the last two. */
  function CbcBlocks(n: nat, b: nat): nat
    requires b > 0
  {
    var total := (n + b - 1) / b; if total > 2 then total - 2 else 0
  }

  lemma CbcBlocksLeave(n: nat, b: nat)
    requires 0 < b < n
    ensures var k := CbcBlocks(n, b) * b; k <= n && b < n - k <= 2 * b && Blocks(k, b) && (n <= 2 * b <==> k == 0)
  {
    var total := (n + b - 1) / b;
    var k := CbcBlocks(n, b);
    Ceiling(n, b);
    if total > 2 {
      assert k * b == total * b - 2 * b;
    } else {
      TwoBlocks(total, b);
    }
    WholeBlocks(k, b);
  }

  lemma TwoBlocks(t: nat, b: nat)
    requires t <= 2
    ensures t * b <= 2 * b
  {
  }

  lemma Ceiling(n: nat, b: nat)
    requires b > 0
    ensures var t := (n + b - 1) / b; n <= t * b < n + b
  {
  }

  lemma {:induction false} WholeBlocks(k: nat, b: nat)
    requires b > 0
    ensures Blocks(k * b, b)
  {
    if k > 0 {
      WholeBlocks(k - 1, b);
      assert (k - 1) * b == k * b - b;
    }
  }

  /** The message and the chaining value left, for at least one block. */
  function Encrypt(c: Cipher, iv: seq<Byte>, data: seq<Byte>): (seq<Byte>, seq<Byte>)
    requires IsCipher(c) && |iv| == c.bsize <= |data|
  {
    if |data| == c.bsize then (Crypt(c, CbcEncrypt, iv, data), After(c, CbcEncrypt, iv, data))
    else
      CbcBlocksLeave(|data|, c.bsize);
      var k := CbcBlocks(|data|, c.bsize) * c.bsize;
      CryptLengths(c, CbcEncrypt, iv, data[..k]);
      var (tail, next) := StealEncrypt(c, After(c, CbcEncrypt, iv, data[..k]), data[k..]);
      (Crypt(c, CbcEncrypt, iv, data[..k]) + tail, next)
  }

  function Decrypt(c: Cipher, iv: seq<Byte>, data: seq<Byte>): (seq<Byte>, seq<Byte>)
    requires IsCipher(c) && |iv| == c.bsize <= |data|
  {
    if |data| == c.bsize then (Crypt(c, CbcDecrypt, iv, data), After(c, CbcDecrypt, iv, data))
    else
      CbcBlocksLeave(|data|, c.bsize);
      var k := CbcBlocks(|data|, c.bsize) * c.bsize;
      CryptLengths(c, CbcDecrypt, iv, data[..k]);
      var (tail, next) := StealDecrypt(c, After(c, CbcDecrypt, iv, data[..k]), data[k..]);
      (Crypt(c, CbcDecrypt, iv, data[..k]) + tail, next)
  }

  /** For every message of at least one block: the ciphertext is no longer than the message,
      decryption restores it, and both directions leave the same chaining value. */
  lemma DecryptUndoesEncryption(c: Cipher, iv: seq<Byte>, data: seq<Byte>)
    requires IsCipher(c) && |iv| == c.bsize <= |data|
    ensures var (ct, next) := Encrypt(c, iv, data);
            |ct| == |data| && Decrypt(c, iv, ct) == (data, next)
  {
    hide Crypt, After, Blocks, StealEncrypt, StealDecrypt, CbcBlocks;
    var b := c.bsize;
    if |data| == b {
      OneIsWhole(b);
      CryptLengths(c, CbcEncrypt, iv, data);
      DecryptUndoesEncrypt(c, iv, data);
    } else {
      CbcBlocksLeave(|data|, b);
      var k := CbcBlocks(|data|, b) * b;
      var head, rest := data[..k], data[k..];
      CryptLengths(c, CbcEncrypt, iv, head);
      DecryptUndoesEncrypt(c, iv, head);
      var mid := After(c, CbcEncrypt, iv, head);
      StealUndone(c, mid, rest);
      var ch, ct := Crypt(c, CbcEncrypt, iv, head), StealEncrypt(c, mid, rest).0;
      assert (ch + ct)[..k] == ch && (ch + ct)[k..] == ct;
      assert head + rest == data;
    }
  }

  /** Section 8 of RFC 2040, for a message of more than one block: it is filled up with zeros to whole
      blocks and chained as usual; then the last two blocks change places, and what is now the last one
      is cut so that the ciphertext is as long as the message. */
  lemma StealingSwapsTheLastTwo(c: Cipher, iv: seq<Byte>, data: seq<Byte>)
    requires IsCipher(c) && |iv| == c.bsize < |data|
    ensures var b, k := c.bsize, CbcBlocks(|data|, c.bsize) * c.bsize;
            && k <= |data| && b < |data| - k <= 2 * b && Blocks(k, b)
            && var full := Crypt(c, CbcEncrypt, iv, Padded(data, k + 2 * b));
            && |full| == k + 2 * b
            && Encrypt(c, iv, data).0 == full[..k] + full[k + b..] + full[k..|data| - b]
  {
    hide Crypt, After, Blocks, CbcBlocks, Out;
    var b := c.bsize;
    CbcBlocksLeave(|data|, b);
    var k := CbcBlocks(|data|, b) * b;
    var head, t := data[..k], data[k..];
    CryptLengths(c, CbcEncrypt, iv, head);
    var mid := After(c, CbcEncrypt, iv, head);
    assert Padded(data, k + 2 * b) == head + Padded(t, 2 * b);
    CryptAppend(c, CbcEncrypt, iv, head, Padded(t, 2 * b));
    TwoChained(c, mid, t);
  }

  lemma TwoChained(c: Cipher, iv: seq<Byte>, t: seq<Byte>)
    requires IsCipher(c) && |iv| == c.bsize <= |t| <= 2 * c.bsize
    ensures var b, two := c.bsize, Crypt(c, CbcEncrypt, iv, Padded(t, 2 * c.bsize));
            |two| == 2 * b && StealEncrypt(c, iv, t).0 == two[b..] + two[..|t| - b]
  {
    hide Crypt, After, Out;
    var b, p1, p2 := c.bsize, t[..c.bsize], Padded(t[c.bsize..], c.bsize);
    assert Padded(t, 2 * b) == p1 + p2;
    BlockLengths(c, CbcEncrypt, iv, p1);
    var c1 := Out(c, CbcEncrypt, iv, p1);
    BlockLengths(c, CbcEncrypt, c1, p2);
    CryptCons(c, CbcEncrypt, iv, p1, p2);
    CryptOneBlock(c, CbcEncrypt, c1, p2);
    assert Next(c, CbcEncrypt, iv, p1) == c1;
  }

  lemma OneIsWhole(b: nat)
    requires b > 0
    ensures Blocks(b, b)
  {
  }

  // ---------- in memory ----------

  /** The child cipher on one block: as a stretch of one block; it updates the IV it is given. */
  method ChildEncrypt(c: Cipher, src: array<Byte>, s: nat, dst: array<Byte>, iv: array<Byte>)
    requires IsCipher(c) && src != dst && iv != src && iv != dst && iv.Length == c.bsize == dst.Length
    requires s + c.bsize <= src.Length
    modifies dst, iv
    ensures dst[..] == iv[..] == Out(c, CbcEncrypt, old(iv[..]), src[..][s..s + c.bsize])
  {
    hide Done, Blocks, Crypt, After, Out, Splice;
    ghost var iv0, was, block := iv[..], dst[..], src[..][s..s + c.bsize];
    var left := CbcEncryptSegment(c, src, s, dst, 0, c.bsize, iv);
    OneBlockDone(c, CbcEncrypt, iv0, block, was, dst[..], iv[..], left);
    NextIsOut(c, iv0, block);
  }

  method ChildDecrypt(c: Cipher, src: array<Byte>, s: nat, dst: array<Byte>, iv: array<Byte>)
    requires IsCipher(c) && src != dst && iv != src && iv != dst && iv.Length == c.bsize == dst.Length
    requires s + c.bsize <= src.Length
    modifies dst, iv
    ensures dst[..] == Out(c, CbcDecrypt, old(iv[..]), src[..][s..s + c.bsize]) && iv[..] == src[..][s..s + c.bsize]
  {
    hide Done, Blocks, Crypt, After, Out, Splice;
    ghost var iv0, was, block := iv[..], dst[..], src[..][s..s + c.bsize];
    var left := CbcDecryptSegment(c, src, s, dst, 0, c.bsize, iv);
    OneBlockDone(c, CbcDecrypt, iv0, block, was, dst[..], iv[..], left);
  }

  lemma OneBlockDone(c: Cipher, m: Mode, iv0: seq<Byte>, block: seq<Byte>, was: seq<Byte>, now: seq<Byte>, iv: seq<Byte>, left: nat)
    requires left < c.bsize == |block| == |was| && Done(c, m, iv0, block, was, 0, now, iv, c.bsize - left)
    ensures now == Out(c, m, iv0, block) && iv == Next(c, m, iv0, block)
  {
    hide Crypt, After, Out, Splice, Next;
    DoneImage(c, m, iv0, block, was, 0, now, iv, c.bsize - left);
    OneBlock(left, c.bsize);
    assert block[..c.bsize] == block;
    CryptOneBlock(c, m, iv0, block);
    SpliceAll(was, Out(c, m, iv0, block));
  }

  /** cts_cbc_encrypt. */
  method CtsCbcEncrypt(c: Cipher, info: array<Byte>, dst: array<Byte>, src: array<Byte>, offset: nat, nbytes: nat) returns (err: int)
    requires IsCipher(c) && info.Length == c.bsize && info !in {src, dst} && nbytes <= 2 * c.bsize
    requires offset + nbytes <= src.Length && offset + nbytes <= dst.Length
    modifies dst, info
    ensures nbytes < c.bsize ==> err == -EINVAL && dst[..] == old(dst[..]) && info[..] == old(info[..])
    ensures nbytes >= c.bsize ==>
              var (ct, next) := StealEncrypt(c, old(info[..]), old(src[..])[offset..offset + nbytes]);
              err == 0 && |ct| == nbytes && dst[..] == Splice(old(dst[..]), offset, ct) && info[..] == next
  {
    var b := c.bsize;
    if nbytes < b { return -EINVAL; }
    hide Out, Splice;
    var s := TwoBlocksOf(src, offset, nbytes, b);
    var d, tmp2 := EncryptTwo(c, s, info, nbytes - b);
    Put(dst, offset, d);
    CopyAll(info, tmp2);
    err := 0;
  }

  /** The buffer s of both directions. */
  method TwoBlocksOf(src: array<Byte>, offset: nat, nbytes: nat, b: nat) returns (s: array<Byte>)
    requires b <= nbytes <= 2 * b && offset + nbytes <= src.Length
    ensures fresh(s) && s.Length == 2 * b && s[..][0..nbytes] == src[..][offset..offset + nbytes]
    ensures s[..][0..b] == src[..][offset..offset + nbytes][..b]
    ensures s[..][b..2 * b] == Padded(src[..][offset..offset + nbytes][b..], b)
  {
    s := new Byte[2 * b](_ => 0);
    assert s[..] == Zeros(2 * b);
    assert src[offset..offset + nbytes] == src[..][offset..offset + nbytes];
    Put(s, 0, src[offset..offset + nbytes]);
    FilledWith(s[..], src[..][offset..offset + nbytes], b);
  }

  /** Both block encryptions; the second is chained to the first, whose result it overwrites. */
  method EncryptTwo(c: Cipher, s: array<Byte>, info: array<Byte>, lastn: nat) returns (d: seq<Byte>, tmp2: array<Byte>)
    requires IsCipher(c) && info.Length == c.bsize && s.Length == 2 * c.bsize && lastn <= c.bsize
    ensures fresh(tmp2) && tmp2.Length == c.bsize
    ensures var c1 := Out(c, CbcEncrypt, info[..], s[..][0..c.bsize]);
            var c2 := Out(c, CbcEncrypt, c1, s[..][c.bsize..2 * c.bsize]);
            |c1| == c.bsize && d == c2 + c1[..lastn] && tmp2[..] == c2
  {
    hide Out, Splice;
    var b := c.bsize;
    var iv, tmp := new Byte[b](_ => 0), new Byte[b](_ => 0);
    tmp2 := new Byte[b](_ => 0);
    CopyAll(iv, info);
    ChildEncrypt(c, s, 0, tmp, iv);
    d := tmp[..lastn];
    assert d == tmp[..][..lastn];
    ChildEncrypt(c, s, b, tmp2, tmp);
    d := tmp2[..] + d;
  }

  method CopyAll(dst: array<Byte>, src: array<Byte>)
    requires dst.Length == src.Length && dst != src
    modifies dst
    ensures dst[..] == src[..]
  {
    SpliceAll(dst[..], src[..]);
    Put(dst, 0, src[..]);
  }

  /** The double block holds the first block and the second padded with zeros. */
  lemma FilledWith(s: seq<Byte>, t: seq<Byte>, b: nat)
    requires b <= |t| <= 2 * b == |s| && s == Splice(Zeros(2 * b), 0, t)
    ensures s[0..b] == t[..b] && s[b..2 * b] == Padded(t[b..], b)
  {
  }

  /** cts_cbc_decrypt. */
  method CtsCbcDecrypt(c: Cipher, info: array<Byte>, dst: array<Byte>, src: array<Byte>, offset: nat, nbytes: nat) returns (err: int)
    requires IsCipher(c) && info.Length == c.bsize && info !in {src, dst} && nbytes <= 2 * c.bsize
    requires offset + nbytes <= src.Length && offset + nbytes <= dst.Length
    modifies dst, info
    ensures nbytes < c.bsize ==> err == -EINVAL && dst[..] == old(dst[..]) && info[..] == old(info[..])
    ensures nbytes >= c.bsize ==>
              var (pt, next) := StealDecrypt(c, old(info[..]), old(src[..])[offset..offset + nbytes]);
              err == 0 && |pt| == nbytes && dst[..] == Splice(old(dst[..]), offset, pt) && info[..] == next
  {
    var b := c.bsize;
    if nbytes < b { return -EINVAL; }
    hide Splice, StealDecrypt, IsCipher;
    ghost var t := src[..][offset..offset + nbytes];
    var s := TwoBlocksOf(src, offset, nbytes, b);
    var first := s[..b];
    assert first == s[..][0..b] == t[..b];
    var d := DecryptTwo(c, s, info, nbytes - b, t);
    Put(dst, offset, d);
    SpliceAll(info[..], first);
    Put(info, 0, first);
    err := 0;
  }

  method DecryptTwo(c: Cipher, s: array<Byte>, info: array<Byte>, lastn: nat, ghost t: seq<Byte>) returns (d: seq<Byte>)
    requires IsCipher(c) && info.Length == c.bsize && s.Length == 2 * c.bsize && lastn <= c.bsize && s != info
    requires |t| == c.bsize + lastn && s[..][0..|t|] == t
    modifies s
    ensures |d| == |t| && StealDecrypt(c, info[..], t) == (d, t[..c.bsize])
  {
    hide StealDecrypt, IsCipher, XorByte;
    LastPart(s[..], t, c.bsize);
    StealDecryptIs(c, info[..], t);
    var tmp := RecoverLast(c, s, lastn);
    d := DecryptFirst(c, s, tmp, lastn, info);
  }

  lemma LastPart(s: seq<Byte>, t: seq<Byte>, b: nat)
    requires b <= |t| <= 2 * b == |s| && s[0..|t|] == t
    ensures s[b..b + (|t| - b)] == t[b..] && s[0..b] == t[..b]
  {
  }

  lemma StealDecryptIs(c: Cipher, iv: seq<Byte>, t: seq<Byte>)
    requires IsCipher(c) && |iv| == c.bsize <= |t| <= 2 * c.bsize
    ensures var x, n := Xor(c.dec(t[..c.bsize]), Padded(t[c.bsize..], c.bsize)), |t| - c.bsize;
            |x| == c.bsize && StealDecrypt(c, iv, t) == (Xor(c.dec(t[c.bsize..] + x[n..]), iv) + x[..n], t[..c.bsize])
            && |StealDecrypt(c, iv, t).0| == |t|
  {
  }

  /** Steps 1 to 3: the last plaintext block and the stolen bytes. */
  method RecoverLast(c: Cipher, s: array<Byte>, lastn: nat) returns (tmp: array<Byte>)
    requires IsCipher(c) && s.Length == 2 * c.bsize && lastn <= c.bsize
    ensures fresh(tmp) && tmp.Length == c.bsize
    ensures tmp[..] == Xor(c.dec(s[..][0..c.bsize]), Padded(s[..][c.bsize..c.bsize + lastn], c.bsize))
  {
    hide Splice, XorByte, Padded, Out, IsCipher;
    var b := c.bsize;
    var iv := new Byte[b](_ => 0);
    tmp := new Byte[b](_ => 0);
    ghost var first := s[..][0..b];
    assert iv[..] == Zeros(b);
    ChildDecrypt(c, s, 0, tmp, iv);
    DecryptUnderZero(c, first);
    var pad := PaddedTail(s, b, lastn);
    assert tmp[..][0..b] == tmp[..] && pad[..][0..b] == pad[..];
    SpliceAll(tmp[..], Xor(tmp[..], pad[..]));
    CryptoXor(tmp, 0, pad, 0, b);
  }

  method PaddedTail(s: array<Byte>, b: nat, lastn: nat) returns (pad: array<Byte>)
    requires s.Length == 2 * b && lastn <= b
    ensures fresh(pad) && pad.Length == b && pad[..] == Padded(s[..][b..b + lastn], b)
  {
    hide Splice;
    pad := new Byte[b](_ => 0);
    assert pad[..] == Zeros(b);
    assert s[b..b + lastn] == s[..][b..b + lastn];
    PaddedIs(s[..][b..b + lastn], b);
    Put(pad, 0, s[b..b + lastn]);
  }

  lemma PaddedIs(x: seq<Byte>, b: nat)
    requires |x| <= b
    ensures |Zeros(b)| == b && Splice(Zeros(b), 0, x) == Padded(x, b)
  {
  }

  /** Chaining to a zero IV is plain block decryption. */
  lemma DecryptUnderZero(c: Cipher, block: seq<Byte>)
    requires IsCipher(c) && |block| == c.bsize
    ensures Out(c, CbcDecrypt, Zeros(c.bsize), block) == c.dec(block)
  {
    hide XorByte;
    forall x: Byte ensures XorByte(x, 0) == x { XorZero(x); }
  }

  /** Steps 4 to 6 and the final exclusive or. */
  method DecryptFirst(c: Cipher, s: array<Byte>, tmp: array<Byte>, lastn: nat, info: array<Byte>) returns (d: seq<Byte>)
    requires IsCipher(c) && s.Length == 2 * c.bsize && tmp.Length == info.Length == c.bsize && lastn <= c.bsize
    requires s !in {tmp, info}
    modifies s
    ensures d == Xor(c.dec(old(s[..])[c.bsize..c.bsize + lastn] + tmp[..][lastn..]), info[..]) + tmp[..][..lastn]
  {
    hide Splice, XorByte;
    var b := c.bsize;
    ghost var was := s[..];
    assert tmp[lastn..] == tmp[..][lastn..] && tmp[..lastn] == tmp[..][..lastn];
    Put(s, b + lastn, tmp[lastn..]);
    SpliceRest(was, b + lastn, tmp[..][lastn..], b, b + lastn);
    ghost var en := was[b..b + lastn] + tmp[..][lastn..];
    assert s[..][b..2 * b] == en by { assert s[..][b..2 * b] == s[..][b..b + lastn] + s[..][b + lastn..b + b]; }
    var iv, p1 := new Byte[b](_ => 0), new Byte[b](_ => 0);
    assert iv[..] == Zeros(b);
    ChildDecrypt(c, s, b, p1, iv);
    DecryptUnderZero(c, en);
    assert p1[..][0..b] == p1[..] && info[..][0..b] == info[..];
    SpliceAll(p1[..], Xor(p1[..], info[..]));
    CryptoXor(p1, 0, info, 0, b);
    d := p1[..] + tmp[..lastn];
  }

  function AtLeast(n: nat, b: nat): nat { if 0 < n < b then b else n }

  lemma FirstBranch(n: nat, b: nat)
    requires b > 0
    ensures (n + b - 1) / b == 1 <==> 0 < n <= b
  {
  }

  /** With no blocks before the last two, only these matter. */
  lemma ShortForm(c: Cipher, iv: seq<Byte>, data: seq<Byte>, b: nat)
    requires IsCipher(c) && |iv| == b == c.bsize < |data| <= 2 * b
    ensures Encrypt(c, iv, data) == StealEncrypt(c, iv, data) && Decrypt(c, iv, data) == StealDecrypt(c, iv, data)
  {
    hide Crypt, After, StealEncrypt, StealDecrypt, CbcBlocks;
    CbcBlocksLeave(|data|, b);
    var k := CbcBlocks(|data|, b) * b;
    assert k == 0 && data[..k] == [] && data[k..] == data;
    CryptNothing(c, CbcEncrypt, iv);
    CryptNothing(c, CbcDecrypt, iv);
    var e, d := StealEncrypt(c, iv, data), StealDecrypt(c, iv, data);
    assert [] + e.0 == e.0 && [] + d.0 == d.0;
  }

  /** The chaining pass over the blocks before the last two. */
  method Head(c: Cipher, m: Mode, dst: array<Byte>, src: array<Byte>, k: nat, info: array<Byte>,
              ivAligned: bool, layout: Layout, ghost bits: nat, ghost data: seq<Byte>) returns (err: int)
    requires IsCipher(c) && m != Counter && c.bsize == info.Length == Pow2(bits) && IsLayout(layout) && info !in {src, dst}
    requires k <= |data| <= src.Length && |data| <= dst.Length && Blocks(k, c.bsize) && data == src[..][..|data|]
    modifies dst, info
    ensures err == 0 && |Crypt(c, m, old(info[..]), data[..k])| == k && info[..] == After(c, m, old(info[..]), data[..k])
    ensures dst[..] == Splice(old(dst[..]), 0, Crypt(c, m, old(info[..]), data[..k]))
    ensures src[..][k..|data|] == data[k..]
  {
    hide Done, Crypt, After, Blocks, Pow2, Splice, Handled;
    ghost var iv0, was := info[..], dst[..];
    assert src[..][..k] == data[..k] && src[..][k..|data|] == data[k..];
    err := CbcCrypt(c, m, dst, src, k, info, ivAligned, layout, bits);
    WholeDone(c, m, iv0, data[..k], was, dst[..], info[..], k);
    if src == dst { SpliceRest(was, 0, Crypt(c, m, iv0, data[..k]), k, |data|); }
  }

  /** A pass over whole blocks. */
  lemma WholeDone(c: Cipher, m: Mode, iv0: seq<Byte>, data: seq<Byte>, was: seq<Byte>, now: seq<Byte>, iv: seq<Byte>, n: nat)
    requires IsCipher(c) && |data| == n && Blocks(n, c.bsize) && Done(c, m, iv0, data, was, 0, now, iv, Handled(n, c.bsize))
    ensures n % c.bsize == 0 && |Crypt(c, m, iv0, data)| == n && n <= |was| && |iv| == c.bsize
    ensures now == Splice(was, 0, Crypt(c, m, iv0, data)) && iv == After(c, m, iv0, data)
  {
    hide Crypt, After, Splice;
    HandledUnique(n, n, c.bsize);
    assert data[..n] == data;
  }

  /** crypto_cts_encrypt; fewer bytes than a block are treated as a whole block. */
  method CryptoCtsEncrypt(c: Cipher, dst: array<Byte>, src: array<Byte>, nbytes: nat, info: array<Byte>,
                          ivAligned: bool, layout: Layout, ghost bits: nat) returns (err: int)
    requires IsCipher(c) && c.bsize == info.Length == Pow2(bits) && IsLayout(layout) && info !in {src, dst}
    requires AtLeast(nbytes, c.bsize) <= src.Length && AtLeast(nbytes, c.bsize) <= dst.Length
    modifies dst, info
    ensures nbytes == 0 ==> err == -EINVAL && dst[..] == old(dst[..]) && info[..] == old(info[..])
    ensures nbytes > 0 ==>
              var (out, next) := Encrypt(c, old(info[..]), old(src[..])[..AtLeast(nbytes, c.bsize)]);
              err == 0 && |out| == AtLeast(nbytes, c.bsize) && dst[..] == Splice(old(dst[..]), 0, out) && info[..] == next
  {
    hide Done, Crypt, After, Blocks, Pow2, Splice, StealEncrypt, CbcBlocks, Handled;
    var b := c.bsize;
    ghost var iv0, was, data := info[..], dst[..], src[..][..AtLeast(nbytes, b)];
    var total := (nbytes + b - 1) / b;
    FirstBranch(nbytes, b);
    if total == 1 {
      err := CbcCrypt(c, CbcEncrypt, dst, src, b, info, ivAligned, layout, bits);
      OneIsWhole(b);
      WholeDone(c, CbcEncrypt, iv0, data, was, dst[..], info[..], b);
    } else if nbytes <= 2 * b {
      if nbytes > 0 { ShortForm(c, iv0, data, b); }
      assert src[..][0..nbytes] == src[..][..nbytes];
      err := CtsCbcEncrypt(c, info, dst, src, 0, nbytes);
    } else {
      CbcBlocksLeave(nbytes, b);
      var k := CbcBlocks(nbytes, b) * b;
      err := Head(c, CbcEncrypt, dst, src, k, info, ivAligned, layout, bits, data);
      err := CtsCbcEncrypt(c, info, dst, src, k, nbytes - k);
      SpliceAppend(was, 0, Crypt(c, CbcEncrypt, iv0, data[..k]), StealEncrypt(c, After(c, CbcEncrypt, iv0, data[..k]), data[k..]).0);
    }
  }

  /** crypto_cts_decrypt. */
  method CryptoCtsDecrypt(c: Cipher, dst: array<Byte>, src: array<Byte>, nbytes: nat, info: array<Byte>,
                          ivAligned: bool, layout: Layout, ghost bits: nat) returns (err: int)
    requires IsCipher(c) && c.bsize == info.Length == Pow2(bits) && IsLayout(layout) && info !in {src, dst}
    requires AtLeast(nbytes, c.bsize) <= src.Length && AtLeast(nbytes, c.bsize) <= dst.Length
    modifies dst, info
    ensures nbytes == 0 ==> err == -EINVAL && dst[..] == old(dst[..]) && info[..] == old(info[..])
    ensures nbytes > 0 ==>
              var (out, next) := Decrypt(c, old(info[..]), old(src[..])[..AtLeast(nbytes, c.bsize)]);
              err == 0 && |out| == AtLeast(nbytes, c.bsize) && dst[..] == Splice(old(dst[..]), 0, out) && info[..] == next
  {
    hide Done, Crypt, After, Blocks, Pow2, Splice, StealDecrypt, CbcBlocks, Handled;
    var b := c.bsize;
    ghost var iv0, was, data := info[..], dst[..], src[..][..AtLeast(nbytes, b)];
    var total := (nbytes + b - 1) / b;
    FirstBranch(nbytes, b);
    if total == 1 {
      err := CbcCrypt(c, CbcDecrypt, dst, src, b, info, ivAligned, layout, bits);
      OneIsWhole(b);
      WholeDone(c, CbcDecrypt, iv0, data, was, dst[..], info[..], b);
    } else if nbytes <= 2 * b {
      if nbytes > 0 { ShortForm(c, iv0, data, b); }
      assert src[..][0..nbytes] == src[..][..nbytes];
      err := CtsCbcDecrypt(c, info, dst, src, 0, nbytes);
    } else {
      CbcBlocksLeave(nbytes, b);
      var k := CbcBlocks(nbytes, b) * b;
      err := Head(c, CbcDecrypt, dst, src, k, info, ivAligned, layout, bits, data);
      err := CtsCbcDecrypt(c, info, dst, src, k, nbytes - k);
      SpliceAppend(was, 0, Crypt(c, CbcDecrypt, iv0, data[..k]), StealDecrypt(c, After(c, CbcDecrypt, iv0, data[..k]), data[k..]).0);
    }
  }
}
