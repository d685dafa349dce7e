/** The request state of crypto/ccm.c and the functions that work on it in place. */
module CcmRequests {
  import opened Bytes
  import opened Modes
  import opened ModeLoops
  import opened BlkcipherWalks
  import opened Ccm
  import opened CcmFormat

  const EOVERFLOW := 75
  const EBADMSG := 74

  // ---------- formatting in place ----------

  /** Bitwise or of the low n bits. */
  function OrBits(a: nat, b: nat, n: nat): nat {
    if n == 0 then 0 else (if a % 2 == 1 || b % 2 == 1 then 1 else 0) + 2 * OrBits(a / 2, b / 2, n - 1)
  }

  lemma {:induction false} OrFits(a: nat, b: nat, n: nat)
    ensures OrBits(a, b, n) < Pow2(n)
  {
    if n > 0 { OrFits(a / 2, b / 2, n - 1); }
  }

  function OrByte(a: Byte, b: Byte): Byte {
    OrFits(a, b, 8);
    assert Pow2(8) == 256;
    OrBits(a, b, 8)
  }

  lemma {:induction false} OrWithZero(b: nat, n: nat)
    requires b < Pow2(n)
    ensures OrBits(0, b, n) == b
  {
    if n > 0 { OrWithZero(b / 2, n - 1); }
  }

  /** Values without common bits add up. */
  lemma {:induction false} OrAdds(a: nat, b: nat, j: nat, n: nat)
    requires a < Pow2(j) && j <= n && a + Pow2(j) * b < Pow2(n)
    ensures OrBits(a, Pow2(j) * b, n) == a + Pow2(j) * b
  {
    if j == 0 {
      OrWithZero(b, n);
    } else {
      var x := Pow2(j - 1) * b;
      assert Pow2(j) * b == 2 * x;
      assert a / 2 + x < Pow2(n - 1);
      OrAdds(a / 2, b, j - 1, n - 1);
    }
  }

  lemma {:induction false} FlagsAreOr(lp: nat, m: nat)
    requires lp <= 7 && LegalTag(m)
    ensures OrByte(lp, 8 * ((m - 2) / 2)) == Flags(lp, m, false) && OrByte(Flags(lp, m, false), 64) == Flags(lp, m, true)
  {
    hide OrBits;
    var k := (m - 2) / 2;
    assert k <= 7;
    assert Pow2(3) == 8 && Pow2(6) == 64 && Pow2(8) == 256;
    OrAdds(lp, k, 3, 8);
    OrAdds(lp + 8 * k, 1, 6, 8);
  }

  /** set_msg_len on the csize bytes at `at`. */
  method SetMsgLen(block: array<Byte>, at: nat, msglen: nat, csize: nat) returns (err: int)
    requires at + csize <= block.Length && 1 <= csize && msglen < MAX_BYTES
    modifies block
    ensures err == if Accepted(msglen, csize) then 0 else -EOVERFLOW
    ensures err == 0 ==> block[..] == Splice(old(block[..]), at, Digits(msglen, csize))
  {
    ghost var was := block[..];
    assert |Zeros(csize)| == csize;
    Put(block, at, Zeros(csize));
    var size := csize;
    if size >= 4 { size := 4; } else if msglen > Pow256(size) { return -EOVERFLOW; }
    FourDigitsOf(msglen, csize, size);
    var data := Digits(msglen, 4);
    Put(block, at + csize - size, data[4 - size..]);
    ZerosThen(was, at, csize, data[4 - size..]);
    err := 0;
  }

  /** The low-order bytes of the 32-bit length, zeros before them. */
  lemma {:induction false} FourDigitsOf(v: nat, csize: nat, size: nat)
    requires v < MAX_BYTES && 1 <= csize && size == if csize >= 4 then 4 else csize
    ensures Zeros(csize - size) + Digits(v, 4)[4 - size..] == Digits(v, csize)
  {
    FourValue([0, 0, 0, 0]);
    hide Digits, Pow256, Value;
    if csize <= 4 {
      assert Zeros(0) == [];
      DigitsTail(v, csize, 4);
    } else {
      FourDigitsOf(v, csize - 1, 4);
      LongDigits(v, csize);
      ZerosAgain(csize - 4, Digits(v, 4)[0..]);
    }
  }

  lemma ZerosAgain(n: nat, x: seq<Byte>)
    requires n > 0
    ensures Zeros(n) + x == [0] + (Zeros(n - 1) + x)
  {
    assert Zeros(n) == [0] + Zeros(n - 1);
  }

  lemma {:induction false} DigitsTail(v: nat, n: nat, k: nat)
    requires n <= k
    ensures Digits(v, k)[k - n..] == Digits(v, n)
    decreases n
  {
    if n > 0 {
      DigitsTail(v / 256, n - 1, k - 1);
      assert Digits(v, k) == Digits(v / 256, k - 1) + [v % 256];
      assert Digits(v, k)[k - n..] == Digits(v / 256, k - 1)[k - n..] + [v % 256];
    }
  }

  /** A value that fits in one byte less starts with a zero. */
  lemma {:induction false} LongDigits(v: nat, n: nat)
    requires n >= 5 && v < 0x1_0000_0000 && Pow256(4) == 0x1_0000_0000
    ensures Digits(v, n) == [0] + Digits(v, n - 1)
  {
    var s := [0] + Digits(v, n - 1);
    ValueAppend([0], Digits(v, n - 1));
    ValueOfDigits(v, n - 1);
    ValueOfDigits(v, n);
    PowersGrow(4, n - 1);
    PowersGrow(4, n);
    Below(v, Pow256(n - 1));
    Below(v, Pow256(n));
    OneValue(0);
    SameValue(Digits(v, n), s);
  }

  lemma ZerosThen(was: seq<Byte>, at: nat, csize: nat, x: seq<Byte>)
    requires at + csize <= |was| && |x| <= csize
    ensures |Zeros(csize)| == csize && |Zeros(csize - |x|)| == csize - |x|
    ensures Splice(Splice(was, at, Zeros(csize)), at + csize - |x|, x) == Splice(was, at, Zeros(csize - |x|) + x)
  {
  }

  /** format_input. */
  method FormatInput(info: array<Byte>, iv: array<Byte>, m: nat, assoclen: nat, cryptlen: nat) returns (err: int)
    requires info != iv && info.Length == iv.Length == BLOCK && LegalIv(iv[..]) && LegalTag(m) && cryptlen < MAX_BYTES
    modifies info
    ensures err == if Accepted(cryptlen, LengthBytes(iv[..])) then 0 else -EOVERFLOW
    ensures err == 0 ==> info[..] == FirstBlock(iv[..], m, assoclen != 0, cryptlen)
    ensures err == 0 ==> FirstSays(info[..], iv[..], m, assoclen != 0, cryptlen)
  {
    hide Splice, Digits, OrByte, Flags, FirstSays;
    ghost var v := iv[..];
    var lp: nat := iv[0];
    var l := lp + 1;
    SpliceAll(info[..], v);
    Put(info, 0, iv[..]);
    FlagsAreOr(lp, m);
    info[0] := OrByte(info[0], 8 * ((m - 2) / 2));
    if assoclen != 0 { info[0] := OrByte(info[0], 64); }
    ghost var f := Flags(lp, m, assoclen != 0);
    assert info[..] == [f] + v[1..];
    err := SetMsgLen(info, BLOCK - l, cryptlen, l);
    if err == 0 {
      Assembled(v, f, Digits(cryptlen, l));
      FirstBlockSays(v, m, assoclen != 0, cryptlen);
    }
  }

  lemma Assembled(v: seq<Byte>, f: Byte, d: seq<Byte>)
    requires LegalIv(v) && |d| == LengthBytes(v)
    ensures Splice([f] + v[1..], BLOCK - |d|, d) == [f] + Nonce(v)[1..] + d
  {
  }

  /** format_adata. */
  method FormatAdata(adata: array<Byte>, a: nat) returns (len: nat)
    requires adata.Length == BLOCK && 0 < a < MAX_BYTES
    modifies adata
    ensures len == |AdataHeader(a)| && adata[..][..len] == AdataHeader(a)
    ensures a < 0xff00 ==> len == 2 && Value(adata[..2]) == a
    ensures a >= 0xff00 ==> len == 6 && adata[0] == 0xff && adata[1] == 0xfe && Value(adata[2..6]) == a
  {
    HeaderSays(a);
    hide Digits, Value;
    if a < 65280 {
      Put(adata, 0, Digits(a, 2));
      len := 2;
    } else {
      Put(adata, 0, Digits(0xfffe, 2));
      ghost var was := adata[..];
      Put(adata, 2, Digits(a, 4));
      SpliceRest(was, 2, Digits(a, 4), 0, 2);
      len := 6;
      assert adata[..][..6] == adata[..][0..2] + adata[..][2..6];
      assert adata[2..6] == AdataHeader(a)[2..];
      assert adata[0] == AdataHeader(a)[..2][0] && adata[1] == AdataHeader(a)[..2][1];
    }
    assert adata[..len] == adata[..][..len];
  }

  // ---------- the running MAC in place ----------

  /** struct crypto_ccm_req_priv_ctx. */
  class Request {
    const odata: array<Byte>
    const idata: array<Byte>
    const authTag: array<Byte>
    var ilen: nat

    ghost predicate Valid()
      reads this
    {
      && odata.Length == idata.Length == authTag.Length == BLOCK
      && odata != idata && odata != authTag && idata != authTag && ilen < BLOCK
    }

    /** The bytes held back. */
    ghost function Held(): seq<Byte>
      requires Valid()
      reads this, idata
    {
      idata[..][..ilen]
    }

    constructor ()
      ensures Valid() && ilen == 0 && fresh(odata) && fresh(idata) && fresh(authTag)
    {
      odata, idata, authTag, ilen := new Byte[BLOCK](_ => 0), new Byte[BLOCK](_ => 0), new Byte[BLOCK](_ => 0), 0;
    }

    /** crypto_xor and crypto_cipher_encrypt_one on a full block. */
    method Absorb(c: Cipher, data: array<Byte>, at: nat)
      requires Valid() && IsCipher16(c) && at + BLOCK <= data.Length && data != odata
      modifies odata
      ensures odata[..] == c.enc(Xor(old(odata[..]), data[..][at..at + BLOCK]))
    {
      hide Splice, XorByte;
      ghost var was, x := odata[..], data[..][at..at + BLOCK];
      assert was[0..BLOCK] == was;
      CryptoXor(odata, 0, data, at, BLOCK);
      SpliceAll(was, Xor(was, x));
      assert odata[..][0..BLOCK] == odata[..];
      EncryptOne(c, odata, 0, odata, 0);
      SpliceAll(Xor(was, x), c.enc(Xor(was, x)));
    }

    /** What is held back and `rest` together still lead to the state aimed at. */
    ghost predicate Leads(c: Cipher, rest: seq<Byte>, target: (seq<Byte>, seq<Byte>))
      requires Valid()
      reads this, odata, idata
    {
      Feed(c, odata[..], Held() + rest) == target
    }

    /** compute_mac: n bytes more are absorbed. */
    method ComputeMac(c: Cipher, data: array<Byte>, at: nat, n: nat)
      requires Valid() && IsCipher16(c) && at + n <= data.Length && data != odata && data != idata
      modifies `ilen, odata, idata
      ensures Valid() && (odata[..], Held()) == Feed(c, old(odata[..]), old(Held()) + data[..][at..at + n])
    {
      hide Feed;
      ghost var d, target := data[..], Feed(c, odata[..], Held() + data[..][at..at + n]);
      var datalen, from := n, at;
      var getlen := BLOCK - ilen;
      if datalen >= getlen {
        FillBlock(c, data, from, getlen, datalen, target);
        datalen, from := datalen - getlen, from + getlen;
      }
      while datalen >= BLOCK
        invariant 0 <= datalen && 0 <= from && from + datalen == at + n && Valid() && (ilen == 0 || ilen + datalen < BLOCK)
        invariant Leads(c, data[..][from..from + datalen], target)
      {
        WholeBlock(c, data, from, datalen, target);
        datalen, from := datalen - BLOCK, from + BLOCK;
      }
      ghost var full := Held() + data[..][from..from + datalen];
      if datalen != 0 {
        HoldBack(data, from, datalen);
      }
      assert Held() == full;
      FeedLittle(c, odata[..], Held());
    }

    /** The held bytes are filled up to a block, which is absorbed. */
    method FillBlock(c: Cipher, data: array<Byte>, from: nat, getlen: nat, datalen: nat, ghost target: (seq<Byte>, seq<Byte>))
      requires Valid() && IsCipher16(c) && data != odata && data != idata
      requires getlen == BLOCK - ilen && getlen <= datalen && from + datalen <= data.Length
      requires Leads(c, data[..][from..from + datalen], target)
      modifies `ilen, odata, idata
      ensures Valid() && ilen == 0 && Leads(c, data[..][from + getlen..from + datalen], target)
    {
      hide Feed, XorByte;
      ghost var o, held, rest := odata[..], Held(), data[..][from..from + datalen];
      assert data[from..from + getlen] == rest[..getlen];
      Put(idata, ilen, data[from..from + getlen]);
      assert idata[..] == held + rest[..getlen];
      Absorb(c, idata, 0);
      FeedBlock(c, o, held, rest, getlen);
      assert idata[..][0..BLOCK] == idata[..];
      ilen := 0;
      assert rest[getlen..] == data[..][from + getlen..from + datalen] == Held() + data[..][from + getlen..from + datalen];
    }

    method WholeBlock(c: Cipher, data: array<Byte>, from: nat, datalen: nat, ghost target: (seq<Byte>, seq<Byte>))
      requires Valid() && IsCipher16(c) && data != odata && data != idata
      requires ilen == 0 && BLOCK <= datalen && from + datalen <= data.Length
      requires Leads(c, data[..][from..from + datalen], target)
      modifies odata
      ensures Leads(c, data[..][from + BLOCK..from + datalen], target)
    {
      hide Feed, XorByte;
      ghost var o, rest := odata[..], data[..][from..from + datalen];
      Absorb(c, data, from);
      FeedBlock(c, o, [], rest, BLOCK);
      assert [] + rest[..BLOCK] == data[..][from..from + BLOCK];
      assert Held() == [] && [] + rest == rest;
      assert rest[BLOCK..] == data[..][from + BLOCK..from + datalen] == [] + data[..][from + BLOCK..from + datalen];
    }

    method HoldBack(data: array<Byte>, from: nat, datalen: nat)
      requires Valid() && data != idata && ilen + datalen < BLOCK && from + datalen <= data.Length
      modifies `ilen, idata
      ensures Valid() && Held() == old(Held()) + data[..][from..from + datalen]
    {
      assert data[from..from + datalen] == data[..][from..from + datalen];
      Put(idata, ilen, data[from..from + datalen]);
      ilen := ilen + datalen;
    }

    /** get_data_to_compute: the data is absorbed in whatever pieces it lies in, then padded. */
    method GetDataToCompute(c: Cipher, sg: array<Byte>, length: nat, pieces: nat -> nat)
      requires Valid() && IsCipher16(c) && length <= sg.Length && sg != odata && sg != idata
      requires forall p :: pieces(p) >= 1
      modifies `ilen, odata, idata
      ensures Valid() && ilen == 0
      ensures var (o, held) := Feed(c, old(odata[..]), old(Held()) + sg[..][..length]);
              |held| < BLOCK && odata[..] == Flush(c, o, held)
    {
      hide Feed, Flush;
      ghost var target := Feed(c, odata[..], Held() + sg[..][..length]);
      var len, at := length, 0;
      assert sg[..][0..length] == sg[..][..length];
      while len > 0
        invariant at + len == length && Valid() && Leads(c, sg[..][at..length], target)
        decreases len
      {
        var n := Min(len, pieces(at));
        ghost var o, held := odata[..], Held();
        FeedSplits(c, o, held + sg[..][at..at + n], sg[..][at + n..length]);
        assert held + sg[..][at..length] == held + sg[..][at..at + n] + sg[..][at + n..length];
        ComputeMac(c, sg, at, n);
        len, at := len - n, at + n;
      }
      assert Held() + sg[..][at..length] == Held();
      FeedLittle(c, odata[..], Held());
      FlushHeld(c);
    }

    method FlushHeld(c: Cipher)
      requires Valid() && IsCipher16(c)
      modifies `ilen, odata, idata
      ensures Valid() && ilen == 0 && odata[..] == Flush(c, old(odata[..]), old(Held()))
    {
      if ilen != 0 {
        ghost var held := Held();
        assert |Zeros(BLOCK - ilen)| == BLOCK - ilen;
        Put(idata, ilen, Zeros(BLOCK - ilen));
        assert idata[..] == Padded(held, BLOCK) == idata[..][0..BLOCK];
        Absorb(c, idata, 0);
        ilen := 0;
      }
    }

    /** crypto_ccm_auth; with no associated data nothing sets ilen, so what is held back goes in too. */
    method Auth(c: Cipher, iv: array<Byte>, m: nat, assoc: array<Byte>, assoclen: nat, plain: array<Byte>, cryptlen: nat,
                pieces: nat -> nat) returns (err: int)
      requires Valid() && IsCipher16(c) && LegalIv(iv[..]) && LegalTag(m) && {iv, assoc, plain} !! {odata, idata}
      requires assoclen <= assoc.Length && cryptlen <= plain.Length && assoclen < MAX_BYTES && cryptlen < MAX_BYTES
      requires forall p :: pieces(p) >= 1
      modifies `ilen, odata, idata
      ensures Valid() && err == if Accepted(cryptlen, LengthBytes(iv[..])) then 0 else -EOVERFLOW
      ensures err == 0 ==>
                ilen == 0 && odata[..] == Mac(c, iv[..], m, old(Held()), assoc[..][..assoclen], plain[..][..cryptlen])
      ensures err != 0 ==> ilen == old(ilen) && Held() == old(Held())
    {
      hide FirstBlock, AdataHeader, Feed, Flush, Splice;
      ghost var a, x, held := assoc[..][..assoclen], plain[..][..cryptlen], Held();
      err := FormatInput(odata, iv, m, assoclen, cryptlen);
      if err != 0 { return; }
      ghost var b0 := FirstBlock(iv[..], m, a != [], |x|);
      assert odata[..] == b0 == odata[..][0..BLOCK];
      EncryptOne(c, odata, 0, odata, 0);
      SpliceAll(b0, c.enc(b0));
      if assoclen != 0 {
        ilen := FormatAdata(idata, assoclen);
        assert Held() == AdataHeader(|a|);
        GetDataToCompute(c, assoc, assoclen, pieces);
      }
      assert Held() + x == Behind(held, a, x);
      GetDataToCompute(c, plain, cryptlen, pieces);
    }

    /** The counter pass over the 16 bytes of `head` chained in front of the data. */
    method CtrOverChain(c: Cipher, head: array<Byte>, dst: array<Byte>, src: array<Byte>, n: nat, iv: array<Byte>,
                        ivAligned: bool, layout: Layout) returns (err: int)
      requires IsCipher16(c) && head.Length == iv.Length == BLOCK && IsLayout(layout)
      requires n <= src.Length && n <= dst.Length && head !in {src, dst, iv} && iv !in {src, dst}
      modifies head, dst, iv
      ensures err == 0
      ensures var input := old(head[..]) + old(src[..])[..n]; var out := Crypt(c, Counter, old(iv[..]), input);
              && |out| == BLOCK + n && head[..] == out[..BLOCK] && dst[..] == Splice(old(dst[..]), 0, out[BLOCK..])
              && iv[..] == After(c, Counter, old(iv[..]), input)
    {
      hide Crypt, After, Splice;
      ghost var input := head[..] + src[..][..n];
      var bytes := head[..] + src[..n];
      assert bytes == input;
      var flat := new Byte[BLOCK + n](i requires 0 <= i < |bytes| => bytes[i]);
      assert flat[..] == input == flat[..][..BLOCK + n];
      var out := flat;
      if src != dst { out := new Byte[BLOCK + n](_ => 0); }
      ghost var was := out[..];
      err := CtrCrypt(c, out, flat, BLOCK + n, iv, ivAligned, layout);
      SpliceAll(was, Crypt(c, Counter, old(iv[..]), input));
      assert out[..BLOCK] == out[..][..BLOCK] && out[BLOCK..] == out[..][BLOCK..];
      SpliceAll(head[..], out[..BLOCK]);
      Put(head, 0, out[..BLOCK]);
      Put(dst, 0, out[BLOCK..]);
    }

    /** memset of the counter bytes. */
    method ZeroCounter(iv: array<Byte>)
      requires LegalIv(iv[..])
      modifies iv
      ensures iv[..] == ClearCounter(old(iv[..]))
    {
      ghost var v := iv[..];
      var l: nat := iv[0] as int + 1;
      assert |Zeros(l)| == l;
      Put(iv, BLOCK - l, Zeros(l));
    }

    /** crypto_ccm_encrypt, synchronous path. */
    method Encrypt(c: Cipher, iv: array<Byte>, m: nat, assoc: array<Byte>, assoclen: nat, src: array<Byte>, dst: array<Byte>,
                   cryptlen: nat, pieces: nat -> nat, ivAligned: bool, layout: Layout) returns (err: int)
      requires Valid() && IsCipher16(c) && iv.Length == BLOCK && LegalTag(m) && IsLayout(layout)
      requires {iv, assoc, src, dst} !! {odata, idata} && iv !in {src, dst}
      requires assoclen <= assoc.Length && assoclen < MAX_BYTES
      requires cryptlen + BLOCK < MAX_BYTES && cryptlen <= src.Length && cryptlen + m <= dst.Length
      requires forall p :: pieces(p) >= 1
      modifies `ilen, odata, idata, iv, dst
      ensures Valid()
      ensures !LegalIv(old(iv[..])) ==> err == -EINVAL && dst[..] == old(dst[..])
      ensures LegalIv(old(iv[..])) && !Accepted(cryptlen, LengthBytes(old(iv[..]))) ==> err == -EOVERFLOW && dst[..] == old(dst[..])
      ensures LegalIv(old(iv[..])) && Accepted(cryptlen, LengthBytes(old(iv[..]))) ==>
                var sealed := Seal(c, old(iv[..]), m, old(Held()), old(assoc[..])[..assoclen], old(src[..])[..cryptlen]);
                err == 0 && ilen == 0 && |sealed| == cryptlen + m && dst[..] == Splice(old(dst[..]), 0, sealed)
    {
      hide Mac, Crypt, After, Splice, ClearCounter, Accepted;
      if !(1 <= iv[0] <= 7) { return -EINVAL; }
      ghost var v, was, a, x := iv[..], dst[..], assoc[..][..assoclen], src[..][..cryptlen];
      err := Auth(c, iv, m, assoc, assoclen, src, cryptlen, pieces);
      if err != 0 { return; }
      ghost var t := odata[..];
      ZeroCounter(iv);
      err := CtrOverChain(c, odata, dst, src, cryptlen, iv, ivAligned, layout);
      ghost var out := Crypt(c, Counter, ClearCounter(v), t + x);
      assert odata[..m] == out[..m];
      Put(dst, cryptlen, odata[..m]);
      SpliceAppend(was, 0, out[BLOCK..], out[..m]);
    }

    /** crypto_ccm_decrypt, synchronous path. */
    method Decrypt(c: Cipher, iv: array<Byte>, m: nat, assoc: array<Byte>, assoclen: nat, src: array<Byte>, dst: array<Byte>,
                   length: nat, pieces: nat -> nat, ivAligned: bool, layout: Layout) returns (err: int)
      requires Valid() && IsCipher16(c) && iv.Length == BLOCK && LegalTag(m) && IsLayout(layout)
      requires {iv, assoc, src, dst} !! {odata, idata, authTag} && iv !in {src, dst} && assoc != dst && assoc != iv
      requires assoclen <= assoc.Length && assoclen < MAX_BYTES
      requires length + BLOCK < MAX_BYTES && length <= src.Length && length <= dst.Length
      requires forall p :: pieces(p) >= 1
      modifies `ilen, odata, idata, authTag, iv, dst
      ensures Valid()
      ensures length < m ==> err == -EINVAL
      ensures length >= m && !LegalIv(old(iv[..])) ==> err == -EINVAL && dst[..] == old(dst[..])
      ensures length >= m && LegalIv(old(iv[..])) ==>
                match Open(c, old(iv[..]), m, old(Held()), old(assoc[..])[..assoclen], old(src[..])[..length], old(authTag[..])[m..])
                case TooShort => false
                case TooLong => err == -EOVERFLOW
                case BadTag => err == -EBADMSG
                case Plain(p) => err == 0 && |p| == length - m && dst[..][..length - m] == p
    {
      hide Mac, Crypt, After, Splice, ClearCounter, Accepted;
      if length < m { return -EINVAL; }
      var n := length - m;
      if !(1 <= iv[0] <= 7) { return -EINVAL; }
      ghost var v, a, sealed, stale := iv[..], assoc[..][..assoclen], src[..][..length], authTag[..][m..];
      LoadTag(src, n, m);
      ghost var input := authTag[..] + src[..][..n];
      assert input == sealed[n..] + stale + sealed[..n];
      ZeroCounter(iv);
      err := CtrOverChain(c, authTag, dst, src, n, iv, ivAligned, layout);
      ghost var out := Crypt(c, Counter, ClearCounter(v), input);
      IvStaysLegal(c, v, input);
      assert dst[..][..n] == dst[..][0..n] == out[BLOCK..];
      err := Auth(c, iv, m, assoc, assoclen, dst, n, pieces);
      if err != 0 { return; }
      assert authTag[..m] == out[..m] && odata[..m] == odata[..][..m];
      if authTag[..m] != odata[..m] { return -EBADMSG; }
      err := 0;
    }

    /** The received tag goes into the front of the tag buffer. */
    method LoadTag(src: array<Byte>, n: nat, m: nat)
      requires Valid() && m <= BLOCK && n + m <= src.Length && src != authTag
      modifies authTag
      ensures authTag[..] == src[..][n..n + m] + old(authTag[..])[m..]
    {
      assert src[n..n + m] == src[..][n..n + m];
      Put(authTag, 0, src[n..n + m]);
    }
  }

  lemma {:induction false} FeedBlock(c: Cipher, o: seq<Byte>, held: seq<Byte>, rest: seq<Byte>, k: nat)
    requires k <= |rest| && |held| + k == BLOCK
    ensures Feed(c, o, held + rest) == Feed(c, c.enc(Xor(o, held + rest[..k])), rest[k..])
  {
    assert (held + rest)[..BLOCK] == held + rest[..k] && (held + rest)[BLOCK..] == rest[k..];
  }

  lemma {:induction false} FeedLittle(c: Cipher, o: seq<Byte>, held: seq<Byte>)
    requires |held| < BLOCK
    ensures Feed(c, o, held) == (o, held)
  {
  }
}
