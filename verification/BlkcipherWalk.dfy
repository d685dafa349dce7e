/** The walk of crypto/blkcipher.c over scattered source and destination, and the drivers of
    crypto/cbc.c and crypto/ctr.c on top of it. A scatterlist is seen as one array through a flat
    cursor; how it is cut into pages, and where it is aligned, is arbitrary. */
module BlkcipherWalks {
  import opened Bytes
  import opened Modes
  import opened ModeLoops

  const EINVAL := 22

  /** How the data is laid out: for each position the number of bytes up to the end of the page it
      is on, in the source and in the destination, and whether the two cursors are aligned there. */
  datatype Layout = Layout(inLeft: nat -> nat, outLeft: nat -> nat, aligned: nat -> bool, pageSize: nat)

  ghost predicate IsLayout(l: Layout) {
    && (forall p {:trigger l.inLeft(p)} :: 1 <= l.inLeft(p) <= l.pageSize)
    && (forall p {:trigger l.outLeft(p)} :: 1 <= l.outLeft(p) <= l.pageSize)
  }

  function Min(a: nat, b: nat): nat { if a < b then a else b }

  class Walk {
    const src: array<Byte>
    const dst: array<Byte>
    const info: array<Byte>
    const iv: array<Byte>
    const layout: Layout
    /** The granularity of the walk and the block size the algorithm insists on. */
    const blocksize: nat
    const algBlocksize: nat
    const page: array<Byte>
    const slowSrc: array<Byte>
    const slowDst: array<Byte>
    var inAt: nat
    var outAt: nat
    var total: nat
    var nbytes: nat
    var slow: bool
    var copy: bool
    /** The virtual addresses. */
    var srcVirt: array<Byte>
    var srcOff: nat
    var dstVirt: array<Byte>
    var dstOff: nat

    /** Buffers that are not the caller's are apart from all others. */
    ghost predicate Apart()
    {
      && iv !in {src, dst} && info !in {src, dst}
      && page !in {src, dst, info, iv} && slowSrc !in {src, dst, info, iv, page}
      && slowDst !in {src, dst, info, iv, page, slowSrc}
      && IsLayout(layout) && page.Length == layout.pageSize && slowSrc.Length == slowDst.Length == blocksize
      && info.Length == iv.Length && 0 < blocksize && 0 < algBlocksize
    }

    ghost predicate Fits()
      reads this
    {
      outAt + total <= src.Length && outAt + total <= dst.Length
    }

    /** A stretch of nbytes is mapped at the cursor: directly, through the page, or through the block buffers. */
    ghost predicate Mapped()
      reads this
    {
      && Apart() && Fits() && 0 < nbytes <= total
      && (if slow then
            && srcVirt == slowSrc && dstVirt == slowDst && srcOff == dstOff == 0 && inAt == outAt + nbytes
            && nbytes <= blocksize
          else if copy then
            srcVirt == page && dstVirt == page && srcOff == dstOff == 0 && inAt == outAt && nbytes <= page.Length
          else
            srcVirt == src && dstVirt == dst && srcOff == dstOff == inAt == outAt)
    }

    /** And the mapped source bytes are those of the data. */
    ghost predicate Ready()
      reads this, src, page, slowSrc
    {
      && Mapped()
      && (slow ==> slowSrc[..][0..nbytes] == src[..][outAt..outAt + nbytes])
      && (!slow && copy ==> page[..][0..nbytes] == src[..][outAt..outAt + nbytes])
    }

    /** blkcipher_walk_init and the first half of blkcipher_walk_first. */
    constructor (dst: array<Byte>, src: array<Byte>, nbytes: nat, info: array<Byte>, ivAligned: bool,
                 layout: Layout, blocksize: nat, algBlocksize: nat)
      requires nbytes <= src.Length && nbytes <= dst.Length && info !in {src, dst}
      requires IsLayout(layout) && 0 < blocksize && 0 < algBlocksize
      ensures this.src == src && this.dst == dst && this.info == info && this.layout == layout
      ensures this.blocksize == blocksize && this.algBlocksize == algBlocksize
      ensures inAt == outAt == 0 && total == nbytes == this.nbytes && Apart() && Fits()
      ensures fresh(page) && fresh(slowSrc) && fresh(slowDst) && (iv == info || fresh(iv)) && iv[..] == info[..]
    {
      this.src, this.dst, this.info, this.layout := src, dst, info, layout;
      this.blocksize, this.algBlocksize := blocksize, algBlocksize;
      var copied := new Byte[info.Length](i requires 0 <= i < info.Length reads info => info[i]);
      iv := if ivAligned then info else copied;
      page := new Byte[layout.pageSize](_ => 0);
      slowSrc := new Byte[blocksize](_ => 0);
      slowDst := new Byte[blocksize](_ => 0);
      inAt, outAt, total, this.nbytes, slow, copy := 0, 0, nbytes, nbytes, false, false;
      srcVirt, srcOff, dstVirt, dstOff := src, 0, dst, 0;
    }

    /** The end of blkcipher_walk_done: the IV goes back to the caller. */
    method Finish(code: int) returns (err: int)
      requires Apart()
      modifies info, `total, `nbytes
      ensures err == code && total == 0 && nbytes == 0 && info[..] == old(iv[..]) == iv[..]
    {
      total, nbytes := 0, 0;
      HandBack();
      err := code;
    }

    method HandBack()
      requires Apart()
      modifies info
      ensures info[..] == old(iv[..]) == iv[..]
    {
      if iv != info {
        SpliceAll(info[..], iv[..]);
        Put(info, 0, iv[..]);
      }
    }

    /** blkcipher_walk_next: maps the next stretch directly, through a page, or, when no whole
        block is contiguous, through a pair of block buffers. */
    method WalkNext() returns (err: int)
      requires Apart() && Fits() && total > 0 && inAt == outAt
      modifies this, page, slowSrc, info
      ensures outAt == old(outAt)
      ensures total == (if old(total) < algBlocksize then 0 else old(total))
      ensures old(total) < algBlocksize ==> err == -EINVAL && nbytes == 0 && info[..] == iv[..] == old(iv[..])
      ensures old(total) >= algBlocksize ==>
                err == 0 && Ready() && Min(blocksize, total) <= nbytes && info[..] == old(info[..]) && iv[..] == old(iv[..])
    {
      if total < algBlocksize {
        err := Finish(-EINVAL);
        return;
      }
      slow, copy := false, !layout.aligned(outAt);
      var bsize := Min(blocksize, total);
      var n := Min(Min(total, layout.inLeft(inAt)), layout.outLeft(outAt));
      if n < bsize {
        NextSlow(bsize);
      } else if copy {
        NextCopy(n);
      } else {
        NextFast(n);
      }
      err := 0;
    }

    method NextSlow(bsize: nat)
      requires Apart() && Fits() && inAt == outAt && 0 < bsize <= total && bsize <= blocksize
      modifies `inAt, `nbytes, `slow, `srcVirt, `srcOff, `dstVirt, `dstOff, slowSrc
      ensures Ready() && nbytes == bsize
    {
      CopyIn(slowSrc, bsize);
      srcVirt, srcOff, dstVirt, dstOff := slowSrc, 0, slowDst, 0;
      inAt, nbytes, slow := inAt + bsize, bsize, true;
    }

    method NextCopy(n: nat)
      requires Apart() && Fits() && inAt == outAt && 0 < n <= total && n <= page.Length && copy && !slow
      modifies `nbytes, `srcVirt, `srcOff, `dstVirt, `dstOff, page
      ensures Ready() && nbytes == n
    {
      nbytes := n;
      CopyIn(page, n);
      srcVirt, srcOff, dstVirt, dstOff := page, 0, page, 0;
    }

    method NextFast(n: nat)
      requires Apart() && Fits() && inAt == outAt && 0 < n <= total && !copy && !slow
      modifies `nbytes, `srcVirt, `srcOff, `dstVirt, `dstOff
      ensures Ready() && nbytes == n
    {
      nbytes := n;
      srcVirt, srcOff, dstVirt, dstOff := src, inAt, dst, outAt;
    }

    method CopyIn(buf: array<Byte>, n: nat)
      requires buf != src && buf != iv && buf != info && n <= buf.Length && inAt + n <= src.Length
      modifies buf
      ensures buf[..][0..n] == src[..][inAt..inAt + n]
    {
      assert src[inAt..inAt + n] == src[..][inAt..inAt + n];
      Put(buf, 0, src[inAt..inAt + n]);
    }

    /** blkcipher_walk_done: `code` is an error, or how many bytes of the stretch were not handled.  An error
        ends the walk and hands the IV back; a slow stretch, which is one block, has to be handled whole. */
    method WalkDone(code: int) returns (err: int)
      requires Mapped() && code <= nbytes
      modifies this, dst, page, slowSrc, info
      ensures iv[..] == old(iv[..])
      ensures code < 0 ==>
                err == code && nbytes == total == 0 && dst[..] == old(dst[..]) && outAt == old(outAt) && info[..] == iv[..]
      ensures code > 0 && old(slow) ==>
                err == -EINVAL && nbytes == old(nbytes) && dst[..] == old(dst[..]) && outAt == old(outAt) && info[..] == iv[..]
      ensures code >= 0 && !(code > 0 && old(slow)) ==>
                var rest := old(total - nbytes) + code;
                && outAt == old(outAt + nbytes) - code
                && dst[..] == (if old(slow || copy) then Splice(old(dst[..]), old(outAt), old(dstVirt[..])[0..old(nbytes) - code]) else old(dst[..]))
                && (rest == 0 ==> err == 0 && nbytes == total == 0)
                && (0 < rest < algBlocksize ==> err == -EINVAL && nbytes == total == 0)
                && (rest >= algBlocksize ==> err == 0 && Ready() && total == rest && Min(blocksize, total) <= nbytes)
                && (nbytes == 0 ==> info[..] == iv[..])
    {
      if code < 0 {
        err := Finish(code);
      } else if code > 0 && slow {
        HandBack();
        err := -EINVAL;
      } else {
        err := StretchDone(code);
      }
    }

    method StretchDone(left: nat) returns (err: int)
      requires Mapped() && left <= nbytes && (slow ==> left == 0)
      modifies this, dst, page, slowSrc, info
      ensures outAt == old(outAt + nbytes - left)
      ensures dst[..] == if old(slow || copy) then Splice(old(dst[..]), old(outAt), old(dstVirt[..])[0..old(nbytes) - left]) else old(dst[..])
      ensures var rest := old(total - nbytes) + left;
              && (rest == 0 ==> err == 0 && nbytes == total == 0)
              && (0 < rest < algBlocksize ==> err == -EINVAL && nbytes == total == 0)
              && (rest >= algBlocksize ==> err == 0 && Ready() && total == rest && Min(blocksize, total) <= nbytes)
      ensures iv[..] == old(iv[..])
      ensures nbytes == 0 ==> info[..] == iv[..]
    {
      var n := nbytes - left;
      if slow {
        assert slowDst[0..n] == slowDst[..][0..n];
        Put(dst, outAt, slowDst[0..n]);
      } else {
        if copy {
          assert page[0..n] == page[..][0..n];
          Put(dst, outAt, page[0..n]);
        }
        inAt := inAt + n;
      }
      outAt := outAt + n;
      total := total - n;
      nbytes := total;
      if nbytes != 0 {
        err := WalkNext();
      } else {
        err := Finish(0);
      }
    }
  }

  /** One mapped stretch: in place when source and destination are the same address, else from one to the other. */
  method Stretch(c: Cipher, m: Mode, w: Walk, ghost bits: nat) returns (left: nat)
    requires w.Ready() && IsCipher(c) && c.bsize == w.iv.Length <= w.nbytes && (m == CbcDecrypt ==> c.bsize == Pow2(bits))
    modifies w.dstVirt, w.iv
    ensures left < c.bsize
    ensures var o := old(w.outAt);
            Done(c, m, old(w.iv[..]), old(w.src[..])[o..o + w.nbytes], old(w.dstVirt[..]), w.dstOff, w.dstVirt[..], w.iv[..], w.nbytes - left)
  {
    hide Done;
    var inPlace := w.srcVirt == w.dstVirt && w.srcOff == w.dstOff;
    match m {
      case CbcEncrypt =>
        if inPlace { left := CbcEncryptInPlace(c, w.dstVirt, w.dstOff, w.nbytes, w.iv); }
        else { left := CbcEncryptSegment(c, w.srcVirt, w.srcOff, w.dstVirt, w.dstOff, w.nbytes, w.iv); }
      case CbcDecrypt =>
        if inPlace { left := CbcDecryptInPlace(c, w.dstVirt, w.dstOff, w.nbytes, w.iv, bits); }
        else { left := CbcDecryptSegment(c, w.srcVirt, w.srcOff, w.dstVirt, w.dstOff, w.nbytes, w.iv); }
      case Counter =>
        if inPlace { left := CounterInPlace(c, w.dstVirt, w.dstOff, w.nbytes, w.iv); }
        else { left := CounterSegment(c, w.srcVirt, w.srcOff, w.dstVirt, w.dstOff, w.nbytes, w.iv); }
    }
  }

  lemma {:induction false} BlocksAdd(a: nat, b: nat, n: nat)
    requires n > 0 && Blocks(a, n) && Blocks(b, n)
    ensures Blocks(a + b, n)
  {
    if a > 0 { BlocksAdd(a - n, b, n); }
  }

  /** A stretch on top of what was done before it. */
  lemma DoneMore(c: Cipher, m: Mode, iv0: seq<Byte>, data: seq<Byte>, was: seq<Byte>, now: seq<Byte>, iv: seq<Byte>, k: nat,
                 h: nat, next: seq<Byte>, iv': seq<Byte>)
    requires Done(c, m, iv0, data, was, 0, now, iv, k) && k + h <= |data| && Blocks(h, c.bsize) && |iv'| == c.bsize
    requires var image := Crypt(c, m, iv, data[k..k + h]); |image| == h && next == Splice(now, k, image)
    requires iv' == After(c, m, iv, data[k..k + h])
    ensures Done(c, m, iv0, data, was, 0, next, iv', k + h)
  {
    hide Crypt, After, Splice, Blocks;
    assert data[..k + h] == data[..k] + data[k..k + h];
    CryptAppend(c, m, iv0, data[..k], data[k..k + h]);
    BlocksAdd(k, h, c.bsize);
    SpliceAppend(was, 0, Crypt(c, m, iv0, data[..k]), Crypt(c, m, iv, data[k..k + h]));
  }

  /** Everything before the cursor is done, everything from it on is still there. */
  ghost predicate Walked(c: Cipher, m: Mode, w: Walk, iv0: seq<Byte>, data: seq<Byte>, was: seq<Byte>)
    reads w, w.dst, w.src, w.iv
  {
    && Done(c, m, iv0, data, was, 0, w.dst[..], w.iv[..], w.outAt)
    && |data| <= w.src.Length && w.src[..][w.outAt..|data|] == data[w.outAt..]
  }

  /** What is mapped is the next part of the data. */
  lemma MappedData(w: Walk, data: seq<Byte>, n: nat)
    requires w.outAt + n <= |data| <= w.src.Length && w.src[..][w.outAt..|data|] == data[w.outAt..]
    ensures w.src[..][w.outAt..w.outAt + n] == data[w.outAt..w.outAt + n]
  {
    forall i | w.outAt <= i < w.outAt + n ensures w.src[..][i] == data[i] {
      assert w.src[..][w.outAt..|data|][i - w.outAt] == data[w.outAt..][i - w.outAt];
    }
  }

  /** What writing the first h bytes at the cursor leaves of the source. */
  lemma TailStays(was: seq<Byte>, k: nat, x: seq<Byte>, data: seq<Byte>)
    requires k + |x| <= |data| <= |was| && was[k..|data|] == data[k..]
    ensures Splice(was, k, x)[k + |x|..|data|] == data[k + |x|..]
  {
    SpliceRest(was, k, x, k + |x|, |data|);
    TailShrinks(was, k, |x|, data);
  }

  lemma TailShrinks(now: seq<Byte>, k: nat, h: nat, data: seq<Byte>)
    requires k + h <= |data| <= |now| && now[k..|data|] == data[k..]
    ensures now[k + h..|data|] == data[k + h..]
  {
  }

  /** Done says what it put where. */
  lemma DoneImage(c: Cipher, m: Mode, iv0: seq<Byte>, data: seq<Byte>, was: seq<Byte>, d: nat, now: seq<Byte>, iv: seq<Byte>, k: nat)
    requires Done(c, m, iv0, data, was, d, now, iv, k)
    ensures k <= |data| && c.bsize > 0 && Blocks(k, c.bsize) && |iv| == c.bsize
    ensures |Crypt(c, m, iv0, data[..k])| == k && iv == After(c, m, iv0, data[..k])
    ensures d + k <= |was| && now == Splice(was, d, Crypt(c, m, iv0, data[..k])) && now[d..d + k] == Crypt(c, m, iv0, data[..k])
  {
  }

  /** Map, transform, unmap: the h bytes handled are replaced by their image. */
  method Turn(c: Cipher, m: Mode, w: Walk, ghost bits: nat, ghost stretch: seq<Byte>) returns (err: int, ghost h: nat)
    requires w.Ready() && IsCipher(c) && c.bsize == w.iv.Length <= w.nbytes && (m == CbcDecrypt ==> c.bsize == Pow2(bits))
    requires w.blocksize == c.bsize && stretch == w.src[..][w.outAt..w.outAt + w.nbytes]
    modifies w, w.dst, w.page, w.slowSrc, w.slowDst, w.iv, w.info
    ensures 0 < h <= |stretch| && Blocks(h, c.bsize) && w.outAt == old(w.outAt) + h
    ensures var image := Crypt(c, m, old(w.iv[..]), stretch[..h]);
            |image| == h && w.dst[..] == Splice(old(w.dst[..]), old(w.outAt), image)
    ensures w.iv[..] == After(c, m, old(w.iv[..]), stretch[..h]) && |w.iv[..]| == c.bsize
    ensures w.nbytes == 0 ==> w.info[..] == w.iv[..]
    ensures var rest := old(w.total) - h;
            && (rest == 0 ==> err == 0 && w.nbytes == 0)
            && (0 < rest < w.algBlocksize ==> err == -EINVAL && w.nbytes == 0)
            && (rest >= w.algBlocksize ==> err == 0 && w.Ready() && w.total == rest && Min(c.bsize, rest) <= w.nbytes)
  {
    hide Done, Crypt, After, Blocks, Splice;
    ghost var n, iv, before, off := w.nbytes, w.iv[..], w.dstVirt[..], w.dstOff;
    var left := Stretch(c, m, w, bits);
    h := n - left;
    DoneImage(c, m, iv, stretch, before, off, w.dstVirt[..], w.iv[..], h);
    if w.slow { OneBlock(left, c.bsize); }
    ghost var image := Crypt(c, m, iv, stretch[..h]);
    assert if w.slow || w.copy then w.dstVirt[..][0..h] == image else w.dst[..] == Splice(old(w.dst[..]), old(w.outAt), image);
    err := w.WalkDone(left);
  }

  /** One turn of a driver's loop. */
  method Advance(c: Cipher, m: Mode, w: Walk, ghost bits: nat, ghost iv0: seq<Byte>, ghost data: seq<Byte>, ghost was: seq<Byte>)
    returns (err: int)
    requires w.Ready() && IsCipher(c) && c.bsize == w.iv.Length <= w.nbytes && (m == CbcDecrypt ==> c.bsize == Pow2(bits))
    requires w.blocksize == c.bsize && Walked(c, m, w, iv0, data, was) && w.outAt + w.total == |data|
    modifies w, w.dst, w.page, w.slowSrc, w.slowDst, w.iv, w.info
    ensures old(w.outAt) < w.outAt <= |data| && Walked(c, m, w, iv0, data, was)
    ensures w.nbytes == 0 ==> w.info[..] == w.iv[..]
    ensures var rest := |data| - w.outAt;
            && (rest == 0 ==> err == 0 && w.nbytes == 0)
            && (0 < rest < w.algBlocksize ==> err == -EINVAL && w.nbytes == 0)
            && (rest >= w.algBlocksize ==> err == 0 && w.Ready() && w.total == rest && Min(c.bsize, rest) <= w.nbytes)
  {
    hide Done, Crypt, After, Blocks, Splice;
    ghost var k, n, now, iv := w.outAt, w.nbytes, w.dst[..], w.iv[..];
    ghost var stretch := data[k..k + n];
    MappedData(w, data, n);
    ghost var h;
    err, h := Turn(c, m, w, bits, stretch);
    assert stretch[..h] == data[k..k + h];
    DoneMore(c, m, iv0, data, was, now, iv, k, h, w.dst[..], w.iv[..]);
    if w.src == w.dst { TailStays(now, k, Crypt(c, m, iv, stretch[..h]), data); } else { TailShrinks(w.src[..], k, h, data); }
  }

  lemma OneBlock(left: nat, b: nat)
    requires left < b && Blocks(b - left, b)
    ensures left == 0
  {
  }

  // ---------- the drivers ----------

  lemma {:induction false} HandledUnique(n: nat, k: nat, b: nat)
    requires b > 0 && Blocks(k, b) && k <= n < k + b
    ensures Handled(n, b) == k && (n == k <==> n % b == 0)
  {
    HandledUniquely(n, k, b);
    BlocksAreMultiples(k, b);
    LeftOver(n, k, b);
  }

  lemma {:induction false} HandledUniquely(n: nat, k: nat, b: nat)
    requires b > 0 && Blocks(k, b) && k <= n < k + b
    ensures Handled(n, b) == k
  {
    if k > 0 { HandledUniquely(n - b, k - b, b); }
  }

  lemma NothingWalked(c: Cipher, m: Mode, w: Walk, iv0: seq<Byte>, data: seq<Byte>, was: seq<Byte>)
    requires IsCipher(c) && |iv0| == c.bsize && w.outAt == 0 && w.dst[..] == was && w.iv[..] == iv0
    requires |data| <= w.src.Length && |data| <= |was| && data == w.src[..][..|data|]
    ensures Walked(c, m, w, iv0, data, was)
  {
  }

  /** crypto_cbc_encrypt and crypto_cbc_decrypt, over any layout of the data: every whole block is
      transformed as flat chaining would, bytes of a last short block are untouched, and the
      call fails exactly when there are such bytes. */
  method CbcCrypt(c: Cipher, m: Mode, dst: array<Byte>, src: array<Byte>, nbytes: nat, info: array<Byte>,
                  ivAligned: bool, layout: Layout, ghost bits: nat) returns (err: int)
    requires IsCipher(c) && m != Counter && c.bsize == info.Length == Pow2(bits) && IsLayout(layout)
    requires nbytes <= src.Length && nbytes <= dst.Length && info !in {src, dst}
    modifies dst, info
    ensures Done(c, m, old(info[..]), old(src[..])[..nbytes], old(dst[..]), 0, dst[..], info[..], Handled(nbytes, c.bsize))
    ensures err == if nbytes % c.bsize == 0 then 0 else -EINVAL
  {
    hide Done, Crypt, After, Blocks, Handled, Pow2;
    ghost var iv0, data, was := info[..], src[..][..nbytes], dst[..];
    var w := new Walk(dst, src, nbytes, info, ivAligned, layout, c.bsize, c.bsize);
    NothingWalked(c, m, w, iv0, data, was);
    err := 0;
    if w.total != 0 { err := w.WalkNext(); }
    while w.nbytes != 0
      invariant w.outAt <= nbytes && Walked(c, m, w, iv0, data, was)
      invariant w.nbytes != 0 ==> w.Ready() && w.outAt + w.total == nbytes && c.bsize <= w.nbytes
      invariant w.nbytes == 0 ==> info[..] == w.iv[..] && nbytes - w.outAt < c.bsize && err == if w.outAt == nbytes then 0 else -EINVAL
      decreases nbytes - w.outAt
    {
      err := Advance(c, m, w, bits, iv0, data, was);
    }
    DoneImage(c, m, iv0, data, was, 0, dst[..], w.iv[..], w.outAt);
    HandledUnique(nbytes, w.outAt, c.bsize);
  }

  /** crypto_ctr_crypt, over any layout and for any length. */
  method CtrCrypt(c: Cipher, dst: array<Byte>, src: array<Byte>, nbytes: nat, info: array<Byte>,
                  ivAligned: bool, layout: Layout) returns (err: int)
    requires IsCipher(c) && c.bsize == info.Length && IsLayout(layout)
    requires nbytes <= src.Length && nbytes <= dst.Length && info !in {src, dst}
    modifies dst, info
    ensures err == 0
    ensures var data := old(src[..])[..nbytes]; var image := Crypt(c, Counter, old(info[..]), data);
            |image| == nbytes && dst[..] == Splice(old(dst[..]), 0, image) && info[..] == After(c, Counter, old(info[..]), data)
  {
    hide Done, Crypt, After, Blocks, Splice;
    ghost var iv0, data, was := info[..], src[..][..nbytes], dst[..];
    var w := new Walk(dst, src, nbytes, info, ivAligned, layout, c.bsize, 1);
    NothingWalked(c, Counter, w, iv0, data, was);
    err := 0;
    if w.total != 0 { err := w.WalkNext(); }
    while w.nbytes >= c.bsize
      invariant w.outAt <= nbytes && Walked(c, Counter, w, iv0, data, was) && err == 0
      invariant w.nbytes != 0 ==> w.Ready() && w.outAt + w.total == nbytes && Min(c.bsize, w.total) <= w.nbytes
      invariant w.nbytes == 0 ==> info[..] == w.iv[..] && w.outAt == nbytes
      decreases nbytes - w.outAt
    {
      err := Advance(c, Counter, w, 0, iv0, data, was);
    }
    if w.nbytes != 0 {
      err := LastBytes(c, w, iv0, data, was);
    } else {
      DoneImage(c, Counter, iv0, data, was, 0, dst[..], w.iv[..], w.outAt);
      assert data[..nbytes] == data;
    }
  }

  /** The end of crypto_ctr_crypt: fewer bytes than a block are left. */
  method LastBytes(c: Cipher, w: Walk, ghost iv0: seq<Byte>, ghost data: seq<Byte>, ghost was: seq<Byte>) returns (err: int)
    requires w.Ready() && IsCipher(c) && c.bsize == w.iv.Length && 0 < w.nbytes < c.bsize
    requires Walked(c, Counter, w, iv0, data, was) && w.outAt + w.nbytes == |data| && w.nbytes == w.total
    modifies w, w.dst, w.page, w.slowSrc, w.slowDst, w.iv, w.info
    ensures err == 0 && w.info[..] == After(c, Counter, iv0, data)
    ensures var image := Crypt(c, Counter, iv0, data); |image| == |data| <= |was| && w.dst[..] == Splice(was, 0, image)
  {
    hide Done, Crypt, After, Blocks, Splice;
    ghost var k, n, now, iv := w.outAt, w.nbytes, w.dst[..], w.iv[..];
    MappedData(w, data, n);
    assert data[k..] == data[k..k + n];
    err := FinalTurn(c, w, data[k..]);
    DoneLast(c, iv0, data, was, now, iv, k);
  }

  method FinalTurn(c: Cipher, w: Walk, ghost tail: seq<Byte>) returns (err: int)
    requires w.Ready() && IsCipher(c) && c.bsize == w.iv.Length && 0 < w.nbytes < c.bsize
    requires w.nbytes == w.total && tail == w.src[..][w.outAt..w.outAt + w.nbytes]
    modifies w, w.dst, w.page, w.slowSrc, w.slowDst, w.iv, w.info
    ensures err == 0 && w.info[..] == After(c, Counter, old(w.iv[..]), tail)
    ensures var image := Crypt(c, Counter, old(w.iv[..]), tail);
            |image| == |tail| && w.dst[..] == Splice(old(w.dst[..]), old(w.outAt), image)
  {
    hide Crypt, After, Splice;
    CounterFinal(c, w.srcVirt, w.srcOff, w.dstVirt, w.dstOff, w.nbytes, w.iv);
    assert w.dstVirt[..][w.dstOff..w.dstOff + w.nbytes] == Crypt(c, Counter, old(w.iv[..]), tail);
    err := w.WalkDone(0);
  }

  lemma DoneLast(c: Cipher, iv0: seq<Byte>, data: seq<Byte>, was: seq<Byte>, now: seq<Byte>, iv: seq<Byte>, k: nat)
    requires Done(c, Counter, iv0, data, was, 0, now, iv, k)
    requires |Crypt(c, Counter, iv, data[k..])| == |data| - k
    ensures |Crypt(c, Counter, iv0, data)| == |data| <= |was|
    ensures Splice(was, 0, Crypt(c, Counter, iv0, data)) == Splice(now, k, Crypt(c, Counter, iv, data[k..]))
    ensures After(c, Counter, iv0, data) == After(c, Counter, iv, data[k..])
  {
    hide Crypt, After, Blocks, Splice;
    assert data == data[..k] + data[k..];
    CryptAppend(c, Counter, iv0, data[..k], data[k..]);
    SpliceAppend(was, 0, Crypt(c, Counter, iv0, data[..k]), Crypt(c, Counter, iv, data[k..]));
  }
}
