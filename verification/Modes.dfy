/** Cipher block chaining and counter mode on flat byte strings (sections 6.2 and 6.5 of NIST
    SP 800-38A), for any block cipher. */
module Modes {
  import opened Bytes

  datatype Cipher = Cipher(bsize: nat, enc: seq<Byte> -> seq<Byte>, dec: seq<Byte> -> seq<Byte>)

  /** Decryption of a block undoes its encryption. */
  ghost predicate IsCipher(c: Cipher) {
    && c.bsize > 0
    && (forall x {:trigger c.enc(x)} :: |x| == c.bsize ==> |c.enc(x)| == c.bsize && c.dec(c.enc(x)) == x)
    && (forall x {:trigger c.dec(x)} :: |x| == c.bsize ==> |c.dec(x)| == c.bsize)
  }

  datatype Mode = CbcEncrypt | CbcDecrypt | Counter

  /** One block under a mode, and the chaining value it leaves. */
  function Out(c: Cipher, m: Mode, iv: seq<Byte>, block: seq<Byte>): seq<Byte> {
    match m
    case CbcEncrypt => c.enc(Xor(block, iv))
    case CbcDecrypt => Xor(c.dec(block), iv)
    case Counter => Xor(block, c.enc(iv))
  }

  function Next(c: Cipher, m: Mode, iv: seq<Byte>, block: seq<Byte>): seq<Byte> {
    match m
    case CbcEncrypt => Out(c, m, iv, block)
    case CbcDecrypt => block
    case Counter => Inc(iv)
  }

  /** A whole message. Counter mode also covers a last short block; chaining leaves it alone. */
  function Crypt(c: Cipher, m: Mode, iv: seq<Byte>, data: seq<Byte>): seq<Byte>
    requires c.bsize > 0
    decreases |data|
  {
    if |data| < c.bsize then (if m == Counter then Xor(data, c.enc(iv)) else [])
    else Out(c, m, iv, data[..c.bsize]) + Crypt(c, m, Next(c, m, iv, data[..c.bsize]), data[c.bsize..])
  }

  /** The chaining value after a whole message. */
  function After(c: Cipher, m: Mode, iv: seq<Byte>, data: seq<Byte>): seq<Byte>
    requires c.bsize > 0
    decreases |data|
  {
    if |data| < c.bsize then (if m == Counter && data != [] then Inc(iv) else iv)
    else After(c, m, Next(c, m, iv, data[..c.bsize]), data[c.bsize..])
  }

  /** n is a whole number of blocks of b. */
  predicate Blocks(n: nat, b: nat)
    requires b > 0
  {
    n == 0 || (n >= b && Blocks(n - b, b))
  }

  lemma {:induction false} BlocksAreMultiples(n: nat, b: nat)
    requires b > 0
    ensures Blocks(n, b) <==> n % b == 0
  {
    if n >= b {
      BlocksAreMultiples(n - b, b);
      OneLess(n, b);
    } else {
      Below(n, b);
    }
  }

  lemma OneLess(n: nat, b: nat)
    requires 0 < b <= n
    ensures (n - b) % b == n % b
  {
    var q, r := n / b, n % b;
    assert n == q * b + r && q >= 1;
    assert (q - 1) * b == q * b - b;
    Remainder(n - b, b, q - 1, r);
  }

  lemma BlockLengths(c: Cipher, m: Mode, iv: seq<Byte>, block: seq<Byte>)
    requires IsCipher(c) && |iv| == |block| == c.bsize
    ensures |Out(c, m, iv, block)| == |Next(c, m, iv, block)| == c.bsize
  {
  }

  lemma {:induction false} CryptLengths(c: Cipher, m: Mode, iv: seq<Byte>, data: seq<Byte>)
    requires IsCipher(c) && |iv| == c.bsize && (m == Counter || Blocks(|data|, c.bsize))
    ensures |Crypt(c, m, iv, data)| == |data| && |After(c, m, iv, data)| == c.bsize
    decreases |data|
  {
    if |data| >= c.bsize {
      BlockLengths(c, m, iv, data[..c.bsize]);
      CryptLengths(c, m, Next(c, m, iv, data[..c.bsize]), data[c.bsize..]);
    }
  }

  /** Cutting a message after a whole number of blocks changes nothing. */
  lemma {:induction false} CryptAppend(c: Cipher, m: Mode, iv: seq<Byte>, a: seq<Byte>, b: seq<Byte>)
    requires c.bsize > 0 && Blocks(|a|, c.bsize)
    ensures Crypt(c, m, iv, a + b) == Crypt(c, m, iv, a) + Crypt(c, m, After(c, m, iv, a), b)
    ensures After(c, m, iv, a + b) == After(c, m, After(c, m, iv, a), b)
    decreases |a|
  {
    hide Crypt, After, Out, Next, Blocks;
    if a == [] {
      assert a + b == b;
      CryptNothing(c, m, iv);
    } else {
      var h, t := Cut(c, a);
      assert a + b == h + (t + b);
      CryptCons(c, m, iv, h, t);
      CryptCons(c, m, iv, h, t + b);
      CryptAppend(c, m, Next(c, m, iv, h), t, b);
      SeqAssoc(Out(c, m, iv, h), Crypt(c, m, Next(c, m, iv, h), t), Crypt(c, m, After(c, m, iv, a), b));
    }
  }

  lemma SeqAssoc(a: seq<Byte>, b: seq<Byte>, c: seq<Byte>)
    ensures (a + b) + c == a + (b + c)
  {
  }

  /** One block at a time. */
  lemma {:induction false} CryptCons(c: Cipher, m: Mode, iv: seq<Byte>, h: seq<Byte>, t: seq<Byte>)
    requires c.bsize > 0 && |h| == c.bsize
    ensures Crypt(c, m, iv, h + t) == Out(c, m, iv, h) + Crypt(c, m, Next(c, m, iv, h), t)
    ensures After(c, m, iv, h + t) == After(c, m, Next(c, m, iv, h), t)
  {
  }

  lemma CryptOneBlock(c: Cipher, m: Mode, iv: seq<Byte>, block: seq<Byte>)
    requires c.bsize > 0 && |block| == c.bsize && IsCipher(c) && |iv| == c.bsize
    ensures Crypt(c, m, iv, block) == Out(c, m, iv, block) && After(c, m, iv, block) == Next(c, m, iv, block)
  {
    assert block[..c.bsize] == block && block[c.bsize..] == [];
    assert Crypt(c, m, Next(c, m, iv, block), []) == [];
  }

  /** Decryption undoes encryption, and leaves the same chaining value. */
  lemma {:induction false} DecryptUndoesEncrypt(c: Cipher, iv: seq<Byte>, data: seq<Byte>)
    requires IsCipher(c) && |iv| == c.bsize && Blocks(|data|, c.bsize)
    ensures Crypt(c, CbcDecrypt, iv, Crypt(c, CbcEncrypt, iv, data)) == data
    ensures After(c, CbcDecrypt, iv, Crypt(c, CbcEncrypt, iv, data)) == After(c, CbcEncrypt, iv, data)
    decreases |data|
  {
    hide XorByte, Crypt, After, Out, Blocks;
    if data == [] {
      CryptNothing(c, CbcEncrypt, iv);
      CryptNothing(c, CbcDecrypt, iv);
    } else {
      var h, t := Cut(c, data);
      var ct, rest := Out(c, CbcEncrypt, iv, h), Crypt(c, CbcEncrypt, Out(c, CbcEncrypt, iv, h), t);
      CryptCons(c, CbcEncrypt, iv, h, t);
      BlockUndone(c, iv, h);
      CryptCons(c, CbcDecrypt, iv, ct, rest);
      DecryptUndoesEncrypt(c, ct, t);
    }
  }

  lemma {:induction false} CryptNothing(c: Cipher, m: Mode, iv: seq<Byte>)
    requires c.bsize > 0
    ensures Crypt(c, m, iv, []) == [] && After(c, m, iv, []) == iv
  {
  }

  lemma {:induction false} Cut(c: Cipher, data: seq<Byte>) returns (h: seq<Byte>, t: seq<Byte>)
    requires c.bsize > 0 && (|data| >= c.bsize || (data != [] && Blocks(|data|, c.bsize)))
    ensures data == h + t && |h| == c.bsize && (Blocks(|data|, c.bsize) ==> Blocks(|t|, c.bsize))
  {
    h, t := data[..c.bsize], data[c.bsize..];
  }

  lemma BlockUndone(c: Cipher, iv: seq<Byte>, h: seq<Byte>)
    requires IsCipher(c) && |iv| == |h| == c.bsize
    ensures var ct := Out(c, CbcEncrypt, iv, h); |ct| == c.bsize && Out(c, CbcDecrypt, iv, ct) == h
    ensures var ct := Out(c, Counter, iv, h); |ct| == c.bsize && Out(c, Counter, iv, ct) == h
  {
    XorCancel(h, iv);
    XorCancel(h, c.enc(iv));
  }

  /** A second pass in counter mode restores the message, whatever its length. */
  lemma {:induction false} CounterUndoesItself(c: Cipher, iv: seq<Byte>, data: seq<Byte>)
    requires IsCipher(c) && |iv| == c.bsize
    ensures Crypt(c, Counter, iv, Crypt(c, Counter, iv, data)) == data
    decreases |data|
  {
    hide XorByte, Out, Inc;
    if |data| < c.bsize {
      XorCancel(data, c.enc(iv));
    } else {
      var h, t := Cut(c, data);
      var ct, rest := Out(c, Counter, iv, h), Crypt(c, Counter, Inc(iv), t);
      hide Crypt;
      CryptCons(c, Counter, iv, h, t);
      BlockUndone(c, iv, h);
      CryptCons(c, Counter, iv, ct, rest);
      IncLength(iv);
      CounterUndoesItself(c, Inc(iv), t);
    }
  }

  /** What chaining carries over: the last block of ciphertext, or the IV. */
  lemma {:induction false} CarriedOver(c: Cipher, iv: seq<Byte>, data: seq<Byte>)
    requires IsCipher(c) && |iv| == c.bsize && Blocks(|data|, c.bsize)
    ensures data == [] ==> After(c, CbcEncrypt, iv, data) == After(c, CbcDecrypt, iv, data) == iv
    ensures data != [] ==>
              && |Crypt(c, CbcEncrypt, iv, data)| == |data| >= c.bsize
              && After(c, CbcEncrypt, iv, data) == Crypt(c, CbcEncrypt, iv, data)[|data| - c.bsize..]
              && After(c, CbcDecrypt, iv, data) == data[|data| - c.bsize..]
    decreases |data|
  {
    CryptLengths(c, CbcEncrypt, iv, data);
    if data != [] {
      var h, t := data[..c.bsize], data[c.bsize..];
      var ct := Out(c, CbcEncrypt, iv, h);
      assert data == h + t;
      CarriedOver(c, ct, t);
      CarriedOver(c, h, t);
    }
  }

  /** Section 6.2 of NIST SP 800-38A, for the block that starts at i: it is combined with the
      ciphertext block before it, the first one with the IV. */
  lemma {:induction false} ChainedBlock(c: Cipher, iv: seq<Byte>, data: seq<Byte>, i: nat)
    requires IsCipher(c) && |iv| == c.bsize && Blocks(|data|, c.bsize) && Blocks(i, c.bsize) && i + c.bsize <= |data|
    ensures var out := Crypt(c, CbcEncrypt, iv, data);
            && |out| == |data|
            && out[i..i + c.bsize] == c.enc(Xor(data[i..i + c.bsize], if i == 0 then iv else out[i - c.bsize..i]))
    ensures var out := Crypt(c, CbcDecrypt, iv, data);
            && |out| == |data|
            && out[i..i + c.bsize] == Xor(c.dec(data[i..i + c.bsize]), if i == 0 then iv else data[i - c.bsize..i])
  {
    ChainedAt(c, CbcEncrypt, iv, data, i);
    ChainedAt(c, CbcDecrypt, iv, data, i);
    CarriedOver(c, iv, data[..i]);
    hide Crypt, After, Blocks, XorByte;
    if i > 0 { assert data[..i][i - c.bsize..] == data[i - c.bsize..i]; }
  }

  lemma {:induction false} ChainedAt(c: Cipher, m: Mode, iv: seq<Byte>, data: seq<Byte>, i: nat)
    requires IsCipher(c) && |iv| == c.bsize && Blocks(|data|, c.bsize) && Blocks(i, c.bsize) && i + c.bsize <= |data|
    ensures var out, a := Crypt(c, m, iv, data), data[..i];
            && |out| == |data| && |Crypt(c, m, iv, a)| == i
            && out[i..i + c.bsize] == Out(c, m, After(c, m, iv, a), data[i..i + c.bsize])
            && (i >= c.bsize ==> out[i - c.bsize..i] == Crypt(c, m, iv, a)[i - c.bsize..])
  {
    hide Crypt, After, Out, Blocks;
    var a, h, t := data[..i], data[i..i + c.bsize], data[i + c.bsize..];
    assert data == a + (h + t);
    CryptLengths(c, m, iv, data);
    CryptLengths(c, m, iv, a);
    CryptAppend(c, m, iv, a, h + t);
    CryptCons(c, m, After(c, m, iv, a), h, t);
    BlockLengths(c, m, After(c, m, iv, a), h);
  }

  lemma {:induction false} IncLength(iv: seq<Byte>)
    ensures |Inc(iv)| == |iv|
  {
  }

  /** The counter k blocks on, modulo 256 to the block size. */
  function CounterAt(iv: seq<Byte>, k: nat): seq<Byte> { Digits(Value(iv) + k, |iv|) }

  lemma {:induction false} CounterAtNext(iv: seq<Byte>, k: nat)
    ensures CounterAt(Inc(iv), k) == CounterAt(iv, k + 1)
  {
    hide Digits, Value, Pow256;
    var m, v := Pow256(|iv|), Value(iv);
    ValueOfDigits(v + 1, |iv|);
    ValueOfDigits((v + 1) % m + k, |iv|);
    ValueOfDigits(v + k + 1, |iv|);
    ModAdds(v + 1, k, m);
    SameValue(CounterAt(Inc(iv), k), CounterAt(iv, k + 1));
  }

  lemma ModAdds(v: nat, k: nat, m: nat)
    requires m > 0
    ensures (v % m + k) % m == (v + k) % m
  {
    var q := (v % m + k) / m;
    var r := (v % m + k) % m;
    assert v == v / m * m + v % m;
    assert v % m + k == q * m + r;
    assert (v / m + q) * m == v / m * m + q * m;
    Remainder(v + k, m, v / m + q, r);
  }

  /** The byte at place j of block k. */
  lemma {:induction false} CounterBlock(c: Cipher, iv: seq<Byte>, data: seq<Byte>, i: nat, k: nat, j: nat)
    requires IsCipher(c) && |iv| == c.bsize && i < |data| && i == k * c.bsize + j && j < c.bsize
    ensures |Crypt(c, Counter, iv, data)| == |data| && |c.enc(CounterAt(iv, k))| == c.bsize
    ensures Crypt(c, Counter, iv, data)[i] == XorByte(data[i], c.enc(CounterAt(iv, k))[j])
    decreases k
  {
    hide XorByte, Digits, Value, Pow256;
    CryptLengths(c, Counter, iv, data);
    if k == 0 {
      DigitsOfValue(iv);
    } else {
      Multiple(k, c.bsize);
      assert (k - 1) * c.bsize == k * c.bsize - c.bsize;
      CounterAtNext(iv, k - 1);
      var h, t := data[..c.bsize], data[c.bsize..];
      assert data == h + t;
      CryptCons(c, Counter, iv, h, t);
      BlockLengths(c, Counter, iv, h);
      hide Crypt;
      CounterBlock(c, Inc(iv), t, i - c.bsize, k - 1, j);
    }
  }

  /** Byte i of the output is byte i of the input with byte i mod b of the encrypted i/b-th counter. */
  lemma CounterStream(c: Cipher, iv: seq<Byte>, data: seq<Byte>, i: nat)
    requires IsCipher(c) && |iv| == c.bsize && i < |data|
    ensures |Crypt(c, Counter, iv, data)| == |data| && |c.enc(CounterAt(iv, i / c.bsize))| == c.bsize
    ensures Crypt(c, Counter, iv, data)[i] == XorByte(data[i], c.enc(CounterAt(iv, i / c.bsize))[i % c.bsize])
  {
    hide XorByte, CounterAt, Crypt;
    CounterBlock(c, iv, data, i, i / c.bsize, i % c.bsize);
  }
}
