/** Byte strings: exclusive or, big-endian values, and the two helpers of crypto/algapi.c that
    work on them in place. */
module Bytes {
  type Byte = x: int | 0 <= x < 256

  // ---------- exclusive or ----------

  function Pow2(n: nat): nat { if n == 0 then 1 else 2 * Pow2(n - 1) }

  /** Bitwise exclusive or of the low n bits. */
  function XorBits(a: nat, b: nat, n: nat): nat {
    if n == 0 then 0 else (if a % 2 == b % 2 then 0 else 1) + 2 * XorBits(a / 2, b / 2, n - 1)
  }

  lemma {:induction false} XorFits(a: nat, b: nat, n: nat)
    ensures XorBits(a, b, n) < Pow2(n)
  {
    if n > 0 { XorFits(a / 2, b / 2, n - 1); }
  }

  lemma {:induction false} XorBitsCancel(a: nat, b: nat, n: nat)
    requires a < Pow2(n)
    ensures XorBits(XorBits(a, b, n), b, n) == a
  {
    if n > 0 {
      XorBitsCancel(a / 2, b / 2, n - 1);
      LowBit(if a % 2 == b % 2 then 0 else 1, XorBits(a / 2, b / 2, n - 1));
    }
  }

  lemma LowBit(x: nat, y: nat)
    requires x < 2
    ensures (x + 2 * y) / 2 == y && (x + 2 * y) % 2 == x
  {
  }

  lemma {:induction false} XorBitsComm(a: nat, b: nat, n: nat)
    ensures XorBits(a, b, n) == XorBits(b, a, n)
  {
    if n > 0 { XorBitsComm(a / 2, b / 2, n - 1); }
  }

  function XorByte(a: Byte, b: Byte): Byte {
    XorFits(a, b, 8);
    assert Pow2(8) == 256;
    XorBits(a, b, 8)
  }

  /** The common prefix, combined byte by byte. */
  function Xor(a: seq<Byte>, b: seq<Byte>): (r: seq<Byte>)
    ensures |r| == if |a| < |b| then |a| else |b|
    ensures forall i :: 0 <= i < |r| ==> r[i] == XorByte(a[i], b[i])
  {
    seq(if |a| < |b| then |a| else |b|, i requires 0 <= i < |a| && i < |b| => XorByte(a[i], b[i]))
  }

  lemma XorByteCancel(a: Byte, b: Byte)
    ensures XorByte(XorByte(a, b), b) == a && XorByte(a, b) == XorByte(b, a)
  {
    assert Pow2(8) == 256;
    XorBitsCancel(a, b, 8);
    XorBitsComm(a, b, 8);
  }

  lemma {:induction false} XorZeroBits(a: nat, n: nat)
    requires a < Pow2(n)
    ensures XorBits(a, 0, n) == a
  {
    if n > 0 { XorZeroBits(a / 2, n - 1); }
  }

  lemma XorZero(a: Byte)
    ensures XorByte(a, 0) == a && XorByte(0, a) == a
  {
    assert Pow2(8) == 256;
    XorZeroBits(a, 8);
    XorByteCancel(a, 0);
  }

  lemma {:induction false} XorCancel(a: seq<Byte>, b: seq<Byte>)
    requires |a| <= |b|
    ensures Xor(Xor(a, b), b) == a
  {
    forall i | 0 <= i < |a| ensures Xor(Xor(a, b), b)[i] == a[i] { XorByteCancel(a[i], b[i]); }
  }

  lemma {:induction false} XorComm(a: seq<Byte>, b: seq<Byte>)
    ensures Xor(a, b) == Xor(b, a)
  {
    forall i | 0 <= i < |a| && i < |b| ensures Xor(a, b)[i] == Xor(b, a)[i] { XorByteCancel(a[i], b[i]); }
  }

  /** s with the bytes from `at` on replaced by `data`. */
  function Splice(s: seq<Byte>, at: nat, data: seq<Byte>): (r: seq<Byte>)
    requires at + |data| <= |s|
    ensures |r| == |s| && r[at..at + |data|] == data
    ensures forall i :: 0 <= i < |s| && !(at <= i < at + |data|) ==> r[i] == s[i]
  {
    s[..at] + data + s[at + |data|..]
  }

  /** memcpy into an array. */
  method Put(a: array<Byte>, at: nat, data: seq<Byte>)
    requires at + |data| <= a.Length
    modifies a
    ensures a[..] == Splice(old(a[..]), at, data)
  {
    ghost var was := a[..];
    var i := 0;
    while i < |data|
      invariant i <= |data| && a[..] == Splice(was, at, data[..i])
    {
      a[at + i] := data[i];
      i := i + 1;
    }
    assert data[..i] == data;
  }

  /** crypto_xor: a word at a time, then the bytes left over. */
  method CryptoXor(dst: array<Byte>, d: nat, src: array<Byte>, s: nat, size: nat)
    requires d + size <= dst.Length && s + size <= src.Length
    requires dst == src ==> d + size <= s || s + size <= d
    modifies dst
    ensures dst[..] == Splice(old(dst[..]), d, Xor(old(dst[..])[d..d + size], old(src[..])[s..s + size]))
  {
    hide XorByte, Combined, Xor;
    ghost var was, from := dst[..], src[..];
    var i, left := 0, size;
    NothingCombined(was, from, d, s);
    while left >= 4
      invariant i + left == size && src[s + i..s + size] == from[s + i..s + size]
      invariant Combined(dst[..], was, from, d, s, i)
    {
      XorAt(dst, d, src, s, i, size, was, from);
      XorAt(dst, d, src, s, i + 1, size, was, from);
      XorAt(dst, d, src, s, i + 2, size, was, from);
      XorAt(dst, d, src, s, i + 3, size, was, from);
      i, left := i + 4, left - 4;
    }
    while left > 0
      invariant i + left == size && src[s + i..s + size] == from[s + i..s + size]
      invariant Combined(dst[..], was, from, d, s, i)
    {
      XorAt(dst, d, src, s, i, size, was, from);
      i, left := i + 1, left - 1;
    }
    WhenCombined(dst[..], was, from, d, s, size);
  }

  lemma WhenCombined(now: seq<Byte>, was: seq<Byte>, from: seq<Byte>, d: nat, s: nat, size: nat)
    requires d + size <= |was| && s + size <= |from| && Combined(now, was, from, d, s, size)
    ensures now == Splice(was, d, Xor(was[d..d + size], from[s..s + size]))
  {
  }

  lemma NothingCombined(was: seq<Byte>, from: seq<Byte>, d: nat, s: nat)
    requires d <= |was| && s <= |from|
    ensures Combined(was, was, from, d, s, 0)
  {
  }

  /** The first i bytes from d on are combined with those of `from` from s on; the others are as they were. */
  ghost predicate Combined(now: seq<Byte>, was: seq<Byte>, from: seq<Byte>, d: nat, s: nat, i: nat) {
    && |now| == |was| && d + i <= |was| && s + i <= |from|
    && (forall k :: d <= k < d + i ==> now[k] == XorByte(was[k], from[s + k - d]))
    && (forall k :: 0 <= k < |was| && !(d <= k < d + i) ==> now[k] == was[k])
  }

  method XorAt(dst: array<Byte>, d: nat, src: array<Byte>, s: nat, i: nat, size: nat, ghost was: seq<Byte>, ghost from: seq<Byte>)
    requires i < size && d + size <= dst.Length && s + size <= src.Length == |from|
    requires dst == src ==> d + size <= s || s + size <= d
    requires src[s + i..s + size] == from[s + i..s + size] && Combined(dst[..], was, from, d, s, i)
    modifies dst
    ensures src[s + i + 1..s + size] == from[s + i + 1..s + size] && Combined(dst[..], was, from, d, s, i + 1)
  {
    hide XorByte;
    assert src[s + i] == src[s + i..s + size][0] == from[s + i];
    assert dst != src ==> src[s + i..s + size][1..] == src[s + i + 1..s + size];
    dst[d + i] := XorByte(dst[d + i], src[s + i]);
  }

  // ---------- big-endian values ----------

  function Pow256(n: nat): (r: nat)
    ensures r > 0
  {
    if n == 0 then 1 else 256 * Pow256(n - 1)
  }

  function Value(s: seq<Byte>): nat { if s == [] then 0 else 256 * Value(s[..|s| - 1]) + s[|s| - 1] }

  /** The n low-order bytes of v, most significant first. */
  function Digits(v: nat, n: nat): (r: seq<Byte>)
    ensures |r| == n
  {
    if n == 0 then [] else Digits(v / 256, n - 1) + [v % 256]
  }

  lemma {:induction false} ValueFits(s: seq<Byte>)
    ensures Value(s) < Pow256(|s|)
  {
    if s != [] { ValueFits(s[..|s| - 1]); }
  }

  lemma {:induction false} ValueOfDigits(v: nat, n: nat)
    ensures Value(Digits(v, n)) == v % Pow256(n)
  {
    if n > 0 {
      ValueOfDigits(v / 256, n - 1);
      assert Digits(v, n)[..n - 1] == Digits(v / 256, n - 1);
      DivMod(v, Pow256(n - 1));
    }
  }

  lemma DivMod(v: nat, p: nat)
    requires p > 0
    ensures 256 * (v / 256 % p) + v % 256 == v % (256 * p)
  {
    var q, r := v / 256 / p, v / 256 % p;
    assert v / 256 == q * p + r;
    assert v == q * (256 * p) + (256 * r + v % 256);
    Remainder(v, 256 * p, q, 256 * r + v % 256);
  }

  lemma Remainder(v: nat, m: nat, q: nat, r: nat)
    requires m > 0 && v == q * m + r && r < m
    ensures v % m == r
  {
    assert v == (v / m) * m + v % m;
    if q < v / m { Multiple(v / m - q, m); } else if v / m < q { Multiple(q - v / m, m); }
  }

  lemma Multiple(d: nat, m: nat)
    requires d >= 1
    ensures d * m >= m
  {
  }

  lemma {:induction false} DigitsOfValue(s: seq<Byte>)
    ensures Digits(Value(s), |s|) == s
  {
    if s != [] { DigitsOfValue(s[..|s| - 1]); }
  }

  lemma Regroup(v: nat, p: nat)
    ensures 256 * (v * p) == v * (256 * p)
  {
  }

  lemma {:induction false} ValueAppend(a: seq<Byte>, b: seq<Byte>)
    ensures Value(a + b) == Value(a) * Pow256(|b|) + Value(b)
  {
    if b == [] {
      assert a + b == a;
    } else {
      var c := b[..|b| - 1];
      ValueAppend(a, c);
      assert (a + b)[..|a + b| - 1] == a + c;
      Regroup(Value(a), Pow256(|c|));
    }
  }

  lemma {:induction false} SameValue(a: seq<Byte>, b: seq<Byte>)
    requires |a| == |b| && Value(a) == Value(b)
    ensures a == b
  {
    DigitsOfValue(a);
    DigitsOfValue(b);
  }

  lemma {:induction false} PowAdds(a: nat, b: nat)
    ensures Pow256(a + b) == Pow256(a) * Pow256(b)
  {
    if b > 0 {
      PowAdds(a, b - 1);
      Regroup(Pow256(a), Pow256(b - 1));
    }
  }

  // ---------- the counter ----------

  /** One more, modulo 256 to the length. */
  function Inc(s: seq<Byte>): seq<Byte> { Digits(Value(s) + 1, |s|) }

  function Zeros(n: nat): seq<Byte> { seq(n, i => 0) }

  /** x filled up with zeros to n bytes. */
  function Padded(x: seq<Byte>, n: nat): seq<Byte>
    requires |x| <= n
  {
    x + Zeros(n - |x|)
  }

  lemma {:induction false} ZerosValue(n: nat)
    ensures Value(Zeros(n)) == 0
  {
    if n > 0 {
      ZerosValue(n - 1);
      assert Zeros(n)[..n - 1] == Zeros(n - 1);
    }
  }

  /** An increment that the tail absorbs leaves the head alone. */
  lemma {:induction false} NoCarry(h: seq<Byte>, t: seq<Byte>)
    requires Value(t) + 1 < Pow256(|t|)
    ensures Inc(h + t) == h + Inc(t)
  {
    hide Value, Digits, Pow256;
    var v, u := Value(h + t) + 1, Value(t) + 1;
    ValueOfDigits(u, |t|);
    Below(u, Pow256(|t|));
    ValueAppend(h, t);
    ValueAppend(h, Inc(t));
    assert Value(h + Inc(t)) == v;
    ValueFits(h + Inc(t));
    ValueOfDigits(v, |h + t|);
    Below(v, Pow256(|h + t|));
    SameValue(Inc(h + t), h + Inc(t));
  }

  lemma Below(v: nat, m: nat)
    requires v < m
    ensures v % m == v
  {
  }

  /** An increment that the tail passes on leaves zeros behind. */
  lemma {:induction false} Carry(h: seq<Byte>, t: seq<Byte>)
    requires Value(t) + 1 == Pow256(|t|)
    ensures Inc(h + t) == Inc(h) + Zeros(|t|)
  {
    hide Value, Digits, Pow256, Zeros;
    var p, m, z := Pow256(|t|), Pow256(|h|), Zeros(|t|);
    assert |z| == |t| by { ZerosLength(|t|); }
    ZerosValue(|t|);
    ValueAppend(h, t);
    CarriedSum(Value(h), p);
    ValueAppend(Inc(h), z);
    ValueOfDigits(Value(h) + 1, |h|);
    ValueOfDigits(Value(h + t) + 1, |h + t|);
    PowAdds(|h|, |t|);
    ValueFits(h);
    CarriedValue(Value(h) + 1, m, p);
    SameValue(Inc(h + t), Inc(h) + z);
  }

  lemma ZerosLength(n: nat)
    ensures |Zeros(n)| == n
  {
  }

  lemma CarriedSum(v: nat, p: nat)
    ensures v * p + p == (v + 1) * p
  {
  }

  lemma CarriedValue(v: nat, m: nat, p: nat)
    requires 0 < v <= m && p > 0
    ensures m * p > 0 && v * p % (m * p) == v % m * p
  {
    Multiple(m, p);
    if v < m {
      Scaled(v, m, p);
      Below(v, m);
      Below(v * p, m * p);
    } else {
      Remainder(v * p, m * p, 1, 0);
      Remainder(v, m, 1, 0);
    }
  }

  lemma Scaled(v: nat, m: nat, p: nat)
    requires v < m && p > 0
    ensures v * p < m * p
  {
  }

  method StoreWord(a: array<Byte>, at: nat, c: nat)
    requires at + 4 <= a.Length && c < Pow256(4)
    modifies a
    ensures a[..] == old(a[..at]) + Digits(c, 4) + old(a[at + 4..])
  {
    a[at], a[at + 1], a[at + 2], a[at + 3] := c / 0x100_0000 % 256, c / 0x1_0000 % 256, c / 0x100 % 256, c % 256;
    FourDigits(c);
  }

  lemma {:induction false} FourDigits(c: nat)
    ensures Digits(c, 4) == [c / 0x100_0000 % 256, c / 0x1_0000 % 256, c / 0x100 % 256, c % 256]
  {
    assert c / 256 / 256 == c / 0x1_0000 && c / 0x1_0000 / 256 == c / 0x100_0000;
    assert Digits(c / 0x100_0000, 1) == [c / 0x100_0000 % 256];
    assert Digits(c / 0x1_0000, 2) == [c / 0x100_0000 % 256, c / 0x1_0000 % 256];
    assert Digits(c / 0x100, 3) == [c / 0x100_0000 % 256, c / 0x1_0000 % 256, c / 0x100 % 256];
  }

  function Word(a: int, b: int, c: int, d: int): int { a * 0x100_0000 + b * 0x1_0000 + c * 0x100 + d }

  /** be32_to_cpu, plus one, in 32 bits. */
  function NextWord(a: Byte, b: Byte, c: Byte, d: Byte): nat { (Word(a, b, c, d) + 1) % 0x1_0000_0000 }

  lemma {:induction false} NextWordIs(s: seq<Byte>)
    requires |s| == 4
    ensures NextWord(s[0], s[1], s[2], s[3]) == (Value(s) + 1) % Pow256(4) < Pow256(4)
  {
    hide Value;
    FourValue(s);
  }

  function NextByte(a: Byte): Byte { (a as int + 1) % 256 }

  lemma {:induction false} FourValue(s: seq<Byte>)
    requires |s| == 4
    ensures Value(s) == Word(s[0], s[1], s[2], s[3]) && Pow256(4) == 0x1_0000_0000
  {
    assert s[..3][..2] == s[..2] && s[..2][..1] == s[..1] && s[..1][..0] == [];
    assert Value(s[..1]) == s[0];
    assert Value(s[..2]) == 256 * Value(s[..1]) + s[1];
    assert Value(s[..3]) == 256 * Value(s[..2]) + s[2];
  }

  /** Past `size` every byte has wrapped to zero and the carry is still to be added before it. */
  ghost predicate Carried(now: seq<Byte>, was: seq<Byte>, size: nat) {
    && size <= |was| && now == was[..size] + Zeros(|was| - size)
    && Inc(was) == Inc(was[..size]) + Zeros(|was| - size)
  }

  /** Adding the carry to the k bytes before `size`. */
  lemma {:induction false} CarryStep(now: seq<Byte>, was: seq<Byte>, size: nat, k: nat, c: nat, next: seq<Byte>)
    requires Carried(now, was, size) && 0 < k <= size
    requires c == (Value(now[size - k..size]) + 1) % Pow256(k)
    requires next == now[..size - k] + Digits(c, k) + now[size..]
    ensures if c == 0 then Carried(next, was, size - k) else next == Inc(was)
  {
    hide Value, Digits, Pow256;
    var h, t, z := was[..size - k], was[size - k..size], Zeros(|was| - size);
    assert now[size - k..size] == t && now[..size - k] == h && now[size..] == z;
    assert was[..size] == h + t;
    ValueFits(t);
    if c == 0 {
      WrapsAt(Value(t) + 1, Pow256(k));
      Carry(h, t);
      DigitsOfZero(k);
      assert Zeros(k) + z == Zeros(|was| - size + k);
    } else {
      WrapsAt(Value(t) + 1, Pow256(k));
      Below(Value(t) + 1, Pow256(k));
      NoCarry(h, t);
    }
  }

  lemma WrapsAt(v: nat, m: nat)
    requires 0 < v <= m
    ensures v % m == 0 <==> v == m
  {
  }

  lemma {:induction false} DigitsOfZero(k: nat)
    ensures Digits(0, k) == Zeros(k)
  {
    ZerosValue(k);
    ValueOfDigits(0, k);
    Below(0, Pow256(k));
    SameValue(Digits(0, k), Zeros(k));
  }

  lemma {:induction false} NothingCarried(was: seq<Byte>)
    ensures Carried(was, was, |was|)
  {
    assert was[..|was|] == was && Zeros(0) == [];
  }

  lemma {:induction false} AllCarried(now: seq<Byte>, was: seq<Byte>)
    requires Carried(now, was, 0)
    ensures now == Inc(was)
  {
  }

  /** crypto_inc: a word at a time from the end until one does not wrap, then byte by byte. */
  method CryptoInc(a: array<Byte>)
    modifies a
    ensures a[..] == Inc(old(a[..]))
  {
    hide Value, Digits, Pow256, Inc, Carried, NextWord, NextByte;
    ghost var was := a[..];
    var size: nat := a.Length;
    NothingCarried(was);
    while size >= 4
      invariant size <= a.Length && Carried(a[..], was, size)
    {
      ghost var now := a[..];
      NextWordIs(now[size - 4..size]);
      var c := NextWord(a[size - 4], a[size - 3], a[size - 2], a[size - 1]);
      StoreWord(a, size - 4, c);
      CarryStep(now, was, size, 4, c, a[..]);
      if c != 0 { return; }
      size := size - 4;
    }
    while size > 0
      invariant size <= a.Length && Carried(a[..], was, size)
    {
      ghost var now := a[..];
      OneDigit(now[size - 1..size]);
      var c := NextByte(a[size - 1]);
      a[size - 1] := c;
      CarryStep(now, was, size, 1, c, a[..]);
      if c != 0 { return; }
      size := size - 1;
    }
    AllCarried(a[..], was);
  }

  lemma {:induction false} OneDigit(s: seq<Byte>)
    requires |s| == 1
    ensures NextByte(s[0]) == (Value(s) + 1) % Pow256(1)
    ensures Digits(NextByte(s[0]), 1) == [NextByte(s[0])]
  {
  }
}
