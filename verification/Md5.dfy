/**
 Streaming MD5 and HMAC-MD5 (hmac_md5.c), against the one-shot definitions of RFC 1321 and RFC 2104.
 */
module Md5 {

  type Byte = bv8
  type Word = bv32

  datatype Digest = Digest(a: Word, b: Word, c: Word, d: Word)

  // ---- The compression function, sections 3.3 and 3.4 of RFC 1321 -----------------------------------

  const INITIAL := Digest(0x67452301, 0xefcdab89, 0x98badcfe, 0x10325476)

  /** The additive constant of every step. */
  const SINES: seq<Word> :=
    [0xd76aa478, 0xe8c7b756, 0x242070db, 0xc1bdceee, 0xf57c0faf, 0x4787c62a, 0xa8304613, 0xfd469501,
     0x698098d8, 0x8b44f7af, 0xffff5bb1, 0x895cd7be, 0x6b901122, 0xfd987193, 0xa679438e, 0x49b40821,
     0xf61e2562, 0xc040b340, 0x265e5a51, 0xe9b6c7aa, 0xd62f105d, 0x2441453, 0xd8a1e681, 0xe7d3fbc8,
     0x21e1cde6, 0xc33707d6, 0xf4d50d87, 0x455a14ed, 0xa9e3e905, 0xfcefa3f8, 0x676f02d9, 0x8d2a4c8a,
     0xfffa3942, 0x8771f681, 0x6d9d6122, 0xfde5380c, 0xa4beea44, 0x4bdecfa9, 0xf6bb4b60, 0xbebfbc70,
     0x289b7ec6, 0xeaa127fa, 0xd4ef3085, 0x4881d05, 0xd9d4d039, 0xe6db99e5, 0x1fa27cf8, 0xc4ac5665,
     0xf4292244, 0x432aff97, 0xab9423a7, 0xfc93a039, 0x655b59c3, 0x8f0ccc92, 0xffeff47d, 0x85845dd1,
     0x6fa87e4f, 0xfe2ce6e0, 0xa3014314, 0x4e0811a1, 0xf7537e82, 0xbd3af235, 0x2ad7d2bb, 0xeb86d391]

  /** The word of the block every step uses. */
  function WordIndex(i: nat): (r: nat)
    ensures r < 16
  {
    if i < 16 then i % 16 else if i < 32 then (5 * i + 1) % 16 else if i < 48 then (3 * i + 5) % 16 else (7 * i) % 16
  }

  /** The rotation of every step. */
  function Rotation(i: nat): (r: nat)
    ensures 0 < r < 32
  {
    if i < 16 then [7, 12, 17, 22][i % 4]
    else if i < 32 then [5, 9, 14, 20][i % 4]
    else if i < 48 then [4, 11, 16, 23][i % 4]
    else [6, 10, 15, 21][i % 4]
  }

  function RotateLeft(x: Word, n: nat): Word
    requires 0 < n < 32
  {
    (x << n) | (x >> (32 - n))
  }

  /** The bitwise function of the round a step belongs to. */
  function Mix(i: nat, x: Word, y: Word, z: Word): Word {
    if i < 16 then (x & y) | (!x & z)
    else if i < 32 then (x & z) | (y & !z)
    else if i < 48 then x ^ y ^ z
    else y ^ (x | !z)
  }

  /** Step `i`; the registers trade places instead of being renamed. */
  function Step(i: nat, s: Digest, x: seq<Word>): Digest
    requires i < 64 && |x| == 16
  {
    Digest(s.d, s.b + RotateLeft(s.a + Mix(i, s.b, s.c, s.d) + x[WordIndex(i)] + SINES[i], Rotation(i)), s.b, s.c)
  }

  /** The first `n` steps. */
  function Steps(n: nat, s: Digest, x: seq<Word>): Digest
    requires n <= 64 && |x| == 16
  {
    if n == 0 then s else Step(n - 1, Steps(n - 1, s, x), x)
  }

  /** Four bytes, least significant first, as a word. */
  function WordAt(block: seq<Byte>, i: nat): Word
    requires 4 * i + 3 < |block|
  {
    (block[4 * i] as Word) | ((block[4 * i + 1] as Word) << 8)
    | ((block[4 * i + 2] as Word) << 16) | ((block[4 * i + 3] as Word) << 24)
  }

  function WordsOf(block: seq<Byte>): (x: seq<Word>)
    requires |block| == 64
    ensures |x| == 16
  {
    seq(16, i requires 0 <= i < 16 => WordAt(block, i))
  }

  function AddDigests(s: Digest, r: Digest): Digest { Digest(s.a + r.a, s.b + r.b, s.c + r.c, s.d + r.d) }

  function Compress(s: Digest, block: seq<Byte>): Digest
    requires |block| == 64
  {
    AddDigests(s, Steps(64, s, WordsOf(block)))
  }

  // ---- MD5 of a whole message -----------------------------------------------------------------------

  /** The state after all complete blocks of `m`. */
  function Absorb(s: Digest, m: seq<Byte>): Digest
    decreases |m|
  {
    if |m| < 64 then s else Absorb(Compress(s, m[..64]), m[64..])
  }

  /** A word as four bytes, least significant first. */
  function WordBytes(w: Word): (r: seq<Byte>)
    ensures |r| == 4
  {
    [(w & 0xff) as Byte, ((w >> 8) & 0xff) as Byte, ((w >> 16) & 0xff) as Byte, ((w >> 24) & 0xff) as Byte]
  }

  function DigestBytes(s: Digest): (r: seq<Byte>)
    ensures |r| == 16
  {
    WordBytes(s.a) + WordBytes(s.b) + WordBytes(s.c) + WordBytes(s.d)
  }

  const TWO32: int := 0x1_0000_0000

  /** A number as `n` bytes, least significant first. */
  function NumberBytes(x: nat, n: nat): (r: seq<Byte>)
    ensures |r| == n
  {
    if n == 0 then [] else [(x % 256) as Byte] + NumberBytes(x / 256, n - 1)
  }

  /** Section 3.1 of RFC 1321: a one bit, then zero bits, up to 56 bytes modulo 64. */
  function Padding(length: nat): (r: seq<Byte>)
    ensures 1 <= |r| <= 64 && (length + |r|) % 64 == 56
  {
    var n := if length % 64 < 56 then 56 - length % 64 else 120 - length % 64;
    [0x80] + seq(n - 1, _ => 0)
  }

  /** Section 3.2: the length in bits modulo 2^64. */
  function Padded(m: seq<Byte>): (r: seq<Byte>)
    ensures |r| % 64 == 0
  {
    hide Padding, NumberBytes;
    PaddedLength(|m|, |Padding(|m|)|);
    m + Padding(|m|) + NumberBytes(8 * |m| % (TWO32 * TWO32), 8)
  }

  lemma PaddedLength(length: nat, padding: nat)
    requires (length + padding) % 64 == 56
    ensures (length + padding + 8) % 64 == 0
  {
    assert length + padding + 8 == 64 * ((length + padding) / 64 + 1);
  }

  function Hash(m: seq<Byte>): (r: seq<Byte>)
    ensures |r| == 16
  {
    DigestBytes(Absorb(INITIAL, Padded(m)))
  }

  // ---- Splitting a message --------------------------------------------------------------------------

  /** Complete blocks may be absorbed first, the rest later. */
  lemma {:induction false} AbsorbSplits(s: Digest, m: seq<Byte>, rest: seq<Byte>)
    requires |m| % 64 == 0
    ensures Absorb(s, m + rest) == Absorb(Absorb(s, m), rest)
    decreases |m|
  {
    if m == [] {
      assert m + rest == rest;
    } else {
      assert (m + rest)[..64] == m[..64] && (m + rest)[64..] == m[64..] + rest;
      AbsorbSplits(Compress(s, m[..64]), m[64..], rest);
    }
  }

  /** What is left over does not matter yet. */
  lemma {:induction false} AbsorbIgnoresRest(s: Digest, m: seq<Byte>, rest: seq<Byte>)
    requires |m| % 64 == 0 && |rest| < 64
    ensures Absorb(s, m + rest) == Absorb(s, m)
  {
    AbsorbSplits(s, m, rest);
  }

  /** The bytes after the last complete block. */
  function Remainder(m: seq<Byte>): (r: seq<Byte>)
    ensures |r| == |m| % 64
  {
    m[|m| - |m| % 64..]
  }

  /** Absorbing goes on from the remainder. */
  lemma AbsorbResumes(m: seq<Byte>, more: seq<Byte>)
    ensures Absorb(INITIAL, m + more) == Absorb(Absorb(INITIAL, m), Remainder(m) + more)
  {
    var whole := m[..|m| - |m| % 64];
    assert m == whole + Remainder(m);
    assert m + more == whole + (Remainder(m) + more);
    AbsorbSplits(INITIAL, whole, Remainder(m) + more);
    AbsorbIgnoresRest(INITIAL, whole, Remainder(m));
  }

  /** One more block. */
  lemma AbsorbBlock(s: Digest, m: seq<Byte>, block: seq<Byte>)
    requires |m| % 64 == 0 && |block| == 64
    ensures Absorb(s, m + block) == Compress(Absorb(s, m), block)
  {
    AbsorbSplits(s, m, block);
    assert block[..64] == block && block[64..] == [];
    assert Absorb(Compress(Absorb(s, m), block), []) == Compress(Absorb(s, m), block);
  }

  // ---- Counting bits --------------------------------------------------------------------------------

  /** The two 32-bit halves of the counter, with the carry of `MD5Update`. */
  function CountLow(low: int, length: int): int { (low + 8 * length % TWO32) % TWO32 }

  function CountHigh(low: int, high: int, length: int): int {
    (high + (if CountLow(low, length) < 8 * length % TWO32 then 1 else 0) + length / 0x2000_0000) % TWO32
  }

  /** Together they count modulo 2^64, for every length an `unsigned int` can hold. */
  lemma CounterIsExact(low: int, high: int, length: int)
    requires 0 <= low < TWO32 && 0 <= high < TWO32 && 0 <= length < TWO32
    ensures 0 <= CountLow(low, length) < TWO32 && 0 <= CountHigh(low, high, length) < TWO32
    ensures CountLow(low, length) + TWO32 * CountHigh(low, high, length) ==
        (low + TWO32 * high + 8 * length) % (TWO32 * TWO32)
  {
    var shifted := 8 * length % TWO32;
    var upper := length / 0x2000_0000;
    assert 8 * length == shifted + TWO32 * upper;
    var carry := if CountLow(low, length) < shifted then 1 else 0;
    assert low + shifted == CountLow(low, length) + TWO32 * carry;
    var sum := high + carry + upper;
    assert low + TWO32 * high + 8 * length == CountLow(low, length) + TWO32 * sum;
    assert sum == CountHigh(low, high, length) + TWO32 * (sum / TWO32);
  }

  /** The counter gives the number of bytes in the buffer. */
  lemma CounterGivesIndex(low: int, high: int, length: nat)
    requires 0 <= low < TWO32 && 0 <= high < TWO32 && low + TWO32 * high == 8 * length % (TWO32 * TWO32)
    ensures low / 8 % 64 == length % 64
  {
    var q := 8 * length / (TWO32 * TWO32);
    assert 8 * length == low + TWO32 * high + TWO32 * TWO32 * q;
    assert low % 8 == 0;
    WholeBlocksDoNotMatter(low / 8, 0x80_0000 * high + 0x80_0000 * TWO32 * q);
    assert length == low / 8 + 64 * (0x80_0000 * high + 0x80_0000 * TWO32 * q);
  }

  lemma WholeBlocksDoNotMatter(x: int, k: int)
    ensures (x + 64 * k) % 64 == x % 64
  {
  }

  /** Counting on from a length. */
  lemma CounterAdds(count: int, length: nat, more: nat)
    requires count == 8 * length % (TWO32 * TWO32)
    ensures (count + 8 * more) % (TWO32 * TWO32) == 8 * (length + more) % (TWO32 * TWO32)
  {
    var q := 8 * length / (TWO32 * TWO32);
    assert 8 * (length + more) == count + 8 * more + TWO32 * TWO32 * q;
  }

  // ---- The buffer -----------------------------------------------------------------------------------

  lemma WholeBlocks(length: nat, i: nat)
    requires (length % 64 + i) % 64 == 0
    ensures (length + i) % 64 == 0
  {
    assert length + i == 64 * (length / 64) + (length % 64 + i);
  }

  lemma RemainderAfterBlocks(m: seq<Byte>, input: seq<Byte>, i: nat)
    requires i <= |input| < i + 64 && (|m| + i) % 64 == 0
    ensures Remainder(m + input) == input[i..]
  {
    assert |m + input| % 64 == |input| - i;
    assert (m + input)[|m| + i..] == input[i..];
  }

  lemma RemainderGrows(m: seq<Byte>, input: seq<Byte>)
    requires |m| % 64 + |input| < 64
    ensures Remainder(m + input) == Remainder(m) + input
  {
    assert |m + input| % 64 == |m| % 64 + |input|;
    assert (m + input)[|m| - |m| % 64..] == m[|m| - |m| % 64..] + input;
  }

  /** The static padding block. */
  const PADDING: seq<Byte> := [0x80] + seq(63, _ => 0)

  lemma PaddingIsPrefix(n: nat)
    requires 1 <= n <= 64
    ensures PADDING[..n] == [0x80] + seq(n - 1, _ => 0)
  {
  }

  lemma {:induction false} BytesJoin(low: nat, high: nat, n: nat, k: nat)
    requires n <= 4 && low < Power256(n)
    ensures NumberBytes(low + Power256(n) * high, n + k) == NumberBytes(low, n) + NumberBytes(high, k)
    decreases n
  {
    if n > 0 {
      var x, upper := low + Power256(n) * high, Power256(n - 1) * high;
      assert Power256(n) * high == 256 * upper;
      assert x % 256 == low % 256 && x / 256 == low / 256 + upper;
      BytesJoin(low / 256, high, n - 1, k);
    }
  }

  function Power256(n: nat): (r: nat)
    ensures r > 0
  {
    if n == 0 then 1 else 256 * Power256(n - 1)
  }

  /** The two words of the counter, written one after the other, are the 64-bit length. */
  lemma CounterBytes(low: nat, high: nat)
    requires low < TWO32 && high < TWO32
    ensures NumberBytes(low, 4) + NumberBytes(high, 4) == NumberBytes(low + TWO32 * high, 8)
  {
    assert Power256(4) == TWO32;
    BytesJoin(low, high, 4, 4);
  }

  // ---- The context ----------------------------------------------------------------------------------

  /** `MD5_CTX`; `fed` is everything that went in since `MD5Init`. */
  class Context {
    var state: Digest
    var countLow: int
    var countHigh: int
    const buffer: array<Byte>
    ghost var fed: seq<Byte>

    ghost predicate Valid()
      reads this, buffer
    {
      && buffer.Length == 64
      && 0 <= countLow < TWO32 && 0 <= countHigh < TWO32
      && countLow + TWO32 * countHigh == 8 * |fed| % (TWO32 * TWO32)
      && state == Absorb(INITIAL, fed) && buffer[..|fed| % 64] == Remainder(fed)
    }

    /** `MD5Init`. */
    constructor ()
      ensures Valid() && fresh(buffer) && fed == []
    {
      state, countLow, countHigh := INITIAL, 0, 0;
      buffer := new Byte[64];
      fed := [];
    }

    /** `MD5Transform`, its 64 lines as a loop. */
    method Transform(block: seq<Byte>)
      requires |block| == 64
      modifies this`state
      ensures state == Compress(old(state), block)
    {
      hide Step, AddDigests, WordsOf;
      var x := WordsOf(block);
      var s := state;
      var i := 0;
      while i < 64
        invariant 0 <= i <= 64 && state == old(state)
        invariant s == Steps(i, state, x)
      {
        s := Step(i, s, x);
        i := i + 1;
      }
      state := AddDigests(state, s);
    }

    /** The copies into the buffer. */
    method Store(index: nat, data: seq<Byte>)
      requires index + |data| <= buffer.Length
      modifies buffer
      ensures buffer[..index + |data|] == old(buffer[..index]) + data
    {
      forall j | 0 <= j < |data| {
        buffer[index + j] := data[j];
      }
    }

    /** `MD5Update`: feeding a message in any pieces is feeding the message. */
    method Update(input: seq<Byte>)
      requires Valid() && |input| < TWO32
      modifies this, buffer
      ensures Valid() && fed == old(fed) + input
    {
      hide Absorb, Compress, Remainder;
      var index := countLow / 8 % 64;
      CounterGivesIndex(countLow, countHigh, |fed|);
      Count(|input|);
      CounterAdds(old(countLow) + TWO32 * old(countHigh), |fed|, |input|);
      ghost var left, start := Remainder(fed), state;
      AbsorbResumes(fed, input);
      var partLen := 64 - index;
      var i := 0;
      if |input| >= partLen {
        Store(index, input[..partLen]);
        TransformMore(start, [], left + input[..partLen], buffer[..]);
        i := TransformAll(start, left, input, partLen);
        WholeBlocks(|fed|, i);
        RemainderAfterBlocks(fed, input, i);
        index := 0;
      } else {
        AbsorbIgnoresRest(start, [], left + input);
        assert [] + (left + input) == left + input;
        AbsorbNothing(start);
        RemainderGrows(fed, input);
      }
      Store(index, input[i..]);
      fed := fed + input;
    }

    /** `MD5Final`: the digest of everything that was fed, in whatever pieces. */
    method Final() returns (digest: seq<Byte>)
      requires Valid()
      modifies this, buffer
      ensures digest == Hash(old(fed))
    {
      hide Absorb, Remainder, NumberBytes, DigestBytes;
      ghost var m := fed;
      var bits := NumberBytes(countLow, 4) + NumberBytes(countHigh, 4);
      CounterBytes(countLow, countHigh);
      var index := countLow / 8 % 64;
      CounterGivesIndex(countLow, countHigh, |fed|);
      var padLen := if index < 56 then 56 - index else 120 - index;
      assert PADDING[..padLen] == Padding(|m|) by { PaddingIsPrefix(padLen); }
      Update(PADDING[..padLen]);
      Update(bits);
      assert fed == Padded(m);
      digest := DigestBytes(state);
    }

    /** The loop of `MD5Update`. */
    method TransformAll(ghost start: Digest, ghost left: seq<Byte>, input: seq<Byte>, partLen: nat) returns (i: nat)
      requires partLen <= |input| && |left| + partLen == 64 && state == Absorb(start, left + input[..partLen])
      modifies this`state
      ensures i <= |input| < i + 64 && (|left| + i) % 64 == 0
      ensures state == Absorb(start, left + input)
    {
      hide Absorb;
      i := partLen;
      while i + 63 < |input|
        invariant partLen <= i <= |input| && (|left| + i) % 64 == 0
        invariant state == Absorb(start, left + input[..i])
      {
        assert left + input[..i + 64] == left + input[..i] + input[i..i + 64];
        TransformMore(start, left + input[..i], left + input[..i + 64], input[i..i + 64]);
        i := i + 64;
      }
      AbsorbIgnoresRest(start, left + input[..i], input[i..]);
      assert left + input[..i] + input[i..] == left + input;
    }

    /** The bit counter of `MD5Update`. */
    method Count(length: int)
      requires 0 <= countLow < TWO32 && 0 <= countHigh < TWO32 && 0 <= length < TWO32
      modifies this`countLow, this`countHigh
      ensures 0 <= countLow < TWO32 && 0 <= countHigh < TWO32
      ensures countLow + TWO32 * countHigh == (old(countLow) + TWO32 * old(countHigh) + 8 * length) % (TWO32 * TWO32)
    {
      CounterIsExact(countLow, countHigh, length);
      var shifted := 8 * length % TWO32;
      countLow := (countLow + shifted) % TWO32;
      countHigh := (countHigh + (if countLow < shifted then 1 else 0) + length / 0x2000_0000) % TWO32;
    }

    /** One more block is absorbed. */
    method TransformMore(ghost start: Digest, ghost before: seq<Byte>, ghost after: seq<Byte>, block: seq<Byte>)
      requires |block| == 64 && |before| % 64 == 0 && after == before + block
      requires state == if before == [] then start else Absorb(start, before)
      modifies this`state
      ensures state == Absorb(start, after)
    {
      hide Compress;
      AbsorbBlock(start, before, block);
      AbsorbNothing(start);
      Transform(block);
    }
  }

  lemma AbsorbNothing(s: Digest)
    ensures Absorb(s, []) == s
  {
  }

  // ---- HMAC -----------------------------------------------------------------------------------------

  /** A key of at most 64 bytes, filled up with zeros and combined with `pad`. */
  function Pad(key: seq<Byte>, pad: Byte): (r: seq<Byte>)
    requires |key| <= 64
    ensures |r| == 64
  {
    seq(64, i requires 0 <= i < 64 => (if i < |key| then key[i] else 0) ^ pad)
  }

  /** Section 2 of RFC 2104, with MD5 as the hash function. */
  function Hmac(text: seq<Byte>, key: seq<Byte>): seq<Byte> {
    var k := if |key| > 64 then Hash(key) else key;
    Hash(Pad(k, 0x5c) + Hash(Pad(k, 0x36) + text))
  }

  /** One of the two pads of `hmac_md5`. */
  method FillPad(key: seq<Byte>, pad: Byte) returns (r: seq<Byte>)
    requires |key| <= 64
    ensures r == Pad(key, pad)
  {
    var block := new Byte[64];
    forall i | 0 <= i < 64 { block[i] := if i < |key| then key[i] else 0; }
    var i := 0;
    while i < 64
      invariant 0 <= i <= 64
      invariant forall j :: 0 <= j < 64 ==>
        block[j] == if j < i then Pad(key, pad)[j] else if j < |key| then key[j] else 0
    {
      block[i] := block[i] ^ pad;
      i := i + 1;
    }
    return block[..];
  }

  /** `hmac_md5`. */
  method HmacMd5(text: seq<Byte>, key: seq<Byte>) returns (digest: seq<Byte>)
    requires |text| < TWO32 && |key| < TWO32
    ensures digest == Hmac(text, key)
  {
    hide Hash, Absorb, Remainder, Padded, DigestBytes, Pad, NumberBytes, Context.Valid;
    var k := key;
    if |key| > 64 {
      var tctx := new Context();
      tctx.Update(key);
      assert tctx.fed == key;
      k := tctx.Final();
    }
    var ipad := FillPad(k, 0x36);
    var opad := FillPad(k, 0x5c);
    var inner := new Context();
    inner.Update(ipad);
    inner.Update(text);
    assert inner.fed == ipad + text;
    digest := inner.Final();
    var outer := new Context();
    outer.Update(opad);
    outer.Update(digest);
    assert outer.fed == opad + digest;
    digest := outer.Final();
  }
}
