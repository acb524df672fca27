/**
 * SHA-256: the padding, the message schedule and the rounds of FIPS 180-4, and the loops of
 * `sha256_block` and `sha256_bytes` that compute them.
 */
module Sha256 {
  import opened Checked
  import opened Primes

  type Byte = b: nat | b < 256
  type Bytes = seq<Byte>
  type Word = bv32

  // Numbers as big-endian bytes.

  function Power256(n: nat): nat { if n == 0 then 1 else 256 * Power256(n - 1) }

  function BigEndian(value: nat, width: nat): (r: Bytes)
    ensures |r| == width
    decreases width
  {
    if width == 0 then [] else BigEndian(value / 256, width - 1) + [value % 256]
  }

  function Value(bytes: Bytes): nat {
    if bytes == [] then 0 else 256 * Value(bytes[..|bytes| - 1]) + bytes[|bytes| - 1]
  }

  lemma {:induction false} ValueBound(bytes: Bytes)
    ensures Value(bytes) < Power256(|bytes|)
    decreases |bytes|
  {
    if bytes != [] {
      ValueBound(bytes[..|bytes| - 1]);
    }
  }

  lemma {:induction false} BigEndianRoundTrip(value: nat, width: nat)
    requires value < Power256(width)
    ensures Value(BigEndian(value, width)) == value
    decreases width
  {
    if width != 0 {
      BigEndianRoundTrip(value / 256, width - 1);
      var r := BigEndian(value, width);
      assert r[..width - 1] == BigEndian(value / 256, width - 1);
    }
  }

  function WordOf(bytes: Bytes): Word
    requires |bytes| == 4
  {
    ValueBound(bytes);
    assert Power256(4) == 0x1_0000_0000;
    Value(bytes) as bv32
  }

  function BytesOf(word: Word): Bytes { BigEndian(word as nat, 4) }

  // Section 3.2 and 4.1.2: operations on words.

  function Rotr(n: nat, x: Word): Word
    requires 0 < n < 32
  {
    (x >> (n as bv6)) | (x << ((32 - n) as bv6))
  }

  /** Addition modulo 2 to the 32. */
  function Plus(x: Word, y: Word): Word { x + y }

  function Sum4(a: Word, b: Word, c: Word, d: Word): Word { a + b + c + d }

  function Xor3(a: Word, b: Word, c: Word): Word { a ^ b ^ c }

  function Ch(x: Word, y: Word, z: Word): Word { (x & y) ^ (!x & z) }
  function Maj(x: Word, y: Word, z: Word): Word { (x & y) ^ (x & z) ^ (y & z) }
  function BigSigma0(x: Word): Word { Xor3(Rotr(2, x), Rotr(13, x), Rotr(22, x)) }
  function BigSigma1(x: Word): Word { Xor3(Rotr(6, x), Rotr(11, x), Rotr(25, x)) }
  function SmallSigma0(x: Word): Word { Xor3(Rotr(7, x), Rotr(18, x), x >> 3) }
  function SmallSigma1(x: Word): Word { Xor3(Rotr(17, x), Rotr(19, x), x >> 10) }

  // Section 4.2.2 and 5.3.3: constants.

  function RoundConstant(t: nat): nat
    requires t < 64
  {
    if t == 0 then 0x428a2f98 else if t == 1 then 0x71374491 else if t == 2 then 0xb5c0fbcf
    else if t == 3 then 0xe9b5dba5 else
    if t == 4 then 0x3956c25b else if t == 5 then 0x59f111f1 else if t == 6 then 0x923f82a4
    else if t == 7 then 0xab1c5ed5 else
    if t == 8 then 0xd807aa98 else if t == 9 then 0x12835b01 else if t == 10 then 0x243185be
    else if t == 11 then 0x550c7dc3 else
    if t == 12 then 0x72be5d74 else if t == 13 then 0x80deb1fe else if t == 14 then 0x9bdc06a7
    else if t == 15 then 0xc19bf174 else
    if t == 16 then 0xe49b69c1 else if t == 17 then 0xefbe4786 else if t == 18 then 0x0fc19dc6
    else if t == 19 then 0x240ca1cc else
    if t == 20 then 0x2de92c6f else if t == 21 then 0x4a7484aa else if t == 22 then 0x5cb0a9dc
    else if t == 23 then 0x76f988da else
    if t == 24 then 0x983e5152 else if t == 25 then 0xa831c66d else if t == 26 then 0xb00327c8
    else if t == 27 then 0xbf597fc7 else
    if t == 28 then 0xc6e00bf3 else if t == 29 then 0xd5a79147 else if t == 30 then 0x06ca6351
    else if t == 31 then 0x14292967 else
    if t == 32 then 0x27b70a85 else if t == 33 then 0x2e1b2138 else if t == 34 then 0x4d2c6dfc
    else if t == 35 then 0x53380d13 else
    if t == 36 then 0x650a7354 else if t == 37 then 0x766a0abb else if t == 38 then 0x81c2c92e
    else if t == 39 then 0x92722c85 else
    if t == 40 then 0xa2bfe8a1 else if t == 41 then 0xa81a664b else if t == 42 then 0xc24b8b70
    else if t == 43 then 0xc76c51a3 else
    if t == 44 then 0xd192e819 else if t == 45 then 0xd6990624 else if t == 46 then 0xf40e3585
    else if t == 47 then 0x106aa070 else
    if t == 48 then 0x19a4c116 else if t == 49 then 0x1e376c08 else if t == 50 then 0x2748774c
    else if t == 51 then 0x34b0bcb5 else
    if t == 52 then 0x391c0cb3 else if t == 53 then 0x4ed8aa4a else if t == 54 then 0x5b9cca4f
    else if t == 55 then 0x682e6ff3 else
    if t == 56 then 0x748f82ee else if t == 57 then 0x78a5636f else if t == 58 then 0x84c87814
    else if t == 59 then 0x8cc70208 else
    if t == 60 then 0x90befffa else if t == 61 then 0xa4506ceb else if t == 62 then 0xbef9a3f7 else 0xc67178f2
  }

  function InitialWord(t: nat): nat
    requires t < 8
  {
    if t == 0 then 0x6a09e667 else if t == 1 then 0xbb67ae85 else if t == 2 then 0x3c6ef372
    else if t == 3 then 0xa54ff53a else
    if t == 4 then 0x510e527f else if t == 5 then 0x9b05688c else if t == 6 then 0x1f83d9ab else 0x5be0cd19
  }

  function Square(x: nat): nat { x * x }
  function Cube(x: nat): nat { x * x * x }

  /** `bits` are the first 32 bits of the fractional part of the square (cube) root of `p`, whose whole part is `c`. */
  predicate SquareRootBits(bits: nat, p: nat, c: nat) {
    var root := c * 0x1_0000_0000 + bits;
    bits < 0x1_0000_0000 && Square(root) <= p * Square(0x1_0000_0000) < Square(root + 1)
  }

  predicate CubeRootBits(bits: nat, p: nat, c: nat) {
    var root := c * 0x1_0000_0000 + bits;
    bits < 0x1_0000_0000 && Cube(root) <= p * Cube(0x1_0000_0000) < Cube(root + 1)
  }

  lemma InitialWordsAreRootBits(t: nat)
    requires t < 8
    ensures exists c: nat :: SquareRootBits(InitialWord(t), SmallPrime(t), c)
  {
    var p := SmallPrime(t);
    var c := if p < 4 then 1 else if p < 9 then 2 else if p < 16 then 3 else 4;
    assert SquareRootBits(InitialWord(t), p, c);
  }

  lemma RoundConstantsAreRootBits(t: nat)
    requires t < 64
    ensures exists c: nat :: CubeRootBits(RoundConstant(t), SmallPrime(t), c)
  {
    if t < 32 {
      EarlyConstants(t);
    } else if t < 48 {
      MiddleConstants(t);
    } else {
      LateConstants(t);
    }
  }

  lemma EarlyConstants(t: nat)
    requires t < 32
    ensures exists c: nat :: CubeRootBits(RoundConstant(t), SmallPrime(t), c)
  {
    var p := SmallPrime(t);
    var c := if p < 8 then 1 else if p < 27 then 2 else if p < 64 then 3 else if p < 125 then 4 else 5;
    assert CubeRootBits(RoundConstant(t), p, c);
  }

  lemma MiddleConstants(t: nat)
    requires 32 <= t < 48
    ensures exists c: nat :: CubeRootBits(RoundConstant(t), SmallPrime(t), c)
  {
    var p := SmallPrime(t);
    var c := if p < 216 then 5 else 6;
    assert CubeRootBits(RoundConstant(t), p, c);
  }

  lemma LateConstants(t: nat)
    requires 48 <= t < 64
    ensures exists c: nat :: CubeRootBits(RoundConstant(t), SmallPrime(t), c)
  {
    var p := SmallPrime(t);
    assert CubeRootBits(RoundConstant(t), p, 6);
  }

  function K(t: nat): Word
    requires t < 64
  {
    RoundConstant(t) as bv32
  }

  // Section 6.2.2: one block.

  /** The message schedule. */
  function Schedule(block: Bytes, t: nat): Word
    requires |block| == 64 && t < 64
  {
    if t < 16 then WordOf(block[4 * t..4 * t + 4])
    else
      Sum4(SmallSigma1(Schedule(block, t - 2)), Schedule(block, t - 7), SmallSigma0(Schedule(block, t - 15)),
          Schedule(block, t - 16))
  }

  /** The eight working variables, or the eight words of a hash value. */
  datatype Vars = Vars(a: Word, b: Word, c: Word, d: Word, e: Word, f: Word, g: Word, h: Word)

  function Round(v: Vars, k: Word, w: Word): Vars {
    var t1 := Plus(Plus(Plus(Plus(v.h, BigSigma1(v.e)), Ch(v.e, v.f, v.g)), k), w);
    var t2 := Plus(BigSigma0(v.a), Maj(v.a, v.b, v.c));
    Vars(Plus(t1, t2), v.a, v.b, v.c, Plus(v.d, t1), v.e, v.f, v.g)
  }

  function Rounds(v: Vars, block: Bytes, t: nat): Vars
    requires |block| == 64 && t <= 64
    decreases t
  {
    if t == 0 then v else Round(Rounds(v, block, t - 1), K(t - 1), Schedule(block, t - 1))
  }

  function Sum(v: Vars, w: Vars): Vars {
    Vars(Plus(v.a, w.a), Plus(v.b, w.b), Plus(v.c, w.c), Plus(v.d, w.d),
         Plus(v.e, w.e), Plus(v.f, w.f), Plus(v.g, w.g), Plus(v.h, w.h))
  }

  function Compress(v: Vars, block: Bytes): Vars
    requires |block| == 64
  {
    Sum(v, Rounds(v, block, 64))
  }

  // Sections 5.1.1, 5.2.1 and 6.2: padding, parsing and the whole hash.

  /** The number of zero bits after the one bit. */
  function ZeroBits(bitLength: nat): nat { (448 - (bitLength + 1)) % 512 }

  lemma ZeroBitsAreFewest(bitLength: nat, k: nat)
    ensures (bitLength + 1 + ZeroBits(bitLength)) % 512 == 448
    ensures (bitLength + 1 + k) % 512 == 448 ==> ZeroBits(bitLength) <= k
  {
    var q := (448 - (bitLength + 1)) / 512;
    assert bitLength + 1 + ZeroBits(bitLength) == 448 - 512 * q;
    if (bitLength + 1 + k) % 512 == 448 && k < ZeroBits(bitLength) {
      assert false;
    }
  }

  function Zeros(n: nat): (r: Bytes)
    ensures |r| == n
  {
    seq(n, _ => 0)
  }

  /** One bit, zero bits and the length; on whole bytes the first eight of these bits are 0x80. */
  function Padding(length: nat): Bytes {
    [0x80] + Zeros(ZeroBits(8 * length) / 8) + BigEndian(8 * length, 8)
  }

  function Padded(message: Bytes): (r: Bytes)
    ensures |r| % 64 == 0
  {
    ZeroBitsByByte(|message|);
    message + Padding(|message|)
  }

  lemma ZeroBitsByByte(length: nat)
    ensures ZeroBits(8 * length) % 8 == 7
    ensures ZeroBits(8 * length) / 8 == (55 - length) % 64
    ensures (length + 9 + ZeroBits(8 * length) / 8) % 64 == 0
  {
    var z := (55 - length) % 64;
    assert 447 - 8 * length == 8 * (55 - length) + 7;
    assert ZeroBits(8 * length) == 8 * z + 7;
    assert length + 9 + z == 64 - 64 * ((55 - length) / 64);
  }

  function Block(blocks: Bytes, i: nat): (r: Bytes)
    requires 64 * i + 64 <= |blocks|
    ensures |r| == 64
  {
    blocks[64 * i..64 * i + 64]
  }

  /** The hash value after the first `n` blocks. */
  function HashValue(blocks: Bytes, n: nat): Vars
    requires 64 * n <= |blocks|
    decreases n
  {
    if n == 0 then InitialHash() else Compress(HashValue(blocks, n - 1), Block(blocks, n - 1))
  }

  function InitialHash(): Vars {
    Vars(InitialWord(0) as bv32, InitialWord(1) as bv32, InitialWord(2) as bv32, InitialWord(3) as bv32,
         InitialWord(4) as bv32, InitialWord(5) as bv32, InitialWord(6) as bv32, InitialWord(7) as bv32)
  }

  function Concatenated(words: seq<Word>): Bytes {
    if words == [] then [] else Concatenated(words[..|words| - 1]) + BytesOf(words[|words| - 1])
  }

  function Digest(v: Vars): Bytes { Concatenated([v.a, v.b, v.c, v.d, v.e, v.f, v.g, v.h]) }

  function Hash(message: Bytes): Bytes {
    Digest(HashValue(Padded(message), |Padded(message)| / 64))
  }

  // The program.

  function VarsOf(words: seq<Word>): Vars
    requires |words| == 8
  {
    Vars(words[0], words[1], words[2], words[3], words[4], words[5], words[6], words[7])
  }

  function RotateRight(n: nat, x: Word): Word
    requires 0 < n < 32
  {
    x.RotateRight(n)
  }

  /** Rotating is what the specification writes as two shifts. */
  lemma RotationIsShifts(x: Word)
    ensures RotateRight(2, x) == Rotr(2, x) && RotateRight(13, x) == Rotr(13, x) && RotateRight(22, x) == Rotr(22, x)
    ensures RotateRight(6, x) == Rotr(6, x) && RotateRight(11, x) == Rotr(11, x) && RotateRight(25, x) == Rotr(25, x)
    ensures RotateRight(7, x) == Rotr(7, x) && RotateRight(18, x) == Rotr(18, x)
    ensures RotateRight(17, x) == Rotr(17, x) && RotateRight(19, x) == Rotr(19, x)
  {
  }

  function RotatedSmall0(x: Word): Word { Xor3(RotateRight(7, x), RotateRight(18, x), x >> 3) }
  function RotatedSmall1(x: Word): Word { Xor3(RotateRight(17, x), RotateRight(19, x), x >> 10) }
  function RotatedBig0(x: Word): Word { Xor3(RotateRight(2, x), RotateRight(13, x), RotateRight(22, x)) }
  function RotatedBig1(x: Word): Word { Xor3(RotateRight(6, x), RotateRight(11, x), RotateRight(25, x)) }

  lemma SigmasAgree(x: Word)
    ensures RotatedSmall0(x) == SmallSigma0(x) && RotatedSmall1(x) == SmallSigma1(x)
    ensures RotatedBig0(x) == BigSigma0(x) && RotatedBig1(x) == BigSigma1(x)
  {
    hide RotateRight, Rotr, Xor3;
    RotationIsShifts(x);
  }

  lemma AnyOrder(a: Word, b: Word, c: Word, d: Word)
    ensures Sum4(a, b, c, d) == Sum4(d, c, b, a)
  {
  }

  /** The next word of the schedule, added up in the program's order. */
  function NextWord(w16: Word, w15: Word, w7: Word, w2: Word): Word {
    Sum4(w16, RotatedSmall0(w15), w7, RotatedSmall1(w2))
  }

  lemma NextWordIsScheduled(data: Bytes, t: nat)
    requires |data| == 64 && 16 <= t < 64
    ensures NextWord(Schedule(data, t - 16), Schedule(data, t - 15), Schedule(data, t - 7), Schedule(data, t - 2))
            == Schedule(data, t)
  {
    hide Sum4, RotatedSmall0, RotatedSmall1, SmallSigma0, SmallSigma1, WordOf;
    var w16, w15, w7, w2 := Schedule(data, t - 16), Schedule(data, t - 15), Schedule(data, t - 7), Schedule(data,
        t - 2);
    SigmasAgree(w15);
    SigmasAgree(w2);
    AnyOrder(w16, SmallSigma0(w15), w7, SmallSigma1(w2));
  }

  /** `words` filled by the first two loops of the block function. */
  method FillSchedule(data: Bytes) returns (words: array<Word>)
    requires |data| == 64
    ensures words.Length == 64 && fresh(words)
    ensures forall t :: 0 <= t < 64 ==> words[t] == Schedule(data, t)
  {
    hide Schedule, NextWord, WordOf;
    words := new Word[64](_ => 0);
    for index := 0 to 16
      invariant forall t :: 0 <= t < index ==> words[t] == Schedule(data, t)
    {
      FirstWords(data, index);
      words[index] := WordOf(data[4 * index..4 * index + 4]);
    }
    for index := 16 to 64
      invariant forall t :: 0 <= t < index ==> words[t] == Schedule(data, t)
    {
      NextWordIsScheduled(data, index);
      words[index] := NextWord(words[index - 16], words[index - 15], words[index - 7], words[index - 2]);
    }
  }

  lemma FirstWords(data: Bytes, t: nat)
    requires |data| == 64 && t < 16
    ensures Schedule(data, t) == WordOf(data[4 * t..4 * t + 4])
  {
  }

  /** One turn of the round loop: the array is shifted by one place. */
  function ShiftedWork(work: seq<Word>, k: Word, w: Word): (r: seq<Word>)
    requires |work| == 8
    ensures |r| == 8
  {
    var t1 := Plus(Plus(Plus(Plus(work[7], RotatedBig1(work[4])), Ch(work[4], work[5], work[6])), k), w);
    var t2 := Plus(RotatedBig0(work[0]), Maj(work[0], work[1], work[2]));
    [Plus(t1, t2), work[0], work[1], work[2], Plus(work[3], t1), work[4], work[5], work[6]]
  }

  lemma ShiftIsRound(work: seq<Word>, k: Word, w: Word)
    requires |work| == 8
    ensures VarsOf(ShiftedWork(work, k, w)) == Round(VarsOf(work), k, w)
  {
    hide Plus, Ch, Maj, RotatedBig0, RotatedBig1, BigSigma0, BigSigma1;
    SigmasAgree(work[4]);
    SigmasAgree(work[0]);
  }

  lemma RoundsStep(v: Vars, block: Bytes, t: nat)
    requires |block| == 64 && t < 64
    ensures Rounds(v, block, 0) == v
    ensures Rounds(v, block, t + 1) == Round(Rounds(v, block, t), K(t), Schedule(block, t))
  {
  }

  method Sha256Block(state: array<Word>, data: Bytes)
    requires state.Length == 8 && |data| == 64
    modifies state
    ensures VarsOf(state[..]) == Compress(VarsOf(old(state[..])), data)
  {
    hide Plus, Schedule, Round, Rounds, ShiftedWork, K;
    var words := FillSchedule(data);
    ghost var start := VarsOf(state[..]);
    RoundsStep(start, data, 0);
    var work := state[..];
    assert VarsOf(work) == Rounds(start, data, 0);
    for index := 0 to 64
      invariant |work| == 8 && state[..] == old(state[..])
      invariant forall t :: 0 <= t < 64 ==> words[t] == Schedule(data, t)
      invariant VarsOf(work) == Rounds(start, data, index)
    {
      RoundsStep(start, data, index);
      ShiftIsRound(work, K(index), words[index]);
      work := ShiftedWork(work, K(index), words[index]);
    }
    AddInto(state, work);
  }

  method AddInto(state: array<Word>, work: seq<Word>)
    requires state.Length == 8 == |work|
    modifies state
    ensures VarsOf(state[..]) == Sum(VarsOf(old(state[..])), VarsOf(work))
  {
    hide Plus;
    for slot := 0 to 8
      invariant forall i :: 0 <= i < slot ==> state[i] == Plus(old(state[i]), work[i])
      invariant forall i :: slot <= i < 8 ==> state[i] == old(state[i])
    {
      state[slot] := Plus(state[slot], work[slot]);
    }
  }

  // Whole messages.

  /** The tail, the padding and nothing else fill the last one or two blocks. */
  lemma LastBlocks(message: Bytes)
    ensures var full := |message| / 64;
            var tail := message[64 * full..];
            var used := if |tail| < 56 then 64 else 128;
            && |Padded(message)| == 64 * full + used
            && Padded(message)[..64 * full] == message[..64 * full]
            && Padded(message)[64 * full..] == tail + [0x80] + Zeros(used - 9 - |tail|) + BigEndian(8 * |message|, 8)
  {
    hide BigEndian;
    var full := |message| / 64;
    var tail := message[64 * full..];
    ZeroBitsByByte(|message|);
    var zeros := ZeroBits(8 * |message|) / 8;
    assert zeros == if |tail| < 56 then 55 - |tail| else 119 - |tail| by {
      ZeroBytesOfTail(full, |tail|);
    }
    assert Padded(message)[64 * full..] == tail + Padding(|message|);
  }

  lemma ZeroBytesOfTail(full: nat, tail: nat)
    requires tail < 64
    ensures (55 - (64 * full + tail)) % 64 == if tail < 56 then 55 - tail else 119 - tail
  {
    if tail < 56 {
      assert 55 - (64 * full + tail) == 64 * (0 - full) + (55 - tail);
    } else {
      assert 55 - (64 * full + tail) == 64 * (0 - full - 1) + (119 - tail);
    }
  }

  method FillLastBlocks(bytes: Bytes) returns (blocks: array<Byte>, used: nat)
    ensures blocks.Length == 128 && used in {64, 128} && fresh(blocks)
    ensures blocks[..used] == Padded(bytes)[64 * (|bytes| / 64)..]
  {
    hide BigEndian, Padded, Zeros;
    var full := |bytes| / 64;
    var tail := bytes[64 * full..];
    var length := BigEndian(8 * |bytes|, 8);
    blocks := new Byte[128](_ => 0);
    forall i | 0 <= i < |tail| { blocks[i] := tail[i]; }
    blocks[|tail|] := 0x80;
    used := if |tail| < 56 then 64 else 128;
    forall i | used - 8 <= i < used { blocks[i] := length[i - used + 8]; }
    LastBlocks(bytes);
    PieceTogether(blocks[..used], tail, used, length);
  }

  lemma PieceTogether(blocks: Bytes, tail: Bytes, used: nat, length: Bytes)
    requires |blocks| == used && |length| == 8 && |tail| + 9 <= used
    requires forall i :: 0 <= i < |tail| ==> blocks[i] == tail[i]
    requires blocks[|tail|] == 0x80
    requires forall i :: |tail| < i < used - 8 ==> blocks[i] == 0
    requires forall i :: used - 8 <= i < used ==> blocks[i] == length[i - used + 8]
    ensures blocks == tail + [0x80] + Zeros(used - 9 - |tail|) + length
  {
  }

  method WriteDigest(state: array<Word>) returns (output: Bytes)
    requires state.Length == 8
    ensures output == Digest(VarsOf(state[..]))
  {
    hide BytesOf, Concatenated;
    var words := state[..];
    ConcatenatedLength(words[..0]);
    var bytes := new Byte[32](_ => 0);
    for index := 0 to 8
      invariant bytes[..4 * index] == Concatenated(words[..index])
    {
      var word := BytesOf(words[index]);
      BytesOfLength(words[index]);
      ConcatenatedStep(words, index);
      ghost var done := bytes[..4 * index];
      forall i | 4 * index <= i < 4 * index + 4 { bytes[i] := word[i - 4 * index]; }
      Extended(bytes[..], done, word);
    }
    assert words[..8] == [words[0], words[1], words[2], words[3], words[4], words[5], words[6], words[7]];
    return bytes[..];
  }

  lemma Extended(bytes: Bytes, done: Bytes, more: Bytes)
    requires |done| + |more| <= |bytes|
    requires forall i :: 0 <= i < |done| ==> bytes[i] == done[i]
    requires forall i :: |done| <= i < |done| + |more| ==> bytes[i] == more[i - |done|]
    ensures bytes[..|done| + |more|] == done + more
  {
  }

  lemma ConcatenatedStep(words: seq<Word>, index: nat)
    requires index < |words|
    ensures Concatenated(words[..index + 1]) == Concatenated(words[..index]) + BytesOf(words[index])
  {
    assert words[..index + 1][..index] == words[..index];
  }

  lemma BytesOfLength(word: Word)
    ensures |BytesOf(word)| == 4
  {
  }

  /** The digest of every message whose bit length fits in 64 bits, and of no other. */
  method Sha256Bytes(bytes: Bytes) returns (r: Option<Bytes>)
    ensures r.Some? <==> 8 * |bytes| < 0x1_0000_0000_0000_0000
    ensures r.Some? ==> r.value == Hash(bytes) && |r.value| == 32
  {
    hide HashValue, Padded, Digest;
    if 0x1_0000_0000_0000_0000 <= 8 * |bytes| {
      return None;
    }
    LastBlocks(bytes);
    var full := |bytes| / 64;
    var state := HashFullBlocks(bytes, Padded(bytes), full);
    var blocks, used := FillLastBlocks(bytes);
    HashLastBlocks(state, blocks, used, Padded(bytes), full);
    var output := WriteDigest(state);
    DigestLength(VarsOf(state[..]));
    return Some(output);
  }

  method HashFullBlocks(bytes: Bytes, ghost padded: Bytes, full: nat) returns (state: array<Word>)
    requires 64 * full <= |bytes| && 64 * full <= |padded| && padded[..64 * full] == bytes[..64 * full]
    ensures state.Length == 8 && fresh(state) && VarsOf(state[..]) == HashValue(padded, full)
  {
    hide Compress, InitialHash, VarsOf;
    state := InitialState();
    for i := 0 to full
      invariant VarsOf(state[..]) == HashValue(padded, i)
    {
      SameBlock(padded, bytes, full, i);
      Sha256Block(state, bytes[64 * i..64 * i + 64]);
    }
  }

  method HashLastBlocks(state: array<Word>, blocks: array<Byte>, used: nat, ghost padded: Bytes, ghost full: nat)
    requires state.Length == 8 && blocks.Length == 128 && used in {64, 128}
    requires 64 * full <= |padded| && blocks[..used] == padded[64 * full..]
    requires VarsOf(state[..]) == HashValue(padded, full)
    modifies state
    ensures VarsOf(state[..]) == HashValue(padded, |padded| / 64)
  {
    hide Compress, InitialHash, VarsOf;
    for i := 0 to used / 64
      invariant blocks[..used] == padded[64 * full..]
      invariant VarsOf(state[..]) == HashValue(padded, full + i)
    {
      LaterBlock(padded, blocks[..used], full, i);
      assert blocks[..used][64 * i..64 * i + 64] == blocks[64 * i..64 * i + 64];
      Sha256Block(state, blocks[64 * i..64 * i + 64]);
    }
  }

  method InitialState() returns (state: array<Word>)
    ensures state.Length == 8 && fresh(state) && VarsOf(state[..]) == InitialHash()
  {
    state := new Word[] [InitialWord(0) as bv32, InitialWord(1) as bv32, InitialWord(2) as bv32, InitialWord(3) as bv32,
                         InitialWord(4) as bv32, InitialWord(5) as bv32, InitialWord(6) as bv32,
                             InitialWord(7) as bv32];
  }

  lemma SameBlock(padded: Bytes, bytes: Bytes, full: nat, i: nat)
    requires i < full && 64 * full <= |padded| && 64 * full <= |bytes|
    requires padded[..64 * full] == bytes[..64 * full]
    ensures Block(padded, i) == bytes[64 * i..64 * i + 64]
  {
    assert padded[64 * i..64 * i + 64] == padded[..64 * full][64 * i..64 * i + 64];
    assert bytes[64 * i..64 * i + 64] == bytes[..64 * full][64 * i..64 * i + 64];
  }

  lemma LaterBlock(padded: Bytes, rest: Bytes, full: nat, i: nat)
    requires 64 * full <= |padded| && rest == padded[64 * full..] && 64 * i + 64 <= |rest|
    ensures Block(padded, full + i) == rest[64 * i..64 * i + 64]
  {
  }

  lemma DigestLength(v: Vars)
    ensures |Digest(v)| == 32
  {
    ConcatenatedLength([v.a, v.b, v.c, v.d, v.e, v.f, v.g, v.h]);
  }

  lemma {:induction false} ConcatenatedLength(words: seq<Word>)
    ensures |Concatenated(words)| == 4 * |words|
  {
    if words != [] {
      ConcatenatedLength(words[..|words| - 1]);
    }
  }
}
