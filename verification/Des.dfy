/** The DES block cipher of the noVNC client: enciphering with the round keys reversed deciphers. */
module Des {
  import opened Common

  type Word = bv32

  /** The combined S-box and permutation tables; no theorem depends on their contents. */
  datatype Boxes = Boxes(sp1: Word -> Word, sp2: Word -> Word, sp3: Word -> Word, sp4: Word -> Word,
                         sp5: Word -> Word, sp6: Word -> Word, sp7: Word -> Word, sp8: Word -> Word)

  /** The two key words of one round. */
  datatype RoundKey = RoundKey(first: Word, second: Word)

  datatype Halves = Halves(l: Word, r: Word)

  function Swapped(h: Halves): Halves {
    Halves(h.r, h.l)
  }

  // ---------------------------------------------------------------- permutations

  function RotateLeft1(x: Word): Word {
    (x << 1) | ((x >> 31) & 1)
  }

  function RotateRight1(x: Word): Word {
    (x << 31) | (x >> 1)
  }

  /** Which bits of `lo` at `mask` differ from those of `hi` at `mask << k`. */
  function Differing(hi: Word, lo: Word, k: bv5, mask: Word): Word {
    ((hi >> k) ^ lo) & mask
  }

  function Flip(w: Word, bits: Word, k: bv5): Word {
    w ^ (bits << k)
  }

  /** A delta swap exchanges the bits of `hi` at `mask << k` with the bits of `lo` at `mask`. */
  function DeltaHi(hi: Word, lo: Word, k: bv5, mask: Word): Word {
    Flip(hi, Differing(hi, lo, k, mask), k)
  }

  function DeltaLo(hi: Word, lo: Word, k: bv5, mask: Word): Word {
    Flip(lo, Differing(hi, lo, k, mask), 0)
  }

  function OverLeft(h: Halves, k: bv5, mask: Word): Halves {
    Halves(DeltaHi(h.l, h.r, k, mask), DeltaLo(h.l, h.r, k, mask))
  }

  function OverRight(h: Halves, k: bv5, mask: Word): Halves {
    Halves(DeltaLo(h.r, h.l, k, mask), DeltaHi(h.r, h.l, k, mask))
  }

  /** `one` with every second bit taken from `other`. */
  function Mixed(one: Word, other: Word): Word {
    one ^ ((one ^ other) & 0xaaaaaaaa)
  }

  function Exchange(h: Halves): Halves {
    Halves(Mixed(h.l, h.r), Mixed(h.r, h.l))
  }

  function DeltasIn(h: Halves): Halves {
    OverRight(OverRight(OverLeft(OverLeft(h, 4, 0x0f0f0f0f), 16, 0x0000ffff), 2, 0x33333333), 8, 0x00ff00ff)
  }

  /** The permutation before the rounds. */
  function Initial(h: Halves): Halves {
    var a := DeltasIn(h);
    var b := Exchange(Halves(a.l, RotateLeft1(a.r)));
    Halves(RotateLeft1(b.l), b.r)
  }

  function DeltasOut(h: Halves): Halves {
    OverRight(OverRight(OverLeft(OverLeft(h, 8, 0x00ff00ff), 2, 0x33333333), 16, 0x0000ffff), 4, 0x0f0f0f0f)
  }

  /** The permutation after the rounds. */
  function Final(h: Halves): Halves {
    var a := Exchange(Halves(h.l, RotateRight1(h.r)));
    DeltasOut(Halves(RotateRight1(a.l), a.r))
  }

  lemma RotationsInvert(x: Word)
    ensures RotateRight1(RotateLeft1(x)) == x && RotateLeft1(RotateRight1(x)) == x
  {}

  /** The masks and distances of the cipher: the moved bits do not overlap those they are moved to. */
  predicate Disjoint(k: bv5, mask: Word) {
    || (k == 4 && mask == 0x0f0f0f0f)
    || (k == 16 && mask == 0x0000ffff)
    || (k == 2 && mask == 0x33333333)
    || (k == 8 && mask == 0x00ff00ff)
  }

  lemma DeltaTwice(hi: Word, lo: Word, k: bv5, mask: Word)
    requires Disjoint(k, mask)
    ensures DeltaHi(DeltaHi(hi, lo, k, mask), DeltaLo(hi, lo, k, mask), k, mask) == hi
    ensures DeltaLo(DeltaHi(hi, lo, k, mask), DeltaLo(hi, lo, k, mask), k, mask) == lo
  {
    if k == 4 {
      Delta4(hi, lo);
    } else if k == 16 {
      Delta16(hi, lo);
    } else if k == 2 {
      Delta2(hi, lo);
    } else {
      Delta8(hi, lo);
    }
  }

  lemma Delta4(hi: Word, lo: Word)
    ensures DeltaHi(DeltaHi(hi, lo, 4, 0x0f0f0f0f), DeltaLo(hi, lo, 4, 0x0f0f0f0f), 4, 0x0f0f0f0f) == hi
    ensures DeltaLo(DeltaHi(hi, lo, 4, 0x0f0f0f0f), DeltaLo(hi, lo, 4, 0x0f0f0f0f), 4, 0x0f0f0f0f) == lo
  {}

  lemma Delta16(hi: Word, lo: Word)
    ensures DeltaHi(DeltaHi(hi, lo, 16, 0x0000ffff), DeltaLo(hi, lo, 16, 0x0000ffff), 16, 0x0000ffff) == hi
    ensures DeltaLo(DeltaHi(hi, lo, 16, 0x0000ffff), DeltaLo(hi, lo, 16, 0x0000ffff), 16, 0x0000ffff) == lo
  {}

  lemma Delta2(hi: Word, lo: Word)
    ensures DeltaHi(DeltaHi(hi, lo, 2, 0x33333333), DeltaLo(hi, lo, 2, 0x33333333), 2, 0x33333333) == hi
    ensures DeltaLo(DeltaHi(hi, lo, 2, 0x33333333), DeltaLo(hi, lo, 2, 0x33333333), 2, 0x33333333) == lo
  {}

  lemma Delta8(hi: Word, lo: Word)
    ensures DeltaHi(DeltaHi(hi, lo, 8, 0x00ff00ff), DeltaLo(hi, lo, 8, 0x00ff00ff), 8, 0x00ff00ff) == hi
    ensures DeltaLo(DeltaHi(hi, lo, 8, 0x00ff00ff), DeltaLo(hi, lo, 8, 0x00ff00ff), 8, 0x00ff00ff) == lo
  {}

  lemma OverTwice(h: Halves, k: bv5, mask: Word)
    requires Disjoint(k, mask)
    ensures OverLeft(OverLeft(h, k, mask), k, mask) == h
    ensures OverRight(OverRight(h, k, mask), k, mask) == h
  {
    DeltaTwice(h.l, h.r, k, mask);
    DeltaTwice(h.r, h.l, k, mask);
  }

  lemma MixedTwice(one: Word, other: Word)
    ensures Mixed(Mixed(one, other), Mixed(other, one)) == one
  {}

  lemma ExchangeTwice(h: Halves)
    ensures Exchange(Exchange(h)) == h
  {
    MixedTwice(h.l, h.r);
    MixedTwice(h.r, h.l);
  }

  /** With the halves exchanged, the final delta swaps undo the initial ones... */
  lemma DeltasOutUndoIn(h: Halves)
    ensures DeltasOut(Swapped(DeltasIn(h))) == Swapped(h)
  {
    var a := OverLeft(h, 4, 0x0f0f0f0f);
    var b := OverLeft(a, 16, 0x0000ffff);
    var c := OverRight(b, 2, 0x33333333);
    OverTwice(c, 8, 0x00ff00ff);
    OverTwice(b, 2, 0x33333333);
    OverTwice(a, 16, 0x0000ffff);
    OverTwice(h, 4, 0x0f0f0f0f);
    assert OverLeft(Swapped(OverRight(c, 8, 0x00ff00ff)), 8, 0x00ff00ff) == Swapped(c);
    assert OverLeft(Swapped(c), 2, 0x33333333) == Swapped(b);
    assert OverRight(Swapped(b), 16, 0x0000ffff) == Swapped(a);
    assert OverRight(Swapped(a), 4, 0x0f0f0f0f) == Swapped(h);
  }

  /** ...and the initial ones undo the final ones. */
  lemma DeltasInUndoOut(h: Halves)
    ensures DeltasIn(Swapped(DeltasOut(h))) == Swapped(h)
  {
    var a := OverLeft(h, 8, 0x00ff00ff);
    var b := OverLeft(a, 2, 0x33333333);
    var c := OverRight(b, 16, 0x0000ffff);
    OverTwice(c, 4, 0x0f0f0f0f);
    OverTwice(b, 16, 0x0000ffff);
    OverTwice(a, 2, 0x33333333);
    OverTwice(h, 8, 0x00ff00ff);
    assert OverLeft(Swapped(OverRight(c, 4, 0x0f0f0f0f)), 4, 0x0f0f0f0f) == Swapped(c);
    assert OverLeft(Swapped(c), 16, 0x0000ffff) == Swapped(b);
    assert OverRight(Swapped(b), 2, 0x33333333) == Swapped(a);
    assert OverRight(Swapped(a), 8, 0x00ff00ff) == Swapped(h);
  }

  lemma FinalUndoesInitial(h: Halves)
    ensures Final(Swapped(Initial(h))) == Swapped(h)
  {
    var a := DeltasIn(h);
    var turned := Halves(a.l, RotateLeft1(a.r));
    RotationsInvert(a.r);
    RotationsInvert(Exchange(turned).l);
    ExchangeTwice(turned);
    assert Exchange(Swapped(Exchange(turned))) == Swapped(turned);
    DeltasOutUndoIn(h);
  }

  lemma InitialUndoesFinal(h: Halves)
    ensures Initial(Swapped(Final(h))) == Swapped(h)
  {
    var turned := Halves(h.l, RotateRight1(h.r));
    var a := Exchange(turned);
    var b := Halves(RotateRight1(a.l), a.r);
    DeltasInUndoOut(b);
    RotationsInvert(a.l);
    RotationsInvert(h.r);
    ExchangeTwice(turned);
    assert Exchange(Swapped(a)) == Swapped(turned);
  }

  /** Bit `j` of each of the eight bytes of a block, the last byte's first. */
  function Column(h: Halves, j: bv5): Word {
    BytesBit(h.r, j, 4) | BytesBit(h.l, j, 0)
  }

  function BytesBit(w: Word, j: bv5, at: bv5): Word {
    (((w >> j) & 1) << (at + 3)) | (((w >> (j + 8)) & 1) << (at + 2)) | (((w >> (j + 16)) & 1) << (at + 1))
    | (((w >> (j + 24)) & 1) << at)
  }

  /** One row of the table: eight bits of a half, which the cipher keeps rotated by one. */
  predicate RowIs(half: Word, shift: bv5, column: Word) {
    (RotateRight1(half) >> shift) & 0xff == column
  }

  lemma Row6(h: Halves)
    ensures RowIs(Initial(h).l, 24, Column(h, 6))
  {}

  lemma Row4(h: Halves)
    ensures RowIs(Initial(h).l, 16, Column(h, 4))
  {}

  lemma Row2(h: Halves)
    ensures RowIs(Initial(h).l, 8, Column(h, 2))
  {}

  lemma Row0(h: Halves)
    ensures RowIs(Initial(h).l, 0, Column(h, 0))
  {}

  lemma Row7(h: Halves)
    ensures RowIs(Initial(h).r, 24, Column(h, 7))
  {}

  lemma Row5(h: Halves)
    ensures RowIs(Initial(h).r, 16, Column(h, 5))
  {}

  lemma Row3(h: Halves)
    ensures RowIs(Initial(h).r, 8, Column(h, 3))
  {}

  lemma Row1(h: Halves)
    ensures RowIs(Initial(h).r, 0, Column(h, 1))
  {}

  /**
   * The initial permutation of FIPS 46-3, row by row: in the standard's numbering the left half is bits
   * 58, 50, ..., 2, then 60, ..., and the right half bits 57, 49, ..., 1, then 59, ...
   */
  lemma InitialIsStandard(h: Halves)
    ensures var p := Initial(h);
      && RowIs(p.l, 24, Column(h, 6))
      && RowIs(p.l, 16, Column(h, 4))
      && RowIs(p.l, 8, Column(h, 2))
      && RowIs(p.l, 0, Column(h, 0))
      && RowIs(p.r, 24, Column(h, 7))
      && RowIs(p.r, 16, Column(h, 5))
      && RowIs(p.r, 8, Column(h, 3))
      && RowIs(p.r, 0, Column(h, 1))
  {
    Row6(h); Row4(h); Row2(h); Row0(h); Row7(h); Row5(h); Row3(h); Row1(h);
  }

  // ---------------------------------------------------------------- rounds

  /** A mixing function: of a round key and one half. */
  type Mixer = (RoundKey, Word) -> Word

  /** What the eight boxes get to see, six bits each. */
  function BoxInputs(k: RoundKey, half: Word): (s: seq<Word>)
    ensures |s| == 8
  {
    var x := ((half << 28) | (half >> 4)) ^ k.first;
    var y := half ^ k.second;
    [(x >> 24) & 0x3f, (y >> 24) & 0x3f, (x >> 16) & 0x3f, (y >> 16) & 0x3f,
     (x >> 8) & 0x3f, (y >> 8) & 0x3f, x & 0x3f, y & 0x3f]
  }

  function Mix(t: Boxes, k: RoundKey, half: Word): Word {
    var s := BoxInputs(k, half);
    t.sp7(s[6]) | t.sp5(s[4]) | t.sp3(s[2]) | t.sp1(s[0]) | t.sp8(s[7]) | t.sp6(s[5]) | t.sp4(s[3]) | t.sp2(s[1])
  }

  /** The six bits of `w` that end `n` places after its last one, going round to the first. */
  function SixUpTo(w: Word, n: bv5): Word {
    ((w << n) | (w >> (32 - n as bv6))) & 0x3f
  }

  lemma OddBoxes(half: Word, key: Word)
    ensures var w := RotateRight1(half); var x := ((half << 28) | (half >> 4)) ^ key;
      && x & 0x3f == SixUpTo(w, 29) ^ (key & 0x3f)
      && (x >> 8) & 0x3f == SixUpTo(w, 21) ^ ((key >> 8) & 0x3f)
      && (x >> 16) & 0x3f == SixUpTo(w, 13) ^ ((key >> 16) & 0x3f)
      && (x >> 24) & 0x3f == SixUpTo(w, 5) ^ ((key >> 24) & 0x3f)
  {}

  lemma EvenBoxes(half: Word, key: Word)
    ensures var w := RotateRight1(half); var y := half ^ key;
      && y & 0x3f == SixUpTo(w, 1) ^ (key & 0x3f)
      && (y >> 8) & 0x3f == SixUpTo(w, 25) ^ ((key >> 8) & 0x3f)
      && (y >> 16) & 0x3f == SixUpTo(w, 17) ^ ((key >> 16) & 0x3f)
      && (y >> 24) & 0x3f == SixUpTo(w, 9) ^ ((key >> 24) & 0x3f)
  {}

  /**
   * The expansion of FIPS 46-3: box i sees the six bits of the half that end at its bit 4i + 1, going
   * round, mixed with six bits of the round key. The cipher keeps the half rotated by one.
   */
  lemma ExpansionIsStandard(k: RoundKey, half: Word)
    ensures var w := RotateRight1(half);
      BoxInputs(k, half) ==
      [SixUpTo(w, 5) ^ ((k.first >> 24) & 0x3f), SixUpTo(w, 9) ^ ((k.second >> 24) & 0x3f),
       SixUpTo(w, 13) ^ ((k.first >> 16) & 0x3f), SixUpTo(w, 17) ^ ((k.second >> 16) & 0x3f),
       SixUpTo(w, 21) ^ ((k.first >> 8) & 0x3f), SixUpTo(w, 25) ^ ((k.second >> 8) & 0x3f),
       SixUpTo(w, 29) ^ (k.first & 0x3f), SixUpTo(w, 1) ^ (k.second & 0x3f)]
  {
    OddBoxes(half, k.first);
    EvenBoxes(half, k.second);
  }

  function MixerOf(t: Boxes): Mixer {
    (k, half) => Mix(t, k, half)
  }

  /** One round: mix one half into the other, then exchange them. */
  function Round(f: Mixer, k: RoundKey, h: Halves): Halves {
    Halves(h.r, Feistel(f, k, h.l, h.r))
  }

  function Feistel(f: Mixer, k: RoundKey, into: Word, from: Word): Word {
    into ^ f(k, from)
  }

  function Rounds(f: Mixer, keys: seq<RoundKey>, h: Halves): Halves
    decreases |keys|
  {
    if keys == [] then h else Rounds(f, keys[1..], Round(f, keys[0], h))
  }

  function Reverse(keys: seq<RoundKey>): (r: seq<RoundKey>)
    ensures |r| == |keys| && forall i | 0 <= i < |r| :: r[i] == keys[|keys| - 1 - i]
  {
    if keys == [] then [] else Reverse(keys[1..]) + [keys[0]]
  }

  lemma XorTwice(a: Word, b: Word)
    ensures (a ^ b) ^ b == a
  {}

  lemma {:induction false} RoundsAppend(f: Mixer, a: seq<RoundKey>, b: seq<RoundKey>, h: Halves)
    ensures Rounds(f, a + b, h) == Rounds(f, b, Rounds(f, a, h))
    decreases |a|
  {
    if a == [] {
      assert a + b == b;
    } else {
      assert (a + b)[1..] == a[1..] + b;
      RoundsAppend(f, a[1..], b, Round(f, a[0], h));
    }
  }

  /** Feistel: whatever the mixing function, the reversed keys run the rounds backwards. */
  lemma {:induction false} RoundsInvert(f: Mixer, keys: seq<RoundKey>, h: Halves)
    ensures Rounds(f, Reverse(keys), Swapped(Rounds(f, keys, h))) == Swapped(h)
    decreases |keys|
  {
    if keys != [] {
      var next := Round(f, keys[0], h);
      RoundsInvert(f, keys[1..], next);
      RoundsAppend(f, Reverse(keys[1..]), [keys[0]], Swapped(Rounds(f, keys, h)));
      XorTwice(h.l, f(keys[0], h.r));
      assert Round(f, keys[0], Swapped(next)) == Swapped(h);
      assert [keys[0]][1..] == [];
      assert Rounds(f, [keys[0]], Swapped(next)) == Round(f, keys[0], Swapped(next));
    }
  }

  // ---------------------------------------------------------------- blocks

  type Block = s: seq<bv8> | |s| == 8 witness [0, 0, 0, 0, 0, 0, 0, 0]

  function Squash(b0: bv8, b1: bv8, b2: bv8, b3: bv8): Word {
    (b0 as Word << 24) | (b1 as Word << 16) | (b2 as Word << 8) | (b3 as Word)
  }

  function ByteOf(w: Word, i: nat): bv8
    requires i < 4
  {
    if i == 0 then ((w >> 24) & 0xff) as bv8
    else if i == 1 then ((w >> 16) & 0xff) as bv8
    else if i == 2 then ((w >> 8) & 0xff) as bv8
    else (w & 0xff) as bv8
  }

  lemma BytesOfSquash(b0: bv8, b1: bv8, b2: bv8, b3: bv8)
    ensures var w := Squash(b0, b1, b2, b3);
      ByteOf(w, 0) == b0 && ByteOf(w, 1) == b1 && ByteOf(w, 2) == b2 && ByteOf(w, 3) == b3
  {}

  lemma SquashOfBytes(w: Word)
    ensures Squash(ByteOf(w, 0), ByteOf(w, 1), ByteOf(w, 2), ByteOf(w, 3)) == w
  {}

  function ToHalves(b: Block): Halves {
    Halves(Squash(b[0], b[1], b[2], b[3]), Squash(b[4], b[5], b[6], b[7]))
  }

  function Spread(first: Word, second: Word): Block {
    [ByteOf(first, 0), ByteOf(first, 1), ByteOf(first, 2), ByteOf(first, 3),
     ByteOf(second, 0), ByteOf(second, 1), ByteOf(second, 2), ByteOf(second, 3)]
  }

  function Encipher(f: Mixer, keys: seq<RoundKey>, b: Block): Block {
    var h := Final(Rounds(f, keys, Initial(ToHalves(b))));
    Spread(h.r, h.l)
  }

  lemma HalvesOfSpread(h: Halves)
    ensures ToHalves(Spread(h.l, h.r)) == h
  {
    SquashOfBytes(h.l);
    SquashOfBytes(h.r);
  }

  lemma SpreadOfHalves(b: Block)
    ensures Spread(ToHalves(b).l, ToHalves(b).r) == b
  {
    BytesOfSquash(b[0], b[1], b[2], b[3]);
    BytesOfSquash(b[4], b[5], b[6], b[7]);
  }

  /** Enciphering with the round keys in reverse order deciphers, for all keys, tables and blocks. */
  lemma ReversedKeysDecipher(f: Mixer, keys: seq<RoundKey>, b: Block)
    ensures Encipher(f, Reverse(keys), Encipher(f, keys, b)) == b
  {
    var h := ToHalves(b);
    var m := Initial(h);
    var n := Rounds(f, keys, m);
    var out := Final(n);
    HalvesOfSpread(Swapped(out));
    InitialUndoesFinal(n);
    RoundsInvert(f, keys, m);
    FinalUndoesInitial(h);
    SpreadOfHalves(b);
  }

  /** Different blocks have different ciphertexts. */
  lemma EncipherInjective(f: Mixer, keys: seq<RoundKey>, a: Block, b: Block)
    requires Encipher(f, keys, a) == Encipher(f, keys, b)
    ensures a == b
  {
    ReversedKeysDecipher(f, keys, a);
    ReversedKeysDecipher(f, keys, b);
  }

  // ---------------------------------------------------------------- the cipher object

  function PairsOf(keys: seq<Word>): (p: seq<RoundKey>)
    requires |keys| == 32
    ensures |p| == 16
  {
    seq(16, i requires 0 <= i < 16 => RoundKey(keys[2 * i], keys[2 * i + 1]))
  }

  /** Two passes use four key words in a row. */
  lemma TwoPairs(keys: seq<Word>, i: nat)
    requires |keys| == 32 && i < 8
    ensures PairsOf(keys)[2 * i] == RoundKey(keys[4 * i], keys[4 * i + 1])
    ensures PairsOf(keys)[2 * i + 1] == RoundKey(keys[4 * i + 2], keys[4 * i + 3])
  {}

  lemma TwoRounds(f: Mixer, keys: seq<RoundKey>, i: nat, h: Halves)
    requires i + 2 <= |keys|
    ensures var l := Feistel(f, keys[i], h.l, h.r); var r := Feistel(f, keys[i + 1], h.r, l);
      Rounds(f, keys[i..], h) == Rounds(f, keys[i + 2..], Halves(l, r))
  {
    assert keys[i..][1..] == keys[i + 1..] && keys[i + 1..][1..] == keys[i + 2..];
  }

  /** After `i` passes the remaining rounds lead to `goal`. */
  predicate LeadsTo(f: Mixer, keys: seq<RoundKey>, i: nat, h: Halves, goal: Halves) {
    2 * i <= |keys| && Rounds(f, keys[2 * i..], h) == goal
  }

  lemma OnePassOn(f: Mixer, keys: seq<RoundKey>, i: nat, h: Halves, goal: Halves)
    requires LeadsTo(f, keys, i, h, goal) && 2 * i + 2 <= |keys|
    ensures var l := Feistel(f, keys[2 * i], h.l, h.r); var r := Feistel(f, keys[2 * i + 1], h.r, l);
      LeadsTo(f, keys, i + 1, Halves(l, r), goal)
  {
    TwoRounds(f, keys, 2 * i, h);
  }

  lemma PassesEnd(f: Mixer, keys: seq<RoundKey>, h: Halves, goal: Halves)
    requires |keys| == 16
    ensures LeadsTo(f, keys, 8, h, goal) <==> h == goal
    ensures goal == Rounds(f, keys, h) ==> LeadsTo(f, keys, 0, h, goal)
  {
    assert keys[0..] == keys && keys[16..] == [];
  }

  lemma MixedLeft(l: Word, r: Word, x: Word)
    requires x == (l ^ r) & 0xaaaaaaaa
    ensures l ^ x == Mixed(l, r)
  {}

  lemma MixedRight(l: Word, r: Word, x: Word)
    requires x == (l ^ r) & 0xaaaaaaaa
    ensures r ^ x == Mixed(r, l)
  {}

  class Cipher {
    const mix: Mixer
    const keys: array<Word>

    ghost predicate Valid()
      reads keys
    {
      keys.Length == 32
    }

    constructor (boxes: Boxes, keys: array<Word>)
      requires keys.Length == 32
      ensures Valid() && mix == MixerOf(boxes) && this.keys == keys
    {
      mix, this.keys := MixerOf(boxes), keys;
    }

    /** Two rounds, with the halves staying in place. */
    method Pass(i: nat, l0: Word, r0: Word, ghost goal: Halves) returns (l: Word, r: Word)
      requires Valid() && i < 8 && LeadsTo(mix, PairsOf(keys[..]), i, Halves(l0, r0), goal)
      ensures LeadsTo(mix, PairsOf(keys[..]), i + 1, Halves(l, r), goal)
    {
      TwoPairs(keys[..], i);
      OnePassOn(mix, PairsOf(keys[..]), i, Halves(l0, r0), goal);
      l := Feistel(mix, RoundKey(keys[4 * i], keys[4 * i + 1]), l0, r0);
      r := Feistel(mix, RoundKey(keys[4 * i + 2], keys[4 * i + 3]), r0, l);
    }

    /** The sixteen rounds, two at a time. */
    method RunRounds(l0: Word, r0: Word) returns (l: Word, r: Word)
      requires Valid()
      ensures Halves(l, r) == Rounds(mix, PairsOf(keys[..]), Halves(l0, r0))
    {
      l, r := l0, r0;
      ghost var goal := Rounds(mix, PairsOf(keys[..]), Halves(l, r));
      PassesEnd(mix, PairsOf(keys[..]), Halves(l, r), goal);
      for i := 0 to 8
        invariant LeadsTo(mix, PairsOf(keys[..]), i, Halves(l, r), goal)
      {
        l, r := Pass(i, l, r, goal);
      }
      PassesEnd(mix, PairsOf(keys[..]), Halves(l, r), goal);
    }

    /** Encrypt eight bytes into a new array. */
    method Enc8(text: array<bv8>) returns (b: array<bv8>)
      requires Valid() && text.Length == 8
      ensures fresh(b) && b.Length == 8 && b[..] == Encipher(mix, PairsOf(keys[..]), text[..])
    {
      var l, r := SquashAll(text);
      l, r := Permute(l, r);
      l, r := RunRounds(l, r);
      l, r := Unpermute(l, r);
      b := SpreadAll(r, l);
    }

    static method SquashAll(text: array<bv8>) returns (l: Word, r: Word)
      requires text.Length == 8
      ensures Halves(l, r) == ToHalves(text[..])
    {
      l := Squash(text[0], text[1], text[2], text[3]);
      r := Squash(text[4], text[5], text[6], text[7]);
    }

    static method SpreadAll(first: Word, second: Word) returns (b: array<bv8>)
      ensures fresh(b) && b.Length == 8 && b[..] == Spread(first, second)
    {
      b := new bv8[8];
      ghost var goal := Spread(first, second);
      for i := 0 to 8
        invariant forall j | 0 <= j < i :: b[j] == goal[j]
      {
        b[i] := ByteOf(if i / 4 == 0 then first else second, i % 4);
      }
    }

    method Permute(l0: Word, r0: Word) returns (l: Word, r: Word)
      ensures Halves(l, r) == Initial(Halves(l0, r0))
    {
      l, r := DeltaSwap(l0, r0, 4, 0x0f0f0f0f);
      l, r := DeltaSwap(l, r, 16, 0x0000ffff);
      r, l := DeltaSwap(r, l, 2, 0x33333333);
      r, l := DeltaSwap(r, l, 8, 0x00ff00ff);
      assert Halves(l, r) == DeltasIn(Halves(l0, r0));
      r := RotateLeft1(r);
      l, r := EveryOther(l, r);
      l := RotateLeft1(l);
    }

    method Unpermute(l0: Word, r0: Word) returns (l: Word, r: Word)
      ensures Halves(l, r) == Final(Halves(l0, r0))
    {
      l, r := EveryOther(l0, RotateRight1(r0));
      l := RotateRight1(l);
      ghost var before := Halves(l, r);
      l, r := DeltaSwap(l, r, 8, 0x00ff00ff);
      l, r := DeltaSwap(l, r, 2, 0x33333333);
      r, l := DeltaSwap(r, l, 16, 0x0000ffff);
      r, l := DeltaSwap(r, l, 4, 0x0f0f0f0f);
      assert Halves(l, r) == DeltasOut(before);
    }

    method DeltaSwap(hi: Word, lo: Word, k: bv5, mask: Word) returns (hi': Word, lo': Word)
      ensures hi' == DeltaHi(hi, lo, k, mask)
      ensures lo' == DeltaLo(hi, lo, k, mask)
    {
      var x := Differing(hi, lo, k, mask);
      lo' := Flip(lo, x, 0);
      hi' := Flip(hi, x, k);
    }

    method EveryOther(l0: Word, r0: Word) returns (l: Word, r: Word)
      ensures l == Mixed(l0, r0)
      ensures r == Mixed(r0, l0)
    {
      var x := (l0 ^ r0) & 0xaaaaaaaa;
      MixedLeft(l0, r0, x);
      MixedRight(l0, r0, x);
      l := l0 ^ x;
      r := r0 ^ x;
    }
  }

  // ---------------------------------------------------------------- whole messages

  function EncipherAll(f: Mixer, keys: seq<RoundKey>, s: seq<bv8>): (c: seq<bv8>)
    requires |s| % 8 == 0
    ensures |c| == |s|
    decreases |s|
  {
    if s == [] then [] else Encipher(f, keys, s[..8]) + EncipherAll(f, keys, s[8..])
  }

  /** ECB: a message enciphered block by block comes back under the reversed keys. */
  lemma {:induction false} ReversedKeysDecipherAll(f: Mixer, keys: seq<RoundKey>, s: seq<bv8>)
    requires |s| % 8 == 0
    ensures EncipherAll(f, Reverse(keys), EncipherAll(f, keys, s)) == s
    decreases |s|
  {
    if s != [] {
      var c := EncipherAll(f, keys, s);
      assert c[..8] == Encipher(f, keys, s[..8]) && c[8..] == EncipherAll(f, keys, s[8..]);
      ReversedKeysDecipher(f, keys, s[..8]);
      ReversedKeysDecipherAll(f, keys, s[8..]);
      assert s[..8] + s[8..] == s;
    }
  }

  /** A message that is not whole blocks is refused. */
  method EcbEncrypt(cipher: Cipher, plaintext: seq<bv8>) returns (result: Option<seq<bv8>>)
    requires cipher.Valid()
    ensures |plaintext| % 8 != 0 ==> result.None?
    ensures |plaintext| % 8 == 0 ==> result == Some(EncipherAll(cipher.mix, PairsOf(cipher.keys[..]), plaintext))
  {
    if |plaintext| % 8 != 0 { return None; }
    ghost var pairs := PairsOf(cipher.keys[..]);
    ghost var goal := EncipherAll(cipher.mix, pairs, plaintext);
    var x: seq<bv8>, left := [], plaintext;
    while left != []
      invariant |left| % 8 == 0
      invariant x + EncipherAll(cipher.mix, pairs, left) == goal
      decreases |left|
    {
      var c := EncryptSlice(cipher, left[..8]);
      Regroup(x, c, EncipherAll(cipher.mix, pairs, left[8..]));
      x, left := x + c, left[8..];
    }
    Regroup(x, [], []);
    return Some(x);
  }

  method EncryptSlice(cipher: Cipher, block: Block) returns (c: seq<bv8>)
    requires cipher.Valid()
    ensures c == Encipher(cipher.mix, PairsOf(cipher.keys[..]), block)
  {
    var text := new bv8[8](j requires 0 <= j < 8 => block[j]);
    assert text[..] == block;
    var b := cipher.Enc8(text);
    return b[..];
  }
}
