/** The checksum of src/storage/file.rs:19-32, the CRC-32 of RFC 1952 section 8. Any two texts of one
    length that differ only within four consecutive bytes have different checksums. */
module Crc {
  type Byte = bv8

  // ----- definition -----

  function Shift(crc: bv32): bv32 {
    if crc & 1 != 0 then (crc >> 1) ^ 0xEDB88320 else crc >> 1
  }

  function Shifts(crc: bv32, n: nat): bv32 {
    if n == 0 then crc else Shift(Shifts(crc, n - 1))
  }

  function Xor(x: bv32, y: bv32): bv32 { x ^ y }

  function Absorb(crc: bv32, b: Byte): bv32 { Shifts(Xor(crc, b as bv32), 8) }

  function Feed(crc: bv32, data: seq<Byte>): bv32 {
    if data == [] then crc else Absorb(Feed(crc, data[..|data| - 1]), data[|data| - 1])
  }

  function Crc32(data: seq<Byte>): bv32 { !Feed(0xFFFFFFFF, data) }

  method ComputeCrc32(data: seq<Byte>) returns (crc: bv32)
    ensures crc == Crc32(data)
  {
    hide Absorb;
    crc := 0xFFFFFFFF;
    for i := 0 to |data|
      invariant crc == Feed(0xFFFFFFFF, data[..i])
    {
      assert data[..i + 1][..i] == data[..i];
      crc := MixIn(crc, data[i]);
    }
    assert data[..|data|] == data;
    crc := !crc;
  }

  /** The inner loop: one byte, bit by bit. */
  method MixIn(start: bv32, b: Byte) returns (crc: bv32)
    ensures crc == Absorb(start, b)
  {
    crc := start ^ (b as bv32);
    for k := 0 to 8
      invariant crc == Shifts(Xor(start, b as bv32), k)
    {
      if crc & 1 != 0 {
        crc := (crc >> 1) ^ 0xEDB88320;
      } else {
        crc := crc >> 1;
      }
    }
  }

  // ----- facts about words of 32 bits -----

  lemma XorParts(x: bv32, y: bv32)
    ensures (x ^ y) & 1 == (x & 1) ^ (y & 1) && (x ^ y) >> 1 == (x >> 1) ^ (y >> 1)
    ensures x & 1 == 0 || x & 1 == 1
  {
  }

  lemma XorShuffles(a: bv32, b: bv32, p: bv32)
    ensures (a ^ p) ^ (b ^ p) == a ^ b
    ensures (a ^ p) ^ b == (a ^ b) ^ p == a ^ (b ^ p)
  {
  }

  lemma XorMoves(a: bv32, b: bv32, p: bv32)
    ensures Xor(Xor(a, p), b) == Xor(a, Xor(p, b))
  {
  }

  lemma XorCancels(a: bv32, b: bv32, p: bv32)
    ensures Xor(a, p) == Xor(b, p) ==> a == b
    ensures Xor(p, a) == Xor(p, b) ==> a == b
  {
  }

  lemma NotInjective(p: bv32, q: bv32)
    requires p != q
    ensures !p != !q
  {
  }

  lemma ByteFits(b: Byte)
    ensures (b as bv32) & 0xFFFFFF00 == 0
  {
  }

  lemma ByteInjective(a: Byte, b: Byte)
    requires a as bv32 == b as bv32
    ensures a == b
  {
  }

  function Low(x: bv32): bv32 { x & 0xFF }

  function High(x: bv32): bv32 { x >> 8 }

  function Left8(x: bv32): bv32 { x << 8 }

  function Double(x: bv32): bv32 { x << 1 }

  lemma Unpack(x: bv32, u: bv32)
    requires x & 0xFFFFFF00 == 0 && u & 0xFF000000 == 0
    ensures Low(Xor(x, Left8(u))) == x && High(Xor(x, Left8(u))) == u
  {
  }

  lemma SplitLow(c: bv32, b: bv32)
    requires b & 0xFFFFFF00 == 0
    ensures c ^ b == ((c ^ b) & 0xFF) ^ ((c >> 8) << 8) && (c >> 8) & 0xFF000000 == 0
  {
  }

  lemma EightDoublings(w: bv32)
    ensures Left8(w) == Double(Double(Double(Double(Double(Double(Double(Double(w))))))))
  {
  }

  predicate TopClear(v: bv32) { v & 0x80000000 == 0 }

  lemma NoneOverflows(w: bv32)
    requires w & 0xFF000000 == 0
    ensures TopClear(w)
    ensures TopClear(Double(w))
    ensures TopClear(Double(Double(w)))
    ensures TopClear(Double(Double(Double(w))))
    ensures TopClear(Double(Double(Double(Double(w)))))
    ensures TopClear(Double(Double(Double(Double(Double(w))))))
    ensures TopClear(Double(Double(Double(Double(Double(Double(w)))))))
    ensures TopClear(Double(Double(Double(Double(Double(Double(Double(w))))))))
  {
  }

  lemma DoubleParts(v: bv32)
    requires TopClear(v)
    ensures Double(v) & 1 == 0 && Double(v) >> 1 == v
  {
  }

  // ----- one bit: linear and injective -----

  lemma ShiftLinear(x: bv32, y: bv32)
    ensures Shift(Xor(x, y)) == Xor(Shift(x), Shift(y))
  {
    XorParts(x, y);
    XorParts(y, x);
    XorShuffles(x >> 1, y >> 1, 0xEDB88320);
  }

  lemma ShiftInjective(x: bv32, y: bv32)
    requires Shift(x) == Shift(y)
    ensures x == y
  {
  }

  lemma ShiftDoubled(v: bv32)
    requires TopClear(v)
    ensures Shift(Double(v)) == v
  {
    hide Double, TopClear;
    DoubleParts(v);
  }

  lemma {:induction false} ShiftsLinear(x: bv32, y: bv32, n: nat)
    ensures Shifts(Xor(x, y), n) == Xor(Shifts(x, n), Shifts(y, n))
  {
    hide Shift, Xor;
    if n > 0 {
      ShiftsLinear(x, y, n - 1);
      ShiftLinear(Shifts(x, n - 1), Shifts(y, n - 1));
    }
  }

  lemma {:induction false} ShiftsInjective(x: bv32, y: bv32, n: nat)
    requires Shifts(x, n) == Shifts(y, n)
    ensures x == y
  {
    hide Shift;
    if n > 0 {
      ShiftInjective(Shifts(x, n - 1), Shifts(y, n - 1));
      ShiftsInjective(x, y, n - 1);
    }
  }

  lemma {:induction false} ShiftsAdd(x: bv32, m: nat, n: nat)
    ensures Shifts(Shifts(x, m), n) == Shifts(x, m + n)
  {
    hide Shift;
    if n > 0 { ShiftsAdd(x, m, n - 1); }
  }

  /** Eight shifts undo a shift to the left by a byte: no bit of the polynomial comes in. */
  lemma ShiftsUnshift(w: bv32)
    requires w & 0xFF000000 == 0
    ensures Shifts(Left8(w), 8) == w
  {
    hide Shift, Left8, Double, TopClear;
    EightDoublings(w);
    NoneOverflows(w);
    var w1 := Double(w);
    var w2 := Double(w1);
    var w3 := Double(w2);
    var w4 := Double(w3);
    var w5 := Double(w4);
    var w6 := Double(w5);
    var w7 := Double(w6);
    ShiftsOnce(Left8(w), 0, w7);
    ShiftsOnce(Left8(w), 1, w6);
    ShiftsOnce(Left8(w), 2, w5);
    ShiftsOnce(Left8(w), 3, w4);
    ShiftsOnce(Left8(w), 4, w3);
    ShiftsOnce(Left8(w), 5, w2);
    ShiftsOnce(Left8(w), 6, w1);
    ShiftsOnce(Left8(w), 7, w);
  }

  lemma ShiftsOnce(x: bv32, n: nat, v: bv32)
    requires Shifts(x, n) == Double(v) && TopClear(v)
    ensures Shifts(x, n + 1) == v
  {
    hide Shift, Double, TopClear;
    ShiftDoubled(v);
  }

  // ----- whole texts -----

  lemma {:induction false} FeedAppend(crc: bv32, a: seq<Byte>, b: seq<Byte>)
    ensures Feed(crc, a + b) == Feed(Feed(crc, a), b)
    decreases |b|
  {
    hide Absorb;
    if b == [] {
      assert a + b == a;
    } else {
      FeedAppend(crc, a, b[..|b| - 1]);
      assert (a + b)[..|a + b| - 1] == a + b[..|b| - 1];
    }
  }

  lemma {:induction false} FeedInjective(x: bv32, y: bv32, data: seq<Byte>)
    requires Feed(x, data) == Feed(y, data)
    ensures x == y
    decreases |data|
  {
    hide Absorb;
    if data != [] {
      var n := |data| - 1;
      AbsorbInjective(Feed(x, data[..n]), Feed(y, data[..n]), data[n]);
      FeedInjective(x, y, data[..n]);
    }
  }

  lemma AbsorbInjective(x: bv32, y: bv32, b: Byte)
    requires Absorb(x, b) == Absorb(y, b)
    ensures x == y
  {
    hide Shifts, Xor;
    ShiftsInjective(Xor(x, b as bv32), Xor(y, b as bv32), 8);
    XorCancels(x, y, b as bv32);
  }

  /** At most four bytes as one word, the first byte lowest. */
  function Word(data: seq<Byte>): bv32 {
    if data == [] then 0 else Xor(data[0] as bv32, Left8(Word(data[1..])))
  }

  lemma WordFits(data: seq<Byte>)
    requires |data| <= 3
    ensures Word(data) & 0xFF000000 == 0
  {
    if |data| == 3 {
      WordFits2(data[1..]);
      ByteFits(data[0]);
      Place(data[0] as bv32, Word(data[1..]));
    } else {
      WordFits2(data);
      Narrow(Word(data));
    }
  }

  lemma WordFits2(data: seq<Byte>)
    requires |data| <= 2
    ensures Word(data) & 0xFFFF0000 == 0
  {
    if data != [] {
      ByteFits(data[0]);
      WordFits1(data[1..]);
      Place(data[0] as bv32, Word(data[1..]));
    }
  }

  lemma WordFits1(data: seq<Byte>)
    requires |data| <= 1
    ensures Word(data) & 0xFFFFFF00 == 0
  {
    if data != [] {
      ByteFits(data[0]);
      assert Word(data[1..]) == 0;
      Place(data[0] as bv32, 0);
    }
  }

  lemma Narrow(w: bv32)
    requires w & 0xFFFF0000 == 0
    ensures w & 0xFF000000 == 0
  {
  }

  lemma Place(x: bv32, u: bv32)
    requires x & 0xFFFFFF00 == 0
    ensures u & 0xFFFF0000 == 0 ==> Xor(x, Left8(u)) & 0xFF000000 == 0
    ensures u & 0xFFFFFF00 == 0 ==> Xor(x, Left8(u)) & 0xFFFF0000 == 0
    ensures u == 0 ==> Xor(x, Left8(u)) & 0xFFFFFF00 == 0
  {
  }

  lemma {:induction false} WordInjective(a: seq<Byte>, b: seq<Byte>)
    requires |a| == |b| <= 4 && Word(a) == Word(b)
    ensures a == b
    decreases |a|
  {
    hide Xor, Left8, Low, High;
    if a != [] {
      ByteFits(a[0]);
      ByteFits(b[0]);
      WordFits(a[1..]);
      WordFits(b[1..]);
      Unpack(a[0] as bv32, Word(a[1..]));
      Unpack(b[0] as bv32, Word(b[1..]));
      ByteInjective(a[0], b[0]);
      WordInjective(a[1..], b[1..]);
      assert a == [a[0]] + a[1..] && b == [b[0]] + b[1..];
    }
  }

  /** Feeding up to four bytes is mixing them in at once and shifting. */
  lemma {:induction false} FeedWord(crc: bv32, data: seq<Byte>)
    requires |data| <= 4
    ensures Feed(crc, data) == Shifts(Xor(crc, Word(data)), 8 * |data|)
    decreases |data|
  {
    hide Shifts, Xor, Word, Absorb;
    if data == [] {
      FeedNone(crc);
    } else {
      assert data == data[..1] + data[1..];
      FeedAppend(crc, data[..1], data[1..]);
      FeedOne(crc, data[..1]);
      FeedWord(Absorb(crc, data[0]), data[1..]);
      FeedFirst(crc, data);
    }
  }

  lemma FeedNone(crc: bv32)
    ensures Shifts(Xor(crc, Word([])), 0) == crc
  {
  }

  lemma FeedOne(crc: bv32, data: seq<Byte>)
    requires |data| == 1
    ensures Feed(crc, data) == Absorb(crc, data[0])
  {
    hide Absorb;
    assert data[..0] == [];
  }

  lemma FeedFirst(crc: bv32, data: seq<Byte>)
    requires 1 <= |data| <= 4
    ensures Shifts(Xor(Absorb(crc, data[0]), Word(data[1..])), 8 * |data[1..]|)
         == Shifts(Xor(crc, Word(data)), 8 * |data|)
  {
    hide Shifts, Xor, Left8;
    var b, w := data[0] as bv32, Word(data[1..]);
    WordFits(data[1..]);
    ShiftsUnshift(w);
    ShiftsLinear(Xor(crc, b), Left8(w), 8);
    XorMoves(crc, Left8(w), b);
    ShiftsAdd(Xor(Xor(crc, b), Left8(w)), 8, 8 * |data[1..]|);
  }

  /** A burst of at most four bytes always changes the checksum. */
  lemma BurstDetected(before: seq<Byte>, x: seq<Byte>, y: seq<Byte>, after: seq<Byte>)
    requires |x| == |y| <= 4 && x != y
    ensures Crc32(before + x + after) != Crc32(before + y + after)
  {
    hide Feed, Absorb;
    var c := Feed(0xFFFFFFFF, before);
    FeedAppend(0xFFFFFFFF, before + x, after);
    FeedAppend(0xFFFFFFFF, before + y, after);
    FeedAppend(0xFFFFFFFF, before, x);
    FeedAppend(0xFFFFFFFF, before, y);
    BurstFed(c, x, y);
    if Feed(Feed(c, x), after) == Feed(Feed(c, y), after) {
      FeedInjective(Feed(c, x), Feed(c, y), after);
    } else {
      NotInjective(Feed(Feed(c, x), after), Feed(Feed(c, y), after));
    }
  }

  lemma BurstFed(c: bv32, x: seq<Byte>, y: seq<Byte>)
    requires |x| == |y| <= 4 && x != y
    ensures Feed(c, x) != Feed(c, y)
  {
    hide Shifts, Xor, Word, Feed;
    FeedWord(c, x);
    FeedWord(c, y);
    if Feed(c, x) == Feed(c, y) {
      ShiftsInjective(Xor(c, Word(x)), Xor(c, Word(y)), 8 * |x|);
      XorCancels(Word(x), Word(y), c);
      WordInjective(x, y);
    }
  }

  /** One byte as RFC 1952 section 8 takes it, by a table of 256 words. */
  lemma TableStep(crc: bv32, data: seq<Byte>)
    requires data != []
    ensures var c := Feed(crc, data[..|data| - 1]);
            Feed(crc, data) == Xor(Shifts(Low(Xor(c, data[|data| - 1] as bv32)), 8), High(c))
  {
    hide Shifts;
    var c, b := Feed(crc, data[..|data| - 1]), data[|data| - 1] as bv32;
    ByteFits(data[|data| - 1]);
    SplitLow(c, b);
    assert Xor(c, b) == Xor(Low(Xor(c, b)), Left8(High(c)));
    hide Xor, Low, High, Left8;
    ShiftsLinear(Low(Xor(c, b)), Left8(High(c)), 8);
    ShiftsUnshift(High(c));
  }

  // ----- a checksum that two texts of different length share -----

  lemma EightShifts(c: bv32)
    ensures Shifts(c, 8) == Shift(Shift(Shift(Shift(Shift(Shift(Shift(Shift(c))))))))
  {
    hide Shift;
    assert Shifts(c, 1) == Shift(c);
    assert Shifts(c, 2) == Shift(Shift(c));
    assert Shifts(c, 4) == Shift(Shift(Shifts(c, 2)));
    assert Shifts(c, 6) == Shift(Shift(Shifts(c, 4)));
  }

  lemma FeedLast(crc: bv32, data: seq<Byte>, b: Byte)
    ensures Feed(crc, data + [b]) == Absorb(Feed(crc, data), b)
  {
    hide Absorb;
    assert (data + [b])[..|data|] == data;
  }

  lemma AbsorbsTo(crc: bv32, b: Byte, mixed: bv32, next: bv32)
    requires crc ^ (b as bv32) == mixed
    requires Shift(Shift(Shift(Shift(Shift(Shift(Shift(Shift(mixed)))))))) == next
    ensures Absorb(crc, b) == next
  {
    EightShifts(mixed);
    hide Shifts, Shift;
  }

  /** "&QK." and "!!!" have the same checksum. */
  lemma SharedChecksum()
    ensures Crc32([38, 81, 75, 46]) == Crc32([33, 33, 33])
  {
    AbsorbsTo(0xFFFFFFFF, 38, 0xFFFFFFD9, 0xFFF0958F);
    AbsorbsTo(0xFFF0958F, 81, 0xFFF095DE, 0x61940F46);
    AbsorbsTo(0x61940F46, 75, 0x61940F0D, 0x7ED0E8B2);
    AbsorbsTo(0x7ED0E8B2, 46, 0x7ED0E89C, 0xF9C70F87);
    AbsorbsTo(0xFFFFFFFF, 33, 0xFFFFFFDE, 0x6194002C);
    AbsorbsTo(0x6194002C, 33, 0x6194000D, 0x7ED0E8BD);
    AbsorbsTo(0x7ED0E8BD, 33, 0x7ED0E89C, 0xF9C70F87);
    hide Absorb, Shift;
    FeedFour(0xFFFFFFFF, 38, 81, 75, 46);
    FeedThree(0xFFFFFFFF, 33, 33, 33);
    hide Feed;
  }

  lemma FeedThree(crc: bv32, a: Byte, b: Byte, c: Byte)
    ensures Feed(crc, [a, b, c]) == Absorb(Absorb(Absorb(crc, a), b), c)
  {
    hide Absorb;
    FeedOne(crc, [a]);
    FeedLast(crc, [a], b);
    FeedLast(crc, [a, b], c);
    assert [a] + [b] == [a, b] && [a, b] + [c] == [a, b, c];
  }

  lemma FeedFour(crc: bv32, a: Byte, b: Byte, c: Byte, d: Byte)
    ensures Feed(crc, [a, b, c, d]) == Absorb(Absorb(Absorb(Absorb(crc, a), b), c), d)
  {
    hide Absorb;
    FeedThree(crc, a, b, c);
    FeedLast(crc, [a, b, c], d);
    assert [a, b, c] + [d] == [a, b, c, d];
  }

  /** The polynomial is the one of the standard: these are entries 1 and 128 of its table, and the checksums of
      the empty text and of "a". */
  lemma KnownValues()
    ensures Shifts(1, 8) == 0x77073096 && Shifts(128, 8) == 0xEDB88320
    ensures Crc32([]) == 0 && Crc32([97]) == 0xE8B7BE43
  {
    EightShifts(1);
    EightShifts(128);
    EightShifts(0xFFFFFF9E);
    assert [97 as Byte][..0] == [];
  }
}
