/** What the checksum is for: a damaged record is not taken for a record, and which byte it does not look at. */
module WalDamage {
  import opened Messages
  import opened WalRecord
  import opened WalReplay

  // ---- One byte always shows in the checksum ----

  /** A step of the register loses nothing: the polynomial's top bit tells which way it went. */
  lemma CrcBitInjective(a: bv32, b: bv32)
    requires CrcBit(a) == CrcBit(b)
    ensures a == b
  {
  }

  lemma {:induction false} CrcBitsInjective(a: bv32, b: bv32, n: nat)
    requires CrcBits(a, n) == CrcBits(b, n)
    ensures a == b
    decreases n
  {
    hide CrcBit;
    if n != 0 {
      CrcBitsInjective(CrcBit(a), CrcBit(b), n - 1);
      CrcBitInjective(a, b);
    }
  }

  lemma FlagsShow(a0: bool, a1: bool, a2: bool, a3: bool, a4: bool, a5: bool, a6: bool, a7: bool,
                  b0: bool, b1: bool, b2: bool, b3: bool, b4: bool, b5: bool, b6: bool, b7: bool)
    requires Flags(a0, a1, a2, a3, a4, a5, a6, a7) == Flags(b0, b1, b2, b3, b4, b5, b6, b7)
    ensures a0 == b0 && a1 == b1 && a2 == b2 && a3 == b3 && a4 == b4 && a5 == b5 && a6 == b6 && a7 == b7
  {
  }

  /** Equal remainders, and equal halves. */
  lemma Halves(x: nat, y: nat)
    requires Odd(x) == Odd(y) && Half(x) == Half(y)
    ensures x == y
  {
  }

  /** The last of the bits is all that is left of a byte halved seven times. */
  lemma LastBit(x: nat, y: nat)
    requires x < 2 && y < 2 && Odd(x) == Odd(y)
    ensures x == y
  {
  }

  lemma NarrowInjective(x: Byte, y: Byte)
    requires Narrow(x) == Narrow(y)
    ensures x == y
  {
    var (x1, y1) := (Half(x), Half(y));
    var (x2, y2) := (Half(x1), Half(y1));
    var (x3, y3) := (Half(x2), Half(y2));
    var (x4, y4) := (Half(x3), Half(y3));
    var (x5, y5) := (Half(x4), Half(y4));
    var (x6, y6) := (Half(x5), Half(y5));
    var (x7, y7) := (Half(x6), Half(y6));
    FlagsShow(Odd(x), Odd(x1), Odd(x2), Odd(x3), Odd(x4), Odd(x5), Odd(x6), Odd(x7),
              Odd(y), Odd(y1), Odd(y2), Odd(y3), Odd(y4), Odd(y5), Odd(y6), Odd(y7));
    hide Odd, Half, Flags;
    SevenHalves(x, y);
    LastBit(x7, y7);
    Halves(x6, y6);
    Halves(x5, y5);
    Halves(x4, y4);
    Halves(x3, y3);
    Halves(x2, y2);
    Halves(x1, y1);
    Halves(x, y);
  }

  lemma SevenHalves(x: Byte, y: Byte)
    ensures Half(Half(Half(Half(Half(Half(Half(x))))))) < 2 && Half(Half(Half(Half(Half(Half(Half(y))))))) < 2
  {
  }

  lemma StirredShows(c: bv32, x: bv8, y: bv8)
    requires Stirred(c, x) == Stirred(c, y)
    ensures x == y
  {
  }

  lemma StirredInjective(a: bv32, b: bv32, x: bv8)
    requires Stirred(a, x) == Stirred(b, x)
    ensures a == b
  {
  }

  /** What a byte makes of the register tells both the register and the byte apart. */
  lemma CrcByteInjective(a: bv32, b: bv32, x: Byte)
    requires CrcByte(a, x) == CrcByte(b, x)
    ensures a == b
  {
    hide CrcBits, Stirred, Narrow;
    CrcBitsInjective(Stirred(a, Narrow(x)), Stirred(b, Narrow(x)), 8);
    StirredInjective(a, b, Narrow(x));
  }

  lemma CrcByteShows(c: bv32, x: Byte, y: Byte)
    requires CrcByte(c, x) == CrcByte(c, y)
    ensures x == y
  {
    hide CrcBits, Stirred, Narrow;
    CrcBitsInjective(Stirred(c, Narrow(x)), Stirred(c, Narrow(y)), 8);
    StirredShows(c, Narrow(x), Narrow(y));
    NarrowInjective(x, y);
  }

  lemma {:induction false} CrcFromInjective(a: bv32, b: bv32, s: Bytes)
    requires CrcFrom(a, s) == CrcFrom(b, s)
    ensures a == b
    decreases |s|
  {
    hide CrcByte;
    if s != [] {
      CrcFromInjective(CrcByte(a, s[0]), CrcByte(b, s[0]), s[1..]);
      CrcByteInjective(a, b, s[0]);
    }
  }

  lemma {:induction false} ByteShows(c: bv32, a: Bytes, k: nat, x: Byte)
    requires k < |a| && CrcFrom(c, a[k := x]) == CrcFrom(c, a)
    ensures x == a[k]
    decreases |a|
  {
    hide CrcByte;
    var b := a[k := x];
    if k == 0 {
      assert b[1..] == a[1..];
      CrcFromInjective(CrcByte(c, x), CrcByte(c, a[0]), a[1..]);
      CrcByteShows(c, x, a[0]);
    } else {
      assert b[1..] == a[1..][k - 1 := x];
      ByteShows(CrcByte(c, a[0]), a[1..], k - 1, x);
    }
  }

  lemma WordBack(p: bv32)
    ensures (p as int) as bv32 == p
  {
  }

  /** The complement at the end of the checksum. */
  function Sealed(p: bv32): int {
    (p ^ 0xFFFF_FFFF) as int
  }

  lemma SealedShows(p: bv32, q: bv32)
    requires Sealed(p) == Sealed(q)
    ensures p == q
  {
    WordBack(p ^ 0xFFFF_FFFF);
    WordBack(q ^ 0xFFFF_FFFF);
  }

  lemma CrcIsSealed(a: Bytes)
    ensures Crc32(a) == Sealed(CrcFrom(0xFFFF_FFFF, a))
  {
    hide CrcFrom;
  }

  lemma SameCrc(a: Bytes, k: nat, x: Byte)
    requires k < |a| && Crc32(a[k := x]) == Crc32(a)
    ensures x == a[k]
  {
    hide *;
    CrcIsSealed(a);
    CrcIsSealed(a[k := x]);
    SealedShows(CrcFrom(0xFFFF_FFFF, a[k := x]), CrcFrom(0xFFFF_FFFF, a));
    ByteShows(0xFFFF_FFFF, a, k, x);
  }

  /** Two bodies of one length that differ in one byte have different checksums. */
  lemma OneByteShows(a: Bytes, b: Bytes, k: nat)
    requires |a| == |b| && k < |a| && a[k] != b[k] && forall i | 0 <= i < |a| && i != k :: a[i] == b[i]
    ensures Crc32(a) != Crc32(b)
  {
    hide *;
    assert b == a[k := b[k]];
    if Crc32(a) == Crc32(b) {
      SameCrc(a, k, b[k]);
      assert false;
    }
  }

  // ---- It is the checksum it says it is ----

  lemma CrcStep(c: bv32, c': bv32, d: Bytes, i: nat)
    requires i < |d| && CrcByte(c, d[i]) == c'
    ensures CrcFrom(c, d[i..]) == CrcFrom(c', d[i + 1..])
  {
    hide CrcByte;
    assert d[i..][1..] == d[i + 1..];
  }

  lemma DigitHalves()
    ensures Half(49) == 24 && Half(50) == 25 && Half(51) == 25 && Half(52) == 26 && Half(53) == 26 && Half(54) == 27 && Half(55) == 27 && Half(56) == 28 && Half(57) == 28
    ensures Half(24) == 12 && Half(25) == 12 && Half(26) == 13 && Half(27) == 13 && Half(28) == 14 && Half(12) == 6 && Half(13) == 6 && Half(14) == 7
    ensures Half(6) == 3 && Half(7) == 3 && Half(3) == 1 && Half(1) == 0 && Half(0) == 0
    ensures Odd(49) && Odd(51) && Odd(53) && Odd(55) && Odd(57) && Odd(25) && Odd(27) && Odd(13) && Odd(7) && Odd(3) && Odd(1)
    ensures !Odd(50) && !Odd(52) && !Odd(54) && !Odd(56) && !Odd(24) && !Odd(26) && !Odd(28) && !Odd(12) && !Odd(14) && !Odd(6) && !Odd(0)
  {
  }

  lemma DigitBits()
    ensures Narrow(0x31) == 0x31
    ensures Narrow(0x32) == 0x32
    ensures Narrow(0x33) == 0x33
    ensures Narrow(0x34) == 0x34
    ensures Narrow(0x35) == 0x35
    ensures Narrow(0x36) == 0x36
    ensures Narrow(0x37) == 0x37
    ensures Narrow(0x38) == 0x38
    ensures Narrow(0x39) == 0x39
  {
    DigitHalves();
    hide Half, Odd;
  }

  /** What the register holds after each of the nine digits. */
  lemma FirstDigits()
    ensures CrcByte(0xFFFF_FFFF, 0x31) == 0x7C23_1048
    ensures CrcByte(0x7C23_1048, 0x32) == 0xB0AC_BB32
    ensures CrcByte(0xB0AC_BB32, 0x33) == 0x77B7_9C2D
  {
    DigitBits();
    hide Narrow, Flags;
  }

  lemma NextDigits()
    ensures CrcByte(0x77B7_9C2D, 0x34) == 0x641C_1F5C
    ensures CrcByte(0x641C_1F5C, 0x35) == 0x340A_C5E3
    ensures CrcByte(0x340A_C5E3, 0x36) == 0xF68D_2C9E
  {
    DigitBits();
    hide Narrow, Flags;
  }

  lemma LastDigits()
    ensures CrcByte(0xF68D_2C9E, 0x37) == 0xAFFC_9660
    ensures CrcByte(0xAFFC_9660, 0x38) == 0x651F_2550
    ensures CrcByte(0x651F_2550, 0x39) == 0x340B_C6D9
  {
    DigitBits();
    hide Narrow, Flags;
  }

  lemma NothingMore(d: Bytes)
    ensures d[0..] == d && forall c :: CrcFrom(c, d[|d|..]) == c
  {
  }

  lemma DigitsRegister(d: Bytes)
    requires d == [0x31, 0x32, 0x33, 0x34, 0x35, 0x36, 0x37, 0x38, 0x39]
    ensures CrcFrom(0xFFFF_FFFF, d) == 0x340B_C6D9
  {
    FirstDigits();
    NextDigits();
    LastDigits();
    NothingMore(d);
    hide *;
    CrcStep(0xFFFF_FFFF, 0x7C23_1048, d, 0);
    CrcStep(0x7C23_1048, 0xB0AC_BB32, d, 1);
    CrcStep(0xB0AC_BB32, 0x77B7_9C2D, d, 2);
    CrcStep(0x77B7_9C2D, 0x641C_1F5C, d, 3);
    CrcStep(0x641C_1F5C, 0x340A_C5E3, d, 4);
    CrcStep(0x340A_C5E3, 0xF68D_2C9E, d, 5);
    CrcStep(0xF68D_2C9E, 0xAFFC_9660, d, 6);
    CrcStep(0xAFFC_9660, 0x651F_2550, d, 7);
    CrcStep(0x651F_2550, 0x340B_C6D9, d, 8);
  }

  lemma CheckWord()
    ensures Le32(0xCBF4_3926) == [0x26, 0x39, 0xF4, 0xCB] && Le32(9) == [9, 0, 0, 0]
  {
  }

  lemma CheckSum(d: Bytes)
    requires d == [0x31, 0x32, 0x33, 0x34, 0x35, 0x36, 0x37, 0x38, 0x39]
    ensures Crc32(d) == 0xCBF4_3926
  {
    DigitsRegister(d);
    hide CrcFrom;
  }

  lemma FrameParts(r: Rec, sum: Word, n: nat)
    requires Crc32(r.body) == sum && |r.body| == n < WORD
    ensures Encode(r) == Le32(n) + Le32(sum) + [r.kind] + r.body
  {
    hide Crc32, Le32;
  }

  /**
   * A frame, byte by byte: the length and the checksum, low byte first, the kind, the body. The body is the nine digits, whose
   * checksum is the check value published for CRC-32.
   */
  lemma CheckFrame(kind: Byte, digits: Bytes)
    requires digits == [0x31, 0x32, 0x33, 0x34, 0x35, 0x36, 0x37, 0x38, 0x39]
    ensures Encode(Rec(kind, digits)) == [9, 0, 0, 0] + [0x26, 0x39, 0xF4, 0xCB] + [kind] + digits
  {
    CheckSum(digits);
    CheckWord();
    hide *;
    FrameParts(Rec(kind, digits), 0xCBF4_3926, 9);
  }

  // ---- What is read is what could have been written ----

  lemma Le32Back(b: Bytes)
    requires |b| == 4
    ensures Le32(FromLe32(b)) == b
  {
    var (b0, b1, b2, b3) := (b[0] as int, b[1] as int, b[2] as int, b[3] as int);
    var n := FromLe32(b);
    Digits(b0, b1 + b2 * 0x100 + b3 * 0x1_0000);
    Digits(b1, b2 + b3 * 0x100);
    Digits(b2, b3);
    assert n / 0x100 / 0x100 == n / 0x1_0000 && n / 0x1_0000 / 0x100 == n / 0x100_0000;
  }

  lemma Digits(d: int, rest: int)
    requires 0 <= d < 256
    ensures (d + rest * 0x100) % 0x100 == d && (d + rest * 0x100) / 0x100 == rest
  {
  }

  /** A record that is read stands in the file as it would have been written. */
  lemma GotIsEncoded(b: Bytes, r: Rec)
    requires ReadFront(b) == Got(r)
    ensures Fits(r) && Encode(r) <= b
  {
    hide Crc32, Le32, FromLe32;
    Le32Back(b[..4]);
    Le32Back(b[4..8]);
    var n := |r.body|;
    assert Header(r) == b[..4] + b[4..8] + [b[8]];
    assert Encode(r) == b[..HEADER + n];
  }

  // ---- A damaged record ----

  /**
   * One byte of a record changed, behind its length: the record reads as torn exactly if it was not the kind's byte. The
   * kind is not checked at all.
   */
  lemma DamageShowsIff(r: Rec, k: nat, x: Byte, rest: Bytes)
    requires Fits(r) && 4 <= k < |Encode(r)| && x != Encode(r)[k]
    ensures ReadFront(Encode(r)[k := x] + rest) == if k == 8 then Got(Rec(x, r.body)) else Torn
  {
    hide Crc32;
    var b := Encode(r)[k := x] + rest;
    var n := |r.body|;
    Le32RoundTrip(n % WORD);
    Le32RoundTrip(Crc32(r.body));
    assert b[..4] == Le32(n % WORD);
    if k == 8 {
      assert b[4..8] == Le32(Crc32(r.body)) && b[HEADER..HEADER + n] == r.body;
    } else if k < 8 {
      assert b[HEADER..HEADER + n] == r.body;
      SumDiffers(Le32(Crc32(r.body)), b[4..8], k - 4);
    } else {
      assert b[4..8] == Le32(Crc32(r.body));
      OneByteShows(b[HEADER..HEADER + n], r.body, k - HEADER);
    }
  }

  lemma SumDiffers(a: Bytes, b: Bytes, k: nat)
    requires |a| == |b| == 4 && k < 4 && a[k] != b[k]
    ensures FromLe32(a) != FromLe32(b)
  {
    hide Le32, FromLe32;
    Le32Back(a);
    Le32Back(b);
  }

  /**
   * A file of records of which one is damaged, behind its length and not in its kind, reads as the records before it, torn at
   * their length.
   */
  lemma DamagedFile(a: seq<Rec>, r: Rec, k: nat, x: Byte, b: Bytes)
    requires AllFit(a) && Fits(r) && 4 <= k < |Encode(r)| && k != 8 && x != Encode(r)[k]
    ensures ReadAll(File(a) + (Encode(r)[k := x] + b)) == Contents(a, |File(a)|, true)
  {
    hide Encode, ReadFront, File;
    DamageShowsIff(r, k, x, b);
    ReadPast(a, Encode(r)[k := x] + b);
    assert a + [] == a;
  }

  // ---- A damaged log ----

  lemma FitsSplit(c: Codec, before: seq<Entry>, e: Entry, after: seq<Entry>)
    requires EntriesFit(c, before + [e] + after)
    ensures AllFit(RecsOf(c, before)) && Fits(RecOf(c, e)) && AllFit(RecsOf(c, after))
  {
    var es := before + [e] + after;
    forall i | 0 <= i < |before|
      ensures Fits(RecsOf(c, before)[i])
    {
      assert es[i] == before[i];
    }
    assert es[|before|] == e;
    forall i | 0 <= i < |after|
      ensures Fits(RecsOf(c, after)[i])
    {
      assert es[|before| + 1 + i] == after[i];
    }
  }

  /** The log of `before`, `e` and `after` with byte `k` of the record of `e` changed. */
  function DamagedLog(c: Codec, before: seq<Entry>, e: Entry, after: seq<Entry>, k: nat, x: Byte): Bytes
    requires k < |Encode(RecOf(c, e))|
  {
    File(RecsOf(c, before)) + (Encode(RecOf(c, e))[k := x] + File(RecsOf(c, after)))
  }

  /** Replay stops at the damaged record: it yields the fold of the entries before it, and keeps the log of just those. */
  lemma ReplayOfDamaged(c: Codec, before: seq<Entry>, e: Entry, after: seq<Entry>, k: nat, x: Byte)
    requires Faithful(c) && EntriesFit(c, before + [e] + after)
    requires 4 <= k < |Encode(RecOf(c, e))| && k != 8 && x != Encode(RecOf(c, e))[k]
    ensures ReplaySpec(c, DamagedLog(c, before, e, after, k, x)) ==
            Replayed(Listing(Fold(START, before)), File(RecsOf(c, before)))
  {
    hide File, ReadAll, Fold, FoldRecs, Listing, Encode, EntriesFit;
    var (rs, f) := (RecsOf(c, before), DamagedLog(c, before, e, after, k, x));
    FitsSplit(c, before, e, after);
    DamagedFile(rs, RecOf(c, e), k, x, File(RecsOf(c, after)));
    RecordsFold(c, START, before);
    assert f[..|File(rs)|] == File(rs);
  }

  /**
   * A kind that reads as none of the three makes the entry vanish: replay yields the fold of all the others, reports nothing
   * and leaves the file as it is.
   */
  lemma KindUnchecked(c: Codec, before: seq<Entry>, e: Entry, after: seq<Entry>, x: Byte)
    requires Faithful(c) && EntriesFit(c, before + [e] + after) && !Known(x)
    ensures HEADER - 1 < |Encode(RecOf(c, e))|
    ensures var f := DamagedLog(c, before, e, after, HEADER - 1, x);
            ReplaySpec(c, f) == Replayed(Listing(Fold(START, before + after)), f)
  {
    hide File, ReadAll, Fold, Listing, Encode, EntriesFit, Faithful;
    var (rs, r, ts) := (RecsOf(c, before), RecOf(c, e), RecsOf(c, after));
    EncodeLength(r);
    FitsSplit(c, before, e, after);
    KindRead(r, x, File(ts));
    ReadWhole(ts);
    ReadPast(rs, Encode(r)[HEADER - 1 := x] + File(ts));
    SkipUnknown(c, START, rs, Rec(x, r.body), ts);
    assert rs + ts == RecsOf(c, before + after);
    RecordsFold(c, START, before + after);
  }

  lemma KindRead(r: Rec, x: Byte, rest: Bytes)
    requires Fits(r) && HEADER - 1 < |Encode(r)| && x != r.kind
    ensures var b := Encode(r)[HEADER - 1 := x] + rest;
            var c := ReadAll(rest);
            ReadAll(b) == Contents([Rec(x, r.body)] + c.recs, |Encode(r)| + c.good, c.torn)
  {
    KindByte(r);
    hide Encode, ReadFront;
    EncodeLength(r);
    DamageShowsIff(r, HEADER - 1, x, rest);
    assert (Encode(r)[HEADER - 1 := x] + rest)[|Encode(r)|..] == rest;
  }

  lemma KindByte(r: Rec)
    ensures Encode(r)[HEADER - 1] == r.kind
  {
  }

  lemma {:induction false} SkipUnknown(c: Codec, s: Live, a: seq<Rec>, r: Rec, b: seq<Rec>)
    requires !Known(r.kind)
    ensures FoldRecs(c, s, a + ([r] + b)) == FoldRecs(c, s, a + b)
    decreases |a|
  {
    if a == [] {
      assert a + ([r] + b) == [r] + b && a + b == b && ([r] + b)[1..] == b;
    } else {
      assert (a + ([r] + b))[1..] == a[1..] + ([r] + b) && (a + b)[1..] == a[1..] + b;
      if !Known(a[0].kind) {
        SkipUnknown(c, s, a[1..], r, b);
      } else if c.dec(a[0].kind, a[0].body).Some? {
        SkipUnknown(c, Apply(s, c.dec(a[0].kind, a[0].body).value), a[1..], r, b);
      }
    }
  }
}
