/** Records on disk: a length, a checksum, a kind and a body. */
module WalRecord {
  import opened Messages

  type Bytes = seq<Byte>

  const HEADER := 9
  const MAX_RECORD := 0x100_0000
  const WORD := 0x1_0000_0000

  type Word = n: nat | n < WORD

  // ---- Little-endian words ----

  function Le32(n: Word): (b: Bytes)
    ensures |b| == 4
  {
    [n % 256, n / 0x100 % 256, n / 0x1_0000 % 256, n / 0x100_0000]
  }

  function FromLe32(b: Bytes): (n: Word)
    requires |b| == 4
  {
    var b0: nat := b[0];
    var b1: nat := b[1];
    var b2: nat := b[2];
    var b3: nat := b[3];
    b0 + b1 * 0x100 + b2 * 0x1_0000 + b3 * 0x100_0000
  }

  lemma Le32RoundTrip(n: Word)
    ensures FromLe32(Le32(n)) == n
  {
    assert n / 0x100 / 0x100 == n / 0x1_0000 && n / 0x1_0000 / 0x100 == n / 0x100_0000;
  }

  // ---- CRC-32, IEEE polynomial, reflected ----

  function CrcBit(c: bv32): bv32 {
    if c & 1 == 1 then (c >> 1) ^ 0xEDB8_8320 else c >> 1
  }

  function CrcBits(c: bv32, n: nat): bv32
    decreases n
  {
    if n == 0 then c else CrcBits(CrcBit(c), n - 1)
  }

  /** The register with a byte added at its low end. */
  function Stirred(c: bv32, x: bv8): bv32 {
    c ^ (x as bv32)
  }

  function Flag(on: bool, b: bv8): bv8 {
    if on then b else 0
  }

  function Flags(b0: bool, b1: bool, b2: bool, b3: bool, b4: bool, b5: bool, b6: bool, b7: bool): bv8 {
    Flag(b0, 1) | Flag(b1, 2) | Flag(b2, 4) | Flag(b3, 8) | Flag(b4, 16) | Flag(b5, 32) | Flag(b6, 64) | Flag(b7, 128)
  }

  predicate Odd(n: nat) {
    n % 2 == 1
  }

  function Half(n: nat): nat {
    n / 2
  }

  /** A byte as its eight bits. */
  function Narrow(x: Byte): bv8 {
    var x1 := Half(x);
    var x2 := Half(x1);
    var x3 := Half(x2);
    var x4 := Half(x3);
    var x5 := Half(x4);
    var x6 := Half(x5);
    Flags(Odd(x), Odd(x1), Odd(x2), Odd(x3), Odd(x4), Odd(x5), Odd(x6), Odd(Half(x6)))
  }

  function CrcByte(c: bv32, x: Byte): bv32 {
    CrcBits(Stirred(c, Narrow(x)), 8)
  }

  function CrcFrom(c: bv32, b: Bytes): bv32
    decreases |b|
  {
    if b == [] then c else CrcFrom(CrcByte(c, b[0]), b[1..])
  }

  function Crc32(b: Bytes): Word {
    (CrcFrom(0xFFFF_FFFF, b) ^ 0xFFFF_FFFF) as Word
  }

  // ---- Writing ----

  datatype Rec = Rec(kind: Byte, body: Bytes)

  function Header(r: Rec): (h: Bytes)
    ensures |h| == HEADER
  {
    Le32(|r.body| % WORD) + Le32(Crc32(r.body)) + [r.kind]
  }

  function Encode(r: Rec): (b: Bytes)
    ensures |b| == HEADER + |r.body|
  {
    Header(r) + r.body
  }

  /** `encode` fills a buffer part by part. */
  method EncodeInto(r: Rec) returns (buf: array<Byte>)
    ensures fresh(buf) && buf[..] == Encode(r)
  {
    hide Crc32, Le32;
    buf := new Byte[HEADER + |r.body|](_ => 0);
    PutWord(buf, 0, |r.body| % WORD);
    PutWord(buf, 4, Crc32(r.body));
    buf[8] := r.kind;
    var i := 0;
    while i < |r.body|
      invariant i <= |r.body| && buf[..HEADER] == Header(r) && buf[HEADER..HEADER + i] == r.body[..i]
    {
      buf[HEADER + i] := r.body[i];
      i := i + 1;
    }
    assert buf[..] == buf[..HEADER] + buf[HEADER..HEADER + i];
  }

  method PutWord(buf: array<Byte>, at: nat, n: Word)
    requires at + 4 <= buf.Length
    modifies buf
    ensures buf[at..at + 4] == Le32(n) && buf[..at] == old(buf[..at]) && buf[at + 4..] == old(buf[at + 4..])
  {
    var w := Le32(n);
    buf[at], buf[at + 1], buf[at + 2], buf[at + 3] := w[0], w[1], w[2], w[3];
  }

  // ---- Reading ----

  datatype Outcome = End | Torn | Got(rec: Rec)

  /** What a read at the front of `b` finds: a clean end, a partial or corrupt record, or a record. */
  function ReadFront(b: Bytes): (o: Outcome)
    ensures o.Got? ==> HEADER + |o.rec.body| <= |b|
  {
    if b == [] then End
    else if |b| < HEADER then Torn
    else
      var n := FromLe32(b[..4]);
      if n > MAX_RECORD || |b| - HEADER < n then Torn
      else
        var body := b[HEADER..HEADER + n];
        if Crc32(body) != FromLe32(b[4..8]) then Torn else Got(Rec(b[8], body))
  }

  /** A file open for reading. */
  class Reader {
    const data: Bytes
    var pos: nat

    constructor (data: Bytes)
      ensures this.data == data && pos == 0
    {
      this.data, pos := data, 0;
    }

    /** Reads `n` bytes, or as many as there are. */
    method ReadFull(n: nat) returns (b: Bytes)
      requires pos <= |data|
      modifies this
      ensures pos <= |data| && pos == old(pos) + |b| && b == data[old(pos)..pos]
      ensures |b| == if n <= |data| - old(pos) then n else |data| - old(pos)
    {
      var to := if n <= |data| - pos then pos + n else |data|;
      b := data[pos..to];
      pos := to;
    }

    method ReadRecord() returns (o: Outcome)
      requires pos <= |data|
      modifies this
      ensures pos <= |data| && o == ReadFront(data[old(pos)..])
      ensures o.Got? ==> pos == old(pos) + HEADER + |o.rec.body|
    {
      hide Crc32;
      ghost var rest := data[pos..];
      var h := ReadFull(HEADER);
      assert h == rest[..|h|];
      if |h| < HEADER {
        return if |h| == 0 then End else Torn;
      }
      var n := FromLe32(h[..4]);
      var sum := FromLe32(h[4..8]);
      var kind := h[8];
      assert h[..4] == rest[..4] && h[4..8] == rest[4..8] && h[8] == rest[8];
      if n > MAX_RECORD {
        return Torn;
      }
      var body := ReadFull(n);
      if |body| < n {
        return Torn;
      }
      assert body == rest[HEADER..HEADER + n];
      if Crc32(body) != sum {
        return Torn;
      }
      o := Got(Rec(kind, body));
    }
  }

  // ---- Framing ----

  ghost predicate Fits(r: Rec) {
    |r.body| <= MAX_RECORD
  }

  /** What was written reads back, whatever follows it. */
  lemma ReadsBack(r: Rec, rest: Bytes)
    requires Fits(r)
    ensures ReadFront(Encode(r) + rest) == Got(r)
  {
    hide Crc32;
    var b := Encode(r) + rest;
    Le32RoundTrip(|r.body| % WORD);
    Le32RoundTrip(Crc32(r.body));
    assert b[..4] == Le32(|r.body| % WORD);
    assert b[4..8] == Le32(Crc32(r.body));
    assert b[HEADER..HEADER + |r.body|] == r.body;
  }

  /** A record with bytes missing at its end is torn, or not there at all. */
  lemma CutShort(r: Rec, n: nat)
    requires |r.body| < WORD && n < |Encode(r)|
    ensures ReadFront(Encode(r)[..n]) == if n == 0 then End else Torn
  {
    hide Crc32;
    var b := Encode(r)[..n];
    if HEADER <= n {
      Le32RoundTrip(|r.body| % WORD);
      assert b[..4] == Le32(|r.body| % WORD);
    }
  }

  /** A record over the limit is written all the same, and reads as torn. */
  lemma TooLong(r: Rec, rest: Bytes)
    requires MAX_RECORD < |r.body| < WORD
    ensures ReadFront(Encode(r) + rest) == Torn
  {
    hide Crc32;
    var b := Encode(r) + rest;
    Le32RoundTrip(|r.body| % WORD);
    assert b[..4] == Le32(|r.body| % WORD);
  }

  /** Nothing stops a writer from writing more than a reader accepts: a record reads back just when it is within the limit. */
  lemma ReadsBackIff(r: Rec, rest: Bytes)
    requires |r.body| < WORD
    ensures ReadFront(Encode(r) + rest) == Got(r) <==> |r.body| <= 0x100_0000
  {
    hide Crc32, ReadFront, Encode;
    if |r.body| <= MAX_RECORD { ReadsBack(r, rest); } else { TooLong(r, rest); }
  }

  // ---- Whole files ----

  function File(rs: seq<Rec>): Bytes {
    if rs == [] then [] else Encode(rs[0]) + File(rs[1..])
  }

  /** What a replay of a file reads: the records, and the length of the good part. */
  datatype Contents = Contents(recs: seq<Rec>, good: nat, torn: bool)

  function ReadAll(b: Bytes): (c: Contents)
    ensures c.good <= |b|
    decreases |b|
  {
    match ReadFront(b)
    case End => Contents([], 0, false)
    case Torn => Contents([], 0, true)
    case Got(r) =>
      var n := HEADER + |r.body|;
      var c := ReadAll(b[n..]);
      Contents([r] + c.recs, n + c.good, c.torn)
  }

  /** How many of the records lie wholly before byte `cut`. */
  function Whole(rs: seq<Rec>, cut: nat): (k: nat)
    ensures k <= |rs|
  {
    if rs == [] || cut < |Encode(rs[0])| then 0 else 1 + Whole(rs[1..], cut - |Encode(rs[0])|)
  }

  ghost predicate AllFit(rs: seq<Rec>) {
    forall i :: 0 <= i < |rs| ==> Fits(rs[i])
  }

  lemma TailFits(rs: seq<Rec>)
    requires AllFit(rs) && rs != []
    ensures AllFit(rs[1..])
  {
    forall i | 0 <= i < |rs[1..]|
      ensures Fits(rs[1..][i])
    {
      assert rs[1..][i] == rs[i + 1];
    }
  }

  lemma FileFront(r: Rec, rs: seq<Rec>)
    ensures File([r] + rs) == Encode(r) + File(rs)
  {
    assert ([r] + rs)[1..] == rs;
  }

  lemma Assoc(x: Bytes, y: Bytes, z: Bytes)
    ensures (x + y) + z == x + (y + z)
  {
  }

  lemma {:induction false} FileAppend(a: seq<Rec>, b: seq<Rec>)
    ensures File(a + b) == File(a) + File(b)
  {
    hide Encode, File;
    if a == [] {
      assert a + b == b;
      FileNone();
    } else {
      FileAppend(a[1..], b);
      assert a + b == [a[0]] + (a[1..] + b) && a == [a[0]] + a[1..];
      FileFront(a[0], a[1..] + b);
      FileFront(a[0], a[1..]);
      Assoc(Encode(a[0]), File(a[1..]), File(b));
    }
  }

  lemma FileNone()
    ensures File([]) == []
  {
  }

  /** `Whole` counts the records before the cut: that many fit, one more does not. */
  lemma {:induction false} WholeIs(rs: seq<Rec>, cut: nat)
    ensures var k := Whole(rs, cut);
            |File(rs[..k])| <= cut && (k < |rs| ==> cut < |File(rs[..k + 1])|)
  {
    hide Encode;
    if rs != [] {
      if cut < |Encode(rs[0])| {
        assert rs[..1] == [rs[0]] && [rs[0]][1..] == [];
        assert File([rs[0]]) == Encode(rs[0]) + File([]);
      } else {
        var k := Whole(rs[1..], cut - |Encode(rs[0])|);
        WholeIs(rs[1..], cut - |Encode(rs[0])|);
        assert rs[..k + 1][1..] == rs[1..][..k];
        if k + 1 < |rs| { assert rs[..k + 2][1..] == rs[1..][..k + 1]; }
      }
    }
  }

  /**
   * Wherever a file is cut, a replay reads exactly the records that lie wholly before the cut; the good part is their exact
   * length, and the tail is torn just when something is left behind it.
   */
  lemma {:induction false} CutAnywhere(rs: seq<Rec>, cut: nat)
    requires AllFit(rs) && cut <= |File(rs)|
    ensures var k := Whole(rs, cut);
            var good := |File(rs[..k])|;
            ReadAll(File(rs)[..cut]) == Contents(rs[..k], good, good != cut)
  {
    hide Encode, ReadFront;
    if rs == [] {
      EmptyEnds();
    } else {
      var (r, e, rest) := (rs[0], Encode(rs[0]), File(rs[1..]));
      assert Fits(r);
      EncodeLength(r);
      if cut < |e| {
        CutShort(r, cut);
        assert (e + rest)[..cut] == e[..cut];
      } else {
        var c := cut - |e|;
        assert (e + rest)[..cut] == e + rest[..c];
        ReadsBack(r, rest[..c]);
        assert (e + rest[..c])[|e|..] == rest[..c];
        TailFits(rs);
        CutAnywhere(rs[1..], c);
        var k := Whole(rs[1..], c);
        assert rs[..k + 1] == [r] + rs[1..][..k] && rs[..k + 1][1..] == rs[1..][..k];
      }
    }
  }

  lemma EmptyEnds()
    ensures ReadFront([]) == End
  {
  }

  lemma EncodeLength(r: Rec)
    ensures |Encode(r)| == HEADER + |r.body|
  {
  }

  lemma ReadWhole(rs: seq<Rec>)
    requires AllFit(rs)
    ensures ReadAll(File(rs)) == Contents(rs, |File(rs)|, false)
  {
    hide Encode, ReadFront, ReadAll, File;
    CutAnywhere(rs, |File(rs)|);
    WholeAll(rs);
    assert File(rs)[..|File(rs)|] == File(rs) && rs[..|rs|] == rs;
  }

  /** What is left once a torn tail is cut off is the file of the records that survived. */
  lemma Truncated(rs: seq<Rec>, cut: nat)
    requires AllFit(rs) && cut <= |File(rs)|
    ensures var good := ReadAll(File(rs)[..cut]).good;
            good <= cut && File(rs)[..cut][..good] == File(rs[..Whole(rs, cut)])
  {
    hide Encode, ReadFront, ReadAll, File;
    CutAnywhere(rs, cut);
    WholeIs(rs, cut);
    var kept := rs[..Whole(rs, cut)];
    FileAppend(kept, rs[Whole(rs, cut)..]);
    assert kept + rs[Whole(rs, cut)..] == rs;
  }

  /** After the torn tail is cut off, the next append starts clean and reads back behind the records that survived. */
  lemma AppendAfterCut(rs: seq<Rec>, cut: nat, r: Rec)
    requires AllFit(rs) && Fits(r) && cut <= |File(rs)|
    ensures var good := ReadAll(File(rs)[..cut]).good;
            && good <= cut
            && ReadAll(File(rs)[..cut][..good] + Encode(r)) ==
               Contents(rs[..Whole(rs, cut)] + [r], good + |Encode(r)|, false)
  {
    hide Encode, ReadFront, ReadAll;
    Truncated(rs, cut);
    var kept := rs[..Whole(rs, cut)];
    FileAppend(kept, [r]);
    assert [r][1..] == [] && File([r]) == Encode(r);
    assert AllFit(kept + [r]);
    ReadWhole(kept + [r]);
  }

  lemma {:induction false} WholeAll(rs: seq<Rec>)
    ensures Whole(rs, |File(rs)|) == |rs|
  {
    hide Encode;
    if rs != [] { WholeAll(rs[1..]); }
  }

  lemma ReadOne(r: Rec, b: Bytes)
    requires Fits(r)
    ensures var c := ReadAll(b); ReadAll(Encode(r) + b) == Contents([r] + c.recs, |Encode(r)| + c.good, c.torn)
  {
    hide Encode, ReadFront;
    EncodeLength(r);
    ReadsBack(r, b);
    assert (Encode(r) + b)[|Encode(r)|..] == b;
  }

  lemma FileSplits(a: seq<Rec>, b: Bytes)
    requires a != [] && AllFit(a)
    ensures Fits(a[0]) && AllFit(a[1..])
    ensures File(a) + b == Encode(a[0]) + (File(a[1..]) + b) && |File(a)| == |Encode(a[0])| + |File(a[1..])|
  {
    hide Encode;
    assert Fits(a[0]);
    TailFits(a);
  }

  lemma NoFile(b: Bytes)
    ensures File([]) + b == b && |File([])| == 0
  {
  }

  /** Whole records at the front are read, whatever follows them. */
  lemma {:induction false} ReadPast(a: seq<Rec>, b: Bytes)
    requires AllFit(a)
    ensures var c := ReadAll(b);
            ReadAll(File(a) + b) == Contents(a + c.recs, |File(a)| + c.good, c.torn)
  {
    hide *;
    ghost var recs := ReadAll(b).recs;
    if a == [] {
      NoFile(b);
      assert a + recs == recs;
    } else {
      FileSplits(a, b);
      ReadPast(a[1..], b);
      ReadOne(a[0], File(a[1..]) + b);
      assert a + recs == [a[0]] + (a[1..] + recs);
    }
  }

  /** One record over the limit hides everything written after it. */
  lemma OversizeHidesTail(a: seq<Rec>, r: Rec, b: Bytes)
    requires AllFit(a) && MAX_RECORD < |r.body| < WORD
    ensures ReadAll(File(a) + (Encode(r) + b)) == Contents(a, |File(a)|, true)
  {
    hide Encode, ReadFront, File;
    TooLong(r, b);
    ReadPast(a, Encode(r) + b);
    assert a + [] == a;
  }
}
