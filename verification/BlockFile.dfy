/** The file of a cached block: data, a checksum for every 32 KiB, and a footer. */
module BlockFile {
  import opened Common

  const CS: nat := 0x8000                  // csBlock

  datatype Level = NoSums | Full | Shrink | Extend

  type Crc = seq<byte> -> uint32

  // ---------------------------------------------------------------- checksums

  /** How many checksums there are for `n` bytes; there is one even for none. */
  function Sums(n: nat): nat {
    TruncDiv(n - 1, CS) + 1
  }

  /** Where checksum block `i` ends. */
  function End(length: nat, i: nat): nat {
    Min((i + 1) * CS, length)
  }

  /** The checksum at place `i` of `sums` is the one of block `i` of `data`. */
  predicate SumAt(data: seq<byte>, sums: seq<byte>, crc: Crc, i: nat) {
    i * CS < |data| && 4 * i + 4 <= |sums| ==> sums[4 * i..4 * i + 4] == Put32(crc(data[i * CS..End(|data|, i)]))
  }

  ghost predicate SumsOf(data: seq<byte>, sums: seq<byte>, crc: Crc) {
    |sums| == 4 * Sums(|data|) && forall i: nat {:trigger SumAt(data, sums, crc, i)} :: SumAt(data, sums, crc, i)
  }

  /** The first `n` checksums are in place. */
  ghost predicate SumsBelow(data: seq<byte>, sums: seq<byte>, crc: Crc, n: nat) {
    forall i: nat {:trigger SumAt(data, sums, crc, i)} | i < n :: SumAt(data, sums, crc, i)
  }

  function WithSum(data: seq<byte>, sums: seq<byte>, crc: Crc, i: nat): seq<byte>
    requires i * CS < |data| && 4 * i + 4 <= |sums|
  {
    sums[..4 * i] + Put32(crc(data[i * CS..End(|data|, i)])) + sums[4 * i + 4..]
  }

  method Checksum(data: seq<byte>, crc: Crc) returns (buf: seq<byte>)
    ensures SumsOf(data, buf, crc) && (data == [] ==> buf == [0, 0, 0, 0])
  {
    var n := |data|;
    buf := seq(4 * Sums(n), _ => 0);
    var start, j := 0, 0;
    while start < n
      invariant |buf| == 4 * Sums(n) && start == Min(j * CS, n) && j <= Sums(n)
      invariant SumsBelow(data, buf, crc, j) && (n == 0 ==> buf == [0, 0, 0, 0])
    {
      var end := Min(start + CS, n);
      var off := 4 * j;
      assert start == j * CS && end == End(n, j);
      var sum := Put32(crc(data[start..end]));
      PutSum(data, buf, crc, j);
      ghost var next := WithSum(data, buf, crc, j);
      buf := buf[..off] + sum + buf[off + 4..];
      assert buf == next;
      start, j := end, j + 1;
    }
    forall i: nat ensures SumAt(data, buf, crc, i) {
      assert i < j || n <= i * CS;
    }
  }

  lemma PutSum(data: seq<byte>, buf: seq<byte>, crc: Crc, j: nat)
    requires j * CS < |data| && 4 * j + 4 <= |buf| && SumsBelow(data, buf, crc, j)
    ensures SumsBelow(data, WithSum(data, buf, crc, j), crc, j + 1)
  {
    var next := WithSum(data, buf, crc, j);
    forall i: nat | i < j + 1 ensures SumAt(data, next, crc, i) {
      if i < j {
        assert SumAt(data, buf, crc, i);
        assert next[4 * i..4 * i + 4] == buf[4 * i..4 * i + 4];
      }
    }
  }

  // ---------------------------------------------------------------- reads

  /** The stored checksum of block `i` is there and right. */
  predicate Matches(file: seq<byte>, length: nat, crc: Crc, i: nat) {
    && i * CS < length <= |file| && length + 4 * i + 4 <= |file|
    && crc(file[i * CS..End(length, i)]) == Get32(file[length + 4 * i..length + 4 * i + 4])
  }

  /** All blocks from `i0` on that start before `hi`. */
  ghost predicate RangeMatches(file: seq<byte>, length: nat, crc: Crc, i0: nat, hi: nat) {
    forall i: nat {:trigger Matches(file, length, crc, i)} | i0 <= i && i * CS < hi :: Matches(file, length, crc, i)
  }

  /** The checks at the end of cacheFile.ReadAt: `rb` was read from block `ioff` on. */
  method Verify(file: seq<byte>, length: nat, crc: Crc, rb: seq<byte>, ioff: nat) returns (ok: bool)
    requires length <= |file| && ioff * CS + |rb| <= length && rb == file[ioff * CS..ioff * CS + |rb|]
    requires |rb| % CS == 0 || ioff * CS + |rb| == length
    ensures rb == [] ==> (ok <==> length + 4 * ioff + 4 <= |file|)
    ensures rb != [] ==> (ok <==> RangeMatches(file, length, crc, ioff, ioff * CS + |rb|))
  {
    var n := |rb|;
    var at := length + ioff * 4;
    if at + 4 * Sums(n) > |file| {
      assert !Matches(file, length, crc, ioff + Sums(n) - 1);
      return false;
    }
    var buf := file[at..at + 4 * Sums(n)];
    var start, j := 0, 0;
    while start < n
      invariant start == Min(j * CS, n) && j <= Sums(n)
      invariant forall i: nat {:trigger Matches(file, length, crc, i)} | ioff <= i < ioff + j :: Matches(file, length, crc, i)
    {
      var end := Min(start + CS, n);
      var sum := crc(rb[start..end]);
      var stored := Get32(buf[4 * j..4 * j + 4]);
      OneSum(file, length, rb, ioff, j, end, buf);
      if sum != stored {
        assert !Matches(file, length, crc, ioff + j);
        return false;
      }
      assert Matches(file, length, crc, ioff + j);
      start, j := end, j + 1;
    }
    ok := true;
  }

  lemma OneSum(file: seq<byte>, length: nat, rb: seq<byte>, ioff: nat, j: nat, end: nat, buf: seq<byte>)
    requires length <= |file| && ioff * CS + |rb| <= length && rb == file[ioff * CS..ioff * CS + |rb|]
    requires |rb| % CS == 0 || ioff * CS + |rb| == length
    requires j * CS < |rb| && end == Min(j * CS + CS, |rb|) && j < Sums(|rb|)
    requires length + ioff * 4 + 4 * Sums(|rb|) <= |file| && buf == file[length + ioff * 4..length + ioff * 4 + 4 * Sums(|rb|)]
    ensures rb[j * CS..end] == file[(ioff + j) * CS..End(length, ioff + j)]
    ensures buf[4 * j..4 * j + 4] == file[length + 4 * (ioff + j)..length + 4 * (ioff + j) + 4]
  {
    var at := length + ioff * 4;
    assert End(length, ioff + j) == ioff * CS + end;
    SubSlice(file, ioff * CS, ioff * CS + |rb|, j * CS, end);
    SubSlice(file, at, at + 4 * Sums(|rb|), 4 * j, 4 * j + 4);
  }

  /** The range starts before the end of block `i` and ends after its start. */
  predicate Overlaps(length: nat, off: nat, want: nat, i: nat) {
    i * CS < length && i * CS < off + want && off < (i + 1) * CS
  }

  predicate Shares(length: nat, off: nat, want: nat, i: nat, p: nat) {
    off <= p < off + want && i * CS <= p < End(length, i)
  }

  /** For a range that is not empty, that is to share a byte. */
  lemma OverlapIsShared(length: nat, off: nat, want: nat, i: nat)
    requires 0 < want && off + want <= length
    ensures Overlaps(length, off, want, i) <==> exists p: nat :: Shares(length, off, want, i, p)
  {
    if Overlaps(length, off, want, i) {
      assert Shares(length, off, want, i, if off < i * CS then i * CS else off);
    }
  }

  predicate Inside(length: nat, off: nat, want: nat, i: nat) {
    i * CS < length && off <= i * CS && End(length, i) <= off + want
  }

  /** The blocks a read must check. */
  predicate MustMatch(level: Level, length: nat, off: nat, want: nat, i: nat) {
    match level
    case NoSums => false
    case Full => off == 0 && want == length && i * CS < length
    case Shrink => Inside(length, off, want, i)
    case Extend => Overlaps(length, off, want, i)
  }

  ghost predicate AllMatch(file: seq<byte>, length: nat, level: Level, crc: Crc, off: nat, want: nat) {
    forall i: nat {:trigger Matches(file, length, crc, i)} | MustMatch(level, length, off, want, i) :: Matches(file, length, crc, i)
  }

  /** A read that checks nothing but still wants to see one checksum. */
  predicate ChecksNothing(level: Level, length: nat, off: nat, want: nat) {
    want == 0 && off % CS == 0 && (level.Extend? || level.Shrink? || (level.Full? && length == 0))
  }

  /** What a read amounts to, on any file. */
  ghost predicate ReadOk(file: seq<byte>, length: nat, level: Level, crc: Crc, off: nat, want: nat) {
    && AllMatch(file, length, level, crc, off, want)
    && (ChecksNothing(level, length, off, want) ==> length + off / CS * 4 + 4 <= |file|)
  }

  /** cacheFile.ReadAt, of a range within the data. */
  method ReadAt(file: seq<byte>, length: nat, level: Level, crc: Crc, off: nat, want: nat) returns (data: seq<byte>, ok: bool)
    requires off + want <= length <= |file|
    ensures ok <==> ReadOk(file, length, level, crc, off, want)
    ensures ok ==> data == file[off..off + want]
  {
    data := file[off..off + want];
    if level == NoSums || (level == Full && (off != 0 || want != length)) {
      return data, true;
    }
    if level == Shrink {
      ok := ReadShrink(file, length, crc, off, want);
    } else if level == Extend {
      data, ok := ReadExtend(file, length, crc, off, want);
    } else {
      ok := Verify(file, length, crc, data, 0);
      Concluded(file, length, Full, crc, off, want, 0, length, ok);
    }
  }

  /** The read is widened to whole blocks. */
  method ReadExtend(file: seq<byte>, length: nat, crc: Crc, off: nat, want: nat) returns (data: seq<byte>, ok: bool)
    requires off + want <= length <= |file|
    ensures ok <==> ReadOk(file, length, Extend, crc, off, want)
    ensures ok ==> data == file[off..off + want]
  {
    var ioff, roff, rend := Widen(length, off, want);
    var rb := file[roff..rend];
    ok := Verify(file, length, crc, rb, ioff);
    Concluded(file, length, Extend, crc, off, want, ioff, rend, ok);
    SubSlice(file, roff, rend, off - roff, off - roff + want);
    data := rb[off - roff..off - roff + want];
  }

  method Widen(length: nat, off: nat, want: nat) returns (ioff: nat, roff: nat, rend: nat)
    requires off + want <= length
    ensures roff == ioff * CS <= off && off + want <= rend <= length && ioff == off / CS
    ensures (rend - roff) % CS == 0 || rend == length
    ensures forall i: nat {:trigger MustMatch(Extend, length, off, want, i)} ::
      MustMatch(Extend, length, off, want, i) <==> ioff <= i && i * CS < rend
    ensures rend == roff <==> want == 0 && off % CS == 0
  {
    roff := off / CS * CS;
    rend := off + want;
    if rend % CS != 0 {
      rend := (rend / CS + 1) * CS;
      if rend > length {
        rend := length;
      }
    }
    ioff := roff / CS;
  }

  /** Only the blocks that were read as a whole are checked. */
  method ReadShrink(file: seq<byte>, length: nat, crc: Crc, off: nat, want: nat) returns (ok: bool)
    requires off + want <= length <= |file|
    ensures ok <==> ReadOk(file, length, Shrink, crc, off, want)
  {
    var skip, ioff, lo, hi := Trim(length, off, want);
    if skip {
      return true;
    }
    ok := Verify(file, length, crc, file[lo..hi], ioff);
    Concluded(file, length, Shrink, crc, off, want, ioff, hi, ok);
  }

  method Trim(length: nat, off: nat, want: nat) returns (skip: bool, ioff: nat, lo: nat, hi: nat)
    requires off + want <= length
    ensures skip ==> !(want == 0 && off % CS == 0) && forall i: nat :: !MustMatch(Shrink, length, off, want, i)
    ensures !skip ==> lo == ioff * CS <= hi <= length && ((hi - lo) % CS == 0 || hi == length)
    ensures !skip ==> forall i: nat {:trigger MustMatch(Shrink, length, off, want, i)} ::
      MustMatch(Shrink, length, off, want, i) <==> ioff <= i && i * CS < hi
    ensures !skip ==> if want == 0 then lo == hi && off % CS == 0 && ioff == off / CS else lo < hi
  {
    skip, ioff, lo, hi := false, off / CS, off, off + want;
    if off % CS != 0 {
      var o := CS - off % CS;
      if want <= o {
        skip := true;
        return;
      }
      lo, ioff := off + o, ioff + 1;
    }
    var end := off + want;
    if end != length && end % CS != 0 {
      if hi - lo <= end % CS {
        skip := true;
        return;
      }
      hi := hi - end % CS;
    }
  }

  /** What the checks found, in terms of the range that was asked for. */
  lemma Concluded(file: seq<byte>, length: nat, level: Level, crc: Crc, off: nat, want: nat, i0: nat, hi: nat, ok: bool)
    requires forall i: nat {:trigger MustMatch(level, length, off, want, i)} :: MustMatch(level, length, off, want, i) <==> i0 <= i && i * CS < hi
    requires if hi == i0 * CS then ChecksNothing(level, length, off, want) && i0 == off / CS else !ChecksNothing(level, length, off, want)
    requires ok <==> if hi == i0 * CS then length + 4 * i0 + 4 <= |file| else RangeMatches(file, length, crc, i0, hi)
    ensures ok <==> ReadOk(file, length, level, crc, off, want)
  {
    SameBlocks(file, length, level, crc, off, want, i0, hi);
  }

  lemma SameBlocks(file: seq<byte>, length: nat, level: Level, crc: Crc, off: nat, want: nat, i0: nat, hi: nat)
    requires forall i: nat {:trigger MustMatch(level, length, off, want, i)} :: MustMatch(level, length, off, want, i) <==> i0 <= i && i * CS < hi
    ensures AllMatch(file, length, level, crc, off, want) <==> RangeMatches(file, length, crc, i0, hi)
  {
    if AllMatch(file, length, level, crc, off, want) {
      forall i: nat | i0 <= i && i * CS < hi ensures Matches(file, length, crc, i) {
        assert MustMatch(level, length, off, want, i);
      }
    }
  }

  /** Behind the data come its checksums, whatever else follows. */
  lemma WrittenMatches(data: seq<byte>, sums: seq<byte>, rest: seq<byte>, crc: Crc, i: nat)
    requires SumsOf(data, sums, crc) && i * CS < |data|
    ensures Matches(data + sums + rest, |data|, crc, i)
  {
    var file := data + sums + rest;
    assert SumAt(data, sums, crc, i);
    assert file[i * CS..End(|data|, i)] == data[i * CS..End(|data|, i)];
    assert file[|data| + 4 * i..|data| + 4 * i + 4] == sums[4 * i..4 * i + 4];
    Get32Put32(crc(data[i * CS..End(|data|, i)]));
  }

  /** An empty read at the end of whole blocks. */
  predicate EmptyAtEnd(level: Level, length: nat, off: nat, want: nat) {
    (level.Extend? || level.Shrink?) && want == 0 && off == length && 0 < length && length % CS == 0
  }

  /** Reads of a written file succeed, except exactly an empty read at the end of whole blocks
      when nothing follows the checksums. */
  lemma WrittenReads(data: seq<byte>, sums: seq<byte>, rest: seq<byte>, level: Level, crc: Crc, off: nat, want: nat)
    requires SumsOf(data, sums, crc) && off + want <= |data|
    ensures ReadOk(data + sums + rest, |data|, level, crc, off, want) <==>
      !(EmptyAtEnd(level, |data|, off, want) && |rest| < 4)
  {
    var file := data + sums + rest;
    forall i: nat | MustMatch(level, |data|, off, want, i) ensures Matches(file, |data|, crc, i) {
      WrittenMatches(data, sums, rest, crc, i);
    }
    if off % CS == 0 { SumsBehind(|data|, off); }
  }

  lemma SumsBehind(length: nat, off: nat)
    requires off <= length && off % CS == 0
    ensures off / CS + 1 <= Sums(length) <==> !(off == length && 0 < length)
  {
  }

  // ---------------------------------------------------------------- footers

  const MAGIC: nat := 0x4653               // stageFooterMagic

  /** MessagePack for a tier and a number of padding bytes. */
  datatype Codec = Codec(base: nat, encode: (nat, nat) -> seq<byte>, decode: seq<byte> -> Option<nat>)

  ghost predicate Sound(c: Codec) {
    && 0 < c.base < 0x1_0000 - 4
    && forall tier: nat, pad: nat {:trigger c.encode(tier, pad)} | tier < 0x100 && pad < 4 ::
      |c.encode(tier, pad)| == c.base + pad && c.decode(c.encode(tier, pad)) == Some(tier)
  }

  /** stageFooter.marshal: padded to a multiple of four, or to none. */
  method Marshal(c: Codec, tier: nat, align: bool) returns (footer: seq<byte>)
    requires Sound(c) && tier < 0x100
    ensures |footer| > 4 && (|footer| % 4 == 0 <==> align) && |footer| < 0x1_0000 + 4
    ensures footer[..4] == Put16(MAGIC) + Put16(|footer| - 4) && c.decode(footer[4..]) == Some(tier)
  {
    var r := c.base % 4;
    var p := if align then (4 - r) % 4 else if r == 0 then 1 else 0;
    var data := c.encode(tier, p);
    footer := Put16(MAGIC) + Put16(|data|) + data;
    assert footer[4..] == data;
  }

  datatype CacheFile = CacheFile(length: nat, level: Level, size: nat, footerOff: nat)

  /** openCacheFile, of a file of `size` bytes. */
  function Open(size: nat, length: nat, level: Level): Option<CacheFile> {
    var extra := size - length;
    if extra < 0 then None
    else if extra == 0 then Some(CacheFile(length, NoSums, size, 0))
    else if extra % 4 != 0 then Some(CacheFile(length, NoSums, size, length))
    else if extra == 4 * Sums(length) then Some(CacheFile(length, level, size, 0))
    else if extra > 4 * Sums(length) then Some(CacheFile(length, level, size, length + 4 * Sums(length)))
    else None
  }

  /** stageFooter.unmarshal: the tier, or an error. */
  function Unmarshal(c: Codec, file: seq<byte>, cf: CacheFile): Option<nat> {
    var at := cf.footerOff;
    if at == 0 then Some(0)
    else if at + 4 > |file| || Get16(file[at..at + 2]) != MAGIC then None
    else
      var size := Get16(file[at + 2..at + 4]);
      if size == 0 || at + 4 + size != cf.size || at + 4 + size > |file| then None
      else match c.decode(file[at + 4..at + 4 + size])
        case None => None
        case Some(tier) => Some(if tier > 3 then 0 else tier)
  }

  ghost predicate Unpacks(c: Codec, footer: seq<byte>, tier: nat) {
    && 4 < |footer| < 0x1_0000 + 4 && footer[..4] == Put16(MAGIC) + Put16(|footer| - 4)
    && c.decode(footer[4..]) == Some(tier)
  }

  /** Where the footer goes. */
  function FooterAt(length: nat, level: Level): nat {
    length + if level == NoSums then 0 else 4 * Sums(length)
  }

  /** Data, checksums unless there are none, and a footer exactly for a tier. */
  ghost predicate Laid(file: seq<byte>, data: seq<byte>, level: Level, tier: nat, c: Codec, crc: Crc) {
    var n := FooterAt(|data|, level);
    && |data| <= n <= |file| && file[..|data|] == data
    && (level != NoSums ==> SumsOf(data, file[|data|..n], crc))
    && (if tier == 0 then |file| == n else ((|file| - n) % 4 == 0 <==> level != NoSums) && Unpacks(c, file[n..], tier))
  }

  /** The layout that flushPage writes. */
  method FlushPage(data: seq<byte>, level: Level, tier: nat, c: Codec, crc: Crc) returns (file: seq<byte>)
    requires Sound(c) && tier <= 3
    ensures Laid(file, data, level, tier, c, crc)
  {
    file := data;
    if level != NoSums {
      var sums := Checksum(data, crc);
      file := file + sums;
      assert file[|data|..] == sums;
    }
    ghost var front := file;
    if tier != 0 {
      var footer := Marshal(c, tier, level != NoSums);
      file := file + footer;
      assert file[|front|..] == footer;
    }
    assert file[|data|..|front|] == front[|data|..];
  }

  /** The size of a file tells its layout. */
  lemma OpensTo(file: seq<byte>, data: seq<byte>, written: Level, wanted: Level, tier: nat, c: Codec, crc: Crc)
    requires Laid(file, data, written, tier, c, crc)
    ensures Open(|file|, |data|, wanted) ==
      Some(CacheFile(|data|, if written == NoSums then NoSums else wanted, |file|, if tier == 0 then 0 else FooterAt(|data|, written)))
  {
  }

  /** A staged file read back: its layout is recognised, and its tier unless it is empty and
      without checksums, when the footer would be at offset zero. */
  method StageAndOpen(data: seq<byte>, written: Level, wanted: Level, tier: nat, c: Codec, crc: Crc)
    returns (cf: CacheFile, t: Option<nat>)
    requires Sound(c) && tier <= 3
    ensures cf.length == |data| && cf.level == if written == NoSums then NoSums else wanted
    ensures cf.footerOff == if tier == 0 then 0 else FooterAt(|data|, written)
    ensures t == Some(if data == [] && written == NoSums then 0 else tier)
  {
    var file := FlushPage(data, written, tier, c, crc);
    OpensTo(file, data, written, wanted, tier, c, crc);
    cf := Open(|file|, |data|, wanted).value;
    t := Unmarshal(c, file, cf);
    if cf.footerOff != 0 {
      var n := FooterAt(|data|, written);
      assert file == file[..n] + file[n..];
      FooterFound(file[..n], file[n..], c, tier, cf);
    }
  }

  lemma FooterFound(front: seq<byte>, footer: seq<byte>, c: Codec, tier: nat, cf: CacheFile)
    requires Unpacks(c, footer, tier) && tier <= 3
    requires cf.footerOff == |front| && cf.size == |front + footer|
    ensures Unmarshal(c, front + footer, cf) == Some(if front == [] then 0 else tier)
  {
    var file, at := front + footer, |front|;
    assert file[at..at + 2] == footer[..4][..2] == Put16(MAGIC);
    assert file[at + 2..at + 4] == footer[..4][2..] == Put16(|footer| - 4);
    assert file[at + 4..at + 4 + (|footer| - 4)] == footer[4..];
    Get16Put16(MAGIC);
    Get16Put16(|footer| - 4);
  }

  lemma Get16Put16(v: nat)
    requires v < 0x1_0000
    ensures Get16(Put16(v)) == v
  {
  }

  /** Write, open and read, at any levels: the data comes back, but for the empty read at the
      end of whole blocks of a file without a footer. */
  method StageAndRead(data: seq<byte>, written: Level, wanted: Level, tier: nat, c: Codec, crc: Crc, off: nat, want: nat)
    returns (got: seq<byte>, ok: bool)
    requires Sound(c) && tier <= 3 && off + want <= |data|
    ensures ok <==> !(written != NoSums && tier == 0 && EmptyAtEnd(wanted, |data|, off, want))
    ensures ok ==> got == data[off..off + want]
  {
    var file := FlushPage(data, written, tier, c, crc);
    OpensTo(file, data, written, wanted, tier, c, crc);
    var cf := Open(|file|, |data|, wanted).value;
    got, ok := ReadAt(file, |data|, cf.level, crc, off, want);
    if written != NoSums {
      ghost var n := FooterAt(|data|, written);
      assert file == data + file[|data|..n] + file[n..];
      WrittenReads(data, file[|data|..n], file[n..], wanted, crc, off, want);
    }
    SubSlice(file, 0, |data|, off, off + want);
  }

  /** An empty block staged without checksums loses its tier. */
  method TierLost(wanted: Level, tier: nat, c: Codec, crc: Crc) returns (t: Option<nat>)
    requires Sound(c) && 0 < tier <= 3
    ensures t == Some(0) != Some(tier)
  {
    var _, t' := StageAndOpen([], NoSums, wanted, tier, c, crc);
    t := t';
  }

  /** An empty read at the end of one whole block, with its checksum but without a footer, is refused. */
  method EmptyReadRefused(c: Codec, crc: Crc) returns (ok: bool)
    requires Sound(c)
    ensures !ok
  {
    var data: seq<byte> := seq(CS, _ => 0);
    var _, ok' := StageAndRead(data, Full, Extend, 0, c, crc, CS, 0);
    ok := ok';
  }
}
