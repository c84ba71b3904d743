/** Names of blocks: what the writer makes of them, and how disk cache, collector and fsck read them. */
module BlockNames {
  import opened Common
  import GcMerge

  // ---------------------------------------------------------------- decimal numbers

  predicate IsDigit(c: char) {
    '0' <= c <= '9'
  }

  function DigitChar(d: nat): (c: char)
    requires d < 10
    ensures IsDigit(c)
  {
    '0' + d as char
  }

  function DigitValue(c: char): (d: nat)
    requires IsDigit(c)
    ensures d < 10
  {
    (c - '0') as nat
  }

  /** Decimal, without leading zeros. */
  function Decimal(n: nat): (s: string)
    ensures s != [] && AllDigits(s)
  {
    if n < 10 then [DigitChar(n)] else Decimal(n / 10) + [DigitChar(n % 10)]
  }

  predicate AllDigits(s: string) {
    forall i | 0 <= i < |s| :: IsDigit(s[i])
  }

  function Value(s: string): nat
    requires AllDigits(s)
  {
    if s == [] then 0 else Value(s[..|s| - 1]) * 10 + DigitValue(s[|s| - 1])
  }

  lemma {:induction false} ValueOfDecimal(n: nat)
    ensures Value(Decimal(n)) == n
  {
    if n < 10 {
      assert Decimal(n)[..0] == [];
    } else {
      var s := Decimal(n / 10);
      ValueOfDecimal(n / 10);
      assert Decimal(n)[..|s|] == s && Decimal(n)[|s|] == DigitChar(n % 10);
    }
  }

  // ---------------------------------------------------------------- names

  /** Two upper case hexadecimal digits. */
  function Hex(n: nat): (s: string)
    requires n < 256
    ensures |s| == 2 && forall c | c in s :: c != '/' && c != '_'
  {
    var digits := "0123456789ABCDEF";
    [digits[n / 16], digits[n % 16]]
  }

  function BlockSize(length: int, bsize: int, indx: int): int {
    Min(length - indx * bsize, bsize)
  }

  function FileName(id: nat, indx: nat, size: nat): string {
    Decimal(id) + "_" + Decimal(indx) + "_" + Decimal(size)
  }

  function FirstDir(id: nat, hash: bool): string {
    if hash then Hex(id % 256) else Decimal(id / 1000 / 1000)
  }

  function SecondDir(id: nat, hash: bool): string {
    if hash then Decimal(id / 1000 / 1000) else Decimal(id / 1000)
  }

  /** The key below "chunks/". */
  function ObjectKey(id: nat, indx: nat, size: nat, hash: bool): string {
    FirstDir(id, hash) + "/" + SecondDir(id, hash) + "/" + FileName(id, indx, size)
  }

  /** rSlice.key, and getPathFromKey for a key that was read. */
  function BlockKey(id: nat, indx: nat, size: nat, hash: bool): string {
    "chunks/" + ObjectKey(id, indx, size, hash)
  }

  // ---------------------------------------------------------------- the disk cache

  lemma {:induction false} Prefixes(d: string, i: nat)
    requires i < |d| && AllDigits(d)
    ensures AllDigits(d[..i]) && AllDigits(d[..i + 1])
    ensures Value(d[..i + 1]) == Value(d[..i]) * 10 + DigitValue(d[i]) <= Value(d)
    decreases |d| - i
  {
    assert d[..i + 1][..i] == d[..i];
    if i + 1 < |d| { Prefixes(d, i + 1); } else { assert d[..i + 1] == d; }
  }

  lemma SmallMod(x: nat, m: nat)
    requires x < m
    ensures x % m == x
  {
  }

  /** Digits `d` stand at `p`, before an underscore or the end. */
  predicate NumberAt(key: string, p: nat, d: string) {
    && p + |d| <= |key| && AllDigits(d) && (p + |d| < |key| ==> key[p + |d|] == '_')
    && forall j {:trigger key[j]} | p <= j < p + |d| :: key[j] == d[j - p] && IsDigit(key[j])
  }

  /** One of the digit loops of getCacheKey, in arithmetic modulo `m`. */
  method ReadNumber(key: string, p: nat, m: nat, ghost d: string) returns (v: nat, next: nat)
    requires NumberAt(key, p, d) && Value(d) < m
    ensures v == Value(d) && next == p + |d| + if p + |d| < |key| then 1 else 0
  {
    v, next := 0, p;
    assert d[..0] == [];
    while next < |key| && key[next] != '_'
      invariant p <= next <= p + |d| && AllDigits(d[..next - p]) && v == Value(d[..next - p])
    {
      assert key[next] == d[next - p];
      Prefixes(d, next - p);
      SmallMod(v * 10, m);
      SmallMod(v * 10 + DigitValue(key[next]), m);
      v := v * 10 % m;
      v := (v + DigitValue(key[next])) % m;
      next := next + 1;
    }
    assert d[..|d|] == d;
    if next < |key| {
      next := next + 1;
    }
  }

  /** strings.LastIndexByte */
  method LastSlash(key: string) returns (p: int)
    ensures -1 <= p < |key| && (p >= 0 ==> key[p] == '/') && forall i | p < i < |key| :: key[i] != '/'
  {
    p := |key| - 1;
    while p >= 0 && key[p] != '/'
      invariant -1 <= p < |key| && forall i | p < i < |key| :: key[i] != '/'
    {
      p := p - 1;
    }
  }

  /** getPathFromKey */
  function PathFromKey(k: Key, hash: bool): string {
    if hash then "chunks/" + Hex(k.id % 256) + "/" + Decimal(k.id / 1000 / 1000) + "/" + Decimal(k.id) + "_" + Decimal(k.indx) + "_" + Decimal(k.size)
    else "chunks/" + Decimal(k.id / 1000 / 1000) + "/" + Decimal(k.id / 1000) + "/" + Decimal(k.id) + "_" + Decimal(k.indx) + "_" + Decimal(k.size)
  }

  lemma PathIsKey(k: Key, hash: bool)
    ensures PathFromKey(k, hash) == BlockKey(k.id, k.indx, k.size, hash)
  {
    var first, second := FirstDir(k.id, hash), SecondDir(k.id, hash);
    var a, b, c := Decimal(k.id), Decimal(k.indx), Decimal(k.size);
    assert "chunks/" + first + "/" + second + "/" + a + "_" + b + "_" + c == "chunks/" + (first + "/" + second + "/" + (a + "_" + b + "_" + c));
  }

  /** getCacheKey reads back the name of any block whose numbers fit their fields. */
  method GetCacheKey(key: string, ghost id: nat, ghost indx: nat, ghost size: nat, ghost hash: bool) returns (k: Key)
    requires key == BlockKey(id, indx, size, hash)
    requires id < 0x1_0000_0000_0000_0000 && indx < 0x1_0000_0000 && size < 0x1_0000_0000
    ensures k == Key(id, indx, size) && PathFromKey(k, hash) == key
  {
    ghost var dir := "chunks/" + FirstDir(id, hash) + "/" + SecondDir(id, hash);
    assert key == dir + "/" + FileName(id, indx, size);
    var p := LastSlash(key);
    FileBehind(dir, id, indx, size, p);
    ValueOfDecimal(id);
    ValueOfDecimal(indx);
    ValueOfDecimal(size);
    Regroup(dir + "/", Decimal(id), Decimal(indx), Decimal(size));
    k := ReadFileName(key, p + 1, dir + "/", Decimal(id), Decimal(indx), Decimal(size));
    PathIsKey(k, hash);
  }

  lemma FileBehind(dir: string, id: nat, indx: nat, size: nat, p: int)
    requires var key := dir + "/" + FileName(id, indx, size);
      -1 <= p < |key| && (p >= 0 ==> key[p] == '/') && forall i | p < i < |key| :: key[i] != '/'
    ensures p == |dir|
  {
    var f := FileName(id, indx, size);
    var key := dir + "/" + f;
    assert key[|dir|] == '/';
    forall i | |dir| < i < |key| ensures key[i] != '/' {
      NoSlash(id, indx, size, i - |dir| - 1);
      assert key[i] == f[i - |dir| - 1];
    }
  }

  method ReadFileName(key: string, p: nat, ghost front: string, ghost a: string, ghost b: string, ghost c: string) returns (k: Key)
    requires AllDigits(a) && AllDigits(b) && AllDigits(c) && key == front + a + "_" + b + "_" + c && p == |front|
    requires Value(a) < 0x1_0000_0000_0000_0000 && Value(b) < 0x1_0000_0000 && Value(c) < 0x1_0000_0000
    ensures k == Key(Value(a), Value(b), Value(c))
  {
    ThreeParts(front, a, b, c);
    var id, next := ReadNumber(key, p, 0x1_0000_0000_0000_0000, a);
    var indx, next' := ReadNumber(key, next, 0x1_0000_0000, b);
    var size, _ := ReadNumber(key, next', 0x1_0000_0000, c);
    k := Key(id, indx, size);
  }

  lemma NoSlash(id: nat, indx: nat, size: nat, i: nat)
    requires i < |FileName(id, indx, size)|
    ensures FileName(id, indx, size)[i] != '/'
  {
    var a, b, c := Decimal(id), Decimal(indx), Decimal(size);
    var f := a + "_" + b + "_" + c;
    if i < |a| { assert f[i] in a; }
    else if |a| < i < |a| + 1 + |b| { assert f[i] in b; }
    else if |a| + 1 + |b| < i { assert f[i] in c; }
  }

  lemma Regroup(front: string, a: string, b: string, c: string)
    ensures front + (a + "_" + b + "_" + c) == front + a + "_" + b + "_" + c
  {
  }

  lemma ThreeParts(front: string, a: string, b: string, c: string)
    requires AllDigits(a) && AllDigits(b) && AllDigits(c)
    ensures var key := front + a + "_" + b + "_" + c;
      NumberAt(key, |front|, a) && NumberAt(key, |front| + |a| + 1, b) && NumberAt(key, |front| + |a| + 1 + |b| + 1, c)
  {
    var key := front + a + "_" + b + "_" + c;
    NumberIn(front, a, "_" + b + "_" + c);
    assert key == front + a + ("_" + b + "_" + c);
    NumberIn(front + a + "_", b, "_" + c);
    assert key == (front + a + "_") + b + ("_" + c);
    NumberIn(front + a + "_" + b + "_", c, "");
    assert key == (front + a + "_" + b + "_") + c + "";
  }

  lemma NumberIn(front: string, d: string, back: string)
    requires AllDigits(d) && (back != "" ==> back[0] == '_')
    ensures NumberAt(front + d + back, |front|, d)
  {
    var key := front + d + back;
    forall j | |front| <= j < |front| + |d| ensures key[j] == d[j - |front|] && IsDigit(key[j]) {
    }
  }

  // ---------------------------------------------------------------- the garbage collector

  /** strings.Split by one character. */
  function Split(s: string, c: char): (parts: seq<string>)
    ensures parts != []
  {
    if s == "" then [""]
    else if s[0] == c then [""] + Split(s[1..], c)
    else var rest := Split(s[1..], c); [[s[0]] + rest[0]] + rest[1..]
  }

  lemma {:induction false} SplitAt(a: string, b: string, c: char)
    requires c !in a
    ensures Split(a + [c] + b, c) == [a] + Split(b, c)
  {
    var s := a + [c] + b;
    if a == "" {
      assert s[0] == c && s[1..] == b;
    } else {
      SplitAt(a[1..], b, c);
      assert s[0] == a[0] && s[1..] == a[1..] + [c] + b;
      assert a[0] in a;
      assert [a[0]] + a[1..] == a;
    }
  }

  lemma {:induction false} SplitWhole(a: string, c: char)
    requires c !in a
    ensures Split(a, c) == [a]
  {
    if a != "" {
      SplitWhole(a[1..], c);
      assert a[0] in a;
      assert [a[0]] + a[1..] == a;
    }
  }

  lemma SplitThree(a: string, b: string, d: string, c: char)
    requires c !in a && c !in b && c !in d
    ensures Split(a + [c] + b + [c] + d, c) == [a, b, d]
  {
    assert a + [c] + b + [c] + d == a + [c] + (b + [c] + d);
    SplitAt(a, b + [c] + d, c);
    SplitAt(b, d, c);
    SplitWhole(d, c);
  }

  /** strconv.ParseUint, base 10 and 64 bits. */
  function ParseUint(s: string): Option<nat> {
    if s == "" || !AllDigits(s) || Value(s) >= 0x1_0000_0000_0000_0000 then None else Some(Value(s))
  }

  /** strconv.Atoi, with an optional sign. */
  function Atoi(s: string): Option<int> {
    var negative := s != "" && s[0] == '-';
    var digits := if s != "" && (s[0] == '-' || s[0] == '+') then s[1..] else s;
    if digits == "" || !AllDigits(digits) then None else
    var n: int := Value(digits);
    var v := if negative then -n else n;
    if -0x8000_0000_0000_0000 <= v < 0x8000_0000_0000_0000 then Some(v) else None
  }

  /** The numbers parseGcObjectRecord finds in an object key. */
  function ParseObject(key: string): Option<(nat, int, int)> {
    var parts := Split(key, '/');
    if |parts| != 3 then None else
    var names := Split(parts[2], '_');
    if |names| != 3 then None else
    var id, indx, size := ParseUint(names[0]), Atoi(names[1]), Atoi(names[2]);
    if id.Some? && indx.Some? && size.Some? then Some((id.value, indx.value, size.value)) else None
  }

  lemma DecimalPlain(n: nat, c: char)
    requires !IsDigit(c)
    ensures c !in Decimal(n)
  {
  }

  lemma AtoiDecimal(n: nat)
    requires n < 0x8000_0000_0000_0000
    ensures Atoi(Decimal(n)) == Some(n)
  {
    ValueOfDecimal(n);
    assert IsDigit(Decimal(n)[0]);
  }

  lemma FileNamePlain(id: nat, indx: nat, size: nat)
    ensures '/' !in FileName(id, indx, size)
  {
    var f := FileName(id, indx, size);
    forall i | 0 <= i < |f| ensures f[i] != '/' { NoSlash(id, indx, size, i); }
  }

  /** The collector reads back the name of every block. */
  lemma ObjectParses(id: nat, indx: nat, size: nat, hash: bool)
    requires id < 0x1_0000_0000_0000_0000 && indx < 0x8000_0000_0000_0000 && size < 0x8000_0000_0000_0000
    ensures ParseObject(ObjectKey(id, indx, size, hash)) == Some((id, indx, size))
  {
    var first, second, file := FirstDir(id, hash), SecondDir(id, hash), FileName(id, indx, size);
    FileNamePlain(id, indx, size);
    DirsPlain(id, hash);
    SplitThree(first, second, file, '/');
    assert ObjectKey(id, indx, size, hash) == first + ['/'] + second + ['/'] + file;
    DecimalPlain(id, '_');
    DecimalPlain(indx, '_');
    DecimalPlain(size, '_');
    SplitThree(Decimal(id), Decimal(indx), Decimal(size), '_');
    assert file == Decimal(id) + ['_'] + Decimal(indx) + ['_'] + Decimal(size);
    ValueOfDecimal(id);
    AtoiDecimal(indx);
    AtoiDecimal(size);
  }

  lemma DirsPlain(id: nat, hash: bool)
    ensures '/' !in FirstDir(id, hash) && '/' !in SecondDir(id, hash)
  {
    DecimalPlain(id / 1000 / 1000, '/');
    DecimalPlain(id / 1000, '/');
  }

  /** Different blocks have different names. */
  lemma NamesDiffer(id: nat, indx: nat, size: nat, id': nat, indx': nat, size': nat, hash: bool)
    requires id < 0x1_0000_0000_0000_0000 && indx < 0x8000_0000_0000_0000 && size < 0x8000_0000_0000_0000
    requires id' < 0x1_0000_0000_0000_0000 && indx' < 0x8000_0000_0000_0000 && size' < 0x8000_0000_0000_0000
    requires BlockKey(id, indx, size, hash) == BlockKey(id', indx', size', hash)
    ensures id == id' && indx == indx' && size == size'
  {
    var a, b := ObjectKey(id, indx, size, hash), ObjectKey(id', indx', size', hash);
    assert a == BlockKey(id, indx, size, hash)[7..] && b == BlockKey(id', indx', size', hash)[7..];
    ObjectParses(id, indx, size, hash);
    ObjectParses(id', indx', size', hash);
  }

  // ---------------------------------------------------------------- the blocks of a slice

  /** Block `indx` of a slice exists and has this size. */
  predicate IsBlock(length: nat, bsize: nat, indx: int, size: int) {
    0 <= indx && indx * bsize < length && size == BlockSize(length, bsize, indx)
  }

  /** The indexes that Remove and fsck go through, and the sizes fsck expects. */
  lemma FsckBlocks(length: nat, bsize: nat, indx: nat)
    requires 0 < length && 0 < bsize
    ensures var last := (length - 1) / bsize;
      && (indx <= last <==> indx * bsize < length)
      && (indx <= last ==> IsBlock(length, bsize, indx, if indx == last then length - indx * bsize else bsize))
  {
    var last := (length - 1) / bsize;
    assert last * bsize <= length - 1 < last * bsize + bsize;
    if indx < last {
      assert indx * bsize + bsize <= last * bsize by { MulStep(indx, last, bsize); }
    } else if last < indx {
      assert last * bsize + bsize <= indx * bsize by { MulStep(last, indx, bsize); }
    }
  }

  /** The object fsck looks for at index `indx` of a slice. */
  function FsckKey(id: nat, length: nat, bsize: nat, indx: nat, hash: bool): string
    requires 0 < bsize && 0 < length && indx <= (length - 1) / bsize && indx * bsize < length
  {
    var n := (length - 1) / bsize;
    var sz := if indx == n then length - indx * bsize else bsize;
    var key := Decimal(id) + "_" + Decimal(indx) + "_" + Decimal(sz);
    if hash then Hex(id % 256) + "/" + Decimal(id / 1000 / 1000) + "/" + key
    else Decimal(id / 1000 / 1000) + "/" + Decimal(id / 1000) + "/" + key
  }

  /** It is the object the writer named, for every block of the slice and for no other index. */
  lemma FsckNames(id: nat, length: nat, bsize: nat, indx: nat, hash: bool)
    requires 0 < length && 0 < bsize
    ensures indx <= (length - 1) / bsize <==> indx * bsize < length
    ensures indx * bsize < length ==> BlockSize(length, bsize, indx) > 0
    ensures indx * bsize < length ==> FsckKey(id, length, bsize, indx, hash) == ObjectKey(id, indx, BlockSize(length, bsize, indx), hash)
  {
    FsckBlocks(length, bsize, indx);
  }

  /** isLeakedBlock spares exactly the blocks of the slice, and whole blocks with a negative
      index, which no writer names. */
  lemma LeakedIsExact(length: nat, bsize: nat, indx: int, size: int)
    requires 0 < length && 0 < size <= bsize
    ensures !GcMerge.IsLeakedBlock(indx, size, length, bsize) <==> IsBlock(length, bsize, indx, size) || (indx < 0 && size == bsize)
  {
    var start := indx * bsize;
    Products(indx, bsize);
    assert GcMerge.IsLeakedBlock(indx, size, length, bsize) <==> if size == bsize then start + bsize > length else start + size != length;
    assert IsBlock(length, bsize, indx, size) <==> 0 <= indx && start < length && size == Min(length - start, bsize);
  }

  lemma Products(indx: int, bsize: nat)
    ensures (indx + 1) * bsize == indx * bsize + bsize
    ensures indx < 0 ==> indx * bsize + bsize <= 0
  {
    if indx < 0 { NotPositive(indx + 1, bsize); }
  }

  lemma {:induction false} NotPositive(n: int, b: nat)
    requires n <= 0
    ensures n * b <= 0
    decreases -n
  {
    if n < 0 {
      NotPositive(n + 1, b);
      assert n * b == (n + 1) * b - b;
    }
  }
}
