/** Finding leaked objects: a merge of sorted records against a lookup in maps. */
module GcMerge {
  import opened Common

  const USED: nat := 0                     // gcStateUsed
  const PENDING: nat := 1                  // gcStatePending
  const TRASH: nat := 2                    // gcStateTrash

  datatype MetaRecord = MetaRecord(id: nat, size: nat, state: nat)

  datatype ObjectRecord = ObjectRecord(id: nat, index: int, blockSize: int, objectSize: int, key: seq<byte>)

  predicate IsLeakedBlock(index: int, blockSize: int, sliceSize: int, configured: int) {
    if blockSize == configured then (index + 1) * blockSize > sliceSize
    else index * configured + blockSize != sliceSize
  }

  // ---------------------------------------------------------------- what is counted

  datatype Class = Leaked | Valid | Pending | Trash

  datatype Count = Count(n: nat, bytes: int)

  function More(c: Count, bytes: int): Count {
    Count(c.n + 1, c.bytes + bytes)
  }

  /** gcStats, and the keys sent to the deleters. */
  datatype Stats = Stats(valid: Count, pending: Count, trash: Count, leaked: Count, keys: multiset<seq<byte>>)

  function NoStats(): Stats {
    Stats(Count(0, 0), Count(0, 0), Count(0, 0), Count(0, 0), multiset{})
  }

  function Tally(s: Stats, o: ObjectRecord, c: Class): Stats {
    match c
    case Leaked => s.(leaked := More(s.leaked, o.objectSize), keys := s.keys + multiset{o.key})
    case Valid => s.(valid := More(s.valid, o.objectSize))
    case Pending => s.(pending := More(s.pending, o.objectSize))
    case Trash => s.(trash := More(s.trash, o.objectSize))
  }

  // ---------------------------------------------------------------- what it should be

  predicate Has(metas: seq<MetaRecord>, id: nat, state: nat) {
    exists m :: m in metas && m.id == id && m.state == state
  }

  /** Records are complete, and the records of a slice in use agree on its size. */
  ghost predicate WellFormed(metas: seq<MetaRecord>) {
    && (forall m {:trigger m in metas} | m in metas :: m.size > 0 && m.state <= TRASH)
    && (forall m, m' {:trigger m in metas, m' in metas} | m in metas && m' in metas && m.id == m'.id && m.state == USED == m'.state :: m.size == m'.size)
  }

  function UsedSize(metas: seq<MetaRecord>, id: nat): nat
    requires Has(metas, id, USED)
  {
    if metas[|metas| - 1].id == id && metas[|metas| - 1].state == USED then metas[|metas| - 1].size
    else UsedSize(metas[..|metas| - 1], id)
  }

  /** In use, else to be deleted, else in the trash, else leaked. */
  function ClassOf(metas: seq<MetaRecord>, o: ObjectRecord, bsize: nat): Class {
    if Has(metas, o.id, USED) then
      if IsLeakedBlock(o.index, o.blockSize, UsedSize(metas, o.id), bsize) then Leaked else Valid
    else if Has(metas, o.id, PENDING) then Pending
    else if Has(metas, o.id, TRASH) then Trash
    else Leaked
  }

  /** The sum over all objects, given what each is. */
  function Sum(objs: seq<ObjectRecord>, f: ObjectRecord -> Class): Stats {
    if objs == [] then NoStats() else
    var n := |objs| - 1;
    Tally(Sum(objs[..n], f), objs[n], f(objs[n]))
  }

  lemma SumMore(objs: seq<ObjectRecord>, o: ObjectRecord, f: ObjectRecord -> Class)
    ensures Sum(objs + [o], f) == Tally(Sum(objs, f), o, f(o))
  {
    assert (objs + [o])[..|objs|] == objs;
  }

  lemma Commute(s: Stats, a: ObjectRecord, c: Class, b: ObjectRecord, d: Class)
    ensures Tally(Tally(s, a, c), b, d) == Tally(Tally(s, b, d), a, c)
  {
  }

  /** The sum does not depend on the order. */
  lemma {:induction false} PullOut(a: seq<ObjectRecord>, x: ObjectRecord, b: seq<ObjectRecord>, f: ObjectRecord -> Class)
    ensures Sum(a + [x] + b, f) == Tally(Sum(a + b, f), x, f(x))
  {
    if b == [] {
      assert a + [x] + b == a + [x] && a + b == a;
      SumMore(a, x, f);
    } else {
      var n := |b| - 1;
      var b', y := b[..n], b[n];
      assert a + [x] + b == (a + [x] + b') + [y] && a + b == (a + b') + [y];
      SumMore(a + [x] + b', y, f);
      SumMore(a + b', y, f);
      PullOut(a, x, b', f);
      Commute(Sum(a + b', f), x, f(x), y, f(y));
    }
  }

  lemma {:induction false} AnyOrder(a: seq<ObjectRecord>, b: seq<ObjectRecord>, f: ObjectRecord -> Class)
    requires multiset(a) == multiset(b)
    ensures Sum(a, f) == Sum(b, f)
    decreases |a|
  {
    assert |multiset(a)| == |a| && |multiset(b)| == |b|;
    if a != [] {
      var n := |a| - 1;
      var a', x := a[..n], a[n];
      assert a == a' + [x] + [] && a' == a' + [];
      var front, back := Around(b, x);
      WithoutOne(a', x, []);
      WithoutOne(front, x, back);
      AnyOrder(a', front + back, f);
      PullOut(a', x, [], f);
      PullOut(front, x, back, f);
    }
  }

  lemma Around(s: seq<ObjectRecord>, x: ObjectRecord) returns (front: seq<ObjectRecord>, back: seq<ObjectRecord>)
    requires x in multiset(s)
    ensures s == front + [x] + back
  {
    var i :| 0 <= i < |s| && s[i] == x;
    front, back := s[..i], s[i + 1..];
  }

  lemma WithoutOne(a: seq<ObjectRecord>, x: ObjectRecord, b: seq<ObjectRecord>)
    ensures multiset(a + b) == multiset(a + [x] + b) - multiset{x}
  {
  }

  /** What a collection should report. */
  function Expected(metas: seq<MetaRecord>, objs: seq<ObjectRecord>, bsize: nat): Stats {
    Sum(objs, o => ClassOf(metas, o, bsize))
  }

  lemma {:induction false} SumIf(objs: seq<ObjectRecord>, f: ObjectRecord -> Class, g: ObjectRecord -> Class)
    requires forall o | o in objs :: f(o) == g(o)
    ensures Sum(objs, f) == Sum(objs, g)
  {
    if objs != [] {
      SumIf(objs[..|objs| - 1], f, g);
    }
  }

  lemma {:induction false} UsedSizeIs(metas: seq<MetaRecord>, m: MetaRecord)
    requires WellFormed(metas) && m in metas && m.state == USED
    ensures Has(metas, m.id, USED) && UsedSize(metas, m.id) == m.size
  {
    UsedSizeIn(metas, m.id);
  }

  lemma {:induction false} UsedSizeIn(metas: seq<MetaRecord>, id: nat)
    requires Has(metas, id, USED)
    ensures exists m :: m in metas && m.id == id && m.state == USED && m.size == UsedSize(metas, id)
  {
    var n := |metas| - 1;
    var last := metas[n];
    if last.id == id && last.state == USED {
      assert last in metas;
    } else {
      UsedSizeIn(metas[..n], id);
      var m :| m in metas[..n] && m.id == id && m.state == USED && m.size == UsedSize(metas[..n], id);
      assert m in metas;
    }
  }

  /** Nor on the order of the slices. */
  lemma SameClass(a: seq<MetaRecord>, b: seq<MetaRecord>, o: ObjectRecord, bsize: nat)
    requires WellFormed(a) && forall m :: m in a <==> m in b
    ensures ClassOf(a, o, bsize) == ClassOf(b, o, bsize)
  {
    if Has(a, o.id, USED) {
      var m :| m in a && m.id == o.id && m.state == USED;
      assert m in b;
      UsedSizeIs(a, m);
      UsedSizeIs(b, m);
    } else {
      assert !Has(b, o.id, USED);
    }
  }

  // ---------------------------------------------------------------- the lookup

  function Size(m: map<nat, nat>, id: nat): nat {
    if id in m then m[id] else 0
  }

  /** The slice maps of gcInMemory. */
  datatype Maps = Maps(vkeys: map<nat, nat>, pkeys: map<nat, nat>, ckeys: map<nat, nat>)

  /** The maps hold these records, the last of each slice and state. */
  ghost predicate Holds(k: Maps, metas: seq<MetaRecord>) {
    && (forall id :: id in k.vkeys <==> Has(metas, id, USED))
    && (forall id :: id in k.pkeys <==> Has(metas, id, PENDING))
    && (forall id :: id in k.ckeys <==> Has(metas, id, TRASH))
    && (forall id | id in k.vkeys :: k.vkeys[id] == UsedSize(metas, id) > 0)
    && (forall id | id in k.pkeys :: k.pkeys[id] > 0) && (forall id | id in k.ckeys :: k.ckeys[id] > 0)
  }

  function Put(k: Maps, m: MetaRecord): Maps {
    if m.state == PENDING then k.(pkeys := k.pkeys[m.id := m.size])
    else if m.state == TRASH then k.(ckeys := k.ckeys[m.id := m.size])
    else k.(vkeys := k.vkeys[m.id := m.size])
  }

  lemma HasMore(metas: seq<MetaRecord>, m: MetaRecord, id: nat, state: nat)
    ensures Has(metas + [m], id, state) <==> Has(metas, id, state) || (m.id == id && m.state == state)
  {
    if m.id == id && m.state == state { assert m in metas + [m]; }
    if Has(metas, id, state) {
      var x :| x in metas && x.id == id && x.state == state;
      assert x in metas + [m];
    }
  }

  lemma PutHolds(k: Maps, metas: seq<MetaRecord>, m: MetaRecord)
    requires Holds(k, metas) && m.size > 0 && m.state <= TRASH
    ensures Holds(Put(k, m), metas + [m])
  {
    forall id: nat, state: nat ensures Has(metas + [m], id, state) <==> Has(metas, id, state) || (m.id == id && m.state == state) {
      HasMore(metas, m, id, state);
    }
    assert (metas + [m])[..|metas|] == metas;
  }

  /** The classification of gcInMemory. */
  method Lookup(k: Maps, o: ObjectRecord, bsize: nat, ghost metas: seq<MetaRecord>) returns (c: Class)
    requires Holds(k, metas)
    ensures c == ClassOf(metas, o, bsize)
  {
    var size := Size(k.vkeys, o.id);
    var pobj, cobj := false, false;
    if size == 0 {
      size, pobj := Size(k.pkeys, o.id), o.id in k.pkeys;
    }
    if size == 0 {
      size, cobj := Size(k.ckeys, o.id), o.id in k.ckeys;
    }
    if size == 0 {
      return Leaked;
    }
    if cobj {
      return Trash;
    } else if pobj {
      return Pending;
    } else if IsLeakedBlock(o.index, o.blockSize, size, bsize) {
      return Leaked;
    } else {
      return Valid;
    }
  }

  method InMemory(metas: seq<MetaRecord>, objs: seq<ObjectRecord>, bsize: nat) returns (stats: Stats)
    requires WellFormed(metas)
    ensures stats == Expected(metas, objs, bsize)
  {
    var k := Maps(map[], map[], map[]);
    for i := 0 to |metas|
      invariant Holds(k, metas[..i])
    {
      assert metas[i] in metas;
      PutHolds(k, metas[..i], metas[i]);
      k := Put(k, metas[i]);
      assert metas[..i] + [metas[i]] == metas[..i + 1];
    }
    assert metas[..|metas|] == metas;
    ghost var f := o => ClassOf(metas, o, bsize);
    stats := NoStats();
    for j := 0 to |objs|
      invariant stats == Sum(objs[..j], f)
    {
      var c := Lookup(k, objs[j], bsize, metas);
      SumMore(objs[..j], objs[j], f);
      stats := Tally(stats, objs[j], c);
      assert objs[..j] + [objs[j]] == objs[..j + 1];
    }
    assert objs[..|objs|] == objs;
  }

  // ---------------------------------------------------------------- the merge

  /** compareGcMetaRecord and compareGcObjectRecord, as far as the merge depends on them. */
  predicate MetaOrder(a: MetaRecord, b: MetaRecord) {
    a.id < b.id || (a.id == b.id && a.state <= b.state)
  }

  predicate SortedMetas(metas: seq<MetaRecord>) {
    forall i, j {:trigger metas[i], metas[j]} | 0 <= i < j < |metas| :: MetaOrder(metas[i], metas[j])
  }

  predicate SortedObjects(objs: seq<ObjectRecord>) {
    forall i, j {:trigger objs[i], objs[j]} | 0 <= i < j < |objs| :: objs[i].id <= objs[j].id
  }

  function ByRecord(m: MetaRecord, o: ObjectRecord, bsize: nat): Class {
    if m.state == TRASH then Trash
    else if m.state == PENDING then Pending
    else if IsLeakedBlock(o.index, o.blockSize, m.size, bsize) then Leaked
    else Valid
  }

  /** The first record of a slice decides, because the states are in order of priority. */
  lemma FirstDecides(metas: seq<MetaRecord>, i: nat, o: ObjectRecord, bsize: nat)
    requires WellFormed(metas) && SortedMetas(metas) && i <= |metas|
    requires (forall k | 0 <= k < i :: metas[k].id < o.id) && (i < |metas| ==> metas[i].id >= o.id)
    ensures i == |metas| || metas[i].id > o.id ==> ClassOf(metas, o, bsize) == Leaked
    ensures i < |metas| && metas[i].id == o.id ==> ClassOf(metas, o, bsize) == ByRecord(metas[i], o, bsize)
  {
    forall state: nat ensures Has(metas, o.id, state) ==> i < |metas| && metas[i].id == o.id && metas[i].state <= state {
      if Has(metas, o.id, state) {
        var m :| m in metas && m.id == o.id && m.state == state;
        var k :| 0 <= k < |metas| && metas[k] == m;
      }
    }
    if i < |metas| && metas[i].id == o.id {
      assert metas[i] in metas;
      assert Has(metas, o.id, metas[i].state);
      if metas[i].state == USED { UsedSizeIs(metas, metas[i]); }
    }
  }

  /** Drop the records of slices before `id`. */
  method SkipTo(metas: seq<MetaRecord>, start: nat, id: nat) returns (i: nat)
    requires start <= |metas| && forall k | 0 <= k < start :: metas[k].id < id
    ensures i <= |metas| && (forall k | 0 <= k < i :: metas[k].id < id) && (i < |metas| ==> metas[i].id >= id)
  {
    i := start;
    while i < |metas| && metas[i].id < id
      invariant i <= |metas| && forall k | 0 <= k < i :: metas[k].id < id
    {
      i := i + 1;
    }
  }

  method Merge(metas: seq<MetaRecord>, objs: seq<ObjectRecord>, bsize: nat) returns (stats: Stats)
    requires WellFormed(metas) && SortedMetas(metas) && SortedObjects(objs)
    ensures stats == Expected(metas, objs, bsize)
  {
    ghost var f := o => ClassOf(metas, o, bsize);
    stats := NoStats();
    var i: nat := 0;
    for j := 0 to |objs|
      invariant stats == Sum(objs[..j], f)
      invariant i <= |metas| && (j < |objs| ==> forall k | 0 <= k < i :: metas[k].id < objs[j].id)
    {
      var o := objs[j];
      i := SkipTo(metas, i, o.id);
      FirstDecides(metas, i, o, bsize);
      var c := if i == |metas| || metas[i].id > o.id then Leaked else ByRecord(metas[i], o, bsize);
      SumMore(objs[..j], o, f);
      stats := Tally(stats, o, c);
      assert objs[..j] + [o] == objs[..j + 1];
    }
    assert objs[..|objs|] == objs;
  }

  /** Whatever order the listings come in and the sorters leave ties in, both find the same. */
  lemma SameResult(metas: seq<MetaRecord>, objs: seq<ObjectRecord>, metas': seq<MetaRecord>, objs': seq<ObjectRecord>, bsize: nat)
    requires WellFormed(metas) && multiset(metas) == multiset(metas') && multiset(objs) == multiset(objs')
    ensures WellFormed(metas') && Expected(metas, objs, bsize) == Expected(metas', objs', bsize)
  {
    forall m ensures m in metas <==> m in metas' {
      assert m in metas <==> m in multiset(metas);
      assert m in metas' <==> m in multiset(metas');
    }
    var f, g := o => ClassOf(metas, o, bsize), o => ClassOf(metas', o, bsize);
    forall o ensures f(o) == g(o) {
      SameClass(metas, metas', o, bsize);
    }
    AnyOrder(objs, objs', f);
    SumIf(objs', f, g);
  }

  // ---------------------------------------------------------------- records on disk

  function MetaToBytes(r: MetaRecord): seq<byte>
    requires r.id < 0x1_0000_0000_0000_0000 && r.size < 0x1_0000_0000 && r.state < 0x100
  {
    Put64(r.id) + Put32(r.size as uint32) + [r.state as byte]
  }

  function MetaFromBytes(data: seq<byte>): Option<MetaRecord> {
    if |data| != 13 then None
    else Some(MetaRecord(Get64(data[..8]), Get32(data[8..12]) as nat, data[12] as nat))
  }

  lemma MetaRoundTrip(r: MetaRecord)
    requires r.id < 0x1_0000_0000_0000_0000 && r.size < 0x1_0000_0000 && r.state < 0x100
    ensures MetaFromBytes(MetaToBytes(r)) == Some(r)
  {
    var b := MetaToBytes(r);
    assert b[..8] == Put64(r.id) && b[8..12] == Put32(r.size as uint32);
    Get64Put64(r.id);
    Get32Put32(r.size as uint32);
  }

  /** Go conversions between int64 and uint64. */
  function Uint64(n: int): nat {
    n % 0x1_0000_0000_0000_0000
  }

  function Int64(n: nat): int {
    if n < 0x8000_0000_0000_0000 then n else n - 0x1_0000_0000_0000_0000
  }

  function ObjectToBytes(r: ObjectRecord): seq<byte>
    requires r.id < 0x1_0000_0000_0000_0000
  {
    Put64(r.id) + Put32(Uint32(r.index)) + Put32(Uint32(r.blockSize)) + Put64(Uint64(r.objectSize)) + r.key
  }

  function ObjectFromBytes(data: seq<byte>): Option<ObjectRecord> {
    if |data| < 24 then None
    else Some(ObjectRecord(Get64(data[..8]), Get32(data[8..12]) as int, Get32(data[12..16]) as int, Int64(Get64(data[16..24])), data[24..]))
  }

  lemma Parts(a: seq<byte>, b: seq<byte>, c: seq<byte>, d: seq<byte>, e: seq<byte>)
    requires |a| == |d| == 8 && |b| == |c| == 4
    ensures var s := a + b + c + d + e; |s| >= 24 && s[..8] == a && s[8..12] == b && s[12..16] == c && s[16..24] == d && s[24..] == e
  {
  }

  lemma SignedRoundTrip(n: int)
    requires -0x8000_0000_0000_0000 <= n < 0x8000_0000_0000_0000
    ensures Int64(Uint64(n)) == n
  {
  }

  /** What the sorter hands back: two of the numbers modulo 2^32. */
  lemma Decoded(r: ObjectRecord)
    requires r.id < 0x1_0000_0000_0000_0000 && -0x8000_0000_0000_0000 <= r.objectSize < 0x8000_0000_0000_0000
    ensures ObjectFromBytes(ObjectToBytes(r)) == Some(r.(index := Uint32(r.index) as int, blockSize := Uint32(r.blockSize) as int))
  {
    Parts(Put64(r.id), Put32(Uint32(r.index)), Put32(Uint32(r.blockSize)), Put64(Uint64(r.objectSize)), r.key);
    Get64Put64(r.id);
    Get32Put32(Uint32(r.index));
    Get32Put32(Uint32(r.blockSize));
    Get64Put64(Uint64(r.objectSize));
    SignedRoundTrip(r.objectSize);
  }

  /** An object record survives the sorter exactly if its numbers fit 32 bits. */
  lemma ObjectRoundTrip(r: ObjectRecord)
    requires r.id < 0x1_0000_0000_0000_0000 && -0x8000_0000_0000_0000 <= r.objectSize < 0x8000_0000_0000_0000
    ensures ObjectFromBytes(ObjectToBytes(r)) == Some(r) <==> 0 <= r.index < 0x1_0000_0000 && 0 <= r.blockSize < 0x1_0000_0000
  {
    Decoded(r);
    Modulo(r, ObjectFromBytes(ObjectToBytes(r)));
  }

  lemma Modulo(r: ObjectRecord, d: Option<ObjectRecord>)
    requires d == Some(r.(index := Uint32(r.index) as int, blockSize := Uint32(r.blockSize) as int))
    ensures d == Some(r) <==> 0 <= r.index < 0x1_0000_0000 && 0 <= r.blockSize < 0x1_0000_0000
  {
  }

  // ---------------------------------------------------------------- both ways

  /** Numbers of the widths that the meta engine and the object listing deliver. */
  predicate MetaFits(r: MetaRecord) {
    r.id < 0x1_0000_0000_0000_0000 && r.size < 0x1_0000_0000 && r.state < 0x100
  }

  predicate ObjectFits(r: ObjectRecord) {
    r.id < 0x1_0000_0000_0000_0000 && -0x8000_0000_0000_0000 <= r.objectSize < 0x8000_0000_0000_0000
  }

  /** The part that the names of objects need not meet. */
  predicate Fits32(r: ObjectRecord) {
    0 <= r.index < 0x1_0000_0000 && 0 <= r.blockSize < 0x1_0000_0000
  }

  /** The sorter hands back `ms` for the slice records `metas`. */
  predicate MetasBack(metas: seq<MetaRecord>, ms: seq<MetaRecord>) {
    |ms| == |metas| && forall i | 0 <= i < |ms| :: MetaFits(metas[i]) && MetaFromBytes(MetaToBytes(metas[i])) == Some(ms[i])
  }

  predicate ObjectsBack(objs: seq<ObjectRecord>, os: seq<ObjectRecord>) {
    |os| == |objs| && forall i | 0 <= i < |os| :: ObjectFits(objs[i]) && ObjectFromBytes(ObjectToBytes(objs[i])) == Some(os[i])
  }

  lemma MetasSurvive(metas: seq<MetaRecord>, ms: seq<MetaRecord>)
    requires MetasBack(metas, ms)
    ensures ms == metas
  {
    forall i | 0 <= i < |ms| ensures ms[i] == metas[i] { MetaRoundTrip(metas[i]); }
  }

  /** The object records survive the sorter if and only if all of them fit. */
  lemma ObjectsSurvive(objs: seq<ObjectRecord>, os: seq<ObjectRecord>)
    requires ObjectsBack(objs, os)
    ensures os == objs <==> forall i | 0 <= i < |objs| :: Fits32(objs[i])
  {
    forall i | 0 <= i < |os| ensures os[i] == objs[i] <==> Fits32(objs[i]) { ObjectRoundTrip(objs[i]); }
  }

  /** The two ways to collect, on the same listings; the merge works on what the sorter hands back. */
  method BothWays(metas: seq<MetaRecord>, objs: seq<ObjectRecord>, ms: seq<MetaRecord>, os: seq<ObjectRecord>, bsize: nat,
                  ghost metas': seq<MetaRecord>, ghost objs': seq<ObjectRecord>)
    returns (looked: Stats, merged: Stats)
    requires WellFormed(metas) && multiset(metas) == multiset(metas') && multiset(objs) == multiset(objs')
    requires SortedMetas(metas') && SortedObjects(objs') && MetasBack(metas', ms) && ObjectsBack(objs', os)
    requires forall i | 0 <= i < |objs'| :: Fits32(objs'[i])
    ensures looked == merged
  {
    SameResult(metas, objs, metas', objs', bsize);
    MetasSurvive(metas', ms);
    ObjectsSurvive(objs', os);
    looked := InMemory(metas, objs, bsize);
    merged := Merge(ms, os, bsize);
  }

  /** Otherwise the two can differ: this object is leaked for the lookup and valid for the merge. */
  lemma SorterHidesLeak(key: seq<byte>)
    ensures var b := 0x40_0000; var metas := [MetaRecord(1, b, USED)]; var o := ObjectRecord(1, 0x1_0000_0000, b, b, key);
            && ClassOf(metas, o, b) == Leaked
            && ObjectsBack([o], [o.(index := 0)]) && ClassOf(metas, o.(index := 0), b) == Valid
  {
    var b := 0x40_0000;
    var metas, o := [MetaRecord(1, b, USED)], ObjectRecord(1, 0x1_0000_0000, b, b, key);
    Decoded(o);
    assert metas[0] in metas && Has(metas, 1, USED);
    assert UsedSize(metas, 1) == b;
  }
}
