/** The LRU key index: a map and a heap that share their items. */
module LruIndex {
  import opened Common
  import opened LruHeap

  /** cacheItem */
  datatype CacheItem = CacheItem(size: int, atime: nat)

  function EntryOf(k: Key, item: CacheItem): Entry {
    Entry(item.atime, item.size, k.id)
  }

  /** What is in the heap is in the map. */
  ghost predicate Fit(keys: map<Key, LruItem>, members: set<HeapItem>) {
    forall x {:trigger x in members} | x in members :: x.key in keys && keys[x.key] == x.item
  }

  /** Cached blocks may be evicted, staging blocks may not. */
  predicate Evictable(c: map<Key, CacheItem>, k: Key) {
    k in c && c[k].size > 0
  }

  /** No evictable block comes before this one. */
  ghost predicate Foremost(c: map<Key, CacheItem>, key: Key) {
    key in c && forall k {:trigger Evictable(c, k)} | Evictable(c, k) :: !Less(EntryOf(k, c[k]), EntryOf(key, c[key]))
  }

  ghost predicate Least(c: map<Key, CacheItem>, key: Key) {
    Evictable(c, key) && Foremost(c, key)
  }

  /** What coming first means: used least recently, then largest, then of the lowest id. */
  lemma LeastMeans(c: map<Key, CacheItem>, key: Key, k: Key)
    requires Least(c, key) && Evictable(c, k)
    ensures c[key].atime <= c[k].atime
    ensures c[key].atime == c[k].atime ==> c[key].size >= c[k].size
    ensures c[key].atime == c[k].atime && c[key].size == c[k].size ==> key.id <= k.id
  {
    assert Evictable(c, k);
  }

  lemma {:induction false} DistinctCount(s: seq<Key>)
    requires forall i, j | 0 <= i < j < |s| :: s[i] != s[j]
    ensures |set k | k in s| == |s|
  {
    if s != [] {
      var n := |s| - 1;
      DistinctCount(s[..n]);
      assert (set k | k in s) == (set k | k in s[..n]) + {s[n]};
    }
  }

  class LruEviction {
    var keys: map<Key, LruItem>
    var lruHeap: AtimeHeap
    ghost var contents: map<Key, CacheItem>      // the index as a value

    constructor ()
      ensures Valid() && keys == map[] && fresh(lruHeap) && contents == map[] && Foot() == {lruHeap}
    {
      keys, contents := map[], map[];
      lruHeap := new AtimeHeap();
    }

    constructor Snapshot(keys: map<Key, LruItem>, lruHeap: AtimeHeap, ghost contents: map<Key, CacheItem>)
      ensures this.keys == keys && this.lruHeap == lruHeap && this.contents == contents
    {
      this.keys, this.lruHeap, this.contents := keys, lruHeap, contents;
    }

    ghost function Foot(): set<object>
      reads this, lruHeap
    {
      {lruHeap} + keys.Values + lruHeap.Items()
    }

    ghost predicate InHeap(k: Key)
      requires k in keys
      reads this, lruHeap
    {
      HeapItem(keys[k], k) in lruHeap.Members()
    }

    ghost predicate Alone(k: Key)
      requires k in keys
      reads this, Foot()
    {
      keys[k].key == k && (!InHeap(k) ==> keys[k].pos == NOT_IN_LRU)
    }

    /** Map and heap fit together, whatever the sizes and access times are. */
    ghost predicate Shape()
      reads this, Foot()
    {
      && lruHeap.Linked() && Fit(keys, lruHeap.Members()) && contents.Keys == keys.Keys
      && forall k {:trigger Alone(k)} | k in keys :: Alone(k)
    }

    ghost predicate Sized(k: Key)
      requires k in keys
      reads this, Foot()
    {
      keys[k].size > 0 ==> InHeap(k)
    }

    ghost predicate Tied(k: Key)
      requires k in keys
      reads this, Foot()
    {
      k in contents && contents[k] == CacheItem(keys[k].size, keys[k].atime)
    }

    ghost predicate Right(k: Key)
      requires k in keys
      reads this, Foot()
    {
      Sized(k) && Tied(k)
    }

    /** The staging blocks in the heap: cached blocks that were added again as staging. */
    ghost function Stuck(): set<Key>
      reads this, Foot()
    {
      set k | k in keys && InHeap(k) && keys[k].size <= 0
    }

    /** All blocks of positive size are in the heap, and it is in order. */
    ghost predicate Valid()
      reads this, Foot()
    {
      Shape() && lruHeap.Valid() && forall k {:trigger Right(k)} | k in keys :: Right(k)
    }

    /** Valid, but for the size and access time of the item of one key. */
    ghost predicate Loose(key: Key)
      reads this, Foot()
    {
      && Shape() && (forall k {:trigger Right(k)} | k in keys && k != key :: Right(k))
      && if key in keys && InHeap(key)
         then 0 <= keys[key].pos < |lruHeap.h| && Hole(lruHeap.Entries(), |lruHeap.h|, keys[key].pos)
         else lruHeap.Valid()
    }

    lemma FootIsValues()
      requires Shape()
      ensures Foot() == {lruHeap} + keys.Values
    {
      forall o: object | o in lruHeap.Items() ensures o in keys.Values {
        var x :| x in lruHeap.h && x.item == o;
        assert x in lruHeap.Members();
        assert keys[x.key] == o;
      }
    }

    lemma WhereInHeap(k: Key)
      requires Shape() && k in keys && InHeap(k)
      ensures 0 <= keys[k].pos < |lruHeap.h| && lruHeap.h[keys[k].pos] == HeapItem(keys[k], k)
    {
      var i :| 0 <= i < |lruHeap.h| && lruHeap.h[i] == HeapItem(keys[k], k);
    }

    lemma NotInHeap(k: Key)
      requires Shape() && k in keys
      ensures InHeap(k) <==> keys[k] in lruHeap.Items()
      ensures InHeap(k) <==> keys[k].pos != NOT_IN_LRU
    {
      assert Alone(k);
      if InHeap(k) { WhereInHeap(k); }
    }

    lemma OwnItem(key: Key)
      requires Shape() && key in keys
      ensures forall k | k in keys && k != key :: keys[k] != keys[key]
    {
      forall k | k in keys && k != key ensures keys[k] != keys[key] {
        assert Alone(k) && Alone(key);
      }
    }

    lemma ValidIsLoose(key: Key)
      requires Valid()
      ensures Loose(key)
    {
      if key in keys && InHeap(key) {
        WhereInHeap(key);
        Replaced(lruHeap.Entries(), lruHeap.Entries(), |lruHeap.h|, keys[key].pos);
      }
    }

    /** Only what is in the heap and is added as a staging block gets stuck there. */
    method Add(key: Key, size: int, atime: nat)
      requires Loose(key)
      modifies this`keys, this`contents, Foot()
      ensures Valid() && contents == old(contents)[key := CacheItem(size, atime)]
      ensures Stuck() == old(Stuck()) - {key} + if size <= 0 && key in old(keys) && old(InHeap(key)) then {key} else {}
      ensures fresh(Foot() - old(Foot()))
    {
      if key !in keys {
        AddNew(key, size, atime);
      } else {
        AddAgain(key, size, atime);
      }
      FootIsValues();
    }

    method AddNew(key: Key, size: int, atime: nat)
      requires Valid() && key !in keys
      modifies this`keys, this`contents, lruHeap, lruHeap.Items()`pos
      ensures Valid() && key in keys && fresh(keys[key]) && keys == old(keys)[key := keys[key]]
      ensures contents == old(contents)[key := CacheItem(size, atime)] && Stuck() == old(Stuck())
    {
      var it := new LruItem(size, atime, key);
      keys := keys[key := it];
      contents := contents[key := CacheItem(size, atime)];
      forall k | k in keys ensures Alone(k) && (k == key || Right(k)) {
        assert k == key || old(Alone(k) && Right(k));
      }
      Enter(key, it);
    }

    /** Put an item in the heap if its size is positive. */
    method Enter(key: Key, it: LruItem)
      requires Shape() && lruHeap.Valid() && key in keys && keys[key] == it && !InHeap(key) && Tied(key)
      requires forall k {:trigger Right(k)} | k in keys && k != key :: Right(k)
      modifies lruHeap, it`pos, lruHeap.Items()`pos
      ensures Valid() && Stuck() == old(Stuck())
    {
      NotInHeap(key);
      OwnItem(key);
      if it.size > 0 {
        lruHeap.Push(HeapItem(it, key));
      }
      assert Alone(key) by { assert old(Alone(key)); }
      Others(key);
    }

    /** Pushing one item leaves the other keys as they were. */
    twostate lemma Others(key: Key)
      requires old(Shape()) && key in keys && keys == old(keys) && lruHeap == old(lruHeap) && contents == old(contents)
      requires forall k | k in keys && k != key :: old(Right(k))
      requires lruHeap.Valid() && Alone(key) && Right(key) && !old(InHeap(key)) && (InHeap(key) ==> keys[key].size > 0)
      requires lruHeap.Members() == old(lruHeap.Members()) + if InHeap(key) then {HeapItem(keys[key], key)} else {}
      requires forall k | k in keys :: keys[k].size == old(keys[k].size) && keys[k].atime == old(keys[k].atime)
      requires forall k | k in keys && k != key && keys[k] !in old(lruHeap.Items()) :: keys[k].pos == old(keys[k].pos)
      ensures Valid() && Stuck() == old(Stuck())
    {
      forall k | k in keys ensures Alone(k) && Right(k) {
        if k != key {
          assert old(Alone(k) && Right(k));
          assert old(InHeap(k)) <==> keys[k] in old(lruHeap.Items());
        }
      }
    }

    method AddAgain(key: Key, size: int, atime: nat)
      requires Loose(key) && key in keys
      modifies this`contents, keys[key], lruHeap, lruHeap.Items()`pos
      ensures Valid() && contents == old(contents)[key := CacheItem(size, atime)]
      ensures Stuck() == old(Stuck()) - {key} + if size <= 0 && old(InHeap(key)) then {key} else {}
    {
      var it := keys[key];
      NotInHeap(key);
      OwnItem(key);
      it.size, it.atime := size, atime;
      contents := contents[key := CacheItem(size, atime)];
      Changed(key);
      assert Stuck() == old(Stuck()) - {key} + if size <= 0 && old(InHeap(key)) then {key} else {};
      if it.pos == NOT_IN_LRU {
        Enter(key, it);
      } else {
        Refit(key);
      }
    }

    /** heap.Fix of the item of a key. */
    method Refit(key: Key)
      requires Loose(key) && key in keys && InHeap(key) && Tied(key)
      modifies lruHeap, lruHeap.Items()`pos
      ensures Valid() && Stuck() == old(Stuck()) && lruHeap.Members() == old(lruHeap.Members())
    {
      lruHeap.Sift(keys[key].pos, |lruHeap.h|);
      forall k | k in keys ensures Alone(k) && Right(k) {
        assert old(Alone(k)) && (k == key || old(Right(k)));
        assert old(InHeap(k)) <==> keys[k] in old(lruHeap.Items());
      }
    }

    /** Loose for a key means that its size and access time do not matter. */
    twostate lemma Changed(key: Key)
      requires old(Loose(key)) && key in keys && keys == old(keys) && lruHeap == old(lruHeap) && lruHeap.h == old(lruHeap.h)
      requires contents.Keys == old(contents).Keys && forall k | k in keys && k != key :: contents[k] == old(contents)[k]
      requires forall k | k in keys && k != key :: keys[k].size == old(keys[k].size) && keys[k].atime == old(keys[k].atime)
      requires forall k | k in keys :: keys[k].pos == old(keys[k].pos)
      ensures Loose(key)
    {
      forall k | k in keys ensures Alone(k) && (k == key || Right(k)) {
        assert old(Alone(k)) && (k == key || old(Right(k)));
      }
      forall i | 0 <= i < |lruHeap.h|
        ensures lruHeap.h[i].item.pos == i
        ensures lruHeap.Entries()[i] == old(lruHeap.Entries()[i]) || (InHeap(key) && i == keys[key].pos)
      {
        assert lruHeap.h[i] in lruHeap.Members();
        assert old(lruHeap.h[i].item.pos == i);
      }
      if InHeap(key) {
        HoleStays(old(lruHeap.Entries()), lruHeap.Entries(), |lruHeap.h|, keys[key].pos);
      } else {
        assert lruHeap.Entries() == old(lruHeap.Entries());
      }
    }

    /** The shared item of a key, which the caller may change before adding the key again. */
    method Get(key: Key, now: nat) returns (it: LruItem?)
      requires Valid()
      modifies this`contents, Foot()
      ensures Valid() && (it == null <==> key !in keys) && (it != null ==> it == keys[key])
      ensures contents == if key in keys then old(contents)[key := CacheItem(old(contents)[key].size, now)] else old(contents)
      ensures Foot() <= old(Foot()) && keys == old(keys) && Stuck() == old(Stuck())
      ensures forall k | k in keys :: InHeap(k) == old(InHeap(k))
    {
      if key !in keys {
        return null;
      }
      assert Right(key);
      it := keys[key];
      Touch(key, it, now);
      FootIsValues();
    }

    method Touch(key: Key, it: LruItem, now: nat)
      requires Valid() && key in keys && keys[key] == it
      modifies this`contents, it`atime, lruHeap, lruHeap.Items()`pos
      ensures Valid() && contents == old(contents)[key := CacheItem(it.size, now)]
      ensures Stuck() == old(Stuck()) && lruHeap.Members() == old(lruHeap.Members())
    {
      ValidIsLoose(key);
      OwnItem(key);
      it.atime := now;
      contents := contents[key := CacheItem(it.size, now)];
      Changed(key);
      NotInHeap(key);
      assert Right(key) by { assert old(Right(key)); }
      if it.pos != NOT_IN_LRU {
        Refit(key);
      }
    }

    /** A staging block is removed only on request. */
    method Remove(key: Key, staging: bool) returns (it: LruItem?)
      requires Valid()
      modifies this`keys, this`contents, Foot()
      ensures Valid() && (it == null <==> key !in old(contents) || (old(contents)[key].size < 0 && !staging))
      ensures it == null ==> contents == old(contents)
      ensures it != null ==> contents == old(contents) - {key} && CacheItem(it.size, it.atime) == old(contents)[key]
      ensures Foot() <= old(Foot()) && Stuck() == if it != null then old(Stuck()) - {key} else old(Stuck())
    {
      if key !in keys {
        return null;
      }
      assert Right(key);
      it := keys[key];
      if it.size < 0 && !staging {
        return null;
      }
      Unlink(key, it);
      FootIsValues();
    }

    method Unlink(key: Key, it: LruItem)
      requires Valid() && key in keys && keys[key] == it
      modifies this`keys, this`contents, lruHeap, lruHeap.Items()`pos
      ensures Valid() && keys == old(keys) - {key} && contents == old(contents) - {key} && Stuck() == old(Stuck()) - {key}
    {
      NotInHeap(key);
      keys := keys - {key};
      contents := contents - {key};
      if it.pos != NOT_IN_LRU {
        var _ := lruHeap.RemoveAt(it.pos);
      }
      Gone(key);
    }

    /** Taking one item out leaves the other keys as they were. */
    twostate lemma Gone(key: Key)
      requires old(Valid()) && key in old(keys) && keys == old(keys) - {key} && contents == old(contents) - {key}
      requires lruHeap == old(lruHeap) && lruHeap.Valid()
      requires lruHeap.Members() == old(lruHeap.Members()) - {HeapItem(old(keys[key]), key)}
      requires forall k | k in keys :: keys[k].size == old(keys[k].size) && keys[k].atime == old(keys[k].atime)
      requires forall k | k in keys && keys[k] !in old(lruHeap.Items()) :: keys[k].pos == old(keys[k].pos)
      ensures Valid() && Stuck() == old(Stuck()) - {key}
    {
      forall k | k in keys ensures Alone(k) && Right(k) {
        assert old(Alone(k) && Right(k));
        assert old(InHeap(k)) <==> keys[k] in old(lruHeap.Items());
      }
    }

    /** One round of evictionIter: a least recently used block.  A staging block on the way is
        skipped, which takes it out of the heap but not out of the index. */
    method Evict() returns (found: bool, key: Key, item: CacheItem)
      requires Valid()
      modifies this`keys, this`contents, Foot()
      ensures Valid() && Foot() <= old(Foot()) && Stuck() <= old(Stuck())
      ensures found ==> Foremost(old(contents), key) && item == old(contents)[key] && item.size >= 0
      ensures !found ==> Stuck() == {} && forall k :: !Evictable(old(contents), k)
      ensures contents == if found then old(contents) - {key} else old(contents)
    {
      found, key, item := false, Key(0, 0, 0), CacheItem(0, 0);
      while lruHeap.h != []
        invariant Valid() && Foot() <= old(Foot()) && Stuck() <= old(Stuck()) && contents == old(contents)
        decreases |lruHeap.h|
      {
        RootIsNext();
        if lruHeap.h[0].item.size < 0 {
          SkipRoot();
          continue;
        }
        var x := PopRoot();
        found, key, item := true, x.key, CacheItem(x.item.size, x.item.atime);
        FootIsValues();
        return;
      }
      forall k ensures !Evictable(contents, k) {
        if k in keys { assert Right(k); }
      }
    }

    lemma RootIsNext()
      requires Valid() && lruHeap.h != []
      ensures Foremost(contents, lruHeap.h[0].key)
      ensures contents[lruHeap.h[0].key] == CacheItem(lruHeap.h[0].item.size, lruHeap.h[0].item.atime)
    {
      var key := lruHeap.h[0].key;
      assert lruHeap.h[0] in lruHeap.Members();
      assert Right(key);
      forall k | Evictable(contents, k)
        ensures !Less(EntryOf(k, contents[k]), EntryOf(key, contents[key]))
      {
        assert Right(k);
        WhereInHeap(k);
        RootIsLeast(lruHeap.Entries(), |lruHeap.h|, keys[k].pos);
      }
    }

    method PopRoot() returns (x: HeapItem)
      requires Valid() && lruHeap.h != []
      modifies this`keys, this`contents, lruHeap, lruHeap.Items()`pos
      ensures Valid() && x == old(lruHeap.h[0]) && contents == old(contents) - {x.key} && Stuck() == old(Stuck()) - {x.key}
      ensures x.key in old(keys) && x.item == old(keys[x.key]) && keys == old(keys) - {x.key}
    {
      assert lruHeap.h[0] in lruHeap.Members();
      x := lruHeap.Pop();
      keys, contents := keys - {x.key}, contents - {x.key};
      Gone(x.key);
    }

    /** A staging block leaves the heap. */
    method SkipRoot()
      requires Valid() && lruHeap.h != [] && lruHeap.h[0].item.size < 0
      modifies lruHeap, lruHeap.Items()`pos
      ensures Valid() && |lruHeap.h| < old(|lruHeap.h|) && Foot() <= old(Foot())
      ensures Stuck() == old(Stuck()) - {old(lruHeap.h[0].key)}
    {
      assert lruHeap.h[0] in lruHeap.Members();
      FootIsValues();
      var x := lruHeap.Pop();
      Skipped(x.key);
      FootIsValues();
    }

    twostate lemma Skipped(key: Key)
      requires old(Valid()) && key in keys && keys == old(keys) && contents == old(contents)
      requires lruHeap == old(lruHeap) && lruHeap.Valid() && keys[key].pos == NOT_IN_LRU && keys[key].size < 0
      requires lruHeap.Members() == old(lruHeap.Members()) - {HeapItem(keys[key], key)}
      requires forall k | k in keys :: keys[k].size == old(keys[k].size) && keys[k].atime == old(keys[k].atime)
      requires forall k | k in keys && keys[k] !in old(lruHeap.Items()) :: keys[k].pos == old(keys[k].pos)
      ensures Valid() && Stuck() == old(Stuck()) - {key}
    {
      forall k | k in keys ensures Alone(k) && Right(k) {
        assert old(Alone(k) && Right(k));
        assert old(InHeap(k)) <==> keys[k] in old(lruHeap.Items());
      }
    }

    /** Start over; the snapshot takes what was there. */
    method Reset() returns (snap: LruEviction)
      requires Valid()
      modifies this
      ensures Valid() && contents == map[] && fresh(lruHeap)
      ensures fresh(snap) && snap.Valid() && snap.contents == old(contents)
      ensures Foot() == {lruHeap} && snap.Foot() == old(Foot()) && Stuck() == {}
    {
      snap := new LruEviction.Snapshot(keys, lruHeap, contents);
      keys, contents := map[], map[];
      lruHeap := new AtimeHeap();
      Untouched(snap);
    }

    /** The keys of positive size are as many as the heap has items. */
    lemma CountMatches()
      requires Valid() && Stuck() == {}
      ensures |Cached(keys.Keys)| == |lruHeap.h|
    {
      var s := seq(|lruHeap.h|, i requires 0 <= i < |lruHeap.h| reads this, lruHeap => lruHeap.h[i].key);
      forall i, j | 0 <= i < j < |s| ensures s[i] != s[j] {
        assert lruHeap.h[i] in lruHeap.Members() && lruHeap.h[j] in lruHeap.Members();
      }
      DistinctCount(s);
      forall k ensures k in s <==> k in keys && keys[k].size > 0 {
        if k in keys && keys[k].size > 0 {
          assert Right(k);
          WhereInHeap(k);
          assert s[keys[k].pos] == k;
        }
        if k in s {
          var i :| 0 <= i < |s| && s[i] == k;
          assert lruHeap.h[i] in lruHeap.Members();
          assert Right(k) && k !in Stuck();
        }
      }
      assert (set k | k in s) == Cached(keys.Keys);
    }

    /** Another index over the same objects is as good as this one was. */
    twostate lemma Untouched(new snap: LruEviction)
      requires old(Valid()) && snap.keys == old(keys) && snap.lruHeap == old(lruHeap) && snap.lruHeap.h == old(lruHeap.h)
      requires snap.contents == old(contents)
      requires forall k | k in old(keys) ::
        snap.keys[k].pos == old(keys[k].pos) && snap.keys[k].size == old(keys[k].size) && snap.keys[k].atime == old(keys[k].atime)
      ensures snap.Valid() && snap.Stuck() == old(Stuck())
    {
      forall k | k in snap.keys ensures snap.Alone(k) && snap.Right(k) {
        assert old(Alone(k) && Right(k));
      }
      forall i | 0 <= i < |snap.lruHeap.h| ensures snap.lruHeap.h[i].item.pos == i && snap.lruHeap.Entries()[i] == old(lruHeap.Entries()[i]) {
        assert old(lruHeap.h[i] in lruHeap.Members() && lruHeap.h[i].item.pos == i);
      }
      assert snap.lruHeap.Entries() == old(lruHeap.Entries());
    }

    ghost function Cached(ks: set<Key>): set<Key>
      requires ks <= keys.Keys
      reads this, keys.Values
    {
      set k | k in ks && keys[k].size > 0
    }

    lemma StagingIsOut(k: Key)
      requires Valid() && k in keys && keys[k].size <= 0
      ensures keys[k].pos == NOT_IN_LRU <==> k !in Stuck()
    {
      NotInHeap(k);
    }

    /** The first loop of verifyHeap: staging blocks are not in the heap. */
    method CountCached() returns (ok: bool, n: nat)
      ensures ok ==> n == |Cached(keys.Keys)| && forall k | k in keys && keys[k].size <= 0 :: keys[k].pos == NOT_IN_LRU
      ensures Valid() ==> (ok <==> Stuck() == {})
    {
      n := 0;
      var todo := keys.Keys;
      while todo != {}
        invariant todo <= keys.Keys && n == |Cached(keys.Keys - todo)|
        invariant forall k | k in keys && k !in todo && keys[k].size <= 0 :: keys[k].pos == NOT_IN_LRU
        decreases todo
      {
        var k :| k in todo;
        ghost var done := Cached(keys.Keys - todo);
        todo := todo - {k};
        if keys[k].size > 0 {
          assert Cached(keys.Keys - todo) == done + {k};
          n := n + 1;
        } else if keys[k].pos != NOT_IN_LRU {
          if Valid() { StagingIsOut(k); }
          return false, n;
        } else {
          assert Cached(keys.Keys - todo) == done;
        }
      }
      assert keys.Keys - todo == keys.Keys;
      if Valid() {
        forall k ensures k !in Stuck() {
          if k in keys && keys[k].size <= 0 { StagingIsOut(k); }
        }
      }
      ok := true;
    }

    /** The second loop: every item is where it says, and under its key. */
    method CheckItems() returns (ok: bool)
      ensures ok ==> lruHeap.Linked() && forall x | x in lruHeap.Members() ::
        x.key in keys && keys[x.key].size == x.item.size && keys[x.key].atime == x.item.atime
      ensures Valid() ==> ok
    {
      for i := 0 to |lruHeap.h|
        invariant forall j | 0 <= j < i :: var x := lruHeap.h[j];
          x.item.pos == j && x.key in keys && keys[x.key].size == x.item.size && keys[x.key].atime == x.item.atime
      {
        var x := lruHeap.h[i];
        assert x in lruHeap.Members();
        if x.item.pos != i {
          return false;
        }
        if x.key !in keys {
          return false;
        }
        if keys[x.key].size != x.item.size || keys[x.key].atime != x.item.atime {
          return false;
        }
      }
      ok := true;
    }

    /** No child was used before its parent. */
    ghost predicate ByAtime()
      reads this, lruHeap, lruHeap.Items()
    {
      forall c: nat {:trigger lruHeap.h[c]} | 0 < c < |lruHeap.h| :: lruHeap.h[Parent(c)].item.atime <= lruHeap.h[c].item.atime
    }

    lemma ValidByAtime()
      requires Valid()
      ensures ByAtime()
    {
      forall c: nat | 0 < c < |lruHeap.h| ensures lruHeap.h[Parent(c)].item.atime <= lruHeap.h[c].item.atime {
        assert Edge(lruHeap.Entries(), c);
      }
    }

    /** The last loop: heap order by access time. */
    method CheckOrder() returns (ok: bool)
      ensures ok <==> ByAtime()
    {
      var n := |lruHeap.h|;
      for i := 0 to n / 2
        invariant forall c: nat | 0 < c < n && Parent(c) < i :: lruHeap.h[Parent(c)].item.atime <= lruHeap.h[c].item.atime
      {
        var left, right := 2 * i + 1, 2 * i + 2;
        assert Parent(left) == i && Parent(right) == i;
        if left < n && lruHeap.h[i].item.atime > lruHeap.h[left].item.atime {
          return false;
        }
        if right < n && lruHeap.h[i].item.atime > lruHeap.h[right].item.atime {
          return false;
        }
      }
      ok := true;
    }

    /** Finds a valid index in order exactly if no staging block is stuck in the heap. */
    method VerifyHeap() returns (ok: bool)
      ensures old(Valid()) ==> (ok <==> old(Stuck()) == {})
      ensures ok ==> lruHeap.Linked() && ByAtime() && |Cached(keys.Keys)| == |lruHeap.h|
      ensures ok ==> forall k | k in keys && keys[k].size <= 0 :: keys[k].pos == NOT_IN_LRU
    {
      var cached;
      ok, cached := CountCached();
      if old(Valid()) { StillInOrder(ok); }
      if !ok || |lruHeap.h| != cached {
        return false;
      }
      ok := CheckItems();
      if old(Valid()) { StillInOrder(true); }
      if !ok {
        return;
      }
      ok := CheckOrder();
    }

    twostate lemma StillInOrder(clean: bool)
      requires old(Valid()) && (clean ==> Stuck() == {}) && keys == old(keys) && lruHeap == old(lruHeap) && lruHeap.h == old(lruHeap.h)
      requires contents == old(contents) && forall k | k in keys ::
        keys[k].pos == old(keys[k].pos) && keys[k].size == old(keys[k].size) && keys[k].atime == old(keys[k].atime)
      ensures Valid() && Stuck() == old(Stuck()) && ByAtime() && (clean ==> |Cached(keys.Keys)| == |lruHeap.h|)
    {
      Untouched(this);
      ValidByAtime();
      if clean { CountMatches(); }
    }
  }
}
