/** The disk cache: what it believes to be using, and what it evicts. */
module DiskCache {
  import opened Common
  import opened LruHeap
  import opened LruIndex

  /** What a cached block takes; a staging block is not counted. */
  function Cost(item: CacheItem): nat {
    if item.size > 0 then item.size + 4096 else 0
  }

  ghost function Total(c: map<Key, CacheItem>): nat
    decreases |c|
  {
    if c == map[] then 0 else
    var k :| k in c;
    assert |c - {k}| < |c| by { Smaller(c, k); }
    Cost(c[k]) + Total(c - {k})
  }

  lemma Smaller(c: map<Key, CacheItem>, k: Key)
    requires k in c
    ensures |c - {k}| == |c| - 1
  {
    assert (c - {k}).Keys == c.Keys - {k};
    assert |c.Keys| == |c| && |(c - {k}).Keys| == |c - {k}|;
  }

  /** The sum does not depend on the order. */
  lemma {:induction false} TotalWithout(c: map<Key, CacheItem>, k: Key)
    requires k in c
    ensures Total(c) == Cost(c[k]) + Total(c - {k})
    decreases |c|
  {
    var j :| j in c && Total(c) == Cost(c[j]) + Total(c - {j});
    if j != k {
      Smaller(c, j);
      Smaller(c, k);
      TotalWithout(c - {j}, k);
      TotalWithout(c - {k}, j);
      assert c - {j} - {k} == c - {k} - {j};
    }
  }

  lemma TotalWith(c: map<Key, CacheItem>, k: Key, item: CacheItem)
    ensures Total(c[k := item]) == Cost(item) + if k in c then Total(c) - Cost(c[k]) else Total(c)
  {
    TotalWithout(c[k := item], k);
    assert c[k := item] - {k} == c - {k};
    if k in c { TotalWithout(c, k); } else { assert c - {k} == c; }
  }

  predicate NoZero(c: map<Key, CacheItem>) {
    forall k | k in c :: c[k].size != 0
  }

  /** What is on the books after a block was taken off and entered again. */
  ghost predicate Books(c: map<Key, CacheItem>, used: int) {
    used == Total(c) && NoZero(c)
  }

  function Taken(c: map<Key, CacheItem>, k: Key): nat {
    if k in c then Cost(c[k]) else 0
  }

  lemma Entered(c: map<Key, CacheItem>, c': map<Key, CacheItem>, k: Key, item: CacheItem, used: int)
    requires Books(c, used) && c' == c[k := item] && item.size != 0
    ensures Books(c', used - Taken(c, k) + Cost(item))
  {
    TotalWith(c, k, item);
  }

  lemma Left(c: map<Key, CacheItem>, c': map<Key, CacheItem>, k: Key, used: int)
    requires Books(c, used) && k in c && c' == c - {k}
    ensures Books(c', used - Cost(c[k])) && |c'| == |c| - 1
  {
    TotalWithout(c, k);
    Smaller(c, k);
  }

  lemma Used(c: map<Key, CacheItem>, k: Key, now: nat, used: int)
    requires Books(c, used) && k in c
    ensures Books(c[k := CacheItem(c[k].size, now)], used)
  {
    Entered(c, c[k := CacheItem(c[k].size, now)], k, CacheItem(c[k].size, now), used);
  }

  // ---------------------------------------------------------------- eviction

  /** Both goals of a cleanup. */
  ghost predicate Met(c: map<Key, CacheItem>, goal: int, num: int) {
    |c| <= num && Total(c) <= goal
  }

  function Range(ks: seq<Key>): set<Key> {
    set k | k in ks
  }

  /** The block in place `i` could be evicted, and the goals were not met before it was. */
  ghost predicate Chosen(c0: map<Key, CacheItem>, ks: seq<Key>, goal: int, num: int, i: nat)
    requires i < |ks|
  {
    Evictable(c0, ks[i]) && ks[i] !in ks[..i] && !Met(c0 - Range(ks[..i]), goal, num)
  }

  /** The block in place `i` was not used after block `k`. */
  predicate Older(c0: map<Key, CacheItem>, ks: seq<Key>, i: nat, k: Key) {
    i < |ks| && ks[i] in c0 && k in c0 && c0[ks[i]].atime <= c0[k].atime
  }

  /** From `c0`, the blocks `ks` were evicted in this order and `c` is left: least recently
      used first, and none too many. */
  ghost predicate Evicted(c0: map<Key, CacheItem>, c: map<Key, CacheItem>, ks: seq<Key>, goal: int, num: int) {
    && c == c0 - Range(ks)
    && (forall i: nat {:trigger Chosen(c0, ks, goal, num, i)} | i < |ks| :: Chosen(c0, ks, goal, num, i))
    && (forall i: nat, j: nat {:trigger Older(c0, ks, i, ks[j])} | i < j < |ks| :: Older(c0, ks, i, ks[j]))
    && (forall i: nat, k {:trigger Older(c0, ks, i, k)} | i < |ks| && Evictable(c, k) :: Older(c0, ks, i, k))
  }

  lemma NoneEvicted(c: map<Key, CacheItem>, goal: int, num: int)
    ensures Evicted(c, c, [], goal, num)
  {
    assert c - Range([]) == c;
  }

  lemma EvictMore(c0: map<Key, CacheItem>, c: map<Key, CacheItem>, ks: seq<Key>, goal: int, num: int, key: Key)
    requires Evicted(c0, c, ks, goal, num) && Least(c, key) && !Met(c, goal, num)
    ensures Evicted(c0, c - {key}, ks + [key], goal, num)
  {
    var ks', c' := ks + [key], c - {key};
    assert Range(ks') == Range(ks) + {key};
    forall i: nat | i < |ks'| ensures Chosen(c0, ks', goal, num, i) {
      assert ks'[..i] == ks[..i];
      if i < |ks| { assert Chosen(c0, ks, goal, num, i); } else { assert ks[..i] == ks; }
    }
    forall i: nat, j: nat | i < j < |ks'| ensures Older(c0, ks', i, ks'[j]) {
      assert Older(c0, ks, i, ks'[j]) by {
        if j < |ks| { assert Older(c0, ks, i, ks[j]); } else { assert Evictable(c, key); }
      }
    }
    forall i: nat, k | i < |ks'| && Evictable(c', k) ensures Older(c0, ks', i, k) {
      assert Evictable(c, k);
      if i < |ks| { assert Older(c0, ks, i, k); }
    }
  }

  /** The cached blocks among `ks` that were last used before the cutoff. */
  function Stale(c: map<Key, CacheItem>, ks: seq<Key>, cutoff: nat): set<Key> {
    set k | k in ks && Evictable(c, k) && c[k].atime < cutoff
  }

  lemma StaleMore(c: map<Key, CacheItem>, ks: seq<Key>, i: nat, cutoff: nat)
    requires i < |ks|
    ensures var c' := c - Stale(c, ks[..i], cutoff);
      c' - Stale(c', [ks[i]], cutoff) == c - Stale(c, ks[..i + 1], cutoff)
  {
    assert ks[..i + 1] == ks[..i] + [ks[i]];
  }

  /** cleanupFull's goal in bytes, given the space to free. */
  function Goal(capacity: nat, used: nat, space: int): nat {
    var goal := capacity * 95 / 100;
    if space <= 0 then goal
    else if space > used then 0
    else if used - space < goal then (used - space) * 95 / 100
    else goal
  }

  /** cleanupFull's goal in blocks: `before` is the count when it started, `now` after it
      looked at the file system, and `inodes` are to be freed. */
  function Num(maxItems: nat, before: nat, now: nat, inodes: int): nat {
    var num := before * 99 / 100;
    var num := if maxItems != 0 && num > maxItems * 99 / 100 then maxItems * 99 / 100 else num;
    if inodes <= 0 then num
    else if inodes > now then 0
    else (now - inodes) * 99 / 100
  }

  /** Meeting the goal in bytes frees the space that was asked for, or all there is. */
  lemma GoalFrees(capacity: nat, used: nat, space: int)
    ensures Goal(capacity, used, space) * 100 <= capacity * 95
    ensures space > 0 ==> Goal(capacity, used, space) <= if space > used then 0 else used - space
    ensures space <= 0 ==> Goal(capacity, used, space) * 100 + 100 > capacity * 95
  {
  }

  /** Meeting the goal in blocks frees the inodes that were asked for; it allows more blocks
      than the limit exactly if inodes are asked for and 99% of the blocks then left exceed it. */
  lemma NumFrees(maxItems: nat, before: nat, now: nat, inodes: int)
    ensures inodes > 0 ==> Num(maxItems, before, now, inodes) <= if inodes > now then 0 else now - inodes
    ensures inodes <= 0 ==> Num(maxItems, before, now, inodes) <= before && (before > 0 ==> Num(maxItems, before, now, inodes) < before)
    ensures maxItems != 0 ==> (Num(maxItems, before, now, inodes) > maxItems <==> 0 < inodes <= now && (now - inodes) * 99 / 100 > maxItems)
  {
  }

  /** It can: the limit on blocks is forgotten when inodes run out. */
  lemma LimitForgotten()
    ensures Num(100, 200, 200, 10) == 188
  {
  }

  /** What add, remove and lookup do to the contents. */
  function Added(c: map<Key, CacheItem>, k: Key, size: int, atime: nat, now: nat): map<Key, CacheItem> {
    if size == 0 then c else c[k := CacheItem(size, if k in c then now else atime)]
  }

  /** The staging blocks in the heap after an add. */
  function StuckAfter(c: map<Key, CacheItem>, stuck: set<Key>, k: Key, size: int): set<Key> {
    if size < 0 && (Evictable(c, k) || k in stuck) then stuck + {k} else stuck - {k}
  }

  function Removed(c: map<Key, CacheItem>, k: Key, staging: bool): map<Key, CacheItem> {
    if Evictable(c, k) || staging then c - {k} else c
  }

  lemma NotThere(c: map<Key, CacheItem>, k: Key)
    ensures k !in c ==> c - {k} == c
  {
  }

  lemma LastWins(c: map<Key, CacheItem>, k: Key, a: CacheItem, b: CacheItem)
    ensures c[k := a][k := b] == c[k := b]
  {
  }

  function LookedUp(c: map<Key, CacheItem>, scanned: bool, k: Key, now: nat): map<Key, CacheItem> {
    if scanned && k in c then c[k := CacheItem(c[k].size, now)] else c
  }

  // ---------------------------------------------------------------- the cache

  class DiskCache {
    const capacity: nat
    const maxItems: nat
    const keys: LruEviction
    var used: int
    var scanned: bool

    constructor (capacity: nat, maxItems: nat)
      ensures Valid() && keys.contents == map[] && keys.Stuck() == {} && !scanned && fresh(keys) && fresh(keys.Foot())
      ensures this.capacity == capacity && this.maxItems == maxItems
    {
      this.capacity, this.maxItems := capacity, maxItems;
      var index := new LruEviction();
      used, scanned, keys := 0, false, index;
    }

    /** The books are right: nothing is counted but what is indexed. */
    ghost predicate Valid()
      reads this, keys, keys.Foot()
    {
      this !in keys.Foot() && keys.Valid() && Books(keys.contents, used)
    }

    /** diskCache.add up to its cleanup; `full` says whether that follows.  A staging block gets
        stuck in the heap exactly if it was in it before. */
    method Add(k: Key, size: int, atime: nat, now: nat) returns (full: bool)
      requires Valid()
      modifies this`used, keys, keys.Foot()
      ensures Valid() && fresh(keys.Foot() - old(keys.Foot()))
      ensures keys.contents == Added(old(keys.contents), k, size, atime, now)
      ensures keys.Stuck() == if size == 0 then old(keys.Stuck()) else StuckAfter(old(keys.contents), old(keys.Stuck()), k, size)
      ensures full <==> size != 0 && (used > capacity || (maxItems != 0 && |keys.contents| > maxItems))
    {
      if size == 0 {
        return false;
      }
      ghost var c := keys.contents;
      var item := Enter(k, size, atime, now);
      Entered(c, keys.contents, k, item, old(used));
      if size > 0 {
        Charge(size + 4096);
      }
      full := used > capacity || (maxItems != 0 && |keys.keys| > maxItems);
      assert |keys.contents.Keys| == |keys.keys.Keys|;
    }

    /** The index is updated, and only then the new size entered in the books. */
    method Enter(k: Key, size: int, atime: nat, now: nat) returns (item: CacheItem)
      requires Valid() && size != 0
      modifies this`used, keys, keys.Foot()
      ensures this !in keys.Foot() && fresh(keys.Foot() - old(keys.Foot())) && keys.Valid()
      ensures keys.Stuck() == StuckAfter(old(keys.contents), old(keys.Stuck()), k, size)
      ensures item == CacheItem(size, if k in old(keys.contents) then now else atime)
      ensures keys.contents == old(keys.contents)[k := item] && used == old(used) - Taken(old(keys.contents), k)
    {
      item := Take(k, size, atime, now);
      keys.Add(k, item.size, item.atime);
    }

    /** What there is of the block is taken off the books, and its item changed in place. */
    method Take(k: Key, size: int, atime: nat, now: nat) returns (item: CacheItem)
      requires Valid()
      modifies this`used, keys`contents, keys.Foot()
      ensures keys.Loose(k) && keys.Foot() <= old(keys.Foot()) && keys.Stuck() - {k} == old(keys.Stuck()) - {k}
      ensures item == CacheItem(size, if k in old(keys.contents) then now else atime)
      ensures used == old(used) - Taken(old(keys.contents), k)
      ensures keys.contents[k := item] == old(keys.contents)[k := item]
      ensures k in keys.keys && keys.InHeap(k) <==> Evictable(old(keys.contents), k) || k in old(keys.Stuck())
    {
      var it := keys.Get(k, now);
      if it == null {
        keys.ValidIsLoose(k);
        return CacheItem(size, atime);
      }
      assert keys.Right(k);
      if it.size > 0 {
        used := used - (it.size + 4096);
      }
      item := CacheItem(size, it.atime);
      LastWins(old(keys.contents), k, keys.contents[k], item);
      Resize(k, it, size);
    }

    /** The shared item is changed in place; the index is loose until it is added again. */
    method Resize(k: Key, it: LruItem, size: int)
      requires keys.Valid() && k in keys.keys && keys.keys[k] == it
      modifies it`size
      ensures keys.Loose(k)
      ensures keys.Foot() == old(keys.Foot()) && keys.Stuck() - {k} == old(keys.Stuck()) - {k}
      ensures keys.InHeap(k) == old(keys.InHeap(k))
    {
      keys.ValidIsLoose(k);
      keys.OwnItem(k);
      it.size := size;
      keys.Changed(k);
    }

    /** An entry in the books; it changes nothing else. */
    method Charge(amount: int)
      requires this !in keys.Foot() && keys.Valid() && Books(keys.contents, used + amount)
      modifies this`used
      ensures Valid() && used == old(used) + amount && keys.Foot() == old(keys.Foot()) && keys.Stuck() == old(keys.Stuck())
    {
      used := used + amount;
    }

    /** diskCache.remove: a block is uncached, or a staging block given up. */
    method Remove(k: Key, staging: bool)
      requires Valid()
      modifies this`used, keys, keys.Foot()
      ensures Valid() && keys.Foot() <= old(keys.Foot()) && keys.Stuck() <= old(keys.Stuck())
      ensures keys.contents == Removed(old(keys.contents), k, staging)
    {
      NotThere(keys.contents, k);
      var it := keys.Remove(k, staging);
      if it != null {
        Left(old(keys.contents), keys.contents, k, old(used));
        if it.size > 0 {
          Charge(-(it.size + 4096));
        }
      }
    }

    /** A load or a check that found no file: the block is dropped, and its size taken off
        the books without looking at its sign. */
    method Discard(k: Key)
      requires Valid()
      modifies this`used, keys, keys.Foot()
      ensures Valid() && keys.Foot() <= old(keys.Foot()) && keys.Stuck() <= old(keys.Stuck())
      ensures keys.contents == Removed(old(keys.contents), k, false)
    {
      var it := keys.Remove(k, false);
      if it != null {
        Left(old(keys.contents), keys.contents, k, old(used));
        Charge(-(it.size + 4096));
      }
    }

    /** The test of cache, which does not wait for the end of a scan: a known block is used now. */
    method Known(k: Key, now: nat) returns (known: bool)
      requires Valid()
      modifies keys, keys.Foot()
      ensures Valid() && keys.Foot() <= old(keys.Foot()) && keys.Stuck() == old(keys.Stuck())
      ensures known <==> k in old(keys.contents)
      ensures keys.contents == LookedUp(old(keys.contents), true, k, now)
    {
      var it := keys.Get(k, now);
      known := it != null;
      if known {
        Used(old(keys.contents), k, now, used);
      }
    }

    /** The first half of load and exist: a known block is used now. */
    method Lookup(k: Key, now: nat) returns (known: bool)
      requires Valid()
      modifies keys, keys.Foot()
      ensures Valid() && keys.Foot() <= old(keys.Foot()) && keys.Stuck() == old(keys.Stuck())
      ensures known <==> !scanned || k in old(keys.contents)
      ensures keys.contents == LookedUp(old(keys.contents), scanned, k, now)
    {
      if !scanned {
        return true;
      }
      known := Known(k, now);
    }

    /** The start of a scan: the index and the books are empty. */
    method StartScan() returns (last: LruEviction)
      requires Valid()
      modifies this`used, this`scanned, keys
      ensures Valid() && keys.contents == map[] && keys.Stuck() == {} && fresh(keys.Foot()) && !scanned
      ensures last.Valid() && last.contents == old(keys.contents)
    {
      used := 0;
      last := keys.Reset();
      scanned := false;
    }

    /** The end of a scan: from now on what is not indexed is not cached. */
    method EndScan()
      requires Valid()
      modifies this`scanned
      ensures Valid() && scanned && keys.Foot() == old(keys.Foot()) && keys.Stuck() == old(keys.Stuck())
    {
      scanned := true;
    }

    /** cleanupExpire's pass over up to 1000 blocks, in the order the map yields them. */
    method Expire(order: seq<Key>, cutoff: nat)
      requires Valid()
      modifies this`used, keys, keys.Foot()
      ensures Valid() && keys.Foot() <= old(keys.Foot()) && keys.Stuck() <= old(keys.Stuck())
      ensures keys.contents == old(keys.contents) - Stale(old(keys.contents), order[..if |order| < 1000 then |order| else 1000], cutoff)
    {
      ghost var c := keys.contents;
      var i := 0;
      while i < |order| && i < 1000
        invariant i <= |order| && i <= 1000 && Valid() && keys.Foot() <= old(keys.Foot()) && keys.Stuck() <= old(keys.Stuck())
        invariant keys.contents == c - Stale(c, order[..i], cutoff)
      {
        StaleMore(c, order, i, cutoff);
        ExpireOne(order[i], cutoff);
        i := i + 1;
        assert keys.contents == c - Stale(c, order[..i], cutoff);
      }
    }

    method ExpireOne(k: Key, cutoff: nat)
      requires Valid()
      modifies this`used, keys, keys.Foot()
      ensures Valid() && keys.Foot() <= old(keys.Foot()) && keys.Stuck() <= old(keys.Stuck())
      ensures keys.contents == old(keys.contents) - Stale(old(keys.contents), [k], cutoff)
    {
      if k in keys.keys {
        assert keys.Right(k);
        if keys.keys[k].size >= 0 && keys.keys[k].atime < cutoff {
          Discard(k);
        }
      }
    }

    /** cleanupFull once it holds the lock again: `before` blocks were indexed when it started,
        and the file system wants `space` bytes and `inodes` blocks back. */
    method CleanupFull(before: nat, space: int, inodes: int) returns (todel: seq<Key>)
      requires Valid()
      modifies this`used, keys, keys.Foot()
      ensures Valid() && keys.Foot() <= old(keys.Foot()) && keys.Stuck() <= old(keys.Stuck())
      ensures
        var goal, num := Goal(capacity, old(used), space), Num(maxItems, before, |old(keys.contents)|, inodes);
        && Evicted(old(keys.contents), keys.contents, todel, goal, num)
        && (Met(keys.contents, goal, num) || forall k :: !Evictable(keys.contents, k))
    {
      assert |keys.contents.Keys| == |keys.keys.Keys|;
      var goal, num := Goal(capacity, used, space), Num(maxItems, before, |keys.keys|, inodes);
      if |keys.keys| <= num && used <= goal {
        NoneEvicted(keys.contents, goal, num);
        return [];
      }
      todel := EvictUntil(goal, num);
    }

    /** Evict until both goals are met or nothing is left to evict. */
    method EvictUntil(goal: nat, num: nat) returns (todel: seq<Key>)
      requires Valid() && !Met(keys.contents, goal, num)
      modifies this`used, keys, keys.Foot()
      ensures Valid() && keys.Foot() <= old(keys.Foot()) && keys.Stuck() <= old(keys.Stuck())
      ensures Evicted(old(keys.contents), keys.contents, todel, goal, num)
      ensures Met(keys.contents, goal, num) || forall k :: !Evictable(keys.contents, k)
    {
      ghost var c := keys.contents;
      todel := [];
      NoneEvicted(c, goal, num);
      while true
        invariant Valid() && keys.Foot() <= old(keys.Foot()) && keys.Stuck() <= old(keys.Stuck())
        invariant Evicted(c, keys.contents, todel, goal, num) && !Met(keys.contents, goal, num)
        decreases |keys.contents|
      {
        ghost var left := keys.contents;
        var found, k, met := EvictOne(goal, num);
        if !found {
          break;
        }
        EvictMore(c, left, todel, goal, num, k);
        todel := todel + [k];
        if met {
          break;
        }
      }
    }

    method EvictOne(goal: nat, num: nat) returns (found: bool, k: Key, met: bool)
      requires Valid()
      modifies this`used, keys, keys.Foot()
      ensures Valid() && keys.Foot() <= old(keys.Foot()) && keys.Stuck() <= old(keys.Stuck())
      ensures met <==> Met(keys.contents, goal, num)
      ensures found ==> Least(old(keys.contents), k) && keys.contents == old(keys.contents) - {k}
      ensures found ==> |keys.contents| < |old(keys.contents)|
      ensures !found ==> keys.contents == old(keys.contents) && forall j :: !Evictable(keys.contents, j)
    {
      var item;
      found, k, item := keys.Evict();
      if found {
        Left(old(keys.contents), keys.contents, k, old(used));
        Charge(-(item.size + 4096));
      }
      assert |keys.contents.Keys| == |keys.keys.Keys|;
      met := |keys.keys| <= num && used <= goal;
    }
  }

  // ---------------------------------------------------------------- whole runs

  datatype Op =
    | AddOp(k: Key, size: int, atime: nat, now: nat)
    | RemoveOp(k: Key, staging: bool)
    | CacheOp(k: Key, now: nat)
    | LookupOp(k: Key, now: nat)
    | DiscardOp(k: Key)
    | ExpireOp(order: seq<Key>, cutoff: nat)
    | CleanupOp(before: nat, space: int, inodes: int)
    | StartScanOp
    | EndScanOp

  /** The cache as a value. */
  datatype Abs = Abs(capacity: nat, maxItems: nat, contents: map<Key, CacheItem>, scanned: bool)

  /** A cleanup evicted some blocks in order, until its goals were met or nothing was left. */
  ghost predicate Cleaned(c: map<Key, CacheItem>, c': map<Key, CacheItem>, goal: int, num: int) {
    && (exists ks :: Evicted(c, c', ks, goal, num))
    && (Met(c', goal, num) || forall k :: !Evictable(c', k))
  }

  /** What a critical section may do. */
  ghost predicate Effect(a: Abs, op: Op, a': Abs) {
    && a'.capacity == a.capacity && a'.maxItems == a.maxItems
    && a'.scanned == (if op.StartScanOp? then false else if op.EndScanOp? then true else a.scanned)
    && match op
       case AddOp(k, size, atime, now) => a'.contents == Added(a.contents, k, size, atime, now)
       case RemoveOp(k, staging) => a'.contents == Removed(a.contents, k, staging)
       case CacheOp(k, now) => a'.contents == LookedUp(a.contents, true, k, now)
       case LookupOp(k, now) => a'.contents == LookedUp(a.contents, a.scanned, k, now)
       case DiscardOp(k) => a'.contents == Removed(a.contents, k, false)
       case ExpireOp(order, cutoff) =>
         a'.contents == a.contents - Stale(a.contents, order[..if |order| < 1000 then |order| else 1000], cutoff)
       case CleanupOp(before, space, inodes) =>
         Cleaned(a.contents, a'.contents, Goal(a.capacity, Total(a.contents), space), Num(a.maxItems, before, |a.contents|, inodes))
       case StartScanOp => a'.contents == map[]
       case EndScanOp => a'.contents == a.contents
  }

  /** A cached block is added as a staging block. */
  predicate Restages(c: map<Key, CacheItem>, op: Op, k: Key) {
    op.AddOp? && op.k == k && op.size < 0 && Evictable(c, k)
  }

  ghost function AbsOf(cache: DiskCache): Abs
    reads cache, cache.keys
  {
    Abs(cache.capacity, cache.maxItems, cache.keys.contents, cache.scanned)
  }

  /** One critical section. */
  method Do(cache: DiskCache, op: Op)
    requires cache.Valid()
    modifies cache, cache.keys, cache.keys.Foot()
    ensures cache.Valid() && fresh(cache.keys.Foot() - old(cache.keys.Foot()))
    ensures Effect(old(AbsOf(cache)), op, AbsOf(cache))
    ensures forall k | k in cache.keys.Stuck() :: k in old(cache.keys.Stuck()) || Restages(old(cache.keys.contents), op, k)
  {
    match op {
      case AddOp(k, size, atime, now) => var _ := cache.Add(k, size, atime, now);
      case RemoveOp(k, staging) => cache.Remove(k, staging);
      case CacheOp(k, now) => var _ := cache.Known(k, now);
      case LookupOp(k, now) => var _ := cache.Lookup(k, now);
      case DiscardOp(k) => cache.Discard(k);
      case ExpireOp(order, cutoff) => cache.Expire(order, cutoff);
      case CleanupOp(before, space, inodes) => var _ := cache.CleanupFull(before, space, inodes);
      case StartScanOp => var _ := cache.StartScan();
      case EndScanOp => cache.EndScan();
    }
  }

  /** The critical sections brought the cache from `a` through `trace` to its last value. */
  ghost predicate Traces(trace: seq<Abs>, ops: seq<Op>, a: Abs) {
    && |trace| == |ops| + 1 && trace[0] == a
    && forall i {:trigger ops[i]} | 0 <= i < |ops| :: Effect(trace[i], ops[i], trace[i + 1])
  }

  /** Some section staged a cached block again. */
  ghost predicate Restaged(trace: seq<Abs>, ops: seq<Op>, k: Key) {
    exists i :: 0 <= i < |ops| && i < |trace| && Restages(trace[i].contents, ops[i], k)
  }

  /** A run, in which a staging block is stuck only because it was staged while it was cached. */
  ghost predicate Story(trace: seq<Abs>, ops: seq<Op>, a: Abs, stuck: set<Key>) {
    Traces(trace, ops, a) && forall k | k in stuck :: Restaged(trace, ops, k)
  }

  lemma StoryGoesOn(trace: seq<Abs>, ops: seq<Op>, i: nat, a: Abs, stuck: set<Key>, next: Abs, stuck': set<Key>)
    requires i < |ops| && Story(trace, ops[..i], a, stuck) && Effect(trace[i], ops[i], next)
    requires forall k | k in stuck' :: k in stuck || Restages(trace[i].contents, ops[i], k)
    ensures Story(trace + [next], ops[..i + 1], a, stuck')
  {
    var trace', less, more := trace + [next], ops[..i], ops[..i + 1];
    forall k | k in stuck' ensures Restaged(trace', more, k) {
      if k in stuck {
        assert Restaged(trace, less, k);
        var j :| 0 <= j < i && Restages(trace[j].contents, less[j], k);
        assert Restages(trace'[j].contents, more[j], k);
      } else {
        assert Restages(trace'[i].contents, more[i], k);
      }
    }
    forall j | 0 <= j < i + 1 ensures Effect(trace'[j], more[j], trace'[j + 1]) {
      if j < i { assert less[j] == more[j]; }
    }
  }

  method Continue(cache: DiskCache, ops: seq<Op>, i: nat, ghost trace: seq<Abs>, ghost a: Abs) returns (ghost trace': seq<Abs>)
    requires cache.Valid() && i < |ops| && Story(trace, ops[..i], a, cache.keys.Stuck()) && trace[i] == AbsOf(cache)
    modifies cache, cache.keys, cache.keys.Foot()
    ensures cache.Valid() && fresh(cache.keys.Foot() - old(cache.keys.Foot()))
    ensures Story(trace', ops[..i + 1], a, cache.keys.Stuck()) && trace'[i + 1] == AbsOf(cache)
  {
    Do(cache, ops[i]);
    StoryGoesOn(trace, ops, i, a, old(cache.keys.Stuck()), AbsOf(cache), cache.keys.Stuck());
    trace' := trace + [AbsOf(cache)];
  }

  /** After any run the books are right. */
  method Run(capacity: nat, maxItems: nat, ops: seq<Op>) returns (cache: DiskCache, ghost trace: seq<Abs>)
    ensures cache.Valid() && cache.used == Total(cache.keys.contents)
    ensures Story(trace, ops, Abs(capacity, maxItems, map[], false), cache.keys.Stuck()) && trace[|ops|] == AbsOf(cache)
  {
    cache := new DiskCache(capacity, maxItems);
    ghost var a := AbsOf(cache);
    trace := [a];
    for i := 0 to |ops|
      invariant cache.Valid() && fresh(cache) && fresh(cache.keys) && fresh(cache.keys.Foot())
      invariant Story(trace, ops[..i], a, cache.keys.Stuck()) && trace[i] == AbsOf(cache)
    {
      trace := Continue(cache, ops, i, trace, a);
    }
    assert ops[..|ops|] == ops;
  }

  /** After any run verifyHeap complains only if a cached block was staged again. */
  method RunAndVerify(capacity: nat, maxItems: nat, ops: seq<Op>) returns (ok: bool, ghost trace: seq<Abs>)
    ensures Traces(trace, ops, Abs(capacity, maxItems, map[], false))
    ensures ok || exists k :: Restaged(trace, ops, k)
  {
    var cache;
    cache, trace := Run(capacity, maxItems, ops);
    ghost var stuck := cache.keys.Stuck();
    ok := cache.keys.VerifyHeap();
    if stuck != {} {
      ghost var k :| k in stuck;
      assert Restaged(trace, ops, k);
    }
  }

  /** Then it does: a block is cached, staged again, and verifyHeap complains. */
  method StagedAgain(k: Key, size: int) returns (ok: bool)
    requires size > 0
    ensures !ok
  {
    var cache := new DiskCache(0, 0);
    var _ := cache.Add(k, size, 0, 0);
    assert Evictable(cache.keys.contents, k);
    var _ := cache.Add(k, -size, 0, 0);
    assert k in cache.keys.Stuck();
    ok := cache.keys.VerifyHeap();
  }
}
