/** The cache of access control rules, by id and by checksum. */
module AclCache {
  import opened Common
  import opened AclRule

  const MAX_ID: nat := 0xFFFF_FFFF

  /** An id holds this rule; a slot can also be empty. */
  predicate Bears(id2Rule: map<nat, Option<Rule>>, id: nat, r: Rule) {
    id in id2Rule && id2Rule[id] == Some(r)
  }

  // ---------------------------------------------------------------- counting

  function UpTo(n: nat): (s: set<nat>)
    ensures |s| == n && forall i :: i in s <==> 1 <= i <= n
  {
    if n == 0 then {} else UpTo(n - 1) + {n}
  }

  /** A subset of 1..n has n elements exactly if nothing is missing. */
  lemma CountedAll(s: set<nat>, n: nat)
    requires forall i | i in s :: 1 <= i <= n
    ensures |s| == n <==> forall i | 1 <= i <= n :: i in s
    ensures |s| <= n
  {
    var gap := UpTo(n) - s;
    assert s + gap == UpTo(n) && s * gap == {};
    assert |s| + |gap| == n;
    assert gap == {} <==> forall i | 1 <= i <= n :: i in s;
  }

  lemma NothingIn(s: seq<nat>)
    ensures (forall i :: i !in s) ==> s == []
  {
    if s != [] { assert s[0] in s; }
  }

  lemma Wraps(size: nat, maxId: nat)
    requires size <= maxId + 1 <= MAX_ID + 1
    ensures Uint32(size) as nat == maxId <==> size == maxId
    ensures Uint32(maxId + 1) as nat == if maxId == MAX_ID then 0 else maxId + 1
  {
  }

  // ---------------------------------------------------------------- the cache

  class Cache {
    const crc: seq<byte> -> uint32
    var maxId: nat
    var id2Rule: map<nat, Option<Rule>>
    var cksum2Id: map<uint32, seq<nat>>

    constructor (crc: seq<byte> -> uint32)
      ensures Valid() && id2Rule == map[] && this.crc == crc
    {
      this.crc := crc;
      maxId, id2Rule, cksum2Id := 0, map[], map[];
    }

    /** A list too long to be stored cannot occur; its checksum does not matter. */
    function Checksum(r: Rule): uint32 {
      if Storable(r) then crc(Bytes(r)) else 0
    }

    /** The bucket of a rule lists its id. */
    ghost predicate Listed(id: nat, r: Rule)
      reads this
    {
      Checksum(r) in cksum2Id && id in cksum2Id[Checksum(r)]
    }

    /** What a bucket lists is a rule with this checksum. */
    ghost predicate BucketOk(sum: uint32)
      requires sum in cksum2Id
      reads this
    {
      forall id {:trigger id in cksum2Id[sum]} | id in cksum2Id[sum] ::
        id in id2Rule && id2Rule[id].Some? && Checksum(id2Rule[id].value) == sum
    }

    ghost predicate Valid()
      reads this
    {
      && (forall id | id in id2Rule :: id <= maxId <= MAX_ID) && (maxId > 0 ==> maxId in id2Rule)
      && (forall id, r {:trigger Listed(id, r)} | Bears(id2Rule, id, r) :: Listed(id, r))
      && (forall sum {:trigger BucketOk(sum)} | sum in cksum2Id :: BucketOk(sum))
    }

    method Clear()
      modifies this
      ensures Valid() && id2Rule == map[]
    {
      maxId, id2Rule, cksum2Id := 0, map[], map[];
    }

    /** The first rule of an id stays. */
    method Put(id: nat, r: Option<Rule>)
      requires Valid() && id <= MAX_ID
      modifies this
      ensures Valid() && id2Rule == if id in old(id2Rule) then old(id2Rule) else old(id2Rule)[id := r]
    {
      if id in id2Rule {
        return;
      }
      if id > maxId {
        maxId := id;
      }
      id2Rule := id2Rule[id := r];
      if r.None? {
        forall j, q | Bears(id2Rule, j, q) ensures Listed(j, q) { assert old(Listed(j, q)); }
        forall sum | sum in cksum2Id ensures BucketOk(sum) { assert old(BucketOk(sum)); }
        return;
      }
      var sum := Checksum(r.value);
      cksum2Id := cksum2Id[sum := (if sum in cksum2Id then cksum2Id[sum] else []) + [id]];
      forall j, q | Bears(id2Rule, j, q) ensures Listed(j, q) {
        if j != id { assert old(Listed(j, q)); }
      }
      forall s | s in cksum2Id ensures BucketOk(s) {
        if s in old(cksum2Id) { assert old(BucketOk(s)); }
      }
    }

    /** The bucket search finds what a search of all rules would. */
    method GetId(rule: Option<Rule>) returns (id: nat)
      requires Valid()
      ensures rule.None? ==> id == 0
      ensures rule.Some? && id != 0 ==> Bears(id2Rule, id, rule.value)
      ensures rule.Some? && 0 !in id2Rule ==> (id == 0 <==> forall j :: !Bears(id2Rule, j, rule.value))
    {
      if rule.None? {
        return 0;
      }
      var r := rule.value;
      var sum := Checksum(r);
      forall j | Bears(id2Rule, j, r) ensures sum in cksum2Id && j in cksum2Id[sum] { assert Listed(j, r); }
      if sum in cksum2Id {
        assert BucketOk(sum);
        var ids := cksum2Id[sum];
        for i := 0 to |ids|
          invariant forall k | 0 <= k < i :: !Bears(id2Rule, ids[k], r)
        {
          assert ids[i] in ids;
          var eq := SameRule(r, id2Rule[ids[i]].value);
          if eq {
            return ids[i];
          }
        }
      }
      id := 0;
    }

    ghost predicate Misses(ids: seq<nat>)
      reads this
    {
      && (forall i, j | 0 <= i < j < |ids| :: ids[i] < ids[j])
      && (forall i :: i in ids <==> 1 <= i <= maxId && i !in id2Rule)
    }

    /** The gaps in 1..maxId, exactly if id 0 does not fake a full count and the bound does
        not wrap before a gap. */
    method GetMissIds() returns (ids: seq<nat>)
      requires Valid()
      ensures Misses(ids) <==>
        !(0 in id2Rule && |id2Rule| == maxId) && !(maxId == MAX_ID && |id2Rule.Keys - {0}| < maxId)
      ensures |id2Rule| == maxId ==> ids == []
    {
      Counted();
      Wraps(|id2Rule|, maxId);
      if Uint32(|id2Rule|) as nat == maxId {
        NothingMissing();
        return [];
      }
      ids := Gaps(Uint32(maxId + 1) as nat);
      if maxId == MAX_ID {
        NothingIn(ids);
        NothingMissing();
      }
    }

    lemma NothingMissing()
      requires Valid()
      ensures Misses([]) <==> |id2Rule.Keys - {0}| == maxId
    {
      CountedAll(id2Rule.Keys - {0}, maxId);
      forall i ensures (1 <= i <= maxId && i !in id2Rule) <==> 1 <= i <= maxId && i !in id2Rule.Keys - {0} {
      }
    }

    /** The loop of GetMissIds, with its bound modulo 2^32. */
    method Gaps(n: nat) returns (ids: seq<nat>)
      ensures (forall i, j | 0 <= i < j < |ids| :: ids[i] < ids[j]) && (forall k :: k in ids <==> 1 <= k < n && k !in id2Rule)
    {
      ids := [];
      var i := 1;
      while i < n
        invariant (n == 0 ==> i == 1) && (0 < n ==> i <= n)
        invariant (forall a, b | 0 <= a < b < |ids| :: ids[a] < ids[b]) && forall a | 0 <= a < |ids| :: ids[a] < i
        invariant forall k :: k in ids <==> 1 <= k < i && k !in id2Rule
      {
        if i !in id2Rule {
          ids := ids + [i];
        }
        i := i + 1;
      }
    }

    lemma Counted()
      requires Valid()
      ensures |id2Rule| == |id2Rule.Keys - {0}| + if 0 in id2Rule then 1 else 0
      ensures |id2Rule.Keys - {0}| <= maxId <= MAX_ID
    {
      CountedAll(id2Rule.Keys - {0}, maxId);
      assert |id2Rule| == |id2Rule.Keys|;
      if 0 in id2Rule {
        assert id2Rule.Keys == (id2Rule.Keys - {0}) + {0};
      } else {
        assert id2Rule.Keys == id2Rule.Keys - {0};
      }
    }
  }

  /** Ids 0 and 2 are cached and 1 is not: the count looks full, and 1 is not reported. */
  method GapUnreported(crc: seq<byte> -> uint32, zero: Option<Rule>, two: Option<Rule>) returns (cache: Cache, ids: seq<nat>)
    ensures cache.Valid() && cache.id2Rule == map[0 := zero, 2 := two] && !cache.Misses(ids) && 1 !in ids
  {
    cache := new Cache(crc);
    cache.Put(0, zero);
    cache.Put(2, two);
    assert cache.id2Rule == map[0 := zero, 2 := two];
    assert 2 in cache.id2Rule && cache.maxId in cache.id2Rule;
    ids := cache.GetMissIds();
  }
}
