/** The atime heap: a binary heap of shared items that know their position. */
module LruHeap {
  import opened Common

  const NOT_IN_LRU: int := -0x8000_0000_0000_0000

  /** lruItem: shared by the key map and the heap. */
  class LruItem {
    var size: int                          // negative for a staging block
    var atime: nat
    var pos: int
    ghost const key: Key                   // what it is indexed under

    constructor (size: int, atime: nat, ghost key: Key)
      ensures this.size == size && this.atime == atime && pos == NOT_IN_LRU && this.key == key
    {
      this.size, this.atime, pos := size, atime, NOT_IN_LRU;
      this.key := key;
    }
  }

  datatype HeapItem = HeapItem(item: LruItem, key: Key)

  // ---------------------------------------------------------------- order

  /** What the order of the heap depends on. */
  datatype Entry = Entry(atime: nat, size: int, id: nat)

  /** atimeHeap.Less: least recent first, then largest, then by id. */
  predicate Less(a: Entry, b: Entry) {
    if a.atime != b.atime then a.atime < b.atime
    else if a.size != b.size then a.size > b.size
    else a.id < b.id
  }

  function Parent(c: nat): nat
    requires c > 0
  {
    (c - 1) / 2
  }

  /** Entry `c` is not before its parent. */
  predicate Edge(e: seq<Entry>, c: nat)
    requires 0 < c < |e|
  {
    !Less(e[c], e[Parent(c)])
  }

  /** The first `n` entries are a heap. */
  predicate Ordered(e: seq<Entry>, n: nat) {
    n <= |e| && forall c: nat {:trigger Edge(e, c)} | 0 < c < n :: Edge(e, c)
  }

  /** Entry `c` is not before its grandparent, if its parent is `i`. */
  predicate Skips(e: seq<Entry>, i: nat, c: nat)
    requires 0 < c < |e|
  {
    Parent(c) == i && i > 0 ==> !Less(e[c], e[Parent(i)])
  }

  predicate Off(e: seq<Entry>, i: nat, c: nat)
    requires 0 < c < |e|
  {
    c != i && Parent(c) != i ==> Edge(e, c)
  }

  /** The first `n` entries are a heap but for the entry at `i`, which can be anything. */
  predicate Hole(e: seq<Entry>, n: nat, i: nat) {
    && n <= |e|
    && (forall c: nat {:trigger Off(e, i, c)} | 0 < c < n :: Off(e, i, c))
    && (forall c: nat {:trigger Skips(e, i, c)} | 0 < c < n :: Skips(e, i, c))
  }

  /** The entry at `i` is not after its children. */
  predicate Kids(e: seq<Entry>, n: nat, i: nat) {
    n <= |e| && forall c: nat {:trigger Edge(e, c)} | 0 < c < n && Parent(c) == i :: Edge(e, c)
  }

  function Swapped<T>(s: seq<T>, i: nat, j: nat): (r: seq<T>)
    requires i < |s| && j < |s|
    ensures |r| == |s| && r[i] == s[j] && r[j] == s[i] && forall k | 0 <= k < |s| && k != i && k != j :: r[k] == s[k]
  {
    s[i := s[j]][j := s[i]]
  }

  /** Replacing one entry of a heap leaves a hole there. */
  lemma Replaced(e: seq<Entry>, e': seq<Entry>, n: nat, i: nat)
    requires Ordered(e, |e|) && n <= |e| && n <= |e'| && i < n
    requires forall k | 0 <= k < n && k != i :: e'[k] == e[k]
    ensures Hole(e', n, i)
  {
    forall c: nat | 0 < c < n ensures Off(e', i, c) && Skips(e', i, c) {
      assert Edge(e, c);
      if i > 0 { assert Edge(e, i); }
    }
  }

  /** The entry in the hole does not matter. */
  lemma HoleStays(e: seq<Entry>, e': seq<Entry>, n: nat, i: nat)
    requires Hole(e, n, i) && n <= |e'| && i < n && forall k | 0 <= k < n && k != i :: e'[k] == e[k]
    ensures Hole(e', n, i)
  {
    forall c: nat | 0 < c < n ensures Off(e', i, c) && Skips(e', i, c) {
      assert Off(e, i, c) && Skips(e, i, c);
    }
  }

  /** A new last entry leaves a hole at the end, which has no children. */
  lemma Appended(e: seq<Entry>, x: Entry)
    requires Ordered(e, |e|)
    ensures var n := |e| + 1; Hole(e + [x], n, |e|) && Kids(e + [x], n, |e|)
  {
    var e', n := e + [x], |e| + 1;
    forall c: nat | 0 < c < n ensures Off(e', |e|, c) && Skips(e', |e|, c) {
      if c < |e| { assert Edge(e, c); }
    }
  }

  lemma Shortened(e: seq<Entry>, n: nat)
    requires Ordered(e, n)
    ensures Ordered(e[..n], n)
  {
    forall c: nat | 0 < c < n ensures Edge(e[..n], c) {
      assert Edge(e, c);
    }
  }

  lemma UpStep(e: seq<Entry>, n: nat, j: nat)
    requires Hole(e, n, j) && Kids(e, n, j) && 0 < j < n && Less(e[j], e[Parent(j)])
    ensures var p := Parent(j); Hole(Swapped(e, p, j), n, p) && Kids(Swapped(e, p, j), n, p)
  {
    var p := Parent(j);
    var e' := Swapped(e, p, j);
    if p > 0 { assert Off(e, j, p); }
    forall c: nat | 0 < c < n ensures Off(e', p, c) && Skips(e', p, c) && (Parent(c) == p ==> Edge(e', c)) {
      assert Off(e, j, c) && Skips(e, j, c);
    }
  }

  lemma DownStep(e: seq<Entry>, n: nat, i: nat, j: nat)
    requires Hole(e, n, i) && LeastKid(e, n, i, j) && Less(e[j], e[i])
    ensures Hole(Swapped(e, i, j), n, j) && Edge(Swapped(e, i, j), j)
  {
    var e' := Swapped(e, i, j);
    assert Skips(e, i, j);
    forall c: nat | 0 < c < n ensures Off(e', j, c) && Skips(e', j, c) {
      assert Off(e, i, c) && Skips(e, i, c);
      assert BelowKid(e, i, j, c);
    }
  }

  predicate BelowKid(e: seq<Entry>, i: nat, j: nat, c: nat)
    requires j < |e| && 0 < c < |e|
  {
    Parent(c) == i ==> !Less(e[c], e[j])
  }

  /** `j` is a child of `i` that no other child is before. */
  predicate LeastKid(e: seq<Entry>, n: nat, i: nat, j: nat) {
    && 0 < j < n <= |e| && Parent(j) == i && i < j
    && forall c: nat {:trigger BelowKid(e, i, j, c)} | 0 < c < n :: BelowKid(e, i, j, c)
  }

  lemma NotAfterKids(e: seq<Entry>, n: nat, i: nat, j: nat)
    requires LeastKid(e, n, i, j) && !Less(e[j], e[i])
    ensures Kids(e, n, i)
  {
    forall c: nat | 0 < c < n && Parent(c) == i ensures Edge(e, c) {
      assert BelowKid(e, i, j, c);
    }
  }

  lemma HoleFilled(e: seq<Entry>, n: nat, i: nat)
    requires Hole(e, n, i) && Kids(e, n, i) && (0 < i < n ==> Edge(e, i))
    ensures Ordered(e, n)
  {
    forall c: nat | 0 < c < n ensures Edge(e, c) {
      assert Off(e, i, c);
    }
  }

  /** The first entry of a heap is a least one. */
  lemma {:induction false} RootIsLeast(e: seq<Entry>, n: nat, c: nat)
    requires Ordered(e, n) && c < n
    ensures !Less(e[c], e[0])
  {
    if c > 0 {
      assert Edge(e, c);
      RootIsLeast(e, n, Parent(c));
    }
  }

  // ---------------------------------------------------------------- the heap

  /** Swap, Push and Pop are the repository's; Up, Down and the operations built on them are
      those of Go's container/heap. */
  class AtimeHeap {
    var h: seq<HeapItem>

    constructor ()
      ensures h == []
    {
      h := [];
    }

    ghost function Items(): set<LruItem>
      reads this
    {
      set x | x in h :: x.item
    }

    ghost function Members(): set<HeapItem>
      reads this
    {
      set x | x in h
    }

    /** Every item in the heap knows where it is. */
    ghost predicate Linked()
      reads this, Items()
    {
      forall i {:trigger h[i]} | 0 <= i < |h| :: h[i].item.pos == i
    }

    ghost function Entries(): (e: seq<Entry>)
      reads this, Items()
      ensures |e| == |h|
    {
      seq(|h|, i requires 0 <= i < |h| reads this, Items() => Entry(h[i].item.atime, h[i].item.size, h[i].key.id))
    }

    predicate LessAt(i: nat, j: nat)
      requires i < |h| && j < |h|
      reads this, h[i].item, h[j].item
    {
      Less(Entry(h[i].item.atime, h[i].item.size, h[i].key.id), Entry(h[j].item.atime, h[j].item.size, h[j].key.id))
    }

    method Swap(i: nat, j: nat)
      requires Linked() && i < |h| && j < |h|
      modifies this`h, Items()`pos
      ensures Linked() && h == Swapped(old(h), i, j)
      ensures Entries() == Swapped(old(Entries()), i, j) && Members() == old(Members()) && |h| == old(|h|) && Items() == old(Items())
    {
      h := Swapped(h, i, j);
      h[i].item.pos := i;
      h[j].item.pos := j;
    }

    /** heap.up: the entry at `at` may be before its parent. */
    method Up(at: nat, ghost n: nat)
      requires Linked() && at < n <= |h| && Hole(Entries(), n, at) && Kids(Entries(), n, at)
      modifies this`h, Items()`pos
      ensures Linked() && Ordered(Entries(), n)
      ensures Members() == old(Members()) && |h| == old(|h|) && Items() == old(Items()) && h[n..] == old(h[n..])
    {
      var j: nat := at;
      while true
        invariant Linked() && j < n <= |h| && Hole(Entries(), n, j) && Kids(Entries(), n, j)
        invariant Members() == old(Members()) && |h| == old(|h|) && Items() == old(Items()) && h[n..] == old(h[n..])
        decreases j
      {
        var i := if j == 0 then 0 else (j - 1) / 2;
        if i == j || !LessAt(j, i) {
          HoleFilled(Entries(), n, j);
          return;
        }
        UpStep(Entries(), n, j);
        Swap(i, j);
        j := i;
      }
    }

    /** The child that heap.down compares with. */
    method LeastChild(i: nat, n: nat) returns (j: nat)
      requires i < n <= |h|
      ensures j < n ==> LeastKid(Entries(), n, i, j)
      ensures j >= n ==> Kids(Entries(), n, i)
    {
      j := 2 * i + 1;
      if j < n && j + 1 < n && LessAt(j + 1, j) {
        j := j + 1;
      }
    }

    /** heap.down: the entry at `at` may be after its children. */
    method Down(at: nat, n: nat) returns (moved: bool)
      requires Linked() && at < n <= |h| && Hole(Entries(), n, at)
      modifies this`h, Items()`pos
      ensures Linked() && (moved || at == 0 ==> Ordered(Entries(), n))
      ensures !moved ==> h == old(h) && Kids(Entries(), n, at) && Entries() == old(Entries())
      ensures Members() == old(Members()) && |h| == old(|h|) && Items() == old(Items()) && h[n..] == old(h[n..])
    {
      var i: nat := at;
      while true
        invariant Linked() && at <= i < n <= |h| && Hole(Entries(), n, i) && (i > at ==> Edge(Entries(), i))
        invariant i == at ==> h == old(h) && Entries() == old(Entries())
        invariant Members() == old(Members()) && |h| == old(|h|) && Items() == old(Items()) && h[n..] == old(h[n..])
        decreases n - i
      {
        var j := LeastChild(i, n);
        if j >= n {
          break;
        }
        if !LessAt(j, i) {
          NotAfterKids(Entries(), n, i, j);
          break;
        }
        DownStep(Entries(), n, i, j);
        Swap(i, j);
        i := j;
      }
      moved := i > at;
      if moved || at == 0 { HoleFilled(Entries(), n, i); }
    }

    /** heap.Fix, and the middle of heap.Remove: the entry at `i` can be anything. */
    method Sift(i: nat, n: nat)
      requires Linked() && i < n <= |h| && Hole(Entries(), n, i)
      modifies this`h, Items()`pos
      ensures Linked() && Ordered(Entries(), n)
      ensures Members() == old(Members()) && |h| == old(|h|) && Items() == old(Items()) && h[n..] == old(h[n..])
    {
      var moved := Down(i, n);
      if !moved {
        Up(i, n);
      }
    }

    ghost predicate Valid()
      reads this, Items()
    {
      Linked() && Ordered(Entries(), |h|)
    }

    /** heap.Push */
    method Push(x: HeapItem)
      requires Valid() && x.item !in Items()
      modifies this`h, x.item`pos, Items()`pos
      ensures Valid() && Members() == old(Members()) + {x} && Items() == old(Items()) + {x.item}
    {
      ghost var e := Entries();
      Appended(e, Entry(x.item.atime, x.item.size, x.key.id));
      Append(x);
      Up(|h| - 1, |h|);
    }

    /** atimeHeap.Push */
    method Append(x: HeapItem)
      requires Linked() && x.item !in Items()
      modifies this`h, x.item`pos
      ensures Linked() && h == old(h) + [x] && Items() == old(Items()) + {x.item}
      ensures Entries() == old(Entries()) + [Entry(x.item.atime, x.item.size, x.key.id)]
    {
      x.item.pos := |h|;
      h := h + [x];
    }

    /** atimeHeap.Pop */
    method DropLast() returns (x: HeapItem)
      requires Linked() && |h| > 0 && Ordered(Entries(), |h| - 1)
      modifies this`h, h[|h| - 1].item`pos
      ensures Valid() && old(h) == h + [x] && x.item.pos == NOT_IN_LRU
      ensures Members() == old(Members()) - {x} && Items() == old(Items()) - {x.item} && |h| == old(|h|) - 1
    {
      ghost var e := Entries();
      Shortened(Entries(), |h| - 1);
      x := h[|h| - 1];
      x.item.pos := NOT_IN_LRU;
      h := h[..|h| - 1];
      assert old(h) == h + [x];
      assert Entries() == e[..|h|];
    }

    /** heap.Pop */
    method Pop() returns (x: HeapItem)
      requires Valid() && |h| > 0
      modifies this`h, Items()`pos
      ensures Valid() && x == old(h[0]) && Members() == old(Members()) - {x}
      ensures Items() == old(Items()) - {x.item} && x.item.pos == NOT_IN_LRU && |h| == old(|h|) - 1
    {
      var n := |h| - 1;
      ghost var e := Entries();
      Swap(0, n);
      if n > 0 {
        Replaced(e, Entries(), n, 0);
        var _ := Down(0, n);
      }
      x := DropLast();
    }

    /** heap.Remove */
    method RemoveAt(i: nat) returns (x: HeapItem)
      requires Valid() && i < |h|
      modifies this`h, Items()`pos
      ensures Valid() && x == old(h[i]) && Members() == old(Members()) - {x}
      ensures Items() == old(Items()) - {x.item} && x.item.pos == NOT_IN_LRU && |h| == old(|h|) - 1
    {
      var n := |h| - 1;
      ghost var e := Entries();
      if n != i {
        Swap(i, n);
        Replaced(e, Entries(), n, i);
        Sift(i, n);
      }
      x := DropLast();
    }
  }
}
