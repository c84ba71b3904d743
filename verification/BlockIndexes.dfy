/** Which blocks a set of ranges touches. */
module BlockIndexes {
  import opened Common

  datatype Range = Range(off: nat, len: nat)

  /** The part of a range within the slice is not empty. */
  predicate Counts(p: Range, length: nat) {
    p.len > 0 && p.off < length
  }

  function First(p: Range, bsize: nat): nat
    requires bsize > 0
  {
    p.off / bsize
  }

  function Last(p: Range, length: nat, bsize: nat): nat
    requires bsize > 0 && Counts(p, length)
  {
    (Min(p.off + p.len, length) - 1) / bsize
  }

  /** Block `i` shares a byte with a range. */
  predicate Overlaps(p: Range, length: nat, bsize: nat, i: nat)
    requires bsize > 0
  {
    Counts(p, length) && First(p, bsize) <= i <= Last(p, length, bsize)
  }

  predicate InBlock(b: nat, bsize: nat, i: nat) {
    i * bsize <= b < i * bsize + bsize
  }

  /** That is what the quotients mean. */
  lemma OverlapIsShared(p: Range, length: nat, bsize: nat, i: nat)
    requires bsize > 0
    ensures Overlaps(p, length, bsize, i) <==> exists b: nat :: p.off <= b < Min(p.off + p.len, length) && InBlock(b, bsize, i)
  {
    if Overlaps(p, length, bsize, i) {
      var end := Min(p.off + p.len, length);
      Quotient(p.off, bsize, i);
      Quotient(end - 1, bsize, i);
      var b := if p.off < i * bsize then i * bsize else p.off;
      assert p.off <= b < end && InBlock(b, bsize, i);
    } else if exists b: nat :: p.off <= b < Min(p.off + p.len, length) && InBlock(b, bsize, i) {
      var b: nat :| p.off <= b < Min(p.off + p.len, length) && InBlock(b, bsize, i);
      Quotient(p.off, bsize, i);
      Quotient(Min(p.off + p.len, length) - 1, bsize, i);
    }
  }

  lemma Quotient(x: nat, bsize: nat, i: nat)
    requires bsize > 0
    ensures x / bsize <= i <==> x < i * bsize + bsize
    ensures i <= x / bsize <==> i * bsize <= x
  {
    var q, r := x / bsize, x % bsize;
    assert x == q * bsize + r;
    if q < i { MulStep(q, i, bsize); } else if i < q { MulStep(i, q, bsize); }
  }

  // ---------------------------------------------------------------- blockIndexes

  function Max(a: nat, b: nat): nat {
    if a > b then a else b
  }

  /** `next` after a part. */
  function Next(p: Range, length: nat, bsize: nat, next: nat): nat
    requires bsize > 0
  {
    if Counts(p, length) then Max(next, Last(p, length, bsize) + 1) else next
  }

  /** `next` after all parts. */
  function NextOf(parts: seq<Range>, length: nat, bsize: nat): nat
    requires bsize > 0
  {
    if parts == [] then 0 else Next(parts[|parts| - 1], length, bsize, NextOf(parts[..|parts| - 1], length, bsize))
  }

  /** Block `i` is collected for the part at `j`: it overlaps, and lies behind the blocks of
      all earlier parts. */
  predicate Collected(parts: seq<Range>, length: nat, bsize: nat, j: nat, i: nat)
    requires bsize > 0 && j < |parts|
  {
    Overlaps(parts[j], length, bsize, i) && NextOf(parts[..j], length, bsize) <= i
  }

  ghost predicate Selected(parts: seq<Range>, length: nat, bsize: nat, i: nat)
    requires bsize > 0
  {
    exists j: nat :: j < |parts| && Collected(parts, length, bsize, j, i)
  }

  predicate Ascending(s: seq<nat>) {
    forall a, b | 0 <= a < b < |s| :: s[a] < s[b]
  }

  lemma SelectedMore(parts: seq<Range>, length: nat, bsize: nat, j: nat, i: nat)
    requires bsize > 0 && j < |parts|
    ensures Selected(parts[..j + 1], length, bsize, i) <==>
      Selected(parts[..j], length, bsize, i) || Collected(parts, length, bsize, j, i)
  {
    var more, less := parts[..j + 1], parts[..j];
    assert forall k | 0 <= k <= j :: more[..k] == parts[..k];
    assert forall k | 0 <= k < j :: less[..k] == parts[..k];
    if Selected(less, length, bsize, i) {
      var k: nat :| k < |less| && Collected(less, length, bsize, k, i);
      assert Collected(more, length, bsize, k, i);
    }
    if Collected(parts, length, bsize, j, i) { assert Collected(more, length, bsize, j, i); }
    if Selected(more, length, bsize, i) {
      var k: nat :| k < |more| && Collected(more, length, bsize, k, i);
      if k < j { assert Collected(less, length, bsize, k, i); }
    }
  }

  /** The loop of blockIndexes. */
  method Collect(parts: seq<Range>, length: nat, bsize: nat) returns (indexes: seq<nat>)
    requires bsize > 0
    ensures Ascending(indexes) && forall i :: i in indexes <==> Selected(parts, length, bsize, i)
  {
    indexes := [];
    var next := 0;
    for j := 0 to |parts|
      invariant next == NextOf(parts[..j], length, bsize) && Ascending(indexes) && Below(indexes, next)
      invariant forall i :: i in indexes <==> Selected(parts[..j], length, bsize, i)
    {
      assert parts[..j + 1][..j] == parts[..j];
      ghost var was := indexes;
      indexes, next := AddPart(parts[j], length, bsize, indexes, next);
      forall i: nat ensures i in indexes <==> Selected(parts[..j + 1], length, bsize, i) {
        SelectedMore(parts, length, bsize, j, i);
        assert i in was <==> Selected(parts[..j], length, bsize, i);
      }
    }
    assert parts[..|parts|] == parts;
  }

  predicate Below(s: seq<nat>, n: nat) {
    forall a | 0 <= a < |s| :: s[a] < n
  }

  /** One round of the loop. */
  method AddPart(p: Range, length: nat, bsize: nat, indexes: seq<nat>, next: nat) returns (indexes': seq<nat>, next': nat)
    requires bsize > 0 && Ascending(indexes) && Below(indexes, next)
    ensures next' == Next(p, length, bsize, next) && Ascending(indexes') && Below(indexes', next')
    ensures forall i: nat :: i in indexes' <==> i in indexes || (Overlaps(p, length, bsize, i) && next <= i)
  {
    indexes', next' := indexes, next;
    if Counts(p, length) {
      var first, last := Max(First(p, bsize), next), Last(p, length, bsize);
      indexes' := Append(indexes, first, last);
      next' := Max(next, last + 1);
      Quotient(p.off, bsize, last);
      Quotient(Min(p.off + p.len, length) - 1, bsize, last);
    }
  }

  method Append(indexes: seq<nat>, first: nat, last: nat) returns (r: seq<nat>)
    requires Ascending(indexes) && Below(indexes, first)
    ensures Ascending(r) && Below(r, Max(first, last + 1)) && (forall k :: k in r <==> k in indexes || first <= k <= last)
  {
    r := indexes;
    var i := first;
    while i <= last
      invariant first <= i <= Max(first, last + 1) && Ascending(r) && Below(r, i)
      invariant forall k :: k in r <==> k in indexes || first <= k < i
    {
      r := r + [i];
      i := i + 1;
    }
  }

  /** blockIndexes: no parts select the whole slice. */
  method BlocksOf(parts: seq<Range>, length: int, bsize: nat) returns (indexes: seq<nat>)
    requires bsize > 0
    ensures Ascending(indexes) && (length <= 0 ==> indexes == [])
    ensures length > 0 && parts != [] ==> forall i :: i in indexes <==> Selected(parts, length, bsize, i)
    ensures length > 0 && parts == [] ==> forall i :: i in indexes <==> 0 <= i && i * bsize < length
  {
    if length <= 0 {
      return [];
    }
    var ps := if parts == [] then [Range(0, length)] else parts;
    indexes := Collect(ps, length, bsize);
    if parts == [] {
      forall i: nat ensures Selected(ps, length, bsize, i) <==> i * bsize < length {
        Quotient(length - 1, bsize, i);
        assert Collected(ps, length, bsize, 0, i) <==> i * bsize < length;
      }
    }
  }

  // ---------------------------------------------------------------- what is selected

  /** A part goes at least as far as block `i`. */
  predicate Reaches(p: Range, length: nat, bsize: nat, i: nat)
    requires bsize > 0
  {
    Counts(p, length) && i <= Last(p, length, bsize)
  }

  predicate FirstReach(parts: seq<Range>, length: nat, bsize: nat, k: nat, i: nat)
    requires bsize > 0
  {
    k < |parts| && Reaches(parts[k], length, bsize, i) && forall j | 0 <= j < k :: !Reaches(parts[j], length, bsize, i)
  }

  lemma {:induction false} NextBelow(parts: seq<Range>, length: nat, bsize: nat, i: nat)
    requires bsize > 0
    ensures NextOf(parts, length, bsize) <= i <==> forall j | 0 <= j < |parts| :: !Reaches(parts[j], length, bsize, i)
  {
    if parts != [] {
      NextBelow(parts[..|parts| - 1], length, bsize, i);
    }
  }

  /** A block is selected exactly if the first part that reaches it does not start behind it. */
  lemma SelectedIff(parts: seq<Range>, length: nat, bsize: nat, i: nat)
    requires bsize > 0
    ensures Selected(parts, length, bsize, i) <==>
      exists k: nat :: FirstReach(parts, length, bsize, k, i) && First(parts[k], bsize) <= i
  {
    forall k: nat | k < |parts|
      ensures Collected(parts, length, bsize, k, i) <==> FirstReach(parts, length, bsize, k, i) && First(parts[k], bsize) <= i
    {
      NextBelow(parts[..k], length, bsize, i);
      assert forall j | 0 <= j < k :: parts[..k][j] == parts[j];
    }
  }

  /** Only blocks of the parts are selected. */
  lemma SelectedOverlaps(parts: seq<Range>, length: nat, bsize: nat, i: nat)
    requires bsize > 0 && Selected(parts, length, bsize, i)
    ensures exists j: nat :: j < |parts| && Overlaps(parts[j], length, bsize, i)
  {
    var j: nat :| j < |parts| && Collected(parts, length, bsize, j, i);
  }

  lemma {:induction false} SomeFirst(parts: seq<Range>, length: nat, bsize: nat, j: nat, i: nat) returns (k: nat)
    requires bsize > 0 && j < |parts| && Reaches(parts[j], length, bsize, i)
    ensures k <= j && FirstReach(parts, length, bsize, k, i)
    decreases j
  {
    if earlier: nat :| earlier < j && Reaches(parts[earlier], length, bsize, i) {
      k := SomeFirst(parts, length, bsize, earlier, i);
    } else {
      k := j;
    }
  }

  /** For parts in order of their offsets, all their blocks are. */
  lemma SortedSelectsAll(parts: seq<Range>, length: nat, bsize: nat, j: nat, i: nat)
    requires bsize > 0 && j < |parts| && Overlaps(parts[j], length, bsize, i)
    requires forall a, b | 0 <= a < b < |parts| :: parts[a].off <= parts[b].off
    ensures Selected(parts, length, bsize, i)
  {
    var k := SomeFirst(parts, length, bsize, j, i);
    Quotient(parts[k].off, bsize, First(parts[j], bsize));
    Quotient(parts[j].off, bsize, First(parts[j], bsize));
    SelectedIff(parts, length, bsize, i);
    assert FirstReach(parts, length, bsize, k, i) && First(parts[k], bsize) <= i;
  }

  /** Out of order, a block can be lost. */
  lemma UnsortedLoses()
    ensures var parts := [Range(4, 4), Range(0, 4)];
      Overlaps(parts[1], 8, 4, 0) && !Selected(parts, 8, 4, 0)
  {
    var parts := [Range(4, 4), Range(0, 4)];
    SelectedIff(parts, 8, 4, 0);
    assert Reaches(parts[0], 8, 4, 0);
  }
}
