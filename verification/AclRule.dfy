/** Access control rules and how they are stored. */
module AclRule {
  import opened Common

  type uint16 = n: nat | n < 0x1_0000

  datatype Entry = Entry(id: uint32, perm: uint16)

  datatype Rule = Rule(owner: uint16, group: uint16, mask: uint16, other: uint16, users: seq<Entry>, groups: seq<Entry>)

  /** Entries.IsEqual */
  method SameEntries(a: seq<Entry>, b: seq<Entry>) returns (eq: bool)
    ensures eq <==> a == b
  {
    if |a| != |b| {
      return false;
    }
    for i := 0 to |a|
      invariant a[..i] == b[..i]
    {
      if a[i].id != b[i].id || a[i].perm != b[i].perm {
        return false;
      }
    }
    return true;
  }

  /** Rule.IsEqual */
  method SameRule(r: Rule, s: Rule) returns (eq: bool)
    ensures eq <==> r == s
  {
    if r.owner != s.owner || r.group != s.group || r.mask != s.mask || r.other != s.other {
      return false;
    }
    eq := SameEntries(r.users, s.users);
    if eq {
      eq := SameEntries(r.groups, s.groups);
    }
  }

  // ---------------------------------------------------------------- encoding

  function EntryBytes(e: Entry): (b: seq<byte>)
    ensures |b| == 6
  {
    Put32(e.id) + Put16(e.perm)
  }

  function EntriesBytes(es: seq<Entry>): (b: seq<byte>)
    ensures |b| == 6 * |es|
  {
    if es == [] then [] else EntriesBytes(es[..|es| - 1]) + EntryBytes(es[|es| - 1])
  }

  /** A list can be stored with a count of 32 bits. */
  predicate Storable(r: Rule) {
    |r.users| < 0x1_0000_0000 && |r.groups| < 0x1_0000_0000
  }

  function HeadBytes(r: Rule): (b: seq<byte>)
    ensures |b| == 8
  {
    Put16(r.owner) + Put16(r.group) + Put16(r.mask) + Put16(r.other)
  }

  function Bytes(r: Rule): seq<byte>
    requires Storable(r)
  {
    HeadBytes(r) + Put32(|r.users| as uint32) + EntriesBytes(r.users) + Put32(|r.groups| as uint32) + EntriesBytes(r.groups)
  }

  method PutEntries(buf: seq<byte>, es: seq<Entry>) returns (b: seq<byte>)
    ensures b == buf + EntriesBytes(es)
  {
    b := buf;
    for i := 0 to |es|
      invariant b == buf + EntriesBytes(es[..i])
    {
      b := b + Put32(es[i].id) + Put16(es[i].perm);
      assert es[..i + 1][..i] == es[..i];
    }
    assert es[..|es|] == es;
  }

  /** Rule.Encode */
  method Encode(r: Rule) returns (buf: seq<byte>)
    requires Storable(r)
    ensures buf == Bytes(r)
  {
    buf := Put16(r.owner) + Put16(r.group) + Put16(r.mask) + Put16(r.other);
    buf := buf + Put32(|r.users| as uint32);
    buf := PutEntries(buf, r.users);
    buf := buf + Put32(|r.groups| as uint32);
    buf := PutEntries(buf, r.groups);
  }

  lemma EntryBack(e: Entry)
    ensures Entry(Get32(EntryBytes(e)[0..4]), Get16(EntryBytes(e)[4..6])) == e
  {
    assert EntryBytes(e)[0..4] == Put32(e.id) && EntryBytes(e)[4..6] == Put16(e.perm);
    Get32Put32(e.id);
  }

  /** A count and that many entries, read at `off`. */
  method GetEntries(buf: seq<byte>, off: nat, ghost es: seq<Entry>) returns (r: seq<Entry>, next: nat)
    requires |es| < 0x1_0000_0000 && off + 4 + 6 * |es| <= |buf|
    requires buf[off..off + 4] == Put32(|es| as uint32) && buf[off + 4..off + 4 + 6 * |es|] == EntriesBytes(es)
    ensures r == es && next == off + 4 + 6 * |es|
  {
    Get32Put32(|es| as uint32);
    var n := Get32(buf[off..off + 4]) as nat;
    next := off + 4;
    r := [];
    for i := 0 to n
      invariant next == off + 4 + 6 * i && r == es[..i]
    {
      EntryFound(buf, off + 4, es, i);
      r := r + [Entry(Get32(buf[next..next + 4]), Get16(buf[next + 4..next + 6]))];
      next := next + 6;
    }
  }

  lemma EntryFound(buf: seq<byte>, at: nat, es: seq<Entry>, i: nat)
    requires i < |es| && at + 6 * |es| <= |buf| && buf[at..at + 6 * |es|] == EntriesBytes(es)
    ensures var p := at + 6 * i; Entry(Get32(buf[p..p + 4]), Get16(buf[p + 4..p + 6])) == es[i]
  {
    var p := at + 6 * i;
    BytesFound(buf, at, es, i);
    SubSlice(buf, p, p + 6, 0, 4);
    SubSlice(buf, p, p + 6, 4, 6);
    EntryBack(es[i]);
  }

  lemma {:induction false} BytesFound(buf: seq<byte>, at: nat, es: seq<Entry>, i: nat)
    requires i < |es| && at + 6 * |es| <= |buf| && buf[at..at + 6 * |es|] == EntriesBytes(es)
    ensures buf[at + 6 * i..at + 6 * i + 6] == EntryBytes(es[i])
    decreases |es|
  {
    var n := |es| - 1;
    Halves(buf, at, EntriesBytes(es[..n]), EntryBytes(es[n]));
    if i < n {
      BytesFound(buf, at, es[..n], i);
    }
  }

  lemma Halves(buf: seq<byte>, at: nat, a: seq<byte>, b: seq<byte>)
    requires at + |a| + |b| <= |buf| && buf[at..at + |a| + |b|] == a + b
    ensures buf[at..at + |a|] == a && buf[at + |a|..at + |a| + |b|] == b
  {
    SliceOf(buf, at, a + b, 0, |a|);
    SliceOf(buf, at, a + b, |a|, |a| + |b|);
  }

  lemma Pieces(a: seq<byte>, b: seq<byte>, c: seq<byte>, d: seq<byte>, e: seq<byte>)
    ensures var s := a + b + c + d + e;
      && s[..|a|] == a && s[|a|..|a + b|] == b && s[|a + b|..|a + b + c|] == c
      && s[|a + b + c|..|a + b + c + d|] == d && s[|a + b + c + d|..] == e
  {
  }

  /** Rule.Decode gives back what Encode stored. */
  method Decode(buf: seq<byte>, ghost rule: Rule) returns (r: Rule)
    requires Storable(rule) && buf == Bytes(rule)
    ensures r == rule
  {
    Pieces(HeadBytes(rule), Put32(|rule.users| as uint32), EntriesBytes(rule.users), Put32(|rule.groups| as uint32), EntriesBytes(rule.groups));
    var owner, group, mask, other := GetHead(buf[..8], rule);
    var users, next := GetEntries(buf, 8, rule.users);
    var groups, _ := GetEntries(buf, next, rule.groups);
    r := Rule(owner, group, mask, other, users, groups);
  }

  method GetHead(b: seq<byte>, ghost r: Rule) returns (owner: uint16, group: uint16, mask: uint16, other: uint16)
    requires b == HeadBytes(r)
    ensures owner == r.owner && group == r.group && mask == r.mask && other == r.other
  {
    assert b[..2] == Put16(r.owner) && b[2..4] == Put16(r.group) && b[4..6] == Put16(r.mask) && b[6..8] == Put16(r.other);
    owner, group, mask, other := Get16(b[..2]), Get16(b[2..4]), Get16(b[4..6]), Get16(b[6..8]);
  }

  method RoundTrip(rule: Rule) returns (r: Rule)
    requires Storable(rule)
    ensures r == rule
  {
    var buf := Encode(rule);
    r := Decode(buf, rule);
  }
}
