/** Machine numbers and Go's arithmetic. */
module Common {

  newtype byte = x: int | 0 <= x < 0x100

  newtype uint32 = x: int | 0 <= x < 0x1_0000_0000

  /** A block name, `<slice id>_<index>_<size>`. */
  datatype Key = Key(id: nat, indx: nat, size: nat)

  function Min(a: int, b: int): int {
    if a < b then a else b
  }

  lemma SizeMono<T>(a: set<T>, b: set<T>)
    requires a <= b
    ensures |a| <= |b| && (|a| == |b| ==> a == b)
  {
    assert b == a + (b - a);
  }

  /** Go's integer division truncates toward zero. */
  function TruncDiv(a: int, b: nat): int
    requires b > 0
  {
    if a >= 0 then a / b else -(-a / b)
  }

  /** A Go conversion of an int to uint32. */
  function Uint32(n: int): uint32 {
    (n % 0x1_0000_0000) as uint32
  }

  /** Big endian, as utils.Buffer writes it. */
  function Put32(v: uint32): (b: seq<byte>)
    ensures |b| == 4
  {
    var n := v as int;
    [(n / 0x100_0000) as byte, (n / 0x1_0000 % 0x100) as byte, (n / 0x100 % 0x100) as byte, (n % 0x100) as byte]
  }

  function Get32(b: seq<byte>): uint32
    requires |b| == 4
  {
    (b[0] as int * 0x100_0000 + b[1] as int * 0x1_0000 + b[2] as int * 0x100 + b[3] as int) as uint32
  }

  lemma Get32Put32(v: uint32)
    ensures Get32(Put32(v)) == v
  {
    var n := v as int;
    assert n / 0x100 / 0x100 == n / 0x1_0000 && n / 0x1_0000 / 0x100 == n / 0x100_0000;
  }

  function Put16(v: nat): (b: seq<byte>)
    requires v < 0x1_0000
    ensures |b| == 2
  {
    [(v / 0x100) as byte, (v % 0x100) as byte]
  }

  function Get16(b: seq<byte>): (v: nat)
    requires |b| == 2
    ensures v < 0x1_0000 && Put16(v) == b
  {
    b[0] as int * 0x100 + b[1] as int
  }

  function Put64(v: nat): (b: seq<byte>)
    requires v < 0x1_0000_0000_0000_0000
    ensures |b| == 8
  {
    Put32((v / 0x1_0000_0000) as uint32) + Put32((v % 0x1_0000_0000) as uint32)
  }

  function Get64(b: seq<byte>): (v: nat)
    requires |b| == 8
    ensures v < 0x1_0000_0000_0000_0000
  {
    Get32(b[..4]) as nat * 0x1_0000_0000 + Get32(b[4..]) as nat
  }

  lemma Get64Put64(v: nat)
    requires v < 0x1_0000_0000_0000_0000
    ensures Get64(Put64(v)) == v
  {
    var hi, lo := (v / 0x1_0000_0000) as uint32, (v % 0x1_0000_0000) as uint32;
    assert Put64(v)[..4] == Put32(hi) && Put64(v)[4..] == Put32(lo);
    Get32Put32(hi);
    Get32Put32(lo);
  }

  datatype Option<T> = None | Some(value: T)

  lemma SubSlice(s: seq<byte>, a: nat, b: nat, c: nat, d: nat)
    requires c <= d && a + d <= b <= |s|
    ensures s[a..b][c..d] == s[a + c..a + d]
  {
    var x, y := s[a..b][c..d], s[a + c..a + d];
    assert |x| == |y|;
    forall i | 0 <= i < |x| ensures x[i] == y[i] {
      assert x[i] == s[a..b][c + i] && y[i] == s[a + c + i];
    }
  }

  lemma SliceOf(s: seq<byte>, at: nat, b: seq<byte>, c: nat, d: nat)
    requires at + |b| <= |s| && s[at..at + |b|] == b && c <= d <= |b|
    ensures s[at + c..at + d] == b[c..d]
  {
    SubSlice(s, at, at + |b|, c, d);
  }

  lemma MulStep(a: nat, b: nat, n: nat)
    requires a < b
    ensures a * n + n <= b * n
  {
    var d := b - a - 1;
    assert b * n == a * n + n + d * n;
  }
}
