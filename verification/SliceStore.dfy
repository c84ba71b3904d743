/** Writing a slice: paged buffers, zero filling and partial flushes refine a flat byte array. */
module SliceStore {
  import opened Common

  const CHUNK: nat := 0x400_0000           // chunkSize, 64 MiB
  const PAGE: nat := 0x1_0000              // pageSize, 64 KiB

  /** `i` times `n`, by repeated addition: where block or page `i` starts. */
  function Times(i: nat, n: nat): nat {
    if i == 0 then 0 else Times(i - 1, n) + n
  }

  lemma {:induction false} TimesIsProduct(i: nat, n: nat)
    ensures Times(i, n) == i * n
  {
    if i > 0 {
      TimesIsProduct(i - 1, n);
      assert i * n == (i - 1) * n + n;
    }
  }

  lemma {:induction false} TimesStep(a: nat, b: nat, n: nat)
    requires a < b
    ensures Times(a, n) + n <= Times(b, n)
  {
    if a < b - 1 { TimesStep(a, b - 1, n); }
  }

  // ---------------------------------------------------------------- the flat byte array

  function Zeros(n: nat): (z: seq<byte>)
    ensures |z| == n
  {
    seq(n, _ => 0)
  }

  /** The array with `d` written at `off`, which is not past its end. */
  function Overwrite(c: seq<byte>, off: nat, d: seq<byte>): (r: seq<byte>)
    requires off <= |c|
    ensures |r| == if off + |d| > |c| then off + |d| else |c|
  {
    c[..off] + d + if off + |d| <= |c| then c[off + |d|..] else []
  }

  /** Last write wins, and a gap is filled with zeros. */
  function Written(c: seq<byte>, off: nat, d: seq<byte>): seq<byte> {
    Overwrite(if off > |c| then c + Zeros(off - |c|) else c, off, d)
  }

  /** Block `i` of an array cut into blocks of `bsize` bytes. */
  function Block(c: seq<byte>, bsize: nat, i: nat): seq<byte>
    requires Times(i, bsize) <= |c|
  {
    c[Times(i, bsize)..Min(Times(i, bsize) + bsize, |c|)]
  }

  // ---------------------------------------------------------------- pages

  /** A page buffer: `mem` has the capacity of the page, and the slice covers the first
      `len` bytes of it.  What lies behind is left over from earlier uses. */
  datatype Page = Page(mem: seq<byte>, len: nat)

  /** The page holds the bytes of `c` from `s` on, as far as they go. */
  predicate PageOk(p: Page, c: seq<byte>, s: nat, bs: nat) {
    && |p.mem| == bs && s < |c| && p.len == Min(bs, |c| - s)
    && forall j {:trigger p.mem[j]} | 0 <= j < p.len :: p.mem[j] == c[s + j]
  }

  /** The bytes of a block of `bsize` bytes at `start` that exist so far. */
  function Fill(len: nat, start: nat, bsize: nat): nat {
    if len <= start then 0 else Min(len - start, bsize)
  }

  /** `k` pages of `bs` bytes are what `n` bytes need. */
  predicate CountOk(k: nat, n: nat, bs: nat) {
    n <= Times(k, bs) && (k > 0 ==> Times(k - 1, bs) < n)
  }

  /** Where page `q` of a block at `start` begins. */
  function At(start: nat, q: nat, bs: nat): nat {
    start + Times(q, bs)
  }

  predicate PageAt(ps: seq<Page>, c: seq<byte>, start: nat, bs: nat, q: nat)
    requires q < |ps|
  {
    PageOk(ps[q], c, At(start, q, bs), bs)
  }

  predicate BlockOk(ps: seq<Page>, c: seq<byte>, start: nat, bsize: nat, bs: nat) {
    && CountOk(|ps|, Fill(|c|, start, bsize), bs)
    && forall q {:trigger PageAt(ps, c, start, bs, q)} | 0 <= q < |ps| :: PageAt(ps, c, start, bs, q)
  }

  /** Page size: the first block grows in small pages, the others are one page each. */
  function PageSize(i: nat, bsize: nat): nat {
    if i > 0 || PAGE > bsize then bsize else PAGE
  }

  /** A block size, the blocks of a chunk and the pages of its first block. */
  datatype Layout = Layout(bsize: nat, blocks: nat, small: nat)

  /** Chunks are whole numbers of blocks, and blocks whole numbers of pages. */
  predicate Fits(l: Layout) {
    l.bsize > 0 && Times(l.blocks, l.bsize) == CHUNK && Times(l.small, PageSize(0, l.bsize)) == l.bsize
  }

  // ---------------------------------------------------------------- one page is written

  /** `c'` is `c` with `d` written at `pos`. */
  predicate Wrote(c: seq<byte>, c': seq<byte>, pos: nat, d: seq<byte>) {
    && pos <= |c| && |c'| == (if pos + |d| > |c| then pos + |d| else |c|)
    && forall j {:trigger c'[j]} | 0 <= j < |c'| :: c'[j] == if pos <= j < pos + |d| then d[j - pos] else c[j]
  }

  lemma OverwriteWrites(c: seq<byte>, pos: nat, d: seq<byte>)
    requires pos <= |c|
    ensures Wrote(c, Overwrite(c, pos, d), pos, d)
  {
  }

  lemma PageElsewhere(p: Page, c: seq<byte>, c': seq<byte>, s: nat, bs: nat, pos: nat, d: seq<byte>)
    requires PageOk(p, c, s, bs) && Wrote(c, c', pos, d)
    requires s + bs <= pos || pos + |d| <= s
    ensures PageOk(p, c', s, bs)
  {
  }

  /** The page after `d` is copied to offset `bo`. */
  function PageWith(p: Page, bo: nat, d: seq<byte>): Page
    requires bo + |d| <= |p.mem|
  {
    Page(Overwrite(p.mem, bo, d), if p.len < bo + |d| then bo + |d| else p.len)
  }

  lemma PageHere(p: Page, c: seq<byte>, c': seq<byte>, s: nat, bs: nat, bo: nat, d: seq<byte>)
    requires |p.mem| == bs && bo + |d| <= bs && |d| > 0 && Wrote(c, c', s + bo, d)
    requires PageOk(p, c, s, bs) || (bo == 0 && s == |c| && p.len == 0)
    ensures PageOk(PageWith(p, bo, d), c', s, bs)
  {
    var p' := PageWith(p, bo, d);
    OverwriteWrites(p.mem, bo, d);
    forall j | 0 <= j < p'.len ensures p'.mem[j] == c'[s + j] {
      if j < p.len && !(bo <= j < bo + |d|) { assert p.mem[j] == c[s + j]; }
    }
  }

  // ---------------------------------------------------------------- one block is written

  /** A page of a block ends inside the block. */
  lemma PageFits(q: nat, bs: nat, m: nat, n: nat)
    requires Times(q, bs) < n <= Times(m, bs)
    ensures Times(q, bs) + bs <= Times(m, bs)
  {
    if q >= m {
      if q > m { TimesStep(m, q, bs); }
    } else {
      TimesStep(q, m, bs);
    }
  }

  /** The page at offset `bo` behind page `bi` exists, or is the next to be added. */
  lemma PageIndex(k: nat, n: nat, bs: nat, bi: nat, bo: nat)
    requires CountOk(k, n, bs) && bo < bs && Times(bi, bs) + bo <= n
    ensures bi <= k
    ensures bi == k ==> bo == 0 && n == Times(bi, bs)
  {
    if bi > k { TimesStep(k, bi, bs); }
  }

  /** The page count of the block after the write. */
  lemma CountHere(k: nat, len: nat, start: nat, bsize: nat, bs: nat, m: nat, bi: nat, bo: nat, d: nat)
    requires bs > 0 && bsize == Times(m, bs) && bo + d <= bs && d > 0 && bi < m
    requires At(start, bi, bs) + bo <= len && CountOk(k, Fill(len, start, bsize), bs)
    ensures bi <= k && (bi == k ==> bo == 0 && At(start, bi, bs) == len)
    ensures var pos := At(start, bi, bs) + bo;
            CountOk(if bi < k then k else k + 1, Fill(if pos + d > len then pos + d else len, start, bsize), bs)
  {
    TimesStep(bi, m, bs);
    PageIndex(k, Fill(len, start, bsize), bs, bi, bo);
    if bi < k - 1 { TimesStep(bi, k - 1, bs); }
  }

  /** The pages of a block after `d` is copied to offset `bo` of page `bi`, which may be new. */
  function PagesWith(ps: seq<Page>, p: Page, bi: nat, bo: nat, d: seq<byte>): (r: seq<Page>)
    requires bo + |d| <= |p.mem|
  {
    if bi < |ps| then ps[bi := PageWith(p, bo, d)] else ps + [PageWith(p, bo, d)]
  }

  lemma RangesApart(start: nat, bs: nat, bi: nat, bo: nat, d: nat, q: nat)
    requires q != bi && bo + d <= bs
    ensures At(start, q, bs) + bs <= At(start, bi, bs) + bo || At(start, bi, bs) + bo + d <= At(start, q, bs)
  {
    if q < bi { TimesStep(q, bi, bs); } else { TimesStep(bi, q, bs); }
  }

  lemma BlockHere(ps: seq<Page>, p: Page, c: seq<byte>, c': seq<byte>, start: nat, bsize: nat, bs: nat, m: nat, bi: nat, bo: nat, d: seq<byte>)
    requires bs > 0 && bsize == Times(m, bs) && bo + |d| <= bs && |d| > 0 && bi < m && |p.mem| == bs
    requires BlockOk(ps, c, start, bsize, bs) && Wrote(c, c', At(start, bi, bs) + bo, d)
    requires if bi < |ps| then p == ps[bi] else p.len == 0
    ensures bi <= |ps|
    ensures BlockOk(PagesWith(ps, p, bi, bo, d), c', start, bsize, bs)
  {
    CountHere(|ps|, |c|, start, bsize, bs, m, bi, bo, |d|);
    assert bi < |ps| ==> PageAt(ps, c, start, bs, bi);
    PageHere(p, c, c', At(start, bi, bs), bs, bo, d);
    var ps' := PagesWith(ps, p, bi, bo, d);
    forall q | 0 <= q < |ps'| ensures PageAt(ps', c', start, bs, q) {
      if q != bi {
        assert PageAt(ps, c, start, bs, q);
        RangesApart(start, bs, bi, bo, |d|, q);
        PageElsewhere(ps[q], c, c', At(start, q, bs), bs, At(start, bi, bs) + bo, d);
      }
    }
  }

  lemma PageInside(k: nat, len: nat, start: nat, bsize: nat, bs: nat, m: nat, q: nat)
    requires bs > 0 && bsize == Times(m, bs) && CountOk(k, Fill(len, start, bsize), bs) && q < k
    ensures At(start, q, bs) + bs <= start + bsize && start <= At(start, q, bs)
  {
    if q < k - 1 { TimesStep(q, k - 1, bs); }
    PageFits(q, bs, m, Fill(len, start, bsize));
  }

  /** The pages of another block are not touched. */
  lemma BlockElsewhere(ps: seq<Page>, c: seq<byte>, c': seq<byte>, start: nat, bsize: nat, bs: nat, m: nat, pos: nat, d: seq<byte>)
    requires bs > 0 && bsize == Times(m, bs) && BlockOk(ps, c, start, bsize, bs) && Wrote(c, c', pos, d)
    requires start + bsize <= pos || pos + |d| <= start
    ensures BlockOk(ps, c', start, bsize, bs)
  {
    forall q | 0 <= q < |ps| ensures PageAt(ps, c', start, bs, q) {
      assert PageAt(ps, c, start, bs, q);
      PageInside(|ps|, |c|, start, bsize, bs, m, q);
      PageElsewhere(ps[q], c, c', At(start, q, bs), bs, pos, d);
    }
  }

  // ---------------------------------------------------------------- all blocks

  /** How many pages a block has. */
  function PagesPerBlock(i: nat, l: Layout): (m: nat)
    requires Fits(l)
    ensures PageSize(i, l.bsize) > 0 && m > 0 && l.bsize == Times(m, PageSize(i, l.bsize))
  {
    if i > 0 then assert Times(1, l.bsize) == Times(0, l.bsize) + l.bsize; 1 else l.small
  }

  predicate BlockAt(pages: seq<seq<Page>>, c: seq<byte>, bsize: nat, uploaded: nat, i: nat)
    requires i < |pages|
  {
    if Times(i, bsize) < uploaded then pages[i] == []
    else BlockOk(pages[i], c, Times(i, bsize), bsize, PageSize(i, bsize))
  }

  /** Blocks below `uploaded` have been handed over; the others hold the bytes of `c`. */
  ghost predicate PagesOk(pages: seq<seq<Page>>, c: seq<byte>, bsize: nat, uploaded: nat) {
    forall i {:trigger BlockAt(pages, c, bsize, uploaded, i)} | 0 <= i < |pages| :: BlockAt(pages, c, bsize, uploaded, i)
  }

  lemma BlocksApart(bsize: nat, i: nat, j: nat, off: nat, d: nat)
    requires i != j && off + d <= bsize
    ensures Times(j, bsize) + bsize <= Times(i, bsize) + off || Times(i, bsize) + off + d <= Times(j, bsize)
  {
    if j < i { TimesStep(j, i, bsize); } else { TimesStep(i, j, bsize); }
  }

  lemma BlockApart(ps: seq<Page>, c: seq<byte>, c': seq<byte>, l: Layout, i: nat, j: nat, off: nat, d: seq<byte>)
    requires Fits(l) && i != j && off + |d| <= l.bsize && Wrote(c, c', Times(i, l.bsize) + off, d)
    requires BlockOk(ps, c, Times(j, l.bsize), l.bsize, PageSize(j, l.bsize))
    ensures BlockOk(ps, c', Times(j, l.bsize), l.bsize, PageSize(j, l.bsize))
  {
    var bsize := l.bsize;
    BlocksApart(bsize, i, j, off, |d|);
    BlockElsewhere(ps, c, c', Times(j, bsize), bsize, PageSize(j, bsize), PagesPerBlock(j, l), Times(i, bsize) + off, d);
  }

  lemma WriteKeepsPages(pages: seq<seq<Page>>, ps: seq<Page>, c: seq<byte>, c': seq<byte>, l: Layout, uploaded: nat, i: nat, off: nat, d: seq<byte>)
    requires Fits(l) && PagesOk(pages, c, l.bsize, uploaded) && i < |pages| && uploaded <= Times(i, l.bsize)
    requires off + |d| <= l.bsize && Wrote(c, c', Times(i, l.bsize) + off, d)
    requires BlockOk(ps, c', Times(i, l.bsize), l.bsize, PageSize(i, l.bsize))
    ensures PagesOk(pages[i := ps], c', l.bsize, uploaded)
  {
    var pages' := pages[i := ps];
    forall j | 0 <= j < |pages'| ensures BlockAt(pages', c', l.bsize, uploaded, j) {
      if j != i {
        assert BlockAt(pages, c, l.bsize, uploaded, j);
        if Times(j, l.bsize) >= uploaded { BlockApart(pages[j], c, c', l, i, j, off, d); }
      }
    }
  }

  // ---------------------------------------------------------------- positions

  /** Quotient and remainder. */
  method Split(a: nat, b: nat) returns (q: nat, r: nat)
    requires b > 0
    ensures a == Times(q, b) + r && r < b
  {
    q, r := a / b, a % b;
    TimesIsProduct(q, b);
  }

  lemma TimesOrder(i: nat, j: nat, n: nat)
    requires Times(i, n) < Times(j, n) + n
    ensures i <= j && Times(i, n) <= Times(j, n)
  {
    if j < i { TimesStep(j, i, n); } else if i < j { TimesStep(i, j, n); }
  }

  lemma TimesBelow(i: nat, j: nat, n: nat)
    requires Times(i, n) < Times(j, n)
    ensures i < j
  {
    if j < i { TimesStep(j, i, n); }
  }

  /** Byte `off` of block `indx` is byte `bo` of its page `bi`, of `bs` bytes. */
  predicate Lies(l: Layout, indx: nat, off: nat, bs: nat, bi: nat, bo: nat)
    requires Fits(l)
  {
    && indx < l.blocks && off < l.bsize && bs == PageSize(indx, l.bsize)
    && bi < PagesPerBlock(indx, l) && bo < bs && off == Times(bi, bs) + bo
  }

  lemma PageShape(pages: seq<seq<Page>>, c: seq<byte>, l: Layout, uploaded: nat, indx: nat, bi: nat)
    requires PagesOk(pages, c, l.bsize, uploaded) && indx < |pages| && bi < |pages[indx]|
    ensures |pages[indx][bi].mem| == PageSize(indx, l.bsize) && pages[indx][bi].len <= PageSize(indx, l.bsize)
  {
    assert BlockAt(pages, c, l.bsize, uploaded, indx);
    assert PageAt(pages[indx], c, Times(indx, l.bsize), PageSize(indx, l.bsize), bi);
  }

  /** All pages after `d` is copied to one of them. */
  lemma WritePage(pages: seq<seq<Page>>, p: Page, c: seq<byte>, l: Layout, uploaded: nat, flushed: nat, pos: nat, indx: nat, off: nat, bs: nat, bi: nat, bo: nat, d: seq<byte>)
    requires Fits(l) && |pages| == l.blocks && PagesOk(pages, c, l.bsize, uploaded)
    requires Lies(l, indx, off, bs, bi, bo) && |d| > 0 && bo + |d| <= bs == |p.mem|
    requires uploaded == Times(flushed, l.bsize) <= pos == Times(indx, l.bsize) + off <= |c|
    requires if bi < |pages[indx]| then p == pages[indx][bi] else p.len == 0
    ensures PagesOk(pages[indx := PagesWith(pages[indx], p, bi, bo, d)], Overwrite(c, pos, d), l.bsize, uploaded)
  {
    var c' := Overwrite(c, pos, d);
    OverwriteWrites(c, pos, d);
    TimesOrder(flushed, indx, l.bsize);
    TimesStep(bi, PagesPerBlock(indx, l), bs);
    assert BlockAt(pages, c, l.bsize, uploaded, indx);
    BlockHere(pages[indx], p, c, c', Times(indx, l.bsize), l.bsize, bs, PagesPerBlock(indx, l), bi, bo, d);
    WriteKeepsPages(pages, PagesWith(pages[indx], p, bi, bo, d), c, c', l, uploaded, indx, off, d);
  }

  // ---------------------------------------------------------------- wSlice

  /** The blocks handed over so far are the right ones. */
  predicate SentAt(sent: map<nat, seq<byte>>, c: seq<byte>, bsize: nat, flushed: nat, i: nat) {
    && (i in sent <==> i < flushed && Times(i, bsize) < |c|)
    && (i in sent ==> sent[i] == Block(c, bsize, i))
  }

  ghost predicate SentOk(sent: map<nat, seq<byte>>, c: seq<byte>, bsize: nat, flushed: nat) {
    forall i {:trigger SentAt(sent, c, bsize, flushed, i)} :: SentAt(sent, c, bsize, flushed, i)
  }

  lemma BlockKept(c: seq<byte>, c': seq<byte>, bsize: nat, i: nat, pos: nat, d: seq<byte>)
    requires Wrote(c, c', pos, d) && Times(i, bsize) + bsize <= pos
    ensures Block(c', bsize, i) == Block(c, bsize, i)
  {
    var s := Times(i, bsize);
    assert forall j | s <= j < s + bsize :: c'[j] == c[j];
  }

  /** A write behind the flushed blocks does not change them. */
  lemma SentKept(sent: map<nat, seq<byte>>, c: seq<byte>, c': seq<byte>, bsize: nat, flushed: nat, pos: nat, d: seq<byte>)
    requires bsize > 0 && SentOk(sent, c, bsize, flushed) && Wrote(c, c', pos, d) && Times(flushed, bsize) <= pos
    ensures SentOk(sent, c', bsize, flushed)
  {
    forall i: nat ensures SentAt(sent, c', bsize, flushed, i) {
      assert SentAt(sent, c, bsize, flushed, i);
      if i < flushed {
        TimesStep(i, flushed, bsize);
        BlockKept(c, c', bsize, i, pos, d);
      }
    }
  }

  lemma OverwriteTwice(c: seq<byte>, off: nat, p: seq<byte>, n: nat, m: nat)
    requires off <= |c| && n + m <= |p|
    ensures Overwrite(Overwrite(c, off, p[..n]), off + n, p[n..n + m]) == Overwrite(c, off, p[..n + m])
  {
    var a, b := Overwrite(Overwrite(c, off, p[..n]), off + n, p[n..n + m]), Overwrite(c, off, p[..n + m]);
    OverwriteWrites(c, off, p[..n]);
    OverwriteWrites(Overwrite(c, off, p[..n]), off + n, p[n..n + m]);
    OverwriteWrites(c, off, p[..n + m]);
    assert |a| == |b| && forall j | 0 <= j < |a| :: a[j] == b[j];
  }

  lemma OverwriteNothing(c: seq<byte>, off: nat)
    requires off <= |c|
    ensures Overwrite(c, off, []) == c
  {
  }

  lemma OverwriteAtEnd(c: seq<byte>, d: seq<byte>)
    ensures Written(c, |c|, d) == c + d
  {
  }

  datatype Finished = Ok | LengthMismatch | UploadError

  class WSlice {
    const lay: Layout                      // from the configured block size
    var length: nat
    var uploaded: nat
    var pages: seq<seq<Page>>
    var pendings: nat
    var sent: map<nat, seq<byte>>          // blocks handed to an upload goroutine
    ghost var content: seq<byte>           // the flat byte array
    ghost var flushed: nat                 // blocks below `uploaded`

    /** The content, block by block, has been handed over or is in the pages. */
    ghost predicate Valid()
      reads this
    {
      && Fits(lay) && length == |content| <= CHUNK && |pages| == lay.blocks
      && uploaded == Times(flushed, lay.bsize) && flushed <= lay.blocks
      && PagesOk(pages, content, lay.bsize, uploaded)
      && pendings == |sent| && SentOk(sent, content, lay.bsize, flushed)
    }

    /** sliceForWrite */
    constructor (lay: Layout)
      requires Fits(lay)
      ensures Valid() && content == [] && uploaded == 0 && this.lay == lay
    {
      this.lay := lay;
      length, uploaded, pendings, flushed := 0, 0, 0, 0;
      pages := seq(lay.blocks, _ => []);
      sent := map[];
      content := [];
    }

    /** allocPage: the buffer may hold bytes of an earlier use. */
    method AllocPage(bs: nat) returns (p: Page)
      ensures |p.mem| == bs && p.len == 0
    {
      var buffer := new byte[bs];
      p := Page(buffer[..], 0);
    }

    /** The block and the page a byte goes to, as WriteAt computes them. */
    method Locate(pos: nat) returns (indx: nat, boff: nat, bs: nat, bi: nat, bo: nat)
      requires Fits(lay) && pos < CHUNK
      ensures pos == Times(indx, lay.bsize) + boff && Lies(lay, indx, boff, bs, bi, bo)
    {
      indx, boff := Split(pos, lay.bsize);
      bs := PAGE;
      if indx > 0 || bs > lay.bsize {
        bs := lay.bsize;
      }
      bi, bo := Split(boff, bs);
      TimesBelow(indx, lay.blocks, lay.bsize);
      TimesBelow(bi, PagesPerBlock(indx, lay), bs);
    }

    /** One round of WriteAt's loop: copy as much of `p[n..]` as fits into one page. */
    method WriteSome(ghost c: seq<byte>, p: seq<byte>, off: nat, n: nat) returns (m: nat)
      requires Fits(lay) && |pages| == lay.blocks && PagesOk(pages, c, lay.bsize, uploaded)
      requires uploaded == Times(flushed, lay.bsize) <= off + n <= |c| && n < |p| && off + |p| <= CHUNK
      modifies this`pages
      ensures 0 < m && n + m <= |p| && |pages| == lay.blocks
      ensures PagesOk(pages, Overwrite(c, off + n, p[n..n + m]), lay.bsize, uploaded)
    {
      var indx, boff, bs, bi, bo := Locate(off + n);
      var page;
      if bi < |pages[indx]| {
        page := pages[indx][bi];
        PageShape(pages, c, lay, uploaded, indx, bi);
      } else {
        page := AllocPage(bs);
      }
      var left := |p| - n;
      var len := page.len;
      if bo + left > bs {
        len := bs;
      } else if len < bo + left {
        len := bo + left;
      }
      m := Min(len - bo, left);
      var d := p[n..n + m];
      WritePage(pages, page, c, lay, uploaded, flushed, off + n, indx, boff, bs, bi, bo, d);
      ghost var after := pages[indx := PagesWith(pages[indx], page, bi, bo, d)];
      assert Page(Overwrite(page.mem, bo, d), len) == PageWith(page, bo, d);
      page := Page(Overwrite(page.mem, bo, d), len);
      pages := pages[indx := if bi < |pages[indx]| then pages[indx][bi := page] else pages[indx] + [page]];
      assert pages == after;
    }
  
    /** Write `p` at `off`; a gap behind the content is filled with zeros first. */
    method WriteAt(p: seq<byte>, off: int) returns (n: nat, ok: bool)
      requires Valid() && uploaded <= length
      modifies this`length, this`pages, this`content
      ensures Valid() && uploaded <= length
      ensures ok <==> uploaded <= off && off + |p| <= CHUNK
      ensures ok ==> n == |p| && content == Written(old(content), off, p)
      ensures !ok ==> n == 0 && content == old(content) && pages == old(pages)
      decreases if length < off then 1 else 0
    {
      n, ok := 0, false;
      if off + |p| > CHUNK {
        return;
      }
      if off < uploaded {
        return;
      }
      if length < off {
        var zeros := Zeros(off - length);
        OverwriteAtEnd(content, zeros);
        var _, _ := WriteAt(zeros, length);
      }
      ghost var c := content;
      OverwriteNothing(c, off);
      assert p[..0] == [];
      while n < |p|
        invariant n <= |p| && length == |c| && content == c && |pages| == lay.blocks
        invariant PagesOk(pages, Overwrite(c, off, p[..n]), lay.bsize, uploaded)
      {
        var m := WriteSome(Overwrite(c, off, p[..n]), p, off, n);
        OverwriteTwice(c, off, p, n, m);
        n := n + m;
      }
      assert p[..n] == p;
      content := Overwrite(c, off, p);
      OverwriteWrites(c, off, p);
      SentKept(sent, c, content, lay.bsize, flushed, off, p);
      if off + n > length {
        length := off + n;
      }
      ok := true;
    }
  
    /** The page copies of wSlice.upload: `off` is how many bytes were collected. */
    method Assemble(ps: seq<Page>, blen: nat, ghost indx: nat) returns (block: seq<byte>, off: nat)
      requires Fits(lay) && indx < lay.blocks && ps != [] && blen == Fill(|content|, Times(indx, lay.bsize), lay.bsize)
      requires BlockOk(ps, content, Times(indx, lay.bsize), lay.bsize, PageSize(indx, lay.bsize))
      ensures off == blen && block == Block(content, lay.bsize, indx)
    {
      ghost var start, bs := Times(indx, lay.bsize), PageSize(indx, lay.bsize);
      if |ps| == 1 {
        SinglePage(ps, content, start, lay.bsize, bs, PagesPerBlock(indx, lay));
        block := ps[0].mem[..ps[0].len];
        off := |block|;
      } else {
        var buffer := new byte[blen];
        block := buffer[..];
        off := 0;
        for i := 0 to |ps|
          invariant off == Collected(i, bs, blen) && |block| == blen
          invariant forall j {:trigger block[j]} | 0 <= j < off :: block[j] == content[start + j]
        {
          var k := Min(blen - off, ps[i].len);
          CollectPage(ps, content, start, lay.bsize, bs, PagesPerBlock(indx, lay), i);
          OverwriteWrites(block, off, ps[i].mem[..k]);
          block := Overwrite(block, off, ps[i].mem[..k]);
          off := off + k;
        }
      }
    }
  
    /** wSlice.upload: take the pages of a block and hand the block over. */
    method Upload(indx: nat)
      requires Valid() && indx == flushed < lay.blocks && pages[indx] != []
      modifies this`pages, this`pendings, this`sent
      ensures pages == old(pages)[indx := []] && pendings == old(pendings) + 1
      ensures Times(indx, lay.bsize) < |content| && sent == old(sent)[indx := Block(content, lay.bsize, indx)]
    {
      assert BlockAt(pages, content, lay.bsize, uploaded, indx);
      TimesIsProduct(indx, lay.bsize);
      var blen := Min(length - indx * lay.bsize, lay.bsize);
      var ps := pages[indx];
      pages := pages[indx := []];
      pendings := pendings + 1;
      var block, off := Assemble(ps, blen, indx);
      assert off == blen;                  // or the source panics: block length does not match
      sent := sent[indx := block];
    }

    /** Hand over the next block, if it has any bytes. */
    method FlushBlock(i: nat)
      requires Valid() && i == flushed < lay.blocks
      modifies this`pages, this`pendings, this`sent, this`uploaded, this`flushed
      ensures Valid() && flushed == i + 1
    {
      FlushKeeps(pages, sent, content, lay.bsize, i);
      assert SentAt(sent, content, lay.bsize, flushed, i);
      if pages[i] != [] {
        Upload(i);
      } else {
        assert pages[i := []] == pages;
      }
      TimesIsProduct(i, lay.bsize);
      uploaded := i * lay.bsize + lay.bsize;
      flushed := i + 1;
    }

    /** Hand over every block that ends at or before `offset`. */
    method FlushTo(offset: nat)
      requires Valid() && uploaded <= offset               // the source panics below `uploaded`
      modifies this`pages, this`pendings, this`sent, this`uploaded, this`flushed
      ensures Valid() && uploaded <= offset && (flushed < lay.blocks ==> offset < uploaded + lay.bsize)
      ensures old(uploaded) <= uploaded
    {
      for i := 0 to |pages|
        invariant Valid() && old(uploaded) <= uploaded <= offset
        invariant flushed < i ==> offset < uploaded + lay.bsize
      {
        TimesIsProduct(i, lay.bsize);
        var start := i * lay.bsize;
        var end := start + lay.bsize;
        if i < flushed { TimesStep(i, flushed, lay.bsize); } else if flushed < i { TimesStep(flushed, i, lay.bsize); }
        if start >= uploaded && end <= offset {
          FlushBlock(i);
        }
      }
    }
  
    /** Flush the rest and collect the acknowledgements, of which `acks(j)` is the one
        received in place `j`. */
    method Finish(size: nat, acks: nat -> bool) returns (r: Finished)
      requires Valid() && uploaded <= length
      modifies this`pages, this`pendings, this`sent, this`uploaded, this`flushed
      ensures Valid()
      ensures r.LengthMismatch? <==> size != length
      ensures r.LengthMismatch? ==> sent == old(sent) && uploaded == old(uploaded)
      ensures !r.LengthMismatch? ==> forall i: nat :: i in sent <==> i * lay.bsize < |content|
      ensures SentOk(sent, content, lay.bsize, flushed)
      ensures r.Ok? <==> size == length && forall j: nat | j < |sent| :: acks(j)
    {
      if length != size {
        return LengthMismatch;
      }
      FlushAll();
      AllSent(sent, content, lay.bsize, flushed);
      var ok := Collect(pendings, acks);
      return if ok then Ok else UploadError;
    }

    /** The flush of the last, possibly partial, block. */
    method FlushAll()
      requires Valid() && uploaded <= length
      modifies this`pages, this`pendings, this`sent, this`uploaded, this`flushed
      ensures Valid() && |content| <= Times(flushed, lay.bsize)
    {
      var n := TruncDiv(length - 1, lay.bsize) + 1;
      ghost var m := LastFlush(length, lay);
      FlushTo(n * lay.bsize);
      CoversAll(length, lay, n * lay.bsize, m, flushed);
    }
  }

  method Collect(n: nat, acks: nat -> bool) returns (ok: bool)
    ensures ok <==> forall j: nat | j < n :: acks(j)
  {
    for i := 0 to n
      invariant forall j: nat | j < i :: acks(j)
    {
      if !acks(i) {
        return false;
      }
    }
    return true;
  }

  /** The offset Finish flushes to ends the last block. */
  lemma LastFlush(size: nat, l: Layout) returns (m: nat)
    requires Fits(l) && size <= CHUNK
    ensures (TruncDiv(size - 1, l.bsize) + 1) * l.bsize == Times(m, l.bsize)
    ensures size <= Times(m, l.bsize) <= CHUNK
  {
    m := TruncDiv(size - 1, l.bsize) + 1;
    TimesIsProduct(m, l.bsize);
    if size > 0 {
      assert (size - 1) / l.bsize * l.bsize <= size - 1 < (size - 1) / l.bsize * l.bsize + l.bsize;
      TimesIsProduct(m - 1, l.bsize);
      TimesBelow(m - 1, l.blocks, l.bsize);
      if m < l.blocks { TimesStep(m, l.blocks, l.bsize); }
    } else if 0 < l.blocks {
      TimesStep(0, l.blocks, l.bsize);
    }
  }

  lemma CoversAll(length: nat, l: Layout, offset: nat, m: nat, flushed: nat)
    requires Fits(l) && length <= offset == Times(m, l.bsize) && length <= CHUNK && flushed <= l.blocks
    requires flushed < l.blocks ==> offset < Times(flushed, l.bsize) + l.bsize
    ensures length <= Times(flushed, l.bsize)
  {
    if flushed < l.blocks { TimesOrder(m, flushed, l.bsize); }
  }

  /** The handed over blocks, in plain terms. */
  lemma AllSent(sent: map<nat, seq<byte>>, c: seq<byte>, bsize: nat, flushed: nat)
    requires bsize > 0 && SentOk(sent, c, bsize, flushed)
    ensures forall i | i in sent :: Times(i, bsize) <= |c| && sent[i] == Block(c, bsize, i)
    ensures |c| <= Times(flushed, bsize) ==> forall i: nat :: i in sent <==> i * bsize < |c|
  {
    forall i | i in sent ensures Times(i, bsize) <= |c| && sent[i] == Block(c, bsize, i) {
      assert SentAt(sent, c, bsize, flushed, i);
    }
    if |c| <= Times(flushed, bsize) {
      forall i: nat ensures i in sent <==> i * bsize < |c| {
        assert SentAt(sent, c, bsize, flushed, i);
        TimesIsProduct(i, bsize);
        if i * bsize < |c| { TimesBelow(i, flushed, bsize); }
      }
    }
  }

  /** One more block is handed over, or was empty. */
  lemma FlushKeeps(pages: seq<seq<Page>>, sent: map<nat, seq<byte>>, c: seq<byte>, bsize: nat, i: nat)
    requires bsize > 0 && i < |pages| && PagesOk(pages, c, bsize, Times(i, bsize)) && SentOk(sent, c, bsize, i)
    ensures pages[i] == [] <==> |c| <= Times(i, bsize)
    ensures PagesOk(pages[i := []], c, bsize, Times(i + 1, bsize))
    ensures Times(i, bsize) < |c| ==> SentOk(sent[i := Block(c, bsize, i)], c, bsize, i + 1)
    ensures |c| <= Times(i, bsize) ==> SentOk(sent, c, bsize, i + 1)
  {
    var pages', u' := pages[i := []], Times(i + 1, bsize);
    assert BlockAt(pages, c, bsize, Times(i, bsize), i);
    forall j | 0 <= j < |pages'| ensures BlockAt(pages', c, bsize, u', j) {
      assert BlockAt(pages, c, bsize, Times(i, bsize), j);
      if j < i { TimesStep(j, i, bsize); } else if i < j { TimesStep(i, j, bsize); }
    }
    var f' := i + 1;
    if Times(i, bsize) < |c| {
      var sent' := sent[i := Block(c, bsize, i)];
      forall j: nat ensures SentAt(sent', c, bsize, f', j) { assert SentAt(sent, c, bsize, i, j); }
    } else {
      forall j: nat ensures SentAt(sent, c, bsize, f', j) { assert SentAt(sent, c, bsize, i, j); }
    }
  }

  /** The bytes in the first `i` pages of a block of `n` bytes. */
  function Collected(i: nat, bs: nat, n: nat): nat {
    if Times(i, bs) < n then Times(i, bs) else n
  }

  lemma SinglePage(ps: seq<Page>, c: seq<byte>, start: nat, bsize: nat, bs: nat, m: nat)
    requires |ps| == 1 && bs > 0 && bsize == Times(m, bs) && BlockOk(ps, c, start, bsize, bs)
    ensures ps[0].len <= |ps[0].mem| && ps[0].len == Fill(|c|, start, bsize) && start + ps[0].len <= |c|
    ensures ps[0].mem[..ps[0].len] == c[start..start + ps[0].len]
  {
    assert PageAt(ps, c, start, bs, 0);
    assert Times(1, bs) == Times(0, bs) + bs;
    PageInside(1, |c|, start, bsize, bs, m, 0);
    var p := ps[0];
    assert forall j | 0 <= j < p.len :: p.mem[j] == c[start + j];
  }

  /** Page `i` supplies the bytes that come next. */
  lemma CollectPage(ps: seq<Page>, c: seq<byte>, start: nat, bsize: nat, bs: nat, m: nat, i: nat)
    requires bs > 0 && bsize == Times(m, bs) && i < |ps| && BlockOk(ps, c, start, bsize, bs)
    ensures var n, p := Fill(|c|, start, bsize), ps[i];
            && p.len <= |p.mem| && Collected(i, bs, n) == Times(i, bs)
            && Collected(i, bs, n) + p.len == Collected(i + 1, bs, n) <= n
            && start + Times(i, bs) + p.len <= |c|
            && (forall j {:trigger p.mem[j]} | 0 <= j < p.len :: p.mem[j] == c[start + Times(i, bs) + j])
            && (i == |ps| - 1 ==> Collected(i + 1, bs, n) == n)
  {
    assert PageAt(ps, c, start, bs, i);
    PageInside(|ps|, |c|, start, bsize, bs, m, i);
    if i < |ps| - 1 { TimesStep(i, |ps| - 1, bs); }
  }

  // ---------------------------------------------------------------- block sizes

  function Pow2(n: nat): nat {
    if n == 0 then 1 else 2 * Pow2(n - 1)
  }

  /** A divisor of a power of two is a power of two. */
  lemma {:induction false} DivisorOfPow2(b: nat, k: nat, n: nat) returns (j: nat)
    requires b * k == Pow2(n)
    ensures j <= n && b == Pow2(j)
  {
    if n == 0 {
      j := 0;
      ProductIsOne(b, k);
    } else if k % 2 == 0 {
      assert b * k == 2 * (b * (k / 2));
      j := DivisorOfPow2(b, k / 2, n - 1);
    } else {
      assert b % 2 == 0 by { if b % 2 == 1 { OddProduct(b, k); } }
      assert b * k == 2 * ((b / 2) * k);
      j := DivisorOfPow2(b / 2, k, n - 1);
      j := j + 1;
    }
  }

  lemma ProductIsOne(a: nat, b: nat)
    ensures a * b == 1 ==> a == 1
  {
    if a >= 2 && b > 0 { assert a * b >= 2 * b; }
  }

  lemma OddProduct(a: nat, b: nat)
    requires a % 2 == 1 && b % 2 == 1
    ensures a * b % 2 == 1
  {
    var x, y := a / 2, b / 2;
    assert a * b == 2 * (2 * x * y + x + y) + 1;
  }

  lemma {:induction false} Pow2Split(i: nat, j: nat)
    ensures Pow2(i + j) == Pow2(i) * Pow2(j)
  {
    if i > 0 { Pow2Split(i - 1, j); }
  }

  /** Any block size that divides the chunk size fits: no other condition is needed. */
  function LayoutFor(bsize: nat): (l: Layout)
    requires bsize > 0 && CHUNK % bsize == 0
    ensures Fits(l) && l.bsize == bsize
  {
    DividesIsEnough(bsize);
    Layout(bsize, CHUNK / bsize, bsize / PageSize(0, bsize))
  }

  lemma DividesIsEnough(bsize: nat)
    requires bsize > 0 && CHUNK % bsize == 0
    ensures Fits(Layout(bsize, CHUNK / bsize, bsize / PageSize(0, bsize)))
  {
    var k := CHUNK / bsize;
    WholeTimes(CHUNK, bsize);
    if PAGE <= bsize {
      assert bsize * k == CHUNK;
      WholePages(bsize, k);
      WholeTimes(bsize, PAGE);
    } else {
      assert bsize / bsize == 1;
      assert Times(1, bsize) == bsize;
    }
  }

  lemma WholeTimes(n: nat, d: nat)
    requires d > 0 && n % d == 0
    ensures Times(n / d, d) == n
  {
    TimesIsProduct(n / d, d);
  }

  /** A divisor of the chunk size that is not below the page size is made of whole pages. */
  lemma WholePages(b: nat, k: nat)
    requires b * k == CHUNK && PAGE <= b
    ensures b % PAGE == 0
  {
    Sizes();
    var j := DivisorOfPow2(b, k, 26);
    if j < 16 {
      Pow2Grows(j, 16);
    } else {
      Pow2Split(j - 16, 16);
      Multiple(Pow2(j - 16));
    }
  }

  lemma Multiple(k: nat)
    ensures k * PAGE % PAGE == 0
  {
  }

  lemma Sizes()
    ensures CHUNK == Pow2(26) && PAGE == Pow2(16)
  {
    Pow2Split(8, 8);
    Pow2Split(10, 16);
    Pow2Split(4, 4);
    Pow2Split(5, 5);
  }

  lemma {:induction false} Pow2Grows(i: nat, j: nat)
    requires i < j
    ensures 1 <= Pow2(i) < Pow2(j)
    decreases j
  {
    if i > 0 { Pow2Grows(i - 1, j - 1); }
    else if j > 1 { Pow2Grows(0, j - 1); }
  }
}
