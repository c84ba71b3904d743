/** Reading a finished slice back, and the round trip through writer and reader. */
module SliceRead {
  import opened Common
  import opened SliceStore

  datatype ReadError = NoError | Eof | LoadFailed

  /** Every stored block of the slice is the right one; blocks may be missing. */
  ghost predicate Stored(blocks: map<nat, seq<byte>>, c: seq<byte>, bsize: nat) {
    forall i: nat {:trigger StoredAt(blocks, c, bsize, i)} :: StoredAt(blocks, c, bsize, i)
  }

  predicate StoredAt(blocks: map<nat, seq<byte>>, c: seq<byte>, bsize: nat, i: nat) {
    i in blocks && Times(i, bsize) < |c| ==> blocks[i] == Block(c, bsize, i)
  }

  /** A read of `want` bytes at `off` returned `data` and `err`. */
  predicate Answers(c: seq<byte>, off: nat, want: nat, data: seq<byte>, err: ReadError) {
    && |data| <= want && (err.NoError? <==> |data| == want)
    && (want > 0 ==> if off < |c| then off + |data| <= |c| && data == c[off..off + |data|] else err.Eof? && data == [])
    && (err.Eof? && off < |c| ==> off + |data| == |c|) && (err.LoadFailed? ==> off + |data| < |c|)
  }

  /** The block at `pos` cannot be loaded. */
  ghost predicate Missing(blocks: map<nat, seq<byte>>, bsize: nat, pos: nat) {
    exists i: nat :: Times(i, bsize) <= pos < Times(i, bsize) + bsize && i !in blocks
  }

  lemma NoneMissing(blocks: map<nat, seq<byte>>, length: nat, bsize: nat, pos: nat)
    requires pos < length && forall i: nat :: i in blocks <==> i * bsize < length
    ensures !Missing(blocks, bsize, pos)
  {
    forall i: nat | Times(i, bsize) <= pos ensures i in blocks {
      TimesIsProduct(i, bsize);
    }
  }

  /** An offset lies in one block. */
  lemma OneBlock(i: nat, b: nat, j: nat, d: nat, bsize: nat)
    requires Times(i, bsize) + b == Times(j, bsize) + d && b < bsize && d < bsize
    ensures i == j && b == d
  {
    if i < j { TimesStep(i, j, bsize); } else if j < i { TimesStep(j, i, bsize); }
  }

  /** rSlice.blockSize */
  method BlockSize(length: nat, bsize: nat, indx: nat) returns (n: int)
    ensures n == Min(length - Times(indx, bsize), bsize)
  {
    TimesIsProduct(indx, bsize);
    n := length - indx * bsize;
    if n > bsize {
      n := bsize;
    }
  }

  /** rSlice.ReadAt over the blocks that can be loaded. */
  method ReadAt(blocks: map<nat, seq<byte>>, length: nat, bsize: nat, off: nat, want: nat, ghost c: seq<byte>)
    returns (data: seq<byte>, err: ReadError)
    requires bsize > 0 && length == |c| && Stored(blocks, c, bsize)
    ensures Answers(c, off, want, data, err)
    ensures err.LoadFailed? ==> Missing(blocks, bsize, off + |data|)
    decreases want
  {
    if want == 0 {
      return [], NoError;
    }
    if off >= length {
      return [], Eof;
    }
    var indx, boff := Split(off, bsize);
    var size := BlockSize(length, bsize, indx);
    if boff + want > size {
      data, err := ReadBlocks(blocks, length, bsize, off, want, c, indx, boff);
    } else if indx in blocks {
      assert StoredAt(blocks, c, bsize, indx);
      data, err := blocks[indx][boff..boff + want], NoError;
    } else {
      return [], LoadFailed;
    }
  }

  /** The loop of rSlice.ReadAt for a read beyond the current block. */
  method ReadBlocks(blocks: map<nat, seq<byte>>, length: nat, bsize: nat, start: nat, want: nat, ghost c: seq<byte>,
                    ghost i0: nat, ghost b0: nat)
    returns (data: seq<byte>, err: ReadError)
    requires bsize > 0 && length == |c| && Stored(blocks, c, bsize) && start < length
    requires start == Times(i0, bsize) + b0 && b0 < bsize && Min(length - Times(i0, bsize), bsize) < b0 + want
    ensures Answers(c, start, want, data, err)
    ensures err.LoadFailed? ==> Missing(blocks, bsize, start + |data|)
    decreases want, 0
  {
    data, err := [], NoError;
    var off := start;
    while |data| < want
      invariant |data| <= want && off == start + |data| <= |c| && data == c[start..off] && err.NoError?
      decreases want - |data|
    {
      var indx, boff := Split(off, bsize);
      var size := BlockSize(length, bsize, indx);
      if data == [] { OneBlock(indx, boff, i0, b0, bsize); }
      var l := Min(want - |data|, size - boff);
      var part, e := ReadAt(blocks, length, bsize, off, l, c);
      data := data + part;
      if !e.NoError? {
        return data, e;
      }
      if |part| == 0 {
        return data, Eof;
      }
      off := off + |part|;
    }
  }

  // ---------------------------------------------------------------- whole runs

  datatype Op = Write(data: seq<byte>, off: int) | Flush(offset: int)

  /** The flat array, and how much of it is out of reach of later writes. */
  datatype Flat = Flat(content: seq<byte>, uploaded: nat)

  /** Writes below the uploaded part or past the chunk are refused; flushes are within the content. */
  predicate Accepted(f: Flat, op: Op) {
    match op
    case Write(d, off) => f.uploaded <= off && off + |d| <= CHUNK
    case Flush(offset) => f.uploaded <= offset <= |f.content|
  }

  /** What an accepted operation does to a flat array in blocks of `bsize` bytes. */
  function Apply(f: Flat, op: Op, bsize: nat): Flat
    requires bsize > 0
  {
    if !Accepted(f, op) then f else
    match op
    case Write(d, off) => f.(content := Written(f.content, off, d))
    case Flush(offset) => f.(uploaded := offset / bsize * bsize)
  }

  function ApplyAll(ops: seq<Op>, bsize: nat): Flat
    requires bsize > 0
  {
    if ops == [] then Flat([], 0) else Apply(ApplyAll(ops[..|ops| - 1], bsize), ops[|ops| - 1], bsize)
  }

  /** The whole blocks below an offset, by where they end. */
  lemma WholeBlocks(offset: nat, flushed: nat, l: Layout)
    requires Fits(l) && flushed <= l.blocks && Times(flushed, l.bsize) <= offset <= CHUNK
    requires flushed < l.blocks ==> offset < Times(flushed, l.bsize) + l.bsize
    ensures offset / l.bsize * l.bsize == Times(flushed, l.bsize)
  {
    var q, r := Floor(offset, l.bsize);
    OneBlock(q, r, flushed, offset - Times(flushed, l.bsize), l.bsize);
  }

  lemma Floor(offset: nat, bsize: nat) returns (q: nat, r: nat)
    requires bsize > 0
    ensures offset == Times(q, bsize) + r && r < bsize && offset / bsize * bsize == Times(q, bsize)
  {
    q, r := offset / bsize, offset % bsize;
    TimesIsProduct(q, bsize);
  }

  /** One operation on the writer does what it does to the flat array. */
  method Do(w: WSlice, op: Op)
    requires w.Valid() && w.uploaded <= w.length
    modifies w
    ensures w.Valid() && w.uploaded <= w.length
    ensures Flat(w.content, w.uploaded) == old(Apply(Flat(w.content, w.uploaded), op, w.lay.bsize))
  {
    match op {
      case Write(d, off) =>
        var _, _ := w.WriteAt(d, off);
      case Flush(offset) =>
        if w.uploaded <= offset <= w.length {
          w.FlushTo(offset);
          WholeBlocks(offset, w.flushed, w.lay);
        }
    }
  }

  /** Write with any operations and finish. */
  method Store(ops: seq<Op>, bsize: nat, acks: nat -> bool)
    returns (r: Finished, blocks: map<nat, seq<byte>>, length: nat, ghost c: seq<byte>)
    requires bsize > 0 && CHUNK % bsize == 0
    ensures c == ApplyAll(ops, bsize).content && length == |c|
    ensures Stored(blocks, c, bsize) && forall i: nat :: i in blocks <==> i * bsize < |c|
    ensures forall i: nat | i in blocks :: blocks[i] == c[i * bsize..Min(i * bsize + bsize, |c|)]
    ensures !r.LengthMismatch? && (r.Ok? <==> forall j: nat | j < |blocks| :: acks(j))
  {
    var w := Run(ops, LayoutFor(bsize));
    r := w.Finish(w.length, acks);
    blocks, length, c := w.sent, w.length, w.content;
    AllStored(w);
  }

  method Run(ops: seq<Op>, l: Layout) returns (w: WSlice)
    requires Fits(l)
    ensures fresh(w) && w.Valid() && w.uploaded <= w.length && w.lay == l
    ensures Flat(w.content, w.uploaded) == ApplyAll(ops, l.bsize)
  {
    w := new WSlice(l);
    for k := 0 to |ops|
      invariant w.Valid() && w.uploaded <= w.length && w.lay == l
      invariant Flat(w.content, w.uploaded) == ApplyAll(ops[..k], l.bsize)
      invariant fresh(w)
    {
      assert ops[..k + 1][..k] == ops[..k];
      Do(w, ops[k]);
    }
    assert ops[..|ops|] == ops;
  }

  /** A read returned what the flat array holds, and is short exactly when it reports the end. */
  predicate Whole(c: seq<byte>, off: nat, want: nat, data: seq<byte>, err: ReadError) {
    && data == (if off < |c| then c[off..Min(off + want, |c|)] else [])
    && (err.Eof? <==> |data| < want) && (err.NoError? <==> |data| == want)
  }

  /** A read of a slice of which every block can be loaded. */
  method ReadWhole(blocks: map<nat, seq<byte>>, length: nat, bsize: nat, off: nat, want: nat, ghost c: seq<byte>)
    returns (data: seq<byte>, err: ReadError)
    requires bsize > 0 && length == |c| && Stored(blocks, c, bsize)
    ensures (forall i: nat :: i in blocks <==> i * bsize < |c|) ==> Whole(c, off, want, data, err)
  {
    data, err := ReadAt(blocks, length, bsize, off, want, c);
    if err.LoadFailed? && forall i: nat :: i in blocks <==> i * bsize < |c| {
      NoneMissing(blocks, length, bsize, off + |data|);
      assert false;
    }
  }

  /** Write with any operations, finish, and read anywhere: the flat array comes back. */
  method RoundTrip(ops: seq<Op>, bsize: nat, acks: nat -> bool, off: nat, want: nat)
    returns (data: seq<byte>, err: ReadError)
    requires bsize > 0 && CHUNK % bsize == 0
    ensures Whole(ApplyAll(ops, bsize).content, off, want, data, err)
  {
    var _, blocks, length, c := Store(ops, bsize, acks);
    data, err := ReadWhole(blocks, length, bsize, off, want, c);
  }

  lemma AllStored(w: WSlice)
    requires w.Valid()
    ensures Stored(w.sent, w.content, w.lay.bsize)
    ensures forall i: nat | i in w.sent ::
      i * w.lay.bsize < |w.content| && w.sent[i] == w.content[i * w.lay.bsize..Min(i * w.lay.bsize + w.lay.bsize, |w.content|)]
  {
    var c, b := w.content, w.lay.bsize;
    forall i: nat ensures StoredAt(w.sent, c, b, i) {
      assert SentAt(w.sent, c, b, w.flushed, i);
    }
    forall i: nat | i in w.sent ensures i * b < |c| && w.sent[i] == c[i * b..Min(i * b + b, |c|)] {
      assert SentAt(w.sent, c, b, w.flushed, i);
      TimesIsProduct(i, b);
    }
  }
}
