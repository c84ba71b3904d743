/** From the bytes of a slice to the object store: Finish, then a barrier. */
module SliceDurability {
  import opened Common
  import opened SliceStore
  import opened SliceRead
  import Writeback
  import WritebackFinish

  /** The name of block `i` of a slice of `length` bytes. */
  function BlockKey(id: nat, i: nat, length: nat, bsize: nat): Key
    requires i * bsize < length
  {
    Key(id, i, Min(length - i * bsize, bsize))
  }

  ghost predicate Blocks(indexes: set<nat>, length: nat, bsize: nat) {
    forall i | i in indexes :: i * bsize < length
  }

  function KeysOf(id: nat, indexes: set<nat>, length: nat, bsize: nat): set<Key>
    requires Blocks(indexes, length, bsize)
  {
    set i | i in indexes :: BlockKey(id, i, length, bsize)
  }

  /** A slice has as many names as blocks. */
  lemma {:induction false} AsManyNames(id: nat, indexes: set<nat>, length: nat, bsize: nat)
    requires Blocks(indexes, length, bsize)
    ensures |KeysOf(id, indexes, length, bsize)| == |indexes|
    decreases |indexes|
  {
    if indexes != {} {
      var i :| i in indexes;
      var rest := indexes - {i};
      AsManyNames(id, rest, length, bsize);
      assert KeysOf(id, indexes, length, bsize) == KeysOf(id, rest, length, bsize) + {BlockKey(id, i, length, bsize)};
    }
  }

  /** The blocks of a slice of `length` bytes. */
  function Indexes(length: nat, bsize: nat): (r: set<nat>)
    ensures Blocks(r, length, bsize)
  {
    set i: nat | i < length && i * bsize < length
  }

  function SliceKeys(id: nat, length: nat, bsize: nat): set<Key> {
    KeysOf(id, Indexes(length, bsize), length, bsize)
  }

  /** The messages on the error channel of a slice. */
  function Errors(s: Writeback.State, id: nat): seq<Writeback.Message> {
    WritebackFinish.OnChannel(s.blocks.sent, id)
  }

  /** What is received in place `j`, and whether it is nil. */
  function Nil(ch: seq<Writeback.Message>): nat -> bool {
    (j: nat) => j < |ch| && ch[j].ok
  }

  lemma NilIsAllNil(ch: seq<Writeback.Message>, n: nat)
    ensures (forall j: nat | j < n :: Nil(ch)(j)) <==> WritebackFinish.AllNil(ch, n)
  {
    if forall j: nat | j < n :: Nil(ch)(j) {
      if n > 0 { assert Nil(ch)(n - 1); }
      assert forall j: nat | j < n :: Nil(ch)(j) ==> ch[j].ok;
    }
  }

  /** The blocks that can be loaded from the object store. */
  function Remote(blocks: map<nat, seq<byte>>, s: Writeback.State, id: nat): map<nat, seq<byte>> {
    map i | i in blocks && Key(id, i, |blocks[i]|) in s.blocks.store :: blocks[i]
  }

  lemma NamesOfBlocks(blocks: map<nat, seq<byte>>, c: seq<byte>, bsize: nat, id: nat)
    requires bsize > 0 && forall i: nat :: i in blocks <==> i * bsize < |c|
    ensures |SliceKeys(id, |c|, bsize)| == |blocks|
  {
    forall i: nat | i * bsize < |c| ensures i < |c| { Grows(i, bsize); }
    assert Indexes(|c|, bsize) == blocks.Keys;
    AsManyNames(id, Indexes(|c|, bsize), |c|, bsize);
  }

  lemma Grows(i: nat, bsize: nat)
    requires bsize > 0
    ensures i <= i * bsize
  {
  }

  /** The barrier has reported success. */
  predicate Synced(s: Writeback.State, n: nat) {
    Writeback.Barrier(n) in s.threads && s.threads[Writeback.Barrier(n)].Settled? && s.threads[Writeback.Barrier(n)].outcome.Durable?
  }

  /** A slice whose blocks are all named in the store can be loaded from there. */
  lemma AllRemote(blocks: map<nat, seq<byte>>, c: seq<byte>, bsize: nat, id: nat, s: Writeback.State)
    requires bsize > 0 && forall i: nat :: i in blocks <==> i * bsize < |c|
    requires forall i: nat | i in blocks :: blocks[i] == c[i * bsize..Min(i * bsize + bsize, |c|)]
    requires SliceKeys(id, |c|, bsize) <= s.blocks.store
    ensures Remote(blocks, s, id) == blocks
  {
    forall i | i in blocks ensures Key(id, i, |blocks[i]|) in s.blocks.store {
      Grows(i, bsize);
      assert i in Indexes(|c|, bsize);
      assert BlockKey(id, i, |c|, bsize) in SliceKeys(id, |c|, bsize);
    }
  }

  lemma RemoteStored(blocks: map<nat, seq<byte>>, c: seq<byte>, bsize: nat, id: nat, s: Writeback.State)
    requires Stored(blocks, c, bsize)
    ensures Stored(Remote(blocks, s, id), c, bsize)
  {
    forall i: nat ensures StoredAt(Remote(blocks, s, id), c, bsize, i) {
      assert StoredAt(blocks, c, bsize, i);
    }
  }

  /** Write with any operations and finish while the upload goroutines run.  Finish succeeds if and
      only if every block of the slice is acknowledged. */
  method StoreAndFinish(ops: seq<Op>, bsize: nat, id: nat, conf: Writeback.Conf, run: seq<Writeback.Action>)
    returns (r: Finished, blocks: map<nat, seq<byte>>, length: nat, ghost c: seq<byte>)
    requires bsize > 0 && CHUNK % bsize == 0
    requires WritebackFinish.Uploads(Writeback.Run(Writeback.Init(conf), run), id, SliceKeys(id, |ApplyAll(ops, bsize).content|, bsize))
    ensures c == ApplyAll(ops, bsize).content && length == |c|
    ensures Stored(blocks, c, bsize) && forall i: nat :: i in blocks <==> i * bsize < |c|
    ensures forall i: nat | i in blocks :: blocks[i] == c[i * bsize..Min(i * bsize + bsize, |c|)]
    ensures r.Ok? <==> WritebackFinish.AllNil(Errors(Writeback.Run(Writeback.Init(conf), run), id), |SliceKeys(id, |c|, bsize)|)
    ensures r.Ok? <==> forall k | k in SliceKeys(id, |c|, bsize) :: Writeback.Acked(Writeback.Run(Writeback.Init(conf), run).blocks, k)
  {
    var ch := Errors(Writeback.Run(Writeback.Init(conf), run), id);
    r, blocks, length, c := Store(ops, bsize, Nil(ch));
    NamesOfBlocks(blocks, c, bsize, id);
    NilIsAllNil(ch, |blocks|);
    WritebackFinish.FinishMeansAcked(conf, run, id, SliceKeys(id, |c|, bsize));
  }

  /** Then wait for a barrier that starts afterwards, and read the slice from the object store alone.
      If Finish and the barrier report success, the reads return the flat array, unless a block was
      removed. */
  method WriteSyncRead(ops: seq<Op>, bsize: nat, id: nat, conf: Writeback.Conf,
                       before: seq<Writeback.Action>, after: seq<Writeback.Action>, n: nat, off: nat, want: nat)
    returns (r: Finished, data: seq<byte>, err: ReadError)
    requires bsize > 0 && CHUNK % bsize == 0
    requires var s := Writeback.Run(Writeback.Init(conf), before);
             && WritebackFinish.Uploads(s, id, SliceKeys(id, |ApplyAll(ops, bsize).content|, bsize))
             && Writeback.Barrier(n) !in s.threads
    ensures var c := ApplyAll(ops, bsize).content;
            var s' := Writeback.Run(Writeback.Run(Writeback.Init(conf), before), after);
            r.Ok? && Synced(s', n) && SliceKeys(id, |c|, bsize) !! s'.hist.removed ==> Whole(c, off, want, data, err)
  {
    var s' := Writeback.Run(Writeback.Run(Writeback.Init(conf), before), after);
    var blocks, length;
    ghost var c;
    r, blocks, length, c := StoreAndFinish(ops, bsize, id, conf, before);
    RemoteStored(blocks, c, bsize, id, s');
    data, err := ReadWhole(Remote(blocks, s', id), length, bsize, off, want, c);
    if r.Ok? && Synced(s', n) && SliceKeys(id, |c|, bsize) !! s'.hist.removed {
      WritebackFinish.FinishedSliceIsStored(conf, before, after, n, id, SliceKeys(id, |c|, bsize));
      AllRemote(blocks, c, bsize, id, s');
    }
  }
}
