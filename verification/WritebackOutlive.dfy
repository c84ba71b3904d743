/** Why a block must not be cancelled before its writer is spent: otherwise the object can outlive
    Remove, because the writer puts it after the delete, or because the writer registers the block
    again and an uploader puts it. */
module WritebackOutlive {
  import opened Common
  import opened Writeback
  import opened WritebackInvariant
  import opened WritebackRemove
  import opened WritebackDurability
  import opened WritebackWalk
  import opened WritebackRest

  // ---------------------------------------------------------------- the object outlives Remove

  /** Goroutines outside `ts` stand where they stood, no delete failed and no failed put left an object. */
  ghost predicate Along(s: State, s': State, ts: set<Tid>) {
    && (forall t {:trigger t in s'.threads} | t !in ts ::
          (t in s'.threads <==> t in s.threads) && (t in s.threads ==> s'.threads[t] == s.threads[t]))
    && s'.hist.failedDeletes == s.hist.failedDeletes && s'.hist.strays == s.hist.strays
    && s'.conf == s.conf && Extends(s.table, s'.table)
  }

  lemma AlongTrans(s: State, s1: State, s2: State, ts: set<Tid>, ts': set<Tid>)
    requires Along(s, s1, ts) && Along(s1, s2, ts')
    ensures Along(s, s2, ts + ts')
  {
    ExtendsTrans(s.table, s1.table, s2.table);
  }

  /** Remove has run to its end, the writer is done, and the object is there. */
  ghost predicate Outlived(s: State, k: Key, r: nat) {
    && Remover(r) in s.threads && s.threads[Remover(r)] == Remove(Removed, [k], 1, false)
    && Writer(k) in s.threads && s.threads[Writer(k)] == Bare(Done)
    && k in s.hist.removed && k in s.blocks.store
  }

  /** The writer can put its object whatever Remove does. */
  predicate MayPut(s: State, k: Key) {
    if Writer(k) !in s.threads || s.threads[Writer(k)] == Bare(Register) then SlotFree(s)
    else !WriterSpent(s, k) && OnWay(s, k, s.threads[Writer(k)])
  }

  /** Remove runs from its start to its end. */
  lemma RemoverRuns(s: State, k: Key, r: nat) returns (run: seq<Action>)
    requires WF(s) && Remover(r) !in s.threads
    ensures var s' := Run(s, run);
            && Aside(s, s', Remover(r), k, true) && s'.threads[Remover(r)] == Remove(Removed, [k], 1, false)
            && k in s'.hist.removed
  {
    var first := RemoverCancels(s, k, r);
    var second := RemoverGoesOn(Run(s, first), k, r);
    run := first + second;
    RunTwo(s, first, second);
    ApartTrans(s, Run(s, first), Run(s, run), Remover(r));
  }

  lemma WriterAfter(s: State, k: Key) returns (run: seq<Action>)
    requires WF(s) && MayPut(s, k) && k !in s.table.pending
    ensures var s' := Run(s, run); Apart(s, s', Writer(k)) && s'.threads[Writer(k)] == Bare(Done) && k in s'.blocks.store
  {
    if Writer(k) in s.threads {
      run := WriterGoesOn(s, k);
    } else {
      var a := Yes(Writer(k));
      var s1 := Step(s, a);
      assert s1 == s.(threads := s.threads[Writer(k) := Bare(Check)]);
      var rest := WriterGoesOn(s1, k);
      run := [a] + rest;
      RunOne(s, a, rest);
      ApartTrans(s, s1, Run(s, run), Writer(k));
    }
  }

  /** Remove runs between two steps of the writer, which then puts its object. */
  lemma PutOutlives(s: State, k: Key, r: nat) returns (run: seq<Action>)
    requires WF(s) && Remover(r) !in s.threads && MayPut(s, k)
    ensures Outlived(Run(s, run), k, r) && Along(s, Run(s, run), {Writer(k), Remover(r)})
  {
    var first := RemoverRuns(s, k, r);
    var s1 := Run(s, first);
    var second := WriterAfter(s1, k);
    run := first + second;
    RunTwo(s, first, second);
    AlongTrans(s, s1, Run(s, run), {Remover(r)}, {Writer(k)});
  }

  /** The writer returns to register its block, Remove cancels the old item, and the new one is queued. */
  lemma Requeued(s: State, k: Key, r: nat) returns (run: seq<Action>)
    requires WF(s) && Remover(r) !in s.threads && Writer(k) in s.threads && Returning(s, s.threads[Writer(k)])
    requires s.table.queue == [] && s.conf.queueCap > 0
    ensures var s' := Run(s, run);
            && Along(s, s', {Writer(k), Remover(r)}) && Writer(k) in s'.threads && Remover(r) in s'.threads
            && s'.threads[Writer(k)] == Bare(Done) && s'.threads[Remover(r)] == Remove(DropCache, [k], 0, false)
            && k in s'.hist.removed && s'.conf == s.conf && s'.slots == s.slots && s'.blocks.staged == s.blocks.staged
            && k in s'.table.pending && s'.table.queue == [s'.table.pending[k]]
  {
    var first := ReturnsToDelay(s, k);
    var s1 := Run(s, first);
    var second := RemoverCancels(s1, k, r);
    var s2 := Run(s1, second);
    var third := WriterQueues(s2, k);
    run := first + second + third;
    RunTwo(s, first, second);
    RunTwo(s, first + second, third);
    AlongTrans(s, s1, s2, {Writer(k)}, {Remover(r)});
    AlongTrans(s, s2, Run(s, run), {Writer(k), Remover(r)}, {Writer(k)});
  }

  /** An uploader about to put the block for its pending item. */
  predicate BeforePut(s: State, k: Key, q: nat, pc: PC) {
    pc == Upload(PutStaged, q) && ItemIs(s.table, q, k) && IsCurrent(s.table, q) && s.table.queue == []
  }

  lemma Received(s: State, k: Key, n: nat, q: nat)
    requires WF(s) && Uploader(n) in s.threads && s.threads[Uploader(n)] == Idle && SlotFree(s) && k in s.blocks.staged
    requires k in s.table.pending && s.table.pending[k] == q && s.table.queue == [q]
    ensures var s' := Step(s, Yes(Uploader(n)));
            Apart(s, s', Uploader(n)) && s'.threads[Uploader(n)] == Upload(AwaitSlot, q) && Carrying(s', k, q, Upload(AwaitSlot, q))
  {
    StepIsApart(s, Yes(Uploader(n)));
  }

  lemma CarriedToPut(s: State, k: Key, n: nat, q: nat) returns (run: seq<Action>)
    requires WF(s) && Uploader(n) in s.threads && s.threads[Uploader(n)] == Upload(AwaitSlot, q)
    requires Carrying(s, k, q, s.threads[Uploader(n)])
    ensures var s' := Run(s, run); Apart(s, s', Uploader(n)) && BeforePut(s', k, q, s'.threads[Uploader(n)])
  {
    run := UploaderGoesOn(s, k, n, q, 7);
  }

  /** An idle uploader takes the item and comes as far as its put. */
  lemma TakenToPut(s: State, k: Key, n: nat) returns (run: seq<Action>)
    requires WF(s) && Uploader(n) in s.threads && s.threads[Uploader(n)] == Idle && SlotFree(s) && k in s.blocks.staged
    requires k in s.table.pending && s.table.queue == [s.table.pending[k]]
    ensures var s' := Run(s, run);
            Apart(s, s', Uploader(n)) && BeforePut(s', k, s.table.pending[k], s'.threads[Uploader(n)])
  {
    var q, a := s.table.pending[k], Yes(Uploader(n));
    Received(s, k, n, q);
    var rest := CarriedToPut(Step(s, a), k, n, q);
    run := [a] + rest;
    RunOne(s, a, rest);
    ApartTrans(s, Step(s, a), Run(s, run), Uploader(n));
  }

  /** The uploader does not exist yet, or has nothing to do. */
  predicate Unused(s: State, n: nat) {
    Uploader(n) in s.threads ==> s.threads[Uploader(n)] == Idle
  }

  lemma PickedUp(s: State, k: Key, n: nat) returns (run: seq<Action>)
    requires WF(s) && Unused(s, n) && SlotFree(s) && k in s.blocks.staged
    requires k in s.table.pending && s.table.queue == [s.table.pending[k]]
    ensures var s' := Run(s, run);
            Apart(s, s', Uploader(n)) && BeforePut(s', k, s.table.pending[k], s'.threads[Uploader(n)])
  {
    if Uploader(n) in s.threads {
      run := TakenToPut(s, k, n);
    } else {
      var a := Yes(Uploader(n));
      var s1 := Step(s, a);
      assert s1 == s.(threads := s.threads[Uploader(n) := Idle]);
      var rest := TakenToPut(s1, k, n);
      run := [a] + rest;
      RunOne(s, a, rest);
      ApartTrans(s, s1, Run(s, run), Uploader(n));
    }
  }

  lemma PutKept(s: State, k: Key, n: nat, q: nat) returns (run: seq<Action>)
    requires WF(s) && Uploader(n) in s.threads && BeforePut(s, k, q, s.threads[Uploader(n)])
    ensures var s' := Run(s, run);
            && Apart(s, s', Uploader(n)) && s'.threads[Uploader(n)] == Idle && k in s'.blocks.store
            && k !in s'.table.pending && k !in s'.blocks.staged && s'.table.queue == []
  {
    run := UploaderGoesOn(s, k, n, q, 0);
    ThreadIsOk(Run(s, run), Uploader(n));
  }

  /** Remove runs to its end beside an uploader before its put, which then puts the block. */
  lemma Overtaken(s: State, k: Key, r: nat, n: nat, q: nat) returns (run: seq<Action>)
    requires WF(s) && Remover(r) in s.threads && s.threads[Remover(r)] == Remove(DropCache, [k], 0, false) && k in s.hist.removed
    requires Uploader(n) in s.threads && BeforePut(s, k, q, s.threads[Uploader(n)])
    ensures var s' := Run(s, run);
            && Along(s, s', {Remover(r), Uploader(n)}) && Remover(r) in s'.threads && Uploader(n) in s'.threads
            && s'.threads[Remover(r)] == Remove(Removed, [k], 1, false) && s'.threads[Uploader(n)] == Idle
            && k in s'.hist.removed && k in s'.blocks.store
  {
    var first := RemoverGoesOn(s, k, r);
    var s1 := Run(s, first);
    var second := PutKept(s1, k, n, q);
    run := first + second;
    RunTwo(s, first, second);
    AlongTrans(s, s1, Run(s, run), {Remover(r)}, {Uploader(n)});
  }

  /** The new item is uploaded while Remove is under way, and its object stays. */
  lemma Delivered(s: State, k: Key, r: nat, n: nat) returns (run: seq<Action>)
    requires WF(s) && Remover(r) in s.threads && s.threads[Remover(r)] == Remove(DropCache, [k], 0, false) && k in s.hist.removed
    requires Unused(s, n) && SlotFree(s) && k in s.blocks.staged
    requires k in s.table.pending && s.table.queue == [s.table.pending[k]]
    ensures var s' := Run(s, run);
            && Along(s, s', {Remover(r), Uploader(n)}) && Remover(r) in s'.threads && Uploader(n) in s'.threads
            && s'.threads[Remover(r)] == Remove(Removed, [k], 1, false) && s'.threads[Uploader(n)] == Idle
            && k in s'.hist.removed && k in s'.blocks.store
  {
    var first := PickedUp(s, k, n);
    var s1 := Run(s, first);
    var second := Overtaken(s1, k, r, n, s.table.pending[k]);
    run := first + second;
    RunTwo(s, first, second);
    AlongTrans(s, s1, Run(s, run), {Uploader(n)}, {Remover(r), Uploader(n)});
  }

  /** The writer registers its block again after Remove has cancelled it, and an uploader that has
      the stage file open puts the object after Remove has deleted it. */
  lemma DelayOutlives(s: State, k: Key, r: nat, n: nat) returns (run: seq<Action>)
    requires WF(s) && Remover(r) !in s.threads && Unused(s, n)
    requires Writer(k) in s.threads && Returning(s, s.threads[Writer(k)]) && k in s.blocks.staged
    requires SlotFree(s) && s.table.queue == [] && s.conf.queueCap > 0
    ensures Outlived(Run(s, run), k, r) && Along(s, Run(s, run), {Writer(k), Remover(r), Uploader(n)})
    ensures Uploader(n) in Run(s, run).threads && Run(s, run).threads[Uploader(n)] == Idle
  {
    var first := Requeued(s, k, r);
    var s1 := Run(s, first);
    var second := Delivered(s1, k, r, n);
    run := first + second;
    RunTwo(s, first, second);
    AlongTrans(s, s1, Run(s, run), {Writer(k), Remover(r)}, {Remover(r), Uploader(n)});
  }

  lemma StillSettles(s: State, s': State, k: Key, r: nat, n: nat)
    requires WF(s) && Settles(s, k) && Outlived(s', k, r)
    requires Along(s, s', {Writer(k), Remover(r), Uploader(n)})
    requires Uploader(n) in s'.threads ==> s'.threads[Uploader(n)] == Idle
    ensures Settles(s', k)
  {
    forall t | t in s'.threads && t in s.threads ensures s'.threads[t].Upload? && s'.threads[t] == s.threads[t] ==>
      !ItemIs(s'.table, s'.threads[t].item, k) {
      ThreadIsOk(s, t);
    }
  }

  /** With a slot and a place in the queue, the writer puts its block, or returns to have it put. */
  lemma OutlivesFrom(s: State, k: Key, r: nat, n: nat) returns (run: seq<Action>)
    requires WF(s) && !WriterSpent(s, k) && Remover(r) !in s.threads && Unused(s, n)
    requires SlotFree(s) && s.table.queue == [] && s.conf.queueCap > 0 && (!MayPut(s, k) ==> k in s.blocks.staged)
    ensures Outlived(Run(s, run), k, r) && Along(s, Run(s, run), {Writer(k), Remover(r), Uploader(n)})
    ensures Settles(s, k) ==> Settles(Run(s, run), k)
  {
    if Writer(k) in s.threads { ThreadIsOk(s, Writer(k)); }
    if MayPut(s, k) {
      run := PutOutlives(s, k, r);
    } else {
      run := DelayOutlives(s, k, r, n);
    }
    if Settles(s, k) { StillSettles(s, Run(s, run), k, r, n); }
  }

  // ---------------------------------------------------------------- from every reachable state

  /** Cancelled now, the block leaves no object: its writer will neither put nor register it, or will
      only register it and has no stage file left. */
  predicate Harmless(s: State, k: Key) {
    WriterSpent(s, k) || (WriterReturns(s, k) && k !in s.blocks.staged)
  }

  /** Remove `r` has run to its end and everything has settled, without a failed delete or a failed
      put that left the object, and the object is there. */
  ghost predicate LeftBehind(s: State, s': State, k: Key, r: nat) {
    && Outlived(s', k, r) && Settles(s', k)
    && s'.hist.failedDeletes == s.hist.failedDeletes && s'.hist.strays == s.hist.strays
  }

  /** At rest, everything has settled. */
  lemma RestSettles(s: State, k: Key)
    requires WF(s) && Restless(s, k, true) == {}
    ensures Settles(s, k)
  {
    forall t | t in s.threads && (s.threads[t].Remove? || s.threads[t].Upload?) ensures s.threads[t].Remove? && s.threads[t].r.Removed? {
      ThreadIsOk(s, t);
      assert t !in Restless(s, k, true);
    }
  }

  /** When only uploaders that wait for a slot were busy, so it is afterwards, and all slots are free. */
  lemma OnlyWaiting(s: State, s': State, k: Key, r: nat)
    requires Restless(s, k, false) == {} && Along(s, s', {Writer(k), Remover(r)}) && Outlived(s', k, r) && SlotsOk(s')
    requires s'.conf.maxUpload > 0
    ensures SlotFree(s') && (forall t | t in Restless(s', k, true) :: Waiting(s'.threads[t]))
    ensures Remover(r) !in Restless(s', k, true)
  {
    forall t | t in Restless(s', k, true) ensures Waiting(s'.threads[t]) {
      assert t !in Restless(s, k, false);
    }
    assert Restless(s', k, false) == {};
    SlotsLeft(s', k);
    assert Writer(k) in s'.slots ==> SlotOk(s', Writer(k));
    assert s'.slots == {};
  }

  lemma PutsThenRest(s: State, k: Key, r: nat) returns (run: seq<Action>)
    requires WF(s) && SlotsOk(s) && s.conf.maxUpload > 0 && Remover(r) !in s.threads && Restless(s, k, false) == {} && MayPut(s, k)
    ensures LeftBehind(s, Run(s, run), k, r)
  {
    var first := PutOutlives(s, k, r);
    var s1 := Run(s, first);
    SlotsRun(s, first);
    OnlyWaiting(s, s1, k, r);
    var second := AllRest(s1, k, r, true);
    run := first + second;
    RunTwo(s, first, second);
    RestSettles(Run(s, run), k);
  }

  /** A writer that has its slot puts its block; uploaders that wait for a slot come to rest afterwards. */
  lemma PutsWithSlot(s: State, k: Key, r: nat) returns (run: seq<Action>)
    requires WF(s) && SlotsOk(s) && s.conf.maxUpload > 0 && Remover(r) !in s.threads
    requires SlotOk(s, Writer(k)) && !WriterSpent(s, k)
    ensures LeftBehind(s, Run(s, run), k, r)
  {
    ThreadIsOk(s, Writer(k));
    var first := AllRest(s, k, r, false);
    var second := PutsThenRest(Run(s, first), k, r);
    run := first + second;
    RunTwo(s, first, second);
  }

  /** A writer without a slot: the others come to rest and let go of its flag first. */
  lemma PutsWithoutSlot(s: State, k: Key, r: nat, n: nat) returns (run: seq<Action>)
    requires Inv(s) && SlotsOk(s) && s.conf.maxUpload > 0 && s.conf.queueCap > 0
    requires Remover(r) !in s.threads && Uploader(n) !in s.threads && !SlotOk(s, Writer(k)) && !Harmless(s, k)
    ensures LeftBehind(s, Run(s, run), k, r)
  {
    var first := Prepares(s, k, r, n);
    var s1 := Run(s, first);
    var second := FlagCleared(s1, k, r, n);
    var s2 := Run(s1, second);
    RestSettles(s2, k);
    var third := OutlivesFrom(s2, k, r, n);
    run := first + (second + third);
    RunTwo(s, first, second + third);
    RunTwo(s1, second, third);
  }

  lemma FlagCleared(s: State, k: Key, r: nat, n: nat) returns (run: seq<Action>)
    requires Ready(s, k, n) && s.conf.queueCap > 0 && !Harmless(s, k)
    ensures var s' := Run(s, run);
            Kindly(s, s', k, r) && Ready(s', k, n) && !WriterSpent(s', k) && (!MayPut(s', k) ==> k in s'.blocks.staged)
  {
    if Writer(k) in s.threads && s.threads[Writer(k)].Held? && BeforeClaim(s, k, s.threads[Writer(k)].item) {
      run := HolderLetsGo(s, k, r, n, s.threads[Writer(k)].item);
    } else {
      run := [];
      if Writer(k) in s.threads { ThreadIsOk(s, Writer(k)); }
    }
  }

  /** The conditions of RemoveLeavesNothing and NoFileLeavesNothing cannot be widened: from every
      reachable state that meets neither, Remove can run to its end without a failed delete, everything
      can settle, and the object is there. */
  lemma RemoveNeedsSpentWriter(s: State, k: Key, r: nat, n: nat) returns (run: seq<Action>)
    requires Inv(s) && SlotsOk(s) && s.conf.maxUpload > 0 && s.conf.queueCap > 0
    requires Remover(r) !in s.threads && Uploader(n) !in s.threads && !Harmless(s, k)
    ensures LeftBehind(s, Run(s, run), k, r)
  {
    if SlotOk(s, Writer(k)) {
      run := PutsWithSlot(s, k, r);
    } else {
      run := PutsWithoutSlot(s, k, r, n);
    }
  }
}
