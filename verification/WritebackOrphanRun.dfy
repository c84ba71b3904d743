/** How an orphan comes about and fails a barrier, though its block is stored: a sweep queues the
    block and an uploader stores it while its writer is on its way back to register it; then a
    barrier forces the new item, the upload finds no stage file and records a failure, and the
    barrier reports it. */
module WritebackOrphanRun {
  import opened Common
  import opened Writeback
  import opened WritebackInvariant
  import opened WritebackDurability
  import opened WritebackWalk
  import opened WritebackRest
  import opened WritebackOutlive
  import opened WritebackOrphan

  lemma Starts(s: State, t: Tid)
    requires WF(s) && t !in s.threads && !t.Stager?
    ensures Step(s, Yes(t)) == s.(threads := s.threads[t := Entry(t, Yes(t).choice)])
  {
  }

  // ---------------------------------------------------------------- the orphan

  lemma SweepPicks(s: State, z: nat, q: nat)
    requires WF(s) && Sweep(z) in s.threads && s.threads[Sweep(z)] == Idle && IsCurrent(s.table, q)
    ensures Step(s, Pick(Sweep(z), q)) == s.(threads := s.threads[Sweep(z) := Queue(AtForce, q, false, [], ToSweep)])
  {
    assert [q][1..] == [];
  }

  /** A new sweep queues a pending item. */
  lemma SweepQueues(s: State, z: nat, q: nat) returns (run: seq<Action>)
    requires WF(s) && Sweep(z) !in s.threads && IsCurrent(s.table, q) && !Uploading(s.table, q)
    requires s.table.queue == [] && s.conf.queueCap > 0
    ensures var s' := Run(s, run);
            && Apart(s, s', Sweep(z)) && s'.blocks == s.blocks && s'.slots == s.slots
            && s'.table.pending == s.table.pending && s'.table.queue == [q] && s'.threads[Sweep(z)] == Idle
  {
    var t := Sweep(z);
    Starts(s, t);
    var s1 := Step(s, Yes(t));
    SweepPicks(s1, z, q);
    var s2 := Step(s1, Pick(t, q));
    var rest := QueuesOne(s2, t, q, false, ToSweep);
    run := [Yes(t)] + ([Pick(t, q)] + rest);
    RunOne(s, Yes(t), [Pick(t, q)] + rest);
    RunOne(s1, Pick(t, q), rest);
    ApartTrans(s, s2, Run(s, run), t);
  }

  /** The item is taken to the store, dropped, and its stage file removed. */
  lemma UploadedAway(s: State, k: Key, n: nat) returns (run: seq<Action>)
    requires WF(s) && Unused(s, n) && SlotFree(s) && k in s.blocks.staged
    requires k in s.table.pending && s.table.queue == [s.table.pending[k]]
    ensures var s' := Run(s, run);
            && Apart(s, s', Uploader(n)) && s'.threads[Uploader(n)] == Idle && k in s'.blocks.store
            && k !in s'.table.pending && k !in s'.blocks.staged && s'.table.queue == []
  {
    var first := PickedUp(s, k, n);
    var s1 := Run(s, first);
    var second := PutKept(s1, k, n, s.table.pending[k]);
    run := first + second;
    RunTwo(s, first, second);
    ApartTrans(s, s1, Run(s, run), Uploader(n));
  }

  /** The goroutines besides these stand where they stood, nothing is removed and nothing registered. */
  ghost predicate Idly(s: State, s': State, ts: set<Tid>) {
    && Along(s, s', ts) && s'.hist.removed == s.hist.removed
    && |s'.table.items| == |s.table.items| && s'.table.pending.Keys <= s.table.pending.Keys
  }

  lemma QueuedAndUploaded(s: State, k: Key, z: nat, n: nat) returns (run: seq<Action>)
    requires WF(s) && Sweep(z) !in s.threads && Unused(s, n) && SlotFree(s) && s.table.queue == [] && s.conf.queueCap > 0
    requires k in s.blocks.staged && k in s.table.pending && !Uploading(s.table, s.table.pending[k])
    ensures var s' := Run(s, run);
            && Idly(s, s', {Sweep(z), Uploader(n)}) && k in s'.blocks.store && k !in s'.table.pending && k !in s'.blocks.staged
            && s'.table.queue == [] && Uploader(n) in s'.threads && s'.threads[Uploader(n)] == Idle
            && Sweep(z) in s'.threads && s'.threads[Sweep(z)] == Idle
  {
    var first := SweepQueues(s, z, s.table.pending[k]);
    var s1 := Run(s, first);
    var second := UploadedAway(s1, k, n);
    run := first + second;
    RunTwo(s, first, second);
    AlongTrans(s, s1, Run(s, run), {Sweep(z)}, {Uploader(n)});
  }

  /** While the writer is on its way back to register its block, a sweep queues the block and an
      uploader stores it; then the writer makes an orphan of it. */
  lemma OrphanArises(s: State, k: Key, z: nat, n: nat) returns (run: seq<Action>)
    requires Inv(s) && AtDelay(s, k) && Sweep(z) !in s.threads && Unused(s, n) && SlotFree(s)
    requires s.table.queue == [] && s.conf.queueCap > 0 && s.table.pending.Keys == {k} && k in s.blocks.staged
    requires !Uploading(s.table, s.table.pending[k])
    ensures var s', q := Run(s, run), |s.table.items|;
            && Orphan(s', k, q) && k in s'.blocks.store && s'.hist.removed == s.hist.removed && s'.table.queue == []
            && s'.table.pending == map[k := q] && !Uploading(s'.table, q)
            && Along(s, s', {Writer(k), Sweep(z), Uploader(n)})
            && Uploader(n) in s'.threads && s'.threads[Uploader(n)] == Idle
            && Sweep(z) in s'.threads && s'.threads[Sweep(z)] == Idle
  {
    var first := QueuedAndUploaded(s, k, z, n);
    var s1 := Run(s, first);
    RunKeeps(s, first);
    ReturnsTooLate(s1, k);
    run := first + [Yes(Writer(k))];
    RunTwo(s, first, [Yes(Writer(k))]);
    RunOne(s1, Yes(Writer(k)), []);
    AlongTrans(s, s1, Run(s, run), {Sweep(z), Uploader(n)}, {Writer(k)});
  }

  lemma ReturnsTooLate(s: State, k: Key)
    requires Inv(s) && AtDelay(s, k) && k !in s.blocks.staged && s.table.pending == map[]
    ensures var s', q := Step(s, Yes(Writer(k))), |s.table.items|;
            && Apart(s, s', Writer(k)) && Orphan(s', k, q) && s'.blocks == s.blocks && s'.table.queue == s.table.queue
            && s'.table.pending == map[k := q] && !Uploading(s'.table, q)
  {
    RegistersAgain(s, k);
    MadeOrphan(s, k, Yes(Writer(k)).choice);
  }

  // ---------------------------------------------------------------- the barrier

  /** The barrier has taken its fence and waits for the item. */
  predicate WaitsFor(s: State, b: nat, q: nat, failures: nat, epoch: nat) {
    && Barrier(b) in s.threads && s.threads[Barrier(b)].Wait? && s.threads[Barrier(b)].changed == epoch
    && s.threads[Barrier(b)].fence == Fence(|s.table.items|, map[q := failures])
  }

  lemma OneTarget(m: Table, k: Key, q: nat)
    requires m.pending == map[k := q] && q < |m.items|
    ensures Targets(m, |m.items|) == {q} && Baseline(m) == map[q := Failures(m, q)] && Elements([q]) == {q}
  {
    assert k in m.pending;
  }

  lemma BarrierScans(s: State, k: Key, q: nat, b: nat)
    requires WF(s) && Barrier(b) in s.threads && s.table.pending == map[k := q] && q < |s.table.items|
    requires s.threads[Barrier(b)] == Scan(Fence(|s.table.items|, map[q := Failures(s.table, q)]))
    ensures var fence := Fence(|s.table.items|, map[q := Failures(s.table, q)]);
            Step(s, Pick(Barrier(b), q)) ==
            s.(threads := s.threads[Barrier(b) := Queue(AtForce, q, true, [], ToBarrier(fence, s.table.epoch, {q}))])
  {
    OneTarget(s.table, k, q);
    assert [q][1..] == [];
  }

  lemma BarrierQueues(s: State, k: Key, q: nat, b: nat) returns (run: seq<Action>)
    requires WF(s) && Barrier(b) in s.threads && s.table.pending == map[k := q] && q < |s.table.items| && !Uploading(s.table, q)
    requires s.threads[Barrier(b)] == Scan(Fence(|s.table.items|, map[q := Failures(s.table, q)]))
    requires s.table.queue == [] && s.conf.queueCap > 0
    ensures var s' := Run(s, run);
            && Apart(s, s', Barrier(b)) && s'.blocks == s.blocks && s'.slots == s.slots && SameEntries(s.table, s'.table)
            && s'.table.queue == [q] && WaitsFor(s', b, q, Failures(s.table, q), s.table.epoch)
  {
    var t, fence := Barrier(b), Fence(|s.table.items|, map[q := Failures(s.table, q)]);
    BarrierScans(s, k, q, b);
    var s1 := Step(s, Pick(t, q));
    var rest := QueuesOne(s1, t, q, true, ToBarrier(fence, s.table.epoch, {q}));
    run := [Pick(t, q)] + rest;
    RunOne(s, Pick(t, q), rest);
    ApartTrans(s, s1, Run(s, run), t);
  }

  /** A new barrier takes its fence and forces the one pending item. */
  lemma BarrierForces(s: State, k: Key, q: nat, b: nat) returns (run: seq<Action>)
    requires WF(s) && Barrier(b) !in s.threads && s.table.pending == map[k := q] && q < |s.table.items| && !Uploading(s.table, q)
    requires s.table.queue == [] && s.conf.queueCap > 0
    ensures var s' := Run(s, run);
            && Apart(s, s', Barrier(b)) && s'.blocks == s.blocks && s'.slots == s.slots && SameEntries(s.table, s'.table)
            && s'.table.queue == [q] && WaitsFor(s', b, q, Failures(s.table, q), s.table.epoch)
  {
    var first := BarrierCaptures(s, k, q, b);
    var s1 := Run(s, first);
    var second := BarrierQueues(s1, k, q, b);
    run := first + second;
    RunTwo(s, first, second);
    ApartTrans(s, s1, Run(s, run), Barrier(b));
  }

  lemma BarrierCaptures(s: State, k: Key, q: nat, b: nat) returns (run: seq<Action>)
    requires WF(s) && Barrier(b) !in s.threads && s.table.pending == map[k := q] && q < |s.table.items|
    ensures Run(s, run) == s.(threads := s.threads[Barrier(b) := Scan(Fence(|s.table.items|, map[q := Failures(s.table, q)]))])
  {
    var t := Barrier(b);
    Starts(s, t);
    OneTarget(s.table, k, q);
    run := [Yes(t)] + [Yes(t)];
    RunOne(s, Yes(t), [Yes(t)]);
    RunOne(Step(s, Yes(t)), Yes(t), []);
  }

  // ---------------------------------------------------------------- the upload

  /** An uploader on its way to fail for want of the stage file, or that has. */
  predicate Failing(s: State, k: Key, q: nat, failures: nat, epoch: nat, pc: PC) {
    && ItemIs(s.table, q, k) && IsCurrent(s.table, q) && k !in s.blocks.staged
    && match pc
       case Upload(u, q') =>
         && q' == q && Failures(s.table, q) == failures && s.table.epoch == epoch && (u.AwaitSlot? ==> SlotFree(s))
         && (u.AwaitSlot? || u.Valid1? || u.CheckForced? || u.Open? || u.OpenFailed? || u.RecordStaged?)
       case _ => pc == Finish(AtStore, q) && Failures(s.table, q) == failures + 1 && s.table.epoch > epoch
  }

  function FailRank(pc: PC): nat {
    match pc
    case Upload(u, _) =>
      (match u case AwaitSlot => 6 case Valid1 => 5 case CheckForced => 4 case Open => 3 case OpenFailed => 2 case _ => 1)
    case _ => 0
  }

  lemma FailingMove(s: State, k: Key, q: nat, n: nat, failures: nat, epoch: nat, pc: PC)
    requires TableOk(s.table) && PcOk(s.table, Uploader(n), pc) && Failing(s, k, q, failures, epoch, pc) && pc.Upload?
    ensures var e := Move(s, Uploader(n), pc, Yes(Uploader(n)).choice);
            && EventOk(s.table, e.ev) && GoesWell(e.ev) && Failing(Apply(s, Uploader(n), e.ev), k, q, failures, epoch, e.pc)
            && FailRank(e.pc) < FailRank(pc) && BlocksAfter(s.blocks, e.ev) == s.blocks && After(s.table, e.ev).pending == s.table.pending
  {
  }

  lemma FailingStep(s: State, k: Key, q: nat, n: nat, failures: nat, epoch: nat)
    requires WF(s) && Uploader(n) in s.threads && Failing(s, k, q, failures, epoch, s.threads[Uploader(n)]) && s.threads[Uploader(n)].Upload?
    ensures var s' := Step(s, Yes(Uploader(n)));
            && Apart(s, s', Uploader(n)) && Failing(s', k, q, failures, epoch, s'.threads[Uploader(n)]) && s'.blocks == s.blocks
            && FailRank(s'.threads[Uploader(n)]) < FailRank(s.threads[Uploader(n)]) && s'.table.pending == s.table.pending
  {
    ThreadIsOk(s, Uploader(n));
    FailingMove(s, k, q, n, failures, epoch, s.threads[Uploader(n)]);
    StepIsApart(s, Yes(Uploader(n)));
    FailingAsApplied(s, k, q, n, failures, epoch, Next(s, Yes(Uploader(n))));
  }

  lemma FailingAsApplied(s: State, k: Key, q: nat, n: nat, failures: nat, epoch: nat, e: Effect)
    requires EventOk(s.table, e.ev) && Failing(Apply(s, Uploader(n), e.ev), k, q, failures, epoch, e.pc)
    ensures Failing(Take(s, Uploader(n), e), k, q, failures, epoch, e.pc)
  {
  }

  lemma {:induction false} UploadFails(s: State, k: Key, q: nat, n: nat, failures: nat, epoch: nat) returns (run: seq<Action>)
    requires WF(s) && Uploader(n) in s.threads && Failing(s, k, q, failures, epoch, s.threads[Uploader(n)])
    ensures var s' := Run(s, run);
            && Apart(s, s', Uploader(n)) && s'.blocks == s.blocks && s'.table.pending == s.table.pending
            && Failures(s'.table, q) == failures + 1 && s'.table.epoch > epoch
    decreases FailRank(s.threads[Uploader(n)])
  {
    if !s.threads[Uploader(n)].Upload? {
      run := [];
    } else {
      var a := Yes(Uploader(n));
      FailingStep(s, k, q, n, failures, epoch);
      var rest := UploadFails(Step(s, a), k, q, n, failures, epoch);
      run := [a] + rest;
      RunOne(s, a, rest);
      ApartTrans(s, Step(s, a), Run(s, run), Uploader(n));
    }
  }

  lemma TakesItem(s: State, k: Key, q: nat, n: nat)
    requires WF(s) && Uploader(n) in s.threads && s.threads[Uploader(n)] == Idle && s.table.queue == [q] && SlotFree(s)
    requires ItemIs(s.table, q, k) && IsCurrent(s.table, q) && k !in s.blocks.staged
    ensures var s' := Step(s, Yes(Uploader(n)));
            && Apart(s, s', Uploader(n)) && s'.blocks == s.blocks && s'.table.pending == s.table.pending
            && Failing(s', k, q, Failures(s.table, q), s.table.epoch, s'.threads[Uploader(n)])
  {
    StepIsApart(s, Yes(Uploader(n)));
  }

  /** An idle uploader takes the item and records a failure. */
  lemma ItemFails(s: State, k: Key, q: nat, n: nat) returns (run: seq<Action>)
    requires WF(s) && Uploader(n) in s.threads && s.threads[Uploader(n)] == Idle && s.table.queue == [q] && SlotFree(s)
    requires ItemIs(s.table, q, k) && IsCurrent(s.table, q) && k !in s.blocks.staged
    ensures var s' := Run(s, run);
            && Apart(s, s', Uploader(n)) && s'.blocks == s.blocks && s'.table.pending == s.table.pending
            && Failures(s'.table, q) == Failures(s.table, q) + 1 && s'.table.epoch > s.table.epoch
  {
    var a := Yes(Uploader(n));
    TakesItem(s, k, q, n);
    var rest := UploadFails(Step(s, a), k, q, n, Failures(s.table, q), s.table.epoch);
    run := [a] + rest;
    RunOne(s, a, rest);
    ApartTrans(s, Step(s, a), Run(s, run), Uploader(n));
  }

  // ---------------------------------------------------------------- the verdict

  lemma BarrierGivesUp(s: State, k: Key, q: nat, b: nat, failures: nat, epoch: nat) returns (run: seq<Action>)
    requires WF(s) && WaitsFor(s, b, q, failures, epoch) && s.table.pending == map[k := q] && q < |s.table.items|
    requires Failures(s.table, q) > failures && s.table.epoch > epoch
    ensures var s' := Run(s, run);
            && Barrier(b) in s'.threads && s'.threads[Barrier(b)].Settled? && s'.threads[Barrier(b)].outcome == UploadFailed(q)
            && s'.blocks == s.blocks && s'.hist == s.hist && s'.table == s.table
  {
    var t := Barrier(b);
    OneTarget(s.table, k, q);
    ThreadIsOk(s, t);
    var s1 := Step(s, Yes(t));
    assert s1 == s.(threads := s.threads[t := Scan(s.threads[t].fence)]);
    run := [Yes(t)] + [Pick(t, q)];
    RunOne(s, Yes(t), [Pick(t, q)]);
    RunOne(s1, Pick(t, q), []);
    assert FailedSince(s1.table, s.threads[t].fence, q);
  }

  /** An orphan alone, with its block in the store and an idle uploader, before a barrier starts. */
  ghost predicate Alone(s: State, k: Key, q: nat, b: nat, n: nat) {
    && WF(s) && Orphan(s, k, q) && s.table.pending == map[k := q] && !Uploading(s.table, q)
    && k in s.blocks.store && k !in s.hist.removed && s.table.queue == [] && s.conf.queueCap > 0 && SlotFree(s)
    && Barrier(b) !in s.threads && Uploader(n) in s.threads && s.threads[Uploader(n)] == Idle
  }

  lemma NoSlotTaken(s: State)
    requires SlotsOk(s) && s.conf.maxUpload > 0 && forall t | t in s.threads :: !HoldsSlot(s.threads[t])
    ensures SlotFree(s)
  {
    forall t ensures t !in s.slots { assert t in s.slots ==> SlotOk(s, t); }
    assert s.slots == {};
  }

  lemma OrphanAlone(s: State, k: Key, z: nat, n: nat, b: nat) returns (run: seq<Action>)
    requires Inv(s) && AtDelay(s, k) && Sweep(z) !in s.threads && Unused(s, n) && Barrier(b) !in s.threads
    requires s.table.queue == [] && s.conf.queueCap > 0 && s.table.pending.Keys == {k} && k in s.blocks.staged
    requires !Uploading(s.table, s.table.pending[k]) && k !in s.hist.removed
    requires SlotsOk(s) && s.conf.maxUpload > 0 && forall t | t in s.threads :: !HoldsSlot(s.threads[t])
    ensures Alone(Run(s, run), k, |s.table.items|, b, n)
  {
    NoSlotTaken(s);
    run := OrphanArises(s, k, z, n);
    SlotsRun(s, run);
    NoSlotTaken(Run(s, run));
  }

  /** The barrier has failed for the item, though its block is stored and was not removed. */
  ghost predicate FailedForStored(s: State, k: Key, q: nat, b: nat) {
    && Barrier(b) in s.threads && s.threads[Barrier(b)].Settled? && s.threads[Barrier(b)].outcome == UploadFailed(q)
    && ItemIs(s.table, q, k) && k in s.blocks.store && k !in s.hist.removed
  }

  /** A barrier fails for a stored block. */
  lemma StoredFails(s: State, k: Key, q: nat, b: nat, n: nat) returns (run: seq<Action>)
    requires Alone(s, k, q, b, n)
    ensures FailedForStored(Run(s, run), k, q, b)
  {
    var first := BarrierForces(s, k, q, b);
    var s1 := Run(s, first);
    var second := ItemFails(s1, k, q, n);
    var s2 := Run(s1, second);
    var third := BarrierGivesUp(s2, k, q, b, Failures(s.table, q), s.table.epoch);
    run := first + (second + third);
    RunTwo(s, first, second + third);
    RunTwo(s1, second, third);
  }
}
