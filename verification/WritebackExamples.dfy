/** Runs that show where the guarantees stop. */
module WritebackExamples {
  import opened Common
  import opened Writeback
  import opened WritebackWakeup
  import opened WritebackRemove
  import opened WritebackInvariant
  import opened WritebackDurability
  import opened WritebackWalk
  import opened WritebackRest
  import opened WritebackOrphan
  import opened WritebackOrphanRun
  import opened WritebackOutlive

  const CONF := Conf(100, 1, 0)
  const K := Key(1, 0, 4)                  // the block that is staged
  const OTHER := Key(2, 0, 4)              // a block that uploads through
  const W := Writer(K)
  const G := Stager(K)
  const D := Writer(OTHER)
  const B := Barrier(0)
  const S := Sweep(0)
  const FENCE := Fence(1, map[0 := 0])


  function Goto(s: State, t: Tid, pc: PC): State {
    s.(threads := s.threads[t := pc])
  }

  /** `s` is reached by running `actions`. */
  ghost predicate Reaches(actions: seq<Action>, s: State) {
    Run(Init(CONF), actions) == s
  }

  /** A goroutine that exists takes the step `e`. */
  lemma Go(actions: seq<Action>, s: State, a: Action, e: Effect)
    requires WF(Init(CONF)) && Reaches(actions, s) && a.tid in s.threads && PcOk(s.table, a.tid, s.threads[a.tid])
    requires Move(s, a.tid, s.threads[a.tid], a.choice) == e && EventOk(s.table, e.ev)
    ensures Reaches(actions + [a], Take(s, a.tid, e))
  {
    RunTwo(Init(CONF), actions, [a]);
  }

  /** A goroutine starts. */
  lemma Start(actions: seq<Action>, s: State, a: Action)
    requires WF(Init(CONF)) && Reaches(actions, s) && a.tid !in s.threads && CanRun(s, a.tid)
    ensures Reaches(actions + [a], Goto(s, a.tid, Entry(a.tid, a.choice)))
  {
    RunTwo(Init(CONF), actions, [a]);
  }

  /** The block of D holds the only upload slot. */
  function SlotTaken(): State {
    State(CONF, Table([], map[], [], 0), Blocks({}, map[], {}, []), {D},
          map[D := Bare(DirectPut)], Hist({}, {}, {}, {}, {}, {}, multiset{}, 0))
  }

  lemma ReachSlotTaken() returns (run: seq<Action>)
    ensures Reaches(run, SlotTaken())
  {
    run := [];
    var s := Init(CONF);
    Start(run, s, Yes(D));
    run, s := run + [Yes(D)], Goto(s, D, Entry(D, Yes(D).choice));
    Go(run, s, No(D), To(Nothing, Bare(Direct)));
    run, s := run + [No(D)], Take(s, D, To(Nothing, Bare(Direct)));
    Go(run, s, Yes(D), To(TakeASlot, Bare(DirectPut)));
    run, s := run + [Yes(D)], Take(s, D, To(TakeASlot, Bare(DirectPut)));
    assert s == SlotTaken();
  }

  /** W has entered the staging branch. */
  function Entered(): State {
    State(CONF, Table([], map[], [], 0), Blocks({}, map[K := StagePending], {}, []), {D},
          map[D := Bare(DirectPut), W := Bare(Await)], Hist({}, {}, {}, {}, {}, {}, multiset{}, 1))
  }

  lemma ReachEntered() returns (run: seq<Action>)
    ensures Reaches(run, Entered())
  {
    run := ReachSlotTaken();
    var s := SlotTaken();
    Start(run, s, Yes(W));
    run, s := run + [Yes(W)], Goto(s, W, Entry(W, Yes(W).choice));
    assert Branch(s) == {};
    Go(run, s, Yes(W), To(Enters(K), Bare(Await)));
    run, s := run + [Yes(W)], Take(s, W, To(Enters(K), Bare(Await)));
    assert s == Entered();
  }

  /** Its staging goroutine has written the file. */
  function StageWritten(): State {
    State(CONF, Table([], map[], [], 0), Blocks({K}, map[K := StagePending], {}, []), {D},
          map[D := Bare(DirectPut), W := Bare(Await), G := Stage(Settle)], Hist({}, {}, {}, {}, {}, {}, multiset{}, 1))
  }

  lemma ReachStageWritten() returns (run: seq<Action>)
    ensures Reaches(run, StageWritten())
  {
    run := ReachEntered();
    var s := Entered();
    Start(run, s, Yes(G));
    run, s := run + [Yes(G)], Goto(s, G, Entry(G, Yes(G).choice));
    Go(run, s, Yes(G), To(Stages(K), Stage(Settle)));
    run, s := run + [Yes(G)], Take(s, G, To(Stages(K), Stage(Settle)));
    assert s == StageWritten();
  }

  /** W is about to register its block. */
  function StagedBlock(): State {
    State(CONF, Table([], map[], [], 0), Blocks({K}, map[K := StageSucceeded], {}, []), {D},
          map[D := Bare(DirectPut), W := Bare(Register), G := Stage(Staged(true))], Hist({}, {}, {}, {}, {}, {}, multiset{}, 1))
  }

  lemma ReachStagedBlock() returns (run: seq<Action>)
    ensures Reaches(run, StagedBlock())
  {
    run := ReachStageWritten();
    var s := StageWritten();
    Go(run, s, Yes(G), To(StageTo(K, StageSucceeded), Stage(Staged(true))));
    run, s := run + [Yes(G)], Take(s, G, To(StageTo(K, StageSucceeded), Stage(Staged(true))));
    Go(run, s, No(W), To(Nothing, Bare(Register)));
    run, s := run + [No(W)], Take(s, W, To(Nothing, Bare(Register)));
    assert s == StagedBlock();
  }

  /** W has registered and acknowledged its block. */
  function Acknowledged(): State {
    State(CONF, Table([Item(K, false, false, 0)], map[K := 0], [], 1), Blocks({K}, map[K := StageSucceeded], {}, [Message(K, true)]), {D},
          map[D := Bare(DirectPut), W := Held(Now, 0), G := Stage(Staged(true))], Hist({}, {}, {}, {}, {}, {}, multiset{}, 1))
  }

  lemma ReachAcknowledged() returns (run: seq<Action>)
    ensures Reaches(run, Acknowledged())
  {
    run := ReachStagedBlock();
    var s := StagedBlock();
    Go(run, s, Yes(W), To(Registers(K), Held(Ack, 0)));
    run, s := run + [Yes(W)], Take(s, W, To(Registers(K), Held(Ack, 0)));
    Go(run, s, Yes(W), To(Acks(K), Held(Now, 0)));
    run, s := run + [Yes(W)], Take(s, W, To(Acks(K), Held(Now, 0)));
    assert s == Acknowledged();
  }

  /** W has claimed its item and found no free slot. */
  function Missed(): State {
    State(CONF, Table([Item(K, true, false, 0)], map[K := 0], [], 1), Blocks({K}, map[K := StageSucceeded], {}, [Message(K, true)]), {D},
          map[D := Bare(DirectPut), W := Held(Reset, 0), G := Stage(Staged(true))], Hist({}, {}, {}, {}, {}, {}, multiset{}, 1))
  }

  lemma ReachMissed() returns (run: seq<Action>)
    ensures Reaches(run, Missed())
  {
    run := ReachAcknowledged();
    var s := Acknowledged();
    Go(run, s, Yes(W), To(Nothing, Held(Claim, 0)));
    run, s := run + [Yes(W)], Take(s, W, To(Nothing, Held(Claim, 0)));
    Go(run, s, Yes(W), To(Claims(0), Held(TakeSlot, 0)));
    run, s := run + [Yes(W)], Take(s, W, To(Claims(0), Held(TakeSlot, 0)));
    Go(run, s, Yes(W), To(Nothing, Held(Reset, 0)));
    run, s := run + [Yes(W)], Take(s, W, To(Nothing, Held(Reset, 0)));
    assert s == Missed();
  }

  /** A barrier has taken its fence. */
  function Fenced(): State {
    State(CONF, Table([Item(K, true, false, 0)], map[K := 0], [], 1), Blocks({K}, map[K := StageSucceeded], {}, [Message(K, true)]), {D},
          map[D := Bare(DirectPut), W := Held(Reset, 0), G := Stage(Staged(true)), B := Scan(FENCE)], Hist({}, {}, {}, {}, {}, {}, multiset{}, 1))
  }

  lemma ReachFenced() returns (run: seq<Action>)
    ensures Reaches(run, Fenced())
  {
    run := ReachMissed();
    var s := Missed();
    Start(run, s, Yes(B));
    run, s := run + [Yes(B)], Goto(s, B, Entry(B, Yes(B).choice));
    assert Targets(s.table, 1) == {0} by { assert K in s.table.pending; }
    assert Baseline(s.table) == map[0 := 0];
    Go(run, s, Yes(B), To(Nothing, Scan(FENCE)));
    run, s := run + [Yes(B)], Take(s, B, To(Nothing, Scan(FENCE)));
    assert s == Fenced();
  }

  /** It queues its one target. */
  function Queueing(): State {
    State(CONF, Table([Item(K, true, false, 0)], map[K := 0], [], 1), Blocks({K}, map[K := StageSucceeded], {}, [Message(K, true)]), {D},
          map[D := Bare(DirectPut), W := Held(Reset, 0), G := Stage(Staged(true)), B := Queue(AtForce, 0, true, [], ToBarrier(FENCE, 1, {0}))], Hist({}, {}, {}, {}, {}, {}, multiset{}, 1))
  }

  lemma ReachQueueing() returns (run: seq<Action>)
    ensures Reaches(run, Queueing())
  {
    run := ReachFenced();
    var s := Fenced();
    assert Targets(s.table, 1) == {0} by { assert K in s.table.pending; }
    assert Elements([0]) == {0} && [0][1..] == [] && Failures(s.table, 0) == 0;
    Go(run, s, Pick(B, 0), To(Nothing, Queue(AtForce, 0, true, [], ToBarrier(FENCE, 1, {0}))));
    run, s := run + [Pick(B, 0)], Take(s, B, To(Nothing, Queue(AtForce, 0, true, [], ToBarrier(FENCE, 1, {0}))));
    assert s == Queueing();
  }

  /** It forces the item. */
  function Forced(): State {
    State(CONF, Table([Item(K, true, true, 0)], map[K := 0], [], 1), Blocks({K}, map[K := StageSucceeded], {}, [Message(K, true)]), {D},
          map[D := Bare(DirectPut), W := Held(Reset, 0), G := Stage(Staged(true)), B := Queue(AtGuard, 0, true, [], ToBarrier(FENCE, 1, {0}))], Hist({}, {}, {}, {}, {}, {}, multiset{}, 1))
  }

  lemma ReachForced() returns (run: seq<Action>)
    ensures Reaches(run, Forced())
  {
    run := ReachQueueing();
    var s := Queueing();
    Go(run, s, Yes(B), To(Forces(0, true), Queue(AtGuard, 0, true, [], ToBarrier(FENCE, 1, {0}))));
    run, s := run + [Yes(B)], Take(s, B, To(Forces(0, true), Queue(AtGuard, 0, true, [], ToBarrier(FENCE, 1, {0}))));
    assert s == Forced();
  }

  /** It found the flag set, and sleeps. */
  function Asleep(): State {
    State(CONF, Table([Item(K, true, true, 0)], map[K := 0], [], 1), Blocks({K}, map[K := StageSucceeded], {}, [Message(K, true)]), {D},
          map[D := Bare(DirectPut), W := Held(Reset, 0), G := Stage(Staged(true)), B := Wait(FENCE, 1, {0})], Hist({}, {}, {}, {}, {}, {}, multiset{}, 1))
  }

  lemma ReachAsleep() returns (run: seq<Action>)
    ensures Reaches(run, Asleep())
  {
    run := ReachForced();
    var s := Forced();
    Go(run, s, Yes(B), To(Nothing, Queue(AtCas, 0, true, [], ToBarrier(FENCE, 1, {0}))));
    run, s := run + [Yes(B)], Take(s, B, To(Nothing, Queue(AtCas, 0, true, [], ToBarrier(FENCE, 1, {0}))));
    Go(run, s, Yes(B), To(Nothing, Wait(FENCE, 1, {0})));
    run, s := run + [Yes(B)], Take(s, B, To(Nothing, Wait(FENCE, 1, {0})));
    assert s == Asleep();
  }

  /** W clears the flag without a signal. */
  function Cleared(): State {
    State(CONF, Table([Item(K, false, true, 0)], map[K := 0], [], 1), Blocks({K}, map[K := StageSucceeded], {}, [Message(K, true)]), {D},
          map[D := Bare(DirectPut), W := Queue(AtForce, 0, false, [], ToWriter(true)), G := Stage(Staged(true)), B := Wait(FENCE, 1, {0})], Hist({}, {}, {}, {}, {}, {}, multiset{0}, 1))
  }

  lemma ReachCleared() returns (run: seq<Action>)
    ensures Reaches(run, Cleared())
  {
    run := ReachAsleep();
    var s := Asleep();
    Go(run, s, Yes(W), To(Clears(0, true), Held(Delay(true), 0)));
    run, s := run + [Yes(W)], Take(s, W, To(Clears(0, true), Held(Delay(true), 0)));
    Go(run, s, Yes(W), To(Registers(K), Queue(AtForce, 0, false, [], ToWriter(true))));
    run, s := run + [Yes(W)], Take(s, W, To(Registers(K), Queue(AtForce, 0, false, [], ToWriter(true))));
    assert s == Cleared();
  }

  /** It looks at the item once more. */
  function Guarded(): State {
    State(CONF, Table([Item(K, false, true, 0)], map[K := 0], [], 1), Blocks({K}, map[K := StageSucceeded], {}, [Message(K, true)]), {D},
          map[D := Bare(DirectPut), W := Queue(AtGuard, 0, false, [], ToWriter(true)), G := Stage(Staged(true)), B := Wait(FENCE, 1, {0})], Hist({}, {}, {}, {}, {}, {}, multiset{0}, 1))
  }

  lemma ReachGuarded() returns (run: seq<Action>)
    ensures Reaches(run, Guarded())
  {
    run := ReachCleared();
    var s := Cleared();
    Go(run, s, Yes(W), To(Nothing, Queue(AtGuard, 0, false, [], ToWriter(true))));
    run, s := run + [Yes(W)], Take(s, W, To(Nothing, Queue(AtGuard, 0, false, [], ToWriter(true))));
    assert s == Guarded();
  }

  /** Then it finds the item not due. */
  function LeftAlone(): State {
    State(CONF, Table([Item(K, false, true, 0)], map[K := 0], [], 1), Blocks({K}, map[K := StageSucceeded], {}, [Message(K, true)]), {D},
          map[D := Bare(DirectPut), W := Bare(Done), G := Stage(Staged(true)), B := Wait(FENCE, 1, {0})], Hist({}, {}, {}, {}, {}, {0}, multiset{0}, 1))
  }

  lemma ReachLeftAlone() returns (run: seq<Action>)
    ensures Reaches(run, LeftAlone())
  {
    run := ReachGuarded();
    var s := Guarded();
    Go(run, s, No(W), To(Loses(0), Bare(Done)));
    run, s := run + [No(W)], Take(s, W, To(Loses(0), Bare(Done)));
    assert s == LeftAlone();
  }

  /** D puts its object. */
  function Uploaded(): State {
    State(CONF, Table([Item(K, false, true, 0)], map[K := 0], [], 1), Blocks({K}, map[K := StageSucceeded], {OTHER}, [Message(K, true), Message(OTHER, true)]), {D},
          map[D := Bare(Release), W := Bare(Done), G := Stage(Staged(true)), B := Wait(FENCE, 1, {0})], Hist({}, {}, {}, {}, {}, {0}, multiset{0}, 1))
  }

  lemma ReachUploaded() returns (run: seq<Action>)
    ensures Reaches(run, Uploaded())
  {
    run := ReachLeftAlone();
    var s := LeftAlone();
    Go(run, s, Yes(D), To(PutsAndAcks(OTHER), Bare(Release)));
    run, s := run + [Yes(D)], Take(s, D, To(PutsAndAcks(OTHER), Bare(Release)));
    assert s == Uploaded();
  }

  /** D ends as well. */
  function AllDone(): State {
    State(CONF, Table([Item(K, false, true, 0)], map[K := 0], [], 1), Blocks({K}, map[K := StageSucceeded], {OTHER}, [Message(K, true), Message(OTHER, true)]), {},
          map[D := Bare(Done), W := Bare(Done), G := Stage(Staged(true)), B := Wait(FENCE, 1, {0})], Hist({}, {}, {}, {}, {}, {0}, multiset{0}, 1))
  }

  lemma ReachAllDone() returns (run: seq<Action>)
    ensures Reaches(run, AllDone())
  {
    run := ReachUploaded();
    var s := Uploaded();
    Go(run, s, Yes(D), To(FreeSlot, Bare(Done)));
    run, s := run + [Yes(D)], Take(s, D, To(FreeSlot, Bare(Done)));
    assert s == AllDone();
  }

  /** A wake-up can be lost: a run after which every goroutine is at rest, the sweep among them,
      the acknowledged block is still only staged, and the barrier sleeps on the open channel.
      It sleeps until a sweep finds the item due. */
  lemma WakeupCanBeLost() returns (run: seq<Action>)
    ensures var s := Run(Init(CONF), run);
            && Quiescent(s) && B in s.threads && s.threads[B].Wait? && s.threads[B].changed == s.table.epoch
            && 0 in s.threads[B].targets && IsCurrent(s.table, 0) && K !in s.blocks.store
            && S in s.threads && s.threads[S] == Idle
  {
    run := ReachAllDone();
    var s := AllDone();
    Start(run, s, Yes(S));
    run, s := run + [Yes(S)], Goto(s, S, Idle);
  }

  /** A direct upload outlives Remove: Remove runs while the writer is about to put. */
  lemma DirectUploadOutlivesRemove() returns (run: seq<Action>)
    ensures var s := Run(Init(CONF), run);
            && Outlived(s, OTHER, 0) && Settles(s, OTHER) && OTHER !in s.hist.failedDeletes && OTHER !in s.hist.strays
  {
    var first := ReachSlotTaken();
    var second := PutOutlives(SlotTaken(), OTHER, 0);
    run := first + second;
    RunTwo(Init(CONF), first, second);
    StillSettles(SlotTaken(), Run(Init(CONF), run), OTHER, 0, 0);
  }

  /** W has acknowledged its block, and D has put its own. */
  function PutByD(): State {
    State(CONF, Table([Item(K, false, false, 0)], map[K := 0], [], 1),
          Blocks({K}, map[K := StageSucceeded], {OTHER}, [Message(K, true), Message(OTHER, true)]), {D},
          map[D := Bare(Release), W := Held(Now, 0), G := Stage(Staged(true))], Hist({}, {}, {}, {}, {}, {}, multiset{}, 1))
  }

  lemma ReachPutByD() returns (run: seq<Action>)
    ensures Reaches(run, PutByD())
  {
    run := ReachAcknowledged();
    var s := Acknowledged();
    Go(run, s, Yes(D), To(PutsAndAcks(OTHER), Bare(Release)));
    run, s := run + [Yes(D)], Take(s, D, To(PutsAndAcks(OTHER), Bare(Release)));
    assert s == PutByD();
  }

  /** D is done. */
  function SlotBack(): State {
    State(CONF, Table([Item(K, false, false, 0)], map[K := 0], [], 1),
          Blocks({K}, map[K := StageSucceeded], {OTHER}, [Message(K, true), Message(OTHER, true)]), {},
          map[D := Bare(Done), W := Held(Now, 0), G := Stage(Staged(true))], Hist({}, {}, {}, {}, {}, {}, multiset{}, 1))
  }

  lemma ReachSlotBack() returns (run: seq<Action>)
    ensures Reaches(run, SlotBack())
  {
    run := ReachPutByD();
    var s := PutByD();
    Go(run, s, Yes(D), To(FreeSlot, Bare(Done)));
    run, s := run + [Yes(D)], Take(s, D, To(FreeSlot, Bare(Done)));
    assert s == SlotBack();
  }

  /** A staged block outlives Remove: its writer registers it again after the cancel, and an
      uploader that opened the stage file in time puts it after the delete. */
  lemma DelayedBlockOutlivesRemove() returns (run: seq<Action>)
    ensures var s := Run(Init(CONF), run);
            && Outlived(s, K, 0) && Settles(s, K) && K !in s.hist.failedDeletes && K !in s.hist.strays
  {
    var first := ReachSlotBack();
    var second := DelayOutlives(SlotBack(), K, 0, 0);
    run := first + second;
    RunTwo(Init(CONF), first, second);
    StillSettles(SlotBack(), Run(Init(CONF), run), K, 0, 0);
  }

  /** W is on its way back to register its block again. */
  function ComingBack(): State {
    Goto(SlotBack(), W, Held(Delay(false), 0))
  }

  lemma ReachComingBack() returns (run: seq<Action>)
    ensures Reaches(run, ComingBack())
  {
    run := ReachSlotBack();
    Go(run, SlotBack(), No(W), To(Nothing, Held(Delay(false), 0)));
    run := run + [No(W)];
  }

  /** Then the block is stored, and W makes an orphan of it. */
  lemma OrphanFrom(first: seq<Action>) returns (run: seq<Action>)
    requires Reaches(first, ComingBack())
    ensures Alone(Run(Init(CONF), run), K, 1, 0, 0)
  {
    InitInv(CONF);
    RunKeeps(Init(CONF), first);
    SlotsRun(Init(CONF), first);
    var second := OrphanAlone(ComingBack(), K, 0, 0, 0);
    run := first + second;
    RunTwo(Init(CONF), first, second);
  }

  /** A barrier fails for a block that is in the object store and was not removed. */
  lemma StoredBlockFailsBarrier() returns (run: seq<Action>)
    ensures FailedForStored(Run(Init(CONF), run), K, 1, 0)
  {
    var first := ReachComingBack();
    var orphaned := OrphanFrom(first);
    run := FailsFrom(orphaned);
  }

  lemma FailsFrom(first: seq<Action>) returns (run: seq<Action>)
    requires Alone(Run(Init(CONF), first), K, 1, 0, 0)
    ensures FailedForStored(Run(Init(CONF), run), K, 1, 0)
  {
    var second := StoredFails(Run(Init(CONF), first), K, 1, 0, 0);
    run := first + second;
    RunTwo(Init(CONF), first, second);
  }
}
