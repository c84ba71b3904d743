/** Runs of one goroutine beside others that stand still: a writer that goes on to put its
    block, a Remove that goes on to its end, a writer that returns to register its block
    again, and an uploader that takes a block to the store.  Each walk ends because the
    goroutine has fewer steps left after every step. */
module WritebackWalk {
  import opened Common
  import opened Writeback
  import opened WritebackInvariant

  /** A step of a goroutine whose call goes well, or does not. */
  function Yes(t: Tid): Action { Action(t, Choice(true, false, [], [])) }
  function No(t: Tid): Action { Action(t, Choice(false, false, [], [])) }

  /** A step of a goroutine that ranges over one pending item. */
  function Pick(t: Tid, q: nat): Action { Action(t, Choice(false, false, [q], [])) }

  /** Only goroutine `t` moved, no delete failed and no failed put left an object; only a writer
      registers and only a Remove cancels. */
  ghost predicate Apart(s: State, s': State, t: Tid) {
    && t in s'.threads && s'.threads == s.threads[t := s'.threads[t]] && s'.conf == s.conf
    && s'.hist.failedDeletes == s.hist.failedDeletes && s'.hist.strays == s.hist.strays
    && s.hist.removed <= s'.hist.removed && Extends(s.table, s'.table)
    && (!t.Writer? ==> |s'.table.items| == |s.table.items| && s'.table.pending.Keys <= s.table.pending.Keys)
    && (!t.Remover? ==> s'.hist.removed == s.hist.removed)
  }

  lemma ExtendsTrans(m: Table, m1: Table, m2: Table)
    requires Extends(m, m1) && Extends(m1, m2)
    ensures Extends(m, m2)
  {
    forall q | 0 <= q < |m.items| ensures m2.items[q].key == m.items[q].key {
      assert m1.items[q].key == m.items[q].key;
    }
  }

  lemma ApartTrans(s: State, s1: State, s2: State, t: Tid)
    requires Apart(s, s1, t) && Apart(s1, s2, t)
    ensures Apart(s, s2, t)
  {
    ExtendsTrans(s.table, s1.table, s2.table);
  }

  /** Neither a failed delete nor a put that failed. */
  predicate GoesWell(ev: Event) {
    !ev.DeleteFails? && !ev.Strays? && !ev.Nacks?
  }

  lemma ProperMove(s: State, t: Tid, pc: PC, c: Choice)
    requires PcOk(s.table, t, pc)
    ensures var ev := Move(s, t, pc, c).ev; (ev.Registers? ==> t.Writer?) && (ev.Cancels? ==> t.Remover?)
  {
  }

  lemma StepIsApart(s: State, a: Action)
    requires WF(s) && CanRun(s, a.tid) && GoesWell(Next(s, a).ev)
    ensures Apart(s, Step(s, a), a.tid)
  {
    AfterExtends(s.table, Next(s, a).ev);
    if a.tid in s.threads {
      ThreadIsOk(s, a.tid);
      ProperMove(s, a.tid, s.threads[a.tid], a.choice);
    }
    if !Next(s, a).ev.Registers? { ItemsAndPending(s.table, Next(s, a).ev); }
  }

  lemma ItemsAndPending(m: Table, ev: Event)
    requires EventOk(m, ev) && !ev.Registers?
    ensures |After(m, ev).items| == |m.items| && After(m, ev).pending.Keys <= m.pending.Keys
  {
  }

  lemma RunOne(s: State, a: Action, rest: seq<Action>)
    requires WF(s)
    ensures Run(s, [a] + rest) == Run(Step(s, a), rest)
  {
    assert ([a] + rest)[1..] == rest;
  }

  lemma {:induction false} RunTwo(s: State, first: seq<Action>, second: seq<Action>)
    requires WF(s)
    ensures Run(s, first + second) == Run(Run(s, first), second)
    decreases |first|
  {
    if first == [] {
      assert first + second == second;
    } else {
      assert (first + second)[0] == first[0] && (first + second)[1..] == first[1..] + second;
      RunTwo(Step(s, first[0]), first[1..], second);
    }
  }

  // ---------------------------------------------------------------- a writer that puts its object

  /** From here the writer can go on to put its object, or it has. */
  predicate OnWay(s: State, k: Key, pc: PC) {
    match pc
    case Bare(o) =>
      if o.Release? || o.Done? then k in s.blocks.store
      else if o.Register? then SlotFree(s) && (k in s.table.pending ==> !Uploading(s.table, s.table.pending[k]))
      else o.DirectPut? || SlotFree(s)
    case Held(h, q) =>
      if h.Ack? || h.Now? || h.Claim? then SlotFree(s) && !Uploading(s.table, q)
      else if h.TakeSlot? then SlotFree(s)
      else h.Put? || ((h.Forget? || h.Unstage?) && k in s.blocks.store)
    case _ => pc.Finish? && k in s.blocks.store
  }

  function BareRank(o: OpenAt): nat {
    match o
    case Done => 0 case Release => 1 case DirectPut => 2 case Direct => 3
    case Undo => 4 case Abandon => 5 case Await => 6 case Check => 7 case Register => 11
  }

  function HeldRank(h: HeldAt): nat {
    match h
    case Unstage => 4 case Forget => 5 case Put => 6 case TakeSlot => 7
    case Claim => 8 case Now => 9 case Ack => 10 case _ => 0
  }

  /** Steps to the end. */
  function Rank(pc: PC): nat {
    match pc
    case Bare(o) => BareRank(o)
    case Held(h, _) => HeldRank(h)
    case Finish(fin, _) => (match fin case AtStore => 3 case AtWake => 2 case AtSlot => 1)
    case _ => 0
  }

  /** A put or a slot is never refused to a writer on its way, and the staging branch is not entered. */
  function Onward(pc: PC): Choice {
    Choice(pc != Bare(Check), false, [], [])
  }

  /** A freshly registered item is not being uploaded. */
  lemma RegisterGoesOn(s: State, k: Key)
    requires TableOk(s.table) && OnWay(s, k, Bare(Register))
    ensures OnWay(Apply(s, Writer(k), Registers(k)), k, Held(Ack, ItemFor(s.table, k)))
  {
  }

  /** Before it waits for a slot the writer touches neither slots nor table. */
  lemma EarlyGoesOn(s: State, k: Key, o: OpenAt)
    requires SlotFree(s) && (o.Check? || o.Await? || o.Abandon? || o.Undo?)
    ensures var e := BareStep(s, k, o, Onward(Bare(o)));
            && (e.ev.Nothing? || e.ev.StageTo? || e.ev.Unstages?) && (e.pc == Bare(Direct) || e.pc == Bare(Abandon) || e.pc == Bare(Undo))
            && Rank(e.pc) < BareRank(o)
  {
  }

  lemma LateGoesOn(s: State, k: Key, o: OpenAt)
    requires OnWay(s, k, Bare(o)) && (o.Direct? || o.DirectPut? || o.Release?)
    ensures var e := BareStep(s, k, o, Onward(Bare(o)));
            EventOk(s.table, e.ev) && GoesWell(e.ev) && OnWay(Apply(s, Writer(k), e.ev), k, e.pc) && Rank(e.pc) < BareRank(o)
  {
  }

  lemma BareGoesOn(s: State, k: Key, o: OpenAt)
    requires TableOk(s.table) && OnWay(s, k, Bare(o)) && !o.Done?
    ensures var e := BareStep(s, k, o, Onward(Bare(o)));
            EventOk(s.table, e.ev) && GoesWell(e.ev) && OnWay(Apply(s, Writer(k), e.ev), k, e.pc) && Rank(e.pc) < BareRank(o)
  {
    if o.Register? {
      RegisterGoesOn(s, k);
    } else if o.Direct? || o.DirectPut? || o.Release? {
      LateGoesOn(s, k, o);
    } else {
      EarlyGoesOn(s, k, o);
    }
  }

  lemma HeldGoesOn(s: State, k: Key, h: HeldAt, q: nat)
    requires TableOk(s.table) && OnWay(s, k, Held(h, q)) && q < |s.table.items|
    ensures var e := HeldStep(s, k, h, q, Onward(Held(h, q)));
            EventOk(s.table, e.ev) && GoesWell(e.ev) && OnWay(Apply(s, Writer(k), e.ev), k, e.pc) && Rank(e.pc) < HeldRank(h)
  {
  }

  lemma FinishGoesOn(s: State, k: Key, fin: FinishAt, q: nat)
    requires k in s.blocks.store && q < |s.table.items|
    ensures var e := FinishStep(Writer(k), fin, q);
            && EventOk(s.table, e.ev) && GoesWell(e.ev) && OnWay(Apply(s, Writer(k), e.ev), k, e.pc)
            && Rank(e.pc) < Rank(Finish(fin, q))
  {
  }

  lemma MoveGoesOn(s: State, k: Key, pc: PC)
    requires TableOk(s.table) && PcOk(s.table, Writer(k), pc) && OnWay(s, k, pc) && pc != Bare(Done)
    ensures var e := Move(s, Writer(k), pc, Onward(pc));
            EventOk(s.table, e.ev) && GoesWell(e.ev) && OnWay(Apply(s, Writer(k), e.ev), k, e.pc) && Rank(e.pc) < Rank(pc)
  {
    match pc
    case Bare(o) => BareGoesOn(s, k, o);
    case Held(h, q) => HeldGoesOn(s, k, h, q);
    case Finish(fin, q) => FinishGoesOn(s, k, fin, q);
    case _ =>
  }

  lemma WriterStep(s: State, k: Key) returns (a: Action)
    requires WF(s) && Writer(k) in s.threads && OnWay(s, k, s.threads[Writer(k)]) && s.threads[Writer(k)] != Bare(Done)
    ensures var s' := Step(s, a);
            && a.tid == Writer(k) && Apart(s, s', Writer(k)) && OnWay(s', k, s'.threads[Writer(k)])
            && Rank(s'.threads[Writer(k)]) < Rank(s.threads[Writer(k)])
  {
    var pc := s.threads[Writer(k)];
    ThreadIsOk(s, Writer(k));
    a := Action(Writer(k), Onward(pc));
    MoveGoesOn(s, k, pc);
    StepIsApart(s, a);
    OnWayAsApplied(s, k, Next(s, a));
  }

  lemma OnWayAsApplied(s: State, k: Key, e: Effect)
    requires EventOk(s.table, e.ev) && OnWay(Apply(s, Writer(k), e.ev), k, e.pc)
    ensures OnWay(Take(s, Writer(k), e), k, e.pc)
  {
  }

  /** The writer runs to its end and leaves its object. */
  lemma {:induction false} WriterGoesOn(s: State, k: Key) returns (run: seq<Action>)
    requires WF(s) && Writer(k) in s.threads && OnWay(s, k, s.threads[Writer(k)])
    ensures var s' := Run(s, run); Apart(s, s', Writer(k)) && s'.threads[Writer(k)] == Bare(Done) && k in s'.blocks.store
    decreases Rank(s.threads[Writer(k)])
  {
    if s.threads[Writer(k)] == Bare(Done) {
      run := [];
    } else {
      var a := WriterStep(s, k);
      var rest := WriterGoesOn(Step(s, a), k);
      run := [a] + rest;
      RunOne(s, a, rest);
      ApartTrans(s, Step(s, a), Run(s, run), Writer(k));
    }
  }

  // ---------------------------------------------------------------- Remove

  /** A Remove of one block that goes well so far. */
  predicate Removing(s: State, k: Key, pc: PC) {
    && pc.Remove? && pc.keys == [k] && !pc.failed && pc.i <= 1
    && (if pc.r.Cancel? && pc.i == 0 then true else k in s.hist.removed)
    && (pc.r.DropCache? ==> pc.i == 0) && (pc.r.Removed? ==> pc.i == 1)
  }

  function RemoveRank(pc: PC): nat
    requires pc.Remove?
  {
    match pc.r
    case Cancel => if pc.i == 0 then 5 else 3
    case DropCache => 4
    case Delete => if pc.i == 0 then 2 else 1
    case Removed => 0
  }

  /** Apart, and nothing but the pending entry of the block is touched in the table. */
  ghost predicate Aside(s: State, s': State, t: Tid, k: Key, cancels: bool) {
    && Apart(s, s', t) && s'.table.items == s.table.items && s'.table.queue == s.table.queue && s'.slots == s.slots
    && s'.table.pending == if cancels then s.table.pending - {k} else s.table.pending
  }

  predicate Cancelling(pc: PC) {
    pc.Remove? && pc.r.Cancel? && pc.i == 0
  }

  lemma RemoverStep(s: State, k: Key, r: nat)
    requires WF(s) && Remover(r) in s.threads && Removing(s, k, s.threads[Remover(r)]) && !s.threads[Remover(r)].r.Removed?
    ensures var s' := Step(s, Yes(Remover(r)));
            && Aside(s, s', Remover(r), k, Cancelling(s.threads[Remover(r)])) && Removing(s', k, s'.threads[Remover(r)])
            && !Cancelling(s'.threads[Remover(r)]) && RemoveRank(s'.threads[Remover(r)]) < RemoveRank(s.threads[Remover(r)])
  {
    ThreadIsOk(s, Remover(r));
    StepIsApart(s, Yes(Remover(r)));
    assert k !in s.table.pending ==> s.table.pending - {k} == s.table.pending;
  }

  /** Remove runs to its end. */
  lemma {:induction false} RemoverGoesOn(s: State, k: Key, r: nat) returns (run: seq<Action>)
    requires WF(s) && Remover(r) in s.threads && Removing(s, k, s.threads[Remover(r)])
    ensures var s' := Run(s, run);
            && Aside(s, s', Remover(r), k, Cancelling(s.threads[Remover(r)]))
            && s'.threads[Remover(r)] == Remove(Removed, [k], 1, false) && k in s'.hist.removed
    decreases RemoveRank(s.threads[Remover(r)])
  {
    if s.threads[Remover(r)].r.Removed? {
      run := [];
    } else {
      var a := Yes(Remover(r));
      RemoverStep(s, k, r);
      var rest := RemoverGoesOn(Step(s, a), k, r);
      run := [a] + rest;
      RunOne(s, a, rest);
      ApartTrans(s, Step(s, a), Run(s, run), Remover(r));
    }
  }

  /** Remove starts and cancels the block. */
  lemma RemoverCancels(s: State, k: Key, r: nat) returns (run: seq<Action>)
    requires WF(s) && Remover(r) !in s.threads
    ensures var s' := Run(s, run);
            && Aside(s, s', Remover(r), k, true) && s'.threads[Remover(r)] == Remove(DropCache, [k], 0, false)
            && k in s'.hist.removed && s'.blocks == s.blocks
  {
    var a0, a1 := Action(Remover(r), Choice(true, false, [], [k])), Yes(Remover(r));
    run := [a0] + [a1];
    var s1 := Step(s, a0);
    assert s1 == s.(threads := s.threads[Remover(r) := Remove(Cancel, [k], 0, false)]);
    RemoverStep(s1, k, r);
    RunOne(s, a0, [a1]);
    RunOne(s1, a1, []);
    ApartTrans(s, s1, Run(s, run), Remover(r));
  }

  // ---------------------------------------------------------------- a writer that registers its block again

  /** The writer can go on to register its block again. */
  predicate Returning(s: State, pc: PC) {
    match pc
    case Held(h, q) => h.Ack? || h.Now? || (h.Claim? && Uploading(s.table, q)) || h.Reset? || h.Delay?
    case _ => false
  }

  /** Apart, and the stage files, the queue and the slots are as they were. */
  ghost predicate Beside(s: State, s': State, t: Tid) {
    Apart(s, s', t) && s'.blocks.staged == s.blocks.staged && s'.table.queue == s.table.queue && s'.slots == s.slots
  }

  function ReturnRank(h: HeldAt): nat {
    match h
    case Ack => 3 case Now => 2 case Claim => 1 case Reset => 1 case _ => 0
  }

  lemma ReturnStep(s: State, k: Key)
    requires WF(s) && Writer(k) in s.threads && Returning(s, s.threads[Writer(k)]) && !s.threads[Writer(k)].h.Delay?
    ensures var s' := Step(s, No(Writer(k)));
            && Beside(s, s', Writer(k)) && Returning(s', s'.threads[Writer(k)])
            && ReturnRank(s'.threads[Writer(k)].h) < ReturnRank(s.threads[Writer(k)].h)
  {
    ThreadIsOk(s, Writer(k));
    StepIsApart(s, No(Writer(k)));
  }

  lemma {:induction false} ReturnsToDelay(s: State, k: Key) returns (run: seq<Action>)
    requires WF(s) && Writer(k) in s.threads && Returning(s, s.threads[Writer(k)])
    ensures var s' := Run(s, run);
            Beside(s, s', Writer(k)) && s'.threads[Writer(k)].Held? && s'.threads[Writer(k)].h.Delay?
    decreases ReturnRank(s.threads[Writer(k)].h)
  {
    if s.threads[Writer(k)].h.Delay? {
      run := [];
    } else {
      var a := No(Writer(k));
      ReturnStep(s, k);
      var rest := ReturnsToDelay(Step(s, a), k);
      run := [a] + rest;
      RunOne(s, a, rest);
      ApartTrans(s, Step(s, a), Run(s, run), Writer(k));
    }
  }

  // ---------------------------------------------------------------- queuePending for one item

  /** The goroutine queues one item that is free, or has. */
  ghost predicate Queueing(s: State, q: nat, force: bool, ret: Return, pc: PC) {
    && q < |s.table.items|
    && match pc
       case Queue(at, q', force', todo, ret') =>
         && q' == q && force' == force && todo == [] && ret' == ret && s.table.queue == []
         && (if at.AtSend? then true else (at.AtForce? || at.AtGuard? || at.AtCas?) && !Uploading(s.table, q))
       case _ => pc == NextQueued([], force, ret) && s.table.queue == [q]
  }

  function QueueRank(pc: PC): nat {
    match pc
    case Queue(at, _, _, _, _) => (match at case AtForce => 4 case AtGuard => 3 case AtCas => 2 case _ => 1)
    case _ => 0
  }

  /** Pending entries, failure counts and the epoch are as they were. */
  ghost predicate SameEntries(m: Table, m': Table) {
    m'.pending == m.pending && m'.epoch == m.epoch && forall q | 0 <= q < |m.items| :: Failures(m', q) == Failures(m, q)
  }

  lemma QueueingMove(s: State, t: Tid, q: nat, force: bool, ret: Return, pc: PC)
    requires PcOk(s.table, t, pc) && Queueing(s, q, force, ret, pc) && pc.Queue? && s.conf.queueCap > 0
    ensures var e := Move(s, t, pc, Yes(t).choice);
            && EventOk(s.table, e.ev) && GoesWell(e.ev) && Queueing(Apply(s, t, e.ev), q, force, ret, e.pc) && QueueRank(e.pc) < QueueRank(pc)
            && BlocksAfter(s.blocks, e.ev) == s.blocks && !e.ev.TakeASlot? && !e.ev.FreeSlot? && SameEntries(s.table, After(s.table, e.ev))
  {
  }

  lemma QueueingStep(s: State, t: Tid, q: nat, force: bool, ret: Return)
    requires WF(s) && t in s.threads && Queueing(s, q, force, ret, s.threads[t]) && s.threads[t].Queue? && s.conf.queueCap > 0
    ensures var s' := Step(s, Yes(t));
            && Apart(s, s', t) && s'.blocks == s.blocks && s'.slots == s.slots && SameEntries(s.table, s'.table)
            && Queueing(s', q, force, ret, s'.threads[t]) && QueueRank(s'.threads[t]) < QueueRank(s.threads[t])
  {
    ThreadIsOk(s, t);
    QueueingMove(s, t, q, force, ret, s.threads[t]);
    StepIsApart(s, Yes(t));
    QueueingAsApplied(s, t, q, force, ret, Next(s, Yes(t)));
  }

  lemma QueueingAsApplied(s: State, t: Tid, q: nat, force: bool, ret: Return, e: Effect)
    requires EventOk(s.table, e.ev) && Queueing(Apply(s, t, e.ev), q, force, ret, e.pc)
    ensures Queueing(Take(s, t, e), q, force, ret, e.pc)
  {
  }

  /** A free item is claimed and sent. */
  lemma {:induction false} QueuesOne(s: State, t: Tid, q: nat, force: bool, ret: Return) returns (run: seq<Action>)
    requires WF(s) && t in s.threads && Queueing(s, q, force, ret, s.threads[t]) && s.conf.queueCap > 0
    ensures var s' := Run(s, run);
            && Apart(s, s', t) && s'.blocks == s.blocks && s'.slots == s.slots && SameEntries(s.table, s'.table)
            && s'.threads[t] == NextQueued([], force, ret) && s'.table.queue == [q]
    decreases QueueRank(s.threads[t])
  {
    if !s.threads[t].Queue? {
      run := [];
    } else {
      QueueingStep(s, t, q, force, ret);
      var rest := QueuesOne(Step(s, Yes(t)), t, q, force, ret);
      run := [Yes(t)] + rest;
      RunOne(s, Yes(t), rest);
      ApartTrans(s, Step(s, Yes(t)), Run(s, run), t);
    }
  }

  lemma RegistersAgain(s: State, k: Key)
    requires WF(s) && Writer(k) in s.threads && s.threads[Writer(k)].Held? && s.threads[Writer(k)].h.Delay?
    requires k !in s.table.pending
    ensures var s' := Step(s, Yes(Writer(k)));
            && Apart(s, s', Writer(k)) && s'.blocks == s.blocks && s'.slots == s.slots && s'.table == AddItem(s.table, k)
            && s'.threads[Writer(k)] == Queue(AtForce, |s.table.items|, false, [], ToWriter(s.threads[Writer(k)].h.missed))
  {
    ThreadIsOk(s, Writer(k));
    StepIsApart(s, Yes(Writer(k)));
  }

  /** The writer registers its block and queues the new item. */
  lemma WriterQueues(s: State, k: Key) returns (run: seq<Action>)
    requires WF(s) && Writer(k) in s.threads && s.threads[Writer(k)].Held? && s.threads[Writer(k)].h.Delay?
    requires k !in s.table.pending && s.table.queue == [] && s.conf.queueCap > 0
    ensures var s' := Run(s, run);
            && Apart(s, s', Writer(k)) && s'.blocks == s.blocks && s'.slots == s.slots && s'.threads[Writer(k)] == Bare(Done)
            && k in s'.table.pending && s'.table.queue == [s'.table.pending[k]]
  {
    var a, ret := Yes(Writer(k)), ToWriter(s.threads[Writer(k)].h.missed);
    var s1 := Step(s, a);
    RegistersAgain(s, k);
    var rest := QueuesOne(s1, Writer(k), |s.table.items|, false, ret);
    run := [a] + rest;
    RunOne(s, a, rest);
    ApartTrans(s, s1, Run(s, run), Writer(k));
  }

  // ---------------------------------------------------------------- an uploader that takes a block to the store

  /** An uploader on its way to put the block, keep it, drop the item and remove the stage file, or that has. */
  predicate Carrying(s: State, k: Key, q: nat, pc: PC) {
    s.table.queue == [] &&
    match pc
    case Upload(u, q') =>
      && q' == q && ItemIs(s.table, q, k) && !u.OpenFailed? && !u.DeleteLeaked? && !u.RecordStaged?
      && (u.AwaitSlot? ==> SlotFree(s))
      && (u.AwaitSlot? || u.Valid1? || u.CheckForced? || u.Open? ==> k in s.blocks.staged)
      && (if u.UnstageFile? then k !in s.table.pending else IsCurrent(s.table, q))
      && (u.Valid3? || u.ForgetStaged? || u.UnstageFile? ==> k in s.blocks.store)
    case _ => (pc.Idle? || pc.Finish?) && k in s.blocks.store && k !in s.table.pending && k !in s.blocks.staged
  }

  function UploadRank(u: UploadAt): nat {
    match u
    case AwaitSlot => 13 case Valid1 => 12 case CheckForced => 11 case Open => 10 case Read => 9 case Valid2 => 8
    case PutStaged => 7 case Valid3 => 6 case ForgetStaged => 5 case UnstageFile => 4 case _ => 0
  }

  function CarryRank(pc: PC): nat {
    match pc
    case Upload(u, _) => UploadRank(u)
    case Finish(fin, _) => (match fin case AtStore => 3 case AtWake => 2 case AtSlot => 1)
    case _ => 0
  }

  lemma ComesToPut(s: State, k: Key, n: nat, u: UploadAt, q: nat)
    requires TableOk(s.table) && Carrying(s, k, q, Upload(u, q)) && UploadRank(u) > 7
    ensures var e := UploadStep(s, u, q, Yes(Uploader(n)).choice);
            && EventOk(s.table, e.ev) && GoesWell(e.ev) && Carrying(Apply(s, Uploader(n), e.ev), k, q, e.pc)
            && CarryRank(e.pc) == UploadRank(u) - 1
  {
  }

  lemma PutsAndKeeps(s: State, k: Key, n: nat, u: UploadAt, q: nat)
    requires TableOk(s.table) && Carrying(s, k, q, Upload(u, q)) && UploadRank(u) <= 7
    ensures var e := UploadStep(s, u, q, Yes(Uploader(n)).choice);
            && EventOk(s.table, e.ev) && GoesWell(e.ev) && Carrying(Apply(s, Uploader(n), e.ev), k, q, e.pc)
            && CarryRank(e.pc) == UploadRank(u) - 1
  {
  }

  lemma CarryMove(s: State, k: Key, n: nat, q: nat, pc: PC)
    requires TableOk(s.table) && PcOk(s.table, Uploader(n), pc) && Carrying(s, k, q, pc) && !pc.Idle?
    ensures var e := Move(s, Uploader(n), pc, Yes(Uploader(n)).choice);
            && EventOk(s.table, e.ev) && GoesWell(e.ev) && Carrying(Apply(s, Uploader(n), e.ev), k, q, e.pc)
            && CarryRank(e.pc) == CarryRank(pc) - 1
  {
    if pc.Upload? {
      if UploadRank(pc.u) > 7 { ComesToPut(s, k, n, pc.u, q); } else { PutsAndKeeps(s, k, n, pc.u, q); }
    }
  }

  lemma CarryStep(s: State, k: Key, n: nat, q: nat)
    requires WF(s) && Uploader(n) in s.threads && Carrying(s, k, q, s.threads[Uploader(n)]) && !s.threads[Uploader(n)].Idle?
    ensures var s' := Step(s, Yes(Uploader(n)));
            && Apart(s, s', Uploader(n)) && Carrying(s', k, q, s'.threads[Uploader(n)])
            && CarryRank(s'.threads[Uploader(n)]) == CarryRank(s.threads[Uploader(n)]) - 1
  {
    var pc, a := s.threads[Uploader(n)], Yes(Uploader(n));
    ThreadIsOk(s, Uploader(n));
    CarryMove(s, k, n, q, pc);
    StepIsApart(s, a);
    CarryAsApplied(s, k, n, q, Next(s, a));
  }

  lemma CarryAsApplied(s: State, k: Key, n: nat, q: nat, e: Effect)
    requires EventOk(s.table, e.ev) && Carrying(Apply(s, Uploader(n), e.ev), k, q, e.pc)
    ensures Carrying(Take(s, Uploader(n), e), k, q, e.pc)
  {
  }

  /** The uploader runs until it has `stop` steps left. */
  lemma {:induction false} UploaderGoesOn(s: State, k: Key, n: nat, q: nat, stop: nat) returns (run: seq<Action>)
    requires WF(s) && Uploader(n) in s.threads && Carrying(s, k, q, s.threads[Uploader(n)])
    requires stop <= CarryRank(s.threads[Uploader(n)])
    ensures var s' := Run(s, run);
            && Apart(s, s', Uploader(n)) && Carrying(s', k, q, s'.threads[Uploader(n)])
            && CarryRank(s'.threads[Uploader(n)]) == stop
    decreases CarryRank(s.threads[Uploader(n)])
  {
    if CarryRank(s.threads[Uploader(n)]) == stop {
      run := [];
    } else {
      var a := Yes(Uploader(n));
      CarryStep(s, k, n, q);
      var rest := UploaderGoesOn(Step(s, a), k, n, q, stop);
      run := [a] + rest;
      RunOne(s, a, rest);
      ApartTrans(s, Step(s, a), Run(s, run), Uploader(n));
    }
  }
}
