/** Items without a stage file: how they come about, and what they do to barriers. */
module WritebackOrphan {
  import opened Common
  import opened Writeback
  import opened WritebackInvariant
  import opened WritebackDurability
  import opened WritebackFence
  import opened WritebackRemove
  import opened WritebackRest

  // ---------------------------------------------------------------- orphans stay

  predicate NotOpened(s: State, t: Tid, q: nat) {
    t in s.threads && s.threads[t].Upload? && s.threads[t].item == q ==> Shy(s.threads[t])
  }

  /** A pending item whose stage file is gone: its writer has ended or is about to, the staging
      goroutine is done, and no uploader has the file open. */
  ghost predicate Orphan(s: State, k: Key, q: nat) {
    && ItemIs(s.table, q, k) && IsCurrent(s.table, q) && k !in s.blocks.staged && StagerPc(s, k) == Stage(Staged(true))
    && Writer(k) in s.threads && (s.threads[Writer(k)].Queue? || s.threads[Writer(k)] == Bare(Done))
    && forall t {:trigger NotOpened(s, t, q)} :: NotOpened(s, t, q)
  }

  /** Without the file an upload of the item does not get to its put, and the item is not dropped. */
  lemma ShyMove(s: State, t: Tid, pc: PC, c: Choice, k: Key, q: nat)
    requires TableOk(s.table) && PcOk(s.table, t, pc) && ItemIs(s.table, q, k) && k !in s.blocks.staged
    requires (pc.Upload? && pc.item == q ==> Shy(pc)) && (t == Writer(k) ==> pc.Queue? || pc == Bare(Done))
    ensures var e := Move(s, t, pc, c);
            && (e.pc.Upload? && e.pc.item == q ==> Shy(e.pc)) && e.ev != Forgets(q)
            && (t == Writer(k) ==> e.pc.Queue? || e.pc == Bare(Done))
  {
  }

  lemma OrphanStays(s: State, a: Action, k: Key, q: nat)
    requires WF(s) && Orphan(s, k, q)
    ensures Orphan(Step(s, a), k, q) || k in Step(s, a).hist.removed
  {
    var s' := Step(s, a);
    assert NotOpened(s, a.tid, q);
    if a.tid in s.threads {
      ThreadIsOk(s, a.tid);
      ShyMove(s, a.tid, s.threads[a.tid], a.choice, k, q);
      NotStaging(s, a.tid, s.threads[a.tid], a.choice, k);
      AfterExtends(s.table, Next(s, a).ev);
      CurrentKept(s.table, Next(s, a).ev, q);
    }
    forall t ensures NotOpened(s', t, q) { assert NotOpened(s, t, q); }
  }

  lemma {:induction false} RemovedGrows(s: State, actions: seq<Action>, k: Key)
    requires WF(s) && k in s.hist.removed
    ensures k in Run(s, actions).hist.removed
    decreases |actions|
  {
    if actions != [] { RemovedGrows(Step(s, actions[0]), actions[1..], k); }
  }

  /** An orphan stays pending in every run, until Remove cancels its block. */
  lemma {:induction false} OrphanForever(s: State, actions: seq<Action>, k: Key, q: nat)
    requires WF(s) && Orphan(s, k, q) && k !in Run(s, actions).hist.removed
    ensures Orphan(Run(s, actions), k, q)
    decreases |actions|
  {
    if actions != [] {
      var s1 := Step(s, actions[0]);
      OrphanStays(s, actions[0], k, q);
      if k in s1.hist.removed {
        RemovedGrows(s1, actions[1..], k);
      } else {
        OrphanForever(s1, actions[1..], k, q);
      }
    }
  }

  /** The block of an orphan is stored.  Yet no barrier that starts after it reports success, in any
      run in which the block is not removed. */
  lemma NeverDurable(conf: Conf, before: seq<Action>, after: seq<Action>, n: nat, k: Key, q: nat)
    requires Orphan(Run(Init(conf), before), k, q) && Barrier(n) !in Run(Init(conf), before).threads
    requires var s' := Run(Run(Init(conf), before), after);
             Barrier(n) in s'.threads && s'.threads[Barrier(n)].Settled? && k !in s'.hist.removed
    ensures var s' := Run(Run(Init(conf), before), after);
            k in s'.blocks.store && !s'.threads[Barrier(n)].outcome.Durable?
  {
    var s := Run(Init(conf), before);
    var s' := Run(s, after);
    InitInv(conf);
    RunKeeps(Init(conf), before);
    RunKeeps(s, after);
    OrphanForever(s, after, k, q);
    assert Safe(s', q);
    FenceAboveRun(s, after, Barrier(n), |s.table.items|);
    BarriersRun(Init(conf), before);
    BarriersRun(s, after);
    assert BarrierPc(s', Barrier(n));
  }

  // ---------------------------------------------------------------- where they come from

  /** The block was registered more than once. */
  ghost predicate Twice(m: Table, k: Key) {
    exists q: nat, q': nat :: q != q' && ItemIs(m, q, k) && ItemIs(m, q', k)
  }

  /** An upload that takes the stage file away has dropped its item. */
  predicate DroppedFirst(s: State, t: Tid) {
    t in s.threads ==>
      match s.threads[t]
      case Held(h, q) => h.Unstage? ==> !IsCurrent(s.table, q)
      case Upload(u, q) => u.UnstageFile? ==> !IsCurrent(s.table, q)
      case _ => true
  }

  /** A pending block that was registered once has its stage file, unless it was removed, and as long as
      its writer holds its item it was registered once. */
  ghost predicate OnceOk(s: State, k: Key) {
    && (k in s.table.pending && k !in s.hist.removed ==> k in s.blocks.staged || Twice(s.table, k))
    && (WriterPc(s, k).Held? ==> !Twice(s.table, k))
  }

  ghost predicate Dropped(s: State) {
    forall t {:trigger DroppedFirst(s, t)} :: DroppedFirst(s, t)
  }

  lemma DroppedKept(s: State, a: Action)
    requires WF(s) && Dropped(s)
    ensures Dropped(Step(s, a))
  {
    var s' := Step(s, a);
    forall t ensures DroppedFirst(s', t) {
      assert DroppedFirst(s, t);
      if t in s.threads && CanRun(s, a.tid) {
        ThreadIsOk(s, t);
        StillDropped(s, t, a);
      }
    }
  }

  lemma StillDropped(s: State, t: Tid, a: Action)
    requires WF(s) && DroppedFirst(s, t) && t in s.threads && CanRun(s, a.tid)
    ensures DroppedFirst(Step(s, a), t)
  {
    ThreadIsOk(s, t);
    var ev := Next(s, a).ev;
    if t == a.tid {
      DropMove(s, t, s.threads[t], a.choice);
      if ev.Forgets? { ForgottenIsOld(s.table, ev.q); }
    } else if s.threads[t].Held? && !IsCurrent(s.table, s.threads[t].item) {
      StaysOld(s.table, ev, s.threads[t].item);
    } else if s.threads[t].Upload? && !IsCurrent(s.table, s.threads[t].item) {
      StaysOld(s.table, ev, s.threads[t].item);
    }
  }

  /** Whoever is about to take a stage file away has just dropped the item. */
  lemma DropMove(s: State, t: Tid, pc: PC, c: Choice)
    requires PcOk(s.table, t, pc)
    ensures var e := Move(s, t, pc, c);
            && (e.pc.Held? && e.pc.h.Unstage? ==> e.ev == Forgets(e.pc.item))
            && (e.pc.Upload? && e.pc.u.UnstageFile? ==> e.ev == Forgets(e.pc.item))
  {
  }

  lemma ForgottenIsOld(m: Table, q: nat)
    requires q < |m.items|
    ensures !IsCurrent(After(m, Forgets(q)), q)
  {
  }

  lemma TwiceAfter(m: Table, ev: Event, k: Key)
    requires EventOk(m, ev)
    ensures Twice(m, k) ==> Twice(After(m, ev), k)
    ensures Twice(After(m, ev), k) ==> Twice(m, k) || (ev == Registers(k) && k !in m.pending && HasItem(m, k))
    ensures ev == Registers(k) && k !in m.pending && HasItem(m, k) ==> Twice(After(m, ev), k)
  {
    var m' := After(m, ev);
    AfterExtends(m, ev);
    if Twice(m, k) {
      var q: nat, q': nat :| q != q' && ItemIs(m, q, k) && ItemIs(m, q', k);
      assert ItemIs(m', q, k) && ItemIs(m', q', k);
    }
    if Twice(m', k) {
      var q: nat, q': nat :| q != q' && ItemIs(m', q, k) && ItemIs(m', q', k);
      assert q < |m.items| ==> ItemIs(m, q, k);
      assert q' < |m.items| ==> ItemIs(m, q', k);
    }
    if ev == Registers(k) && k !in m.pending && HasItem(m, k) {
      var q: nat :| ItemIs(m, q, k);
      assert ItemIs(m', q, k) && ItemIs(m', |m.items|, k);
    }
  }

  lemma OldItem(m: Table, k: Key, q: nat)
    requires TableOk(m) && k in m.pending && ItemIs(m, q, k) && !IsCurrent(m, q)
    ensures Twice(m, k)
  {
    assert ItemIs(m, m.pending[k], k) && m.pending[k] != q;
  }

  /** Nobody takes away the stage file of a pending block that was registered once. */
  lemma WhoUnstages(s: State, t: Tid, c: Choice, k: Key)
    requires Inv(s) && DroppedFirst(s, t) && t in s.threads
    requires k in s.table.pending && k !in s.hist.removed
    ensures ThreadOk(s, t) && (Move(s, t, s.threads[t], c).ev == Unstages(k) ==> Twice(s.table, k))
  {
    assert DutyAt(s, t) && StageOk(s, k);
    assert ItemIs(s.table, s.table.pending[k], k);
    if Move(s, t, s.threads[t], c).ev == Unstages(k) {
      match s.threads[t]
      case Held(_, q) => OldItem(s.table, k, q);
      case Upload(_, q) => OldItem(s.table, k, q);
      case _ =>
    }
  }

  /** A first registration has its stage file, and only the writer of a block registers it. */
  lemma WhoRegisters(s: State, t: Tid, c: Choice, k: Key)
    requires Inv(s) && t in s.threads
    ensures ThreadOk(s, t)
    ensures var e := Move(s, t, s.threads[t], c);
            && (e.ev == Registers(k) ==> t == Writer(k) && (HasItem(s.table, k) || Kept(s, k)) && (e.pc.Held? ==> !HasItem(s.table, k)))
            && (t == Writer(k) && e.pc.Held? ==> s.threads[t].Held? || e.ev == Registers(k))
  {
    assert DutyAt(s, t) && StageOk(s, k);
    MovePermitted(s, t, c);
  }

  lemma OnceKept(s: State, a: Action, k: Key)
    requires Inv(s) && Dropped(s) && OnceOk(s, k)
    ensures OnceOk(Step(s, a), k)
  {
    if a.tid in s.threads {
      var ev := Next(s, a).ev;
      WhoRegisters(s, a.tid, a.choice, k);
      TwiceAfter(s.table, ev, k);
      assert DroppedFirst(s, a.tid);
      if k in s.table.pending && k !in s.hist.removed { WhoUnstages(s, a.tid, a.choice, k); }
      if ev != Registers(k) && k !in s.table.pending { OnlyRegistering(s.table, ev, k); }
    }
  }

  lemma {:induction false} OnceRun(s: State, actions: seq<Action>, k: Key)
    requires Inv(s) && Dropped(s) && OnceOk(s, k)
    ensures Dropped(Run(s, actions)) && OnceOk(Run(s, actions), k)
    decreases |actions|
  {
    if actions != [] {
      StepKeeps(s, actions[0]);
      DroppedKept(s, actions[0]);
      OnceKept(s, actions[0], k);
      OnceRun(Step(s, actions[0]), actions[1..], k);
    }
  }

  /** In every run, a pending block without its stage file was registered twice, or removed. */
  lemma OnlyByRegisteringTwice(conf: Conf, actions: seq<Action>, k: Key)
    requires var s := Run(Init(conf), actions); k in s.table.pending && k !in s.blocks.staged && k !in s.hist.removed
    ensures Twice(Run(Init(conf), actions).table, k)
  {
    InitInv(conf);
    OnceRun(Init(conf), actions, k);
  }

  // ---------------------------------------------------------------- when the writer returns

  /** The writer is about to register its block again. */
  predicate AtDelay(s: State, k: Key) {
    Writer(k) in s.threads && s.threads[Writer(k)].Held? && s.threads[Writer(k)].h.Delay?
  }

  /** A writer that returns makes an orphan if and only if the stage file is gone. */
  lemma ReturnMakesOrphan(conf: Conf, actions: seq<Action>, k: Key, c: Choice)
    requires var s := Run(Init(conf), actions); AtDelay(s, k) && k !in s.hist.removed
    ensures var s := Run(Init(conf), actions);
            Orphan(Step(s, Action(Writer(k), c)), k, ItemFor(s.table, k)) <==> k !in s.blocks.staged
  {
    var s := Run(Init(conf), actions);
    InitInv(conf);
    RunKeeps(Init(conf), actions);
    OnceRun(Init(conf), actions, k);
    ThreadIsOk(s, Writer(k));
    if k !in s.blocks.staged { MadeOrphan(s, k, c); }
  }

  /** A new item without a stage file. */
  lemma MadeOrphan(s: State, k: Key, c: Choice)
    requires Inv(s) && AtDelay(s, k) && k !in s.blocks.staged && k !in s.table.pending
    ensures Orphan(Step(s, Action(Writer(k), c)), k, |s.table.items|)
  {
    var s' := Step(s, Action(Writer(k), c));
    ThreadIsOk(s, Writer(k));
    assert StageOk(s, k);
    assert s'.table == AddItem(s.table, k);
    forall t ensures NotOpened(s', t, |s.table.items|) {
      if t in s.threads { ThreadIsOk(s, t); }
    }
  }

  lemma SpentRegistersNothing(s: State, a: Action, k: Key)
    requires WF(s) && WriterSpent(s, k) && !Twice(s.table, k)
    ensures WriterSpent(Step(s, a), k) && !Twice(Step(s, a).table, k)
  {
    if a.tid in s.threads {
      ThreadIsOk(s, a.tid);
      TwiceAfter(s.table, Next(s, a).ev, k);
      if a.tid == Writer(k) {
        SpentStays(s, a.tid, s.threads[a.tid], a.choice);
      } else {
        NotRegistering(s, a.tid, s.threads[a.tid], a.choice, k);
      }
    }
  }

  lemma {:induction false} NeverTwice(s: State, actions: seq<Action>, k: Key)
    requires WF(s) && WriterSpent(s, k) && !Twice(s.table, k)
    ensures !Twice(Run(s, actions).table, k)
    decreases |actions|
  {
    if actions != [] {
      SpentRegistersNothing(s, actions[0], k);
      NeverTwice(Step(s, actions[0]), actions[1..], k);
    }
  }

  /** If its item is still pending when the writer returns, there is never an orphan of the block: in
      every run from there a pending block has its stage file, unless it was removed. */
  lemma PendingAtReturn(conf: Conf, actions: seq<Action>, c: Choice, after: seq<Action>, k: Key)
    requires AtDelay(Run(Init(conf), actions), k) && k in Run(Init(conf), actions).table.pending
    ensures var s := Run(Step(Run(Init(conf), actions), Action(Writer(k), c)), after);
            k in s.table.pending && k !in s.hist.removed ==> k in s.blocks.staged
  {
    var s := Run(Init(conf), actions);
    var s1 := Step(s, Action(Writer(k), c));
    InitInv(conf);
    RunKeeps(Init(conf), actions);
    OnceRun(Init(conf), actions, k);
    ThreadIsOk(s, Writer(k));
    TwiceAfter(s.table, Registers(k), k);
    StepKeeps(s, Action(Writer(k), c));
    DroppedKept(s, Action(Writer(k), c));
    OnceKept(s, Action(Writer(k), c), k);
    OnceRun(s1, after, k);
    NeverTwice(s1, after, k);
  }
}
