/** Remove against uploads in flight. */
module WritebackRemove {
  import opened Common
  import opened Writeback
  import opened WritebackInvariant
  import opened WritebackDurability

  /** A Remove that still has to delete the block. */
  predicate WillDelete(s: State, t: Tid, k: Key) {
    t in s.threads &&
    match s.threads[t]
    case Remove(r, keys, i, _) =>
      if r.Delete? then i <= |keys| && k in keys[i..] else !r.Removed? && k in keys
    case _ => false
  }

  /** An uploader that has put the object and will find that it is not wanted. */
  predicate WillCleanUp(s: State, t: Tid, k: Key) {
    t in s.threads &&
    match s.threads[t]
    case Upload(u, q) => (u.Valid3? || u.DeleteLeaked?) && ItemIs(s.table, q, k)
    case _ => false
  }

  /** Once a block whose writer is spent is cancelled, it is never pending again, and
      someone is left to delete its object; failed deletes and puts that reported an error
      but left the object are the exceptions. */
  ghost predicate GoneOk(s: State, k: Key) {
    k in s.hist.quiet ==>
      && WriterSpent(s, k) && k !in s.table.pending
      && (k in s.blocks.store && k !in s.hist.failedDeletes && k !in s.hist.strays ==>
            (exists t :: WillDelete(s, t, k)) || (exists t :: WillCleanUp(s, t, k)))
  }

  lemma DeleteIsKept(s: State, a: Action, t: Tid, k: Key)
    requires WF(s) && WillDelete(s, t, k)
    ensures var s' := Step(s, a);
            WillDelete(s', t, k) || k !in s'.blocks.store || k in s'.hist.failedDeletes
  {
    ThreadIsOk(s, t);
    if a.tid == t {
      var pc := s.threads[t];
      if pc.r.Delete? && pc.i < |pc.keys| { assert pc.keys[pc.i..] == [pc.keys[pc.i]] + pc.keys[pc.i + 1..]; }
      if pc.r.Cancel? { assert pc.keys[0..] == pc.keys; }
    }
  }

  /** An uploader that has the stage file of the block open does not work for its pending item. */
  predicate UnwantedAt(m: Table, pc: PC, k: Key) {
    match pc
    case Upload(u, q) => (u.Read? || u.Valid2? || u.PutStaged? || u.Valid3?) && ItemIs(m, q, k) ==> !IsCurrent(m, q)
    case _ => true
  }

  predicate Unwanted(s: State, t: Tid, k: Key) {
    t in s.threads ==> UnwantedAt(s.table, s.threads[t], k)
  }

  lemma CleanUpIsKept(s: State, a: Action, t: Tid, k: Key)
    requires WF(s) && WillCleanUp(s, t, k) && Unwanted(s, t, k)
    ensures var s' := Step(s, a);
            WillCleanUp(s', t, k) || k !in s'.blocks.store || k in s'.hist.failedDeletes
  {
    ThreadIsOk(s, t);
    if CanRun(s, a.tid) { AfterExtends(s.table, Next(s, a).ev); }
  }

  /** Only uploaders put a block whose writer does not. */
  lemma WhoPuts(s: State, t: Tid, pc: PC, c: Choice, k: Key)
    requires PcOk(s.table, t, pc) && t != Writer(k)
    requires var ev := Move(s, t, pc, c).ev; ev == Puts(k) || ev == PutsAndAcks(k)
    ensures pc.Upload? && Move(s, t, pc, c).pc == Upload(Valid3, pc.item) && ItemIs(s.table, pc.item, k)
  {
  }

  /** A put of the block leaves someone to clean up. */
  lemma PutIsCleanedUp(s: State, a: Action, k: Key)
    requires WF(s) && (WriterSpent(s, k) || WriterReturns(s, k)) && k !in s.blocks.store && k in Step(s, a).blocks.store
    ensures k in Step(s, a).hist.strays || WillCleanUp(Step(s, a), a.tid, k)
  {
    if a.tid in s.threads {
      ThreadIsOk(s, a.tid);
      var ev := Next(s, a).ev;
      if (ev == Puts(k) || ev == PutsAndAcks(k)) && a.tid != Writer(k) {
        WhoPuts(s, a.tid, s.threads[a.tid], a.choice, k);
      }
    }
  }

  lemma WhoCancels(s: State, t: Tid, pc: PC, c: Choice, k: Key)
    requires PcOk(s.table, t, pc) && Move(s, t, pc, c).ev == Cancels(k)
    ensures pc.Remove? && pc.i < |pc.keys| && pc.keys[pc.i] == k && Move(s, t, pc, c).pc == pc.(r := DropCache)
  {
  }

  lemma CancelIsFollowedUp(s: State, a: Action, k: Key)
    requires WF(s) && k !in s.hist.quiet && k in Step(s, a).hist.quiet
    ensures var s' := Step(s, a); WriterSpent(s', k) && k !in s'.table.pending && WillDelete(s', a.tid, k)
  {
    var ev := Next(s, a).ev;
    assert ev == Cancels(k);
    ThreadIsOk(s, a.tid);
    WhoCancels(s, a.tid, s.threads[a.tid], a.choice, k);
  }

  /** A spent writer stays spent, and neither puts nor registers. */
  lemma SpentStays(s: State, t: Tid, pc: PC, c: Choice)
    requires PcOk(s.table, t, pc) && t.Writer? && Spent(pc)
    ensures var e := Move(s, t, pc, c); Spent(e.pc) && !e.ev.Puts? && !e.ev.PutsAndAcks? && !e.ev.Registers?
  {
  }

  lemma StaysGone(s: State, a: Action, k: Key)
    requires WF(s) && WriterSpent(s, k) && k !in s.table.pending
    ensures WriterSpent(Step(s, a), k) && k !in Step(s, a).table.pending
  {
    if a.tid in s.threads {
      ThreadIsOk(s, a.tid);
      if a.tid == Writer(k) {
        SpentStays(s, a.tid, s.threads[a.tid], a.choice);
        OnlyRegistering(s.table, Next(s, a).ev, k);
      } else {
        NotRegistering(s, a.tid, s.threads[a.tid], a.choice, k);
        OnlyRegistering(s.table, Next(s, a).ev, k);
      }
    }
  }

  lemma OnlyRegistering(m: Table, ev: Event, k: Key)
    requires EventOk(m, ev) && k !in m.pending && ev != Registers(k)
    ensures k !in After(m, ev).pending
  {
  }

  lemma NotRegistering(s: State, t: Tid, pc: PC, c: Choice, k: Key)
    requires PcOk(s.table, t, pc) && t != Writer(k)
    ensures Move(s, t, pc, c).ev != Registers(k)
  {
  }

  lemma GoneKept(s: State, a: Action, k: Key)
    requires WF(s) && GoneOk(s, k)
    ensures GoneOk(Step(s, a), k)
  {
    var s' := Step(s, a);
    if k in s'.hist.quiet {
      if k !in s.hist.quiet {
        CancelIsFollowedUp(s, a, k);
      } else {
        StaysGone(s, a, k);
        if k !in s.blocks.store {
          if k in s'.blocks.store { PutIsCleanedUp(s, a, k); }
        } else if k !in s.hist.failedDeletes && k !in s.hist.strays {
          if exists t :: WillDelete(s, t, k) {
            var t :| WillDelete(s, t, k);
            DeleteIsKept(s, a, t, k);
          } else {
            var t :| WillCleanUp(s, t, k);
            CleanUpIsKept(s, a, t, k);
          }
        }
      }
    }
  }

  lemma {:induction false} GoneRun(s: State, actions: seq<Action>, k: Key)
    requires WF(s) && GoneOk(s, k)
    ensures GoneOk(Run(s, actions), k)
    decreases |actions|
  {
    if actions != [] {
      GoneKept(s, actions[0], k);
      GoneRun(Step(s, actions[0]), actions[1..], k);
    }
  }

  /** No Remove is under way, and no uploader works on the block. */
  ghost predicate Settles(s: State, k: Key) {
    forall t | t in s.threads ::
      match s.threads[t]
      case Remove(r, _, _, _) => r.Removed?
      case Upload(_, q) => !ItemIs(s.table, q, k)
      case _ => true
  }

  /** A block is cancelled when its writer will neither put nor register it any more.  Once
      Remove and every upload of the block in flight have finished, its object is absent. */
  lemma RemoveLeavesNothing(conf: Conf, actions: seq<Action>, k: Key)
    requires var s := Run(Init(conf), actions);
             k in s.hist.quiet && Settles(s, k) && k !in s.hist.failedDeletes && k !in s.hist.strays
    ensures var s := Run(Init(conf), actions); k !in s.blocks.store && k !in s.table.pending
  {
    GoneRun(Init(conf), actions, k);
    var s := Run(Init(conf), actions);
    assert forall t :: t in s.threads ==> !WillDelete(s, t, k) && !WillCleanUp(s, t, k);
  }

  // ---------------------------------------------------------------- cancelled without a stage file

  /** The writer will not put the block, there is no stage file and there will be none, and no
      uploader that has it open works for the pending item. */
  ghost predicate NoFile(s: State, k: Key) {
    && (WriterSpent(s, k) || WriterReturns(s, k)) && k !in s.blocks.staged && StagerPc(s, k) == Stage(Staged(true))
    && forall t {:trigger Unwanted(s, t, k)} :: Unwanted(s, t, k)
  }

  ghost predicate FilelessOk(s: State, k: Key) {
    k in s.hist.fileless ==>
      && NoFile(s, k)
      && (k in s.blocks.store && k !in s.hist.failedDeletes && k !in s.hist.strays ==>
            (exists t :: WillDelete(s, t, k)) || (exists t :: WillCleanUp(s, t, k)))
  }

  /** An item that is not the pending one of its block never is again. */
  lemma StaysOld(m: Table, ev: Event, q: nat)
    requires EventOk(m, ev) && q < |m.items| && !IsCurrent(m, q)
    ensures !IsCurrent(After(m, ev), q)
  {
    AfterExtends(m, ev);
  }

  lemma UnwantedThrough(m: Table, ev: Event, pc: PC, k: Key)
    requires EventOk(m, ev) && UnwantedAt(m, pc, k) && (pc.Upload? ==> pc.item < |m.items|)
    ensures UnwantedAt(After(m, ev), pc, k)
  {
    AfterExtends(m, ev);
    if pc.Upload? && !IsCurrent(m, pc.item) { StaysOld(m, ev, pc.item); }
  }

  /** Without a stage file no uploader gets past its open. */
  lemma UnwantedNext(s: State, t: Tid, pc: PC, c: Choice, k: Key)
    requires TableOk(s.table) && PcOk(s.table, t, pc) && UnwantedAt(s.table, pc, k) && k !in s.blocks.staged
    ensures var e := Move(s, t, pc, c); UnwantedAt(s.table, e.pc, k) && (e.pc.Upload? ==> e.pc.item < |s.table.items|)
  {
    if pc.Idle? && s.table.queue != [] { TailOk(s.table, s.table.queue); }
  }

  lemma UnwantedKept(s: State, a: Action, t: Tid, k: Key)
    requires WF(s) && NoFile(s, k)
    ensures Unwanted(Step(s, a), t, k)
  {
    assert Unwanted(s, t, k);
    if t in s.threads {
      ThreadIsOk(s, t);
      if t == a.tid {
        UnwantedNext(s, t, s.threads[t], a.choice, k);
        UnwantedThrough(s.table, Next(s, a).ev, Next(s, a).pc, k);
      } else if CanRun(s, a.tid) {
        UnwantedThrough(s.table, Next(s, a).ev, s.threads[t], k);
      }
    }
  }

  /** A writer that does not put its block goes on so. */
  lemma ReturningStays(s: State, t: Tid, pc: PC, c: Choice)
    requires PcOk(s.table, t, pc) && t.Writer? && (Spent(pc) || Returns(pc))
    ensures var e := Move(s, t, pc, c); (Spent(e.pc) || Returns(e.pc)) && !e.ev.Stages?
  {
  }

  lemma NotStaging(s: State, t: Tid, pc: PC, c: Choice, k: Key)
    requires PcOk(s.table, t, pc) && (t == Stager(k) ==> pc == Stage(Staged(true)))
    ensures Move(s, t, pc, c).ev != Stages(k)
    ensures t == Stager(k) ==> Move(s, t, pc, c).pc == pc
  {
  }

  lemma NoFileKept(s: State, a: Action, k: Key)
    requires WF(s) && NoFile(s, k)
    ensures NoFile(Step(s, a), k)
  {
    forall t ensures Unwanted(Step(s, a), t, k) { UnwantedKept(s, a, t, k); }
    if a.tid in s.threads {
      ThreadIsOk(s, a.tid);
      NotStaging(s, a.tid, s.threads[a.tid], a.choice, k);
      if a.tid == Writer(k) { ReturningStays(s, a.tid, s.threads[a.tid], a.choice); }
    }
  }

  lemma CancelledWithoutFile(s: State, a: Action, k: Key)
    requires Inv(s) && k !in s.hist.fileless && k in Step(s, a).hist.fileless
    ensures NoFile(Step(s, a), k) && WillDelete(Step(s, a), a.tid, k)
  {
    var s' := Step(s, a);
    assert Next(s, a).ev == Cancels(k);
    ThreadIsOk(s, a.tid);
    WhoCancels(s, a.tid, s.threads[a.tid], a.choice, k);
    assert StageOk(s, k);
    forall t ensures Unwanted(s', t, k) {
      if t in s.threads { ThreadIsOk(s, t); }
    }
  }

  lemma FilelessKept(s: State, a: Action, k: Key)
    requires Inv(s) && FilelessOk(s, k)
    ensures FilelessOk(Step(s, a), k)
  {
    var s' := Step(s, a);
    if k in s'.hist.fileless {
      if k !in s.hist.fileless {
        CancelledWithoutFile(s, a, k);
      } else {
        NoFileKept(s, a, k);
        if k !in s.blocks.store {
          if k in s'.blocks.store { PutIsCleanedUp(s, a, k); }
        } else if k !in s.hist.failedDeletes && k !in s.hist.strays {
          if exists t :: WillDelete(s, t, k) {
            var t :| WillDelete(s, t, k);
            DeleteIsKept(s, a, t, k);
          } else {
            var t :| WillCleanUp(s, t, k);
            assert Unwanted(s, t, k);
            CleanUpIsKept(s, a, t, k);
          }
        }
      }
    }
  }

  lemma {:induction false} FilelessRun(s: State, actions: seq<Action>, k: Key)
    requires Inv(s) && FilelessOk(s, k)
    ensures FilelessOk(Run(s, actions), k)
    decreases |actions|
  {
    if actions != [] {
      StepKeeps(s, actions[0]);
      FilelessKept(s, actions[0], k);
      FilelessRun(Step(s, actions[0]), actions[1..], k);
    }
  }

  /** A block is cancelled when its writer can only register it again and its stage file is gone.
      Once everything has settled, its object is absent. */
  lemma NoFileLeavesNothing(conf: Conf, actions: seq<Action>, k: Key)
    requires var s := Run(Init(conf), actions);
             k in s.hist.fileless && Settles(s, k) && k !in s.hist.failedDeletes && k !in s.hist.strays
    ensures k !in Run(Init(conf), actions).blocks.store
  {
    InitInv(conf);
    FilelessRun(Init(conf), actions, k);
    var s := Run(Init(conf), actions);
    assert forall t :: t in s.threads ==> !WillDelete(s, t, k) && !WillCleanUp(s, t, k);
  }
}
