/** When Remove leaves nothing, exactly. */
module WritebackExact {
  import opened Common
  import opened Writeback
  import opened WritebackInvariant
  import opened WritebackDurability
  import opened WritebackRemove
  import opened WritebackWalk
  import opened WritebackRest
  import opened WritebackOutlive

  /** Blocks cancelled when they were harmless. */
  predicate CancelledInTime(s: State, k: Key) {
    k in s.hist.quiet || k in s.hist.fileless
  }

  /** The block is among those a Remove at `pc` has cancelled. */
  predicate Passed(pc: PC, k: Key) {
    pc.Remove? && pc.i <= |pc.keys| && (pc.r.DropCache? ==> pc.i < |pc.keys|) && k in pc.keys[..HasCancelled(pc)]
  }

  /** If Remove `r` has cancelled the block, it did so in time. */
  predicate InTime(s: State, k: Key, r: nat) {
    Remover(r) in s.threads && Passed(s.threads[Remover(r)], k) ==> CancelledInTime(s, k)
  }

  /** A harmless block stays so. */
  lemma HarmlessStays(s: State, a: Action, k: Key)
    requires Inv(s) && Harmless(s, k)
    ensures Harmless(Step(s, a), k)
  {
    assert StageOk(s, k);
    if a.tid in s.threads {
      ThreadIsOk(s, a.tid);
      if a.tid == Writer(k) {
        ReturningStays(s, a.tid, s.threads[a.tid], a.choice);
        if Spent(s.threads[a.tid]) { SpentStays(s, a.tid, s.threads[a.tid], a.choice); }
      } else if !WriterSpent(s, k) {
        NotStaging(s, a.tid, s.threads[a.tid], a.choice, k);
      }
    }
  }

  lemma HistoryGrows(s: State, a: Action, k: Key)
    requires WF(s) && CancelledInTime(s, k)
    ensures CancelledInTime(Step(s, a), k)
  {
  }

  /** What Remove cancels next is what its counter passes. */
  lemma CancelMove(s: State, t: Tid, pc: PC, c: Choice, k: Key)
    requires PcOk(s.table, t, pc) && t.Remover?
    ensures var e := Move(s, t, pc, c); Passed(e.pc, k) ==> Passed(pc, k) || e.ev == Cancels(k)
  {
  }

  lemma InTimeKept(s: State, a: Action, k: Key, r: nat)
    requires Inv(s) && Harmless(s, k) && InTime(s, k, r)
    ensures InTime(Step(s, a), k, r)
  {
    if CancelledInTime(s, k) {
      HistoryGrows(s, a, k);
    } else if a.tid == Remover(r) && a.tid in s.threads {
      ThreadIsOk(s, a.tid);
      CancelMove(s, a.tid, s.threads[a.tid], a.choice, k);
    } else if Remover(r) in s.threads {
      ThreadIsOk(s, Remover(r));
    }
  }

  lemma {:induction false} InTimeRun(s: State, actions: seq<Action>, k: Key, r: nat)
    requires Inv(s) && Harmless(s, k) && InTime(s, k, r)
    ensures InTime(Run(s, actions), k, r)
    decreases |actions|
  {
    if actions != [] {
      StepKeeps(s, actions[0]);
      HarmlessStays(s, actions[0], k);
      InTimeKept(s, actions[0], k, r);
      InTimeRun(Step(s, actions[0]), actions[1..], k, r);
    }
  }

  /** Remove `r`, which was for the block, has ended. */
  predicate Ended(s: State, k: Key, r: nat) {
    Remover(r) in s.threads && s.threads[Remover(r)].Remove? && s.threads[Remover(r)].r.Removed? && k in s.threads[Remover(r)].keys
  }

  /** If Remove `r` has ended after `run` and everything has settled, without a failed delete or a failed
      put that left the object, then the object is absent. */
  ghost predicate LeavesNothing(s: State, run: seq<Action>, k: Key, r: nat)
    requires WF(s)
  {
    var s' := Run(s, run);
    Ended(s', k, r) && Settles(s', k) && k !in s'.hist.failedDeletes && k !in s'.hist.strays ==> k !in s'.blocks.store
  }

  lemma HarmlessLeavesNothing(conf: Conf, actions: seq<Action>, run: seq<Action>, k: Key, r: nat)
    requires Harmless(Run(Init(conf), actions), k) && Remover(r) !in Run(Init(conf), actions).threads
    ensures LeavesNothing(Run(Init(conf), actions), run, k, r)
  {
    var s := Run(Init(conf), actions);
    var s' := Run(s, run);
    InitInv(conf);
    RunKeeps(Init(conf), actions);
    InTimeRun(s, run, k, r);
    if Ended(s', k, r) && Settles(s', k) && k !in s'.hist.failedDeletes && k !in s'.hist.strays {
      ThreadIsOk(s', Remover(r));
      var keys := s'.threads[Remover(r)].keys;
      assert keys[..|keys|] == keys && Passed(s'.threads[Remover(r)], k);
      RunTwo(Init(conf), actions, run);
      if k in s'.hist.quiet {
        RemoveLeavesNothing(conf, actions + run, k);
      } else {
        NoFileLeavesNothing(conf, actions + run, k);
      }
    }
  }

  /** A Remove that has not started yet leaves no object, whatever happens from here on, if and only if
      the block is harmless now. */
  lemma RemoveIsExact(conf: Conf, actions: seq<Action>, k: Key, r: nat, n: nat)
    requires conf.maxUpload > 0 && conf.queueCap > 0
    requires var s := Run(Init(conf), actions);
             && Remover(r) !in s.threads && Uploader(n) !in s.threads
             && k !in s.hist.failedDeletes && k !in s.hist.strays
    ensures var s := Run(Init(conf), actions); Harmless(s, k) <==> forall run :: LeavesNothing(s, run, k, r)
  {
    var s := Run(Init(conf), actions);
    if Harmless(s, k) {
      forall run ensures LeavesNothing(s, run, k, r) { HarmlessLeavesNothing(conf, actions, run, k, r); }
    } else {
      InitInv(conf);
      RunKeeps(Init(conf), actions);
      SlotsRun(Init(conf), actions);
      ConfRun(Init(conf), actions);
      var run := RemoveNeedsSpentWriter(s, k, r, n);
      assert !LeavesNothing(s, run, k, r);
    }
  }

  lemma {:induction false} ConfRun(s: State, actions: seq<Action>)
    requires WF(s)
    ensures Run(s, actions).conf == s.conf
    decreases |actions|
  {
    if actions != [] { ConfRun(Step(s, actions[0]), actions[1..]); }
  }
}
