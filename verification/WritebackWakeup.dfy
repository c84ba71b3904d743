/** No lost wake-up: a barrier does not sleep on an open channel while a target has been left alone. */
module WritebackWakeup {
  import opened Common
  import opened Writeback
  import opened WritebackOwnership
  import opened WritebackInvariant
  import opened WritebackDurability
  import opened WritebackFence

  /** About to close the broadcast channel. */
  predicate Signalling(s: State, t: Tid) {
    t in s.threads &&
    match s.threads[t]
    case Finish(fin, _) => fin.AtWake?
    case Queue(at, _, _, _, _) => at.AtSignal?
    case _ => false
  }

  /** A writer that missed its slot, on its way to queue the item after all. */
  predicate Requeuing(s: State, t: Tid, q: nat) {
    t in s.threads && t.Writer? &&
    match s.threads[t]
    case Held(h, p) => h == Delay(true) && p == q
    case Queue(at, p, _, _, ret) => ret == ToWriter(true) && p == q && (at.AtForce? || at.AtGuard? || at.AtCas?)
    case _ => false
  }

  /** The item is owned, or someone will wake the barrier. */
  ghost predicate Attended(s: State, q: nat) {
    Uploading(s.table, q) || exists t :: Signalling(s, t)
  }

  /** So it is, or its writer missed its slot and is about to queue it again, or then found it
      not due. */
  ghost predicate Covered(s: State, q: nat) {
    Attended(s, q) || (exists t :: Requeuing(s, t, q)) || q in s.hist.lost
  }

  /** The targets the barrier has yet to queue in this pass. */
  function Ahead(pc: PC): set<nat>
    requires HasTargets(pc)
  {
    match pc
    case Queue(at, q, _, todo, _) => Elements(todo) + if at.AtForce? || at.AtGuard? || at.AtCas? then {q} else {}
    case Wait(_, _, _) => {}
  }

  predicate Open(s: State, t: Tid) {
    BarrierPc(s, t) && HasTargets(s.threads[t]) && ChangedOf(s.threads[t]) == s.table.epoch
  }

  ghost predicate Awake(s: State) {
    && (forall t {:trigger BarrierPc(s, t)} :: BarrierPc(s, t) && s.threads[t].Queue? ==> s.threads[t].force)
    && (forall t, q {:trigger Open(s, t), Covered(s, q)} :: Open(s, t) && q in TargetsOf(s.threads[t]) - Ahead(s.threads[t]) ==> Covered(s, q))
  }

  // ---------------------------------------------------------------- cover is kept

  /** A goroutine that gives up a flag is about to signal, or about to queue the item again. */
  lemma ClearIsFollowedUp(s: State, t: Tid, pc: PC, c: Choice, q: nat)
    requires PcOk(s.table, t, pc) && Move(s, t, pc, c).ev.Clears? && Move(s, t, pc, c).ev.q == q
    ensures var s' := Take(s, t, Move(s, t, pc, c));
            if Move(s, t, pc, c).ev.silent then Requeuing(s', t, q) && s'.hist.silent[q] > s.hist.silent[q] else Signalling(s', t)
  {
  }

  lemma RequeueGoesOn(s: State, t: Tid, c: Choice, q: nat)
    requires WF(s) && Requeuing(s, t, q) && IsCurrent(s.table, q)
    ensures var s' := Step(s, Action(t, c)); Uploading(s'.table, q) || Requeuing(s', t, q) || q in s'.hist.lost
  {
    ThreadIsOk(s, t);
  }

  lemma SignalIsSent(s: State, t: Tid, c: Choice)
    requires WF(s) && Signalling(s, t)
    ensures Step(s, Action(t, c)).table.epoch > s.table.epoch
  {
    ThreadIsOk(s, t);
  }

  lemma CoverKept(s: State, a: Action, q: nat)
    requires WF(s) && Covered(s, q) && IsCurrent(s.table, q) && Step(s, a).table.epoch == s.table.epoch
    ensures Covered(Step(s, a), q)
  {
    if CanRun(s, a.tid) {
      var s' := Step(s, a);
      var e := Next(s, a);
      FlagAfter(s.table, e.ev, q);
      if exists t :: Signalling(s, t) {
        var t :| Signalling(s, t);
        if t == a.tid { SignalIsSent(s, t, a.choice); }
        assert Signalling(s', t);
      } else if exists t :: Requeuing(s, t, q) {
        var t :| Requeuing(s, t, q);
        if t == a.tid { RequeueGoesOn(s, t, a.choice, q); }
        assert t != a.tid ==> Requeuing(s', t, q);
      } else if Uploading(s.table, q) && e.ev.Clears? && e.ev.q == q {
        ThreadIsOk(s, a.tid);
        ClearIsFollowedUp(s, a.tid, s.threads[a.tid], a.choice, q);
      }
    }
  }

  /** An owned item stays so until a signal, but for a clear without one. */
  lemma AttendedKept(s: State, a: Action, q: nat)
    requires WF(s) && Attended(s, q) && Step(s, a).table.epoch == s.table.epoch
    ensures Attended(Step(s, a), q) || Step(s, a).hist.silent[q] > s.hist.silent[q]
  {
    if CanRun(s, a.tid) {
      var s' := Step(s, a);
      var e := Next(s, a);
      FlagAfter(s.table, e.ev, q);
      if exists t :: Signalling(s, t) {
        var t :| Signalling(s, t);
        if t == a.tid { SignalIsSent(s, t, a.choice); }
        assert Signalling(s', t);
      } else if e.ev.Clears? && e.ev.q == q {
        ThreadIsOk(s, a.tid);
        ClearIsFollowedUp(s, a.tid, s.threads[a.tid], a.choice, q);
      }
    }
  }

  // ---------------------------------------------------------------- the barrier's own steps

  lemma NextAhead(pc: PC)
    requires pc.Queue? && pc.ret.ToBarrier?
    ensures var n := NextQueued(pc.todo, pc.force, pc.ret); HasTargets(n) && Ahead(n) == Elements(pc.todo)
  {
    if pc.todo != [] { assert pc.todo == [pc.todo[0]] + pc.todo[1..]; }
  }

  /** What leaves the barrier's list is owned. */
  lemma QueuedIsCovered(s: State, t: Tid, c: Choice, q: nat)
    requires WF(s) && BarrierPc(s, t) && s.threads[t].Queue? && s.threads[t].force
    ensures HasTargets(s.threads[t])
    ensures var s' := Step(s, Action(t, c));
            HasTargets(s'.threads[t]) &&
            (q in Ahead(s.threads[t]) && q !in Ahead(s'.threads[t]) ==> Uploading(s'.table, q))
  {
    ThreadIsOk(s, t);
    QueueCarries(s, t, s.threads[t], c);
    NextAhead(s.threads[t]);
  }

  lemma ScanIsAhead(m: Table, f: Fence, c: Choice)
    ensures var pc := ScanStep(m, f, c); HasTargets(pc) ==> TargetsOf(pc) <= Ahead(pc)
  {
    if c.order != [] { assert c.order == [c.order[0]] + c.order[1..]; }
  }

  lemma OwnTargetsCovered(s: State, t: Tid, c: Choice, q: nat)
    requires WF(s) && Barriers(s) && Awake(s) && BarrierPc(s, t)
    requires var s' := Step(s, Action(t, c));
             Open(s', t) && q in TargetsOf(s'.threads[t]) - Ahead(s'.threads[t])
    ensures Covered(Step(s, Action(t, c)), q)
  {
    ThreadIsOk(s, t);
    var pc := s.threads[t];
    var s' := Step(s, Action(t, c));
    if pc.Queue? {
      QueueCarries(s, t, pc, c);
      QueuedIsCovered(s, t, c, q);
      StepLater(s, Action(t, c));
      if q !in Ahead(pc) {
        assert Open(s, t) && Covered(s, q);
        CoverKept(s, Action(t, c), q);
      }
    } else if pc.Scan? {
      ScanIsAhead(s.table, pc.fence, c);
    } else {
      assert Open(s, t) && Covered(s, q);
      CoverKept(s, Action(t, c), q);
    }
  }

  lemma ForceKept(s: State, a: Action, t: Tid)
    requires WF(s) && Awake(s) && BarrierPc(Step(s, a), t) && Step(s, a).threads[t].Queue?
    ensures Step(s, a).threads[t].force
  {
    if a.tid == t && t in s.threads {
      assert BarrierPc(s, t);
      ThreadIsOk(s, t);
    } else {
      assert t in s.threads ==> BarrierPc(s, t);
    }
  }

  lemma AwakeKept(s: State, a: Action)
    requires WF(s) && Barriers(s) && Awake(s)
    ensures Awake(Step(s, a))
  {
    var s' := Step(s, a);
    forall t | BarrierPc(s', t) && s'.threads[t].Queue? ensures s'.threads[t].force { ForceKept(s, a, t); }
    forall t, q | Open(s', t) && q in TargetsOf(s'.threads[t]) - Ahead(s'.threads[t]) ensures Covered(s', q) {
      if t in s.threads {
        assert BarrierPc(s, t);
        if t == a.tid {
          OwnTargetsCovered(s, t, a.choice, q);
        } else {
          ThreadIsOk(s, t);
          StepLater(s, a);
          assert Open(s, t) && Covered(s, q);
          CoverKept(s, a, q);
        }
      }
    }
  }

  lemma {:induction false} AwakeRun(s: State, actions: seq<Action>)
    requires WF(s) && Barriers(s) && Awake(s)
    ensures Awake(Run(s, actions))
    decreases |actions|
  {
    if actions != [] {
      AwakeKept(s, actions[0]);
      BarriersKept(s, actions[0]);
      AwakeRun(Step(s, actions[0]), actions[1..]);
    }
  }

  // ---------------------------------------------------------------- from the capture on

  /** Since the clears without a signal numbered `base`, an item the barrier has queued is
      attended, or was cleared without a signal once more. */
  ghost predicate Watched(s: State, t: Tid, q: nat, base: nat) {
    && base <= s.hist.silent[q]
    && (Open(s, t) && q in TargetsOf(s.threads[t]) - Ahead(s.threads[t]) ==> Attended(s, q) || s.hist.silent[q] > base)
  }

  lemma SilentGrows(s: State, a: Action, q: nat)
    requires WF(s)
    ensures s.hist.silent[q] <= Step(s, a).hist.silent[q]
  {
  }

  /** A step of any goroutine, while the channel stays open. */
  lemma StillWatched(s: State, a: Action, q: nat, base: nat)
    requires WF(s) && base <= s.hist.silent[q] && (Attended(s, q) || s.hist.silent[q] > base)
    requires Step(s, a).table.epoch == s.table.epoch
    ensures Attended(Step(s, a), q) || Step(s, a).hist.silent[q] > base
  {
    SilentGrows(s, a, q);
    if Attended(s, q) { AttendedKept(s, a, q); }
  }

  lemma WatchedKept(s: State, a: Action, t: Tid, q: nat, base: nat)
    requires WF(s) && Barriers(s) && Awake(s) && BarrierPc(s, t) && Watched(s, t, q, base)
    ensures Watched(Step(s, a), t, q, base)
  {
    var s' := Step(s, a);
    var pc := s.threads[t];
    SilentGrows(s, a, q);
    ThreadIsOk(s, t);
    if Open(s', t) && q in TargetsOf(s'.threads[t]) - Ahead(s'.threads[t]) {
      if a.tid == t && pc.Queue? {
        QueueCarries(s, t, pc, a.choice);
        QueuedIsCovered(s, t, a.choice, q);
      } else if a.tid == t && pc.Scan? {
        ScanIsAhead(s.table, pc.fence, a.choice);
      }
      StepLater(s, a);
      if HasTargets(pc) && q !in Ahead(pc) {
        assert Open(s, t);
        StillWatched(s, a, q, base);
      }
    }
  }

  lemma {:induction false} WatchedRun(s: State, actions: seq<Action>, t: Tid, q: nat, base: nat)
    requires WF(s) && Barriers(s) && Awake(s) && BarrierPc(s, t) && Watched(s, t, q, base)
    ensures Watched(Run(s, actions), t, q, base)
    decreases |actions|
  {
    if actions != [] {
      WatchedKept(s, actions[0], t, q, base);
      AwakeKept(s, actions[0]);
      BarriersKept(s, actions[0]);
      WatchedRun(Step(s, actions[0]), actions[1..], t, q, base);
    }
  }

  /** No lost wake-up: a barrier sleeps on a channel nobody has closed.  Then each of its targets
      is in pendingCh or held by a goroutine, or a goroutine is about to signal, unless the item
      was cleared without a signal after the barrier captured its fence. */
  lemma NoLostWakeup(conf: Conf, before: seq<Action>, c: Choice, after: seq<Action>, n: nat, q: nat)
    requires var s := Run(Init(conf), before); Barrier(n) in s.threads && s.threads[Barrier(n)].Capture?
    requires var s' := Run(Step(Run(Init(conf), before), Action(Barrier(n), c)), after);
             Barrier(n) in s'.threads && s'.threads[Barrier(n)].Wait? &&
             s'.threads[Barrier(n)].changed == s'.table.epoch && q in s'.threads[Barrier(n)].targets
    ensures var s := Run(Init(conf), before);
            var s' := Run(Step(s, Action(Barrier(n), c)), after);
            || q in s'.table.queue || HasOwner(s', q) || (exists t :: Signalling(s', t))
            || s'.hist.silent[q] > s.hist.silent[q]
  {
    var s := Run(Init(conf), before);
    BarriersRun(Init(conf), before);
    AwakeRun(Init(conf), before);
    InitInv(conf);
    RunKeeps(Init(conf), before);
    StepKeeps(s, Action(Barrier(n), c));
    CaptureIsWatched(s, c, n, q);
    AsleepIsAttended(Step(s, Action(Barrier(n), c)), after, n, q, s.hist.silent[q]);
  }

  lemma CaptureIsWatched(s: State, c: Choice, n: nat, q: nat)
    requires WF(s) && Barriers(s) && Awake(s) && Barrier(n) in s.threads && s.threads[Barrier(n)].Capture?
    ensures var s1 := Step(s, Action(Barrier(n), c));
            Barriers(s1) && Awake(s1) && BarrierPc(s1, Barrier(n)) && Watched(s1, Barrier(n), q, s.hist.silent[q])
  {
    BarriersKept(s, Action(Barrier(n), c));
    AwakeKept(s, Action(Barrier(n), c));
    SilentGrows(s, Action(Barrier(n), c), q);
    ThreadIsOk(s, Barrier(n));
  }

  lemma AsleepIsAttended(s: State, actions: seq<Action>, n: nat, q: nat, base: nat)
    requires Inv(s) && Barriers(s) && Awake(s) && BarrierPc(s, Barrier(n)) && Watched(s, Barrier(n), q, base)
    requires var s' := Run(s, actions);
             Barrier(n) in s'.threads && s'.threads[Barrier(n)].Wait? &&
             s'.threads[Barrier(n)].changed == s'.table.epoch && q in s'.threads[Barrier(n)].targets
    ensures var s' := Run(s, actions);
            q in s'.table.queue || HasOwner(s', q) || (exists t :: Signalling(s', t)) || s'.hist.silent[q] > base
  {
    var s' := Run(s, actions);
    WatchedRun(s, actions, Barrier(n), q, base);
    RunKeeps(s, actions);
    assert Open(s', Barrier(n));
  }

  /** A sleeping barrier on an open channel: each target is owned, about to be signalled or to be
      queued again, or was left alone by its writer and not claimed since. */
  lemma AsleepMeansCovered(conf: Conf, actions: seq<Action>, n: nat, q: nat)
    requires var s := Run(Init(conf), actions);
             Barrier(n) in s.threads && s.threads[Barrier(n)].Wait? &&
             s.threads[Barrier(n)].changed == s.table.epoch && q in s.threads[Barrier(n)].targets
    ensures Covered(Run(Init(conf), actions), q)
  {
    AwakeRun(Init(conf), actions);
    var s := Run(Init(conf), actions);
    assert Open(s, Barrier(n)) && q in TargetsOf(s.threads[Barrier(n)]) - Ahead(s.threads[Barrier(n)]);
  }

  // ---------------------------------------------------------------- items left alone

  ghost predicate LostFree(s: State) {
    forall q {:trigger Uploading(s.table, q)} | q in s.hist.lost :: !Uploading(s.table, q)
  }

  lemma LostFreeKept(s: State, a: Action)
    requires WF(s) && LostFree(s)
    ensures LostFree(Step(s, a))
  {
    if CanRun(s, a.tid) {
      var s' := Step(s, a);
      forall q | q in s'.hist.lost ensures !Uploading(s'.table, q) { FlagAfter(s.table, Next(s, a).ev, q); }
    }
  }

  lemma {:induction false} LostFreeRun(s: State, actions: seq<Action>)
    requires WF(s) && LostFree(s)
    ensures LostFree(Run(s, actions))
    decreases |actions|
  {
    if actions != [] {
      LostFreeKept(s, actions[0]);
      LostFreeRun(Step(s, actions[0]), actions[1..]);
    }
  }

  /** An item left alone is nobody's: not in pendingCh, and held by no goroutine. */
  lemma LeftAloneIsFree(conf: Conf, actions: seq<Action>, q: nat)
    requires q in Run(Init(conf), actions).hist.lost
    ensures var s := Run(Init(conf), actions); !Uploading(s.table, q) && q !in s.table.queue && !HasOwner(s, q)
  {
    LostFreeRun(Init(conf), actions);
    InitInv(conf);
    RunKeeps(Init(conf), actions);
  }

  /** Nothing to do before something new happens. */
  predicate AtRest(pc: PC) {
    match pc
    case Bare(o) => o.Done?
    case Stage(g) => g.Staged?
    case Remove(r, _, _, _) => r.Removed?
    case _ => pc.Idle? || pc.Wait? || pc.Settled?
  }

  ghost predicate Quiescent(s: State) {
    s.table.queue == [] && forall t | t in s.threads :: AtRest(s.threads[t])
  }

  /** When all other work is done, a barrier still asleep on an open channel waits only
      for items whose writer missed its slot and then found them not due. */
  lemma NoStuckBarrier(conf: Conf, actions: seq<Action>, n: nat)
    requires var s := Run(Init(conf), actions);
             Quiescent(s) && Barrier(n) in s.threads && s.threads[Barrier(n)].Wait? &&
             s.threads[Barrier(n)].changed == s.table.epoch
    ensures var s := Run(Init(conf), actions); s.threads[Barrier(n)].targets <= s.hist.lost
  {
    var s := Run(Init(conf), actions);
    InitInv(conf);
    RunKeeps(Init(conf), actions);
    forall q | q in s.threads[Barrier(n)].targets ensures q in s.hist.lost {
      AsleepMeansCovered(conf, actions, n, q);
      assert !Uploading(s.table, q);
    }
  }
}
