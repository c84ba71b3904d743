/** The remote durability barrier: its fence is exact, and what it reports is true. */
module WritebackFence {
  import opened Common
  import opened Writeback
  import opened WritebackOwnership
  import opened WritebackInvariant
  import opened WritebackDurability

  // ---------------------------------------------------------------- the table only moves on

  /** What every step guarantees about the items that already exist: they never become
      pending again, failure counts never drop, and no change goes unsignalled. */
  ghost predicate Later(m: Table, m': Table) {
    && |m.items| <= |m'.items| && m.epoch <= m'.epoch
    && (forall q {:trigger IsCurrent(m', q)} | 0 <= q < |m.items| :: IsCurrent(m', q) ==> IsCurrent(m, q))
    && (forall q {:trigger Failures(m', q)} | 0 <= q < |m.items| :: Failures(m, q) <= Failures(m', q))
    && (m.epoch == m'.epoch ==> forall q {:trigger IsCurrent(m', q)} | 0 <= q < |m.items| :: IsCurrent(m, q) ==> IsCurrent(m', q))
  }

  lemma AfterLater(m: Table, ev: Event)
    requires TableOk(m) && EventOk(m, ev)
    ensures Later(m, After(m, ev))
  {
    AfterExtends(m, ev);
    AfterOk(m, ev);
  }

  lemma TargetsAreCurrent(m: Table, upto: nat, q: nat)
    requires TableOk(m)
    ensures q in Targets(m, upto) <==> q < upto && IsCurrent(m, q)
  {
    if q < upto && IsCurrent(m, q) { assert m.items[q].key in m.pending; }
  }

  // ---------------------------------------------------------------- what a barrier knows

  function FenceOf(pc: PC): (f: Fence)
    requires HasFence(pc)
  {
    match pc
    case Scan(f) => f
    case Wait(f, _, _) => f
    case Settled(f, _) => f
    case Queue(_, _, _, _, ret) => ret.fence
  }

  predicate HasFence(pc: PC) {
    pc.Scan? || pc.Wait? || pc.Settled? || (pc.Queue? && pc.ret.ToBarrier?)
  }

  predicate HasTargets(pc: PC) {
    pc.Wait? || (pc.Queue? && pc.ret.ToBarrier?)
  }

  function TargetsOf(pc: PC): set<nat>
    requires HasTargets(pc)
  {
    if pc.Wait? then pc.targets else pc.ret.targets
  }

  function ChangedOf(pc: PC): nat
    requires HasTargets(pc)
  {
    if pc.Wait? then pc.changed else pc.ret.changed
  }

  /** Only items captured in the baseline are pending below the fence. */
  ghost predicate FenceHolds(m: Table, f: Fence) {
    && (forall q {:trigger IsCurrent(m, q)} | 0 <= q < f.upto :: IsCurrent(m, q) ==> q in f.baseline)
    && (forall q | q in f.baseline :: f.baseline[q] <= Failures(m, q))
  }

  /** The targets were captured in the baseline and cover all that is still pending below
      the fence; while the captured epoch is open, all of them are still pending. */
  ghost predicate TargetsHold(m: Table, f: Fence, changed: nat, targets: set<nat>) {
    && (forall q | q in targets :: q in f.baseline)
    && (forall q {:trigger IsCurrent(m, q)} | 0 <= q < f.upto :: IsCurrent(m, q) ==> q in targets)
    && (changed == m.epoch ==> forall q | q in targets :: IsCurrent(m, q))
  }

  ghost predicate VerdictHolds(m: Table, f: Fence, outcome: Outcome) {
    match outcome
    case Durable => forall q {:trigger IsCurrent(m, q)} | 0 <= q < f.upto :: !IsCurrent(m, q)
    case UploadFailed(q) => q in f.baseline && Failures(m, q) > f.baseline[q]
    case Cancelled => true
  }

  ghost predicate BarrierOk(m: Table, pc: PC) {
    && (HasFence(pc) ==> FenceHolds(m, FenceOf(pc)))
    && (HasTargets(pc) ==> TargetsHold(m, FenceOf(pc), ChangedOf(pc), TargetsOf(pc)))
    && (pc.Settled? ==> VerdictHolds(m, pc.fence, pc.outcome))
  }

  predicate BarrierPc(s: State, t: Tid)
  {
    t in s.threads && t.Barrier?
  }

  ghost predicate Barriers(s: State) {
    forall t {:trigger BarrierPc(s, t)} :: BarrierPc(s, t) ==> BarrierOk(s.table, s.threads[t])
  }

  /** Other goroutines cannot make a barrier wrong. */
  lemma BarrierStable(m: Table, m': Table, t: Tid, pc: PC)
    requires PcOk(m, t, pc) && BarrierOk(m, pc) && Later(m, m')
    ensures BarrierOk(m', pc)
  {
  }

  lemma ScanMakesOk(m: Table, t: Tid, f: Fence, c: Choice)
    requires TableOk(m) && t.Barrier? && FenceOk(m, f) && FenceHolds(m, f)
    ensures BarrierOk(m, ScanStep(m, f, c))
  {
    forall q | 0 <= q < f.upto ensures q in Targets(m, f.upto) <==> IsCurrent(m, q) {
      TargetsAreCurrent(m, f.upto, q);
    }
    forall q | q in Targets(m, f.upto) ensures q in f.baseline && IsCurrent(m, q) {
      TargetsAreCurrent(m, f.upto, q);
    }
  }

  lemma CaptureMakesOk(m: Table)
    requires TableOk(m)
    ensures BarrierOk(m, Scan(Fence(|m.items|, Baseline(m))))
  {
    forall q | 0 <= q < |m.items| && IsCurrent(m, q) ensures q in Baseline(m) {
      TargetsAreCurrent(m, |m.items|, q);
    }
  }

  lemma OwnBarrierStep(m: Table, t: Tid, pc: PC, c: Choice)
    requires TableOk(m) && t.Barrier? && PcOk(m, t, pc) && BarrierOk(m, pc)
    ensures BarrierOk(m, BarrierStep(m, pc, c))
  {
    match pc
    case Capture => CaptureMakesOk(m);
    case Scan(f) => ScanMakesOk(m, t, f, c);
    case _ =>
  }

  /** Queueing the targets does not change what the barrier knows. */
  lemma QueueCarries(s: State, t: Tid, pc: PC, c: Choice)
    requires t.Barrier? && PcOk(s.table, t, pc) && pc.Queue?
    ensures var pc' := QueueStep(s, pc, c).pc;
            && HasTargets(pc') && FenceOf(pc') == FenceOf(pc)
            && ChangedOf(pc') == ChangedOf(pc) && TargetsOf(pc') == TargetsOf(pc)
  {
  }

  lemma BarriersKept(s: State, a: Action)
    requires WF(s) && Barriers(s)
    ensures Barriers(Step(s, a))
  {
    if CanRun(s, a.tid) {
      var e := Next(s, a);
      var s' := Step(s, a);
      AfterLater(s.table, e.ev);
      forall t | BarrierPc(s', t) ensures BarrierOk(s'.table, s'.threads[t]) {
        if t in s.threads {
          assert BarrierPc(s, t);
          ThreadIsOk(s, t);
          BarrierStable(s.table, s'.table, t, s.threads[t]);
          if t == a.tid {
            if s.threads[t].Queue? { QueueCarries(s, t, s.threads[t], a.choice); }
            else { OwnBarrierStep(s.table, t, s.threads[t], a.choice); }
          }
        }
      }
    }
  }

  lemma {:induction false} BarriersRun(s: State, actions: seq<Action>)
    requires WF(s) && Barriers(s)
    ensures Barriers(Run(s, actions))
    decreases |actions|
  {
    if actions != [] {
      BarriersKept(s, actions[0]);
      BarriersRun(Step(s, actions[0]), actions[1..]);
    }
  }

  // ---------------------------------------------------------------- one barrier along a run

  lemma LaterTrans(m: Table, m': Table, m'': Table)
    requires Later(m, m') && Later(m', m'')
    ensures Later(m, m'')
  {
    forall q | 0 <= q < |m.items| ensures Failures(m, q) <= Failures(m'', q) {
      assert Failures(m, q) <= Failures(m', q);
    }
    forall q | 0 <= q < |m.items| ensures IsCurrent(m'', q) ==> IsCurrent(m, q) {
      assert IsCurrent(m', q) ==> IsCurrent(m, q);
    }
    if m.epoch == m''.epoch {
      forall q | 0 <= q < |m.items| ensures IsCurrent(m, q) ==> IsCurrent(m'', q) {
        assert IsCurrent(m, q) ==> IsCurrent(m', q);
      }
    }
  }

  lemma StepLater(s: State, a: Action)
    requires WF(s)
    ensures Later(s.table, Step(s, a).table)
  {
    if CanRun(s, a.tid) { AfterLater(s.table, Next(s, a).ev); }
  }

  /** The barrier `t` has taken the fence `f`, and every target it may still have is one
      of `bound`. */
  ghost predicate Fenced(s: State, t: Tid, f: Fence, bound: set<nat>) {
    && t.Barrier? && t in s.threads && HasFence(s.threads[t]) && FenceOf(s.threads[t]) == f
    && (HasTargets(s.threads[t]) ==> TargetsOf(s.threads[t]) <= bound)
    && (forall q {:trigger IsCurrent(s.table, q)} | 0 <= q < f.upto :: IsCurrent(s.table, q) ==> q in bound)
  }

  lemma FencedStep(s: State, a: Action, t: Tid, f: Fence, bound: set<nat>)
    requires WF(s) && Fenced(s, t, f, bound)
    ensures Fenced(Step(s, a), t, f, bound)
  {
    ThreadIsOk(s, t);
    StepLater(s, a);
    if a.tid == t {
      if s.threads[t].Queue? {
        QueueCarries(s, t, s.threads[t], a.choice);
      } else {
        forall q | q in Targets(s.table, f.upto) ensures q in bound { TargetsAreCurrent(s.table, f.upto, q); }
      }
    }
  }

  lemma {:induction false} FencedRun(s: State, actions: seq<Action>, t: Tid, f: Fence, bound: set<nat>)
    requires WF(s) && Fenced(s, t, f, bound)
    ensures Fenced(Run(s, actions), t, f, bound) && Later(s.table, Run(s, actions).table)
    decreases |actions|
  {
    if actions != [] {
      StepLater(s, actions[0]);
      FencedStep(s, actions[0], t, f, bound);
      FencedRun(Step(s, actions[0]), actions[1..], t, f, bound);
      LaterTrans(s.table, Step(s, actions[0]).table, Run(s, actions).table);
    }
  }

  /** The target set of a barrier only shrinks. */
  lemma TargetsOnlyShrink(conf: Conf, before: seq<Action>, after: seq<Action>, n: nat)
    requires var s := Run(Init(conf), before); Barrier(n) in s.threads && HasTargets(s.threads[Barrier(n)])
    ensures var s := Run(Init(conf), before);
            var s' := Run(s, after);
            && Barrier(n) in s'.threads
            && (HasTargets(s'.threads[Barrier(n)]) ==>
                  TargetsOf(s'.threads[Barrier(n)]) <= TargetsOf(s.threads[Barrier(n)]))
  {
    var s := Run(Init(conf), before);
    BarriersRun(Init(conf), before);
    assert BarrierPc(s, Barrier(n));
    var pc := s.threads[Barrier(n)];
    FencedRun(s, after, Barrier(n), FenceOf(pc), TargetsOf(pc));
  }

  /** A barrier that settles speaks about the items that were pending when it captured its
      fence, whatever was registered since: it fails only if one of them recorded a
      failure after the capture, and it succeeds only once none of them is pending. */
  lemma FenceIsExact(conf: Conf, before: seq<Action>, c: Choice, after: seq<Action>, n: nat)
    requires var s := Run(Init(conf), before); Barrier(n) in s.threads && s.threads[Barrier(n)].Capture?
    requires var s1 := Step(Run(Init(conf), before), Action(Barrier(n), c));
             var s' := Run(s1, after); Barrier(n) in s'.threads && s'.threads[Barrier(n)].Settled?
    ensures var s := Run(Init(conf), before);
            var s' := Run(Step(s, Action(Barrier(n), c)), after);
            var outcome := s'.threads[Barrier(n)].outcome;
            && (outcome.UploadFailed? ==>
                  IsCurrent(s.table, outcome.item) &&
                  Failures(s'.table, outcome.item) > Failures(s.table, outcome.item))
            && (outcome.Durable? ==> forall q | 0 <= q < |s.table.items| :: !IsCurrent(s'.table, q))
  {
    var s := Run(Init(conf), before);
    var s1 := Step(s, Action(Barrier(n), c));
    var s' := Run(s1, after);
    var f := Fence(|s.table.items|, Baseline(s.table));
    BarriersRun(Init(conf), before);
    BarriersKept(s, Action(Barrier(n), c));
    assert BarrierPc(s1, Barrier(n));
    FencedRun(s1, after, Barrier(n), f, f.baseline.Keys);
    BarriersRun(s1, after);
    assert BarrierPc(s', Barrier(n));
    forall q | q in f.baseline ensures IsCurrent(s.table, q) { TargetsAreCurrent(s.table, f.upto, q); }
  }

  // ---------------------------------------------------------------- end to end

  /** Any fence barrier `t` takes from here on covers the first `floor` items. */
  predicate FenceAbove(s: State, t: Tid, floor: nat) {
    && floor <= |s.table.items|
    && (t in s.threads && HasFence(s.threads[t]) ==> FenceOf(s.threads[t]).upto >= floor)
  }

  lemma {:induction false} FenceAboveRun(s: State, actions: seq<Action>, t: Tid, floor: nat)
    requires WF(s) && t.Barrier? && FenceAbove(s, t, floor)
    ensures FenceAbove(Run(s, actions), t, floor)
    decreases |actions|
  {
    if actions != [] {
      var a := actions[0];
      StepLater(s, a);
      if a.tid == t && t in s.threads {
        ThreadIsOk(s, t);
        if s.threads[t].Queue? { QueueCarries(s, t, s.threads[t], a.choice); }
      }
      FenceAboveRun(Step(s, a), actions[1..], t, floor);
    }
  }

  lemma {:induction false} StoredRun(s: State, actions: seq<Action>, k: Key)
    requires Inv(s) && Stored(s, k)
    ensures Stored(Run(s, actions), k)
    decreases |actions|
  {
    if actions != [] {
      var a := actions[0];
      if CanRun(s, a.tid) {
        NextPermitted(s, a);
        StoredKept(s, a.tid, Next(s, a).ev, k);
      }
      StepKeeps(s, a);
      StoredRun(Step(s, a), actions[1..], k);
    }
  }

  lemma {:induction false} ItemsRun(s: State, actions: seq<Action>, q: nat, k: Key)
    requires WF(s) && ItemIs(s.table, q, k)
    ensures ItemIs(Run(s, actions).table, q, k)
    decreases |actions|
  {
    if actions != [] {
      var a := actions[0];
      if CanRun(s, a.tid) { AfterExtends(s.table, Next(s, a).ev); }
      ItemsRun(Step(s, a), actions[1..], q, k);
    }
  }

  /** End-to-end durability: if a block was acknowledged before a barrier started and the
      barrier reports success, the block is in the object store, unless it was removed. */
  lemma BarrierMeansStored(conf: Conf, before: seq<Action>, after: seq<Action>, n: nat, k: Key)
    requires var s := Run(Init(conf), before); Acked(s.blocks, k) && Barrier(n) !in s.threads
    requires var s' := Run(Run(Init(conf), before), after);
             Barrier(n) in s'.threads && s'.threads[Barrier(n)].Settled? && s'.threads[Barrier(n)].outcome.Durable?
    ensures var s' := Run(Run(Init(conf), before), after); k in s'.blocks.store || k in s'.hist.removed
  {
    var s := Run(Init(conf), before);
    var s' := Run(s, after);
    InitInv(conf);
    RunKeeps(Init(conf), before);
    RunKeeps(s, after);
    if Stored(s, k) {
      StoredRun(s, after, k);
    } else {
      var q: nat :| ItemIs(s.table, q, k);
      ItemsRun(s, after, q, k);
      FenceAboveRun(s, after, Barrier(n), |s.table.items|);
      BarriersRun(Init(conf), before);
      BarriersRun(s, after);
      assert BarrierPc(s', Barrier(n)) && Safe(s', q);
    }
  }
}
