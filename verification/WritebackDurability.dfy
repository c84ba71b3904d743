/** Acknowledged data is never lost: an acknowledged block is removed, stored, or staged and pending. */
module WritebackDurability {
  import opened Common
  import opened Writeback
  import opened WritebackOwnership
  import opened WritebackInvariant

  lemma NextPermitted(s: State, a: Action)
    requires Inv(s)
    ensures Permits(s, Next(s, a).ev)
  {
    if a.tid in s.threads { MovePermitted(s, a.tid, a.choice); }
  }

  lemma StepKeeps(s: State, a: Action)
    requires Inv(s)
    ensures Inv(Step(s, a))
  {
    if CanRun(s, a.tid) {
      var e := Next(s, a);
      var s' := Step(s, a);
      NextDisciplined(s, a);
      NextPermitted(s, a);
      KeepsExclusive(s, a.tid, e);
      AllSafeKept(s, a.tid, e.ev);
      SafeAnywhere(Apply(s, a.tid, e.ev), s');
      forall t' | t' in s'.threads ensures DutyAt(s', t') { DutyKept(s, a, t'); }
      forall k ensures StageOk(s', k) { StageKept(s, a, k); }
    }
  }

  lemma {:induction false} RunKeeps(s: State, actions: seq<Action>)
    requires Inv(s)
    ensures Inv(Run(s, actions))
    decreases |actions|
  {
    if actions != [] {
      StepKeeps(s, actions[0]);
      RunKeeps(Step(s, actions[0]), actions[1..]);
    }
  }

  lemma InitInv(conf: Conf)
    ensures Inv(Init(conf))
  {
  }

  /** In every interleaving, an acknowledged block that no Remove has cancelled is in the
      object store, or pending with its stage file on disk. */
  lemma AcknowledgedNeverLost(conf: Conf, actions: seq<Action>, k: Key)
    requires Acked(Run(Init(conf), actions).blocks, k)
    ensures var s := Run(Init(conf), actions);
            k in s.blocks.store || k in s.hist.removed || (k in s.table.pending && k in s.blocks.staged)
  {
    InitInv(conf);
    RunKeeps(Init(conf), actions);
    var s := Run(Init(conf), actions);
    if !Stored(s, k) {
      var q: nat :| ItemIs(s.table, q, k);
      assert Safe(s, q);
    }
  }
}
