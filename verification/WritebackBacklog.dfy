/** The staging backlog cap bounds the backlog. */
module WritebackBacklog {
  import opened Common
  import opened Writeback

  ghost predicate Bounded(s: State) {
    && |Branch(s)| <= s.hist.peak
    && (s.conf.limit > 0 ==> |s.table.pending.Keys + Branch(s)| <= s.conf.limit - 1 + s.hist.peak)
  }

  /** A writer is in the staging branch only by entering it. */
  lemma BranchIsEntered(s: State, t: Tid, pc: PC, c: Choice)
    requires t.Writer? && PcOk(s.table, t, pc)
    ensures var e := Move(s, t, pc, c); InBranch(e.pc) ==> InBranch(pc) || e.ev == Enters(t.key)
    ensures var e := Move(s, t, pc, c); e.ev.Registers? ==> InBranch(pc) && e.ev.k == t.key
    ensures var e := Move(s, t, pc, c); e.ev.Enters? ==> e.ev.k == t.key && !BacklogFull(s)
  {
  }

  lemma OnlyWritersRegister(s: State, t: Tid, pc: PC, c: Choice)
    requires !t.Writer? && PcOk(s.table, t, pc)
    ensures var e := Move(s, t, pc, c); !e.ev.Registers? && !e.ev.Enters?
  {
  }

  lemma BranchAfter(s: State, a: Action)
    requires WF(s) && CanRun(s, a.tid)
    ensures var ev := Next(s, a).ev; Branch(Step(s, a)) <= Branch(s) + if ev.Enters? then {ev.k} else {}
    ensures var ev := Next(s, a).ev; ev.Registers? ==> ev.k in Branch(s)
    ensures Next(s, a).ev.Enters? ==> !BacklogFull(s)
  {
    var t := a.tid;
    if t in s.threads {
      ThreadIsOk(s, t);
      if t.Writer? { BranchIsEntered(s, t, s.threads[t], a.choice); }
      else { OnlyWritersRegister(s, t, s.threads[t], a.choice); }
    }
  }

  lemma PendingAfter(m: Table, ev: Event)
    requires EventOk(m, ev)
    ensures After(m, ev).pending.Keys <= m.pending.Keys + if ev.Registers? then {ev.k} else {}
  {
  }

  lemma SizeUnion<T>(a: set<T>, b: set<T>)
    ensures |a + b| <= |a| + |b|
  {
    assert a + b == a + (b - a);
    SizeMono(b - a, b);
  }

  lemma BoundKept(s: State, a: Action)
    requires WF(s) && Bounded(s)
    ensures Bounded(Step(s, a))
  {
    if CanRun(s, a.tid) {
      var s' := Step(s, a);
      var ev := Next(s, a).ev;
      BranchAfter(s, a);
      PendingAfter(s.table, ev);
      if ev.Enters? {
        SizeMono(Branch(s'), Branch(s) + {ev.k});
        SizeMono(s'.table.pending.Keys + Branch(s'), s.table.pending.Keys + (Branch(s) + {ev.k}));
        SizeUnion(s.table.pending.Keys, Branch(s) + {ev.k});
      } else {
        SizeMono(Branch(s'), Branch(s));
        SizeMono(s'.table.pending.Keys + Branch(s'), s.table.pending.Keys + Branch(s));
      }
    }
  }

  lemma {:induction false} BoundRun(s: State, actions: seq<Action>)
    requires WF(s) && Bounded(s)
    ensures Bounded(Run(s, actions)) && Run(s, actions).conf == s.conf
    decreases |actions|
  {
    if actions != [] {
      BoundKept(s, actions[0]);
      BoundRun(Step(s, actions[0]), actions[1..]);
    }
  }

  /** With a cap of L > 0 blocks, at most L - 1 + W blocks are ever pending, where W is the
      largest number of writers that were in the staging branch at the same time. */
  lemma BacklogIsBounded(conf: Conf, actions: seq<Action>)
    requires conf.limit > 0
    ensures var s := Run(Init(conf), actions); |s.table.pending| <= conf.limit - 1 + s.hist.peak
  {
    BoundRun(Init(conf), actions);
    var s := Run(Init(conf), actions);
    SizeMono(s.table.pending.Keys, s.table.pending.Keys + Branch(s));
  }
}
