/** Who may touch an item: the uploading flag is a lock on it. */
module WritebackOwnership {
  import opened Common
  import opened Writeback

  datatype Owner = Nobody | Of(q: nat)

  /** The item a goroutine at `pc` holds the uploading flag of. */
  function OwnerOf(pc: PC): Owner {
    match pc
    case Held(h, q) =>
      if h.TakeSlot? || h.Reset? || h.Put? || h.Forget? || h.Unstage? || h.Record? then Of(q) else Nobody
    case Queue(at, q, _, _, _) => if at.AtSend? || at.AtClear? then Of(q) else Nobody
    case Finish(fin, q) => if fin.AtStore? then Of(q) else Nobody
    case Upload(_, q) => Of(q)
    case _ => Nobody
  }

  function OwnerAt(s: State, t: Tid): Owner {
    if t in s.threads then OwnerOf(s.threads[t]) else Nobody
  }

  /** How one step may move the flags: it is claimed while free, and given up, passed to
      pendingCh or used to drop the item only by its owner. */
  ghost predicate Discipline(m: Table, before: Owner, ev: Event, after: Owner) {
    EventOk(m, ev) &&
    match ev
    case Claims(q) => !m.items[q].uploading && before == Nobody && after == Of(q)
    case Clears(q, _) => before == Of(q) && after == Nobody
    case Sends(q) => before == Of(q) && after == Nobody
    case Receives => before == Nobody && after == Of(m.queue[0])
    case Forgets(q) => before == Of(q) && after == Of(q)
    case _ => after == before
  }

  ghost predicate Disciplined(s: State, t: Tid, e: Effect) {
    Discipline(s.table, OwnerAt(s, t), e.ev, OwnerOf(e.pc))
  }

  lemma WriterDisciplined(s: State, t: Tid, pc: PC, c: Choice)
    requires PcOk(s.table, t, pc) && (pc.Bare? || pc.Held?)
    ensures var e := Move(s, t, pc, c); Discipline(s.table, OwnerOf(pc), e.ev, OwnerOf(e.pc))
  {
  }

  lemma QueueDisciplined(s: State, t: Tid, pc: PC, c: Choice)
    requires PcOk(s.table, t, pc) && pc.Queue?
    ensures var e := Move(s, t, pc, c); Discipline(s.table, OwnerOf(pc), e.ev, OwnerOf(e.pc))
  {
  }

  lemma UploadDisciplined(s: State, t: Tid, pc: PC, c: Choice)
    requires PcOk(s.table, t, pc) && pc.Upload?
    ensures var e := Move(s, t, pc, c); Discipline(s.table, OwnerOf(pc), e.ev, OwnerOf(e.pc))
  {
  }

  lemma MoveDisciplined(s: State, t: Tid, pc: PC, c: Choice)
    requires PcOk(s.table, t, pc)
    ensures var e := Move(s, t, pc, c); Discipline(s.table, OwnerOf(pc), e.ev, OwnerOf(e.pc))
  {
    match pc
    case Bare(_) => WriterDisciplined(s, t, pc, c);
    case Held(_, _) => WriterDisciplined(s, t, pc, c);
    case Queue(_, _, _, _, _) => QueueDisciplined(s, t, pc, c);
    case Upload(_, _) => UploadDisciplined(s, t, pc, c);
    case _ =>
  }

  lemma NextDisciplined(s: State, a: Action)
    requires WF(s)
    ensures Disciplined(s, a.tid, Next(s, a))
  {
    if a.tid in s.threads {
      ThreadIsOk(s, a.tid);
      MoveDisciplined(s, a.tid, s.threads[a.tid], a.choice);
    }
  }

  /** An owner's flag is set, its item is not in pendingCh, and no item has two owners. */
  ghost predicate OwnersHold(s: State) {
    && (forall t {:trigger OwnerAt(s, t)} :: OwnerAt(s, t).Of? ==>
          Uploading(s.table, OwnerAt(s, t).q) && OwnerAt(s, t).q !in s.table.queue)
    && (forall t, t' {:trigger OwnerAt(s, t), OwnerAt(s, t')} ::
          OwnerAt(s, t).Of? && OwnerAt(s, t) == OwnerAt(s, t') ==> t == t')
  }

  /** An item is in pendingCh at most once, and then its flag is set. */
  ghost predicate QueueHolds(m: Table) {
    && (forall i, j | 0 <= i < j < |m.queue| :: m.queue[i] != m.queue[j])
    && (forall q | q in m.queue :: Uploading(m, q))
  }

  ghost predicate HasOwner(s: State, q: nat) {
    exists t :: OwnerAt(s, t) == Of(q)
  }

  /** A set flag is accounted for. */
  ghost predicate FlagsHeld(s: State) {
    forall q {:trigger Uploading(s.table, q)} :: Uploading(s.table, q) ==> q in s.table.queue || HasOwner(s, q)
  }

  /** The flag is set exactly while the item is in pendingCh or held by one goroutine. */
  ghost predicate Exclusive(s: State) {
    OwnersHold(s) && QueueHolds(s.table) && FlagsHeld(s)
  }

  lemma FlagAfter(m: Table, ev: Event, q: nat)
    requires EventOk(m, ev)
    ensures Uploading(m, q) && !(ev.Clears? && ev.q == q) ==> Uploading(After(m, ev), q)
    ensures Uploading(After(m, ev), q) ==> Uploading(m, q) || ev == Claims(q)
  {
  }

  lemma QueueAfter(m: Table, ev: Event, q: nat)
    requires EventOk(m, ev)
    ensures q in After(m, ev).queue ==> q in m.queue || ev == Sends(q)
    ensures q in m.queue ==> q in After(m, ev).queue || (ev.Receives? && q == m.queue[0])
    ensures ev == Sends(q) ==> q in After(m, ev).queue
    ensures QueueHolds(m) && ev.Receives? ==> m.queue[0] !in After(m, ev).queue
  {
    if ev.Receives? { assert m.queue == [m.queue[0]] + After(m, ev).queue; }
  }

  lemma QueueKeeps(s: State, t: Tid, e: Effect)
    requires Exclusive(s) && Disciplined(s, t, e)
    ensures QueueHolds(After(s.table, e.ev))
  {
    var m' := After(s.table, e.ev);
    forall q | q in m'.queue ensures Uploading(m', q) {
      QueueAfter(s.table, e.ev, q);
      FlagAfter(s.table, e.ev, q);
    }
  }

  lemma OwnerKeeps(s: State, t: Tid, e: Effect, t': Tid)
    requires Exclusive(s) && Disciplined(s, t, e)
    ensures var s' := Take(s, t, e);
            OwnerAt(s', t').Of? ==> Uploading(s'.table, OwnerAt(s', t').q) && OwnerAt(s', t').q !in s'.table.queue
  {
    var s' := Take(s, t, e);
    if OwnerAt(s', t').Of? {
      var q := OwnerAt(s', t').q;
      assert t' != t ==> OwnerAt(s, t') == Of(q);
      FlagAfter(s.table, e.ev, q);
      QueueAfter(s.table, e.ev, q);
    }
  }

  lemma OwnersKeep(s: State, t: Tid, e: Effect)
    requires Exclusive(s) && Disciplined(s, t, e)
    ensures OwnersHold(Take(s, t, e))
  {
    var s' := Take(s, t, e);
    forall t' ensures OwnerAt(s', t').Of? ==>
                        Uploading(s'.table, OwnerAt(s', t').q) && OwnerAt(s', t').q !in s'.table.queue {
      OwnerKeeps(s, t, e, t');
    }
    forall t1, t2 | OwnerAt(s', t1).Of? && OwnerAt(s', t1) == OwnerAt(s', t2) ensures t1 == t2 {
      assert t1 != t ==> OwnerAt(s', t1) == OwnerAt(s, t1);
      assert t2 != t ==> OwnerAt(s', t2) == OwnerAt(s, t2);
    }
  }

  lemma FlagsKeep(s: State, t: Tid, e: Effect)
    requires Exclusive(s) && Disciplined(s, t, e)
    ensures FlagsHeld(Take(s, t, e))
  {
    var s' := Take(s, t, e);
    assert OwnerAt(s', t) == OwnerOf(e.pc);
    forall q | Uploading(s'.table, q) ensures q in s'.table.queue || HasOwner(s', q) {
      FlagAfter(s.table, e.ev, q);
      QueueAfter(s.table, e.ev, q);
      if Uploading(s.table, q) && q !in s.table.queue {
        var t' :| OwnerAt(s, t') == Of(q);
        assert t' != t ==> OwnerAt(s', t') == Of(q);
      }
    }
  }

  lemma KeepsExclusive(s: State, t: Tid, e: Effect)
    requires Exclusive(s) && Disciplined(s, t, e)
    ensures Exclusive(Take(s, t, e))
  {
    QueueKeeps(s, t, e);
    OwnersKeep(s, t, e);
    FlagsKeep(s, t, e);
  }
}
