/** The invariant behind durability, event by event: the block of every item that was ever
    registered is stored, or the item is still pending and its stage file is there.  What a
    goroutine may rely on where it stands is its duty; what an event may do is permitted by
    the state; and the race between staging and its timeout is decided by the stage state. */
module WritebackInvariant {
  import opened Common
  import opened Writeback
  import opened WritebackOwnership

  predicate Removed(s: State, k: Key) {
    k in s.hist.removed
  }

  predicate Stored(s: State, k: Key) {
    k in s.blocks.store || Removed(s, k)
  }

  predicate Kept(s: State, k: Key) {
    k in s.blocks.staged || Removed(s, k)
  }

  predicate ItemIs(m: Table, q: nat, k: Key) {
    q < |m.items| && m.items[q].key == k
  }

  ghost predicate HasItem(m: Table, k: Key) {
    exists q :: ItemIs(m, q, k)
  }

  /** An item that was ever registered: its block is stored, or it is still the pending
      item of its block and the stage file is there. */
  predicate Safe(s: State, q: nat)
    requires q < |s.table.items|
  {
    var k := s.table.items[q].key;
    Stored(s, k) || (IsCurrent(s.table, q) && k in s.blocks.staged)
  }

  ghost predicate AllSafe(s: State) {
    && (forall q {:trigger Safe(s, q)} | 0 <= q < |s.table.items| :: Safe(s, q))
    && (forall k {:trigger Acked(s.blocks, k)} | Acked(s.blocks, k) :: Stored(s, k) || HasItem(s.table, k))
  }

  /** What holds where a goroutine stands. */
  predicate Duty(s: State, t: Tid, pc: PC)
    requires PcOk(s.table, t, pc)
  {
    match pc
    case Held(h, q) => h.Forget? || h.Unstage? ==> Stored(s, t.key)
    case Upload(u, q) =>
      var k := s.table.items[q].key;
      && (u.PutStaged? || u.Valid3? ==> IsCurrent(s.table, q) || Removed(s, k))
      && (u.Valid3? || u.ForgetStaged? || u.UnstageFile? ==> Stored(s, k))
      && (u.DeleteLeaked? ==> Removed(s, k))
    case Remove(r, keys, i, _) => forall j | 0 <= j < HasCancelled(pc) :: Removed(s, keys[j])
    case _ => true
  }

  /** How many blocks a Remove has cancelled. */
  function HasCancelled(pc: PC): (n: nat)
    requires pc.Remove? && pc.i <= |pc.keys| && (pc.r.DropCache? ==> pc.i < |pc.keys|)
    ensures n <= |pc.keys|
  {
    if pc.r.Cancel? then pc.i else if pc.r.DropCache? then pc.i + 1 else |pc.keys|
  }

  predicate DutyAt(s: State, t: Tid)
    requires t in s.threads
  {
    ThreadOk(s, t) && Duty(s, t, s.threads[t])
  }

  function WriterPc(s: State, k: Key): PC {
    if Writer(k) in s.threads then s.threads[Writer(k)] else Bare(Check)
  }

  function StagerPc(s: State, k: Key): PC {
    if Stager(k) in s.threads then s.threads[Stager(k)] else Stage(Staging)
  }

  /** The writer is past registration. */
  predicate Past(pc: PC) {
    pc.Held? || pc.Queue? || pc.Finish? || pc == Bare(Done)
  }

  /** The writer uploads through, or has ended. */
  predicate Through(pc: PC) {
    pc == Bare(Direct) || pc == Bare(DirectPut) || pc == Bare(Release) || pc == Bare(Done)
  }

  /** Someone still counts on the stage file of an unregistered block. */
  predicate Relied(s: State, k: Key) {
    || StagerPc(s, k) == Stage(Settle)
    || (StageOf(s, k).StageSucceeded? && (WriterPc(s, k) == Bare(Await) || WriterPc(s, k) == Bare(Register)))
  }

  /** The race between staging and its timeout, decided by the stage state. */
  ghost predicate StageOk(s: State, k: Key) {
    var w, g, st := WriterPc(s, k), StagerPc(s, k), StageOf(s, k);
    && (HasItem(s.table, k) ==> st.StageSucceeded? && Past(w))
    && (st.StageSucceeded? ==> g == Stage(Staged(true)))
    && (st.StageAbandoned? ==> Through(w))
    && (g == Stage(Retract) ==> st.StageAbandoned?)
    && (g == Stage(Staged(true)) ==> !st.StagePending?)
    && (w == Bare(Register) || w == Bare(Undo) ==> st.StageSucceeded?)
    && (w == Bare(Check) ==> k !in s.blocks.stage)
    && (Stager(k) in s.threads ==> k in s.blocks.stage)
    && (w.Held? || w.Queue? ==> st.StageSucceeded?)
    && (Relied(s, k) ==> Kept(s, k))
  }

  ghost predicate Inv(s: State) {
    && WF(s) && Exclusive(s) && AllSafe(s)
    && (forall t {:trigger DutyAt(s, t)} | t in s.threads :: DutyAt(s, t))
    && (forall k {:trigger StageOk(s, k)} :: StageOk(s, k))
  }

  // ---------------------------------------------------------------- what events are allowed

  ghost predicate Permits(s: State, ev: Event) {
    match ev
    case Deletes(k) => Removed(s, k)
    case Unstages(k) => (HasItem(s.table, k) ==> Stored(s, k)) && (Relied(s, k) ==> Removed(s, k))
    case Registers(k) => HasItem(s.table, k) || Kept(s, k)
    case Forgets(q) => EventOk(s.table, ev) && Stored(s, s.table.items[q].key)
    case Acks(k) => HasItem(s.table, k)
    case _ => true
  }

  lemma WriterPermitted(s: State, t: Tid, c: Choice)
    requires Inv(s) && t in s.threads && t.Writer?
    ensures ThreadOk(s, t) && Permits(s, Move(s, t, s.threads[t], c).ev)
  {
    assert DutyAt(s, t) && StageOk(s, t.key);
    if s.threads[t].Held? { assert ItemIs(s.table, s.threads[t].item, t.key); }
  }

  lemma UploaderPermitted(s: State, t: Tid, c: Choice)
    requires Inv(s) && t in s.threads && t.Uploader?
    ensures ThreadOk(s, t) && Permits(s, Move(s, t, s.threads[t], c).ev)
  {
    assert DutyAt(s, t);
    if s.threads[t].Upload? {
      var k := s.table.items[s.threads[t].item].key;
      assert ItemIs(s.table, s.threads[t].item, k);
      assert StageOk(s, k);
    }
  }

  lemma MovePermitted(s: State, t: Tid, c: Choice)
    requires Inv(s) && t in s.threads
    ensures ThreadOk(s, t) && Permits(s, Move(s, t, s.threads[t], c).ev)
  {
    match t
    case Writer(_) => WriterPermitted(s, t, c);
    case Uploader(_) => UploaderPermitted(s, t, c);
    case Stager(k) => assert DutyAt(s, t) && StageOk(s, k);
    case _ => assert DutyAt(s, t);
  }

  // ---------------------------------------------------------------- what events keep

  lemma StoredKept(s: State, t: Tid, ev: Event, k: Key)
    requires EventOk(s.table, ev) && Permits(s, ev) && Stored(s, k)
    ensures Stored(Apply(s, t, ev), k)
  {
  }

  lemma ItemsKept(m: Table, ev: Event, k: Key)
    requires EventOk(m, ev)
    ensures HasItem(m, k) ==> HasItem(After(m, ev), k)
    ensures HasItem(After(m, ev), k) ==> HasItem(m, k) || ev == Registers(k)
    ensures ev == Registers(k) && TableOk(m) ==> HasItem(After(m, ev), k)
  {
    var m' := After(m, ev);
    AfterExtends(m, ev);
    if HasItem(m, k) {
      var q: nat :| ItemIs(m, q, k);
      assert ItemIs(m', q, k);
    }
    if HasItem(m', k) {
      var q: nat :| ItemIs(m', q, k);
      if q < |m.items| { assert ItemIs(m, q, k); }
    }
    if ev == Registers(k) && TableOk(m) { assert ItemIs(m', ItemFor(m, k), k); }
  }

  /** A block's pending item changes hands only through its owner or a Remove. */
  lemma CurrentKept(m: Table, ev: Event, q: nat)
    requires EventOk(m, ev) && IsCurrent(m, q) && TableOk(m)
    ensures IsCurrent(After(m, ev), q) || ev == Forgets(q) || ev == Cancels(m.items[q].key)
  {
    AfterExtends(m, ev);
  }

  lemma SafeKept(s: State, t: Tid, ev: Event, q: nat)
    requires TableOk(s.table) && EventOk(s.table, ev) && Permits(s, ev) && AllSafe(s)
    requires q < |After(s.table, ev).items|
    ensures Safe(Apply(s, t, ev), q)
  {
    var s' := Apply(s, t, ev);
    if q < |s.table.items| {
      var k := s.table.items[q].key;
      assert Safe(s, q) && ItemIs(s.table, q, k);
      AfterExtends(s.table, ev);
      if Stored(s, k) {
        StoredKept(s, t, ev, k);
      } else {
        CurrentKept(s.table, ev, q);
      }
    } else {
      var k := ev.k;
      if HasItem(s.table, k) {
        var p: nat :| ItemIs(s.table, p, k);
        assert Safe(s, p);
      }
    }
  }

  lemma AckedBefore(b: Blocks, ev: Event, k: Key)
    ensures Acked(BlocksAfter(b, ev), k) <==> Acked(b, k) || ev == Acks(k) || ev == PutsAndAcks(k)
  {
  }

  lemma AllSafeKept(s: State, t: Tid, ev: Event)
    requires TableOk(s.table) && EventOk(s.table, ev) && Permits(s, ev) && AllSafe(s)
    ensures AllSafe(Apply(s, t, ev))
  {
    var s' := Apply(s, t, ev);
    forall q | 0 <= q < |s'.table.items| ensures Safe(s', q) {
      SafeKept(s, t, ev, q);
    }
    forall k | Acked(s'.blocks, k) ensures Stored(s', k) || HasItem(s'.table, k) {
      AckedBefore(s.blocks, ev, k);
      ItemsKept(s.table, ev, k);
      if Stored(s, k) { StoredKept(s, t, ev, k); }
    }
  }

  // ---------------------------------------------------------------- duties

  /** The duty of a goroutine that does not move. */
  lemma DutyOfOthers(s: State, t: Tid, ev: Event, pc: PC, t': Tid)
    requires Inv(s) && t' in s.threads && t' != t
    requires Disciplined(s, t, To(ev, pc)) && Permits(s, ev)
    requires PcOk(After(s.table, ev), t', s.threads[t'])
    ensures Duty(Apply(s, t, ev), t', s.threads[t'])
  {
    var s' := Apply(s, t, ev);
    var pc' := s.threads[t'];
    assert DutyAt(s, t');
    AfterExtends(s.table, ev);
    match pc'
    case Held(h, q) => if Stored(s, t'.key) { StoredKept(s, t, ev, t'.key); }
    case Upload(u, q) =>
      var k := s.table.items[q].key;
      if Stored(s, k) { StoredKept(s, t, ev, k); }
      if IsCurrent(s.table, q) {
        assert OwnerAt(s, t') == Of(q);
        CurrentKept(s.table, ev, q);
      }
    case _ =>
  }

  lemma WriterDuty(s: State, t: Tid, c: Choice)
    requires Inv(s) && t in s.threads && t.Writer?
    requires ThreadOk(s, t) && Sound(s, t, Move(s, t, s.threads[t], c))
    ensures var e := Move(s, t, s.threads[t], c); Duty(Apply(s, t, e.ev), t, e.pc)
  {
    assert DutyAt(s, t);
  }

  lemma UploaderDuty(s: State, t: Tid, c: Choice)
    requires Inv(s) && t in s.threads && t.Uploader?
    requires ThreadOk(s, t) && Sound(s, t, Move(s, t, s.threads[t], c))
    ensures var e := Move(s, t, s.threads[t], c); Duty(Apply(s, t, e.ev), t, e.pc)
  {
    if s.threads[t].Upload? {
      assert DutyAt(s, t);
      UploadDuty(s, t, s.threads[t].u, s.threads[t].item, c);
    }
  }

  lemma UploadDuty(s: State, t: Tid, u: UploadAt, q: nat, c: Choice)
    requires PcOk(s.table, t, Upload(u, q)) && Duty(s, t, Upload(u, q)) && q < |s.table.items|
    requires TableOk(s.table) && Sound(s, t, UploadStep(s, u, q, c))
    ensures var e := UploadStep(s, u, q, c); Duty(Apply(s, t, e.ev), t, e.pc)
  {
  }

  lemma OwnDuty(s: State, t: Tid, c: Choice)
    requires Inv(s) && t in s.threads
    requires ThreadOk(s, t) && Sound(s, t, Move(s, t, s.threads[t], c))
    ensures var e := Move(s, t, s.threads[t], c); Duty(Apply(s, t, e.ev), t, e.pc)
  {
    match t
    case Writer(_) => WriterDuty(s, t, c);
    case Uploader(_) => UploaderDuty(s, t, c);
    case _ => assert DutyAt(s, t);
  }

  // ---------------------------------------------------------------- the staging race

  /** A step of a goroutine that is neither writer nor stager of the block. */
  lemma StageOfOthers(s: State, t: Tid, ev: Event, pc: PC, k: Key)
    requires EventOk(s.table, ev) && StageOk(s, k) && Permits(s, ev)
    requires t != Writer(k) && t != Stager(k) && ev != Registers(k) && !((ev.StageTo? || ev.Enters?) && ev.k == k)
    ensures StageOk(Take(s, t, To(ev, pc)), k)
  {
    var s' := Take(s, t, To(ev, pc));
    ItemsKept(s.table, ev, k);
    assert WriterPc(s', k) == WriterPc(s, k) && StagerPc(s', k) == StagerPc(s, k) && StageOf(s', k) == StageOf(s, k);
  }

  /** Only the writer registers a block, and only writer and stager decide its stage state. */
  lemma BlockIsPrivate(s: State, t: Tid, c: Choice, k: Key)
    requires WF(s) && t in s.threads && t != Writer(k) && t != Stager(k)
    ensures ThreadOk(s, t)
    ensures var ev := Move(s, t, s.threads[t], c).ev; ev != Registers(k) && !((ev.StageTo? || ev.Enters?) && ev.k == k)
  {
    ThreadIsOk(s, t);
  }

  lemma StageOfStager(s: State, k: Key, c: Choice)
    requires Inv(s) && Stager(k) in s.threads
    ensures ThreadOk(s, Stager(k))
    ensures var e := Move(s, Stager(k), s.threads[Stager(k)], c); StageOk(Take(s, Stager(k), e), k)
  {
    assert DutyAt(s, Stager(k)) && StageOk(s, k);
    var e := Move(s, Stager(k), s.threads[Stager(k)], c);
    var s' := Take(s, Stager(k), e);
    ItemsKept(s.table, e.ev, k);
    assert WriterPc(s', k) == WriterPc(s, k);
  }

  lemma StageOfBareWriter(s: State, k: Key, c: Choice)
    requires Inv(s) && Writer(k) in s.threads && s.threads[Writer(k)].Bare?
    ensures ThreadOk(s, Writer(k))
    ensures var e := Move(s, Writer(k), s.threads[Writer(k)], c); StageOk(Take(s, Writer(k), e), k)
  {
    assert DutyAt(s, Writer(k)) && StageOk(s, k);
    BareStage(s, k, s.threads[Writer(k)].o, c);
  }

  lemma BareStage(s: State, k: Key, o: OpenAt, c: Choice)
    requires Writer(k) in s.threads && s.threads[Writer(k)] == Bare(o) && PcOk(s.table, Writer(k), Bare(o))
    requires TableOk(s.table) && StageOk(s, k) && Sound(s, Writer(k), BareStep(s, k, o, c))
    ensures StageOk(Take(s, Writer(k), BareStep(s, k, o, c)), k)
  {
    var e := BareStep(s, k, o, c);
    var s' := Take(s, Writer(k), e);
    ItemsKept(s.table, e.ev, k);
    assert StagerPc(s', k) == StagerPc(s, k);
  }

  /** A registered writer stays past registration and leaves the stage state alone. */
  lemma PastStays(s: State, t: Tid, pc: PC, c: Choice)
    requires t.Writer? && PcOk(s.table, t, pc) && !pc.Bare?
    ensures var e := Move(s, t, pc, c); Past(e.pc) && !e.ev.StageTo? && !e.ev.Enters?
  {
  }

  lemma StageOfPastWriter(s: State, k: Key, e: Effect)
    requires StageOk(s, k) && HasItem(s.table, k) && EventOk(s.table, e.ev)
    requires Past(e.pc) && !e.ev.StageTo? && !e.ev.Enters?
    ensures StageOk(Take(s, Writer(k), e), k)
  {
    var s' := Take(s, Writer(k), e);
    ItemsKept(s.table, e.ev, k);
    assert StagerPc(s', k) == StagerPc(s, k) && StageOf(s', k) == StageOf(s, k);
  }

  lemma StageKept(s: State, a: Action, k: Key)
    requires Inv(s) && CanRun(s, a.tid)
    ensures StageOk(Step(s, a), k)
  {
    var t := a.tid;
    var e := Next(s, a);
    assert StageOk(s, k);
    if t !in s.threads {
      ItemsKept(s.table, e.ev, k);
    } else if t == Stager(k) {
      StageOfStager(s, k, a.choice);
    } else if t == Writer(k) {
      ThreadIsOk(s, t);
      if s.threads[t].Bare? {
        StageOfBareWriter(s, k, a.choice);
      } else {
        assert ItemIs(s.table, s.threads[t].item, k);
        PastStays(s, t, s.threads[t], a.choice);
        StageOfPastWriter(s, k, e);
      }
    } else {
      BlockIsPrivate(s, t, a.choice, k);
      MovePermitted(s, t, a.choice);
      StageOfOthers(s, t, e.ev, e.pc, k);
    }
  }

  // ---------------------------------------------------------------- what steps keep

  lemma DutyKept(s: State, a: Action, t': Tid)
    requires Inv(s) && CanRun(s, a.tid) && t' in Step(s, a).threads && Permits(s, Next(s, a).ev)
    ensures DutyAt(Step(s, a), t')
  {
    var e := Next(s, a);
    var s' := Step(s, a);
    ThreadIsOk(s', t');
    NextDisciplined(s, a);
    if t' != a.tid {
      DutyOfOthers(s, a.tid, e.ev, e.pc, t');
    } else if t' in s.threads {
      OwnDuty(s, t', a.choice);
    }
    DutyAnywhere(Apply(s, a.tid, e.ev), s', t');
  }

  /** A duty does not depend on where goroutines stand. */
  lemma DutyAnywhere(s: State, s': State, t: Tid)
    requires t in s'.threads && ThreadOk(s', t) && s == s'.(threads := s.threads)
    ensures Duty(s', t, s'.threads[t]) == Duty(s, t, s'.threads[t])
  {
  }

  lemma SafeAnywhere(s: State, s': State)
    requires AllSafe(s) && s == s'.(threads := s.threads)
    ensures AllSafe(s')
  {
    forall q | 0 <= q < |s'.table.items| ensures Safe(s', q) { assert Safe(s, q); }
    assert forall k {:trigger Acked(s.blocks, k)} | Acked(s.blocks, k) :: Stored(s, k) ==> Stored(s', k);
  }
}
