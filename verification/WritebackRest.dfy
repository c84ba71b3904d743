/** Every goroutine that works on an upload or a Remove can come to rest while the others stand
    still, if a slot is free for those that wait for one.  On its way it fails no delete and
    takes no stage file away.  So from every reachable state a free slot, an empty queue and a
    clear flag can be had, and all but one given writer can come to rest. */
module WritebackRest {
  import opened Common
  import opened Writeback
  import opened WritebackOwnership
  import opened WritebackInvariant
  import opened WritebackDurability
  import opened WritebackWalk

  // ---------------------------------------------------------------- upload slots

  predicate HoldsSlot(pc: PC) {
    match pc
    case Bare(o) => o.DirectPut? || o.Release?
    case Held(h, _) => h.Put? || h.Forget? || h.Unstage? || h.Record?
    case Upload(u, _) => !u.AwaitSlot?
    case _ => pc.Finish?
  }

  predicate SlotOk(s: State, t: Tid) {
    t in s.threads && HoldsSlot(s.threads[t])
  }

  /** There are no more slots than configured, and whoever has one will give it back. */
  ghost predicate SlotsOk(s: State) {
    |s.slots| <= s.conf.maxUpload && forall t {:trigger SlotOk(s, t)} | t in s.slots :: SlotOk(s, t)
  }

  lemma SlotMove(s: State, t: Tid, pc: PC, c: Choice)
    requires PcOk(s.table, t, pc)
    ensures var e := Move(s, t, pc, c);
            && (HoldsSlot(pc) && !e.ev.FreeSlot? ==> HoldsSlot(e.pc)) && (e.ev.TakeASlot? ==> HoldsSlot(e.pc) && SlotFree(s))
  {
  }

  lemma SlotsKept(s: State, a: Action)
    requires WF(s) && SlotsOk(s)
    ensures SlotsOk(Step(s, a))
  {
    var s' := Step(s, a);
    if a.tid in s.threads {
      ThreadIsOk(s, a.tid);
      SlotMove(s, a.tid, s.threads[a.tid], a.choice);
    }
    forall t | t in s'.slots ensures SlotOk(s', t) {
      if t in s.slots { assert SlotOk(s, t); }
    }
    SlotCount(s.slots, s'.slots, a.tid);
  }

  lemma SlotCount(slots: set<Tid>, slots': set<Tid>, t: Tid)
    requires slots' == slots || slots' == slots + {t} || slots' == slots - {t}
    ensures |slots'| <= |slots| || (slots' == slots + {t} && |slots'| == |slots| + 1)
  {
  }

  lemma {:induction false} SlotsRun(s: State, actions: seq<Action>)
    requires WF(s) && SlotsOk(s)
    ensures SlotsOk(Run(s, actions))
    decreases |actions|
  {
    if actions != [] {
      SlotsKept(s, actions[0]);
      SlotsRun(Step(s, actions[0]), actions[1..]);
    }
  }

  // ---------------------------------------------------------------- one goroutine comes to rest

  predicate Waiting(pc: PC) {
    pc.Upload? && pc.u.AwaitSlot?
  }

  /** At work on an upload or a Remove. */
  predicate Busy(pc: PC) {
    HoldsSlot(pc) || Waiting(pc) || (pc.Remove? && !pc.r.Removed?)
  }

  /** An uploader that will not put: it has not opened the stage file. */
  predicate Shy(pc: PC) {
    match pc
    case Upload(u, _) => u.AwaitSlot? || u.Valid1? || u.CheckForced? || u.Open? || u.OpenFailed? || u.RecordStaged?
    case _ => pc.Finish? || pc.Idle?
  }

  function UploadLeft(u: UploadAt): nat {
    match u
    case AwaitSlot => 13 case Valid1 => 12 case CheckForced => 11 case Open => 10 case Read => 9 case Valid2 => 8
    case PutStaged => 7 case Valid3 => 6 case ForgetStaged => 5 case OpenFailed => 5 case _ => 4
  }

  /** A bound on the steps to rest. */
  function Left(pc: PC): nat {
    match pc
    case Bare(o) => if o.DirectPut? then 2 else if o.Release? then 1 else 0
    case Held(h, _) => if h.Put? then 6 else if h.Forget? then 5 else 4
    case Upload(u, _) => UploadLeft(u)
    case Finish(fin, _) => (match fin case AtStore => 3 case AtWake => 2 case AtSlot => 1)
    case Remove(r, keys, i, _) =>
      if i > |keys| then 0
      else (match r
            case Cancel => 3 * |keys| - 2 * i + 2 case DropCache => 3 * |keys| - 2 * i + 1
            case Delete => |keys| - i + 1 case Removed => 0)
    case _ => 0
  }

  /** Stage files are left alone, and none is opened; other calls succeed. */
  function Calm(pc: PC): Choice {
    var leaves := (pc.Held? && pc.h.Unstage?) || (pc.Upload? && (pc.u.UnstageFile? || pc.u.Open?)) || (pc.Remove? && pc.r.DropCache?);
    Choice(!leaves, false, [], [])
  }

  /** What a step to rest leaves as it was. */
  predicate Gentle(ev: Event) {
    && GoesWell(ev) && !ev.Stages? && !ev.Unstages? && !ev.Sends? && !ev.Receives? && !ev.Claims? && !ev.Registers?
  }

  predicate Stores(ev: Event) {
    ev.Puts? || ev.PutsAndAcks? || ev.Deletes?
  }

  lemma CalmUpload(s: State, t: Tid, u: UploadAt, q: nat)
    requires TableOk(s.table) && PcOk(s.table, t, Upload(u, q)) && (u.AwaitSlot? ==> SlotFree(s))
    ensures var e := Move(s, t, Upload(u, q), Calm(Upload(u, q)));
            && EventOk(s.table, e.ev) && Gentle(e.ev) && Left(e.pc) < UploadLeft(u) && Busy(e.pc)
            && (Shy(Upload(u, q)) ==> Shy(e.pc) && !Stores(e.ev)) && (e.ev.TakeASlot? ==> u.AwaitSlot?)
  {
  }

  lemma CalmWriter(s: State, t: Tid, pc: PC)
    requires TableOk(s.table) && PcOk(s.table, t, pc) && (pc.Bare? || pc.Held? || pc.Finish?) && HoldsSlot(pc)
    ensures var e := Move(s, t, pc, Calm(pc));
            && EventOk(s.table, e.ev) && Gentle(e.ev) && Left(e.pc) < Left(pc) && !e.ev.TakeASlot?
            && (Busy(e.pc) || e.pc == Bare(Done) || e.pc == Idle) && (Shy(pc) && t.Uploader? ==> Shy(e.pc) && !Stores(e.ev))
  {
  }

  lemma CalmRemover(s: State, t: Tid, pc: PC)
    requires TableOk(s.table) && PcOk(s.table, t, pc) && pc.Remove? && !pc.r.Removed?
    ensures var e := Move(s, t, pc, Calm(pc));
            && EventOk(s.table, e.ev) && Gentle(e.ev) && Left(e.pc) < Left(pc) && !e.ev.TakeASlot? && e.pc.Remove?
  {
  }

  /** A busy goroutine gets closer to its rest. */
  lemma CalmMove(s: State, t: Tid, pc: PC)
    requires TableOk(s.table) && PcOk(s.table, t, pc) && Busy(pc) && (Waiting(pc) ==> SlotFree(s))
    ensures var e := Move(s, t, pc, Calm(pc));
            && EventOk(s.table, e.ev) && Gentle(e.ev) && Left(e.pc) < Left(pc) && !Waiting(e.pc)
            && (t.Uploader? && Shy(pc) ==> Shy(e.pc) && !Stores(e.ev))
  {
    match pc
    case Upload(u, q) => CalmUpload(s, t, u, q);
    case Remove(_, _, _, _) => CalmRemover(s, t, pc);
    case _ => CalmWriter(s, t, pc);
  }

  /** Only goroutine `t` moved; stage files, queue and the slots of others are as they were. */
  ghost predicate Calmly(s: State, s': State, t: Tid) {
    && Apart(s, s', t) && s'.blocks.staged == s.blocks.staged && s'.table.queue == s.table.queue
    && s'.slots - {t} == s.slots - {t}
  }

  lemma GentleIsCalm(s: State, t: Tid, e: Effect)
    requires EventOk(s.table, e.ev) && Gentle(e.ev)
    ensures var s' := Take(s, t, e);
            s'.blocks.staged == s.blocks.staged && s'.table.queue == s.table.queue && s'.slots - {t} == s.slots - {t}
    ensures !Stores(e.ev) ==> Take(s, t, e).blocks.store == s.blocks.store
  {
  }

  lemma CalmStep(s: State, t: Tid)
    requires WF(s) && t in s.threads && Busy(s.threads[t]) && (Waiting(s.threads[t]) ==> SlotFree(s))
    ensures var s' := Step(s, Action(t, Calm(s.threads[t])));
            && Calmly(s, s', t) && Left(s'.threads[t]) < Left(s.threads[t]) && !Waiting(s'.threads[t])
            && (t.Uploader? && Shy(s.threads[t]) ==> Shy(s'.threads[t]) && s'.blocks.store == s.blocks.store)
  {
    ThreadIsOk(s, t);
    CalmMove(s, t, s.threads[t]);
    StepIsApart(s, Action(t, Calm(s.threads[t])));
    GentleIsCalm(s, t, Next(s, Action(t, Calm(s.threads[t]))));
  }

  /** A busy goroutine comes to rest. */
  lemma {:induction false} Rests(s: State, t: Tid) returns (run: seq<Action>)
    requires WF(s) && t in s.threads && (Waiting(s.threads[t]) ==> SlotFree(s))
    ensures var s' := Run(s, run);
            && Calmly(s, s', t) && !Busy(s'.threads[t])
            && (t.Uploader? && Shy(s.threads[t]) ==> Shy(s'.threads[t]) && s'.blocks.store == s.blocks.store)
    decreases Left(s.threads[t])
  {
    if !Busy(s.threads[t]) {
      run := [];
    } else {
      var a := Action(t, Calm(s.threads[t]));
      CalmStep(s, t);
      var rest := Rests(Step(s, a), t);
      run := [a] + rest;
      RunOne(s, a, rest);
      ApartTrans(s, Step(s, a), Run(s, run), t);
    }
  }

  // ---------------------------------------------------------------- all come to rest

  /** The busy goroutines besides the writer of `k`, with those that wait for a slot or without. */
  function Restless(s: State, k: Key, waiting: bool): set<Tid> {
    set t | t in s.threads && t != Writer(k) && Busy(s.threads[t]) && (waiting || !Waiting(s.threads[t]))
  }

  /** The writer of `k` stands where it stood and Remove `r` has not started in between; stage files
      are as they were, no delete failed and no failed put left an object. */
  ghost predicate Kindly(s: State, s': State, k: Key, r: nat) {
    && s'.conf == s.conf && s'.blocks.staged == s.blocks.staged && Extends(s.table, s'.table)
    && s'.hist.failedDeletes == s.hist.failedDeletes && s'.hist.strays == s.hist.strays && s.hist.removed <= s'.hist.removed
    && (Writer(k) in s'.threads <==> Writer(k) in s.threads)
    && (Writer(k) in s.threads ==> s'.threads[Writer(k)] == s.threads[Writer(k)])
    && (Remover(r) in s'.threads <==> Remover(r) in s.threads)
  }

  lemma KindlyTrans(s: State, s1: State, s2: State, k: Key, r: nat)
    requires Kindly(s, s1, k, r) && Kindly(s1, s2, k, r)
    ensures Kindly(s, s2, k, r)
  {
    ExtendsTrans(s.table, s1.table, s2.table);
  }

  lemma SlotGivenBack(s: State, s': State, t: Tid)
    requires SlotsOk(s') && Calmly(s, s', t) && !Busy(s'.threads[t])
    ensures s'.slots == s.slots - {t} && (SlotFree(s) ==> SlotFree(s'))
  {
    assert t in s'.slots ==> SlotOk(s', t);
    assert s'.slots == s'.slots - {t};
    SlotCount(s.slots, s'.slots, t);
  }

  /** Some of the restless goroutines moved, and no other. */
  ghost predicate Rested(s: State, s': State, k: Key, r: nat, waiting: bool) {
    && Kindly(s, s', k, r) && s'.table.queue == s.table.queue && s'.slots <= s.slots && s'.threads.Keys == s.threads.Keys
    && (forall t | t in s.threads && t !in Restless(s, k, waiting) :: s'.threads[t] == s.threads[t])
    && ((forall t | t in Restless(s, k, waiting) :: Waiting(s.threads[t])) ==> s'.blocks.store == s.blocks.store)
  }

  lemma CalmIsRested(s: State, s': State, k: Key, r: nat, waiting: bool, t: Tid)
    requires t in Restless(s, k, waiting) && Calmly(s, s', t) && !Busy(s'.threads[t]) && s'.slots == s.slots - {t}
    requires Waiting(s.threads[t]) ==> s'.blocks.store == s.blocks.store
    ensures Rested(s, s', k, r, waiting) && Restless(s', k, waiting) == Restless(s, k, waiting) - {t}
    ensures forall t' | t' in Restless(s', k, waiting) :: s'.threads[t'] == s.threads[t']
  {
  }

  /** One restless goroutine comes to rest. */
  lemma OneRests(s: State, k: Key, r: nat, waiting: bool) returns (t: Tid, run: seq<Action>)
    requires WF(s) && SlotsOk(s) && (waiting ==> SlotFree(s)) && Restless(s, k, waiting) != {}
    ensures var s' := Run(s, run);
            && Rested(s, s', k, r, waiting) && SlotsOk(s') && (SlotFree(s) ==> SlotFree(s'))
            && t in Restless(s, k, waiting) && Restless(s', k, waiting) == Restless(s, k, waiting) - {t}
            && forall t' | t' in Restless(s', k, waiting) :: s'.threads[t'] == s.threads[t']
  {
    t :| t in Restless(s, k, waiting);
    ThreadIsOk(s, t);
    run := Rests(s, t);
    SlotsRun(s, run);
    SlotGivenBack(s, Run(s, run), t);
    CalmIsRested(s, Run(s, run), k, r, waiting, t);
  }

  lemma RestedTrans(s: State, s1: State, s2: State, k: Key, r: nat, waiting: bool)
    requires Rested(s, s1, k, r, waiting) && Rested(s1, s2, k, r, waiting) && Restless(s1, k, waiting) <= Restless(s, k, waiting)
    requires forall t | t in Restless(s1, k, waiting) :: s1.threads[t] == s.threads[t]
    ensures Rested(s, s2, k, r, waiting)
  {
    KindlyTrans(s, s1, s2, k, r);
  }

  /** All restless goroutines come to rest, one after the other. */
  lemma {:induction false} AllRest(s: State, k: Key, r: nat, waiting: bool) returns (run: seq<Action>)
    requires WF(s) && SlotsOk(s) && (waiting ==> SlotFree(s))
    ensures var s' := Run(s, run); Rested(s, s', k, r, waiting) && SlotsOk(s') && Restless(s', k, waiting) == {}
    decreases |Restless(s, k, waiting)|
  {
    if Restless(s, k, waiting) == {} {
      run := [];
    } else {
      var t, first := OneRests(s, k, r, waiting);
      var second := AllRest(Run(s, first), k, r, waiting);
      run := first + second;
      RunTwo(s, first, second);
      RestedTrans(s, Run(s, first), Run(s, run), k, r, waiting);
    }
  }

  /** An idle uploader takes what is in the queue, and puts none of it. */
  lemma {:induction false} Drains(s: State, n: nat) returns (run: seq<Action>)
    requires WF(s) && SlotsOk(s) && SlotFree(s) && Uploader(n) in s.threads && s.threads[Uploader(n)] == Idle
    ensures var s' := Run(s, run);
            && Apart(s, s', Uploader(n)) && s'.threads[Uploader(n)] == Idle && s'.table.queue == [] && SlotsOk(s') && SlotFree(s')
            && s'.blocks.staged == s.blocks.staged && s'.blocks.store == s.blocks.store
    decreases |s.table.queue|
  {
    if s.table.queue == [] {
      run := [];
    } else {
      var a := Yes(Uploader(n));
      var s1 := Step(s, a);
      TakesHead(s, n);
      SlotsKept(s, a);
      var first := Rests(s1, Uploader(n));
      var s2 := Run(s1, first);
      SlotsRun(s1, first);
      SlotGivenBack(s1, s2, Uploader(n));
      var second := Drains(s2, n);
      run := [a] + (first + second);
      RunOne(s, a, first + second);
      RunTwo(s1, first, second);
      ApartTrans(s, s1, s2, Uploader(n));
      ApartTrans(s, s2, Run(s, run), Uploader(n));
    }
  }

  lemma TakesHead(s: State, n: nat)
    requires WF(s) && Uploader(n) in s.threads && s.threads[Uploader(n)] == Idle && s.table.queue != []
    ensures var s' := Step(s, Yes(Uploader(n)));
            && Apart(s, s', Uploader(n)) && Waiting(s'.threads[Uploader(n)]) && s'.blocks == s.blocks && s'.slots == s.slots
            && |s'.table.queue| < |s.table.queue|
  {
    StepIsApart(s, Yes(Uploader(n)));
  }

  // ---------------------------------------------------------------- a free slot, an empty queue and a clear flag

  /** Nobody but the writer of `k` is at work, a slot is free and the queue is empty. */
  ghost predicate Ready(s: State, k: Key, n: nat) {
    && Inv(s) && SlotsOk(s) && SlotFree(s) && s.table.queue == [] && Restless(s, k, true) == {}
    && Uploader(n) in s.threads && s.threads[Uploader(n)] == Idle
  }

  /** When all that have a slot have come to rest, the slots are free but for the writer's. */
  lemma SlotsLeft(s: State, k: Key)
    requires SlotsOk(s) && Restless(s, k, false) == {}
    ensures s.slots <= {Writer(k)}
  {
    forall t | t in s.slots ensures t == Writer(k) {
      assert SlotOk(s, t);
      assert t !in Restless(s, k, false);
    }
  }

  lemma FreesSlot(s: State, k: Key, r: nat) returns (run: seq<Action>)
    requires WF(s) && SlotsOk(s) && s.conf.maxUpload > 0 && !SlotOk(s, Writer(k))
    ensures var s' := Run(s, run); Kindly(s, s', k, r) && SlotsOk(s') && SlotFree(s') && s'.threads.Keys == s.threads.Keys
  {
    run := AllRest(s, k, r, false);
    var s' := Run(s, run);
    SlotsLeft(s', k);
    assert Writer(k) in s'.slots ==> SlotOk(s', Writer(k));
    assert s'.slots == {};
  }

  lemma StartsUploader(s: State, k: Key, r: nat, n: nat) returns (run: seq<Action>)
    requires WF(s) && SlotsOk(s) && Uploader(n) !in s.threads
    ensures var s' := Run(s, run);
            && Kindly(s, s', k, r) && SlotsOk(s') && s'.slots == s.slots && Restless(s', k, true) == Restless(s, k, true)
            && Uploader(n) in s'.threads && s'.threads[Uploader(n)] == Idle
  {
    var a := Yes(Uploader(n));
    run := [a];
    SlotsKept(s, a);
    assert Run(s, run) == Step(s, a) == s.(threads := s.threads[Uploader(n) := Idle]);
  }

  lemma DrainsKindly(s: State, k: Key, r: nat, n: nat) returns (run: seq<Action>)
    requires WF(s) && SlotsOk(s) && SlotFree(s) && Restless(s, k, true) == {}
    requires Uploader(n) in s.threads && s.threads[Uploader(n)] == Idle
    ensures var s' := Run(s, run);
            && Kindly(s, s', k, r) && SlotsOk(s') && SlotFree(s') && s'.table.queue == [] && Restless(s', k, true) == {}
            && Apart(s, s', Uploader(n)) && s'.threads[Uploader(n)] == Idle
  {
    run := Drains(s, n);
    var s' := Run(s, run);
    forall t | t in s'.threads && t != Uploader(n) ensures t !in Restless(s', k, true) {
      assert t !in Restless(s, k, true) && s'.threads[t] == s.threads[t];
    }
    assert Restless(s', k, true) == {};
  }

  lemma RestsAndStarts(s: State, k: Key, r: nat, n: nat) returns (run: seq<Action>)
    requires WF(s) && SlotsOk(s) && SlotFree(s) && Uploader(n) !in s.threads
    ensures var s' := Run(s, run);
            && Kindly(s, s', k, r) && SlotsOk(s') && SlotFree(s') && Restless(s', k, true) == {}
            && Uploader(n) in s'.threads && s'.threads[Uploader(n)] == Idle
  {
    var first := AllRest(s, k, r, true);
    var s1 := Run(s, first);
    SizeMono(s1.slots, s.slots);
    var second := StartsUploader(s1, k, r, n);
    run := first + second;
    RunTwo(s, first, second);
    KindlyTrans(s, s1, Run(s, run), k, r);
  }

  /** From every reachable state in which the writer has no slot. */
  lemma Prepares(s: State, k: Key, r: nat, n: nat) returns (run: seq<Action>)
    requires Inv(s) && SlotsOk(s) && s.conf.maxUpload > 0 && !SlotOk(s, Writer(k)) && Uploader(n) !in s.threads
    ensures var s' := Run(s, run); Kindly(s, s', k, r) && Ready(s', k, n)
  {
    var first := FreesSlot(s, k, r);
    var s1 := Run(s, first);
    var second := RestsAndStarts(s1, k, r, n);
    var s2 := Run(s1, second);
    var third := DrainsKindly(s2, k, r, n);
    run := first + (second + third);
    RunTwo(s, first, second + third);
    RunTwo(s1, second, third);
    KindlyTrans(s, s1, s2, k, r);
    KindlyTrans(s, s2, Run(s, run), k, r);
    RunKeeps(s, run);
  }

  /** The writer stands before its claim. */
  predicate BeforeClaim(s: State, k: Key, q: nat) {
    && Writer(k) in s.threads && s.threads[Writer(k)].Held? && s.threads[Writer(k)].item == q
    && (s.threads[Writer(k)].h.Ack? || s.threads[Writer(k)].h.Now? || s.threads[Writer(k)].h.Claim?)
  }

  /** The flag is then held by a sweep or a barrier in queuePending. */
  lemma FlagHolder(s: State, k: Key, n: nat, q: nat, t: Tid)
    requires Ready(s, k, n) && BeforeClaim(s, k, q) && OwnerAt(s, t) == Of(q)
    ensures t in s.threads && s.threads[t].Queue? && s.threads[t].item == q && (s.threads[t].at.AtSend? || s.threads[t].at.AtClear?)
    ensures t != Writer(k) && t != Uploader(n)
  {
    ThreadIsOk(s, t);
    ThreadIsOk(s, Writer(k));
    assert t !in Restless(s, k, true);
  }

  /** It sends the item or clears the flag. */
  lemma HolderMoves(s: State, k: Key, n: nat, q: nat, t: Tid)
    requires Ready(s, k, n) && BeforeClaim(s, k, q) && OwnerAt(s, t) == Of(q) && s.conf.queueCap > 0
    ensures var s' := Step(s, Yes(t));
            && Apart(s, s', t) && s'.blocks == s.blocks && s'.slots == s.slots && OwnerAt(s', t) != Of(q) && !Busy(s'.threads[t])
            && t != Writer(k) && t != Uploader(n) && !t.Remover?
  {
    FlagHolder(s, k, n, q, t);
    ThreadIsOk(s, t);
    StepIsApart(s, Yes(t));
  }

  lemma StillNoneRestless(s: State, s': State, k: Key, t: Tid)
    requires Restless(s, k, true) == {} && Apart(s, s', t) && !Busy(s'.threads[t])
    ensures Restless(s', k, true) == {}
  {
    forall t' | t' in s'.threads && t' != t ensures t' !in Restless(s', k, true) {
      assert t' !in Restless(s, k, true);
    }
  }

  /** The holder of the flag lets go of it. */
  lemma HolderLetsGo(s: State, k: Key, r: nat, n: nat, q: nat) returns (run: seq<Action>)
    requires Ready(s, k, n) && BeforeClaim(s, k, q) && s.conf.queueCap > 0
    ensures var s' := Run(s, run); Kindly(s, s', k, r) && Ready(s', k, n) && !Uploading(s'.table, q)
  {
    if !Uploading(s.table, q) {
      run := [];
    } else {
      var t :| OwnerAt(s, t) == Of(q);
      var a := Yes(t);
      var s1 := Step(s, a);
      HolderMoves(s, k, n, q, t);
      SlotsKept(s, a);
      StillNoneRestless(s, s1, k, t);
      var rest := DrainsKindly(s1, k, r, n);
      run := [a] + rest;
      RunOne(s, a, rest);
      var s' := Run(s, run);
      KindlyTrans(s, s1, s', k, r);
      RunKeeps(s, run);
      LetGo(s, s1, s', k, n, q, t);
    }
  }

  lemma LetGo(s: State, s1: State, s': State, k: Key, n: nat, q: nat, t: Tid)
    requires Inv(s) && OwnerAt(s, t) == Of(q) && Apart(s, s1, t) && OwnerAt(s1, t) != Of(q)
    requires Ready(s', k, n) && Apart(s1, s', Uploader(n)) && t != Uploader(n)
    ensures !Uploading(s'.table, q)
  {
    forall t' ensures OwnerAt(s', t') != Of(q) {
      if t' != Uploader(n) {
        assert OwnerAt(s', t') == OwnerAt(s1, t');
        assert t' != t ==> OwnerAt(s1, t') == OwnerAt(s, t');
      }
    }
  }
}
