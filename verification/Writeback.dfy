/** The writeback protocol of the cached store, as a transition system.

    A block writer stages its block on local disk, registers it as pending and
    acknowledges it; uploaders, a sweep and the writers themselves move pending
    blocks to the object store; `Remove` cancels them; a remote durability barrier
    waits for everything registered before its fence.  Every critical section under
    the pending mutex and every atomic load, store or compare-and-swap is one step. */
module Writeback {
  import opened Common

  /** A pendingItem.  Items are never reused, so the item with sequence number n+1
      is simply entry n of `State.items`, and `|State.items|` is nextPendingSeq. */
  datatype Item = Item(key: Key, uploading: bool, forced: bool, failures: nat)

  datatype StageState = StagePending | StageSucceeded | StageAbandoned

  /** Goroutines.  A block is written once, so its writer and its staging goroutine
      are named by its key. */
  datatype Tid =
    | Writer(key: Key)
    | Stager(key: Key)
    | Uploader(n: nat)
    | Sweep(n: nat)
    | Barrier(n: nat)
    | Remover(n: nat)

  /** A fence: items below `upto`, with the failure counts seen when it was taken. */
  datatype Fence = Fence(upto: nat, baseline: map<nat, nat>)

  datatype Outcome = Durable | UploadFailed(item: nat) | Cancelled

  datatype QueueAt = AtForce | AtGuard | AtCas | AtSend | AtClear | AtSignal
  datatype FinishAt = AtStore | AtWake | AtSlot
  datatype Return =
    | ToWriter(missed: bool)
    | ToSweep
    | ToBarrier(fence: Fence, changed: nat, targets: set<nat>)

  /** Steps of wSlice.upload before the block is registered, or without registering it. */
  datatype OpenAt =
    | Check                               // decide between staging and direct upload
    | Await                               // wait for the staging goroutine or the timeout
    | Abandon                             // swap the stage state to abandoned
    | Undo                                // remove the late stage file
    | Register                            // register the block as pending
    | Direct                              // wait for an upload slot
    | DirectPut                           // put the object, then acknowledge
    | Release                             // give the slot back
    | Done

  /** Steps of wSlice.upload once the block is registered. */
  datatype HeldAt =
    | Ack                                 // acknowledge the block
    | Now                                 // may it be uploaded right away?
    | Claim                               // swap uploading to true
    | TakeSlot                            // take an upload slot if one is free
    | Reset                               // slot miss: clear uploading, no signal
    | Put                                 // put the object
    | Forget                              // removePending
    | Unstage                             // removeStage
    | Record                              // recordPendingError
    | Delay(missed: bool)                 // addDelayedStaging: register again

  datatype StagerAt = Staging | Settle | Retract | Staged(ok: bool)

  /** Steps of uploadStagingFile. */
  datatype UploadAt =
    | AwaitSlot
    | Valid1                              // first isPendingValid
    | CheckForced                         // forced.Swap(false) or canUpload
    | Open
    | OpenFailed
    | Read
    | Valid2                              // second isPendingValid
    | PutStaged
    | Valid3                              // third isPendingValid
    | DeleteLeaked
    | ForgetStaged                        // removePending
    | UnstageFile                         // removeStage
    | RecordStaged                        // recordPendingError

  datatype RemoveAt = Cancel | DropCache | Delete | Removed

  /** Where a goroutine stands. */
  datatype PC =
    | Bare(o: OpenAt)                     // a writer without an item
    | Held(h: HeldAt, item: nat)          // a writer with its item
    | Stage(g: StagerAt)
    | Queue(at: QueueAt, item: nat, force: bool, todo: seq<nat>, ret: Return)  // queuePending, then for all of todo
    | Finish(fin: FinishAt, item: nat)    // finishPendingUpload, then release the slot
    | Idle                                // an uploader or sweep with nothing to do
    | Upload(u: UploadAt, item: nat)
    | Capture
    | Scan(fence: Fence)
    | Wait(fence: Fence, changed: nat, targets: set<nat>)
    | Settled(fence: Fence, outcome: Outcome)
    | Remove(r: RemoveAt, keys: seq<Key>, i: nat, failed: bool)

  /** queueCap is the capacity of pendingCh, limit the staging backlog cap (0: none). */
  datatype Conf = Conf(queueCap: nat, maxUpload: nat, limit: nat)

  /** The pending table.  `epoch` counts the broadcast channels closed so far: a waiter
      that captured epoch e is released once e < epoch. */
  datatype Table = Table(items: seq<Item>, pending: map<Key, nat>, queue: seq<nat>, epoch: nat)

  /** What the upload goroutine of a block sends on the error channel of its slice. */
  datatype Message = Message(k: Key, ok: bool)

  /** Stage files, objects, and the messages sent on the error channels, in order. */
  datatype Blocks = Blocks(staged: set<Key>, stage: map<Key, StageState>, store: set<Key>, sent: seq<Message>)

  /** The block was acknowledged. */
  predicate Acked(b: Blocks, k: Key) {
    Message(k, true) in b.sent
  }

  /** History, for the theorems only: blocks a Remove has cancelled; those of them whose
      writer was spent by then; those whose writer could only register them again and that had
      no stage file; blocks with a failed delete; blocks a put left behind though
      it reported an error; items whose writer missed its slot and then found them not due,
      and that nobody claimed since; how often each item was cleared without a signal; the
      most writers seen in the staging branch. */
  datatype Hist = Hist(
    removed: set<Key>, quiet: set<Key>, fileless: set<Key>, failedDeletes: set<Key>, strays: set<Key>,
    lost: set<nat>, silent: multiset<nat>, peak: nat)

  datatype State = State(
    conf: Conf,
    table: Table,
    blocks: Blocks,
    slots: set<Tid>,
    threads: map<Tid, PC>,
    hist: Hist)

  /** The nondeterminism of one step: how a call ends (`yes`, `also`), the order in
      which a map is ranged over, the blocks a new Remove is for. */
  datatype Choice = Choice(yes: bool, also: bool, order: seq<nat>, keys: seq<Key>)
  datatype Action = Action(tid: Tid, choice: Choice)

  function Init(conf: Conf): State {
    State(conf, Table([], map[], [], 0), Blocks({}, map[], {}, []), {}, map[], Hist({}, {}, {}, {}, {}, {}, multiset{}, 0))
  }

  // ---------------------------------------------------------------- well-formedness

  predicate InRange(m: Table, items: seq<nat>) {
    forall q | q in items :: q < |m.items|
  }

  predicate FenceOk(m: Table, fence: Fence) {
    fence.upto <= |m.items| && forall q | q in fence.baseline :: q < fence.upto
  }

  predicate ReturnOk(m: Table, t: Tid, ret: Return) {
    match ret
    case ToWriter(_) => t.Writer?
    case ToSweep => t.Sweep?
    case ToBarrier(fence, changed, targets) =>
      t.Barrier? && FenceOk(m, fence) && changed <= m.epoch && forall q | q in targets :: q < fence.upto
  }

  predicate Mine(m: Table, t: Tid, q: nat) {
    q < |m.items| && (t.Writer? ==> m.items[q].key == t.key)
  }

  predicate PcOk(m: Table, t: Tid, pc: PC) {
    match pc
    case Bare(_) => t.Writer?
    case Held(_, q) => t.Writer? && Mine(m, t, q)
    case Stage(_) => t.Stager?
    case Queue(_, q, _, todo, ret) =>
      Mine(m, t, q) && InRange(m, todo) && ReturnOk(m, t, ret) && (t.Writer? ==> todo == [])
    case Finish(_, q) => (t.Writer? || t.Uploader?) && Mine(m, t, q)
    case Idle => t.Uploader? || t.Sweep?
    case Upload(_, q) => t.Uploader? && Mine(m, t, q)
    case Capture => t.Barrier?
    case Scan(fence) => t.Barrier? && FenceOk(m, fence)
    case Wait(fence, changed, targets) => ReturnOk(m, t, ToBarrier(fence, changed, targets))
    case Settled(fence, outcome) => t.Barrier? && FenceOk(m, fence)
    case Remove(r, keys, i, _) => t.Remover? && i <= |keys| && (r.DropCache? ==> i < |keys|)
  }

  /** pendingKeys maps each key to one of its items, and pendingCh holds items. */
  predicate TableOk(m: Table) {
    && (forall k | k in m.pending :: m.pending[k] < |m.items| && m.items[m.pending[k]].key == k)
    && InRange(m, m.queue)
  }

  predicate ThreadOk(s: State, t: Tid)
    requires t in s.threads
  {
    PcOk(s.table, t, s.threads[t])
  }

  ghost predicate WF(s: State) {
    TableOk(s.table) && forall t {:trigger ThreadOk(s, t)} | t in s.threads :: ThreadOk(s, t)
  }

  /** `m'` knows everything the program counters rely on in `m`. */
  ghost predicate Extends(m: Table, m': Table) {
    && |m.items| <= |m'.items|
    && (forall q {:trigger m'.items[q]} | 0 <= q < |m.items| :: m'.items[q].key == m.items[q].key)
    && m.epoch <= m'.epoch
  }

  lemma PcStable(m: Table, m': Table, t: Tid, pc: PC)
    requires PcOk(m, t, pc) && Extends(m, m')
    ensures PcOk(m', t, pc)
  {
  }

  lemma ThreadIsOk(s: State, t: Tid)
    requires WF(s) && t in s.threads
    ensures ThreadOk(s, t)
  {
  }

  // ---------------------------------------------------------------- events

  /** isPendingValid */
  predicate IsCurrent(m: Table, q: nat) {
    q < |m.items| && m.items[q].key in m.pending && m.pending[m.items[q].key] == q
  }

  /** What one step does to the shared state. */
  datatype Event =
    | Nothing
    | TakeASlot
    | FreeSlot
    | Registers(k: Key)                // registerPending
    | Claims(q: nat)                   // uploading: false to true
    | Clears(q: nat, silent: bool)     // uploading: true to false; a signal follows unless silent
    | Forces(q: nat, value: bool)
    | Sends(q: nat)                    // to pendingCh
    | Receives                         // from pendingCh
    | Signals                          // signalPendingLocked
    | Forgets(q: nat)                  // removePending with an expected item
    | Fails(q: nat)                    // recordPendingError
    | Cancels(k: Key)                  // removePending without an expected item
    | Puts(k: Key)
    | Strays(k: Key)                   // a put that reports an error but leaves the object
    | PutsAndAcks(k: Key)              // a direct put, and its result on the error channel
    | Nacks(k: Key, landed: bool)      // a direct put that reports an error
    | Acks(k: Key)                     // nil on the error channel
    | Deletes(k: Key)
    | DeleteFails(k: Key)
    | Stages(k: Key)
    | Unstages(k: Key)
    | StageTo(k: Key, st: StageState)
    | Enters(k: Key)                   // the staging branch, with a fresh stage state
    | Loses(q: nat)                    // nothing happens; noted in the history

  /** Items and channel elements the event speaks of exist. */
  predicate EventOk(m: Table, ev: Event) {
    match ev
    case Claims(q) => q < |m.items|
    case Clears(q, _) => q < |m.items|
    case Forces(q, _) => q < |m.items|
    case Sends(q) => q < |m.items|
    case Forgets(q) => q < |m.items|
    case Fails(q) => q < |m.items|
    case Loses(q) => q < |m.items|
    case Receives => m.queue != []
    case _ => true
  }

  /** signalPendingLocked closes the broadcast channel and replaces it. */
  function Broadcast(m: Table): Table {
    m.(epoch := m.epoch + 1)
  }

  function SetUploading(m: Table, q: nat, value: bool): Table
    requires q < |m.items|
  {
    m.(items := m.items[q := m.items[q].(uploading := value)])
  }

  function AddItem(m: Table, k: Key): Table {
    Broadcast(m.(items := m.items + [Item(k, false, false, 0)], pending := m.pending[k := |m.items|]))
  }

  function AddFailure(m: Table, q: nat): Table
    requires q < |m.items|
  {
    Broadcast(m.(items := m.items[q := m.items[q].(failures := m.items[q].failures + 1)]))
  }

  function DropPending(m: Table, k: Key): Table {
    Broadcast(m.(pending := m.pending - {k}))
  }

  /** The pending table after an event. */
  function After(m: Table, ev: Event): Table
    requires EventOk(m, ev)
  {
    match ev
    case Registers(k) => if k in m.pending then m else AddItem(m, k)
    case Claims(q) => SetUploading(m, q, true)
    case Clears(q, _) => SetUploading(m, q, false)
    case Forces(q, value) => m.(items := m.items[q := m.items[q].(forced := value)])
    case Sends(q) => m.(queue := m.queue + [q])
    case Receives => m.(queue := m.queue[1..])
    case Signals => Broadcast(m)
    case Forgets(q) => if IsCurrent(m, q) then DropPending(m, m.items[q].key) else m
    case Fails(q) => if IsCurrent(m, q) then AddFailure(m, q) else m
    case Cancels(k) => if k in m.pending then DropPending(m, k) else m
    case _ => m
  }

  /** The item registerPending returns. */
  function ItemFor(m: Table, k: Key): nat {
    if k in m.pending then m.pending[k] else |m.items|
  }

  /** Stage files, objects and acknowledgements after an event. */
  function BlocksAfter(b: Blocks, ev: Event): Blocks {
    match ev
    case Puts(k) => b.(store := b.store + {k})
    case Strays(k) => b.(store := b.store + {k})
    case PutsAndAcks(k) => b.(store := b.store + {k}, sent := b.sent + [Message(k, true)])
    case Nacks(k, landed) => b.(store := if landed then b.store + {k} else b.store, sent := b.sent + [Message(k, false)])
    case Acks(k) => b.(sent := b.sent + [Message(k, true)])
    case Deletes(k) => b.(store := b.store - {k})
    case Stages(k) => b.(staged := b.staged + {k})
    case Unstages(k) => b.(staged := b.staged - {k})
    case StageTo(k, st) => b.(stage := b.stage[k := st])
    case Enters(k) => b.(stage := b.stage[k := StagePending])
    case _ => b
  }

  /** From passing stagingBacklogFull until the staging branch is left. */
  predicate InBranch(pc: PC) {
    match pc
    case Bare(o) => o.Await? || o.Abandon? || o.Undo? || o.Register?
    case Held(_, _) => true
    case Finish(_, _) => true
    case _ => false
  }

  function Branch(s: State): set<Key> {
    set t | t in s.threads && t.Writer? && InBranch(s.threads[t]) :: t.key
  }

  /** A writer that will neither put its object nor register its block any more. */
  predicate Spent(pc: PC) {
    match pc
    case Bare(o) => o.Release? || o.Done?
    case Held(h, _) => h.Forget? || h.Unstage? || h.Record?
    case _ => pc.Queue? || pc.Finish?
  }

  predicate WriterSpent(s: State, k: Key) {
    Writer(k) in s.threads && Spent(s.threads[Writer(k)])
  }

  /** A writer that will not put its object, but register its block again. */
  predicate Returns(pc: PC) {
    pc.Held? && (pc.h.Reset? || pc.h.Delay?)
  }

  predicate WriterReturns(s: State, k: Key) {
    Writer(k) in s.threads && Returns(s.threads[Writer(k)])
  }

  predicate Uploading(m: Table, q: nat) {
    q < |m.items| && m.items[q].uploading
  }

  function HistAfter(s: State, ev: Event): Hist {
    match ev
    case Cancels(k) =>
      s.hist.(removed := s.hist.removed + {k},
              quiet := if WriterSpent(s, k) then s.hist.quiet + {k} else s.hist.quiet,
              fileless := if WriterReturns(s, k) && k !in s.blocks.staged then s.hist.fileless + {k} else s.hist.fileless)
    case Strays(k) => s.hist.(strays := s.hist.strays + {k})
    case Nacks(k, landed) => if landed then s.hist.(strays := s.hist.strays + {k}) else s.hist
    case DeleteFails(k) => s.hist.(failedDeletes := s.hist.failedDeletes + {k})
    case Loses(q) => if Uploading(s.table, q) then s.hist else s.hist.(lost := s.hist.lost + {q})
    case Claims(q) => s.hist.(lost := s.hist.lost - {q})
    case Clears(q, true) => s.hist.(silent := s.hist.silent + multiset{q})
    case Enters(k) => s.hist.(peak := if |Branch(s) + {k}| > s.hist.peak then |Branch(s) + {k}| else s.hist.peak)
    case _ => s.hist
  }

  function Apply(s: State, t: Tid, ev: Event): State
    requires EventOk(s.table, ev)
  {
    s.(table := After(s.table, ev),
       blocks := BlocksAfter(s.blocks, ev),
       slots := if ev.TakeASlot? then s.slots + {t} else if ev.FreeSlot? then s.slots - {t} else s.slots,
       hist := HistAfter(s, ev))
  }

  // ---------------------------------------------------------------- shared guards

  predicate SlotFree(s: State) {
    |s.slots| < s.conf.maxUpload
  }

  /** The guard of stagingBacklogFull. */
  predicate BacklogFull(s: State) {
    s.conf.limit > 0 && |s.table.pending| >= s.conf.limit
  }

  function StageOf(s: State, k: Key): StageState {
    if k in s.blocks.stage then s.blocks.stage[k] else StagePending
  }

  /** A put that reports an error may still have left the object (`landed`). */
  function Putting(k: Key, ok: bool, landed: bool): Event {
    if ok then Puts(k) else if landed then Strays(k) else Nothing
  }

  function Deleting(k: Key, ok: bool): Event {
    if ok then Deletes(k) else DeleteFails(k)
  }

  function Unstaging(k: Key, ok: bool): Event {
    if ok then Unstages(k) else Nothing
  }

  /** What a goroutine does in one step: an event, and where it goes. */
  datatype Effect = To(ev: Event, pc: PC)

  // ---------------------------------------------------------------- wSlice.upload

  predicate StagerIs(s: State, k: Key, ok: bool) {
    Stager(k) in s.threads && s.threads[Stager(k)] == Stage(Staged(ok))
  }

  /** The steps of a writer without an item. */
  function BareStep(s: State, k: Key, o: OpenAt, c: Choice): Effect {
    match o
    case Check => if c.yes && !BacklogFull(s) then To(Enters(k), Bare(Await)) else To(Nothing, Bare(Direct))
    case Await =>
      if c.yes || StagerIs(s, k, false) then To(Nothing, Bare(Abandon))
      else if StagerIs(s, k, true) then To(Nothing, Bare(Register))
      else To(Nothing, Bare(Await))
    case Abandon =>
      if StageOf(s, k) == StagePending then To(StageTo(k, StageAbandoned), Bare(Direct))
      else To(Nothing, Bare(Undo))
    case Undo => To(Unstaging(k, c.yes), Bare(Direct))
    case Register => To(Registers(k), Held(Ack, ItemFor(s.table, k)))
    case Direct => if SlotFree(s) then To(TakeASlot, Bare(DirectPut)) else To(Nothing, Bare(Direct))
    case DirectPut => To(if c.yes then PutsAndAcks(k) else Nacks(k, c.also), Bare(Release))
    case Release => To(FreeSlot, Bare(Done))
    case Done => To(Nothing, Bare(Done))
  }

  /** The steps of a writer that holds its pending item. */
  function HeldStep(s: State, k: Key, h: HeldAt, q: nat, c: Choice): Effect
    requires q < |s.table.items|
  {
    match h
    case Ack => To(Acks(k), Held(Now, q))
    case Now => To(Nothing, Held(if c.yes then Claim else Delay(false), q))
    case Claim =>
      if s.table.items[q].uploading then To(Nothing, Held(Delay(false), q)) else To(Claims(q), Held(TakeSlot, q))
    case TakeSlot => if SlotFree(s) then To(TakeASlot, Held(Put, q)) else To(Nothing, Held(Reset, q))
    case Reset => To(Clears(q, true), Held(Delay(true), q))
    case Put => To(Putting(k, c.yes, c.also), Held(if c.yes then Forget else Record, q))
    case Forget => To(Forgets(q), Held(Unstage, q))
    case Unstage => To(Unstaging(k, c.yes), Finish(AtStore, q))
    case Record => To(Fails(q), Finish(AtStore, q))
    case Delay(missed) => To(Registers(k), Queue(AtForce, ItemFor(s.table, k), false, [], ToWriter(missed)))
  }

  /** The goroutine inside WithTimeout, which exists once the branch is entered.  Staging can fail after the file was written
      (the link into the read cache failed): `also` leaves the file behind. */
  function StagerStep(s: State, k: Key, g: StagerAt, c: Choice): Effect {
    match g
    case Staging => To(if c.yes || c.also then Stages(k) else Nothing, Stage(if c.yes then Settle else Staged(false)))
    case Settle =>
      if StageOf(s, k) == StagePending then To(StageTo(k, StageSucceeded), Stage(Staged(true)))
      else To(Nothing, Stage(Retract))
    case Retract => To(Unstaging(k, c.yes), Stage(Staged(true)))
    case Staged(_) => To(Nothing, Stage(g))
  }

  // ---------------------------------------------------------------- queuePending

  function NextQueued(todo: seq<nat>, force: bool, ret: Return): PC {
    if todo != [] then Queue(AtForce, todo[0], force, todo[1..], ret)
    else match ret
         case ToWriter(_) => Bare(Done)
         case ToSweep => Idle
         case ToBarrier(fence, changed, targets) => Wait(fence, changed, targets)
  }

  /** `c.yes` stands for canUpload and the elapsed delay; a forced item is always taken. */
  function QueueStep(s: State, pc: PC, c: Choice): Effect
    requires pc.Queue? && pc.item < |s.table.items|
  {
    var q := pc.item;
    var next := NextQueued(pc.todo, pc.force, pc.ret);
    match pc.at
    case AtForce => To(if pc.force then Forces(q, true) else Nothing, pc.(at := AtGuard))
    case AtGuard =>
      if pc.force || c.yes then To(Nothing, pc.(at := AtCas))
      else To(if pc.ret == ToWriter(true) then Loses(q) else Nothing, next)
    case AtCas => if s.table.items[q].uploading then To(Nothing, next) else To(Claims(q), pc.(at := AtSend))
    case AtSend => if |s.table.queue| < s.conf.queueCap then To(Sends(q), next) else To(Nothing, pc.(at := AtClear))
    case AtClear => To(Clears(q, false), pc.(at := AtSignal))
    case AtSignal => To(Signals, next)
  }

  function FinishStep(t: Tid, fin: FinishAt, q: nat): Effect {
    match fin
    case AtStore => To(Clears(q, false), Finish(AtWake, q))
    case AtWake => To(Signals, Finish(AtSlot, q))
    case AtSlot => To(FreeSlot, if t.Writer? then Bare(Done) else Idle)
  }

  // ---------------------------------------------------------------- uploader

  function UploadStep(s: State, u: UploadAt, q: nat, c: Choice): Effect
    requires q < |s.table.items|
  {
    var k := s.table.items[q].key;
    match u
    case AwaitSlot => if SlotFree(s) then To(TakeASlot, Upload(Valid1, q)) else To(Nothing, Upload(u, q))
    case Valid1 => To(Nothing, if IsCurrent(s.table, q) then Upload(CheckForced, q) else Finish(AtStore, q))
    case CheckForced =>
      To(Forces(q, false), if s.table.items[q].forced || c.yes then Upload(Open, q) else Finish(AtStore, q))
    case Open => To(Nothing, Upload(if c.yes && k in s.blocks.staged then Read else OpenFailed, q))
    case OpenFailed => To(Nothing, if IsCurrent(s.table, q) then Upload(RecordStaged, q) else Finish(AtStore, q))
    case Read => To(Nothing, Upload(if c.yes then Valid2 else RecordStaged, q))
    case Valid2 => To(Nothing, if IsCurrent(s.table, q) then Upload(PutStaged, q) else Finish(AtStore, q))
    case PutStaged => To(Putting(k, c.yes, c.also), Upload(if c.yes then Valid3 else RecordStaged, q))
    case Valid3 => To(Nothing, Upload(if IsCurrent(s.table, q) then ForgetStaged else DeleteLeaked, q))
    case DeleteLeaked => To(Deleting(k, c.yes), Finish(AtStore, q))
    case ForgetStaged => To(Forgets(q), Upload(UnstageFile, q))
    case UnstageFile => To(Unstaging(k, c.yes), Finish(AtStore, q))
    case RecordStaged => To(Fails(q), Finish(AtStore, q))
  }

  /** An idle uploader takes the head of the queue; an idle sweep takes any snapshot of
      pending items, in any order. */
  function IdleStep(s: State, t: Tid, c: Choice): Effect {
    if t.Uploader? && s.table.queue != [] then To(Receives, Upload(AwaitSlot, s.table.queue[0]))
    else if t.Sweep? && c.order != [] && forall q | q in c.order :: IsCurrent(s.table, q) then
      To(Nothing, Queue(AtForce, c.order[0], false, c.order[1..], ToSweep))
    else To(Nothing, Idle)
  }

  // ---------------------------------------------------------------- RemoteDurability

  /** The pending items below the fence. */
  function Targets(m: Table, upto: nat): set<nat> {
    set k | k in m.pending && m.pending[k] < upto :: m.pending[k]
  }

  function Failures(m: Table, q: nat): nat {
    if q < |m.items| then m.items[q].failures else 0
  }

  function Baseline(m: Table): map<nat, nat> {
    map q | q in Targets(m, |m.items|) :: Failures(m, q)
  }

  /** A target that failed since the baseline; a missing baseline entry reads as zero. */
  predicate FailedSince(m: Table, fence: Fence, q: nat) {
    Failures(m, q) > (if q in fence.baseline then fence.baseline[q] else 0)
  }

  function Elements(order: seq<nat>): set<nat> {
    set q | q in order
  }

  /** One pass of the barrier's loop under the mutex; `c.order` is the order of the map range. */
  function ScanStep(m: Table, fence: Fence, c: Choice): PC {
    var targets := Targets(m, fence.upto);
    if exists q :: q in targets && FailedSince(m, fence, q) then
      if c.order != [] && c.order[0] in targets && FailedSince(m, fence, c.order[0])
      then Settled(fence, UploadFailed(c.order[0]))
      else Scan(fence)
    else if targets == {} then Settled(fence, Durable)
    else if c.order != [] && Elements(c.order) == targets then
      Queue(AtForce, c.order[0], true, c.order[1..], ToBarrier(fence, m.epoch, targets))
    else Scan(fence)
  }

  function BarrierStep(m: Table, pc: PC, c: Choice): PC {
    match pc
    case Capture => Scan(Fence(|m.items|, Baseline(m)))
    case Scan(fence) => ScanStep(m, fence, c)
    case Wait(fence, changed, _) =>
      if c.yes && changed < m.epoch then Scan(fence)
      else if c.also then Settled(fence, Cancelled)
      else pc
    case _ => pc
  }

  // ---------------------------------------------------------------- rSlice.Remove

  /** Cancel and unstage every block, then delete every object. */
  function RemoveStep(pc: PC, c: Choice): Effect
    requires pc.Remove? && pc.i <= |pc.keys| && (pc.r.DropCache? ==> pc.i < |pc.keys|)
  {
    match pc.r
    case Cancel =>
      if pc.i == |pc.keys| then To(Nothing, Remove(Delete, pc.keys, 0, false))
      else To(Cancels(pc.keys[pc.i]), pc.(r := DropCache))
    case DropCache => To(Unstaging(pc.keys[pc.i], c.yes), pc.(r := Cancel, i := pc.i + 1))
    case Delete =>
      if pc.i == |pc.keys| then To(Nothing, pc.(r := Removed))
      else To(Deleting(pc.keys[pc.i], c.yes), pc.(i := pc.i + 1, failed := pc.failed || !c.yes))
    case Removed => To(Nothing, pc)
  }

  // ---------------------------------------------------------------- runs

  function Entry(t: Tid, c: Choice): PC {
    match t
    case Writer(_) => Bare(Check)
    case Stager(_) => Stage(Staging)
    case Uploader(_) => Idle
    case Sweep(_) => Idle
    case Barrier(_) => Capture
    case Remover(_) => Remove(Cancel, c.keys, 0, false)
  }

  /** What a goroutine `t` standing at `pc` does next. */
  function Move(s: State, t: Tid, pc: PC, c: Choice): Effect
    requires PcOk(s.table, t, pc)
  {
    match pc
    case Bare(o) => BareStep(s, t.key, o, c)
    case Held(h, q) => HeldStep(s, t.key, h, q, c)
    case Stage(g) => StagerStep(s, t.key, g, c)
    case Queue(_, _, _, _, _) => QueueStep(s, pc, c)
    case Finish(fin, q) => FinishStep(t, fin, q)
    case Idle => IdleStep(s, t, c)
    case Upload(u, q) => UploadStep(s, u, q, c)
    case Remove(_, _, _, _) => RemoveStep(pc, c)
    case _ => To(Nothing, BarrierStep(s.table, pc, c))
  }

  /** A staging goroutine starts only after its writer has entered the branch. */
  predicate CanRun(s: State, t: Tid) {
    t in s.threads || (t.Stager? ==> t.key in s.blocks.stage)
  }

  /** The next step of a goroutine; one that does not exist yet is started. */
  function Next(s: State, a: Action): (e: Effect)
    requires WF(s)
    ensures Sound(s, a.tid, e)
  {
    if a.tid in s.threads then
      ThreadIsOk(s, a.tid);
      MoveSound(s, a.tid, s.threads[a.tid], a.choice);
      Move(s, a.tid, s.threads[a.tid], a.choice)
    else To(Nothing, Entry(a.tid, a.choice))
  }

  /** The state after goroutine `t` has taken a step. */
  function Take(s: State, t: Tid, e: Effect): State
    requires EventOk(s.table, e.ev)
  {
    var s1 := Apply(s, t, e.ev);
    s1.(threads := s1.threads[t := e.pc])
  }

  function Step(s: State, a: Action): (r: State)
    requires WF(s)
    ensures WF(r)
  {
    if !CanRun(s, a.tid) then s
    else
      TakeOk(s, a.tid, Next(s, a));
      Take(s, a.tid, Next(s, a))
  }

  function Run(s: State, actions: seq<Action>): (r: State)
    requires WF(s)
    ensures WF(r)
    decreases |actions|
  {
    if actions == [] then s else Run(Step(s, actions[0]), actions[1..])
  }

  // ---------------------------------------------------------------- well-formedness is kept

  lemma AfterExtends(m: Table, ev: Event)
    requires EventOk(m, ev)
    ensures Extends(m, After(m, ev))
  {
  }

  lemma AfterOk(m: Table, ev: Event)
    requires EventOk(m, ev) && TableOk(m)
    ensures TableOk(After(m, ev))
  {
    if ev.Receives? { TailOk(m, m.queue); }
  }

  lemma TakeOk(s: State, t: Tid, e: Effect)
    requires WF(s) && Sound(s, t, e)
    ensures WF(Take(s, t, e))
  {
    var s' := Take(s, t, e);
    AfterOk(s.table, e.ev);
    AfterExtends(s.table, e.ev);
    forall t' | t' in s'.threads ensures ThreadOk(s', t') {
      if t' != t {
        ThreadIsOk(s, t');
        PcStable(s.table, s'.table, t', s.threads[t']);
      }
    }
  }

  ghost predicate Sound(s: State, t: Tid, e: Effect) {
    EventOk(s.table, e.ev) && PcOk(After(s.table, e.ev), t, e.pc)
  }

  lemma TailOk(m: Table, order: seq<nat>)
    requires order != [] && InRange(m, order)
    ensures order[0] < |m.items| && InRange(m, order[1..])
  {
    assert order[0] in order && forall q | q in order[1..] :: q in order;
  }

  lemma BareSound(s: State, t: Tid, pc: PC, c: Choice)
    requires TableOk(s.table) && pc.Bare? && PcOk(s.table, t, pc)
    ensures Sound(s, t, Move(s, t, pc, c))
  {
  }

  lemma HeldSound(s: State, t: Tid, pc: PC, c: Choice)
    requires TableOk(s.table) && pc.Held? && PcOk(s.table, t, pc)
    ensures Sound(s, t, Move(s, t, pc, c))
  {
    HeldStepSound(s, t, pc.h, pc.item, c);
  }

  lemma HeldStepSound(s: State, t: Tid, h: HeldAt, q: nat, c: Choice)
    requires TableOk(s.table) && PcOk(s.table, t, Held(h, q))
    ensures Sound(s, t, HeldStep(s, t.key, h, q, c))
  {
  }

  lemma UploadSound(s: State, t: Tid, pc: PC, c: Choice)
    requires TableOk(s.table) && pc.Upload? && PcOk(s.table, t, pc)
    ensures Sound(s, t, Move(s, t, pc, c))
  {
  }

  lemma NextSound(m: Table, t: Tid, todo: seq<nat>, force: bool, ret: Return)
    requires InRange(m, todo) && ReturnOk(m, t, ret) && (t.Writer? ==> todo == [])
    ensures PcOk(m, t, NextQueued(todo, force, ret))
  {
    if todo != [] { TailOk(m, todo); }
  }

  lemma QueueSound(s: State, t: Tid, pc: PC, c: Choice)
    requires TableOk(s.table) && pc.Queue? && PcOk(s.table, t, pc)
    ensures Sound(s, t, Move(s, t, pc, c))
  {
    var e := Move(s, t, pc, c);
    AfterExtends(s.table, e.ev);
    PcStable(s.table, After(s.table, e.ev), t, pc);
    NextSound(After(s.table, e.ev), t, pc.todo, pc.force, pc.ret);
  }

  lemma ScanSound(m: Table, t: Tid, fence: Fence, c: Choice)
    requires TableOk(m) && t.Barrier? && FenceOk(m, fence)
    ensures PcOk(m, t, ScanStep(m, fence, c))
  {
    if c.order != [] && Elements(c.order) == Targets(m, fence.upto) {
      assert forall q | q in c.order :: q in Elements(c.order);
      TailOk(m, c.order);
    }
  }

  lemma IdleSound(s: State, t: Tid, pc: PC, c: Choice)
    requires TableOk(s.table) && pc.Idle? && PcOk(s.table, t, pc)
    ensures Sound(s, t, Move(s, t, pc, c))
  {
    if c.order != [] && InRange(s.table, c.order) { TailOk(s.table, c.order); }
    if s.table.queue != [] { TailOk(s.table, s.table.queue); }
  }

  lemma RemoveSound(s: State, t: Tid, pc: PC, c: Choice)
    requires TableOk(s.table) && pc.Remove? && PcOk(s.table, t, pc)
    ensures Sound(s, t, Move(s, t, pc, c))
  {
  }

  lemma MoveSound(s: State, t: Tid, pc: PC, c: Choice)
    requires TableOk(s.table) && PcOk(s.table, t, pc)
    ensures Sound(s, t, Move(s, t, pc, c))
  {
    match pc
    case Bare(_) => BareSound(s, t, pc, c);
    case Held(_, _) => HeldSound(s, t, pc, c);
    case Queue(_, _, _, _, _) => QueueSound(s, t, pc, c);
    case Idle => IdleSound(s, t, pc, c);
    case Upload(_, _) => UploadSound(s, t, pc, c);
    case Scan(fence) => ScanSound(s.table, t, fence, c);
    case Remove(_, _, _, _) => RemoveSound(s, t, pc, c);
    case _ =>
  }
}
