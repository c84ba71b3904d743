/** The health of a cache disk: normal, unstable, down, or unchanged. */
module DiskState {

  const ERRORS_TO_UNSTABLE: nat := 3       // numIOErrToUnstable
  const IOS_TO_NORMAL: nat := 60           // minIOSuccToNormal
  const MAX_CONCURRENCY: nat := 10         // maxConcurrencyForUnstable

  datatype Kind = Normal | Unstable | Down | Unchanged

  /** A dcState object; it keeps its kind when the machine moves on. */
  datatype Instance = Instance(kind: Kind, errors: nat, ios: nat, concurrency: int)

  /** Where an operation is in checkErr, and with which state object. */
  datatype PC = Idle | Got(i: nat) | Counted(i: nat) | Executing(i: nat) | Reporting(i: nat) | Leaving(i: nat)

  datatype State = State(instances: seq<Instance>, cur: nat, ops: seq<PC>)

  datatype Signal = ToNormal | ToUnstable | ToDown

  datatype Outcome = Success | IOError | OtherError

  datatype Event =
    | Begin(t: nat)
    | Before(t: nat)
    | Check(t: nat)
    | Finish(t: nat, outcome: Outcome)
    | Report(t: nat)
    | After(t: nat)
    | Tick(i: nat, late: bool)             // of the state object i, even if it was replaced

  ghost predicate WF(s: State) {
    s.cur < |s.instances| && forall t {:trigger s.ops[t]} | 0 <= t < |s.ops| :: s.ops[t].Idle? || s.ops[t].i < |s.instances|
  }

  function Fresh(kind: Kind): Instance {
    Instance(kind, 0, 0, 0)
  }

  /** diskCache.event, under the state lock. */
  function Handle(s: State, e: Signal): State
    requires s.cur < |s.instances|
  {
    var kind := s.instances[s.cur].kind;
    if kind == Normal && e == ToUnstable then Replace(s, Unstable)
    else if kind == Unstable && e == ToNormal then Replace(s, Normal)
    else if kind == Unstable && e == ToDown then Replace(s, Down)
    else s
  }

  function Replace(s: State, kind: Kind): State {
    s.(instances := s.instances + [Fresh(kind)], cur := |s.instances|)
  }

  function Bump(s: State, i: nat, errors: nat, ios: nat): State
    requires i < |s.instances|
  {
    s.(instances := s.instances[i := s.instances[i].(errors := s.instances[i].errors + errors, ios := s.instances[i].ios + ios)])
  }

  function Enter(s: State, i: nat, n: int): State
    requires i < |s.instances|
  {
    if s.instances[i].kind != Unstable then s
    else s.(instances := s.instances[i := s.instances[i].(concurrency := s.instances[i].concurrency + n)])
  }

  function At(s: State, t: nat, pc: PC): State
    requires t < |s.ops|
  {
    s.(ops := s.ops[t := pc])
  }

  predicate Enabled(s: State, e: Event) {
    match e
    case Begin(t) => t < |s.ops| && s.ops[t].Idle?
    case Before(t) => t < |s.ops| && s.ops[t].Got?
    case Check(t) => t < |s.ops| && s.ops[t].Counted?
    case Finish(t, _) => t < |s.ops| && s.ops[t].Executing?
    case Report(t) => t < |s.ops| && s.ops[t].Reporting?
    case After(t) => t < |s.ops| && s.ops[t].Leaving?
    case Tick(i, _) => i < |s.instances| && (s.instances[i].kind == Normal || s.instances[i].kind == Unstable)
  }

  /** onIOErr and onIOSucc; a normal state reports its third error. */
  function Finished(s: State, t: nat, i: nat, outcome: Outcome): State
    requires t < |s.ops| && i < |s.instances|
  {
    var inst := s.instances[i];
    match outcome
    case OtherError => At(s, t, Leaving(i))
    case Success => At(if inst.kind == Unstable then Bump(s, i, 0, 1) else s, t, Leaving(i))
    case IOError =>
      if inst.kind == Normal then
        At(Bump(s, i, 1, 0), t, if inst.errors + 1 >= ERRORS_TO_UNSTABLE then Reporting(i) else Leaving(i))
      else At(if inst.kind == Unstable then Bump(s, i, 1, 1) else s, t, Leaving(i))
  }

  /** The tickers; `late` when the state is older than it may be. */
  function Ticked(s: State, i: nat, late: bool): State
    requires i < |s.instances| && s.cur < |s.instances|
  {
    var inst := s.instances[i];
    if inst.kind == Unstable && inst.ios >= IOS_TO_NORMAL && inst.errors == 0 then Handle(s, ToNormal)
    else if inst.kind == Unstable && late then Handle(s, ToDown)
    else s.(instances := s.instances[i := inst.(errors := 0, ios := 0)])
  }

  function Next(s: State, e: Event): State
    requires WF(s) && Enabled(s, e)
  {
    match e
    case Begin(t) => if s.instances[s.cur].kind == Down then s else At(s, t, Got(s.cur))
    case Before(t) => At(Enter(s, s.ops[t].i, 1), t, Counted(s.ops[t].i))
    case Check(t) =>
      var i := s.ops[t].i;
      At(s, t, if s.instances[i].kind == Unstable && s.instances[i].concurrency >= MAX_CONCURRENCY then Leaving(i) else Executing(i))
    case Finish(t, outcome) => Finished(s, t, s.ops[t].i, outcome)
    case Report(t) => Handle(At(s, t, Leaving(s.ops[t].i)), ToUnstable)
    case After(t) => At(Enter(s, s.ops[t].i, -1), t, Idle)
    case Tick(i, late) => Ticked(s, i, late)
  }

  // ---------------------------------------------------------------- the machine

  function KindOf(s: State): Kind
    requires s.cur < |s.instances|
  {
    s.instances[s.cur].kind
  }

  /** Only these transitions occur. */
  predicate Moves(a: Kind, b: Kind) {
    a == b || (a == Normal && b == Unstable) || (a == Unstable && (b == Normal || b == Down))
  }

  /** State objects keep their kind. */
  predicate KindsStay(s: State, s': State) {
    |s.instances| <= |s'.instances| && forall i | 0 <= i < |s.instances| :: s'.instances[i].kind == s.instances[i].kind
  }

  lemma NextMoves(s: State, e: Event)
    requires WF(s) && Enabled(s, e)
    ensures WF(Next(s, e)) && KindsStay(s, Next(s, e)) && Moves(KindOf(s), KindOf(Next(s, e))) && |Next(s, e).ops| == |s.ops|
  {
  }

  ghost predicate Run(s: State, es: seq<Event>, s': State)
    decreases |es|
  {
    WF(s) && if es == [] then s == s' else Enabled(s, es[0]) && Run(Next(s, es[0]), es[1..], s')
  }

  /** A disk that is down, or is not watched, stays so. */
  lemma {:induction false} Absorbing(s: State, es: seq<Event>, s': State)
    requires Run(s, es, s') && (KindOf(s) == Down || KindOf(s) == Unchanged)
    ensures WF(s') && s'.cur == s.cur && KindOf(s') == KindOf(s)
    decreases |es|
  {
    if es != [] {
      NextMoves(s, es[0]);
      Absorbing(Next(s, es[0]), es[1..], s');
    }
  }

  /** An operation that starts after the disk went down never runs. */
  lemma {:induction false} NothingRunsWhenDown(s: State, es: seq<Event>, s': State, t: nat)
    requires Run(s, es, s') && KindOf(s) == Down && t < |s.ops| && s.ops[t].Idle?
    ensures |s'.ops| == |s.ops| && s'.ops[t].Idle?
    decreases |es|
  {
    if es != [] {
      NextMoves(s, es[0]);
      Absorbing(s, [es[0]], Next(s, es[0]));
      NothingRunsWhenDown(Next(s, es[0]), es[1..], s', t);
    }
  }

  // ---------------------------------------------------------------- the concurrency gate

  /** Between beforeCacheOp and afterCacheOp of state object `i`. */
  predicate Inside(pc: PC, i: nat) {
    !pc.Idle? && !pc.Got? && pc.i == i
  }

  function CountInside(ops: seq<PC>, i: nat): nat {
    if ops == [] then 0 else CountInside(ops[..|ops| - 1], i) + if Inside(ops[|ops| - 1], i) then 1 else 0
  }

  function CountExecuting(ops: seq<PC>, i: nat): nat {
    if ops == [] then 0 else CountExecuting(ops[..|ops| - 1], i) + if ops[|ops| - 1] == Executing(i) then 1 else 0
  }

  lemma {:induction false} CountUpdate(ops: seq<PC>, i: nat, t: nat, pc: PC)
    requires t < |ops|
    ensures CountInside(ops[t := pc], i) == CountInside(ops, i) - (if Inside(ops[t], i) then 1 else 0) + if Inside(pc, i) then 1 else 0
    ensures CountExecuting(ops[t := pc], i) ==
      CountExecuting(ops, i) - (if ops[t] == Executing(i) then 1 else 0) + if pc == Executing(i) then 1 else 0
  {
    var n := |ops| - 1;
    if t < n {
      CountUpdate(ops[..n], i, t, pc);
      assert ops[t := pc][..n] == ops[..n][t := pc];
    } else {
      assert ops[t := pc][..n] == ops[..n];
    }
  }

  /** Executing operations are inside; one that is inside and does not execute leaves room. */
  lemma {:induction false} RoomFor(ops: seq<PC>, i: nat, t: nat)
    requires t < |ops| && Inside(ops[t], i) && ops[t] != Executing(i)
    ensures CountExecuting(ops, i) + 1 <= CountInside(ops, i)
  {
    CountUpdate(ops, i, t, Idle);
    ExecutingInside(ops[t := Idle], i);
  }

  lemma {:induction false} ExecutingInside(ops: seq<PC>, i: nat)
    ensures CountExecuting(ops, i) <= CountInside(ops, i)
  {
    if ops != [] { ExecutingInside(ops[..|ops| - 1], i); }
  }

  /** The counter of an unstable state is right, and bounds what executes in it. */
  predicate GateAt(s: State, i: nat)
    requires i < |s.instances|
  {
    s.instances[i].kind == Unstable ==>
      s.instances[i].concurrency == CountInside(s.ops, i) && CountExecuting(s.ops, i) <= MAX_CONCURRENCY - 1
  }

  ghost predicate Gate(s: State) {
    forall i: nat {:trigger GateAt(s, i)} | i < |s.instances| :: GateAt(s, i)
  }

  lemma NextGate(s: State, e: Event)
    requires WF(s) && Gate(s) && Enabled(s, e)
    ensures Gate(Next(s, e))
  {
    var s' := Next(s, e);
    forall i: nat | i < |s'.instances| ensures GateAt(s', i) {
      if i < |s.instances| { assert GateAt(s, i); }
      OpGate(s, e, i);
    }
  }

  lemma OpGate(s: State, e: Event, i: nat)
    requires WF(s) && Enabled(s, e) && i < |Next(s, e).instances| && (i < |s.instances| ==> GateAt(s, i))
    ensures GateAt(Next(s, e), i)
  {
    NobodyInside(s.ops, |s.instances|);
    match e
    case Tick(j, late) =>
    case Check(t) => CheckGate(s, t, i);
    case Finish(t, outcome) => FinishGate(s, t, outcome, i);
    case _ => CountUpdate(s.ops, i, e.t, Next(s, e).ops[e.t]);
  }

  /** The gate lets an operation in only below the limit. */
  lemma CheckGate(s: State, t: nat, i: nat)
    requires WF(s) && Enabled(s, Check(t)) && i < |s.instances| && GateAt(s, i)
    ensures GateAt(Next(s, Check(t)), i)
  {
    CountUpdate(s.ops, i, t, Next(s, Check(t)).ops[t]);
    if s.ops[t].i == i { RoomFor(s.ops, i, t); }
  }

  lemma FinishGate(s: State, t: nat, outcome: Outcome, i: nat)
    requires WF(s) && Enabled(s, Finish(t, outcome)) && i < |s.instances| && GateAt(s, i)
    ensures GateAt(Finished(s, t, s.ops[t].i, outcome), i)
  {
    CountUpdate(s.ops, i, t, Leaving(s.ops[t].i));
    CountUpdate(s.ops, i, t, Reporting(s.ops[t].i));
  }

  lemma {:induction false} NobodyInside(ops: seq<PC>, n: nat)
    requires forall t {:trigger ops[t]} | 0 <= t < |ops| :: ops[t].Idle? || ops[t].i < n
    ensures CountInside(ops, n) == 0 && CountExecuting(ops, n) == 0
  {
    if ops != [] { NobodyInside(ops[..|ops| - 1], n); }
  }

  /** In every run from a fresh cache, at most nine operations execute in an unstable state,
      and its counter is the number of operations between before and after. */
  lemma {:induction false} GateHolds(s: State, es: seq<Event>, s': State)
    requires Run(s, es, s') && Gate(s)
    ensures Gate(s')
    decreases |es|
  {
    if es != [] {
      NextGate(s, es[0]);
      GateHolds(Next(s, es[0]), es[1..], s');
    }
  }

  predicate Init(s: State) {
    && |s.instances| == 1 && s.cur == 0 && (s.instances[0] == Fresh(Normal) || s.instances[0] == Fresh(Unchanged))
    && forall t | 0 <= t < |s.ops| :: s.ops[t] == Idle
  }

  lemma AtMostNine(s: State, es: seq<Event>, s': State, i: nat)
    requires Init(s) && Run(s, es, s') && i < |s'.instances| && s'.instances[i].kind == Unstable
    ensures s'.instances[i].concurrency == CountInside(s'.ops, i)
    ensures CountExecuting(s'.ops, i) <= MAX_CONCURRENCY - 1
  {
    GateHolds(s, es, s');
    assert GateAt(s', i);
  }
}
