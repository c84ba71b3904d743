/** References are conserved in every run: pages are freed once, and not while in use. */
module SingleFlightSafety {
  import opened Common
  import opened SingleFlight

  // ---------------------------------------------------------------- the invariant

  predicate Leads(pc: PC, r: nat, published: bool) {
    if published then pc == Closing(r) else pc == Running(r) || pc == Ran(r)
  }

  ghost predicate InRange(held: multiset<nat>, n: nat) {
    forall p {:trigger held[p]} | held[p] > 0 :: p < n
  }

  /** A caller between fn and return still holds the result. */
  ghost predicate CallerOk(s: State, t: nat)
    requires t < |s.callers|
  {
    var c := s.callers[t];
    && InRange(c.held, |s.pages|)
    && (!c.pc.Idle? ==> c.pc.r < |s.requests|)
    && (c.pc.Running? || c.pc.Ran? || c.pc.Closing? ==> s.requests[c.pc.r].leader == t && !s.requests[c.pc.r].done)
    && (c.pc.Running? || c.pc.Ran? ==> !s.requests[c.pc.r].published)
    && (c.pc.Running? ==> s.requests[c.pc.r].val.None?)
    && (c.pc.Ran? || c.pc.Closing? ==> s.requests[c.pc.r].val.Some? && Holds(s, c, s.requests[c.pc.r].val.value))
  }

  /** An open request is in the map and counts its waiters; its leader is at work. */
  ghost predicate RequestOk(s: State, r: nat)
    requires r < |s.requests|
  {
    var q := s.requests[r];
    && (!q.done ==> q.leader < |s.callers| && Leads(s.callers[q.leader].pc, r, q.published))
    && (q.done ==> q.published) && (q.published ==> q.val.Some? && q.val.value < |s.pages|)
    && (!q.published ==> q.key in s.rs && s.rs[q.key] == r && q.dups == Waiters(s.callers, r))
  }

  ghost predicate KeyOk(s: State, k: string)
    requires k in s.rs
  {
    s.rs[k] < |s.requests| && s.requests[s.rs[k]].key == k && !s.requests[s.rs[k]].published
  }

  /** Conservation: the count is the number of references. */
  ghost predicate PageOk(s: State, p: nat)
    requires p < |s.pages|
  {
    var page := s.pages[p];
    && page.refs == Sum(s.callers, s.requests, p) + Children(s.pages, p)
    && page.frees == (if page.refs == 0 then 1 else 0)
    && (page.dep.Some? ==> page.dep.value < p && page.refs > 0)
  }

  ghost predicate Calls(s: State) {
    && (forall t: nat {:trigger CallerOk(s, t)} | t < |s.callers| :: CallerOk(s, t))
    && (forall r: nat {:trigger RequestOk(s, r)} | r < |s.requests| :: RequestOk(s, r))
    && (forall k {:trigger KeyOk(s, k)} | k in s.rs :: KeyOk(s, k))
  }

  ghost predicate Pages(s: State) {
    forall p: nat {:trigger PageOk(s, p)} | p < |s.pages| :: PageOk(s, p)
  }

  ghost predicate Inv(s: State) {
    Calls(s) && Pages(s)
  }

  // ---------------------------------------------------------------- using pages

  /** What a caller does with pages concerns no request. */
  lemma CallsKept(s: State, s': State, t: nat)
    requires Calls(s) && t < |s.callers| && Free(s.callers[t].pc)
    requires s'.requests == s.requests && s'.rs == s.rs && |s.pages| <= |s'.pages|
    requires t < |s'.callers| && s'.callers == s.callers[t := s'.callers[t]] && s'.callers[t].pc == s.callers[t].pc
    requires InRange(s'.callers[t].held, |s'.pages|)
    ensures Calls(s')
  {
    forall i: nat | i < |s'.callers| ensures CallerOk(s', i) {
      assert CallerOk(s, i);
    }
    forall r: nat | r < |s'.requests| ensures RequestOk(s', r) {
      assert RequestOk(s, r);
      WaitersUpdate(s.callers, r, t, s'.callers[t]);
    }
    forall k | k in s'.rs ensures KeyOk(s', k) {
      assert KeyOk(s, k);
    }
  }

  /** A new page is nobody's yet. */
  lemma {:induction false} NobodyHas(callers: seq<Caller>, requests: seq<Request>, p: nat)
    requires forall i {:trigger callers[i]} | 0 <= i < |callers| :: Own(callers[i], requests, p) == 0
    ensures Sum(callers, requests, p) == 0
  {
    if callers != [] {
      NobodyHas(callers[..|callers| - 1], requests, p);
    }
  }

  lemma {:induction false} NoChildren(pages: seq<Page>, p: nat)
    requires forall q {:trigger pages[q]} | 0 <= q < |pages| :: pages[q].dep != Some(p)
    ensures Children(pages, p) == 0
  {
    if pages != [] {
      NoChildren(pages[..|pages| - 1], p);
    }
  }

  lemma FreshPage(s: State)
    requires Inv(s)
    ensures Sum(s.callers, s.requests, |s.pages|) == 0 && Children(s.pages, |s.pages|) == 0
  {
    forall i | 0 <= i < |s.callers| ensures Own(s.callers[i], s.requests, |s.pages|) == 0 {
      assert CallerOk(s, i);
      if s.callers[i].pc.Waiting? { assert RequestOk(s, s.callers[i].pc.r); }
    }
    NobodyHas(s.callers, s.requests, |s.pages|);
    forall q | 0 <= q < |s.pages| ensures s.pages[q].dep != Some(|s.pages|) {
      assert PageOk(s, q);
    }
    NoChildren(s.pages, |s.pages|);
  }

  lemma NewPageKeeps(s: State, t: nat)
    requires Inv(s) && Enabled(s, t, NewPage)
    ensures Inv(Next(s, t, NewPage))
  {
    var s', n := Next(s, t, NewPage), |s.pages|;
    assert CallerOk(s, t);
    CallsKept(s, s', t);
    FreshPage(s);
    forall p: nat | p < |s'.pages| ensures PageOk(s', p) {
      if p < n { assert PageOk(s, p); }
      SumUpdate(s.callers, s.requests, p, t, s'.callers[t]);
      ChildrenMore(s.pages, Page(1, None, 0), p);
    }
  }

  lemma AcquireKeeps(s: State, t: nat, p: nat)
    requires Inv(s) && Enabled(s, t, Acquire(p))
    ensures Inv(Next(s, t, Acquire(p)))
  {
    var s' := Next(s, t, Acquire(p));
    assert CallerOk(s, t);
    CallsKept(s, s', t);
    Held(s, t, p);
    forall q: nat | q < |s'.pages| ensures PageOk(s', q) {
      assert PageOk(s, q);
      SumUpdate(s.callers, s.requests, q, t, s'.callers[t]);
      ChildrenUpdate(s.pages, p, s'.pages[p], q);
    }
  }

  /** Whoever holds a page keeps it alive. */
  lemma Held(s: State, t: nat, p: nat)
    requires Inv(s) && t < |s.callers| && Holds(s, s.callers[t], p)
    ensures s.pages[p].refs > 0 && s.pages[p].frees == 0
  {
    assert PageOk(s, p);
    SumAtLeast(s.callers, s.requests, p, t);
  }

  lemma {:induction false} SumAtLeast(callers: seq<Caller>, requests: seq<Request>, p: nat, t: nat)
    requires t < |callers|
    ensures Own(callers[t], requests, p) <= Sum(callers, requests, p)
  {
    if t < |callers| - 1 {
      SumAtLeast(callers[..|callers| - 1], requests, p, t);
    }
  }

  lemma SliceKeeps(s: State, t: nat, p: nat)
    requires Inv(s) && Enabled(s, t, Slice(p))
    ensures Inv(Next(s, t, Slice(p)))
  {
    var s', n := Next(s, t, Slice(p)), |s.pages|;
    assert CallerOk(s, t);
    CallsKept(s, s', t);
    FreshPage(s);
    Held(s, t, p);
    var mid := AddRefs(s.pages, p, 1);
    forall q: nat | q < |s'.pages| ensures PageOk(s', q) {
      if q < n { assert PageOk(s, q); }
      SumUpdate(s.callers, s.requests, q, t, s'.callers[t]);
      ChildrenUpdate(s.pages, p, mid[p], q);
      ChildrenMore(mid, Page(1, Some(p), 0), q);
    }
  }

  lemma ReleaseKeeps(s: State, t: nat, p: nat)
    requires Inv(s) && Enabled(s, t, Release(p))
    ensures Inv(Next(s, t, Release(p)))
  {
    assert CallerOk(s, t) && PageOk(s, p);
    CallsKept(s, Drop(s, t, p), t);
    if s.pages[p].refs == 1 { LastRelease(s, t, p); } else { OtherRelease(s, t, p); }
  }

  lemma OtherRelease(s: State, t: nat, p: nat)
    requires Inv(s) && Enabled(s, t, Release(p)) && s.pages[p].refs != 1
    ensures Pages(Drop(s, t, p))
  {
    var s' := Drop(s, t, p);
    Held(s, t, p);
    forall q: nat | q < |s'.pages| ensures PageOk(s', q) {
      assert PageOk(s, q);
      SumUpdate(s.callers, s.requests, q, t, s'.callers[t]);
      ChildrenUpdate(s.pages, p, s'.pages[p], q);
    }
  }

  /** The reference of a slice to its parent passes to the caller that frees the slice. */
  lemma LastRelease(s: State, t: nat, p: nat)
    requires Inv(s) && Enabled(s, t, Release(p)) && s.pages[p].refs == 1
    ensures Pages(Drop(s, t, p))
  {
    var s' := Drop(s, t, p);
    LastHasNone(s, t, p);
    forall q: nat | q < |s'.pages| ensures PageOk(s', q) {
      assert PageOk(s, q);
      SumUpdate(s.callers, s.requests, q, t, s'.callers[t]);
      ChildrenUpdate(s.pages, p, s'.pages[p], q);
    }
  }

  /** The last reference to a page is the only one. */
  lemma LastHasNone(s: State, t: nat, p: nat)
    requires Inv(s) && t < |s.callers| && Holds(s, s.callers[t], p) && s.pages[p].refs == 1
    ensures Children(s.pages, p) == 0 && s.pages[p].dep != Some(p)
  {
    assert PageOk(s, p);
    SumAtLeast(s.callers, s.requests, p, t);
  }

  // ---------------------------------------------------------------- requests

  lemma JoinKeeps(s: State, t: nat, key: string)
    requires Inv(s) && t < |s.callers| && s.callers[t].pc.Idle? && key in s.rs && s.rs[key] < |s.requests|
    ensures Inv(Join(s, t, s.rs[key]))
  {
    var r := s.rs[key];
    var s' := Join(s, t, r);
    assert KeyOk(s, key);
    forall i: nat | i < |s'.callers| ensures CallerOk(s', i) { assert CallerOk(s, i); }
    forall i: nat | i < |s'.requests| ensures RequestOk(s', i) {
      assert RequestOk(s, i);
      WaitersUpdate(s.callers, i, t, s'.callers[t]);
    }
    forall k | k in s'.rs ensures KeyOk(s', k) { assert KeyOk(s, k); }
    forall p: nat | p < |s'.pages| ensures PageOk(s', p) {
      assert PageOk(s, p);
      SumSame(s.callers, s.requests, s'.requests, p);
      SumUpdate(s.callers, s'.requests, p, t, s'.callers[t]);
    }
  }

  lemma LeadKeeps(s: State, t: nat, key: string)
    requires Inv(s) && t < |s.callers| && s.callers[t].pc.Idle? && key !in s.rs
    ensures Inv(Lead(s, t, key))
  {
    var s', n := Lead(s, t, key), |s.requests|;
    forall i: nat | i < |s'.callers| ensures CallerOk(s', i) { assert CallerOk(s, i); }
    forall i: nat | i < |s'.requests| ensures RequestOk(s', i) {
      if i < n { assert RequestOk(s, i); } else { NobodyWaits(s); }
      WaitersUpdate(s.callers, i, t, s'.callers[t]);
    }
    forall k | k in s'.rs ensures KeyOk(s', k) {
      if k != key { assert KeyOk(s, k); }
    }
    forall p: nat | p < |s'.pages| ensures PageOk(s', p) {
      assert PageOk(s, p);
      forall i | 0 <= i < |s.callers| ensures Due(s.callers[i], s.requests, p) == Due(s.callers[i], s'.requests, p) {
        assert CallerOk(s, i);
      }
      SumSame(s.callers, s.requests, s'.requests, p);
      SumUpdate(s.callers, s'.requests, p, t, s'.callers[t]);
    }
  }

  lemma NobodyWaits(s: State)
    requires Calls(s)
    ensures Waiters(s.callers, |s.requests|) == 0
  {
    forall i | 0 <= i < |s.callers| ensures s.callers[i].pc != Waiting(|s.requests|) { assert CallerOk(s, i); }
    NoWaiters(s.callers, |s.requests|);
  }

  lemma {:induction false} NoWaiters(callers: seq<Caller>, r: nat)
    requires forall i {:trigger callers[i]} | 0 <= i < |callers| :: callers[i].pc != Waiting(r)
    ensures Waiters(callers, r) == 0
  {
    if callers != [] { NoWaiters(callers[..|callers| - 1], r); }
  }

  lemma ReturnKeeps(s: State, t: nat, p: nat)
    requires Inv(s) && Enabled(s, t, Return(p))
    ensures Inv(Next(s, t, Return(p)))
  {
    var s', r := Next(s, t, Return(p)), s.callers[t].pc.r;
    assert CallerOk(s, t) && RequestOk(s, r);
    forall i: nat | i < |s'.callers| ensures CallerOk(s', i) { assert CallerOk(s, i); }
    forall i: nat | i < |s'.requests| ensures RequestOk(s', i) {
      assert RequestOk(s, i);
      WaitersUpdate(s.callers, i, t, s'.callers[t]);
    }
    forall k | k in s'.rs ensures KeyOk(s', k) { assert KeyOk(s, k); }
    forall q: nat | q < |s'.pages| ensures PageOk(s', q) {
      assert PageOk(s, q);
      SumSame(s.callers, s.requests, s'.requests, q);
      SumUpdate(s.callers, s'.requests, q, t, s'.callers[t]);
    }
  }

  lemma PublishCalls(s: State, t: nat)
    requires Inv(s) && Enabled(s, t, Publish)
    ensures Calls(Next(s, t, Publish))
  {
    var s', r := Next(s, t, Publish), s.callers[t].pc.r;
    assert CallerOk(s, t) && RequestOk(s, r);
    forall i: nat | i < |s'.callers| ensures CallerOk(s', i) { assert CallerOk(s, i); }
    forall i: nat | i < |s'.requests| ensures RequestOk(s', i) {
      assert RequestOk(s, i);
      WaitersUpdate(s.callers, i, t, s'.callers[t]);
    }
    forall k | k in s'.rs ensures KeyOk(s', k) { assert KeyOk(s, k); }
  }

  /** The leader takes a reference for each caller that waits for it, and for no other. */
  lemma PublishKeeps(s: State, t: nat)
    requires Inv(s) && Enabled(s, t, Publish)
    ensures Inv(Next(s, t, Publish))
  {
    PublishCalls(s, t);
    var s', r := Next(s, t, Publish), s.callers[t].pc.r;
    var v := s.requests[r].val.value;
    assert CallerOk(s, t) && RequestOk(s, r);
    Held(s, t, v);
    forall q: nat | q < |s'.pages| ensures PageOk(s', q) {
      assert PageOk(s, q);
      SumPublish(s.callers, s.requests, r, q);
      SumUpdate(s.callers, s'.requests, q, t, s'.callers[t]);
      ChildrenUpdate(s.pages, v, s'.pages[v], q);
    }
  }

  lemma DoneKeeps(s: State, t: nat)
    requires Inv(s) && Enabled(s, t, Done)
    ensures Inv(Next(s, t, Done))
  {
    var s', r := Next(s, t, Done), s.callers[t].pc.r;
    assert CallerOk(s, t) && RequestOk(s, r);
    forall i: nat | i < |s'.callers| ensures CallerOk(s', i) { assert CallerOk(s, i); }
    forall i: nat | i < |s'.requests| ensures RequestOk(s', i) {
      assert RequestOk(s, i);
      WaitersUpdate(s.callers, i, t, s'.callers[t]);
    }
    forall k | k in s'.rs ensures KeyOk(s', k) { assert KeyOk(s, k); }
    forall q: nat | q < |s'.pages| ensures PageOk(s', q) {
      assert PageOk(s, q);
      SumSame(s.callers, s.requests, s'.requests, q);
      SumUpdate(s.callers, s'.requests, q, t, s'.callers[t]);
    }
  }

  /** A caller that waited picks up exactly the reference that was taken for it. */
  lemma WakeKeeps(s: State, t: nat)
    requires Inv(s) && Enabled(s, t, Wake)
    ensures Inv(Next(s, t, Wake))
  {
    var s', r := Next(s, t, Wake), s.callers[t].pc.r;
    assert CallerOk(s, t) && RequestOk(s, r);
    forall i: nat | i < |s'.callers| ensures CallerOk(s', i) { assert CallerOk(s, i); }
    forall i: nat | i < |s'.requests| ensures RequestOk(s', i) {
      assert RequestOk(s, i);
      WaitersUpdate(s.callers, i, t, s'.callers[t]);
    }
    forall k | k in s'.rs ensures KeyOk(s', k) { assert KeyOk(s, k); }
    forall q: nat | q < |s'.pages| ensures PageOk(s', q) {
      assert PageOk(s, q);
      SumUpdate(s.callers, s.requests, q, t, s'.callers[t]);
    }
  }

  // ---------------------------------------------------------------- every run

  lemma NextKeeps(s: State, t: nat, e: Event)
    requires Inv(s) && Enabled(s, t, e)
    ensures Inv(Next(s, t, e))
  {
    match e
    case NewPage => NewPageKeeps(s, t);
    case Acquire(p) => AcquireKeeps(s, t, p);
    case Slice(p) => SliceKeeps(s, t, p);
    case Release(p) => ReleaseKeeps(s, t, p);
    case Execute(key) => if key in s.rs { assert KeyOk(s, key); JoinKeeps(s, t, key); } else { LeadKeeps(s, t, key); }
    case TryPiggyback(key) => if key in s.rs { assert KeyOk(s, key); JoinKeeps(s, t, key); }
    case Return(p) => ReturnKeeps(s, t, p);
    case Publish => PublishKeeps(s, t);
    case Done => DoneKeeps(s, t);
    case Wake => WakeKeeps(s, t);
  }

  lemma {:induction false} RunKeeps(s: State, moves: seq<Move>, s': State)
    requires Inv(s) && Run(s, moves, s')
    ensures Inv(s')
    decreases |moves|
  {
    if moves != [] {
      NextKeeps(s, moves[0].t, moves[0].e);
      RunKeeps(Next(s, moves[0].t, moves[0].e), moves[1..], s');
    }
  }

  lemma InitInv(s: State)
    requires Init(s)
    ensures Inv(s)
  {
  }

  /** References are conserved: in every reachable state the count of a page is the number of
      references to it, it was freed at most once, and only when there are none. */
  lemma Conservation(s: State, moves: seq<Move>, s': State, p: nat)
    requires Init(s) && Run(s, moves, s') && p < |s'.pages|
    ensures s'.pages[p].refs == Sum(s'.callers, s'.requests, p) + Children(s'.pages, p)
    ensures s'.pages[p].frees <= 1 && (s'.pages[p].frees == 1 <==> s'.pages[p].refs == 0)
  {
    InitInv(s);
    RunKeeps(s, moves, s');
    assert PageOk(s', p);
  }

  /** A page in the hands of a caller is not freed, nor is what it is a slice of. */
  lemma NeverFreedInUse(s: State, moves: seq<Move>, s': State, t: nat, p: nat)
    requires Init(s) && Run(s, moves, s') && t < |s'.callers| && s'.callers[t].held[p] > 0
    ensures p < |s'.pages| && s'.pages[p].frees == 0
    ensures s'.pages[p].dep.Some? ==> s'.pages[p].dep.value < |s'.pages| && s'.pages[s'.pages[p].dep.value].frees == 0
  {
    InitInv(s);
    RunKeeps(s, moves, s');
    assert CallerOk(s', t);
    Held(s', t, p);
    assert PageOk(s', p);
    if s'.pages[p].dep.Some? {
      var d := s'.pages[p].dep.value;
      assert PageOk(s', d);
      ChildrenUpdate(s'.pages, p, s'.pages[p].(dep := None), d);
    }
  }

  /** At most one fn runs per key, and the request it runs for is the one in the map. */
  lemma OneLeader(s: State, moves: seq<Move>, s': State, t: nat, u: nat)
    requires Init(s) && Run(s, moves, s') && t < |s'.callers| && u < |s'.callers|
    requires s'.callers[t].pc.Running? && s'.callers[u].pc.Running?
    ensures s'.callers[t].pc.r < |s'.requests| && s'.callers[u].pc.r < |s'.requests|
    ensures s'.requests[s'.callers[t].pc.r].key == s'.requests[s'.callers[u].pc.r].key ==> t == u
  {
    InitInv(s);
    RunKeeps(s, moves, s');
    assert CallerOk(s', t) && CallerOk(s', u);
    assert RequestOk(s', s'.callers[t].pc.r) && RequestOk(s', s'.callers[u].pc.r);
  }

  /** What fn returned stays the result of its request. */
  lemma {:induction false} ResultStays(s: State, moves: seq<Move>, s': State, r: nat)
    requires Inv(s) && Run(s, moves, s') && r < |s.requests| && s.requests[r].val.Some?
    ensures r < |s'.requests| && s'.requests[r].val == s.requests[r].val
    decreases |moves|
  {
    if moves != [] {
      var m := moves[0];
      assert CallerOk(s, m.t);
      NextKeeps(s, m.t, m.e);
      ResultStays(Next(s, m.t, m.e), moves[1..], s', r);
    }
  }

  /** A caller that joined a request gets one reference, to the page its leader's fn returned. */
  lemma JoinerGetsResult(s: State, moves: seq<Move>, mid: State, u: nat, p: nat, moves': seq<Move>, s': State, t: nat)
    requires Init(s) && Run(s, moves, mid) && Enabled(mid, u, Return(p))
    requires Run(Next(mid, u, Return(p)), moves', s') && Enabled(s', t, Wake) && s'.callers[t].pc.r == mid.callers[u].pc.r
    ensures Next(s', t, Wake).callers[t] == Caller(Idle, s'.callers[t].held + multiset{p})
  {
    InitInv(s);
    RunKeeps(s, moves, mid);
    NextKeeps(mid, u, Return(p));
    ResultStays(Next(mid, u, Return(p)), moves', s', mid.callers[u].pc.r);
  }

  /** Nobody waits for a leader that has gone. */
  lemma NoOrphans(s: State, moves: seq<Move>, s': State, t: nat)
    requires Init(s) && Run(s, moves, s') && t < |s'.callers| && s'.callers[t].pc.Waiting?
    ensures var r := s'.callers[t].pc.r;
      r < |s'.requests| && (Enabled(s', t, Wake) || exists u: nat | u < |s'.callers| :: Leads(s'.callers[u].pc, r, s'.requests[r].published))
  {
    InitInv(s);
    RunKeeps(s, moves, s');
    assert CallerOk(s', t);
    assert RequestOk(s', s'.callers[t].pc.r);
  }

  lemma AtWork(s: State, k: string) returns (t: nat)
    requires Calls(s) && k in s.rs
    ensures t < |s.callers| && !s.callers[t].pc.Idle?
  {
    assert KeyOk(s, k);
    assert RequestOk(s, s.rs[k]);
    t := s.requests[s.rs[k]].leader;
  }

  /** When all callers are gone, every page was freed exactly once and no request is left. */
  lemma NothingLeft(s: State, moves: seq<Move>, s': State)
    requires Init(s) && Run(s, moves, s')
    requires forall t | 0 <= t < |s'.callers| :: s'.callers[t] == Caller(Idle, multiset{})
    ensures forall p | 0 <= p < |s'.pages| :: s'.pages[p].frees == 1
    ensures s'.rs == map[]
  {
    InitInv(s);
    RunKeeps(s, moves, s');
    forall k ensures k !in s'.rs {
      if k in s'.rs { var t := AtWork(s', k); }
    }
    AllFreed(s', |s'.pages|);
  }

  /** From the newest page down: nobody holds it, and its slices are gone. */
  lemma {:induction false} AllFreed(s: State, n: nat)
    requires Inv(s) && n <= |s.pages| && forall t | 0 <= t < |s.callers| :: s.callers[t] == Caller(Idle, multiset{})
    ensures forall p | |s.pages| - n <= p < |s.pages| :: s.pages[p].frees == 1 && s.pages[p].refs == 0
  {
    if n > 0 {
      AllFreed(s, n - 1);
      var p := |s.pages| - n;
      assert PageOk(s, p);
      NobodyHas(s.callers, s.requests, p);
      forall q | 0 <= q < |s.pages| ensures s.pages[q].dep != Some(p) {
        assert PageOk(s, q);
      }
      NoChildren(s.pages, p);
    }
  }
}
