/** One load at a time per key, and the reference counts of the pages it hands out. */
module SingleFlight {
  import opened Common

  /** A page: its count, the page it is a slice of, and how often its memory was freed. */
  datatype Page = Page(refs: int, dep: Option<nat>, frees: nat)

  /** A request in flight; `leader` is the caller that runs fn. */
  datatype Request = Request(key: string, leader: nat, val: Option<nat>, dups: nat, published: bool, done: bool)

  /** Where a caller is: outside, in fn, after fn, after the critical section that publishes
      the result, or waiting for the leader. */
  datatype PC = Idle | Running(r: nat) | Ran(r: nat) | Closing(r: nat) | Waiting(r: nat)

  /** A caller, and the references it holds. */
  datatype Caller = Caller(pc: PC, held: multiset<nat>)

  datatype State = State(pages: seq<Page>, requests: seq<Request>, rs: map<string, nat>, callers: seq<Caller>)

  // ---------------------------------------------------------------- steps

  datatype Event =
    | NewPage
    | Acquire(p: nat)
    | Slice(p: nat)
    | Release(p: nat)
    | Execute(key: string)
    | TryPiggyback(key: string)
    | Return(p: nat)
    | Publish
    | Done
    | Wake

  /** Callers use pages outside of Execute and in fn. */
  predicate Free(pc: PC) {
    pc.Idle? || pc.Running?
  }

  predicate Holds(s: State, c: Caller, p: nat) {
    p < |s.pages| && c.held[p] > 0
  }

  predicate Enabled(s: State, t: nat, e: Event) {
    t < |s.callers| &&
    var c := s.callers[t];
    match e
    case NewPage => Free(c.pc)
    case Acquire(p) => Free(c.pc) && Holds(s, c, p)
    case Slice(p) => Free(c.pc) && Holds(s, c, p)
    case Release(p) => Free(c.pc) && Holds(s, c, p)
    case Execute(_) => c.pc.Idle?
    case TryPiggyback(_) => c.pc.Idle?
    case Return(p) => c.pc.Running? && c.pc.r < |s.requests| && Holds(s, c, p)
    case Publish => c.pc.Ran? && c.pc.r < |s.requests| && s.requests[c.pc.r].val.Some? && s.requests[c.pc.r].val.value < |s.pages|
    case Done => c.pc.Closing? && c.pc.r < |s.requests|
    case Wake => c.pc.Waiting? && c.pc.r < |s.requests| && s.requests[c.pc.r].done && s.requests[c.pc.r].val.Some?
  }

  function Give(c: Caller, p: nat): Caller {
    c.(held := c.held + multiset{p})
  }

  function Take(c: Caller, p: nat): Caller {
    c.(held := c.held - multiset{p})
  }

  function AddRefs(pages: seq<Page>, p: nat, n: int): seq<Page>
    requires p < |pages|
  {
    pages[p := pages[p].(refs := pages[p].refs + n)]
  }

  /** Join the request of a key. */
  function Join(s: State, t: nat, r: nat): State
    requires t < |s.callers| && r < |s.requests|
  {
    s.(requests := s.requests[r := s.requests[r].(dups := s.requests[r].dups + 1)],
       callers := s.callers[t := s.callers[t].(pc := Waiting(r))])
  }

  /** Start a request. */
  function Lead(s: State, t: nat, key: string): State
    requires t < |s.callers|
  {
    s.(requests := s.requests + [Request(key, t, None, 0, false, false)],
       rs := s.rs[key := |s.requests|],
       callers := s.callers[t := s.callers[t].(pc := Running(|s.requests|))])
  }

  /** Page.Release: the last one frees the memory and goes on to the parent. */
  function Drop(s: State, t: nat, p: nat): State
    requires t < |s.callers| && p < |s.pages|
  {
    var page := s.pages[p];
    var c := Take(s.callers[t], p);
    if page.refs != 1 then
      s.(pages := AddRefs(s.pages, p, -1), callers := s.callers[t := c])
    else
      s.(pages := s.pages[p := Page(0, None, page.frees + 1)],
         callers := s.callers[t := if page.dep.Some? then Give(c, page.dep.value) else c])
  }

  function Next(s: State, t: nat, e: Event): State
    requires Enabled(s, t, e)
  {
    var c := s.callers[t];
    match e
    case NewPage => s.(pages := s.pages + [Page(1, None, 0)], callers := s.callers[t := Give(c, |s.pages|)])
    case Acquire(p) => s.(pages := AddRefs(s.pages, p, 1), callers := s.callers[t := Give(c, p)])
    case Slice(p) => s.(pages := AddRefs(s.pages, p, 1) + [Page(1, Some(p), 0)], callers := s.callers[t := Give(c, |s.pages|)])
    case Release(p) => Drop(s, t, p)
    case Execute(key) =>
      if key in s.rs && s.rs[key] < |s.requests| then Join(s, t, s.rs[key]) else Lead(s, t, key)
    case TryPiggyback(key) =>
      if key in s.rs && s.rs[key] < |s.requests| then Join(s, t, s.rs[key]) else s
    case Return(p) =>
      s.(requests := s.requests[c.pc.r := s.requests[c.pc.r].(val := Some(p))], callers := s.callers[t := c.(pc := Ran(c.pc.r))])
    case Publish =>
      var q := s.requests[c.pc.r];
      s.(pages := AddRefs(s.pages, q.val.value, q.dups),
         requests := s.requests[c.pc.r := q.(published := true)],
         rs := s.rs - {q.key},
         callers := s.callers[t := c.(pc := Closing(c.pc.r))])
    case Done =>
      s.(requests := s.requests[c.pc.r := s.requests[c.pc.r].(done := true)], callers := s.callers[t := c.(pc := Idle)])
    case Wake =>
      s.(callers := s.callers[t := Give(c, s.requests[c.pc.r].val.value).(pc := Idle)])
  }

  datatype Move = Move(t: nat, e: Event)

  /** Everybody is outside and nothing exists. */
  predicate Init(s: State) {
    s.pages == [] && s.requests == [] && s.rs == map[] && forall t | 0 <= t < |s.callers| :: s.callers[t] == Caller(Idle, multiset{})
  }

  predicate Run(s: State, moves: seq<Move>, s': State)
    decreases |moves|
  {
    if moves == [] then s == s'
    else Enabled(s, moves[0].t, moves[0].e) && Run(Next(s, moves[0].t, moves[0].e), moves[1..], s')
  }

  // ---------------------------------------------------------------- who holds references

  /** The references of a caller to a page: those it holds, and one that the leader took for
      it if it has not picked it up yet. */
  function Own(c: Caller, requests: seq<Request>, p: nat): nat {
    c.held[p] + if Due(c, requests, p) then 1 else 0
  }

  predicate Due(c: Caller, requests: seq<Request>, p: nat) {
    c.pc.Waiting? && c.pc.r < |requests| && requests[c.pc.r].published && requests[c.pc.r].val == Some(p)
  }

  function Sum(callers: seq<Caller>, requests: seq<Request>, p: nat): nat {
    if callers == [] then 0 else
    var n := |callers| - 1;
    Sum(callers[..n], requests, p) + Own(callers[n], requests, p)
  }

  /** Pages that are slices of a page. */
  function Children(pages: seq<Page>, p: nat): nat {
    if pages == [] then 0 else
    var n := |pages| - 1;
    Children(pages[..n], p) + if pages[n].dep == Some(p) then 1 else 0
  }

  function Waiters(callers: seq<Caller>, r: nat): nat {
    if callers == [] then 0 else
    var n := |callers| - 1;
    Waiters(callers[..n], r) + if callers[n].pc == Waiting(r) then 1 else 0
  }

  lemma {:induction false} SumUpdate(callers: seq<Caller>, requests: seq<Request>, p: nat, t: nat, c: Caller)
    requires t < |callers|
    ensures Sum(callers[t := c], requests, p) == Sum(callers, requests, p) - Own(callers[t], requests, p) + Own(c, requests, p)
  {
    var n := |callers| - 1;
    if t < n {
      SumUpdate(callers[..n], requests, p, t, c);
      assert callers[t := c][..n] == callers[..n][t := c];
    } else {
      assert callers[t := c][..n] == callers[..n];
    }
  }

  /** The sum after the leader took one reference for each waiting caller. */
  lemma {:induction false} SumPublish(callers: seq<Caller>, requests: seq<Request>, r: nat, p: nat)
    requires r < |requests| && !requests[r].published
    ensures Sum(callers, requests[r := requests[r].(published := true)], p) ==
      Sum(callers, requests, p) + if requests[r].val == Some(p) then Waiters(callers, r) else 0
  {
    if callers != [] {
      SumPublish(callers[..|callers| - 1], requests, r, p);
    }
  }

  /** Other changes to requests do not matter. */
  lemma {:induction false} SumSame(callers: seq<Caller>, requests: seq<Request>, requests': seq<Request>, p: nat)
    requires forall t {:trigger callers[t]} | 0 <= t < |callers| :: Due(callers[t], requests, p) == Due(callers[t], requests', p)
    ensures Sum(callers, requests', p) == Sum(callers, requests, p)
  {
    if callers != [] {
      SumSame(callers[..|callers| - 1], requests, requests', p);
    }
  }

  lemma {:induction false} ChildrenUpdate(pages: seq<Page>, q: nat, page: Page, p: nat)
    requires q < |pages|
    ensures Children(pages[q := page], p) ==
      Children(pages, p) - (if pages[q].dep == Some(p) then 1 else 0) + if page.dep == Some(p) then 1 else 0
  {
    var n := |pages| - 1;
    if q < n {
      ChildrenUpdate(pages[..n], q, page, p);
      assert pages[q := page][..n] == pages[..n][q := page];
    } else {
      assert pages[q := page][..n] == pages[..n];
    }
  }

  lemma ChildrenMore(pages: seq<Page>, page: Page, p: nat)
    ensures Children(pages + [page], p) == Children(pages, p) + if page.dep == Some(p) then 1 else 0
  {
    assert (pages + [page])[..|pages|] == pages;
  }

  lemma {:induction false} WaitersUpdate(callers: seq<Caller>, r: nat, t: nat, c: Caller)
    requires t < |callers|
    ensures Waiters(callers[t := c], r) ==
      Waiters(callers, r) - (if callers[t].pc == Waiting(r) then 1 else 0) + if c.pc == Waiting(r) then 1 else 0
  {
    var n := |callers| - 1;
    if t < n {
      WaitersUpdate(callers[..n], r, t, c);
      assert callers[t := c][..n] == callers[..n][t := c];
    } else {
      assert callers[t := c][..n] == callers[..n];
    }
  }
}
