/** The error channel of a slice: one message from each upload goroutine, so nil for all means all acknowledged. */
module WritebackFinish {
  import opened Common
  import opened Writeback
  import opened WritebackInvariant
  import opened WritebackDurability
  import opened WritebackFence

  // ---------------------------------------------------------------- messages

  /** How many messages speak of a block. */
  function Count(sent: seq<Message>, k: Key): nat {
    if sent == [] then 0
    else Count(sent[..|sent| - 1], k) + if sent[|sent| - 1].k == k then 1 else 0
  }

  /** What was sent on the channel of one slice, in order. */
  function OnChannel(sent: seq<Message>, id: nat): seq<Message> {
    if sent == [] then []
    else OnChannel(sent[..|sent| - 1], id) + if sent[|sent| - 1].k.id == id then [sent[|sent| - 1]] else []
  }

  lemma CountSnoc(sent: seq<Message>, m: Message, k: Key)
    ensures Count(sent + [m], k) == Count(sent, k) + if m.k == k then 1 else 0
  {
    assert (sent + [m])[..|sent|] == sent;
  }

  lemma {:induction false} CountIn(sent: seq<Message>, k: Key)
    ensures Count(sent, k) > 0 <==> exists m :: m in sent && m.k == k
  {
    if sent != [] {
      var init, last := sent[..|sent| - 1], sent[|sent| - 1];
      CountIn(init, k);
      assert forall m :: m in sent <==> m in init || m == last;
    }
  }

  lemma {:induction false} CountPrefix(sent: seq<Message>, n: nat, k: Key)
    requires n <= |sent|
    ensures Count(sent[..n], k) <= Count(sent, k)
    decreases |sent|
  {
    if n < |sent| {
      CountPrefix(sent[..|sent| - 1], n, k);
      assert sent[..|sent| - 1][..n] == sent[..n];
    } else {
      assert sent[..n] == sent;
    }
  }

  lemma {:induction false} CountOnChannel(sent: seq<Message>, k: Key)
    ensures Count(OnChannel(sent, k.id), k) == Count(sent, k)
  {
    if sent != [] {
      CountOnChannel(sent[..|sent| - 1], k);
      CountSnoc(OnChannel(sent[..|sent| - 1], k.id), sent[|sent| - 1], k);
      assert OnChannel(sent[..|sent| - 1], k.id) + [] == OnChannel(sent[..|sent| - 1], k.id);
    }
  }

  lemma {:induction false} ChannelHolds(sent: seq<Message>, id: nat, m: Message)
    ensures m in OnChannel(sent, id) <==> m in sent && m.k.id == id
  {
    if sent != [] {
      ChannelHolds(sent[..|sent| - 1], id, m);
      assert m in sent <==> m in sent[..|sent| - 1] || m == sent[|sent| - 1];
    }
  }

  /** Two messages about one block count twice. */
  lemma Twice(ch: seq<Message>, i: nat, j: nat)
    requires i < j < |ch| && ch[i].k == ch[j].k
    ensures Count(ch, ch[i].k) >= 2
  {
    var k := ch[i].k;
    CountPrefix(ch, j + 1, k);
    assert ch[..j + 1] == ch[..j] + [ch[j]];
    CountSnoc(ch[..j], ch[j], k);
    CountIn(ch[..j], k);
    assert ch[..j][i] in ch[..j];
  }

  function KeysIn(ch: seq<Message>): set<Key> {
    set m | m in ch :: m.k
  }

  lemma {:induction false} AsManyKeys(ch: seq<Message>)
    requires forall k :: Count(ch, k) <= 1
    ensures |KeysIn(ch)| == |ch|
  {
    if ch != [] {
      var init, last := ch[..|ch| - 1], ch[|ch| - 1];
      forall k ensures Count(init, k) <= 1 { CountPrefix(ch, |ch| - 1, k); }
      AsManyKeys(init);
      assert last.k !in KeysIn(init) by {
        CountIn(init, last.k);
        assert Count(ch, last.k) <= 1;
      }
      assert KeysIn(ch) == KeysIn(init) + {last.k} by {
        assert forall m :: m in ch <==> m in init || m == last;
      }
    }
  }

  /** The loop of Finish: as many nil messages as there are blocks. */
  predicate AllNil(ch: seq<Message>, n: nat) {
    n <= |ch| && forall j | 0 <= j < n :: ch[j].ok
  }

  /** With one message for a block at most, and messages about these blocks only, as many nil
      messages as blocks come in if and only if there is one for every block. */
  lemma NilForEach(ch: seq<Message>, keys: set<Key>)
    requires forall k :: Count(ch, k) <= 1
    requires KeysIn(ch) <= keys
    ensures AllNil(ch, |keys|) <==> forall k | k in keys :: Message(k, true) in ch
    ensures |ch| <= |keys|
  {
    AsManyKeys(ch);
    SizeMono(KeysIn(ch), keys);
    if AllNil(ch, |keys|) {
      forall k | k in keys ensures Message(k, true) in ch {
        assert k in KeysIn(ch);
        var m :| m in ch && m.k == k;
        assert m == Message(k, true);
      }
    }
    if forall k | k in keys :: Message(k, true) in ch {
      forall k | k in keys ensures k in KeysIn(ch) {
        assert Message(k, true).k == k;
      }
      assert KeysIn(ch) == keys;
      forall j | 0 <= j < |ch| ensures ch[j].ok { NilAt(ch, keys, j); }
    }
  }

  lemma NilAt(ch: seq<Message>, keys: set<Key>, j: nat)
    requires j < |ch| && (forall k :: Count(ch, k) <= 1) && KeysIn(ch) <= keys
    requires forall k | k in keys :: Message(k, true) in ch
    ensures ch[j].ok
  {
    var k := ch[j].k;
    assert ch[j] in ch;
    assert k in KeysIn(ch);
    var i :| 0 <= i < |ch| && ch[i] == Message(k, true);
    if i < j { Twice(ch, i, j); } else if j < i { Twice(ch, j, i); }
  }

  // ---------------------------------------------------------------- one message for each writer

  /** The writer has sent its message. */
  predicate HasSent(pc: PC) {
    match pc
    case Bare(o) => o.Release? || o.Done?
    case Held(h, _) => !h.Ack?
    case _ => true
  }

  predicate WriterHasSent(s: State, k: Key) {
    Writer(k) in s.threads && HasSent(s.threads[Writer(k)])
  }

  /** A block is spoken of once if its writer has sent its message, and not at all before. */
  predicate OneMessage(s: State, k: Key) {
    Count(s.blocks.sent, k) == if WriterHasSent(s, k) then 1 else 0
  }

  /** The messages an event sends. */
  function MessagesOf(ev: Event): seq<Message> {
    match ev
    case Acks(k) => [Message(k, true)]
    case PutsAndAcks(k) => [Message(k, true)]
    case Nacks(k, _) => [Message(k, false)]
    case _ => []
  }

  lemma SentAfter(b: Blocks, ev: Event)
    ensures BlocksAfter(b, ev).sent == b.sent + MessagesOf(ev)
  {
  }

  /** A writer sends exactly when it passes its send, and only of its own block. */
  lemma WriterSends(s: State, t: Tid, pc: PC, c: Choice)
    requires PcOk(s.table, t, pc) && t.Writer?
    ensures var e := Move(s, t, pc, c);
            && (HasSent(pc) ==> HasSent(e.pc) && MessagesOf(e.ev) == [])
            && (!HasSent(pc) ==> if HasSent(e.pc) then |MessagesOf(e.ev)| == 1 && MessagesOf(e.ev)[0].k == t.key else MessagesOf(e.ev) == [])
  {
  }

  lemma OthersSendNothing(s: State, t: Tid, pc: PC, c: Choice)
    requires PcOk(s.table, t, pc) && !t.Writer?
    ensures MessagesOf(Move(s, t, pc, c).ev) == []
  {
  }

  lemma OneMessageKept(s: State, a: Action, k: Key)
    requires WF(s) && OneMessage(s, k)
    ensures OneMessage(Step(s, a), k)
  {
    if CanRun(s, a.tid) {
      var ev := Next(s, a).ev;
      SentAfter(s.blocks, ev);
      if a.tid in s.threads {
        ThreadIsOk(s, a.tid);
        if a.tid.Writer? {
          WriterSends(s, a.tid, s.threads[a.tid], a.choice);
        } else {
          OthersSendNothing(s, a.tid, s.threads[a.tid], a.choice);
        }
      }
      if MessagesOf(ev) == [] {
        assert s.blocks.sent + [] == s.blocks.sent;
      } else {
        assert MessagesOf(ev) == [MessagesOf(ev)[0]];
        CountSnoc(s.blocks.sent, MessagesOf(ev)[0], k);
      }
    }
  }

  lemma {:induction false} OneMessageRun(s: State, actions: seq<Action>, k: Key)
    requires WF(s) && OneMessage(s, k)
    ensures OneMessage(Run(s, actions), k)
    decreases |actions|
  {
    if actions != [] {
      OneMessageKept(s, actions[0], k);
      OneMessageRun(Step(s, actions[0]), actions[1..], k);
    }
  }

  /** Every upload goroutine sends exactly one message on the channel of its slice. */
  lemma OneMessageEach(conf: Conf, actions: seq<Action>, k: Key)
    ensures var s := Run(Init(conf), actions);
            Count(OnChannel(s.blocks.sent, k.id), k) == if WriterHasSent(s, k) then 1 else 0
  {
    OneMessageRun(Init(conf), actions, k);
    CountOnChannel(Run(Init(conf), actions).blocks.sent, k);
  }

  // ---------------------------------------------------------------- Finish

  /** The upload goroutines of the slice are those of `keys`. */
  ghost predicate Uploads(s: State, id: nat, keys: set<Key>) {
    && (forall k | k in keys :: k.id == id)
    && forall t | t in s.threads && t.Writer? && t.key.id == id :: t.key in keys
  }

  lemma OnlyThese(conf: Conf, actions: seq<Action>, id: nat, keys: set<Key>)
    requires Uploads(Run(Init(conf), actions), id, keys)
    ensures var ch := OnChannel(Run(Init(conf), actions).blocks.sent, id);
            KeysIn(ch) <= keys && forall k :: Count(ch, k) <= 1
  {
    var s := Run(Init(conf), actions);
    var ch := OnChannel(s.blocks.sent, id);
    forall k ensures Count(ch, k) <= 1 && (k in KeysIn(ch) ==> k in keys) {
      CountIn(ch, k);
      if Count(ch, k) > 0 {
        var m :| m in ch && m.k == k;
        ChannelHolds(s.blocks.sent, id, m);
        OneMessageEach(conf, actions, k);
      }
    }
  }

  /** Finish finds as many nil messages as the slice has blocks if and only if every block of the
      slice is acknowledged.  A send never waits: there are no more messages than blocks. */
  lemma FinishMeansAcked(conf: Conf, actions: seq<Action>, id: nat, keys: set<Key>)
    requires Uploads(Run(Init(conf), actions), id, keys)
    ensures var s := Run(Init(conf), actions);
            AllNil(OnChannel(s.blocks.sent, id), |keys|) <==> forall k | k in keys :: Acked(s.blocks, k)
    ensures |OnChannel(Run(Init(conf), actions).blocks.sent, id)| <= |keys|
  {
    var s := Run(Init(conf), actions);
    OnlyThese(conf, actions, id, keys);
    NilForEach(OnChannel(s.blocks.sent, id), keys);
    forall k | k in keys ensures Acked(s.blocks, k) <==> Message(k, true) in OnChannel(s.blocks.sent, id) {
      ChannelHolds(s.blocks.sent, id, Message(k, true));
    }
  }

  /** End-to-end durability of a slice: Finish has succeeded, then a barrier started and reports
      success; every block of the slice is in the object store, unless it was removed. */
  lemma FinishedSliceIsStored(conf: Conf, before: seq<Action>, after: seq<Action>, n: nat, id: nat, keys: set<Key>)
    requires var s := Run(Init(conf), before);
             Uploads(s, id, keys) && AllNil(OnChannel(s.blocks.sent, id), |keys|) && Barrier(n) !in s.threads
    requires var s' := Run(Run(Init(conf), before), after);
             Barrier(n) in s'.threads && s'.threads[Barrier(n)].Settled? && s'.threads[Barrier(n)].outcome.Durable?
    ensures var s' := Run(Run(Init(conf), before), after); forall k | k in keys :: k in s'.blocks.store || k in s'.hist.removed
  {
    FinishMeansAcked(conf, before, id, keys);
    forall k | k in keys ensures Stored(Run(Run(Init(conf), before), after), k) {
      BarrierMeansStored(conf, before, after, n, k);
    }
  }
}
