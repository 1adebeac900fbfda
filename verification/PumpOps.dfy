/** Every write is in exactly one place and its future is set once. */
module PumpOps {
  import opened Pump
  import opened PumpSafety

  predicate NoDup<T(==)>(xs: seq<T>) { forall i, j :: 0 <= i < j < |xs| ==> xs[i] != xs[j] }

  function Ops(removed: seq<Removal>): (r: seq<Op>)
    ensures |r| == |removed|
    ensures forall i :: 0 <= i < |r| ==> r[i] == removed[i].op
  {
    seq(|removed|, i requires 0 <= i < |removed| => removed[i].op)
  }

  /** Popped by a pump that has not set its future yet. */
  ghost predicate IsExecuting(s: Sys, op: Op) {
    exists t :: t in s.threads.pumps && s.threads.pumps[t].Executing? && s.threads.pumps[t].op == op
  }

  ghost predicate Places(s: Sys) {
    && (forall op: Op :: op in s.ledger.writers ==>
        op < s.ledger.nextOp && op !in s.ledger.appended && op !in s.ledger.settled)
    && (forall op: Op :: op in s.ledger.appended || op in s.ledger.settled ==> op < s.ledger.nextOp)
    && (forall op: Op :: op < s.ledger.nextOp ==>
        op in s.ledger.writers || op in s.ledger.appended || op in s.ledger.settled)
    && NoDup(s.ledger.appended) && NoDup(s.ledger.settled)
    && s.ledger.appended == Ops(s.ledger.removed) + s.queue.items
    && (forall op: Op :: op in s.queue.items ==> op !in s.ledger.settled)
    && (forall op: Op :: op in Ops(s.ledger.removed) ==> op in s.ledger.settled || IsExecuting(s, op))
    && (forall op: Op :: IsExecuting(s, op) ==> op in Ops(s.ledger.removed) && op !in s.ledger.settled)
  }

  /** Places speaks of the histories, the queue and which operation is executing, of nothing else. */
  lemma PlacesFrame(s: Sys, u: Sys)
    requires Places(s)
    requires u.ledger.writers == s.ledger.writers && u.ledger.nextOp == s.ledger.nextOp
    requires u.ledger.appended == s.ledger.appended
    requires u.ledger.settled == s.ledger.settled && u.ledger.removed == s.ledger.removed
      && u.queue.items == s.queue.items
    requires forall op: Op :: IsExecuting(u, op) <==> IsExecuting(s, op)
    ensures Places(u)
  {}

  lemma MovedPumpExecutes(s: Sys, u: Sys, t: Tid)
    requires Threads(s) && Moves(s, u, t)
    ensures forall op: Op :: IsExecuting(s, op) <==> s.threads.pumps[t].Executing? && s.threads.pumps[t].op == op
    ensures forall op: Op :: IsExecuting(u, op) <==> u.threads.pumps[t].Executing? && u.threads.pumps[t].op == op
  {
    assert forall x: Tid :: x in s.threads.pumps && x != t ==>
      u.threads.pumps[x] == s.threads.pumps[x] && s.threads.pumps[x].Exited?;
  }

  lemma OpsSnoc(removed: seq<Removal>, more: seq<Removal>)
    ensures Ops(removed + more) == Ops(removed) + Ops(more)
  {}

  lemma PopPlaces(s: Sys, u: Sys, op: Op)
    requires Places(s) && s.queue.items != [] && op == s.queue.items[0]
    requires u.ledger.writers == s.ledger.writers && u.ledger.nextOp == s.ledger.nextOp
    requires u.ledger.appended == s.ledger.appended && u.ledger.settled == s.ledger.settled
    requires u.ledger.removed == s.ledger.removed + [Removal(op, true)] && u.queue.items == s.queue.items[1..]
    requires forall x: Op :: !IsExecuting(s, x)
    requires forall x: Op :: IsExecuting(u, x) <==> x == op
    ensures Places(u)
  {
    OpsSnoc(s.ledger.removed, [Removal(op, true)]);
    assert Ops([Removal(op, true)]) == [op];
    assert [op] + s.queue.items[1..] == s.queue.items;
    assert Ops(u.ledger.removed) + u.queue.items == s.ledger.appended;
    assert op in s.queue.items;
  }

  lemma SettlePlaces(s: Sys, u: Sys, op: Op)
    requires Places(s)
    requires u.ledger.writers == s.ledger.writers && u.ledger.nextOp == s.ledger.nextOp
    requires u.ledger.appended == s.ledger.appended
    requires u.ledger.settled == s.ledger.settled + [op] && u.ledger.removed == s.ledger.removed
    requires u.queue.items == s.queue.items
    requires forall x: Op :: IsExecuting(s, x) <==> x == op
    requires forall x: Op :: !IsExecuting(u, x)
    ensures Places(u)
  {
    assert op in Ops(s.ledger.removed) && op !in s.ledger.settled;
    InTwoHalves(Ops(s.ledger.removed), s.queue.items, op);
  }

  lemma InTwoHalves(a: seq<Op>, b: seq<Op>, op: Op)
    requires NoDup(a + b) && op in a
    ensures op !in b && op in a + b
  {
    var i :| 0 <= i < |a| && a[i] == op;
    assert (a + b)[i] == op;
    forall j | 0 <= j < |b| ensures b[j] != op {
      assert (a + b)[|a| + j] == b[j];
    }
  }

  lemma PumpPlaces(s: Sys, l: Step)
    requires Threads(s) && Places(s) && Enabled(s, l) && l.ByPump?
    ensures Places(Next(s, l))
  {
    var t, u := l.t, Next(s, l);
    var pc := s.threads.pumps[t];
    PumpMoves(s, l);
    MovedPumpExecutes(s, u, t);
    PumpHistory(s, l);
    if u.threads.pumps[t].Executing? {
      PopPlaces(s, u, u.threads.pumps[t].op);
    } else if pc.Executing? {
      SettlePlaces(s, u, pc.op);
    } else {
      PlacesFrame(s, u);
    }
  }

  /** The pump's two entries in the histories: the pop, and the future being set. */
  ghost predicate History(s: Sys, u: Sys, pc: Pc, pc': Pc) {
    && (pc'.Executing? ==> pc.Draining? && s.queue.items != [] && pc'.op == s.queue.items[0])
    && (pc'.Executing? ==>
        u.queue.items == s.queue.items[1..] && u.ledger.removed == s.ledger.removed + [Removal(pc'.op, true)])
    && (!pc'.Executing? ==> u.queue.items == s.queue.items && u.ledger.removed == s.ledger.removed)
    && u.ledger.settled == if pc.Executing? then s.ledger.settled + [pc.op] else s.ledger.settled
  }

  lemma StatementHistory(s: Sys, pc: Pc)
    ensures History(s, Effect(s, pc), pc, NextPc(s, pc))
  {}

  lemma PumpHistory(s: Sys, l: Step)
    requires Enabled(s, l) && l.ByPump?
    ensures History(s, Next(s, l), s.threads.pumps[l.t], Next(s, l).threads.pumps[l.t])
  {
    StatementHistory(s, s.threads.pumps[l.t]);
  }

  lemma DrawPlaces(s: Sys, u: Sys)
    requires Places(s)
    requires u.ledger == s.ledger.(nextOp := s.ledger.nextOp + 1, writers := s.ledger.writers + {s.ledger.nextOp})
    requires u.queue == s.queue && u.threads == s.threads
    ensures Places(u)
  {
    assert forall op: Op :: IsExecuting(u, op) <==> IsExecuting(s, op);
  }

  lemma DirectPlaces(s: Sys, u: Sys)
    requires Places(s)
    requires u.ledger == s.ledger.(nextOp := s.ledger.nextOp + 1, settled := s.ledger.settled + [s.ledger.nextOp])
    requires u.queue == s.queue && u.threads == s.threads
    ensures Places(u)
  {
    assert forall op: Op :: IsExecuting(u, op) <==> IsExecuting(s, op);
    ConcatNoDup(s.ledger.settled, [s.ledger.nextOp]);
    assert forall op: Op :: op in Ops(s.ledger.removed) ==> op in Ops(s.ledger.removed) + s.queue.items;
    assert forall op: Op :: op in s.queue.items ==> op in Ops(s.ledger.removed) + s.queue.items;
  }

  lemma AppendPlaces(s: Sys, op: Op)
    requires Places(s) && op in s.ledger.writers
    ensures Places(Next(s, ByOther(AppendWrite(op))))
  {
    var u := Next(s, ByOther(AppendWrite(op)));
    assert forall x: Op :: IsExecuting(u, x) <==> IsExecuting(s, x);
    assert u.ledger.appended == Ops(u.ledger.removed) + u.queue.items;
  }

  lemma CancelPlaces(s: Sys)
    requires Places(s)
    ensures Places(Cancel(s).(controller := Dropping))
  {
    var u := Cancel(s).(controller := Dropping);
    assert forall x: Op :: IsExecuting(u, x) <==> IsExecuting(s, x);
    OpsSnoc(s.ledger.removed, Dropped(s.queue.items));
    assert Ops(Dropped(s.queue.items)) == s.queue.items;
    assert u.ledger.appended == Ops(u.ledger.removed) + u.queue.items;
    SuffixNoDup(Ops(s.ledger.removed), s.queue.items);
    ConcatNoDup(s.ledger.settled, s.queue.items);
    forall op | IsExecuting(u, op) ensures op !in u.ledger.settled {
      InTwoHalves(Ops(s.ledger.removed), s.queue.items, op);
    }
  }

  lemma SuffixNoDup(a: seq<Op>, b: seq<Op>)
    requires NoDup(a + b)
    ensures NoDup(b)
  {
    forall i, j | 0 <= i < j < |b| ensures b[i] != b[j] {
      assert (a + b)[|a| + i] == b[i] && (a + b)[|a| + j] == b[j];
    }
  }

  lemma ConcatNoDup(a: seq<Op>, b: seq<Op>)
    requires NoDup(a) && NoDup(b) && forall op: Op :: op in b ==> op !in a
    ensures NoDup(a + b)
  {
    forall i, j | 0 <= i < j < |a + b| ensures (a + b)[i] != (a + b)[j] {
      if i < |a| <= j {
        assert (a + b)[i] in a && (a + b)[j] in b;
      }
    }
  }

  lemma SameExecuting(s: Sys, u: Sys)
    requires u.threads.pumps == s.threads.pumps
    ensures forall op: Op :: IsExecuting(u, op) <==> IsExecuting(s, op)
  {}

  lemma ControllerPlaces(s: Sys, c: ControllerEvent)
    requires Threads(s) && Places(s) && ControllerEnabled(s, c)
    ensures Places(ControllerNext(s, c))
  {
    var u := ControllerNext(s, c);
    if c.CancelQueue? {
      CancelPlaces(s);
    } else if c.StartPump? {
      StartExecutes(s);
      SameExecuting(Start(s), u);
      PlacesFrame(s, u);
    } else {
      SameExecuting(s, u);
      PlacesFrame(s, u);
    }
  }

  lemma OtherPlaces(s: Sys, o: OtherEvent)
    requires Places(s) && OtherEnabled(s, o)
    ensures Places(OtherNext(s, o))
  {
    var u := OtherNext(s, o);
    match o
    case AppendWrite(op) => AppendPlaces(s, op);
    case CheckRunning => DrawPlaces(s, u);
    case WriteDirectly => DirectPlaces(s, u);
    case _ =>
      SameExecuting(s, u);
      PlacesFrame(s, u);
  }

  lemma PlacesKept(s: Sys, l: Step)
    requires Threads(s) && Places(s) && Enabled(s, l)
    ensures Places(Next(s, l))
  {
    match l
    case ByPump(_, _) => PumpPlaces(s, l);
    case ByController(c) => ControllerPlaces(s, c);
    case ByOther(o) => OtherPlaces(s, o);
  }

  lemma StartExecutes(s: Sys)
    requires Threads(s)
    ensures forall op: Op :: IsExecuting(Start(s), op) <==> IsExecuting(s, op)
  {
    var u := Start(s);
    assert s.threads.nextTid !in s.threads.pumps;
    assert forall t :: t in s.threads.pumps ==> t in u.threads.pumps && u.threads.pumps[t] == s.threads.pumps[t];
    assert forall t :: t in u.threads.pumps ==> t in s.threads.pumps || u.threads.pumps[t] == LoopTop;
  }
}
