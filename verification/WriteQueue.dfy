/** The deque of pending writes and its counter, drained by the pump between two CallDispatch calls. */
module WriteQueue {
  import opened Wrappers

  const MAX_DRAIN := 256

  /** `_write_queue` and `_write_queue_pending`. */
  datatype Queue<T> = Queue(items: seq<T>, pending: nat) {
    /** Under the lock: append and count. */
    function Append(x: T): Queue<T> { Queue(items + [x], pending + 1) }

    /** Under the lock: popleft. The counter still counts the operation. */
    function Pop(): Queue<T>
      requires items != []
    {
      Queue(items[1..], pending)
    }

    /** Under the lock, once the operation has run. */
    function Finish(): Queue<T> { Queue(items, if pending > 0 then pending - 1 else 0) }

    /** Under the lock: drop everything queued. */
    function Cancel(): Queue<T> { Queue([], 0) }

    /** A drain of at most n operations that nobody interferes with. */
    function Drain(n: nat): Queue<T>
      decreases n
    {
      if n == 0 || items == [] then this else Pop().Finish().Drain(n - 1)
    }
  }

  /** Any number of bounded drains remove a prefix of the queue, in order, and keep the counter exact. */
  lemma {:induction false} DrainTakesPrefix<T>(q: Queue<T>, n: nat)
    requires q.pending == |q.items|
    ensures var m := if n <= |q.items| then n else |q.items|;
      q.Drain(n) == Queue(q.items[m..], |q.items| - m)
    decreases n
  {
    if n > 0 && q.items != [] {
      DrainTakesPrefix(q.Pop().Finish(), n - 1);
    }
  }

  lemma {:induction false} DrainsCompose<T>(q: Queue<T>, m: nat, n: nat)
    ensures q.Drain(m).Drain(n) == q.Drain(m + n)
    decreases m
  {
    if m > 0 && q.items != [] {
      DrainsCompose(q.Pop().Finish(), m - 1, n);
    } else if q.items == [] {
      assert q.Drain(m) == q == q.Drain(n) == q.Drain(m + n);
    }
  }

  const CANCELLED := "SimConnect closed"

  /** The handle a writer waits on. `error` is None after a success. */
  class WriteFuture {
    var done: bool
    var error: Option<string>

    constructor ()
      ensures !done && error == None
    {
      done, error := false, None;
    }

    method SetResult()
      modifies this
      ensures done && error == old(error)
    {
      done := true;
    }

    method SetError(message: string)
      modifies this
      ensures done && error == Some(message)
    {
      error, done := Some(message), true;
    }
  }

  /** An operation: what running its closure leads to, and the future to settle. */
  datatype WriteOp = WriteOp(outcome: Option<string>, future: WriteFuture)

  class WriteQueueMixin {
    var items: seq<WriteOp>
    var pending: nat

    ghost function View(): Queue<WriteOp>
      reads this
    {
      Queue(items, pending)
    }

    /** Every enqueue makes its own future. */
    ghost predicate Valid()
      reads this
    {
      forall i, j :: 0 <= i < j < |items| ==> items[i].future != items[j].future
    }

    ghost function Futures(): set<WriteFuture>
      reads this
    {
      set op | op in items :: op.future
    }

    constructor ()
      ensures Valid() && View() == Queue([], 0)
    {
      items, pending := [], 0;
    }

    method Append(op: WriteOp)
      requires Valid() && op.future !in Futures()
      modifies this
      ensures Valid() && View() == old(View()).Append(op)
    {
      items := items + [op];
      pending := pending + 1;
    }

    /** The check of the handle and of the pump, and the append or the direct execution it decides on. */
    method EnqueueWrite(outcome: Option<string>, isOpen: bool, queueing: bool) returns (r: Result<WriteFuture, string>)
      requires Valid()
      modifies this
      ensures Valid() && (r.Ok? <==> isOpen)
      ensures r.Ok? ==> fresh(r.value) && r.value.done == !queueing
      ensures r.Ok? ==> r.value.error == if queueing then None else outcome
      ensures View() == if isOpen && queueing then old(View()).Append(WriteOp(outcome, r.value)) else old(View())
    {
      if !isOpen {
        return Err("RuntimeError");
      }
      var future := new WriteFuture();
      var op := WriteOp(outcome, future);
      if queueing {
        Append(op);
      } else {
        ExecuteWriteOp(op, false);
      }
      r := Ok(future);
    }

    method ExecuteWriteOp(op: WriteOp, fromQueue: bool)
      requires !op.future.done && op.future.error == None
      modifies this`pending, op.future
      ensures op.future.done && op.future.error == op.outcome
      ensures View() == if fromQueue then old(View()).Finish() else old(View())
    {
      if op.outcome.Some? {
        op.future.SetError(op.outcome.value);
      } else {
        op.future.SetResult();
      }
      if fromQueue && pending > 0 {
        pending := pending - 1;
      }
    }

    method DrainWriteQueue(maxItems: nat) returns (count: nat)
      requires Valid()
      requires forall op :: op in items ==> !op.future.done && op.future.error == None
      modifies this, set op | op in items :: op.future
      ensures Valid() && View() == old(View()).Drain(maxItems)
      ensures count == if maxItems <= |old(items)| then maxItems else |old(items)|
      ensures items == old(items)[count..]
      ensures forall i :: 0 <= i < count ==>
        old(items)[i].future.done && old(items)[i].future.error == old(items)[i].outcome
      ensures forall i :: count <= i < |old(items)| ==> !old(items)[i].future.done && old(items)[i].future.error == None
    {
      count := 0;
      ghost var all := items;
      while count < maxItems
        invariant count <= maxItems && count <= |all|
        invariant items == all[count..]
        invariant View().Drain(maxItems - count) == old(View()).Drain(maxItems)
        invariant forall i :: 0 <= i < count ==> all[i].future.done && all[i].future.error == all[i].outcome
        invariant forall i :: count <= i < |all| ==> !all[i].future.done && all[i].future.error == None
      {
        if items == [] {
          break;
        }
        var op := items[0];
        assert op == all[count];
        assert op in all;
        items := items[1..];
        ExecuteWriteOp(op, true);
        count := count + 1;
      }
    }

    /** close(): settle what has not run with an error, and forget it. */
    method CancelWriteQueue()
      requires Valid()
      modifies this, set op | op in items :: op.future
      ensures Valid() && View() == old(View()).Cancel()
      ensures forall op :: op in old(items) ==> op.future.done
      ensures forall op :: op in old(items) ==>
        op.future.error == if old(op.future.done) then old(op.future.error) else Some(CANCELLED)
    {
      ghost var all := items;
      ghost var k := 0;
      while items != []
        invariant k <= |all| && items == all[k..]
        invariant forall i :: 0 <= i < k ==> all[i].future.done
        invariant forall i :: 0 <= i < k ==>
          all[i].future.error == if old(all[i].future.done) then old(all[i].future.error) else Some(CANCELLED)
        invariant forall i :: k <= i < |all| ==>
          all[i].future.done == old(all[i].future.done) && all[i].future.error == old(all[i].future.error)
        decreases |items|
      {
        var op := items[0];
        assert op == all[k];
        assert op in all;
        items := items[1..];
        if !op.future.done {
          op.future.SetError(CANCELLED);
        }
        k := k + 1;
      }
      pending := 0;
    }
  }
}
