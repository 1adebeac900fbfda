/** The heartbeat protocol between a worker process and the watchdog of its parent, in milliseconds. */
module Watchdog {
  const HEARTBEAT_PERIOD := 500
  const COMMAND_WAIT := 100
  const WATCHDOG_PERIOD := 500

  /** `command` bounds a command the worker runs once it is ready, `delivery` the time an event takes to
      reach the parent's tables; `timeout` is the parent's heartbeat_timeout. */
  datatype Config = Config(command: nat, delivery: nat, timeout: nat)

  /** Heartbeats and Ready refresh the parent's clock; a sick heartbeat says that the DLL hangs or its pump has
      become a zombie; Hang stands for "hung" and "zombie". */
  datatype Kind = Heartbeat | SickHeartbeat | Ready | Hang | Other

  datatype Event = Event(kind: Kind, at: int)

  /** `alive` says whether the process exists and `live` whether it still makes progress; `lastSignal` is when
      the worker last emitted a Heartbeat or Ready; `topBy` when, at the latest, a ready worker is back at the
      top of its loop. */
  datatype Worker = Worker(alive: bool, live: bool, ready: bool, hang: bool, lastHb: int, lastSignal: int, topBy: int)

  /** `watching` says whether the watchdog thread is still in its loop; `readyAt` is when `_ready` was set
      first and `heard` when the last signal received was emitted: the code does not keep these two. */
  datatype Parent = Parent(
    ready: bool,
    hung: bool,
    lastHeartbeat: int,
    lastTick: int,
    killed: bool,
    watching: bool,
    readyAt: int,
    heard: int
  )

  datatype Sys = Sys(now: int, worker: Worker, channel: seq<Event>, parent: Parent)

  datatype Step = Wait(delay: nat) | LoopTop(sick: bool) | Emit(kind: Kind) | FallSilent | Exit | Deliver | WatchdogTick

  function Init(start: int): Sys {
    Sys(start, Worker(true, true, false, false, 0, 0, 0), [], Parent(false, false, 0, start, false, true, 0, 0))
  }

  /** Time does not pass a moment by which something must have happened. A worker that is not ready yet
      may take any time over its connect command. */
  predicate MayWait(c: Config, s: Sys, delay: nat) {
    && (s.worker.live && s.worker.ready ==> s.now + delay <= s.worker.topBy)
    && (s.channel != [] ==> s.now + delay <= s.channel[0].at + c.delivery)
    && (s.parent.watching ==> s.now + delay <= s.parent.lastTick + WATCHDOG_PERIOD)
  }

  predicate Enabled(c: Config, s: Sys, l: Step) {
    match l
    case Wait(delay) => MayWait(c, s, delay)
    case LoopTop(_) => s.worker.live
    case Emit(kind) => s.worker.live && s.worker.lastHb > 0 && kind != Heartbeat && kind != SickHeartbeat
    case FallSilent => true
    case Exit => s.worker.alive
    case Deliver => s.channel != []
    case WatchdogTick => s.parent.watching
  }

  predicate BeatIsDue(s: Sys) { s.now - s.worker.lastHb >= HEARTBEAT_PERIOD }

  function AtTop(c: Config, s: Sys, sick: bool): Sys {
    var w := s.worker.(topBy := s.now + COMMAND_WAIT + c.command);
    if BeatIsDue(s) then
      s.(worker := w.(lastHb := s.now, lastSignal := s.now, hang := w.hang || sick),
         channel := s.channel + [Event(if sick then SickHeartbeat else Heartbeat, s.now)])
    else s.(worker := w)
  }

  function Emitted(c: Config, s: Sys, kind: Kind): Sys {
    var w := match kind
      case Ready => s.worker.(ready := true, lastSignal := s.now, topBy := s.now + COMMAND_WAIT + c.command)
      case Hang => s.worker.(hang := true)
      case _ => s.worker;
    s.(worker := w, channel := s.channel + [Event(kind, s.now)])
  }

  /** One turn of `_read_loop`. */
  function Receive(p: Parent, e: Event, now: int): Parent {
    match e.kind
    case Heartbeat => p.(lastHeartbeat := now, heard := e.at)
    case SickHeartbeat => p.(lastHeartbeat := now, heard := e.at, hung := true)
    case Ready => p.(lastHeartbeat := now, heard := e.at, ready := true, readyAt := if p.ready then p.readyAt else now)
    case Hang => p.(hung := true, ready := true, readyAt := if p.ready then p.readyAt else now)
    case Other => p
  }

  /** The test `_watchdog` makes after each sleep; without a reason to kill it goes on as long as the process
      of the worker exists. */
  predicate Lost(c: Config, p: Parent, now: int) {
    p.ready && p.lastHeartbeat > 0 && now - p.lastHeartbeat > c.timeout
  }

  /** native_hung: a worker that has exited after it was ready counts as hung, without being killed. */
  predicate NativeHung(s: Sys) { s.parent.hung || (!s.parent.killed && !s.worker.alive && s.parent.ready) }

  function Next(c: Config, s: Sys, l: Step): Sys {
    match l
    case Wait(delay) => s.(now := s.now + delay)
    case LoopTop(sick) => AtTop(c, s, sick)
    case Emit(kind) => Emitted(c, s, kind)
    case FallSilent => s.(worker := s.worker.(live := false))
    case Exit => s.(worker := s.worker.(alive := false, live := false))
    case Deliver =>
      if s.channel == [] then s
      else s.(parent := Receive(s.parent, s.channel[0], s.now), channel := s.channel[1..])
    case WatchdogTick =>
      if Lost(c, s.parent, s.now) then
        s.(parent := s.parent.(killed := true, hung := true, watching := false, lastTick := s.now),
           worker := s.worker.(alive := false, live := false))
      else s.(parent := s.parent.(lastTick := s.now, watching := s.worker.alive))
  }

  ghost predicate Legal(c: Config, s: Sys, run: seq<Step>)
    decreases |run|
  {
    run == [] || (Enabled(c, s, run[0]) && Legal(c, Next(c, s, run[0]), run[1..]))
  }

  function EndOf(c: Config, s: Sys, run: seq<Step>): Sys
    decreases |run|
  {
    if run == [] then s else EndOf(c, Next(c, s, run[0]), run[1..])
  }

  // ---- the parent's methods ----

  class IsolatedSimConnect {
    const timeout: nat
    var ready: bool
    var hung: bool
    var lastHeartbeat: int
    var killed: bool

    constructor (timeout: nat)
      ensures this.timeout == timeout && !ready && !hung && lastHeartbeat == 0 && !killed
    {
      this.timeout := timeout;
      ready, hung, lastHeartbeat, killed := false, false, 0, false;
    }

    /** The fields agree with the parent of a run. */
    ghost predicate Is(p: Parent)
      reads this
    {
      p.ready == ready && p.hung == hung && p.lastHeartbeat == lastHeartbeat && p.killed == killed
    }

    method ReadLoopTurn(e: Event, now: int, ghost p: Parent)
      requires Is(p)
      modifies this
      ensures Is(Receive(p, e, now))
      ensures hung == (old(hung) || e.kind == SickHeartbeat || e.kind == Hang)
      ensures ready == (old(ready) || e.kind == Ready || e.kind == Hang)
      ensures lastHeartbeat ==
        if e.kind == Heartbeat || e.kind == SickHeartbeat || e.kind == Ready then now else old(lastHeartbeat)
    {
      match e.kind {
        case Heartbeat =>
          lastHeartbeat := now;
        case SickHeartbeat =>
          lastHeartbeat := now;
          hung := true;
        case Ready =>
          lastHeartbeat := now;
          ready := true;
        case Hang =>
          hung := true;
          ready := true;
        case Other =>
      }
    }

    method WatchdogTurn(now: int, workerAlive: bool, ghost c: Config, ghost s: Sys) returns (again: bool)
      requires Is(s.parent) && c.timeout == timeout && now == s.now && workerAlive == s.worker.alive
      modifies this
      ensures Is(Next(c, s, WatchdogTick).parent) && again == Next(c, s, WatchdogTick).parent.watching
      ensures var kills := old(ready) && old(lastHeartbeat) > 0 && now - old(lastHeartbeat) > timeout;
        && killed == (old(killed) || kills) && hung == (old(hung) || kills) && again == (workerAlive && !kills)
    {
      if !ready || lastHeartbeat <= 0 {
        return workerAlive;
      }
      if now - lastHeartbeat > timeout {
        hung := true;
        killed := true;
        return false;
      }
      again := workerAlive;
    }
  }

  // ---- what holds in every run ----

  /** No event is from the future and the channel is in order of emission. */
  ghost predicate Ordered(s: Sys) {
    && (forall i :: 0 <= i < |s.channel| ==> 0 < s.channel[i].at <= s.now)
    && (forall i, j :: 0 <= i <= j < |s.channel| ==> s.channel[i].at <= s.channel[j].at)
    && 0 <= s.worker.lastHb <= s.now && s.worker.lastSignal <= s.now
    && 0 <= s.parent.heard <= s.parent.lastHeartbeat <= s.now && s.parent.lastTick <= s.now && s.parent.readyAt <= s.now
    && 0 < s.now
  }

  lemma ChannelGrows(s: Sys, e: Event)
    requires Ordered(s) && e.at == s.now
    ensures Ordered(s.(channel := s.channel + [e]))
  {}

  lemma TopOrdered(c: Config, s: Sys, sick: bool)
    requires Ordered(s)
    ensures Ordered(AtTop(c, s, sick))
  {
    if BeatIsDue(s) {
      ChannelGrows(s, Event(if sick then SickHeartbeat else Heartbeat, s.now));
    }
  }

  lemma EmittedOrdered(c: Config, s: Sys, kind: Kind)
    requires Ordered(s)
    ensures Ordered(Emitted(c, s, kind))
  {
    ChannelGrows(s, Event(kind, s.now));
  }

  lemma DeliveredOrdered(c: Config, s: Sys)
    requires Ordered(s) && s.channel != []
    ensures Ordered(Next(c, s, Deliver))
  {
    assert s.channel[0].at <= s.now;
  }

  lemma OrderedKept(c: Config, s: Sys, l: Step)
    requires Ordered(s) && Enabled(c, s, l)
    ensures Ordered(Next(c, s, l))
  {
    match l
    case LoopTop(sick) => TopOrdered(c, s, sick);
    case Emit(kind) => EmittedOrdered(c, s, kind);
    case Deliver => DeliveredOrdered(c, s);
    case _ =>
  }

  /** A ready worker signals again less than this long after its last signal. */
  function Bound(c: Config): int { HEARTBEAT_PERIOD + COMMAND_WAIT + c.command }

  ghost predicate Punctual(c: Config, s: Sys) {
    s.worker.live && s.worker.ready ==>
      s.now <= s.worker.topBy < s.worker.lastSignal + Bound(c) && s.worker.lastHb <= s.worker.lastSignal
  }

  lemma PunctualKept(c: Config, s: Sys, l: Step)
    requires Ordered(s) && Punctual(c, s) && Enabled(c, s, l)
    ensures Punctual(c, Next(c, s, l))
  {}

  /** Walking through the events not delivered yet, starting from a signal emitted at `heard`: once armed by a
      Ready event, every signal follows the one before it in time, and the last is the worker's last. */
  ghost predicate Chained(c: Config, heard: int, armed: bool, events: seq<Event>, w: Worker)
    decreases |events|
  {
    if events == [] then (armed ==> heard == w.lastSignal) && armed == w.ready
    else
      var e := events[0];
      match e.kind
      case Other => Chained(c, heard, armed, events[1..], w)
      case Hang => false
      case SickHeartbeat => false
      case Heartbeat => (armed ==> e.at < heard + Bound(c)) && Chained(c, e.at, armed, events[1..], w)
      case Ready => (armed ==> e.at < heard + Bound(c)) && Chained(c, e.at, true, events[1..], w)
  }

  /** The worker emitted one more event. */
  lemma {:induction false} ChainGrows(c: Config, heard: int, armed: bool, events: seq<Event>, w: Worker, e: Event,
                                      v: Worker)
    requires Chained(c, heard, armed, events, w) && e.kind != Hang && e.kind != SickHeartbeat
    requires w.ready && e.kind != Other ==> e.at < w.lastSignal + Bound(c)
    requires v.ready == (w.ready || e.kind == Ready) && v.lastSignal == if e.kind == Other then w.lastSignal else e.at
    ensures Chained(c, heard, armed, events + [e], v)
    decreases |events|
  {
    if events == [] {
      assert (events + [e])[1..] == [];
    } else {
      assert (events + [e])[1..] == events[1..] + [e];
      var f := events[0];
      ChainGrows(c, if f.kind == Other then heard else f.at, armed || f.kind == Ready, events[1..], w, e, v);
    }
  }

  /** The chain does not look at the rest of the worker. */
  lemma {:induction false} ChainSame(c: Config, heard: int, armed: bool, events: seq<Event>, w: Worker, v: Worker)
    requires Chained(c, heard, armed, events, w) && v.ready == w.ready && v.lastSignal == w.lastSignal
    ensures Chained(c, heard, armed, events, v)
    decreases |events|
  {
    if events != [] {
      var f := events[0];
      ChainSame(c, if f.kind == Other then heard else f.at, armed || f.kind == Ready, events[1..], w, v);
    }
  }

  /** What a worker that has reported no hang has sent. */
  ghost predicate Honest(c: Config, s: Sys) {
    s.worker.hang || Chained(c, s.parent.heard, s.parent.ready, s.channel, s.worker)
  }

  lemma HonestKept(c: Config, s: Sys, l: Step)
    requires Ordered(s) && Punctual(c, s) && Honest(c, s) && Enabled(c, s, l)
    ensures Honest(c, Next(c, s, l))
  {
    var t := Next(c, s, l);
    if !t.worker.hang {
      match l
      case LoopTop(_) =>
        if BeatIsDue(s) {
          ChainGrows(c, s.parent.heard, s.parent.ready, s.channel, s.worker, Event(Heartbeat, s.now), t.worker);
        } else {
          ChainSame(c, s.parent.heard, s.parent.ready, s.channel, s.worker, t.worker);
        }
      case Emit(kind) =>
        ChainGrows(c, s.parent.heard, s.parent.ready, s.channel, s.worker, Event(kind, s.now), t.worker);
      case Deliver =>
      case _ => ChainSame(c, s.parent.heard, s.parent.ready, s.channel, s.worker, t.worker);
    }
  }

  /** The first signal on its way bounds the silence the parent sees; without one, the worker does. */
  lemma {:induction false} SilenceIsShort(c: Config, heard: int, events: seq<Event>, w: Worker, now: int)
    requires Chained(c, heard, true, events, w)
    requires forall i :: 0 <= i < |events| ==> now <= events[i].at + c.delivery
    requires w.ready ==> now < w.lastSignal + Bound(c)
    ensures now < heard + Bound(c) + c.delivery
    decreases |events|
  {
    if events != [] && events[0].kind == Other {
      SilenceIsShort(c, heard, events[1..], w, now);
    }
  }

  /** Deliveries keep up: the head of the channel is not overdue. */
  ghost predicate Timely(c: Config, s: Sys) {
    && (s.channel != [] ==> s.now <= s.channel[0].at + c.delivery)
    && (s.parent.watching ==> s.now <= s.parent.lastTick + WATCHDOG_PERIOD)
  }

  lemma TimelyKept(c: Config, s: Sys, l: Step)
    requires Ordered(s) && Timely(c, s) && Enabled(c, s, l)
    ensures Timely(c, Next(c, s, l))
  {
    if l.Deliver? && |s.channel| > 1 {
      assert s.channel[0].at <= s.channel[1].at;
    }
  }

  /** A live worker that has reported no hang was heard of recently enough, if the parent is armed. */
  lemma HeardInTime(c: Config, s: Sys)
    requires Ordered(s) && Punctual(c, s) && Honest(c, s) && Timely(c, s)
    requires s.worker.live && !s.worker.hang && s.parent.ready
    ensures s.now - s.parent.lastHeartbeat < Bound(c) + c.delivery
  {
    ReadyWasSent(c, s.parent.heard, s.channel, s.worker);
    forall i | 0 <= i < |s.channel| ensures s.now <= s.channel[i].at + c.delivery {
      assert s.channel[0].at <= s.channel[i].at;
    }
    SilenceIsShort(c, s.parent.heard, s.channel, s.worker, s.now);
  }

  lemma {:induction false} ReadyWasSent(c: Config, heard: int, events: seq<Event>, w: Worker)
    requires Chained(c, heard, true, events, w)
    ensures w.ready
    decreases |events|
  {
    if events != [] {
      ReadyWasSent(c, if events[0].kind == Other then heard else events[0].at, events[1..], w);
    }
  }

  predicate IsHeartbeat(e: Event) { e.kind == Heartbeat || e.kind == SickHeartbeat }

  /** The parent hears a heartbeat before anything else. */
  ghost predicate BeatFirst(s: Sys) {
    && (s.parent.lastHeartbeat == 0 ==> !s.parent.ready && (s.channel != [] ==> IsHeartbeat(s.channel[0])))
    && (s.worker.lastHb == 0 ==> s.channel == [] && s.parent.lastHeartbeat == 0)
    && (s.worker.lastHb > 0 && s.parent.lastHeartbeat == 0 ==> s.channel != [])
  }

  lemma BeatFirstKept(c: Config, s: Sys, l: Step)
    requires Ordered(s) && BeatFirst(s) && Enabled(c, s, l) && s.now >= HEARTBEAT_PERIOD
    ensures BeatFirst(Next(c, s, l))
  {}

  /** Since the last tick the parent has seen no reason to kill. */
  ghost predicate Checked(c: Config, s: Sys) {
    s.parent.ready && !s.parent.killed ==>
      s.parent.lastTick <= s.parent.lastHeartbeat + c.timeout || s.parent.lastTick <= s.parent.readyAt
  }

  lemma CheckedKept(c: Config, s: Sys, l: Step)
    requires Ordered(s) && BeatFirst(s) && Checked(c, s) && Enabled(c, s, l)
    ensures Checked(c, Next(c, s, l))
  {}

  /** The watchdog watches as long as the process exists; only its own kill ends both at once. */
  ghost predicate Watched(s: Sys) {
    && (s.worker.live ==> s.worker.alive)
    && (s.worker.alive ==> s.parent.watching && !s.parent.killed)
    && (s.parent.killed ==> s.parent.hung && !s.parent.watching)
  }

  lemma WatchedKept(c: Config, s: Sys, l: Step)
    requires Watched(s) && Enabled(c, s, l)
    ensures Watched(Next(c, s, l))
  {}

  ghost predicate Inv(c: Config, s: Sys) {
    && Ordered(s) && Punctual(c, s) && Honest(c, s) && Timely(c, s) && BeatFirst(s) && Checked(c, s)
    && Watched(s) && s.now >= HEARTBEAT_PERIOD
  }

  lemma StepKeeps(c: Config, s: Sys, l: Step)
    requires Inv(c, s) && Enabled(c, s, l)
    ensures Inv(c, Next(c, s, l))
  {
    OrderedKept(c, s, l);
    PunctualKept(c, s, l);
    HonestKept(c, s, l);
    TimelyKept(c, s, l);
    BeatFirstKept(c, s, l);
    CheckedKept(c, s, l);
    WatchedKept(c, s, l);
  }

  lemma {:induction false} InvOverRuns(c: Config, s: Sys, run: seq<Step>)
    requires Inv(c, s) && Legal(c, s, run)
    ensures Inv(c, EndOf(c, s, run))
    decreases |run|
  {
    if run != [] {
      StepKeeps(c, s, run[0]);
      InvOverRuns(c, Next(c, s, run[0]), run[1..]);
    }
  }

  // ---- theorems ----

  /** The silence the parent sees from a live, ready worker that reported no hang stays below
      0.6 s + command + delivery. */
  lemma SilenceSeenIsBounded(c: Config, start: int, run: seq<Step>)
    requires start >= 500 && Legal(c, Init(start), run)
    ensures var s := EndOf(c, Init(start), run);
      s.worker.live && !s.worker.hang && s.parent.ready ==>
        s.now - s.parent.lastHeartbeat < 600 + c.command + c.delivery
  {
    InvOverRuns(c, Init(start), run);
    var s := EndOf(c, Init(start), run);
    if s.worker.live && !s.worker.hang && s.parent.ready {
      HeardInTime(c, s);
    }
  }

  /** With a timeout of at least that bound, a watchdog tick kills no live worker that reported no hang. */
  lemma NoLiveWorkerIsKilled(c: Config, start: int, run: seq<Step>)
    requires start >= 500 && Legal(c, Init(start), run) && 600 + c.command + c.delivery <= c.timeout
    ensures var s := EndOf(c, Init(start), run);
      s.worker.live && !s.worker.hang ==>
        Next(c, s, WatchdogTick).worker.live && !Next(c, s, WatchdogTick).parent.killed
  {
    SilenceSeenIsBounded(c, start, run);
    InvOverRuns(c, Init(start), run);
  }

  /** A silent worker is killed in time: while its process exists, an armed parent has heard from it within
      the timeout and one watchdog period, or has been armed for less than a period. When the process is gone,
      killed or exited by itself, an armed parent reports a hang. */
  lemma SilentWorkerIsKilled(c: Config, start: int, run: seq<Step>)
    requires start >= 500 && Legal(c, Init(start), run)
    ensures var s := EndOf(c, Init(start), run);
      s.parent.ready ==>
        && s.parent.lastHeartbeat > 0
        && (!s.worker.alive ==> NativeHung(s))
        && (s.worker.alive ==>
              || s.now <= s.parent.lastHeartbeat + c.timeout + 500
              || s.now <= s.parent.readyAt + 500)
  {
    InvOverRuns(c, Init(start), run);
  }

  /** A worker that exits by itself is not killed any more once the watchdog has seen that it is gone; an
      armed parent reports a hang all the same. */
  lemma {:induction false} ExitedIsNeverKilled(c: Config, s: Sys, run: seq<Step>)
    requires !s.parent.watching && !s.worker.alive && !s.parent.killed && Legal(c, s, run)
    ensures var e := EndOf(c, s, run); !e.parent.killed && !e.worker.alive && (e.parent.ready ==> NativeHung(e))
    decreases |run|
  {
    if run != [] {
      ExitedIsNeverKilled(c, Next(c, s, run[0]), run[1..]);
    }
  }

  // ---- a hang the worker reports ----

  /** The parent has been given an event that reports a hang. */
  predicate HangDelivered(c: Config, s: Sys, run: seq<Step>)
    decreases |run|
  {
    run != [] &&
    ((run[0].Deliver? && s.channel != [] && (s.channel[0].kind == SickHeartbeat || s.channel[0].kind == Hang))
     || HangDelivered(c, Next(c, s, run[0]), run[1..]))
  }

  /** The parent has been given an event after which connect() goes on. */
  predicate AnswerDelivered(c: Config, s: Sys, run: seq<Step>)
    decreases |run|
  {
    run != [] &&
    ((run[0].Deliver? && s.channel != [] && (s.channel[0].kind == Ready || s.channel[0].kind == Hang))
     || AnswerDelivered(c, Next(c, s, run[0]), run[1..]))
  }

  lemma {:induction false} HangKept(c: Config, s: Sys, run: seq<Step>)
    requires Legal(c, s, run) && (s.parent.killed ==> s.parent.hung)
    ensures var e := EndOf(c, s, run);
      && (e.parent.killed ==> e.parent.hung) && (s.parent.killed ==> e.parent.killed)
      && (HangDelivered(c, s, run) || s.parent.hung ==> e.parent.hung)
      && (e.parent.hung ==> HangDelivered(c, s, run) || s.parent.hung || e.parent.killed)
      && (e.parent.ready <==> AnswerDelivered(c, s, run) || s.parent.ready)
    decreases |run|
  {
    if run != [] {
      HangKept(c, Next(c, s, run[0]), run[1..]);
    }
  }

  /** Once the parent has been given a sick heartbeat, a "hung" or a "zombie", native_hung holds at every later
      moment. As long as the process of the worker exists it holds for no other reason: the parent is hung exactly if
      it was given such an event. And the parent is ready, so that connect() returns or raises, exactly if it was
      given a "ready", a "hung" or a "zombie". */
  lemma HangIsReportedExactly(c: Config, start: int, run: seq<Step>, later: seq<Step>)
    requires start >= 500 && Legal(c, Init(start), run) && Legal(c, EndOf(c, Init(start), run), later)
    ensures var s := EndOf(c, Init(start), run); var e := EndOf(c, s, later);
      && (HangDelivered(c, Init(start), run) ==> e.parent.hung && NativeHung(e))
      && (s.worker.alive ==>
            (NativeHung(s) <==> s.parent.hung) && (s.parent.hung <==> HangDelivered(c, Init(start), run)))
      && (s.parent.ready <==> AnswerDelivered(c, Init(start), run))
  {
    InvOverRuns(c, Init(start), run);
    HangKept(c, Init(start), run);
    HangKept(c, EndOf(c, Init(start), run), later);
  }
}
