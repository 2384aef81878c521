/** The event table of an IOManager as a value: per file descriptor the
    registered events and who waits for them, the kernel's interest set, and
    the count of pending events. */
module IoSpec {
  import opened Options

  datatype Event = READ | WRITE

  /** Callbacks: a sleeper's wake-up call, a do_io timeout, and any other. */
  datatype Callback = Wake(fiber: nat) | Timeout(info: nat, fd: nat, ev: Event) | User(n: nat)

  datatype Task = RunFiber(fiber: nat) | RunCb(cb: Callback)

  /** FdContext::EventContext. */
  datatype Slot = Slot(scheduler: bool, fiber: Option<nat>, cb: Option<Callback>)

  const EMPTY := Slot(false, None, None)

  datatype FdCtx = FdCtx(events: set<Event>, read: Slot, write: Slot) {
    function Get(ev: Event): Slot {
      if ev == READ then read else write
    }

    function Put(ev: Event, s: Slot): (c: FdCtx)
      ensures c.events == events && c.Get(ev) == s
      ensures forall e | e != ev :: c.Get(e) == Get(e)
    {
      if ev == READ then FdCtx(events, s, write) else FdCtx(events, read, s)
    }
  }

  const NONE := FdCtx({}, EMPTY, EMPTY)

  /** `added`, `fired` and `deleted` are history: how many registrations there
      were, and how many ended by being scheduled and by being deleted. */
  datatype Io = Io(ctxs: seq<FdCtx>, kernel: map<nat, set<Event>>, pending: int,
                   added: nat, fired: nat, deleted: nat)

  function Start(): Io {
    Io(seq(32, _ => NONE), map[], 0, 0, 0, 0)
  }

  /** What a call returns, with the tasks it handed to the scheduler; or a
      failed SYLAR_ASSERT. */
  datatype Result = Done(io: Io, ok: bool, tasks: seq<Task>) | Aborted

  // ---- epoll_ctl -------------------------------------------------------

  datatype Ctl = ADD | MOD | DEL

  /** ADD needs the descriptor absent, MOD and DEL need it present; the kernel
      may refuse for reasons of its own. */
  function EpollCtl(kernel: map<nat, set<Event>>, op: Ctl, fd: nat, events: set<Event>, accept: bool)
    : (map<nat, set<Event>>, bool)
  {
    if !accept || (op == ADD) == (fd in kernel) then (kernel, false)
    else if op == DEL then (kernel - {fd}, true)
    else (kernel[fd := events], true)
  }

  // ---- the operations --------------------------------------------------

  /** The table grown to one and a half times the descriptor when it is too
      small (contextResize). */
  function Grow(ctxs: seq<FdCtx>, fd: nat): (r: seq<FdCtx>)
    ensures |ctxs| <= |r| && forall i :: 0 <= i < |r| ==> r[i] == if i < |ctxs| then ctxs[i] else NONE
    ensures |ctxs| >= 32 ==> fd < |r|
    ensures fd >= |ctxs| && |ctxs| >= 32 ==> |r| == fd + fd / 2
  {
    if fd < |ctxs| || fd * 3 / 2 < |ctxs| then ctxs else ctxs + seq(fd * 3 / 2 - |ctxs|, _ => NONE)
  }

  function SlotFor(who: Task): Slot {
    match who
    case RunFiber(f) => Slot(true, Some(f), None)
    case RunCb(cb) => Slot(true, None, Some(cb))
  }

  /** `running` tells whether the calling fiber is in EXEC, which addEvent asserts
      when it registers that fiber. */
  function AddEvent(io: Io, fd: nat, ev: Event, who: Task, running: bool, accept: bool): Result
    requires |io.ctxs| >= 32
  {
    var ctxs := Grow(io.ctxs, fd);
    var c := ctxs[fd];
    if ev in c.events then Aborted
    else
      var (kernel, ok) := EpollCtl(io.kernel, if c.events == {} then ADD else MOD, fd, c.events + {ev}, accept);
      if !ok then Done(io.(ctxs := ctxs), false, [])
      else if c.Get(ev) != EMPTY then Aborted
      else if who.RunFiber? && !running then Aborted
      else
        var c' := c.Put(ev, SlotFor(who)).(events := c.events + {ev});
        Done(io.(ctxs := ctxs[fd := c'], kernel := kernel, pending := io.pending + 1, added := io.added + 1), true, [])
  }

  /** FdContext::triggerEvent. */
  function Trigger(c: FdCtx, ev: Event): Option<(FdCtx, seq<Task>)> {
    var s := c.Get(ev);
    if ev !in c.events || !s.scheduler then None
    else
      var c' := c.(events := c.events - {ev});
      if s.cb.Some? then Some((c'.Put(ev, Slot(false, s.fiber, None)), [RunCb(s.cb.value)]))
      else Some((c'.Put(ev, Slot(false, None, None)), if s.fiber.Some? then [RunFiber(s.fiber.value)] else []))
  }

  /** Triggers READ, then WRITE, as far as they are in `evs`, and counts them
      off. */
  function TriggerAll(io: Io, fd: nat, evs: set<Event>): Result
    requires fd < |io.ctxs|
  {
    var c := io.ctxs[fd];
    match if READ in evs then Trigger(c, READ) else Some((c, []))
    case None => Aborted
    case Some((c1, t1)) =>
      match if WRITE in evs then Trigger(c1, WRITE) else Some((c1, []))
      case None => Aborted
      case Some((c2, t2)) =>
        Done(io.(ctxs := io.ctxs[fd := c2], pending := io.pending - Count(evs), fired := io.fired + Count(evs)),
             true, t1 + t2)
  }

  function DelEvent(io: Io, fd: nat, ev: Event, accept: bool): Result {
    if fd >= |io.ctxs| || ev !in io.ctxs[fd].events then Done(io, false, [])
    else
      var c := io.ctxs[fd];
      var left := c.events - {ev};
      var (kernel, ok) := EpollCtl(io.kernel, if left == {} then DEL else MOD, fd, left, accept);
      if !ok then Done(io, false, [])
      else
        Done(io.(ctxs := io.ctxs[fd := c.Put(ev, EMPTY).(events := left)], kernel := kernel,
                 pending := io.pending - 1, deleted := io.deleted + 1), true, [])
  }

  function CancelEvent(io: Io, fd: nat, ev: Event, accept: bool): Result {
    if fd >= |io.ctxs| || ev !in io.ctxs[fd].events then Done(io, false, [])
    else
      var left := io.ctxs[fd].events - {ev};
      var (kernel, ok) := EpollCtl(io.kernel, if left == {} then DEL else MOD, fd, left, accept);
      if !ok then Done(io, false, []) else TriggerAll(io.(kernel := kernel), fd, {ev})
  }

  function CancelAll(io: Io, fd: nat, accept: bool): Result {
    if fd >= |io.ctxs| || io.ctxs[fd].events == {} then Done(io, false, [])
    else
      var (kernel, ok) := EpollCtl(io.kernel, DEL, fd, {}, accept);
      if !ok then Done(io, false, [])
      else
        var r := TriggerAll(io.(kernel := kernel), fd, io.ctxs[fd].events);
        if r.Done? && (fd >= |r.io.ctxs| || r.io.ctxs[fd].events != {}) then Aborted else r
  }

  /** One turn of idle's dispatch loop for a descriptor the kernel reported
      events for: as written, it triggers whatever was reported. */
  function Dispatch(io: Io, fd: nat, reported: set<Event>, accept: bool): Result {
    if fd >= |io.ctxs| || io.ctxs[fd].events * reported == {} then Done(io, false, [])
    else
      var left := io.ctxs[fd].events - reported;
      var (kernel, ok) := EpollCtl(io.kernel, if left == {} then DEL else MOD, fd, left, accept);
      if !ok then Done(io, false, []) else TriggerAll(io.(kernel := kernel), fd, reported)
  }

  /** The same for what was reported and is registered. */
  function DispatchRegistered(io: Io, fd: nat, reported: set<Event>, accept: bool): Result {
    Dispatch(io, fd, if fd < |io.ctxs| then reported * io.ctxs[fd].events else {}, accept)
  }

  datatype Poll = IN | OUT | ERR | HUP

  /** What epoll_wait filled in: the tickle pipe, or a descriptor with flags
      (and whether epoll_ctl will succeed for it). */
  datatype Report = Tickle | Ready(fd: nat, flags: set<Poll>, accept: bool)

  /** An error or a hang-up counts as ready for both. */
  function RealEvents(flags: set<Poll>): set<Event> {
    var all := if ERR in flags || HUP in flags then flags + {IN, OUT} else flags;
    (if IN in all then {READ} else {}) + (if OUT in all then {WRITE} else {})
  }

  /** The dispatch loop over everything reported. */
  function DispatchEach(io: Io, reports: seq<Report>): Result {
    if reports == [] then Done(io, true, [])
    else
      match DispatchEach(io, reports[..|reports| - 1])
      case Aborted => Aborted
      case Done(io1, ok, tasks) =>
        match reports[|reports| - 1]
        case Tickle => Done(io1, true, tasks)
        case Ready(fd, flags, accept) =>
          match Dispatch(io1, fd, RealEvents(flags), accept)
          case Aborted => Aborted
          case Done(io2, _, more) => Done(io2, true, tasks + more)
  }

  // ---- the invariant ---------------------------------------------------

  /** A scheduler and exactly one of fiber and callback. */
  predicate Armed(s: Slot) {
    s.scheduler && (s.fiber.Some? <==> s.cb.None?)
  }

  /** A bit is set exactly when its slot is armed; otherwise the slot is
      empty. */
  ghost predicate Matched(c: FdCtx) {
    forall ev :: if ev in c.events then Armed(c.Get(ev)) else c.Get(ev) == EMPTY
  }

  function Count(events: set<Event>): nat {
    (if READ in events then 1 else 0) + if WRITE in events then 1 else 0
  }

  /** The number of registered events. */
  function Bits(ctxs: seq<FdCtx>): nat {
    if ctxs == [] then 0 else Bits(ctxs[..|ctxs| - 1]) + Count(ctxs[|ctxs| - 1].events)
  }

  ghost predicate Inv(io: Io) {
    && |io.ctxs| >= 32
    && (forall i :: 0 <= i < |io.ctxs| ==> Matched(io.ctxs[i]))
    && (forall fd: nat :: fd in io.kernel <==> fd < |io.ctxs| && io.ctxs[fd].events != {})
    && (forall fd: nat :: fd in io.kernel ==> io.kernel[fd] == io.ctxs[fd].events)
    && io.pending == Bits(io.ctxs)
    && io.added == io.fired + io.deleted + io.pending
  }

  lemma {:induction false} BitsUpdate(ctxs: seq<FdCtx>, fd: nat, c: FdCtx)
    requires fd < |ctxs|
    ensures Bits(ctxs[fd := c]) == Bits(ctxs) - Count(ctxs[fd].events) + Count(c.events)
  {
    var n := |ctxs| - 1;
    if fd == n {
      assert ctxs[fd := c][..n] == ctxs[..n];
    } else {
      BitsUpdate(ctxs[..n], fd, c);
      assert ctxs[fd := c][..n] == ctxs[..n][fd := c];
    }
  }

  lemma {:induction false} BitsGrow(ctxs: seq<FdCtx>, r: seq<FdCtx>)
    requires |ctxs| <= |r| && forall i :: 0 <= i < |r| ==> r[i] == if i < |ctxs| then ctxs[i] else NONE
    ensures Bits(r) == Bits(ctxs)
    decreases |r|
  {
    if |r| > |ctxs| {
      BitsGrow(ctxs, r[..|r| - 1]);
    } else {
      assert r == ctxs;
    }
  }

  lemma {:induction false} BitsZero(ctxs: seq<FdCtx>)
    requires Bits(ctxs) == 0
    ensures forall i :: 0 <= i < |ctxs| ==> ctxs[i].events == {}
  {
    if ctxs != [] {
      var n := |ctxs| - 1;
      BitsZero(ctxs[..n]);
      CountZero(ctxs[n].events);
      forall i | 0 <= i < |ctxs| ensures ctxs[i].events == {} {
        assert i < n ==> ctxs[..n][i] == ctxs[i];
      }
    }
  }

  lemma CountZero(events: set<Event>)
    ensures Count(events) == 0 <==> events == {}
  {
    if Count(events) == 0 {
      forall e ensures e !in events {
        match e
        case READ =>
        case WRITE =>
      }
    }
  }

  lemma StartInv()
    ensures Inv(Start()) && |Start().ctxs| == 32 && Start().pending == 0
  {
    BitsGrow([], Start().ctxs);
  }

  lemma HasTable(io: Io)
    requires Inv(io)
    ensures |io.ctxs| >= 32
  {
  }

  // ---- one descriptor changes ------------------------------------------

  /** The kernel holds for `fd` what the table is about to hold. */
  ghost predicate Agrees(kernel: map<nat, set<Event>>, kernel': map<nat, set<Event>>, fd: nat, events: set<Event>) {
    && (fd in kernel' <==> events != {})
    && (fd in kernel' ==> kernel'[fd] == events)
    && (forall i | i != fd :: i in kernel <==> i in kernel')
    && (forall i | i != fd && i in kernel :: kernel[i] == kernel'[i])
  }

  /** The call idle, addEvent, delEvent, cancelEvent and cancelAll make is legal
      for the kernel, and leaves it in agreement. */
  lemma CtlAgrees(io: Io, op: Ctl, fd: nat, events: set<Event>, accept: bool)
    requires Inv(io) && fd < |io.ctxs|
    requires op == if io.ctxs[fd].events == {} then ADD else if events == {} then DEL else MOD
    requires op == ADD ==> events != {}
    ensures var (kernel, ok) := EpollCtl(io.kernel, op, fd, events, accept);
            ok == accept && if ok then Agrees(io.kernel, kernel, fd, events) else kernel == io.kernel
  {
  }

  lemma ReplaceKeeps(io: Io, fd: nat, c: FdCtx, io': Io)
    requires Inv(io) && fd < |io.ctxs| && Matched(c)
    requires io'.ctxs == io.ctxs[fd := c] && Agrees(io.kernel, io'.kernel, fd, c.events)
    requires io'.pending == io.pending - Count(io.ctxs[fd].events) + Count(c.events)
    requires io'.added == io'.fired + io'.deleted + io'.pending
    ensures Inv(io')
  {
    BitsUpdate(io.ctxs, fd, c);
  }

  lemma GrowKeeps(io: Io, fd: nat)
    requires Inv(io)
    ensures Inv(io.(ctxs := Grow(io.ctxs, fd)))
  {
    BitsGrow(io.ctxs, Grow(io.ctxs, fd));
  }

  // ---- who waits for what ----------------------------------------------

  /** The fiber or callback waiting for an event. */
  function Waiting(io: Io, fd: nat, ev: Event): Option<Task> {
    if fd >= |io.ctxs| || ev !in io.ctxs[fd].events then None
    else
      var s := io.ctxs[fd].Get(ev);
      if s.cb.Some? then Some(RunCb(s.cb.value))
      else if s.fiber.Some? then Some(RunFiber(s.fiber.value)) else None
  }

  /** All of `evs` at `fd` now have `who`, and nothing else changed. */
  ghost predicate Moves(io: Io, io': Io, fd: nat, evs: set<Event>, who: Option<Task>) {
    forall i: nat, e :: Waiting(io', i, e) == if i == fd && e in evs then who else Waiting(io, i, e)
  }

  function Listed(t: Option<Task>): seq<Task> {
    if t.Some? then [t.value] else []
  }

  /** The tasks waiting for `evs` at `fd`, READ before WRITE. */
  function Waiters(io: Io, fd: nat, evs: set<Event>): seq<Task> {
    (if READ in evs then Listed(Waiting(io, fd, READ)) else []) +
    (if WRITE in evs then Listed(Waiting(io, fd, WRITE)) else [])
  }

  /** In a good state an event has a waiter exactly when it is registered. */
  lemma WaitingIsRegistered(io: Io, fd: nat, ev: Event)
    requires Inv(io)
    ensures Waiting(io, fd, ev).Some? <==> fd < |io.ctxs| && ev in io.ctxs[fd].events
  {
    if fd < |io.ctxs| {
      assert Matched(io.ctxs[fd]);
    }
  }

  lemma TriggerTakes(c: FdCtx, ev: Event)
    requires Matched(c) && ev in c.events
    ensures Trigger(c, ev).Some?
    ensures var (c', t) := Trigger(c, ev).value;
            && Matched(c') && c' == c.Put(ev, EMPTY).(events := c.events - {ev})
            && |t| == 1
            && t[0] == if c.Get(ev).cb.Some? then RunCb(c.Get(ev).cb.value) else RunFiber(c.Get(ev).fiber.value)
  {
    assert Armed(c.Get(ev));
  }

  lemma TriggerAllTakes(io: Io, fd: nat, evs: set<Event>)
    requires fd < |io.ctxs| && Matched(io.ctxs[fd]) && evs <= io.ctxs[fd].events
    ensures var r := TriggerAll(io, fd, evs);
            && r.Done? && r.ok && r.tasks == Waiters(io, fd, evs)
            && r.io.kernel == io.kernel && r.io.added == io.added && r.io.deleted == io.deleted
            && r.io.pending == io.pending - Count(evs) && r.io.fired == io.fired + Count(evs)
            && |r.io.ctxs| == |io.ctxs| && r.io.ctxs == io.ctxs[fd := r.io.ctxs[fd]]
            && Matched(r.io.ctxs[fd]) && r.io.ctxs[fd].events == io.ctxs[fd].events - evs
            && forall e :: r.io.ctxs[fd].Get(e) == if e in evs then EMPTY else io.ctxs[fd].Get(e)
  {
    var c := io.ctxs[fd];
    var c1 := c;
    if READ in evs {
      TriggerTakes(c, READ);
      c1 := Trigger(c, READ).value.0;
    }
    if WRITE in evs {
      TriggerTakes(c1, WRITE);
    }
    assert c.events - evs == c1.events - (if WRITE in evs then {WRITE} else {}) by {
      forall e ensures e in c.events - evs <==> e in c1.events - (if WRITE in evs then {WRITE} else {}) {
        assert e == READ || e == WRITE;
      }
    }
  }

  lemma CountMinus(events: set<Event>, evs: set<Event>)
    requires evs <= events
    ensures Count(events - evs) == Count(events) - Count(evs)
  {
  }

  // ---- every operation, from a good state -------------------------------

  lemma Registers(c: FdCtx, ev: Event, who: Task)
    requires Matched(c) && ev !in c.events
    ensures c.Get(ev) == EMPTY
    ensures Matched(c.Put(ev, SlotFor(who)).(events := c.events + {ev}))
    ensures Count(c.events + {ev}) == Count(c.events) + 1
  {
    assert Armed(SlotFor(who));
    assert c.events + {ev} - {ev} == c.events;
    CountMinus(c.events + {ev}, {ev});
  }

  /** Growing the table first makes no difference. */
  lemma AddEventGrown(io: Io, fd: nat, ev: Event, who: Task, running: bool, accept: bool)
    requires |io.ctxs| >= 32
    ensures AddEvent(io.(ctxs := Grow(io.ctxs, fd)), fd, ev, who, running, accept)
            == AddEvent(io, fd, ev, who, running, accept)
  {
    hide EpollCtl, SlotFor;
    assert Grow(Grow(io.ctxs, fd), fd) == Grow(io.ctxs, fd);
  }

  lemma AddEventIs(io: Io, fd: nat, ev: Event, who: Task, running: bool, accept: bool)
    requires Inv(io) && fd < |io.ctxs| && ev !in io.ctxs[fd].events
    ensures var c := io.ctxs[fd];
            var r := AddEvent(io, fd, ev, who, running, accept);
            if !accept then r == Done(io, false, [])
            else if who.RunFiber? && !running then r == Aborted
            else
              && r.Done? && r.ok && r.tasks == [] && Agrees(io.kernel, r.io.kernel, fd, c.events + {ev})
              && r.io == io.(ctxs := io.ctxs[fd := c.Put(ev, SlotFor(who)).(events := c.events + {ev})],
                             kernel := r.io.kernel, pending := io.pending + 1, added := io.added + 1)
  {
    hide Bits, Trigger, TriggerAll, Count, SlotFor, EpollCtl, Agrees;
    var c := io.ctxs[fd];
    CtlAgrees(io, if c.events == {} then ADD else MOD, fd, c.events + {ev}, accept);
  }

  lemma AddEventRegisters(io: Io, fd: nat, ev: Event, who: Task, running: bool, accept: bool)
    requires Inv(io) && fd < |io.ctxs| && ev !in io.ctxs[fd].events
    requires accept && who.RunFiber? ==> running
    ensures var r := AddEvent(io, fd, ev, who, running, accept);
            && r.Done? && Inv(r.io) && r.ok == accept && r.tasks == []
            && r.io.pending == io.pending + (if accept then 1 else 0)
            && Moves(io, r.io, fd, if accept then {ev} else {}, Some(who))
  {
    hide Bits, Trigger, TriggerAll, Count, AddEvent, Agrees, Armed;
    AddEventIs(io, fd, ev, who, running, accept);
    Registers(io.ctxs[fd], ev, who);
    if accept {
      var r := AddEvent(io, fd, ev, who, running, accept);
      ReplaceKeeps(io, fd, r.io.ctxs[fd], r.io);
    }
  }

  /** addEvent fails an assertion exactly when the event is registered already,
      or it would register a fiber that is not in EXEC: the slot of an event that
      is not registered is always empty. Otherwise it registers the caller if
      epoll_ctl does, and changes nothing if it does not. */
  lemma AddEventKeeps(io: Io, fd: nat, ev: Event, who: Task, running: bool, accept: bool)
    requires Inv(io)
    ensures var r := AddEvent(io, fd, ev, who, running, accept);
            && (r.Aborted? <==> Waiting(io, fd, ev).Some? || (accept && who.RunFiber? && !running))
            && (r.Done? ==> Inv(r.io) && r.ok == accept && r.tasks == []
                            && r.io.pending == io.pending + (if accept then 1 else 0)
                            && Moves(io, r.io, fd, if accept then {ev} else {}, Some(who)))
  {
    hide Bits, Trigger, TriggerAll, Count, SlotFor, EpollCtl;
    WaitingIsRegistered(io, fd, ev);
    GrowKeeps(io, fd);
    var grown := io.(ctxs := Grow(io.ctxs, fd));
    assert Grow(grown.ctxs, fd) == grown.ctxs;
    assert Moves(io, grown, fd, {}, None);
    if ev !in grown.ctxs[fd].events {
      AddEventIs(grown, fd, ev, who, running, accept);
      assert AddEvent(io, fd, ev, who, running, accept) == AddEvent(grown, fd, ev, who, running, accept);
      if accept && who.RunFiber? ==> running {
        AddEventRegisters(grown, fd, ev, who, running, accept);
      }
    }
  }

  lemma DelEventIs(io: Io, fd: nat, ev: Event, accept: bool)
    requires Inv(io) && fd < |io.ctxs| && ev in io.ctxs[fd].events
    ensures var c := io.ctxs[fd];
            var c' := c.Put(ev, EMPTY).(events := c.events - {ev});
            var r := DelEvent(io, fd, ev, accept);
            && Matched(c') && Count(c'.events) == Count(c.events) - 1
            && if !accept then r == Done(io, false, [])
               else
                 && r.Done? && r.ok && r.tasks == [] && Agrees(io.kernel, r.io.kernel, fd, c'.events)
                 && r.io == io.(ctxs := io.ctxs[fd := c'], kernel := r.io.kernel, pending := io.pending - 1,
                                deleted := io.deleted + 1)
  {
    hide Bits, EpollCtl, Agrees, Count;
    var c := io.ctxs[fd];
    var left := c.events - {ev};
    CtlAgrees(io, if left == {} then DEL else MOD, fd, left, accept);
    assert Matched(c);
    CountMinus(c.events, {ev});
    CountOne(ev);
  }

  lemma CountOne(ev: Event)
    ensures Count({ev}) == 1
  {
  }

  /** delEvent never fails an assertion and forgets the waiter. */
  lemma DelEventKeeps(io: Io, fd: nat, ev: Event, accept: bool)
    requires Inv(io)
    ensures var r := DelEvent(io, fd, ev, accept);
            && r.Done? && Inv(r.io) && r.tasks == []
            && r.ok == (accept && Waiting(io, fd, ev).Some?)
            && Moves(io, r.io, fd, if r.ok then {ev} else {}, None)
            && r.io.pending == io.pending - if r.ok then 1 else 0
  {
    hide Bits, Agrees, Count, Matched, Armed, EpollCtl;
    WaitingIsRegistered(io, fd, ev);
    if fd < |io.ctxs| && ev in io.ctxs[fd].events {
      DelEventIs(io, fd, ev, accept);
      if accept {
        var r := DelEvent(io, fd, ev, accept);
        ReplaceKeeps(io, fd, r.io.ctxs[fd], r.io);
      }
    }
  }

  /** What cancelEvent, cancelAll and idle have in common: the kernel is told
      what is left, and the waiters of `evs` are scheduled. */
  lemma FireKeeps(io: Io, fd: nat, evs: set<Event>, accept: bool)
    requires Inv(io) && fd < |io.ctxs| && evs <= io.ctxs[fd].events && evs != {}
    ensures var left := io.ctxs[fd].events - evs;
            var (kernel, ok) := EpollCtl(io.kernel, if left == {} then DEL else MOD, fd, left, accept);
            ok == accept && if !ok then kernel == io.kernel
            else
              var r := TriggerAll(io.(kernel := kernel), fd, evs);
              && r.Done? && Inv(r.io) && r.ok && r.tasks == Waiters(io, fd, evs)
              && Moves(io, r.io, fd, evs, None)
              && r.io.pending == io.pending - Count(evs)
              && |r.io.ctxs| == |io.ctxs| && r.io.ctxs[fd].events == left
  {
    hide Trigger, TriggerAll, Bits, Matched, Agrees, Count, Moves, Waiting, Waiters;
    var left := io.ctxs[fd].events - evs;
    var op := if left == {} then DEL else MOD;
    CtlAgrees(io, op, fd, left, accept);
    assert Matched(io.ctxs[fd]);
    if accept {
      var kernel := EpollCtl(io.kernel, op, fd, left, accept).0;
      TriggerAllTakes(io.(kernel := kernel), fd, evs);
      SameWaiters(io, kernel, fd, evs);
      CountMinus(io.ctxs[fd].events, evs);
      var r := TriggerAll(io.(kernel := kernel), fd, evs);
      ReplaceKeeps(io, fd, r.io.ctxs[fd], r.io);
      Emptied(io, r.io, fd, evs);
    }
  }

  lemma SameWaiters(io: Io, kernel: map<nat, set<Event>>, fd: nat, evs: set<Event>)
    ensures Waiters(io.(kernel := kernel), fd, evs) == Waiters(io, fd, evs)
  {
  }

  /** Who waits after some slots of a descriptor were emptied. */
  lemma Emptied(io: Io, io': Io, fd: nat, evs: set<Event>)
    requires fd < |io.ctxs| == |io'.ctxs| && io'.ctxs == io.ctxs[fd := io'.ctxs[fd]]
    requires io'.ctxs[fd].events == io.ctxs[fd].events - evs
    requires forall e :: io'.ctxs[fd].Get(e) == if e in evs then EMPTY else io.ctxs[fd].Get(e)
    ensures Moves(io, io', fd, evs, None)
  {
  }

  /** cancelEvent never fails an assertion and schedules the waiter. */
  lemma CancelEventKeeps(io: Io, fd: nat, ev: Event, accept: bool)
    requires Inv(io)
    ensures var r := CancelEvent(io, fd, ev, accept);
            && r.Done? && Inv(r.io) && r.ok == (accept && Waiting(io, fd, ev).Some?)
            && r.tasks == (if r.ok then Waiters(io, fd, {ev}) else [])
            && r.io.pending == io.pending - (if r.ok then 1 else 0)
            && Moves(io, r.io, fd, if r.ok then {ev} else {}, None)
  {
    hide Trigger, TriggerAll, Waiters, Bits, EpollCtl, Waiting;
    WaitingIsRegistered(io, fd, ev);
    if fd < |io.ctxs| && ev in io.ctxs[fd].events {
      FireKeeps(io, fd, {ev}, accept);
    }
  }

  /** cancelAll never fails an assertion, its last one included, and schedules
      every waiter of the descriptor. */
  lemma CancelAllKeeps(io: Io, fd: nat, accept: bool)
    requires Inv(io)
    ensures var r := CancelAll(io, fd, accept);
            && r.Done? && Inv(r.io)
            && r.ok == (accept && exists ev :: Waiting(io, fd, ev).Some?)
            && r.tasks == (if r.ok then Waiters(io, fd, {READ, WRITE}) else [])
            && r.io.pending == io.pending - |r.tasks|
            && Moves(io, r.io, fd, if r.ok then {READ, WRITE} else {}, None)
  {
    hide Trigger, TriggerAll, Bits, EpollCtl;
    WaitingIsRegistered(io, fd, READ);
    WaitingIsRegistered(io, fd, WRITE);
    if fd < |io.ctxs| && io.ctxs[fd].events != {} {
      var evs := io.ctxs[fd].events;
      CountZero(evs);
      assert evs - evs == {};
      FireKeeps(io, fd, evs, accept);
    }
  }

  /** A turn of the dispatch loop, for what was reported and is registered. */
  lemma DispatchKeeps(io: Io, fd: nat, reported: set<Event>, accept: bool)
    requires Inv(io) && fd < |io.ctxs|
    ensures var r := DispatchRegistered(io, fd, reported, accept);
            && r.Done? && Inv(r.io)
            && r.ok == (accept && exists ev :: ev in reported && Waiting(io, fd, ev).Some?)
            && r.tasks == (if r.ok then Waiters(io, fd, reported) else [])
            && r.io.pending == io.pending - |r.tasks|
            && Moves(io, r.io, fd, if r.ok then reported else {}, None)
  {
    hide Trigger, TriggerAll, Bits, EpollCtl;
    WaitingIsRegistered(io, fd, READ);
    WaitingIsRegistered(io, fd, WRITE);
    var evs := io.ctxs[fd].events * reported;
    assert reported * io.ctxs[fd].events == evs;
    assert io.ctxs[fd].events * evs == evs;
    if evs != {} {
      CountZero(evs);
      FireKeeps(io, fd, evs, accept);
    }
  }

  /** As written, the loop fails triggerEvent's assertion exactly when a
      descriptor that is reported for a registered event is also reported for
      one that is not; otherwise it does the same. */
  lemma DispatchAborts(io: Io, fd: nat, reported: set<Event>, accept: bool)
    requires Inv(io) && fd < |io.ctxs|
    ensures Dispatch(io, fd, reported, accept).Aborted? <==>
            accept && io.ctxs[fd].events * reported != {} && !(reported <= io.ctxs[fd].events)
    ensures Dispatch(io, fd, reported, accept).Done? ==>
            Dispatch(io, fd, reported, accept) == DispatchRegistered(io, fd, reported, accept)
  {
    hide Bits, EpollCtl;
    var c := io.ctxs[fd];
    var left := c.events - reported;
    if c.events * reported != {} {
      CtlAgrees(io, if left == {} then DEL else MOD, fd, left, accept);
      if reported <= c.events {
        assert reported * c.events == reported;
        FireKeeps(io, fd, reported, accept);
      } else {
        SubsetByCases(reported, c.events);
      }
    }
  }

  lemma SubsetByCases(a: set<Event>, b: set<Event>)
    ensures a <= b <==> (READ in a ==> READ in b) && (WRITE in a ==> WRITE in b)
  {
    if (READ in a ==> READ in b) && (WRITE in a ==> WRITE in b) {
      forall e | e in a ensures e in b {
        match e
        case READ =>
        case WRITE =>
      }
    }
  }

  /** A descriptor registered for READ that hangs up is reported with EPOLLHUP,
      which counts as ready for both. */
  lemma HangUpAborts(who: Task)
    ensures var r := AddEvent(Start(), 5, READ, who, true, true);
            r.Done? && DispatchEach(r.io, [Ready(5, {HUP}, true)]).Aborted?
  {
    hide Bits, AddEvent, Dispatch, DispatchRegistered, Inv;
    StartInv();
    AddEventKeeps(Start(), 5, READ, who, true, true);
    var io := AddEvent(Start(), 5, READ, who, true, true).io;
    WaitingIsRegistered(io, 5, READ);
    WaitingIsRegistered(io, 5, WRITE);
    assert Waiting(io, 5, READ).Some? && Waiting(io, 5, WRITE).None?;
    assert RealEvents({HUP}) == {READ, WRITE};
    DispatchAborts(io, 5, {READ, WRITE}, true);
    assert READ in io.ctxs[5].events * {READ, WRITE};
    DispatchTurn(io, Ready(5, {HUP}, true));
  }

  /** One turn of the dispatch loop, from the flags epoll_wait filled in: EPOLLIN
      is for whoever waits to read, EPOLLOUT for whoever waits to write, an error
      or a hang-up for both. The reader is scheduled first, both slots are
      emptied, and nobody else is touched. It fails exactly when one of the two
      waits and the flags are also for the other, who does not. */
  lemma TurnExact(io: Io, fd: nat, flags: set<Poll>, accept: bool)
    requires Inv(io) && fd < |io.ctxs|
    ensures var r := DispatchEach(io, [Ready(fd, flags, accept)]);
            var toRead, toWrite := {IN, ERR, HUP} * flags != {}, {OUT, ERR, HUP} * flags != {};
            var reader := if toRead then Waiting(io, fd, READ) else None;
            var writer := if toWrite then Waiting(io, fd, WRITE) else None;
            && (r.Aborted? <==> && accept && (reader.Some? || writer.Some?)
                                && ((toRead && reader.None?) || (toWrite && writer.None?)))
            && (r.Done? && !accept ==> r.io == io && r.tasks == [])
            && (r.Done? && accept ==>
                  && Inv(r.io) && r.tasks == Listed(reader) + Listed(writer)
                  && forall i: nat, e ::
                       Waiting(r.io, i, e) == if i == fd && (if e == READ then toRead else toWrite) then None
                                              else Waiting(io, i, e))
  {
    hide Inv, Dispatch, DispatchRegistered, RealEvents, Waiting, Bits;
    var reported := RealEvents(flags);
    RealEventsAre(flags);
    DispatchTurn(io, Ready(fd, flags, accept));
    DispatchAborts(io, fd, reported, accept);
    DispatchKeeps(io, fd, reported, accept);
    WaitingIsRegistered(io, fd, READ);
    WaitingIsRegistered(io, fd, WRITE);
    SubsetByCases(reported, io.ctxs[fd].events);
    Meets(reported, io.ctxs[fd].events);
    if !accept {
      NotRefused(io, fd, reported, accept);
    }
  }

  lemma RealEventsAre(flags: set<Poll>)
    ensures READ in RealEvents(flags) <==> {IN, ERR, HUP} * flags != {}
    ensures WRITE in RealEvents(flags) <==> {OUT, ERR, HUP} * flags != {}
  {
    assert IN in flags ==> IN in {IN, ERR, HUP} * flags;
    assert ERR in flags ==> ERR in {IN, ERR, HUP} * flags && ERR in {OUT, ERR, HUP} * flags;
    assert HUP in flags ==> HUP in {IN, ERR, HUP} * flags && HUP in {OUT, ERR, HUP} * flags;
    assert OUT in flags ==> OUT in {OUT, ERR, HUP} * flags;
  }

  lemma Meets(a: set<Event>, b: set<Event>)
    ensures b * a != {} <==> (READ in a && READ in b) || (WRITE in a && WRITE in b)
  {
    assert READ in a && READ in b ==> READ in b * a;
    assert WRITE in a && WRITE in b ==> WRITE in b * a;
    if !(READ in a && READ in b) && !(WRITE in a && WRITE in b) {
      forall e ensures e !in b * a {
        assert e == READ || e == WRITE;
      }
    }
  }

  /** Without the kernel's consent nothing changes. */
  lemma NotRefused(io: Io, fd: nat, reported: set<Event>, accept: bool)
    requires Inv(io) && fd < |io.ctxs| && !accept
    ensures Dispatch(io, fd, reported, accept) == Done(io, false, [])
  {
    hide Bits;
    var left := io.ctxs[fd].events - reported;
    if io.ctxs[fd].events * reported != {} {
      CtlAgrees(io, if left == {} then DEL else MOD, fd, left, accept);
    }
  }

  lemma DispatchTurn(io: Io, report: Report)
    requires report.Ready?
    ensures DispatchEach(io, [report]) ==
            match Dispatch(io, report.fd, RealEvents(report.flags), report.accept)
            case Aborted => Aborted
            case Done(io', _, tasks) => Done(io', true, tasks)
  {
    hide Dispatch, RealEvents;
    assert [report][..0] == [];
    assert forall tasks: seq<Task> :: [] + tasks == tasks;
  }

  /** A dispatch loop that fails no assertion keeps the invariant and schedules
      one task for each pending event it takes away. */
  lemma {:induction false} DispatchEachKeeps(io: Io, reports: seq<Report>)
    requires Inv(io)
    ensures var r := DispatchEach(io, reports);
            r.Done? ==> Inv(r.io) && r.io.pending == io.pending - |r.tasks|
  {
    hide Inv, DispatchRegistered, Dispatch, Waiters, Moves, RealEvents;
    if reports != [] {
      var front := reports[..|reports| - 1];
      DispatchEachKeeps(io, front);
      var r := DispatchEach(io, front);
      var last := reports[|reports| - 1];
      if r.Done? && last.Ready? {
        DispatchSafe(r.io, last.fd, RealEvents(last.flags), last.accept);
      }
    }
  }

  lemma DispatchSafe(io: Io, fd: nat, reported: set<Event>, accept: bool)
    requires Inv(io)
    ensures var r := Dispatch(io, fd, reported, accept);
            r.Done? ==> Inv(r.io) && r.io.pending == io.pending - |r.tasks|
  {
    hide Inv, DispatchRegistered, Waiters, Moves, EpollCtl, TriggerAll;
    if fd < |io.ctxs| {
      DispatchAborts(io, fd, reported, accept);
      DispatchKeeps(io, fd, reported, accept);
    }
  }
}
