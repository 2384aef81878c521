/** No fiber is lost: a ticket is where the history says it is, and whoever waits
    has one. */
module Whereabouts {
  import opened Options
  import opened IoSpec
  import opened SchedSpec
  import opened Protocol
  import opened Interleavings

  /** The ticket of fiber `f` is there. */
  ghost predicate There(p: World, f: nat)
    requires f < |p.fibs|
  {
    match p.fibs[f].loc
    case Nowhere => true
    case InQueue => Queued(p.sched.queue, RunFiber(f))
    case WakeQueued => Queued(p.sched.queue, RunCb(Wake(f)))
    case AtSlot(fd, ev) => Waiting(p.io, fd, ev) == Some(RunFiber(f))
    case AtTimer(t) => t < |p.timers| && p.timers[t].cb == Some(Wake(f))
    case InHand(w) => w < |p.workers| && p.workers[w].phase == Taken(RunFiber(f))
    case Waking(w) => w < |p.workers| && Wakes(p.workers[w].phase, f)
    case Forgotten => p.fibs[f].stage.IoParked?
  }

  ghost predicate Queued(queue: seq<Entry>, task: Task) {
    exists i :: 0 <= i < |queue| && queue[i].task == task
  }

  predicate Wakes(k: Phase, f: nat) {
    k == Taken(RunCb(Wake(f))) || (k.Running? && k.todo == Some(Wake(f)))
  }

  /** A fiber can do without a ticket: it goes on, has ended, is a worker's spare,
      or yielded to hold without waiting for anything. */
  predicate Rests(p: World, f: nat)
    requires f < |p.fibs| == |p.sched.states|
  {
    var b := p.fibs[f];
    match p.sched.states[f]
    case EXEC => !Unyielded(b.stage)
    case HOLD => b.stage == Free
    case READY => false
    case INIT => b.on < |p.workers| && p.workers[b.on].cached == Some(f)
    case _ => true
  }

  /** The timer of a do_io call never wakes a sleeper. */
  predicate Harmless(timers: seq<Clock>, s: Stage) {
    (s.IoReady? || s.IoParked?) && s.timer.Some? ==>
      s.timer.value < |timers| && (timers[s.timer.value].cb.Some? ==> !timers[s.timer.value].cb.value.Wake?)
  }

  ghost predicate Home(p: World, f: nat)
    requires f < |p.fibs| == |p.sched.states|
  {
    There(p, f) && (p.fibs[f].loc == Nowhere ==> Rests(p, f))
  }

  /** A worker that runs a callback's fiber has given away its spare. */
  predicate Spareless(k: Worker) {
    k.phase.Running? && k.phase.viaCb ==> k.cached.None?
  }

  /** All is well but for the fibers in `lost`. */
  ghost predicate KnownBut(p: World, lost: set<nat>) {
    && |p.sched.states| == |p.fibs|
    && (forall f :: 0 <= f < |p.fibs| && f !in lost ==> Home(p, f))
    && (forall f :: 0 <= f < |p.fibs| ==> Harmless(p.timers, p.fibs[f].stage))
    && (forall w :: 0 <= w < |p.workers| ==> Spareless(p.workers[w]))
  }

  ghost predicate Known(p: World) {
    KnownBut(p, {})
  }

  // ---- schedule ------------------------------------------------------------

  lemma QueuedPushed(queue: seq<Entry>, e: Entry, task: Task)
    ensures Queued(queue + [e], task) <==> Queued(queue, task) || e.task == task
  {
    if Queued(queue, task) {
      var i :| 0 <= i < |queue| && queue[i].task == task;
      assert (queue + [e])[i].task == task;
    }
    assert (queue + [e])[|queue|] == e;
  }

  lemma QueuedWithout(queue: seq<Entry>, k: nat, task: Task)
    requires k < |queue|
    ensures Queued(queue, task) && queue[k].task != task ==> Queued(Without(queue, k), task)
  {
    if Queued(queue, task) && queue[k].task != task {
      var i :| 0 <= i < |queue| && queue[i].task == task;
      assert Without(queue, k)[if i < k then i else i - 1].task == task;
    }
  }

  /** What is queued is not lost any more. */
  lemma PushedKnown(p: World, task: Task, pin: Option<nat>, lost: set<nat>)
    requires KnownBut(p, lost)
    ensures KnownBut(Pushed(p, task, pin), if Ticket(task).Some? then lost - {Ticket(task).value} else lost)
  {
    hide Waiting, Wakes, Queued;
    var q := Pushed(p, task, pin);
    forall f | 0 <= f < |q.fibs| && (f !in lost || Ticket(task) == Some(f)) ensures Home(q, f) {
      QueuedPushed(p.sched.queue, Entry(task, pin), RunFiber(f));
      QueuedPushed(p.sched.queue, Entry(task, pin), RunCb(Wake(f)));
    }
  }

  // ---- the steps of run ------------------------------------------------------

  lemma TakeKnown(p: World, w: nat)
    requires Good(p) && Known(p) && Loops(p, w) && !NothingFor(p, w)
    ensures Known(DoTake(p, w))
  {
    hide Core, Waiting, Queued, TakeIndex;
    var k := TakeIndex(p.sched.queue, p.sched.states, w);
    EntryFacts(p, k);
    var q := DoTake(p, w);
    forall f | 0 <= f < |q.fibs| ensures Home(q, f) {
      assert Home(p, f);
      QueuedWithout(p.sched.queue, k, RunFiber(f));
      QueuedWithout(p.sched.queue, k, RunCb(Wake(f)));
    }
  }

  lemma StartKnown(p: World, w: nat)
    requires Good(p) && Known(p) && w < |p.workers| && p.workers[w].phase.Taken?
    ensures DoStart(p, w).Next? ==> Known(DoStart(p, w).p)
  {
    hide Core, Waiting, Queued, Home, Harmless;
    WorkerFacts(p, w);
    match p.workers[w].phase.task
    case RunFiber(f) => StartFiberKnown(p, w, f);
    case RunCb(cb) =>
      if p.workers[w].cached.Some? {
        StartSpareKnown(p, w, p.workers[w].cached.value, cb);
      } else {
        StartFreshKnown(p, w, cb);
      }
  }

  lemma StartFiberKnown(p: World, w: nat, f: nat)
    requires Good(p) && Known(p) && w < |p.workers| && p.workers[w].phase == Taken(RunFiber(f))
    ensures DoStart(p, w).Next? ==> Known(DoStart(p, w).p)
  {
    hide Core, Waiting, Queued;
    StartFiber(p, w, f);
    Facts(p, f);
    var q := DoStart(p, w).p;
    forall g | 0 <= g < |q.fibs| ensures Home(q, g) {
      assert Home(p, g);
    }
  }

  lemma StartSpareKnown(p: World, w: nat, c: nat, cb: Callback)
    requires Good(p) && Known(p) && w < |p.workers| && p.workers[w].phase == Taken(RunCb(cb))
    requires p.workers[w].cached == Some(c)
    ensures DoStart(p, w).Next? ==> Known(DoStart(p, w).p)
  {
    hide Core, Waiting, Queued;
    WorkerFacts(p, w);
    if DoStart(p, w).Next? {
      var q := DoStart(p, w).p;
      forall g | 0 <= g < |q.fibs| ensures Home(q, g) {
        assert Home(p, g);
      }
    }
  }

  lemma StartFreshKnown(p: World, w: nat, cb: Callback)
    requires Good(p) && Known(p) && w < |p.workers| && p.workers[w].phase == Taken(RunCb(cb))
    requires p.workers[w].cached == None
    ensures DoStart(p, w).Next? ==> Known(DoStart(p, w).p)
  {
    hide Core, Waiting, Queued;
    if DoStart(p, w).Next? {
      var q := DoStart(p, w).p;
      forall g | 0 <= g < |q.fibs| ensures Home(q, g) {
        assert g < |p.fibs| ==> Home(p, g);
      }
    }
  }

  /** What a fiber that swaps out leaves behind. */
  lemma LeftIs(p: World, w: nat, t: State)
    requires Acts(p, w) && (t == HOLD || t == READY || t == TERM || t == EXCEPT)
    ensures var k := p.workers[w];
            var f := k.phase.f;
            var kept := k.phase.viaCb && (t == TERM || t == EXCEPT);
            var s := p.sched.(states := p.sched.states[f := if kept then INIT else t], active := p.sched.active - 1);
            Left(p, w, t) == p.(sched := if t == READY then Push(s, Entry(RunFiber(f), None)) else s,
                                workers := p.workers[w := Worker(Looping, if kept then Some(f) else k.cached, k.idle)])
  {
    var f := p.workers[w].phase.f;
    assert p.sched.states[f := t][f := HOLD] == p.sched.states[f := HOLD];
    assert p.sched.states[f := t][f := INIT] == p.sched.states[f := INIT];
  }

  lemma LeftKnown(p: World, w: nat, t: State)
    requires Good(p) && Known(p) && Acts(p, w) && StageOf(p, w) == Free && (t == TERM || t == EXCEPT)
    ensures Known(Left(p, w, t))
  {
    hide Core, Waiting, Queued, Left;
    WorkerFacts(p, w);
    Facts(p, p.workers[w].phase.f);
    LeftIs(p, w, t);
    var q := Left(p, w, t);
    forall f | 0 <= f < |q.fibs| ensures Home(q, f) {
      assert Home(p, f);
    }
  }

  lemma YieldHoldKnown(p: World, w: nat)
    requires Good(p) && Known(p) && Acts(p, w) && (StageOf(p, w) == Free || Unyielded(StageOf(p, w)))
    ensures Known(DoYieldHold(p, w))
  {
    hide Core, Waiting, Queued, Left;
    WorkerFacts(p, w);
    LeftIs(p, w, HOLD);
    var q := DoYieldHold(p, w);
    forall f | 0 <= f < |q.fibs| ensures Home(q, f) {
      assert Home(p, f);
    }
  }

  lemma YieldReadyKnown(p: World, w: nat)
    requires Good(p) && Known(p) && Acts(p, w) && StageOf(p, w) == Free
    ensures Known(DoYieldReady(p, w))
  {
    hide Core, Waiting, Queued, Left;
    WorkerFacts(p, w);
    LeftIs(p, w, READY);
    var q := DoYieldReady(p, w);
    var e := Entry(RunFiber(p.workers[w].phase.f), None);
    forall f | 0 <= f < |q.fibs| ensures Home(q, f) {
      assert Home(p, f);
      QueuedPushed(p.sched.queue, e, RunFiber(f));
      QueuedPushed(p.sched.queue, e, RunCb(Wake(f)));
    }
  }

  // ---- slots -----------------------------------------------------------------

  /** The fiber that waits for an event of a descriptor, if one does. */
  function Waiter(x: Option<Task>): set<nat> {
    if x.Some? && x.value.RunFiber? then {x.value.fiber} else {}
  }

  /** Slots are emptied, and their fibers lost for now. */
  lemma EmptiedKnown(p: World, io: Io, fd: nat, evs: set<Event>, r: Option<Task>, x: Option<Task>)
    requires Good(p) && Known(p) && Moves(p.io, io, fd, evs, None)
    requires r == (if READ in evs then Waiting(p.io, fd, READ) else None)
    requires x == (if WRITE in evs then Waiting(p.io, fd, WRITE) else None)
    ensures KnownBut(p.(io := io), Waiter(r) + Waiter(x))
  {
    hide Core, Waiting, Queued, Wakes, Harmless;
    var q := p.(io := io);
    forall f | 0 <= f < |q.fibs| && f !in Waiter(r) + Waiter(x) ensures Home(q, f) {
      assert Home(p, f);
      if p.fibs[f].loc.AtSlot? {
        var e := p.fibs[f].loc.ev;
        assert e == READ || e == WRITE;
      }
    }
  }

  lemma WaiterKnown(p: World, x: Option<Task>, lost: set<nat>)
    requires KnownBut(p, lost) && (x.Some? && x.value.RunCb? ==> x.value.cb.User?)
    ensures KnownBut(if x.Some? then Pushed(p, x.value, None) else p, lost - Waiter(x))
  {
    hide KnownBut, Pushed;
    if x.Some? {
      PushedKnown(p, x.value, None, lost);
    }
    assert lost - {} == lost;
  }

  /** The waiters of emptied slots leave for the list. */
  lemma HandedKnown(p: World, r: Result, fd: nat, evs: set<Event>)
    requires Good(p) && Known(p) && r.Done? && Moves(p.io, r.io, fd, evs, None) && r.tasks == Waiters(p.io, fd, evs)
    ensures Handed(p, r).Next? && Known(Handed(p, r).p)
  {
    hide Core, Waiting, Pushed, Moves, KnownBut;
    var a := if READ in evs then Waiting(p.io, fd, READ) else None;
    var b := if WRITE in evs then Waiting(p.io, fd, WRITE) else None;
    EmptiedKnown(p, r.io, fd, evs, a, b);
    PushedTwo(p.(io := r.io), a, b);
    WaiterFacts(p, fd, READ);
    WaiterFacts(p, fd, WRITE);
    var lost := Waiter(a) + Waiter(b);
    var p1 := p.(io := r.io);
    WaiterKnown(p1, a, lost);
    WaiterKnown(if a.Some? then Pushed(p1, a.value, None) else p1, b, lost - Waiter(a));
    assert lost - Waiter(a) - Waiter(b) == {};
    assert r.tasks == Listed(a) + Listed(b);
  }

  lemma CancelKnown(p: World, fd: nat, ev: Event, accept: bool)
    requires Good(p) && Known(p)
    ensures Handed(p, CancelEvent(p.io, fd, ev, accept)).Next? ==> Known(Handed(p, CancelEvent(p.io, fd, ev, accept)).p)
  {
    hide Core, IoSpec.Inv, Waiting, Moves, CancelEvent, Handed, KnownBut;
    Sizes(p);
    CancelEventKeeps(p.io, fd, ev, accept);
    var r := CancelEvent(p.io, fd, ev, accept);
    HandedKnown(p, r, fd, if r.ok then {ev} else {});
  }

  lemma CancelEveryKnown(p: World, fd: nat, accept: bool)
    requires Good(p) && Known(p)
    ensures Handed(p, CancelAll(p.io, fd, accept)).Next? ==> Known(Handed(p, CancelAll(p.io, fd, accept)).p)
  {
    hide Core, IoSpec.Inv, Waiting, Moves, CancelAll, Handed, KnownBut;
    Sizes(p);
    CancelAllKeeps(p.io, fd, accept);
    var r := CancelAll(p.io, fd, accept);
    HandedKnown(p, r, fd, if r.ok then {READ, WRITE} else {});
  }

  lemma PollKnown(p: World, fd: nat, reported: set<Event>, accept: bool)
    requires Good(p) && Known(p) && fd < |p.io.ctxs|
    ensures Handed(p, Dispatch(p.io, fd, reported, accept)).Next? ==>
              Known(Handed(p, Dispatch(p.io, fd, reported, accept)).p)
  {
    hide Core, IoSpec.Inv, Waiting, Moves, Dispatch, DispatchRegistered, PushedAll, KnownBut;
    Sizes(p);
    DispatchAborts(p.io, fd, reported, accept);
    DispatchKeeps(p.io, fd, reported, accept);
    var r := DispatchRegistered(p.io, fd, reported, accept);
    HandedKnown(p, r, fd, if r.ok then reported else {});
  }

  /** delEvent loses the waiter, and the history says so. */
  lemma DelKnown(p: World, fd: nat, ev: Event, accept: bool)
    requires Good(p) && Known(p)
    ensures DoDel(p, fd, ev, accept).Next? ==> Known(DoDel(p, fd, ev, accept).p)
  {
    hide Core, IoSpec.Inv, Waiting, Moves, DelEvent, KnownBut, Forget;
    Sizes(p);
    DelEventKeeps(p.io, fd, ev, accept);
    var r := DelEvent(p.io, fd, ev, accept);
    var x := if r.ok then Waiting(p.io, fd, ev) else None;
    var evs := if r.ok then {ev} else {};
    EmptiedKnown(p, r.io, fd, evs, if READ in evs then x else None, if WRITE in evs then x else None);
    WaiterFacts(p, fd, ev);
    ForgetKnown(p.(io := r.io), fd, ev, x,
                (if READ in evs then Waiter(x) else {}) + (if WRITE in evs then Waiter(x) else {}));
  }

  lemma ForgetKnown(p: World, fd: nat, ev: Event, x: Option<Task>, lost: set<nat>)
    requires KnownBut(p, lost) && lost == Waiter(x) && SlotOk(x, fd, ev, p.fibs)
    ensures Known(Forget(p, x))
  {
    hide Waiting, Queued, Wakes, Harmless;
    var q := Forget(p, x);
    forall f | 0 <= f < |q.fibs| ensures Home(q, f) {
      assert f !in lost ==> Home(p, f);
    }
  }

  lemma AddCbKnown(p: World, fd: nat, ev: Event, n: nat, accept: bool)
    requires Good(p) && Known(p) && |p.io.ctxs| >= 32
    ensures DoAddCb(p, fd, ev, n, accept).Next? ==> Known(DoAddCb(p, fd, ev, n, accept).p)
  {
    hide Core, IoSpec.Inv, Waiting, AddEvent, Queued, Wakes, Harmless;
    Sizes(p);
    AddEventKeeps(p.io, fd, ev, RunCb(User(n)), true, accept);
    var r := AddEvent(p.io, fd, ev, RunCb(User(n)), true, accept);
    if r.Done? {
      SlotTakenKnown(p, r.io, fd, if accept then {ev} else {}, RunCb(User(n)));
    }
  }

  /** An empty slot is taken. */
  lemma SlotTakenKnown(p: World, io: Io, fd: nat, evs: set<Event>, who: Task)
    requires Known(p) && Moves(p.io, io, fd, evs, Some(who)) && forall e <- evs :: Waiting(p.io, fd, e) == None
    ensures Known(p.(io := io))
  {
    hide Waiting, Queued, Wakes, Harmless;
    var q := p.(io := io);
    forall f | 0 <= f < |q.fibs| ensures Home(q, f) {
      assert Home(p, f);
    }
  }

  // ---- timers and callbacks --------------------------------------------------

  lemma TodoKnown(p: World, w: nat, accept: bool)
    requires Good(p) && Known(p) && Runs(p, w) && p.workers[w].phase.todo.Some?
    ensures DoTodo(p, w, accept).Next? ==> Known(DoTodo(p, w, accept).p)
  {
    hide Core, Waiting, Pushed, Handed, CancelEvent, KnownBut;
    var p1 := SetPhase(p, w, p.workers[w].phase.(todo := None));
    RunKnown(p, w);
    WorkerFacts(p, w);
    match p.workers[w].phase.todo.value
    case User(_) =>
    case Timeout(i, fd, ev) =>
      if i < |p.infos| && p.infos[i].alive && !p.infos[i].cancelled {
        var p2 := p1.(infos := p.infos[i := Info(true, true)]);
        TodoGood(p, w);
        InfosAreFree(p1, p2.infos);
        InfosKnown(p1, p2.infos);
        CancelKnown(p2, fd, ev, accept);
      }
    case Wake(f) =>
      PushedKnown(p1, RunFiber(f), None, {f});
      assert {f} - {f} == {};
  }

  /** The callback a worker has taken no longer counts as its ticket. */
  lemma RunKnown(p: World, w: nat)
    requires Known(p) && Runs(p, w) && p.workers[w].phase.todo.Some?
    ensures var cb := p.workers[w].phase.todo.value;
            KnownBut(SetPhase(p, w, p.workers[w].phase.(todo := None)), if cb.Wake? then {cb.fiber} else {})
  {
    hide Waiting, Queued, Harmless;
    var cb := p.workers[w].phase.todo.value;
    var q := SetPhase(p, w, p.workers[w].phase.(todo := None));
    forall f | 0 <= f < |q.fibs| && !(cb == Wake(f)) ensures Home(q, f) {
      assert Home(p, f);
    }
  }

  lemma InfosKnown(p: World, infos: seq<Info>)
    requires Known(p)
    ensures Known(p.(infos := infos))
  {
    hide Waiting, Queued, Wakes, Harmless;
    forall f | 0 <= f < |p.fibs| ensures Home(p.(infos := infos), f) {
      assert Home(p, f);
    }
  }

  /** A timer that is stopped wakes nobody, unless a sleeper is lost. */
  lemma StoppedKnown(p: World, t: nat)
    requires Known(p) && t < |p.timers| && p.timers[t].cb.Some?
    ensures var cb := p.timers[t].cb.value; KnownBut(Stopped(p, Some(t)), if cb.Wake? then {cb.fiber} else {})
  {
    hide Waiting, Queued, Wakes;
    var q := Stopped(p, Some(t));
    forall f | 0 <= f < |q.fibs| && p.timers[t].cb != Some(Wake(f)) ensures Home(q, f) {
      assert Home(p, f);
    }
  }

  lemma ExpireKnown(p: World, t: nat)
    requires Good(p) && Known(p) && t < |p.timers| && p.timers[t].cb.Some?
    ensures Known(DoExpire(p, t))
  {
    hide Core, Waiting, Pushed, KnownBut;
    ClockFacts(p, t);
    StoppedKnown(p, t);
    var cb := p.timers[t].cb.value;
    var p1 := if p.timers[t].recurring then p else Stopped(p, Some(t));
    var lost := if cb.Wake? then {cb.fiber} else {};
    PushedKnown(p1, RunCb(cb), None, lost);
    assert lost - lost == {};
  }

  lemma TimerKnown(p: World, c: Clock)
    requires Known(p)
    ensures Known(p.(timers := p.timers + [c]))
  {
    hide Waiting, Queued, Wakes;
    var q := p.(timers := p.timers + [c]);
    forall f | 0 <= f < |q.fibs| ensures Home(q, f) && Harmless(q.timers, q.fibs[f].stage) {
      assert Home(p, f) && Harmless(p.timers, p.fibs[f].stage);
    }
  }

  // ---- do_io and sleep ---------------------------------------------------------

  /** A fiber that goes on moves to another stage. */
  lemma StageKnown(p: World, w: nat, s: Stage)
    requires Good(p) && Known(p) && Acts(p, w) && !Unyielded(StageOf(p, w)) && !Unyielded(s) && Harmless(p.timers, s)
    ensures Known(SetStage(p, p.workers[w].phase.f, s))
  {
    hide Core, Waiting, Queued, Wakes, Harmless;
    RunningFacts(p, w);
    var q := SetStage(p, p.workers[w].phase.f, s);
    forall f | 0 <= f < |q.fibs| ensures Home(q, f) {
      assert Home(p, f);
    }
  }

  lemma ResumeKnown(p: World, w: nat)
    requires Good(p) && Known(p) && Acts(p, w) && StageOf(p, w).IoParked? && StageOf(p, w).yielded
    ensures Known(DoResume(p, w))
  {
    hide Core, Waiting, KnownBut, SetStage;
    var s := StageOf(p, w);
    IoTimerStopped(p, w);
    var p1 := Stopped(p, s.timer);
    TimerStopped(p, s.timer);
    if s.info < |p.infos| && p.infos[s.info].cancelled {
      DroppedKnown(p1, s.info);
      StageKnown(Dropped(p1, s.info), w, Free);
    } else {
      StageKnown(p1, w, IoReady(s.fd, s.ev, s.info, None));
    }
  }

  /** do_io stops its own timer. */
  lemma IoTimerStopped(p: World, w: nat)
    requires Known(p) && Acts(p, w) && (StageOf(p, w).IoReady? || StageOf(p, w).IoParked?)
    ensures Known(Stopped(p, StageOf(p, w).timer))
  {
    hide Waiting;
    var t := StageOf(p, w).timer;
    if t.Some? && t.value < |p.timers| {
      assert Harmless(p.timers, StageOf(p, w));
      if p.timers[t.value].cb.Some? {
        StoppedKnown(p, t.value);
      } else {
        assert p.timers[t.value := p.timers[t.value].(cb := None)] == p.timers;
      }
    }
  }

  lemma DroppedKnown(p: World, info: nat)
    requires Good(p) && Known(p)
    ensures Good(Dropped(p, info)) && Known(Dropped(p, info))
  {
    hide Core, KnownBut;
    InfosAreFree(p, Dropped(p, info).infos);
    InfosKnown(p, Dropped(p, info).infos);
  }

  lemma RegisterKnown(p: World, w: nat, accept: bool)
    requires Good(p) && Known(p) && Acts(p, w) && StageOf(p, w).IoReady? && |p.io.ctxs| >= 32
    ensures DoRegister(p, w, accept).Next? ==> Known(DoRegister(p, w, accept).p)
  {
    hide Core, IoSpec.Inv, Waiting, AddEvent, KnownBut, SetStage, Moves;
    Sizes(p);
    WorkerFacts(p, w);
    var f := p.workers[w].phase.f;
    var s := StageOf(p, w);
    AddEventKeeps(p.io, s.fd, s.ev, RunFiber(f), true, accept);
    var r := AddEvent(p.io, s.fd, s.ev, RunFiber(f), true, accept);
    if r.Done? {
      SlotTakenKnown(p, r.io, s.fd, if accept then {s.ev} else {}, RunFiber(f));
      var p1 := p.(io := r.io);
      if accept {
        assert Waiting(p1.io, s.fd, s.ev) == Some(RunFiber(f)) by {
          assert s.ev in {s.ev};
          TakenBy(p.io, r.io, s.fd, s.ev, RunFiber(f));
        }
        ParkedKnown(p1, w);
      } else {
        NothingMoves(p.io, r.io, s.fd, Some(RunFiber(f)));
        SlotsEmptied(p, r.io, s.fd, {});
        IoTimerStopped(p1, w);
        TimerStopped(p1, s.timer);
        DroppedKnown(Stopped(p1, s.timer), s.info);
        StageKnown(Dropped(Stopped(p1, s.timer), s.info), w, Free);
      }
    }
  }

  lemma TakenBy(io: Io, io': Io, fd: nat, ev: Event, who: Task)
    requires Moves(io, io', fd, {ev}, Some(who))
    ensures Waiting(io', fd, ev) == Some(who)
  {
    hide Waiting;
  }

  lemma ParkedKnown(p: World, w: nat)
    requires Known(p) && Acts(p, w) && StageOf(p, w).IoReady?
    requires Waiting(p.io, StageOf(p, w).fd, StageOf(p, w).ev) == Some(RunFiber(p.workers[w].phase.f))
    ensures var b := p.fibs[p.workers[w].phase.f];
            var s := b.stage;
            Known(SetFib(p, p.workers[w].phase.f,
                         b.(stage := IoParked(s.fd, s.ev, s.info, s.timer, false), loc := AtSlot(s.fd, s.ev),
                            issued := b.issued + 1)))
  {
    hide Waiting, Queued, Wakes;
    forall g | 0 <= g < |p.fibs| ensures Home(p, g) && Harmless(p.timers, p.fibs[g].stage) {
    }
  }

  lemma SleepKnown(p: World, w: nat)
    requires Known(p) && Acts(p, w) && StageOf(p, w) == Free
    ensures Known(DoSleep(p, w))
  {
    hide Waiting, Queued, Wakes;
    var q := DoSleep(p, w);
    forall g | 0 <= g < |q.fibs| ensures Home(q, g) && Harmless(q.timers, q.fibs[g].stage) {
      assert Home(p, g) && Harmless(p.timers, p.fibs[g].stage);
    }
  }

  lemma SpawnKnown(p: World, pin: Option<nat>)
    requires Known(p)
    ensures Known(DoSpawn(p, pin))
  {
    hide Waiting, Queued, Wakes;
    var q := DoSpawn(p, pin);
    var e := Entry(RunFiber(|p.fibs|), pin);
    forall g | 0 <= g < |q.fibs| ensures Home(q, g) && Harmless(q.timers, q.fibs[g].stage) {
      assert g < |p.fibs| ==> Home(p, g) && Harmless(p.timers, p.fibs[g].stage);
      QueuedPushed(p.sched.queue, e, RunFiber(g));
      QueuedPushed(p.sched.queue, e, RunCb(Wake(g)));
    }
  }

  /** A worker that holds no ticket, before or after, does as it likes. */
  lemma WorkerKnown(p: World, w: nat, k: Worker)
    requires Known(p) && w < |p.workers| && !Busy(p.workers[w]) && !Busy(k) && k.cached == p.workers[w].cached
    ensures Known(p.(workers := p.workers[w := k]))
  {
    hide Waiting, Queued, Harmless;
    var q := p.(workers := p.workers[w := k]);
    forall g | 0 <= g < |q.fibs| ensures Home(q, g) {
      assert Home(p, g);
    }
  }

  // ---- every step, every run -----------------------------------------------------

  lemma IoStepKnown(p: World, s: Step)
    requires Good(p) && Known(p) && |p.io.ctxs| >= 32 && IsIoStep(s) && IoEnabled(p, s)
    ensures DoIo(p, s).Next? ==> Known(DoIo(p, s).p)
  {
    hide Core, IoSpec.Inv, Waiting, KnownBut, SetStage, DoRegister, DoResume, DoSleep;
    match s
    case IoBegin(w, fd, ev) =>
      var infos := p.infos + [Info(true, false)];
      InfosAreFree(p, infos);
      InfosKnown(p, infos);
      StageKnown(p.(infos := infos), w, IoReady(fd, ev, |p.infos|, None));
    case IoTimer(w) =>
      var g := StageOf(p, w);
      var c := Clock(Some(Timeout(g.info, g.fd, g.ev)), false);
      TimerAdded(p, c);
      TimerKnown(p, c);
      StageKnown(p.(timers := p.timers + [c]), w, IoReady(g.fd, g.ev, g.info, Some(|p.timers|)));
    case IoRegister(w, accept) => RegisterKnown(p, w, accept);
    case IoResume(w) => ResumeKnown(p, w);
    case IoDone(w) =>
      DroppedKnown(p, StageOf(p, w).info);
      StageKnown(Dropped(p, StageOf(p, w).info), w, Free);
    case Sleep(w) => SleepKnown(p, w);
    case SleepResume(w) => StageKnown(p, w, Free);
  }

  lemma IdleStepKnown(p: World, s: Step)
    requires Good(p) && Known(p) && |p.io.ctxs| >= 32 && IsIdleStep(s) && IdleEnabled(p, s)
    ensures DoIdle(p, s).Next? ==> Known(DoIdle(p, s).p)
  {
    hide Core, IoSpec.Inv, Waiting, KnownBut, Quiet, DoExpire, Handed, Dispatch, TakeIndex;
    match s
    case GoIdle(w) => WorkerKnown(p, w, Worker(Idling, p.workers[w].cached, EXEC));
    case Expire(w, t) => ExpireKnown(p, t);
    case Poll(w, fd, reported, accept) => PollKnown(p, fd, reported, accept);
    case Wakeup(w) => WorkerKnown(p, w, Worker(Looping, p.workers[w].cached, HOLD));
    case IdleStop(w) => WorkerKnown(p, w, Worker(Looping, p.workers[w].cached, TERM));
    case Exit(w) => WorkerKnown(p, w, p.workers[w].(phase := Exited));
  }

  lemma EventStepKnown(p: World, s: Step)
    requires Good(p) && Known(p) && |p.io.ctxs| >= 32 && IsEventStep(s) && EventEnabled(p, s)
    ensures DoEvent(p, s).Next? ==> Known(DoEvent(p, s).p)
  {
    hide Core, IoSpec.Inv, Waiting, KnownBut, DoAddCb, DoDel, Handed, CancelEvent, CancelAll;
    match s
    case AddCb(w, fd, ev, n, accept) => AddCbKnown(p, fd, ev, n, accept);
    case Del(w, fd, ev, accept) => DelKnown(p, fd, ev, accept);
    case Cancel(w, fd, ev, accept) => CancelKnown(p, fd, ev, accept);
    case CancelEvery(w, fd, accept) => CancelEveryKnown(p, fd, accept);
  }

  lemma WorkStepKnown(p: World, s: Step)
    requires Good(p) && Known(p) && |p.io.ctxs| >= 32
    requires !IsIoStep(s) && !IsIdleStep(s) && !IsEventStep(s) && WorkEnabled(p, s)
    ensures DoWork(p, s).Next? ==> Known(DoWork(p, s).p)
  {
    hide Core, IoSpec.Inv, Waiting, KnownBut, Quiet, DoStart, DoTodo, Left, DoYieldHold, DoYieldReady, DoSpawn,
      Pushed, DoTake, TakeIndex;
    match s
    case Take(w) => TakeKnown(p, w);
    case Start(w) => StartKnown(p, w);
    case RunTodo(w, accept) => TodoKnown(p, w, accept);
    case YieldReady(w) => YieldReadyKnown(p, w);
    case YieldHold(w) => YieldHoldKnown(p, w);
    case Finish(w, thrown) => LeftKnown(p, w, if thrown then EXCEPT else TERM);
    case Spawn(_, pin) => SpawnKnown(p, pin);
    case Submit(_, n, pin) => PushedKnown(p, RunCb(User(n)), pin, {});
    case AddTimer(w, n, recurring) => TimerKnown(p, Clock(Some(User(n)), recurring));
    case DropTimer(w, t) => StoppedKnown(p, t);
    case Stop => StopKnown(p);
  }

  lemma StopKnown(p: World)
    requires Known(p)
    ensures Known(p.(autostop := true, stopping := true))
  {
    hide Waiting, Queued, Wakes, Harmless;
    forall g | 0 <= g < |p.fibs| ensures Home(p.(autostop := true, stopping := true), g) {
      assert Home(p, g);
    }
  }

  lemma StepKnown(p: World, s: Step)
    requires Good(p) && Known(p) && |p.io.ctxs| >= 32 && Enabled(p, s)
    ensures Do(p, s).Next? ==> Known(Do(p, s).p)
  {
    hide Good, Known, IoEnabled, IdleEnabled, EventEnabled, WorkEnabled, DoIo, DoIdle, DoEvent, DoWork;
    if IsIoStep(s) {
      IoStepKnown(p, s);
    } else if IsIdleStep(s) {
      IdleStepKnown(p, s);
    } else if IsEventStep(s) {
      EventStepKnown(p, s);
    } else {
      WorkStepKnown(p, s);
    }
  }

  /** In every state of every run each ticket is where the history says, and
      whoever has none can do without. */
  lemma {:induction false} RunsKnown(n: nat, states: seq<World>, steps: seq<Step>, i: nat)
    requires IsRun(n, states, steps) && i < |states|
    ensures Known(states[i])
  {
    hide Good, Enabled, Do, KnownBut;
    if i == 0 {
      BeginKnown(n);
    } else {
      RunsKnown(n, states, steps, i - 1);
      RunsAreGood(n, states, steps, i - 1);
      assert Leads(states[i - 1], steps[i - 1], states[i]);
      StepKnown(states[i - 1], steps[i - 1]);
    }
  }

  lemma BeginKnown(n: nat)
    ensures Known(Begin(n))
  {
  }

  /** No fiber is lost: one without a ticket goes on, has ended, is a spare, or
      yielded to hold of its own accord, or delEvent took its event away. So one
      that waits in do_io or in sleep has a ticket, unless delEvent took it. */
  lemma NobodyIsLost(p: World, f: nat)
    requires Good(p) && Known(p) && f < |p.fibs|
    ensures |p.sched.states| == |p.fibs|
    ensures (exists a :: Holds(p, a, f)) <==> p.fibs[f].loc != Nowhere && p.fibs[f].loc != Forgotten
    ensures p.fibs[f].loc == Nowhere ==> Rests(p, f)
    ensures p.sched.states[f] == HOLD && p.fibs[f].stage != Free && p.fibs[f].loc != Forgotten ==>
              exists a :: Holds(p, a, f)
    ensures p.sched.states[f] == READY ==> exists a :: Holds(p, a, f)
  {
    hide Core, Waiting;
    Facts(p, f);
    assert Home(p, f);
    if p.fibs[f].loc != Nowhere && p.fibs[f].loc != Forgotten {
      TicketPlace(p, f);
    }
    forall a | Holds(p, a, f) ensures p.fibs[f].loc != Nowhere && p.fibs[f].loc != Forgotten {
      TicketAt(p, a, f);
    }
  }

  lemma TicketPlace(p: World, f: nat)
    requires f < |p.fibs| && There(p, f) && p.fibs[f].loc != Nowhere && p.fibs[f].loc != Forgotten
    ensures exists a :: Holds(p, a, f)
  {
    hide Waiting;
    match p.fibs[f].loc
    case InQueue =>
      var i :| 0 <= i < |p.sched.queue| && p.sched.queue[i].task == RunFiber(f);
      assert Holds(p, AtEntry(i), f);
    case WakeQueued =>
      var i :| 0 <= i < |p.sched.queue| && p.sched.queue[i].task == RunCb(Wake(f));
      assert Holds(p, AtEntry(i), f);
    case AtSlot(fd, ev) => assert Holds(p, InSlot(fd, ev), f);
    case AtTimer(t) => assert Holds(p, InTimer(t), f);
    case InHand(w) => assert Holds(p, AtWorker(w), f);
    case Waking(w) => assert Holds(p, AtWorker(w), f);
  }

  /** So when IOManager::stopping holds, nobody is left waiting: every fiber has
      ended, is a spare, yielded to hold of its own accord, or waits for an event
      that delEvent took away. */
  lemma StoppingStrandsNobody(n: nat, states: seq<World>, steps: seq<Step>, i: nat, f: nat)
    requires IsRun(n, states, steps) && i < |states| && Quiet(states[i]) && f < |states[i].fibs|
    ensures |states[i].sched.states| == |states[i].fibs|
    ensures var t, b := states[i].sched.states[f], states[i].fibs[f];
            t == TERM || t == EXCEPT || t == INIT || (t == HOLD && (b.stage == Free || b.loc == Forgotten))
  {
    hide Good, Known, IsRun;
    RunsAreGood(n, states, steps, i);
    RunsKnown(n, states, steps, i);
    NobodyIsLost(states[i], f);
    NoTickets(states[i], f);
  }

  lemma NoTickets(p: World, f: nat)
    requires Good(p) && Quiet(p) && f < |p.fibs|
    ensures forall a :: !Holds(p, a, f)
    ensures p.sched.states[f] != EXEC
  {
    hide Core, IoSpec.Inv;
    NobodyWorks(p);
    Sizes(p);
    BitsZero(p.io.ctxs);
    OneRunner(p, f);
  }

  // ---- forgotten for good ------------------------------------------------------

  predicate Lost(p: World, f: nat) {
    f < |p.fibs| && p.fibs[f].loc == Forgotten
  }

  lemma LostHasNoTicket(p: World, f: nat)
    requires Good(p) && Lost(p, f)
    ensures Unplaced(p, f) && NotKept(p.workers, f) && !GoesOn(p, f)
  {
    hide Core, NotQueued, NotInSlot, NotInTimer, NotHeld, NotKept;
    Facts(p, f);
    Elsewhere(p, f);
    NotSpare(p, f);
  }

  /** Queueing a ticket finds its fiber again, and touches no other. */
  lemma PushedFinds(p: World, task: Task, pin: Option<nat>, f: nat)
    ensures Lost(Pushed(p, task, pin), f) <==> Lost(p, f) && Ticket(task) != Some(f)
  {
  }

  lemma {:induction false} PushesFind(p: World, tasks: seq<Task>, f: nat)
    ensures Lost(PushedAll(p, tasks), f) ==> Lost(p, f)
    ensures Lost(p, f) && (forall i :: 0 <= i < |tasks| ==> Ticket(tasks[i]) != Some(f)) ==>
              Lost(PushedAll(p, tasks), f)
    decreases |tasks|
  {
    hide Pushed, Lost;
    if tasks != [] {
      PushedFinds(p, tasks[0], None, f);
      PushesFind(Pushed(p, tasks[0], None), tasks[1..], f);
    }
  }

  lemma HandedFinds(p: World, r: Result, f: nat)
    ensures Handed(p, r).Next? && Lost(Handed(p, r).p, f) ==> Lost(p, f)
  {
    hide PushedAll;
    if r.Done? {
      PushesFind(p.(io := r.io), r.tasks, f);
    }
  }

  /** A fiber that was lost waited at no slot. */
  lemma HandedLost(p: World, r: Result, fd: nat, evs: set<Event>, f: nat)
    requires Good(p) && Lost(p, f) && (r.Done? ==> r.tasks == [] || r.tasks == Waiters(p.io, fd, evs))
    ensures Handed(p, r).Next? ==> Lost(Handed(p, r).p, f)
  {
    hide Core, Waiting, PushedAll;
    if r.Done? {
      WaiterFacts(p, fd, READ);
      WaiterFacts(p, fd, WRITE);
      PushesFind(p.(io := r.io), r.tasks, f);
    }
  }

  lemma TakeFinds(p: World, w: nat, f: nat)
    requires Loops(p, w) && !NothingFor(p, w)
    ensures Lost(DoTake(p, w), f) ==> Lost(p, f)
    ensures Lost(p, f) && NotQueued(p.sched.queue, f) ==> Lost(DoTake(p, w), f)
  {
    hide TakeIndex;
  }

  lemma StartFinds(p: World, w: nat, f: nat)
    requires w < |p.workers| && p.workers[w].phase.Taken? && |p.fibs| == |p.sched.states|
    ensures DoStart(p, w).Next? && Lost(DoStart(p, w).p, f) ==> Lost(p, f)
    ensures DoStart(p, w).Next? && Lost(p, f) && NotHeld(p.workers, f) ==> Lost(DoStart(p, w).p, f)
  {
    assert NotHeld(p.workers, f) ==> Held(p.workers[w]) != Some(f);
  }

  /** A fiber that leaves or moves to another stage takes its history along. */
  lemma StageFinds(p: World, g: nat, s: Stage, f: nat)
    ensures Lost(SetStage(p, g, s), f) <==> Lost(p, f)
  {
  }

  lemma LeftFinds(p: World, w: nat, t: State, f: nat)
    requires Acts(p, w)
    ensures Lost(Left(p, w, t), f) <==> Lost(p, f)
    ensures Lost(DoYieldHold(p, w), f) <==> Lost(p, f)
    ensures Lost(DoYieldReady(p, w), f) <==> Lost(p, f) && f != p.workers[w].phase.f
  {
    hide Leave;
  }

  lemma TodoFinds(p: World, w: nat, accept: bool, f: nat)
    requires Runs(p, w) && p.workers[w].phase.todo.Some?
    ensures DoTodo(p, w, accept).Next? && Lost(DoTodo(p, w, accept).p, f) ==> Lost(p, f)
  {
    hide Handed, CancelEvent, Pushed;
    var p1 := SetPhase(p, w, p.workers[w].phase.(todo := None));
    match p.workers[w].phase.todo.value
    case User(_) =>
    case Timeout(i, fd, ev) =>
      if i < |p.infos| {
        HandedFinds(p1.(infos := p.infos[i := Info(true, true)]), CancelEvent(p.io, fd, ev, accept), f);
      }
    case Wake(g) => PushedFinds(p1, RunFiber(g), None, f);
  }

  lemma TodoLost(p: World, w: nat, accept: bool, f: nat)
    requires Good(p) && Lost(p, f) && Runs(p, w) && p.workers[w].phase.todo.Some? && NotHeld(p.workers, f)
    ensures DoTodo(p, w, accept).Next? ==> Lost(DoTodo(p, w, accept).p, f)
  {
    hide Core, Waiting, Handed, CancelEvent, Pushed;
    assert Held(p.workers[w]) != Some(f);
    var p1 := SetPhase(p, w, p.workers[w].phase.(todo := None));
    match p.workers[w].phase.todo.value
    case User(_) =>
    case Timeout(i, fd, ev) =>
      if i < |p.infos| {
        var p2 := p1.(infos := p.infos[i := Info(true, true)]);
        TodoGood(p, w);
        InfosAreFree(p1, p2.infos);
        Sizes(p);
        CancelEventKeeps(p.io, fd, ev, accept);
        HandedLost(p2, CancelEvent(p.io, fd, ev, accept), fd, {ev}, f);
      }
    case Wake(g) => PushedFinds(p1, RunFiber(g), None, f);
  }

  lemma WorkLost(p: World, s: Step, f: nat)
    requires Good(p) && |p.io.ctxs| >= 32 && Lost(p, f)
    requires !IsIoStep(s) && !IsIdleStep(s) && !IsEventStep(s) && WorkEnabled(p, s)
    ensures DoWork(p, s).Next? ==> Lost(DoWork(p, s).p, f)
  {
    hide Core, Waiting, NotQueued, NotInSlot, NotInTimer, NotHeld, TakeIndex, DoTake, DoStart, DoTodo, DoYieldReady,
      DoYieldHold, Left, Pushed;
    LostHasNoTicket(p, f);
    match s
    case Take(w) => TakeFinds(p, w, f);
    case Start(w) => StartFinds(p, w, f);
    case RunTodo(w, accept) => TodoLost(p, w, accept, f);
    case YieldReady(w) =>
      RunnerGoesOn(p, w);
      LeftFinds(p, w, READY, f);
    case YieldHold(w) => LeftFinds(p, w, HOLD, f);
    case Finish(w, thrown) => LeftFinds(p, w, if thrown then EXCEPT else TERM, f);
    case Submit(_, n, pin) => PushedFinds(p, RunCb(User(n)), pin, f);
    case _ =>
  }

  /** The place a registration or a sleep gives a fiber is not this one. */
  lemma RegisterFinds(p: World, w: nat, accept: bool, f: nat)
    requires Acts(p, w) && StageOf(p, w).IoReady? && |p.io.ctxs| >= 32
    ensures DoRegister(p, w, accept).Next? && Lost(DoRegister(p, w, accept).p, f) ==> Lost(p, f)
    ensures DoRegister(p, w, accept).Next? && Lost(p, f) && f != p.workers[w].phase.f ==>
              Lost(DoRegister(p, w, accept).p, f)
  {
    hide AddEvent, SetStage;
    var g := p.workers[w].phase.f;
    var s := StageOf(p, w);
    match AddEvent(p.io, s.fd, s.ev, RunFiber(g), p.sched.states[g] == EXEC, accept)
    case Aborted =>
    case Done(io, ok, _) => StageFinds(Dropped(Stopped(p.(io := io), s.timer), s.info), g, Free, f);
  }

  lemma ResumeFinds(p: World, w: nat, f: nat)
    requires Acts(p, w) && StageOf(p, w).IoParked?
    ensures Lost(DoResume(p, w), f) <==> Lost(p, f)
  {
    hide SetStage;
    var s := StageOf(p, w);
    var p1 := Stopped(p, s.timer);
    StageFinds(Dropped(p1, s.info), p.workers[w].phase.f, Free, f);
    StageFinds(p1, p.workers[w].phase.f, IoReady(s.fd, s.ev, s.info, None), f);
  }

  /** Of the steps inside do_io and sleep only registering and sleeping move a
      ticket, the fiber's own. */
  lemma IoFinds(p: World, s: Step, f: nat)
    requires |p.io.ctxs| >= 32 && IsIoStep(s) && IoEnabled(p, s)
    ensures DoIo(p, s).Next? && Lost(DoIo(p, s).p, f) ==> Lost(p, f)
    ensures DoIo(p, s).Next? && Lost(p, f) && !((s.IoRegister? || s.Sleep?) && f == p.workers[s.w].phase.f) ==>
              Lost(DoIo(p, s).p, f)
  {
    hide DoRegister, DoResume, SetStage;
    match s
    case IoBegin(w, fd, ev) =>
      StageFinds(p.(infos := p.infos + [Info(true, false)]), p.workers[w].phase.f, IoReady(fd, ev, |p.infos|, None), f);
    case IoTimer(w) =>
      var g := StageOf(p, w);
      StageFinds(p.(timers := p.timers + [Clock(Some(Timeout(g.info, g.fd, g.ev)), false)]),
                 p.workers[w].phase.f, IoReady(g.fd, g.ev, g.info, Some(|p.timers|)), f);
    case IoRegister(w, accept) => RegisterFinds(p, w, accept, f);
    case IoResume(w) => ResumeFinds(p, w, f);
    case IoDone(w) => StageFinds(Dropped(p, StageOf(p, w).info), p.workers[w].phase.f, Free, f);
    case Sleep(w) =>
    case SleepResume(w) => StageFinds(p, p.workers[w].phase.f, Free, f);
  }

  lemma IoLost(p: World, s: Step, f: nat)
    requires Good(p) && |p.io.ctxs| >= 32 && Lost(p, f) && IsIoStep(s) && IoEnabled(p, s)
    ensures DoIo(p, s).Next? ==> Lost(DoIo(p, s).p, f)
  {
    hide Core, Waiting, Lost, DoIo;
    LostHasNoTicket(p, f);
    IoFinds(p, s, f);
    if s.IoRegister? || s.Sleep? {
      RunnerGoesOn(p, s.w);
    }
  }

  lemma IdleLost(p: World, s: Step, f: nat)
    requires Good(p) && |p.io.ctxs| >= 32 && Lost(p, f) && IsIdleStep(s) && IdleEnabled(p, s)
    ensures DoIdle(p, s).Next? ==> Lost(DoIdle(p, s).p, f)
  {
    hide Core, IoSpec.Inv, Waiting, NotInSlot, NotQueued, TakeIndex, Handed, Dispatch, DispatchRegistered, Quiet,
      Pushed;
    LostHasNoTicket(p, f);
    match s
    case Poll(_, fd, reported, accept) => PollLost(p, fd, reported, accept, f);
    case Expire(_, t) =>
      var c := p.timers[t];
      PushedFinds(if c.recurring then p else Stopped(p, Some(t)), RunCb(c.cb.value), None, f);
    case _ =>
  }

  lemma PollLost(p: World, fd: nat, reported: set<Event>, accept: bool, f: nat)
    requires Good(p) && Lost(p, f) && fd < |p.io.ctxs|
    ensures Handed(p, Dispatch(p.io, fd, reported, accept)).Next? ==>
              Lost(Handed(p, Dispatch(p.io, fd, reported, accept)).p, f)
  {
    hide Core, IoSpec.Inv, Waiting, Dispatch, DispatchRegistered, Handed;
    Sizes(p);
    DispatchAborts(p.io, fd, reported, accept);
    DispatchKeeps(p.io, fd, reported, accept);
    HandedLost(p, Dispatch(p.io, fd, reported, accept), fd, reported, f);
  }

  lemma EventLost(p: World, s: Step, f: nat)
    requires Good(p) && |p.io.ctxs| >= 32 && Lost(p, f) && IsEventStep(s) && EventEnabled(p, s)
    ensures DoEvent(p, s).Next? ==> Lost(DoEvent(p, s).p, f)
  {
    hide Core, IoSpec.Inv, Waiting, Handed, AddEvent, DelEvent, CancelEvent, CancelAll, Moves, Waiters;
    Sizes(p);
    match s
    case AddCb(_, fd, ev, n, accept) =>
      AddEventKeeps(p.io, fd, ev, RunCb(User(n)), true, accept);
      HandedLost(p, AddEvent(p.io, fd, ev, RunCb(User(n)), true, accept), fd, {}, f);
    case Del(_, _, _, _) =>
    case Cancel(_, fd, ev, accept) =>
      CancelEventKeeps(p.io, fd, ev, accept);
      HandedLost(p, CancelEvent(p.io, fd, ev, accept), fd, {ev}, f);
    case CancelEvery(_, fd, accept) =>
      CancelAllKeeps(p.io, fd, accept);
      HandedLost(p, CancelAll(p.io, fd, accept), fd, {READ, WRITE}, f);
  }

  /** Whom delEvent has forgotten, nothing wakes. */
  lemma LostStays(p: World, s: Step, f: nat)
    requires Good(p) && |p.io.ctxs| >= 32 && Lost(p, f) && Enabled(p, s)
    ensures Do(p, s).Next? ==> Lost(Do(p, s).p, f)
  {
    hide Good, Lost, IoEnabled, IdleEnabled, EventEnabled, WorkEnabled, DoIo, DoIdle, DoEvent, DoWork;
    if IsIoStep(s) {
      IoLost(p, s, f);
    } else if IsIdleStep(s) {
      IdleLost(p, s, f);
    } else if IsEventStep(s) {
      EventLost(p, s, f);
    } else {
      WorkLost(p, s, f);
    }
  }

  /** In no run does a forgotten fiber ever go on again. */
  lemma {:induction false} LostForEver(n: nat, states: seq<World>, steps: seq<Step>, i: nat, j: nat, f: nat)
    requires IsRun(n, states, steps) && i <= j < |states| && Lost(states[i], f)
    ensures Lost(states[j], f) && !GoesOn(states[j], f)
  {
    hide Good, Lost, GoesOn, Enabled, Do;
    RunsAreGood(n, states, steps, j);
    if i < j {
      LostForEver(n, states, steps, i, j - 1, f);
      RunsAreGood(n, states, steps, j - 1);
      assert Leads(states[j - 1], steps[j - 1], states[j]);
      LostStays(states[j - 1], steps[j - 1], f);
    }
    LostHasNoTicket(states[j], f);
  }

  lemma WorkLosesNobody(p: World, s: Step, f: nat)
    requires |p.io.ctxs| >= 32 && !Lost(p, f) && !IsIoStep(s) && !IsIdleStep(s) && !IsEventStep(s) && WorkEnabled(p, s)
    ensures DoWork(p, s).Next? ==> !Lost(DoWork(p, s).p, f)
  {
    hide Waiting, TakeIndex, DoTake, DoStart, DoTodo, DoYieldReady, DoYieldHold, Left, Pushed;
    match s
    case Take(w) => TakeFinds(p, w, f);
    case Start(w) => StartFinds(p, w, f);
    case RunTodo(w, accept) => TodoFinds(p, w, accept, f);
    case YieldReady(w) => LeftFinds(p, w, READY, f);
    case YieldHold(w) => LeftFinds(p, w, HOLD, f);
    case Finish(w, thrown) => LeftFinds(p, w, if thrown then EXCEPT else TERM, f);
    case Submit(_, n, pin) => PushedFinds(p, RunCb(User(n)), pin, f);
    case _ =>
  }

  lemma EventLosesNobody(p: World, s: Step, f: nat)
    requires |p.io.ctxs| >= 32 && !Lost(p, f) && IsEventStep(s) && EventEnabled(p, s)
    ensures DoEvent(p, s).Next? && Lost(DoEvent(p, s).p, f) ==>
              s.Del? && s.accept && Waiting(p.io, s.fd, s.ev) == Some(RunFiber(f))
  {
    hide Waiting, Handed, AddEvent, CancelEvent, CancelAll;
    match s
    case AddCb(_, fd, ev, n, accept) => HandedFinds(p, AddEvent(p.io, fd, ev, RunCb(User(n)), true, accept), f);
    case Del(_, _, _, _) =>
    case Cancel(_, fd, ev, accept) => HandedFinds(p, CancelEvent(p.io, fd, ev, accept), f);
    case CancelEvery(_, fd, accept) => HandedFinds(p, CancelAll(p.io, fd, accept), f);
  }

  lemma IdleLosesNobody(p: World, s: Step, f: nat)
    requires |p.io.ctxs| >= 32 && !Lost(p, f) && IsIdleStep(s) && IdleEnabled(p, s)
    ensures DoIdle(p, s).Next? ==> !Lost(DoIdle(p, s).p, f)
  {
    hide Waiting, Handed, Dispatch, TakeIndex, Quiet, Pushed;
    match s
    case Poll(_, fd, reported, accept) => HandedFinds(p, Dispatch(p.io, fd, reported, accept), f);
    case Expire(_, t) =>
      var c := p.timers[t];
      PushedFinds(if c.recurring then p else Stopped(p, Some(t)), RunCb(c.cb.value), None, f);
    case _ =>
  }

  /** Nothing but a delEvent that succeeds on the slot where a fiber waits forgets
      it. */
  lemma OnlyDelForgets(p: World, s: Step, f: nat)
    requires |p.io.ctxs| >= 32 && Enabled(p, s) && !Lost(p, f)
    ensures Do(p, s).Next? && Lost(Do(p, s).p, f) ==>
              s.Del? && s.accept && Waiting(p.io, s.fd, s.ev) == Some(RunFiber(f))
  {
    hide Lost, IoEnabled, IdleEnabled, EventEnabled, WorkEnabled, DoIo, DoIdle, DoEvent, DoWork;
    if IsIoStep(s) {
      IoFinds(p, s, f);
    } else if IsIdleStep(s) {
      IdleLosesNobody(p, s, f);
    } else if IsEventStep(s) {
      EventLosesNobody(p, s, f);
    } else {
      WorkLosesNobody(p, s, f);
    }
  }
}
