/** Fibers, workers, timers and event slots together, as a step relation. One
    step is one body under a mutex, one run of a timer callback, or a yield
    together with the worker's bookkeeping after swapIn. */
module Protocol {
  import opened Options
  import opened IoSpec
  import opened SchedSpec

  /** Where a fiber is inside do_io or sleep. IoReady: about to call the
      original function or to register; IoParked: registered, and yielded once
      it has swapped out. */
  datatype Stage =
    | Free
    | IoReady(fd: nat, ev: Event, info: nat, timer: Option<nat>)
    | IoParked(fd: nat, ev: Event, info: nat, timer: Option<nat>, yielded: bool)
    | Asleep(yielded: bool)

  /** Where the one ticket to run a fiber is: among the fibers or the wake-up
      calls of the list, in an event slot, in a timer, with a worker, or lost to
      a delEvent. */
  datatype Loc = Nowhere | InQueue | WakeQueued | AtSlot(fd: nat, ev: Event) | AtTimer(t: nat)
               | InHand(w: nat) | Waking(w: nat) | Forgotten

  /** History beside the code: the ticket's place, the worker running or
      keeping the fiber, how often it asked to be queued (created, yielded
      READY, registered, slept) and how often it was. */
  datatype Fib = Fib(stage: Stage, loc: Loc, on: nat, issued: nat, queued: nat)

  datatype Phase =
    | Looping
    | Taken(task: Task)
    | Running(f: nat, viaCb: bool, todo: Option<Callback>)
    | Idling
    | Exited

  /** One thread of run: its phase, cb_fiber, and the state of idle_fiber. */
  datatype Worker = Worker(phase: Phase, cached: Option<nat>, idle: State)

  datatype Clock = Clock(cb: Option<Callback>, recurring: bool)

  /** timer_info, and whether its do_io call still holds it. */
  datatype Info = Info(alive: bool, cancelled: bool)

  datatype World = World(sched: Sched, fibs: seq<Fib>, io: Io, timers: seq<Clock>, infos: seq<Info>,
                         workers: seq<Worker>, autostop: bool, stopping: bool)

  /** A failed SYLAR_ASSERT is a Fault. */
  datatype Outcome = Next(p: World) | Fault

  // ---- updates -----------------------------------------------------------

  function SetFib(p: World, f: nat, b: Fib): World {
    if f < |p.fibs| then p.(fibs := p.fibs[f := b]) else p
  }

  function SetStage(p: World, f: nat, s: Stage): World {
    if f < |p.fibs| then SetFib(p, f, p.fibs[f].(stage := s)) else p
  }

  function SetPhase(p: World, w: nat, ph: Phase): World {
    if w < |p.workers| then p.(workers := p.workers[w := p.workers[w].(phase := ph)]) else p
  }

  function SetCached(p: World, w: nat, c: Option<nat>): World {
    if w < |p.workers| then p.(workers := p.workers[w := p.workers[w].(cached := c)]) else p
  }

  /** The fiber a task is the ticket of. */
  function Ticket(t: Task): Option<nat> {
    match t
    case RunFiber(f) => Some(f)
    case RunCb(cb) => if cb.Wake? then Some(cb.fiber) else None
  }

  /** The ticket of `task`, if it is one, moves. */
  function Relocate(p: World, task: Task, asFiber: Loc, asWake: Loc): World {
    match Ticket(task)
    case None => p
    case Some(f) =>
      if f < |p.fibs| then SetFib(p, f, p.fibs[f].(loc := if task.RunFiber? then asFiber else asWake)) else p
  }

  /** schedule. */
  function Pushed(p: World, task: Task, pin: Option<nat>): World {
    var p1 := Relocate(p.(sched := Push(p.sched, Entry(task, pin))), task, InQueue, WakeQueued);
    if task.RunFiber? && task.fiber < |p1.fibs|
    then SetFib(p1, task.fiber, p1.fibs[task.fiber].(queued := p1.fibs[task.fiber].queued + 1))
    else p1
  }

  function PushedAll(p: World, tasks: seq<Task>): World
    decreases tasks
  {
    if tasks == [] then p else PushedAll(Pushed(p, tasks[0], None), tasks[1..])
  }

  /** What follows from an operation on the event table. */
  function Handed(p: World, r: Result): Outcome {
    match r
    case Aborted => Fault
    case Done(io, _, tasks) => Next(PushedAll(p.(io := io), tasks))
  }

  function Stopped(p: World, t: Option<nat>): World {
    if t.Some? && t.value < |p.timers| then p.(timers := p.timers[t.value := p.timers[t.value].(cb := None)]) else p
  }

  function Dropped(p: World, info: nat): World {
    if info < |p.infos| then p.(infos := p.infos[info := p.infos[info].(alive := false)]) else p
  }

  // ---- steps ---------------------------------------------------------------

  datatype Step =
    | Take(w: nat) | GoIdle(w: nat) | Start(w: nat) | RunTodo(w: nat, accept: bool)
    | YieldReady(w: nat) | YieldHold(w: nat) | Finish(w: nat, thrown: bool)
    | Spawn(user: Option<nat>, pin: Option<nat>) | Submit(user: Option<nat>, n: nat, pin: Option<nat>)
    | IoBegin(w: nat, fd: nat, ev: Event) | IoTimer(w: nat) | IoRegister(w: nat, accept: bool)
    | IoResume(w: nat) | IoDone(w: nat) | Sleep(w: nat) | SleepResume(w: nat)
    | AddCb(w: nat, fd: nat, ev: Event, n: nat, accept: bool) | Del(w: nat, fd: nat, ev: Event, accept: bool)
    | Cancel(w: nat, fd: nat, ev: Event, accept: bool) | CancelEvery(w: nat, fd: nat, accept: bool)
    | AddTimer(w: nat, n: nat, recurring: bool) | DropTimer(w: nat, t: nat)
    | Expire(w: nat, t: nat) | Poll(w: nat, fd: nat, reported: set<Event>, accept: bool) | Wakeup(w: nat)
    | IdleStop(w: nat) | Exit(w: nat) | Stop

  predicate Runs(p: World, w: nat) {
    && w < |p.workers| && p.workers[w].phase.Running?
    && p.workers[w].phase.f < |p.fibs| && |p.fibs| == |p.sched.states|
  }

  /** Worker `w` runs the code of a fiber, not the start of a callback. */
  predicate Acts(p: World, w: nat) {
    Runs(p, w) && p.workers[w].phase.todo.None?
  }

  function StageOf(p: World, w: nat): Stage
    requires Runs(p, w)
  {
    p.fibs[p.workers[w].phase.f].stage
  }

  predicate Idles(p: World, w: nat) {
    w < |p.workers| && p.workers[w].phase == Idling
  }

  predicate Loops(p: World, w: nat) {
    w < |p.workers| && p.workers[w].phase == Looping
  }

  predicate NothingFor(p: World, w: nat) {
    TakeIndex(p.sched.queue, p.sched.states, w) == |p.sched.queue|
  }

  /** A fiber inside do_io for an event of a descriptor. */
  predicate Uses(s: Stage, fd: nat, ev: Event) {
    (s.IoReady? || s.IoParked?) && s.fd == fd && s.ev == ev
  }

  /** IOManager::stopping. */
  ghost predicate Quiet(p: World) {
    && (forall t :: 0 <= t < |p.timers| ==> p.timers[t].cb.None?)
    && p.io.pending == 0
    && Stopping(p.sched, p.autostop, p.stopping)
  }

  /** When a step can happen. What a fiber may do is what do_io and sleep do,
      and between them anything. */
  ghost predicate Enabled(p: World, s: Step) {
    if IsIoStep(s) then IoEnabled(p, s)
    else if IsIdleStep(s) then IdleEnabled(p, s)
    else if IsEventStep(s) then EventEnabled(p, s)
    else WorkEnabled(p, s)
  }

  /** A fiber inside do_io or sleep. */
  predicate IsIoStep(s: Step) {
    s.IoBegin? || s.IoTimer? || s.IoRegister? || s.IoResume? || s.IoDone? || s.Sleep? || s.SleepResume?
  }

  /** A worker with nothing to run. */
  predicate IsIdleStep(s: Step) {
    s.GoIdle? || s.Expire? || s.Poll? || s.Wakeup? || s.IdleStop? || s.Exit?
  }

  /** Operations on the event table, from a fiber. */
  predicate IsEventStep(s: Step) {
    s.AddCb? || s.Del? || s.Cancel? || s.CancelEvery?
  }

  ghost predicate IoEnabled(p: World, s: Step)
    requires IsIoStep(s)
  {
    match s
    case IoBegin(w, _, _) => Acts(p, w) && StageOf(p, w) == Free
    case IoTimer(w) => Acts(p, w) && StageOf(p, w).IoReady? && StageOf(p, w).timer.None?
    case IoRegister(w, _) => Acts(p, w) && StageOf(p, w).IoReady?
    case IoResume(w) => Acts(p, w) && StageOf(p, w).IoParked? && StageOf(p, w).yielded
    case IoDone(w) => Acts(p, w) && StageOf(p, w).IoReady? && StageOf(p, w).timer.None?
    case Sleep(w) => Acts(p, w) && StageOf(p, w) == Free
    case SleepResume(w) => Acts(p, w) && StageOf(p, w) == Asleep(true)
  }

  ghost predicate IdleEnabled(p: World, s: Step)
    requires IsIdleStep(s)
  {
    match s
    case GoIdle(w) => Loops(p, w) && NothingFor(p, w) && p.workers[w].idle != TERM
    case Expire(w, t) => Idles(p, w) && t < |p.timers| && p.timers[t].cb.Some?
    case Poll(w, fd, _, _) => Idles(p, w) && fd < |p.io.ctxs|
    case Wakeup(w) => Idles(p, w)
    case IdleStop(w) => Idles(p, w) && Quiet(p)
    case Exit(w) => Loops(p, w) && NothingFor(p, w) && p.workers[w].idle == TERM
  }

  ghost predicate EventEnabled(p: World, s: Step)
    requires IsEventStep(s)
  {
    match s
    case AddCb(w, _, _, _, _) => Acts(p, w) && StageOf(p, w) == Free
    case Del(w, _, _, _) => Acts(p, w) && StageOf(p, w) == Free
    case Cancel(w, _, _, _) => Acts(p, w) && StageOf(p, w) == Free
    case CancelEvery(w, _, _) => Acts(p, w) && StageOf(p, w) == Free
  }

  ghost predicate WorkEnabled(p: World, s: Step)
    requires !IsIoStep(s) && !IsIdleStep(s) && !IsEventStep(s)
  {
    match s
    case Take(w) => Loops(p, w) && !NothingFor(p, w)
    case Start(w) => w < |p.workers| && p.workers[w].phase.Taken? && |p.fibs| == |p.sched.states|
    case RunTodo(w, _) => Runs(p, w) && p.workers[w].phase.todo.Some?
    case YieldReady(w) => Acts(p, w) && StageOf(p, w) == Free
    case YieldHold(w) => Acts(p, w) && (StageOf(p, w) == Free || Unyielded(StageOf(p, w)))
    case Finish(w, _) => Acts(p, w) && StageOf(p, w) == Free
    case Spawn(user, _) => user.Some? ==> Acts(p, user.value) && StageOf(p, user.value) == Free
    case Submit(user, _, _) => user.Some? ==> Acts(p, user.value) && StageOf(p, user.value) == Free
    case AddTimer(w, _, _) => Acts(p, w) && StageOf(p, w) == Free
    case DropTimer(w, t) =>
      Acts(p, w) && StageOf(p, w) == Free && t < |p.timers| && p.timers[t].cb.Some? && p.timers[t].cb.value.User?
    case Stop => true
  }

  predicate Unyielded(s: Stage) {
    (s.IoParked? || s.Asleep?) && !s.yielded
  }

  function Yielded(s: Stage): Stage {
    if s.IoParked? then IoParked(s.fd, s.ev, s.info, s.timer, true) else if s.Asleep? then Asleep(true) else s
  }

  // ---- what the steps do ---------------------------------------------------

  function DoTake(p: World, w: nat): World
    requires Loops(p, w) && !NothingFor(p, w)
  {
    var (s, e) := SchedSpec.Take(p.sched, w);
    Relocate(SetPhase(p.(sched := s), w, Taken(e.value.task)), e.value.task, InHand(w), Waking(w))
  }

  /** Worker `w` swaps in the fiber of the entry it took. */
  function Entered(p: World, w: nat, f: nat): Outcome
    requires f < |p.fibs| == |p.sched.states|
  {
    match SwapIn(p.sched, f)
    case None => Fault
    case Some(s) =>
      Next(SetPhase(SetFib(p.(sched := s), f, p.fibs[f].(loc := Nowhere, on := w)), w, Running(f, false, None)))
  }

  /** The idle fiber swaps in; it asserts as any fiber does. */
  function DoGoIdle(p: World, w: nat): Outcome
    requires Loops(p, w)
  {
    var k := p.workers[w];
    if k.idle == EXEC then Fault
    else Next(p.(workers := p.workers[w := Worker(Idling, k.cached, EXEC)]))
  }

  /** It swaps out: on hold, or ended when it found that everything stops. */
  function DoLeaveIdle(p: World, w: nat, t: State): World
    requires Idles(p, w)
  {
    p.(workers := p.workers[w := Worker(Looping, p.workers[w].cached, t)])
  }

  /** A new fiber, in state INIT. */
  function Created(p: World): World {
    p.(sched := p.sched.(states := p.sched.states + [INIT]), fibs := p.fibs + [Fib(Free, Nowhere, 0, 0, 0)])
  }

  function DoStart(p: World, w: nat): Outcome
    requires w < |p.workers| && p.workers[w].phase.Taken? && |p.fibs| == |p.sched.states|
  {
    match p.workers[w].phase.task
    case RunFiber(f) =>
      if f >= |p.fibs| || p.sched.states[f] == TERM || p.sched.states[f] == EXCEPT
      then Next(SetPhase(p.(sched := p.sched.(active := p.sched.active - 1)), w, Looping))
      else Entered(p, w, f)
    case RunCb(cb) =>
      var k := p.workers[w];
      if k.cached.Some? && k.cached.value >= |p.fibs| then Fault
      else
        match EnterCallback(p.sched, k.cached)
        case None => Fault
        case Some((s, f)) =>
          var fibs := if k.cached.Some? then p.fibs else p.fibs + [Fib(Free, Nowhere, w, 0, 0)];
          Next(p.(sched := s, fibs := fibs,
                  workers := p.workers[w := Worker(Running(f, true, Some(cb)), None, k.idle)]))
  }

  /** One run of a callback: a sleeper's schedule, or do_io's timeout. */
  function DoTodo(p: World, w: nat, accept: bool): Outcome
    requires Runs(p, w) && p.workers[w].phase.todo.Some?
  {
    var p1 := SetPhase(p, w, p.workers[w].phase.(todo := None));
    match p.workers[w].phase.todo.value
    case Wake(f) => Next(Pushed(p1, RunFiber(f), None))
    case Timeout(i, fd, ev) =>
      if i < |p.infos| && p.infos[i].alive && !p.infos[i].cancelled
      then Handed(p1.(infos := p.infos[i := Info(true, true)]), CancelEvent(p.io, fd, ev, accept))
      else Next(p1)
    case User(_) => Next(p1)
  }

  /** The fiber sets its state and swaps out; the worker does its bookkeeping. */
  function Left(p: World, w: nat, t: State): World
    requires Acts(p, w)
  {
    var f := p.workers[w].phase.f;
    var (s', keep) := Leave(p.sched, f, t, p.workers[w].phase.viaCb);
    var p1 := SetPhase(p.(sched := s'), w, Looping);
    if keep then SetCached(p1, w, Some(f)) else p1
  }

  function DoYieldReady(p: World, w: nat): World
    requires Acts(p, w)
  {
    var f := p.workers[w].phase.f;
    var b := p.fibs[f];
    SetFib(Left(p, w, READY), f, b.(loc := InQueue, issued := b.issued + 1, queued := b.queued + 1))
  }

  function DoYieldHold(p: World, w: nat): World
    requires Acts(p, w)
  {
    SetStage(Left(p, w, HOLD), p.workers[w].phase.f, Yielded(StageOf(p, w)))
  }

  /** A new fiber and its first entry. */
  function DoSpawn(p: World, pin: Option<nat>): World {
    var p1 := Created(p);
    var f := |p.fibs|;
    SetFib(p1, f, Fib(Free, InQueue, 0, 1, 1)).(sched := Push(p1.sched, Entry(RunFiber(f), pin)))
  }

  function DoRegister(p: World, w: nat, accept: bool): Outcome
    requires Acts(p, w) && StageOf(p, w).IoReady? && |p.io.ctxs| >= 32
  {
    var f := p.workers[w].phase.f;
    var b := p.fibs[f];
    var s := b.stage;
    match AddEvent(p.io, s.fd, s.ev, RunFiber(f), p.sched.states[f] == EXEC, accept)
    case Aborted => Fault
    case Done(io, ok, _) =>
      if ok then
        Next(SetFib(p.(io := io), f,
                    b.(stage := IoParked(s.fd, s.ev, s.info, s.timer, false), loc := AtSlot(s.fd, s.ev),
                       issued := b.issued + 1)))
      else Next(SetStage(Dropped(Stopped(p.(io := io), s.timer), s.info), f, Free))
  }

  /** Back in do_io: cancel the timer; give up if it timed out, else retry. */
  function DoResume(p: World, w: nat): World
    requires Acts(p, w) && StageOf(p, w).IoParked?
  {
    var s := StageOf(p, w);
    var p1 := Stopped(p, s.timer);
    if s.info < |p.infos| && p.infos[s.info].cancelled then SetStage(Dropped(p1, s.info), p.workers[w].phase.f, Free)
    else SetStage(p1, p.workers[w].phase.f, IoReady(s.fd, s.ev, s.info, None))
  }

  function DoSleep(p: World, w: nat): World
    requires Acts(p, w)
  {
    var f := p.workers[w].phase.f;
    var b := p.fibs[f];
    SetFib(p.(timers := p.timers + [Clock(Some(Wake(f)), false)]), f,
           b.(stage := Asleep(false), loc := AtTimer(|p.timers|), issued := b.issued + 1))
  }

  function DoAddCb(p: World, fd: nat, ev: Event, n: nat, accept: bool): Outcome
    requires |p.io.ctxs| >= 32
  {
    Handed(p, AddEvent(p.io, fd, ev, RunCb(User(n)), true, accept))
  }

  /** delEvent: whoever waited is not scheduled. */
  function DoDel(p: World, fd: nat, ev: Event, accept: bool): Outcome {
    match DelEvent(p.io, fd, ev, accept)
    case Aborted => Fault
    case Done(io, ok, _) => Next(Forget(p.(io := io), if ok then Waiting(p.io, fd, ev) else None))
  }

  function Forget(p: World, who: Option<Task>): World {
    if who.Some? && who.value.RunFiber? && who.value.fiber < |p.fibs|
    then SetFib(p, who.value.fiber, p.fibs[who.value.fiber].(loc := Forgotten))
    else p
  }

  function DoExpire(p: World, t: nat): World
    requires t < |p.timers| && p.timers[t].cb.Some?
  {
    var c := p.timers[t];
    Pushed(if c.recurring then p else Stopped(p, Some(t)), RunCb(c.cb.value), None)
  }

  ghost function DoIo(p: World, s: Step): Outcome
    requires IsIoStep(s) && IoEnabled(p, s) && |p.io.ctxs| >= 32
  {
    match s
    case IoBegin(w, fd, ev) =>
      Next(SetStage(p.(infos := p.infos + [Info(true, false)]), p.workers[w].phase.f, IoReady(fd, ev, |p.infos|, None)))
    case IoTimer(w) =>
      var g := StageOf(p, w);
      Next(SetStage(p.(timers := p.timers + [Clock(Some(Timeout(g.info, g.fd, g.ev)), false)]),
                    p.workers[w].phase.f, IoReady(g.fd, g.ev, g.info, Some(|p.timers|))))
    case IoRegister(w, accept) => DoRegister(p, w, accept)
    case IoResume(w) => Next(DoResume(p, w))
    case IoDone(w) => Next(SetStage(Dropped(p, StageOf(p, w).info), p.workers[w].phase.f, Free))
    case Sleep(w) => Next(DoSleep(p, w))
    case SleepResume(w) => Next(SetStage(p, p.workers[w].phase.f, Free))
  }

  ghost function DoIdle(p: World, s: Step): Outcome
    requires IsIdleStep(s) && IdleEnabled(p, s) && |p.io.ctxs| >= 32
  {
    match s
    case GoIdle(w) => DoGoIdle(p, w)
    case Expire(w, t) => Next(DoExpire(p, t))
    case Poll(w, fd, reported, accept) => Handed(p, Dispatch(p.io, fd, reported, accept))
    case Wakeup(w) => Next(DoLeaveIdle(p, w, HOLD))
    case IdleStop(w) => Next(DoLeaveIdle(p, w, TERM))
    case Exit(w) => Next(SetPhase(p, w, Exited))
  }

  ghost function DoEvent(p: World, s: Step): Outcome
    requires IsEventStep(s) && EventEnabled(p, s) && |p.io.ctxs| >= 32
  {
    match s
    case AddCb(w, fd, ev, n, accept) => DoAddCb(p, fd, ev, n, accept)
    case Del(w, fd, ev, accept) => DoDel(p, fd, ev, accept)
    case Cancel(w, fd, ev, accept) => Handed(p, CancelEvent(p.io, fd, ev, accept))
    case CancelEvery(w, fd, accept) => Handed(p, CancelAll(p.io, fd, accept))
  }

  ghost function DoWork(p: World, s: Step): Outcome
    requires !IsIoStep(s) && !IsIdleStep(s) && !IsEventStep(s)
    requires WorkEnabled(p, s) && |p.io.ctxs| >= 32
  {
    match s
    case Take(w) => Next(DoTake(p, w))
    case Start(w) => DoStart(p, w)
    case RunTodo(w, accept) => DoTodo(p, w, accept)
    case YieldReady(w) => Next(DoYieldReady(p, w))
    case YieldHold(w) => Next(DoYieldHold(p, w))
    case Finish(w, thrown) => Next(Left(p, w, if thrown then EXCEPT else TERM))
    case Spawn(_, pin) => Next(DoSpawn(p, pin))
    case Submit(_, n, pin) => Next(Pushed(p, RunCb(User(n)), pin))
    case AddTimer(w, n, recurring) => Next(p.(timers := p.timers + [Clock(Some(User(n)), recurring)]))
    case DropTimer(w, t) => Next(Stopped(p, Some(t)))
    case Stop => Next(p.(autostop := true, stopping := true))
  }

  ghost function Do(p: World, s: Step): Outcome
    requires Enabled(p, s) && |p.io.ctxs| >= 32
  {
    if IsIoStep(s) then DoIo(p, s)
    else if IsIdleStep(s) then DoIdle(p, s)
    else if IsEventStep(s) then DoEvent(p, s)
    else DoWork(p, s)
  }
}
