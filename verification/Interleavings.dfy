/** What every interleaving of the protocol's steps keeps. */
module Interleavings {
  import opened Options
  import opened IoSpec
  import opened SchedSpec
  import opened Protocol

  // ---- the invariant -------------------------------------------------------

  /** A ticket is where the history says. */
  predicate Placed(fibs: seq<Fib>, task: Task, asFiber: Loc, asWake: Loc) {
    match Ticket(task)
    case None => true
    case Some(f) => f < |fibs| && fibs[f].loc == if task.RunFiber? then asFiber else asWake
  }

  ghost predicate QueueOk(queue: seq<Entry>, fibs: seq<Fib>) {
    && (forall i :: 0 <= i < |queue| ==> Placed(fibs, queue[i].task, InQueue, WakeQueued))
    && (forall i, j :: 0 <= i < j < |queue| && Ticket(queue[i].task).Some? ==>
          Ticket(queue[i].task) != Ticket(queue[j].task))
  }

  /** The waiter of a slot is a fiber inside do_io for it, or a user's
      callback. */
  ghost predicate SlotsOk(io: Io, fibs: seq<Fib>) {
    forall fd: nat, ev :: SlotOk(Waiting(io, fd, ev), fd, ev, fibs)
  }

  predicate SlotOk(who: Option<Task>, fd: nat, ev: Event, fibs: seq<Fib>) {
    if who.None? then true
    else if who.value.RunCb? then who.value.cb.User?
    else
      var f := who.value.fiber;
      f < |fibs| && fibs[f].loc == AtSlot(fd, ev) && fibs[f].stage.IoParked? && Uses(fibs[f].stage, fd, ev)
  }

  ghost predicate TimersOk(timers: seq<Clock>, fibs: seq<Fib>) {
    forall t :: 0 <= t < |timers| && timers[t].cb.Some? ==>
      && Placed(fibs, RunCb(timers[t].cb.value), Nowhere, AtTimer(t))
      && (timers[t].recurring ==> timers[t].cb.value.User?)
  }

  /** What a worker holds is its own: the ticket it took, the fiber it runs,
      the fiber it keeps for callbacks, and the idle fiber, which is in EXEC
      exactly while the worker idles. */
  predicate WorkerOk(k: Worker, w: nat, states: seq<State>, fibs: seq<Fib>)
    requires |states| == |fibs|
  {
    && (k.idle == EXEC <==> k.phase.Idling?)
    && (k.cached.Some? ==>
          var c := k.cached.value;
          c < |fibs| && states[c] == INIT && fibs[c].loc == Nowhere && fibs[c].stage == Free && fibs[c].on == w)
    && match k.phase
       case Taken(task) => Placed(fibs, task, InHand(w), Waking(w))
       case Running(f, viaCb, todo) =>
         && f < |fibs| && states[f] == EXEC && fibs[f].on == w
         && (todo.Some? ==> fibs[f].stage == Free && Placed(fibs, RunCb(todo.value), Nowhere, Waking(w)))
       case _ => true
  }

  ghost predicate WorkersOk(workers: seq<Worker>, states: seq<State>, fibs: seq<Fib>)
    requires |states| == |fibs|
  {
    forall w :: 0 <= w < |workers| ==> WorkerOk(workers[w], w, states, fibs)
  }

  predicate Waits(l: Loc) {
    l.AtSlot? || l.AtTimer? || l.WakeQueued? || l.Waking? || l.Forgotten?
  }

  /** A fiber with a ticket has not ended; one with a ticket that is running
      has registered and is about to yield. It was queued once for each time it
      asked to be, but for the one it waits for. */
  predicate FibOk(t: State, b: Fib) {
    && (t == EXEC ==> b.loc == Nowhere || (Unyielded(b.stage) && !b.loc.InHand?))
    && (b.loc != Nowhere ==> t != TERM && t != EXCEPT)
    && (Unyielded(b.stage) ==> t == EXEC)
    && (b.stage.IoReady? ==> t == EXEC)
    && (b.stage != Free ==> t == EXEC || t == HOLD)
    && if Waits(b.loc) then b.queued + 1 == b.issued else b.queued == b.issued
  }

  ghost predicate FibsOk(states: seq<State>, fibs: seq<Fib>)
    requires |states| == |fibs|
  {
    forall f :: 0 <= f < |fibs| ==> FibOk(states[f], fibs[f])
  }

  /** Whoever is in EXEC is being run. */
  ghost predicate RunOk(states: seq<State>, fibs: seq<Fib>, workers: seq<Worker>)
    requires |states| == |fibs|
  {
    forall f :: 0 <= f < |fibs| && states[f] == EXEC ==>
      && fibs[f].on < |workers|
      && workers[fibs[f].on].phase.Running? && workers[fibs[f].on].phase.f == f
  }

  predicate Busy(k: Worker) {
    k.phase.Taken? || k.phase.Running?
  }

  /** The number of workers holding an entry they took. */
  function BusyCount(workers: seq<Worker>): nat {
    if workers == [] then 0
    else BusyCount(workers[..|workers| - 1]) + if Busy(workers[|workers| - 1]) then 1 else 0
  }

  ghost predicate Core(p: World) {
    && |p.sched.states| == |p.fibs|
    && IoSpec.Inv(p.io)
    && QueueOk(p.sched.queue, p.fibs)
    && SlotsOk(p.io, p.fibs)
    && TimersOk(p.timers, p.fibs)
    && WorkersOk(p.workers, p.sched.states, p.fibs)
    && FibsOk(p.sched.states, p.fibs)
    && RunOk(p.sched.states, p.fibs, p.workers)
  }

  ghost predicate Good(p: World) {
    Core(p) && p.sched.active == BusyCount(p.workers)
  }

  lemma {:induction false} BusyUpdate(workers: seq<Worker>, w: nat, k: Worker)
    requires w < |workers|
    ensures BusyCount(workers[w := k])
            == BusyCount(workers) - (if Busy(workers[w]) then 1 else 0) + if Busy(k) then 1 else 0
  {
    var n := |workers| - 1;
    if w == n {
      assert workers[w := k][..n] == workers[..n];
    } else {
      BusyUpdate(workers[..n], w, k);
      assert workers[w := k][..n] == workers[..n][w := k];
    }
  }

  // ---- a fiber without a ticket --------------------------------------------

  ghost predicate NotQueued(queue: seq<Entry>, f: nat) {
    forall i :: 0 <= i < |queue| ==> Ticket(queue[i].task) != Some(f)
  }

  ghost predicate NotInSlot(io: Io, f: nat) {
    forall fd: nat, ev :: Waiting(io, fd, ev) != Some(RunFiber(f))
  }

  ghost predicate NotInTimer(timers: seq<Clock>, f: nat) {
    forall t :: 0 <= t < |timers| ==> timers[t].cb != Some(Wake(f))
  }

  /** The ticket a worker holds. */
  function Held(k: Worker): Option<nat> {
    match k.phase
    case Taken(task) => Ticket(task)
    case Running(_, _, todo) => if todo.Some? then Ticket(RunCb(todo.value)) else None
    case _ => None
  }

  ghost predicate NotHeld(workers: seq<Worker>, f: nat) {
    forall w :: 0 <= w < |workers| ==> Held(workers[w]) != Some(f)
  }

  ghost predicate NotKept(workers: seq<Worker>, f: nat) {
    forall w :: 0 <= w < |workers| ==> workers[w].cached != Some(f)
  }

  /** No ticket for the fiber exists. */
  ghost predicate Unplaced(p: World, f: nat) {
    && NotQueued(p.sched.queue, f) && NotInSlot(p.io, f)
    && NotInTimer(p.timers, f) && NotHeld(p.workers, f)
  }

  /** A ticket is only where the history says. */
  lemma Elsewhere(p: World, f: nat)
    requires Core(p) && f < |p.fibs|
    ensures var l := p.fibs[f].loc;
            && (l != InQueue && l != WakeQueued ==> NotQueued(p.sched.queue, f))
            && (!l.AtSlot? ==> NotInSlot(p.io, f))
            && (!l.AtTimer? ==> NotInTimer(p.timers, f))
            && (!l.InHand? && !l.Waking? ==> NotHeld(p.workers, f))
  {
    hide IoSpec.Inv, Waiting, FibsOk, RunOk;
    if !p.fibs[f].loc.AtSlot? {
      forall fd: nat, ev ensures Waiting(p.io, fd, ev) != Some(RunFiber(f)) {
        assert SlotOk(Waiting(p.io, fd, ev), fd, ev, p.fibs);
      }
    }
    var l := p.fibs[f].loc;
    if !l.InHand? && !l.Waking? {
      forall w | 0 <= w < |p.workers| ensures Held(p.workers[w]) != Some(f) {
        assert WorkerOk(p.workers[w], w, p.sched.states, p.fibs);
      }
    }
  }

  /** A fiber that is running or waiting is no worker's spare. */
  lemma NotSpare(p: World, f: nat)
    requires Core(p) && f < |p.fibs|
    requires p.sched.states[f] != INIT || p.fibs[f].loc != Nowhere || p.fibs[f].stage != Free
    ensures NotKept(p.workers, f)
  {
    hide IoSpec.Inv, Waiting, FibsOk, RunOk, QueueOk, SlotsOk, TimersOk;
    forall w | 0 <= w < |p.workers| ensures p.workers[w].cached != Some(f) {
      assert WorkerOk(p.workers[w], w, p.sched.states, p.fibs);
    }
  }

  // ---- small moves ---------------------------------------------------------

  lemma EntryDropped(p: World, k: nat)
    requires Core(p) && k < |p.sched.queue|
    ensures Core(p.(sched := p.sched.(queue := Without(p.sched.queue, k))))
    ensures Ticket(p.sched.queue[k].task).Some? ==>
            NotQueued(Without(p.sched.queue, k), Ticket(p.sched.queue[k].task).value)
  {
    hide IoSpec.Inv, Waiting, SlotsOk, TimersOk, WorkersOk, FibsOk, RunOk;
  }

  lemma EntryAdded(p: World, e: Entry)
    requires Core(p) && Placed(p.fibs, e.task, InQueue, WakeQueued)
    requires Ticket(e.task).Some? ==> NotQueued(p.sched.queue, Ticket(e.task).value)
    ensures Core(p.(sched := Push(p.sched, e)))
  {
    hide IoSpec.Inv, Waiting, SlotsOk, TimersOk, WorkersOk, FibsOk, RunOk;
  }

  /** The history of a fiber without a ticket may say anything that fits. */
  lemma Moved(p: World, f: nat, b: Fib)
    requires Core(p) && f < |p.fibs| && Unplaced(p, f) && NotKept(p.workers, f)
    requires b.stage == p.fibs[f].stage && FibOk(p.sched.states[f], b)
    requires b.on == p.fibs[f].on || p.sched.states[f] != EXEC
    ensures Core(p.(fibs := p.fibs[f := b]))
  {
    hide IoSpec.Inv, Waiting;
    var fibs := p.fibs[f := b];
    assert QueueOk(p.sched.queue, fibs);
    assert SlotsOk(p.io, fibs) by {
      forall fd: nat, ev ensures SlotOk(Waiting(p.io, fd, ev), fd, ev, fibs) {
        assert SlotOk(Waiting(p.io, fd, ev), fd, ev, p.fibs);
      }
    }
    assert TimersOk(p.timers, fibs);
    assert WorkersOk(p.workers, p.sched.states, fibs) by {
      forall w | 0 <= w < |p.workers| ensures WorkerOk(p.workers[w], w, p.sched.states, fibs) {
        assert WorkerOk(p.workers[w], w, p.sched.states, p.fibs);
      }
    }
  }

  lemma WorkerMoved(p: World, w: nat, k: Worker)
    requires Core(p) && w < |p.workers| && WorkerOk(k, w, p.sched.states, p.fibs)
    requires p.workers[w].phase.Running? ==> k.phase.Running? && k.phase.f == p.workers[w].phase.f
    ensures Core(p.(workers := p.workers[w := k]))
  {
    hide IoSpec.Inv, Waiting, SlotsOk, TimersOk, QueueOk, FibsOk;
    var workers := p.workers[w := k];
    forall v | 0 <= v < |workers| ensures WorkerOk(workers[v], v, p.sched.states, p.fibs) {
      assert v != w ==> workers[v] == p.workers[v];
      assert v != w ==> WorkerOk(p.workers[v], v, p.sched.states, p.fibs);
    }
  }

  /** A worker swaps a fiber in. */
  lemma Swapped(p: World, w: nat, f: nat, k: Worker)
    requires Core(p) && w < |p.workers| && !p.workers[w].phase.Running? && !p.workers[w].phase.Idling? && f < |p.fibs|
    requires p.sched.states[f] != EXEC && p.fibs[f].loc == Nowhere && p.fibs[f].on == w && NotKept(p.workers, f)
    requires k.phase.Running? && k.phase.f == f && (k.cached.Some? ==> k.cached == p.workers[w].cached)
    requires k.idle == p.workers[w].idle
    requires k.phase.todo.Some? ==>
               p.fibs[f].stage == Free && Placed(p.fibs, RunCb(k.phase.todo.value), Nowhere, Waking(w))
    ensures Core(p.(sched := p.sched.(states := p.sched.states[f := EXEC]), workers := p.workers[w := k]))
  {
    hide IoSpec.Inv, Waiting, SlotsOk, TimersOk, QueueOk;
    var states, workers := p.sched.states[f := EXEC], p.workers[w := k];
    forall v | 0 <= v < |workers| ensures WorkerOk(workers[v], v, states, p.fibs) {
      assert WorkerOk(p.workers[v], v, p.sched.states, p.fibs);
    }
  }

  /** A fiber swaps out in state `t`. */
  lemma SwappedOut(p: World, w: nat, t: State, b: Fib, k: Worker)
    requires Core(p) && Acts(p, w) && t != EXEC && k == p.workers[w].(phase := Looping)
    requires var f := p.workers[w].phase.f;
             b == p.fibs[f].(stage := Yielded(p.fibs[f].stage)) && FibOk(t, b)
    ensures var f := p.workers[w].phase.f;
            Core(p.(sched := p.sched.(states := p.sched.states[f := t]), fibs := p.fibs[f := b],
                    workers := p.workers[w := k]))
  {
    hide IoSpec.Inv, Waiting, WorkersOk, SlotsOk;
    var f := p.workers[w].phase.f;
    var fibs := p.fibs[f := b];
    OutWorkers(p, w, t, b, k);
    OutSlots(p, f, b);
  }

  lemma OutSlots(p: World, f: nat, b: Fib)
    requires Core(p) && f < |p.fibs| && b == p.fibs[f].(stage := Yielded(p.fibs[f].stage))
    ensures SlotsOk(p.io, p.fibs[f := b])
  {
    hide IoSpec.Inv, Waiting, WorkersOk, QueueOk, TimersOk, FibsOk, RunOk;
    forall fd: nat, ev ensures SlotOk(Waiting(p.io, fd, ev), fd, ev, p.fibs[f := b]) {
      assert SlotOk(Waiting(p.io, fd, ev), fd, ev, p.fibs);
    }
  }

  lemma OutWorkers(p: World, w: nat, t: State, b: Fib, k: Worker)
    requires Core(p) && Acts(p, w) && t != EXEC && k == p.workers[w].(phase := Looping)
    requires b == p.fibs[p.workers[w].phase.f].(stage := Yielded(p.fibs[p.workers[w].phase.f].stage))
    ensures var f := p.workers[w].phase.f;
            WorkersOk(p.workers[w := k], p.sched.states[f := t], p.fibs[f := b])
  {
    hide IoSpec.Inv, Waiting, SlotsOk, QueueOk, TimersOk, FibsOk, RunOk;
    var f := p.workers[w].phase.f;
    var states, fibs, workers := p.sched.states[f := t], p.fibs[f := b], p.workers[w := k];
    assert WorkerOk(p.workers[w], w, p.sched.states, p.fibs);
    forall v | 0 <= v < |workers| ensures WorkerOk(workers[v], v, states, fibs) {
      assert WorkerOk(p.workers[v], v, p.sched.states, p.fibs);
    }
  }

  /** A running fiber without a ticket goes on to another stage. */
  lemma StageMoved(p: World, w: nat, s: Stage)
    requires Core(p) && Acts(p, w) && !Unyielded(s)
    requires var f := p.workers[w].phase.f; Unplaced(p, f) && p.fibs[f].loc == Nowhere
    ensures var f := p.workers[w].phase.f; Core(p.(fibs := p.fibs[f := p.fibs[f].(stage := s, loc := Nowhere)]))
  {
    hide IoSpec.Inv, Waiting;
    var f := p.workers[w].phase.f;
    var fibs := p.fibs[f := p.fibs[f].(stage := s, loc := Nowhere)];
    assert WorkerOk(p.workers[w], w, p.sched.states, p.fibs);
    forall v | 0 <= v < |p.workers| ensures WorkerOk(p.workers[v], v, p.sched.states, fibs) {
      assert WorkerOk(p.workers[v], v, p.sched.states, p.fibs);
    }
    forall fd: nat, ev ensures SlotOk(Waiting(p.io, fd, ev), fd, ev, fibs) {
      assert SlotOk(Waiting(p.io, fd, ev), fd, ev, p.fibs);
    }
  }

  /** Slots are emptied. */
  lemma SlotsEmptied(p: World, io: Io, fd: nat, evs: set<Event>)
    requires Core(p) && IoSpec.Inv(io) && Moves(p.io, io, fd, evs, None)
    ensures Core(p.(io := io))
    ensures forall f, ev :: 0 <= f < |p.fibs| && p.fibs[f].loc == AtSlot(fd, ev) && ev in evs ==> NotInSlot(io, f)
  {
    hide IoSpec.Inv, Waiting, TimersOk, QueueOk, WorkersOk, FibsOk, RunOk;
    forall i: nat, e ensures SlotOk(Waiting(io, i, e), i, e, p.fibs) {
      assert SlotOk(Waiting(p.io, i, e), i, e, p.fibs);
    }
    forall f, ev | 0 <= f < |p.fibs| && p.fibs[f].loc == AtSlot(fd, ev) && ev in evs ensures NotInSlot(io, f) {
      forall i: nat, e ensures Waiting(io, i, e) != Some(RunFiber(f)) {
        assert SlotOk(Waiting(p.io, i, e), i, e, p.fibs);
      }
    }
  }

  /** An empty slot is given to a user's callback. */
  lemma SlotGiven(p: World, io: Io, fd: nat, ev: Event, n: nat)
    requires Core(p) && IoSpec.Inv(io) && Moves(p.io, io, fd, {ev}, Some(RunCb(User(n))))
    ensures Core(p.(io := io))
  {
    hide IoSpec.Inv, Waiting, TimersOk, QueueOk, WorkersOk, FibsOk, RunOk;
    forall i: nat, e ensures SlotOk(Waiting(io, i, e), i, e, p.fibs) {
      assert SlotOk(Waiting(p.io, i, e), i, e, p.fibs);
    }
  }

  lemma TimerStopped(p: World, t: Option<nat>)
    requires Core(p)
    ensures Core(Stopped(p, t))
    ensures forall f | 0 <= f < |p.fibs| && NotInTimer(p.timers, f) :: NotInTimer(Stopped(p, t).timers, f)
  {
    hide IoSpec.Inv, Waiting, SlotsOk, QueueOk, WorkersOk, FibsOk, RunOk;
  }

  lemma TimerAdded(p: World, c: Clock)
    requires Core(p) && c.cb.Some? && (c.recurring ==> c.cb.value.User?)
    requires Placed(p.fibs, RunCb(c.cb.value), Nowhere, AtTimer(|p.timers|))
    ensures Core(p.(timers := p.timers + [c]))
  {
    hide IoSpec.Inv, Waiting, SlotsOk, QueueOk, WorkersOk, FibsOk, RunOk;
  }

  /** A new fiber nobody knows. */
  lemma FiberCreated(p: World)
    requires Core(p)
    ensures Core(Created(p)) && Unplaced(Created(p), |p.fibs|) && NotKept(p.workers, |p.fibs|)
  {
    hide IoSpec.Inv, Waiting;
    var q := Created(p);
    forall w | 0 <= w < |q.workers|
      ensures WorkerOk(q.workers[w], w, q.sched.states, q.fibs)
      ensures Held(p.workers[w]) != Some(|p.fibs|) && p.workers[w].cached != Some(|p.fibs|)
    {
      assert WorkerOk(p.workers[w], w, p.sched.states, p.fibs);
    }
    forall fd: nat, ev
      ensures SlotOk(Waiting(p.io, fd, ev), fd, ev, q.fibs) && Waiting(p.io, fd, ev) != Some(RunFiber(|p.fibs|))
    {
      assert SlotOk(Waiting(p.io, fd, ev), fd, ev, p.fibs);
    }
  }

  lemma Facts(p: World, f: nat)
    requires Core(p) && f < |p.fibs|
    ensures |p.sched.states| == |p.fibs| && FibOk(p.sched.states[f], p.fibs[f])
    ensures p.sched.states[f] == EXEC ==>
              && p.fibs[f].on < |p.workers|
              && p.workers[p.fibs[f].on].phase.Running? && p.workers[p.fibs[f].on].phase.f == f
  {
  }

  lemma WorkerFacts(p: World, w: nat)
    requires Core(p) && w < |p.workers|
    ensures |p.sched.states| == |p.fibs| && WorkerOk(p.workers[w], w, p.sched.states, p.fibs)
  {
  }

  // ---- schedule ------------------------------------------------------------

  lemma FiberPushed(p: World, f: nat, pin: Option<nat>)
    requires Core(p) && f < |p.fibs| && Unplaced(p, f) && NotKept(p.workers, f)
    requires p.fibs[f].queued < p.fibs[f].issued
    requires FibOk(p.sched.states[f], p.fibs[f].(loc := InQueue, queued := p.fibs[f].queued + 1))
    ensures Core(Pushed(p, RunFiber(f), pin))
  {
    hide Core, IoSpec.Inv, Waiting, NotKept, NotHeld, NotInSlot, NotInTimer, FibOk;
    var b := p.fibs[f].(loc := InQueue, queued := p.fibs[f].queued + 1);
    Moved(p, f, b);
    EntryAdded(p.(fibs := p.fibs[f := b]), Entry(RunFiber(f), pin));
    assert p.fibs[f := p.fibs[f].(loc := InQueue)][f := b] == p.fibs[f := b];
  }

  lemma WakePushed(p: World, f: nat)
    requires Core(p) && f < |p.fibs| && Unplaced(p, f) && NotKept(p.workers, f)
    requires FibOk(p.sched.states[f], p.fibs[f].(loc := WakeQueued))
    ensures Core(Pushed(p, RunCb(Wake(f)), None))
  {
    hide Core, IoSpec.Inv, Waiting, NotKept, NotHeld, NotInSlot, NotInTimer, FibOk;
    var b := p.fibs[f].(loc := WakeQueued);
    Moved(p, f, b);
    EntryAdded(p.(fibs := p.fibs[f := b]), Entry(RunCb(Wake(f)), None));
  }

  lemma CallPushed(p: World, cb: Callback, pin: Option<nat>)
    requires Core(p) && !cb.Wake?
    ensures Core(Pushed(p, RunCb(cb), pin))
  {
    hide Core;
    EntryAdded(p, Entry(RunCb(cb), pin));
  }

  /** The waiter of a slot that was just emptied is queued. */
  lemma WaiterPushed(p: World, task: Task, fd: nat, ev: Event)
    requires Core(p) && SlotOk(Some(task), fd, ev, p.fibs)
    requires task.RunFiber? ==> NotInSlot(p.io, task.fiber)
    ensures Core(Pushed(p, task, None)) && Pushed(p, task, None).io == p.io
    ensures |Pushed(p, task, None).fibs| == |p.fibs|
    ensures forall g | 0 <= g < |p.fibs| && !(task.RunFiber? && g == task.fiber) ::
              Pushed(p, task, None).fibs[g] == p.fibs[g]
  {
    hide Core, IoSpec.Inv, Waiting, NotKept, NotHeld, NotInSlot, NotInTimer, NotQueued;
    match task
    case RunCb(cb) => CallPushed(p, cb, None);
    case RunFiber(f) =>
      Facts(p, f);
      Elsewhere(p, f);
      NotSpare(p, f);
      FiberPushed(p, f, None);
  }

  /** The waiters of some slots of a descriptor leave for the list. */
  lemma HandedKeeps(p: World, io: Io, fd: nat, evs: set<Event>)
    requires Core(p) && IoSpec.Inv(io) && Moves(p.io, io, fd, evs, None)
    ensures Core(PushedAll(p.(io := io), Waiters(p.io, fd, evs)))
  {
    hide Core, IoSpec.Inv, Waiting, Pushed, NotInSlot, SlotOk, Moves;
    SlotsEmptied(p, io, fd, evs);
    WaiterFacts(p, fd, READ);
    WaiterFacts(p, fd, WRITE);
    var r := if READ in evs then Waiting(p.io, fd, READ) else None;
    var x := if WRITE in evs then Waiting(p.io, fd, WRITE) else None;
    var p1 := p.(io := io);
    var p2 := p1;
    if r.Some? {
      WaiterPushed(p1, r.value, fd, READ);
      p2 := Pushed(p1, r.value, None);
    }
    if x.Some? {
      assert SlotOk(x, fd, WRITE, p2.fibs) by {
        StillWaiting(p, p2, r, x, fd);
      }
      WaiterPushed(p2, x.value, fd, WRITE);
    }
    PushedTwo(p1, r, x);
    assert Waiters(p.io, fd, evs) == Listed(r) + Listed(x);
  }

  lemma PushedTwo(p: World, r: Option<Task>, x: Option<Task>)
    ensures var q := if r.Some? then Pushed(p, r.value, None) else p;
            PushedAll(p, Listed(r) + Listed(x)) == if x.Some? then Pushed(q, x.value, None) else q
  {
    hide Pushed;
    var tasks := Listed(r) + Listed(x);
    var q := if r.Some? then Pushed(p, r.value, None) else p;
    assert PushedAll(p, tasks) == PushedAll(q, Listed(x)) by {
      if r.Some? {
        assert tasks[0] == r.value && tasks[1..] == Listed(x);
      } else {
        assert tasks == Listed(x);
      }
    }
    if x.Some? {
      assert Listed(x) == [x.value] && [x.value][1..] == [];
      assert PushedAll(Pushed(q, x.value, None), []) == Pushed(q, x.value, None);
    }
  }

  lemma WaiterFacts(p: World, fd: nat, ev: Event)
    requires Core(p)
    ensures SlotOk(Waiting(p.io, fd, ev), fd, ev, p.fibs)
    ensures var x := Waiting(p.io, fd, ev); x.Some? && x.value.RunFiber? ==>
              x.value.fiber < |p.fibs| && p.fibs[x.value.fiber].loc == AtSlot(fd, ev)
  {
  }

  lemma StillWaiting(p: World, p2: World, r: Option<Task>, x: Option<Task>, fd: nat)
    requires SlotOk(r, fd, READ, p.fibs) && SlotOk(x, fd, WRITE, p.fibs) && |p2.fibs| == |p.fibs|
    requires forall g | 0 <= g < |p.fibs| && !(r.Some? && r.value.RunFiber? && g == r.value.fiber) ::
               p2.fibs[g] == p.fibs[g]
    ensures SlotOk(x, fd, WRITE, p2.fibs)
  {
  }

  // ---- the steps of run ------------------------------------------------------

  lemma TakeKeeps(p: World, w: nat)
    requires Good(p) && Loops(p, w) && !NothingFor(p, w)
    ensures Good(DoTake(p, w))
  {
    hide Core, IoSpec.Inv, Waiting, NotHeld, NotInSlot, NotInTimer, NotKept, FibOk, TakeIndex;
    var k := TakeIndex(p.sched.queue, p.sched.states, w);
    TakeCore(p, w, k);
    BusyUpdate(p.workers, w, p.workers[w].(phase := Taken(p.sched.queue[k].task)));
  }

  lemma TakeCore(p: World, w: nat, k: nat)
    requires Core(p) && Loops(p, w) && k < |p.sched.queue| && Eligible(p.sched.queue[k], p.sched.states, w)
    ensures var task := p.sched.queue[k].task;
            var s := p.sched.(queue := Without(p.sched.queue, k), active := p.sched.active + 1);
            Core(Relocate(SetPhase(p.(sched := s), w, Taken(task)), task, InHand(w), Waking(w)))
  {
    hide Core, IoSpec.Inv, Waiting, NotHeld, NotInSlot, NotInTimer, NotKept, NotQueued;
    var task := p.sched.queue[k].task;
    EntryFacts(p, k);
    EntryDropped(p, k);
    var p1 := p.(sched := p.sched.(queue := Without(p.sched.queue, k)));
    var p2 := p1;
    if Ticket(task).Some? {
      var f := Ticket(task).value;
      Elsewhere(p1, f);
      NotSpare(p1, f);
      Facts(p1, f);
      p2 := Relocate(p1, task, InHand(w), Waking(w));
      Moved(p1, f, p2.fibs[f]);
    }
    WorkerFacts(p2, w);
    WorkerMoved(p2, w, p.workers[w].(phase := Taken(task)));
    ActiveIsFree(p2.(workers := p2.workers[w := p.workers[w].(phase := Taken(task))]), p.sched.active + 1);
  }

  lemma EntryFacts(p: World, k: nat)
    requires Core(p) && k < |p.sched.queue|
    ensures Placed(p.fibs, p.sched.queue[k].task, InQueue, WakeQueued)
  {
  }

  /** The count of active threads and the do_io records are no part of Core. */
  lemma ActiveIsFree(p: World, active: int)
    requires Core(p)
    ensures Core(p.(sched := p.sched.(active := active)))
  {
  }

  lemma InfosAreFree(p: World, infos: seq<Info>)
    requires Core(p)
    ensures Core(p.(infos := infos))
  {
  }

  lemma IdleKeeps(p: World, w: nat, k: Worker)
    requires Good(p) && w < |p.workers| && !Busy(p.workers[w]) && !Busy(k) && k.cached == p.workers[w].cached
    requires k.idle == EXEC <==> k.phase.Idling?
    ensures Good(p.(workers := p.workers[w := k]))
  {
    hide Core;
    WorkerFacts(p, w);
    WorkerMoved(p, w, k);
    BusyUpdate(p.workers, w, k);
  }

  lemma StartKeeps(p: World, w: nat)
    requires Good(p) && w < |p.workers| && p.workers[w].phase.Taken?
    ensures DoStart(p, w).Next? && Good(DoStart(p, w).p)
  {
    hide Core, IoSpec.Inv, Waiting, NotHeld, NotInSlot, NotInTimer, NotKept, NotQueued;
    WorkerFacts(p, w);
    if p.workers[w].phase.task.RunFiber? {
      StartFiber(p, w, p.workers[w].phase.task.fiber);
    } else if p.workers[w].cached.Some? {
      StartSpare(p, w, p.workers[w].cached.value, p.workers[w].phase.task.cb);
    } else {
      StartFresh(p, w, p.workers[w].phase.task.cb);
    }
  }

  lemma StartFiber(p: World, w: nat, f: nat)
    requires Good(p) && w < |p.workers| && p.workers[w].phase == Taken(RunFiber(f))
    ensures f < |p.fibs| && p.sched.states[f] != TERM && p.sched.states[f] != EXCEPT && p.sched.states[f] != EXEC
    ensures Entered(p, w, f).Next? && Good(Entered(p, w, f).p)
  {
    hide Core, IoSpec.Inv, Waiting, NotInSlot, NotInTimer, NotKept, NotQueued;
    WorkerFacts(p, w);
    Facts(p, f);
    Elsewhere(p, f);
    var k := p.workers[w].(phase := Looping);
    WorkerMoved(p, w, k);
    var p1 := p.(workers := p.workers[w := k]);
    NotSpare(p1, f);
    assert NotHeld(p1.workers, f) by {
      OneHand(p, w, f);
    }
    var b := p.fibs[f].(loc := Nowhere, on := w);
    Moved(p1, f, b);
    var p2 := p1.(fibs := p1.fibs[f := b]);
    var k2 := k.(phase := Running(f, false, None));
    Swapped(p2, w, f, k2);
    BusyUpdate(p.workers, w, k2);
    assert p2.workers[w := k2] == p.workers[w := k2];
  }

  /** Only the worker the history names holds the ticket. */
  lemma OneHand(p: World, w: nat, f: nat)
    requires Core(p) && w < |p.workers| && Held(p.workers[w]) == Some(f)
    ensures f < |p.fibs| && forall v | 0 <= v < |p.workers| && v != w :: Held(p.workers[v]) != Some(f)
  {
    hide IoSpec.Inv, Waiting, SlotsOk, TimersOk, QueueOk, FibsOk, RunOk;
    assert WorkerOk(p.workers[w], w, p.sched.states, p.fibs);
    forall v | 0 <= v < |p.workers| && v != w ensures Held(p.workers[v]) != Some(f) {
      assert WorkerOk(p.workers[v], v, p.sched.states, p.fibs);
    }
  }

  lemma StartSpare(p: World, w: nat, c: nat, cb: Callback)
    requires Good(p) && w < |p.workers| && p.workers[w].phase == Taken(RunCb(cb)) && p.workers[w].cached == Some(c)
    ensures DoStart(p, w).Next? && Good(DoStart(p, w).p)
  {
    hide Core, IoSpec.Inv, Waiting, NotInSlot, NotInTimer, NotQueued, NotHeld;
    WorkerFacts(p, w);
    var k := p.workers[w].(cached := None);
    WorkerMoved(p, w, k);
    var p1 := p.(workers := p.workers[w := k]);
    assert NotKept(p1.workers, c) by {
      OneSpare(p, w, c);
    }
    var k2 := k.(phase := Running(c, true, Some(cb)));
    Swapped(p1, w, c, k2);
    BusyUpdate(p.workers, w, k2);
    assert p1.workers[w := k2] == p.workers[w := k2];
    assert p.sched.states[c := INIT][c := EXEC] == p.sched.states[c := EXEC];
  }

  lemma OneSpare(p: World, w: nat, c: nat)
    requires Core(p) && w < |p.workers| && p.workers[w].cached == Some(c)
    ensures forall v | 0 <= v < |p.workers| && v != w :: p.workers[v].cached != Some(c)
  {
    hide IoSpec.Inv, Waiting, SlotsOk, TimersOk, QueueOk, FibsOk, RunOk;
    assert WorkerOk(p.workers[w], w, p.sched.states, p.fibs);
    forall v | 0 <= v < |p.workers| && v != w ensures p.workers[v].cached != Some(c) {
      assert WorkerOk(p.workers[v], v, p.sched.states, p.fibs);
    }
  }

  lemma StartFresh(p: World, w: nat, cb: Callback)
    requires Good(p) && w < |p.workers| && p.workers[w].phase == Taken(RunCb(cb)) && p.workers[w].cached == None
    ensures DoStart(p, w).Next? && Good(DoStart(p, w).p)
  {
    hide Core, IoSpec.Inv, Waiting, NotHeld, NotInSlot, NotInTimer, NotKept, NotQueued;
    var f := |p.fibs|;
    WorkerFacts(p, w);
    FiberCreated(p);
    var p1 := Created(p);
    var b := p1.fibs[f].(on := w);
    Moved(p1, f, b);
    var p2 := p1.(fibs := p1.fibs[f := b]);
    var k := p.workers[w].(phase := Running(f, true, Some(cb)));
    Swapped(p2, w, f, k);
    BusyUpdate(p.workers, w, k);
    assert p2.fibs == p.fibs + [b] && p2.sched.states == p.sched.states + [INIT];
  }

  lemma CallbackLeft(p: World, w: nat, t: State)
    requires Good(p) && Acts(p, w) && StageOf(p, w) == Free && (t == TERM || t == EXCEPT) && p.workers[w].phase.viaCb
    ensures Good(Left(p, w, t))
  {
    hide Core, IoSpec.Inv, Waiting, Unplaced, FibOk;
    var f := p.workers[w].phase.f;
    var k1 := p.workers[w].(phase := Looping);
    EndedOut(p, w, INIT);
    BusyUpdate(p.workers, w, k1);
    var p1 := p.(sched := p.sched.(states := p.sched.states[f := INIT]), workers := p.workers[w := k1]);
    var k2 := k1.(cached := Some(f));
    WorkerFacts(p1, w);
    WorkerMoved(p1, w, k2);
    BusyUpdate(p1.workers, w, k2);
    ActiveIsFree(p1.(workers := p1.workers[w := k2]), p.sched.active - 1);
    assert p.sched.states[f := t][f := INIT] == p.sched.states[f := INIT];
  }

  /** A fiber that is done swaps out. */
  lemma EndedOut(p: World, w: nat, t: State)
    requires Core(p) && Acts(p, w) && StageOf(p, w) == Free && (t == TERM || t == EXCEPT || t == INIT)
    ensures var f := p.workers[w].phase.f;
            && p.fibs[f].loc == Nowhere && p.fibs[f].on == w
            && Core(p.(sched := p.sched.(states := p.sched.states[f := t]),
                       workers := p.workers[w := p.workers[w].(phase := Looping)]))
  {
    hide Core, IoSpec.Inv, Waiting, Unplaced;
    var f := p.workers[w].phase.f;
    WorkerFacts(p, w);
    Facts(p, f);
    assert p.fibs[f := p.fibs[f]] == p.fibs;
    SwappedOut(p, w, t, p.fibs[f], p.workers[w].(phase := Looping));
  }

  /** A fiber that ends, and the bookkeeping after it. */
  lemma LeftKeeps(p: World, w: nat, t: State)
    requires Good(p) && Acts(p, w) && StageOf(p, w) == Free && (t == TERM || t == EXCEPT)
    ensures Good(Left(p, w, t))
  {
    hide Core, IoSpec.Inv, Waiting, Unplaced;
    var k := p.workers[w].phase;
    if k.viaCb {
      CallbackLeft(p, w, t);
    } else {
      var k1 := p.workers[w].(phase := Looping);
      EndedOut(p, w, t);
      BusyUpdate(p.workers, w, k1);
      ActiveIsFree(p.(sched := p.sched.(states := p.sched.states[k.f := t]), workers := p.workers[w := k1]),
                   p.sched.active - 1);
    }
  }

  lemma YieldHoldKeeps(p: World, w: nat)
    requires Good(p) && Acts(p, w) && (StageOf(p, w) == Free || Unyielded(StageOf(p, w)))
    ensures Good(DoYieldHold(p, w))
  {
    hide Core, IoSpec.Inv, Waiting, Unplaced;
    var f := p.workers[w].phase.f;
    var k := p.workers[w].(phase := Looping);
    var b := p.fibs[f].(stage := Yielded(p.fibs[f].stage));
    WorkerFacts(p, w);
    Facts(p, f);
    SwappedOut(p, w, HOLD, b, k);
    BusyUpdate(p.workers, w, k);
    ActiveIsFree(p.(sched := p.sched.(states := p.sched.states[f := HOLD]), fibs := p.fibs[f := b],
                    workers := p.workers[w := k]), p.sched.active - 1);
    assert p.sched.states[f := HOLD][f := HOLD] == p.sched.states[f := HOLD];
  }

  lemma YieldReadyKeeps(p: World, w: nat)
    requires Good(p) && Acts(p, w) && StageOf(p, w) == Free
    ensures Good(DoYieldReady(p, w))
  {
    hide Core, IoSpec.Inv, Waiting, NotHeld, NotInSlot, NotInTimer, NotKept, NotQueued, Pushed;
    var f := p.workers[w].phase.f;
    var k := p.workers[w].(phase := Looping);
    var p1 := p.(sched := p.sched.(states := p.sched.states[f := READY]), workers := p.workers[w := k]);
    ReadyOut(p, w, f);
    Requeued(p1, f);
    BusyUpdate(p.workers, w, k);
    var b := p.fibs[f];
    ActiveIsFree(p1.(sched := Push(p1.sched, Entry(RunFiber(f), None)),
                     fibs := p1.fibs[f := b.(loc := InQueue, issued := b.issued + 1, queued := b.queued + 1)]),
                 p.sched.active - 1);
  }

  lemma ReadyOut(p: World, w: nat, f: nat)
    requires Core(p) && Acts(p, w) && StageOf(p, w) == Free && f == p.workers[w].phase.f
    ensures Core(p.(sched := p.sched.(states := p.sched.states[f := READY]),
                    workers := p.workers[w := p.workers[w].(phase := Looping)]))
    ensures p.fibs[f].loc == Nowhere && FibOk(READY, p.fibs[f])
  {
    hide Core, IoSpec.Inv, Waiting, Unplaced;
    WorkerFacts(p, w);
    Facts(p, f);
    assert p.fibs[f := p.fibs[f]] == p.fibs;
    SwappedOut(p, w, READY, p.fibs[f], p.workers[w].(phase := Looping));
  }

  lemma Requeued(p: World, f: nat)
    requires Core(p) && f < |p.fibs| == |p.sched.states| && p.sched.states[f] == READY && p.fibs[f].loc == Nowhere
    ensures var b := p.fibs[f];
            Core(p.(sched := Push(p.sched, Entry(RunFiber(f), None)),
                    fibs := p.fibs[f := b.(loc := InQueue, issued := b.issued + 1, queued := b.queued + 1)]))
  {
    hide Core, IoSpec.Inv, Waiting, NotHeld, NotInSlot, NotInTimer, NotKept;
    Facts(p, f);
    Elsewhere(p, f);
    NotSpare(p, f);
    var b := p.fibs[f].(loc := InQueue, issued := p.fibs[f].issued + 1, queued := p.fibs[f].queued + 1);
    Moved(p, f, b);
    EntryAdded(p.(fibs := p.fibs[f := b]), Entry(RunFiber(f), None));
  }

  // ---- spawning and callbacks ------------------------------------------------

  lemma SpawnKeeps(p: World, pin: Option<nat>)
    requires Good(p)
    ensures Good(DoSpawn(p, pin))
  {
    hide Core, IoSpec.Inv, Waiting, NotHeld, NotInSlot, NotInTimer, NotKept;
    var f := |p.fibs|;
    FiberCreated(p);
    var p1 := Created(p);
    var b := Fib(Free, InQueue, 0, 1, 1);
    Sizes(p);
    Moved(p1, f, b);
    EntryAdded(p1.(fibs := p1.fibs[f := b]), Entry(RunFiber(f), pin));
  }

  lemma Sizes(p: World)
    requires Core(p)
    ensures |p.sched.states| == |p.fibs| && IoSpec.Inv(p.io) && |p.io.ctxs| >= 32
  {
  }

  lemma CallKeeps(p: World, cb: Callback, pin: Option<nat>)
    requires Good(p) && !cb.Wake?
    ensures Good(Pushed(p, RunCb(cb), pin))
  {
    hide Core;
    CallPushed(p, cb, pin);
  }

  /** What an operation that empties slots leaves behind is good. */
  lemma ResultKeeps(p: World, r: Result, fd: nat, evs: set<Event>)
    requires Good(p) && r.Done? && IoSpec.Inv(r.io) && Moves(p.io, r.io, fd, evs, None)
    requires r.tasks == Waiters(p.io, fd, evs)
    ensures Handed(p, r).Next? && Good(Handed(p, r).p)
  {
    hide Core, IoSpec.Inv, Waiting, Pushed, Moves;
    HandedKeeps(p, r.io, fd, evs);
    PushesOnly(p.(io := r.io), r.tasks);
  }

  lemma {:induction false} PushesOnly(p: World, tasks: seq<Task>)
    ensures var q := PushedAll(p, tasks);
            && q.workers == p.workers && q.sched.active == p.sched.active && q.io == p.io
            && |q.fibs| == |p.fibs| && forall f :: 0 <= f < |p.fibs| ==> q.fibs[f].issued == p.fibs[f].issued
    decreases |tasks|
  {
    if tasks != [] {
      PushesOnly(Pushed(p, tasks[0], None), tasks[1..]);
    }
  }

  lemma CancelKeeps(p: World, fd: nat, ev: Event, accept: bool)
    requires Good(p)
    ensures var r := Handed(p, CancelEvent(p.io, fd, ev, accept)); r.Next? && Good(r.p)
  {
    hide Core, IoSpec.Inv, Waiting, Pushed, Moves, CancelEvent, PushedAll;
    Sizes(p);
    CancelEventKeeps(p.io, fd, ev, accept);
    var r := CancelEvent(p.io, fd, ev, accept);
    ResultKeeps(p, r, fd, if r.ok then {ev} else {});
  }

  lemma CancelEveryKeeps(p: World, fd: nat, accept: bool)
    requires Good(p)
    ensures var r := Handed(p, CancelAll(p.io, fd, accept)); r.Next? && Good(r.p)
  {
    hide Core, IoSpec.Inv, Waiting, Pushed, Moves, CancelAll, PushedAll;
    Sizes(p);
    CancelAllKeeps(p.io, fd, accept);
    var r := CancelAll(p.io, fd, accept);
    ResultKeeps(p, r, fd, if r.ok then {READ, WRITE} else {});
  }

  /** The kernel reports a registered event together with one that is not. */
  predicate Overreports(io: Io, fd: nat, reported: set<Event>) {
    fd < |io.ctxs| && io.ctxs[fd].events * reported != {} && !(reported <= io.ctxs[fd].events)
  }

  lemma PollKeeps(p: World, fd: nat, reported: set<Event>, accept: bool)
    requires Good(p) && fd < |p.io.ctxs|
    ensures var r := Handed(p, Dispatch(p.io, fd, reported, accept));
            && (r.Next? <==> !(accept && Overreports(p.io, fd, reported)))
            && (r.Next? ==> Good(r.p))
  {
    hide Core, IoSpec.Inv, Waiting, Pushed, Moves, Dispatch, DispatchRegistered, PushedAll;
    Sizes(p);
    DispatchAborts(p.io, fd, reported, accept);
    DispatchKeeps(p.io, fd, reported, accept);
    var r := DispatchRegistered(p.io, fd, reported, accept);
    ResultKeeps(p, r, fd, if r.ok then reported else {});
  }

  lemma DelKeeps(p: World, fd: nat, ev: Event, accept: bool)
    requires Good(p)
    ensures DoDel(p, fd, ev, accept).Next? && Good(DoDel(p, fd, ev, accept).p)
  {
    hide Core, IoSpec.Inv, Waiting, Moves, DelEvent, NotInSlot, Forget;
    Sizes(p);
    DelEventKeeps(p.io, fd, ev, accept);
    var r := DelEvent(p.io, fd, ev, accept);
    SlotsEmptied(p, r.io, fd, if r.ok then {ev} else {});
    WaiterFacts(p, fd, ev);
    ForgetKeeps(p.(io := r.io), fd, ev, if r.ok then Waiting(p.io, fd, ev) else None);
  }

  lemma ForgetKeeps(p: World, fd: nat, ev: Event, who: Option<Task>)
    requires Good(p) && SlotOk(who, fd, ev, p.fibs)
    requires who.Some? && who.value.RunFiber? ==> NotInSlot(p.io, who.value.fiber)
    ensures Good(Forget(p, who))
  {
    hide Core, IoSpec.Inv, Waiting, NotKept, NotHeld, NotInSlot, NotInTimer, NotQueued;
    if who.Some? && who.value.RunFiber? {
      var f := who.value.fiber;
      Facts(p, f);
      Elsewhere(p, f);
      NotSpare(p, f);
      Moved(p, f, p.fibs[f].(loc := Forgotten));
    }
  }

  /** A worker has run the callback it was to start with. */
  lemma TodoGood(p: World, w: nat)
    requires Good(p) && Runs(p, w) && p.workers[w].phase.todo.Some?
    ensures Good(SetPhase(p, w, p.workers[w].phase.(todo := None)))
  {
    hide Core;
    var k := p.workers[w].(phase := p.workers[w].phase.(todo := None));
    WorkerFacts(p, w);
    WorkerMoved(p, w, k);
    BusyUpdate(p.workers, w, k);
  }

  lemma TodoKeeps(p: World, w: nat, accept: bool)
    requires Good(p) && Runs(p, w) && p.workers[w].phase.todo.Some?
    ensures DoTodo(p, w, accept).Next? && Good(DoTodo(p, w, accept).p)
  {
    hide Core, IoSpec.Inv, Waiting, Pushed, Moves, CancelEvent, PushedAll, Handed;
    WorkerFacts(p, w);
    TodoGood(p, w);
    var k := p.workers[w].(phase := p.workers[w].phase.(todo := None));
    var p1 := p.(workers := p.workers[w := k]);
    match p.workers[w].phase.todo.value
    case User(_) =>
    case Timeout(i, fd, ev) =>
      if i < |p.infos| && p.infos[i].alive && !p.infos[i].cancelled {
        var infos := p.infos[i := Info(true, true)];
        InfosAreFree(p1, infos);
        CancelKeeps(p1.(infos := infos), fd, ev, accept);
      }
    case Wake(f) =>
      WokenKeeps(p, w, f, k);
  }

  lemma WokenKeeps(p: World, w: nat, f: nat, k: Worker)
    requires Good(p) && Runs(p, w) && Held(p.workers[w]) == Some(f)
    requires k == p.workers[w].(phase := p.workers[w].phase.(todo := None))
    requires Good(p.(workers := p.workers[w := k]))
    ensures Good(Pushed(p.(workers := p.workers[w := k]), RunFiber(f), None))
  {
    hide Core, IoSpec.Inv, Waiting, NotInSlot, NotInTimer, NotKept, NotQueued;
    var p1 := p.(workers := p.workers[w := k]);
    OneHand(p, w, f);
    WorkerFacts(p, w);
    Facts(p, f);
    Elsewhere(p1, f);
    NotSpare(p1, f);
    FiberPushed(p1, f, None);
  }

  lemma ExpireKeeps(p: World, t: nat)
    requires Good(p) && t < |p.timers| && p.timers[t].cb.Some?
    ensures Good(DoExpire(p, t))
  {
    hide Core, IoSpec.Inv, Waiting, NotHeld, NotInSlot, NotKept, NotQueued;
    ClockFacts(p, t);
    TimerStopped(p, Some(t));
    var c := p.timers[t];
    if c.cb.value.Wake? {
      var f := c.cb.value.fiber;
      var p1 := Stopped(p, Some(t));
      OneTimer(p, t, f);
      Elsewhere(p1, f);
      Facts(p1, f);
      NotSpare(p1, f);
      WakePushed(p1, f);
    } else {
      CallPushed(if c.recurring then p else Stopped(p, Some(t)), c.cb.value, None);
    }
  }

  lemma ClockFacts(p: World, t: nat)
    requires Core(p) && t < |p.timers| && p.timers[t].cb.Some?
    ensures Placed(p.fibs, RunCb(p.timers[t].cb.value), Nowhere, AtTimer(t))
    ensures p.timers[t].recurring ==> p.timers[t].cb.value.User?
  {
  }

  lemma OneTimer(p: World, t: nat, f: nat)
    requires Core(p) && t < |p.timers| && p.timers[t].cb == Some(Wake(f))
    ensures forall u | 0 <= u < |p.timers| && u != t :: p.timers[u].cb != Some(Wake(f))
  {
    hide IoSpec.Inv, Waiting, SlotsOk, QueueOk, FibsOk, RunOk, WorkersOk;
    assert Placed(p.fibs, RunCb(p.timers[t].cb.value), Nowhere, AtTimer(t));
    forall u | 0 <= u < |p.timers| && u != t ensures p.timers[u].cb != Some(Wake(f)) {
      assert p.timers[u].cb.Some? ==> Placed(p.fibs, RunCb(p.timers[u].cb.value), Nowhere, AtTimer(u));
    }
  }

  // ---- do_io and sleep ---------------------------------------------------------

  /** Code that runs between waits has no ticket. */
  lemma RunningFacts(p: World, w: nat)
    requires Core(p) && Acts(p, w) && !Unyielded(StageOf(p, w))
    ensures var f := p.workers[w].phase.f;
            && p.sched.states[f] == EXEC && p.fibs[f].loc == Nowhere && p.fibs[f].on == w
            && Unplaced(p, f) && NotKept(p.workers, f)
  {
    hide Core, IoSpec.Inv, Waiting, NotHeld, NotInSlot, NotInTimer, NotKept, NotQueued;
    var f := p.workers[w].phase.f;
    WorkerFacts(p, w);
    Facts(p, f);
    Elsewhere(p, f);
    NotSpare(p, f);
  }

  /** A fiber that goes on, inside do_io or not, moves to another stage. */
  lemma StageKeeps(p: World, w: nat, s: Stage)
    requires Core(p) && Acts(p, w) && !Unyielded(StageOf(p, w))
    requires s.Free? || s.IoReady?
    ensures Core(SetStage(p, p.workers[w].phase.f, s))
  {
    hide Core, IoSpec.Inv, Waiting, Unplaced, NotKept;
    var f := p.workers[w].phase.f;
    RunningFacts(p, w);
    assert p.fibs[f := p.fibs[f].(stage := s, loc := Nowhere)] == p.fibs[f := p.fibs[f].(stage := s)];
    StageMoved(p, w, s);
  }

  lemma TimedKeeps(p: World, cb: Callback)
    requires Core(p) && !cb.Wake?
    ensures Core(p.(timers := p.timers + [Clock(Some(cb), false)]))
  {
    hide Core;
    TimerAdded(p, Clock(Some(cb), false));
  }

  /** Whoever shares a descriptor and direction: the addEvent of do_io fails an
      assertion exactly when somebody waits there already, since the fiber that
      calls it is always in EXEC. */
  lemma RegisterKeeps(p: World, w: nat, accept: bool)
    requires Good(p) && Acts(p, w) && StageOf(p, w).IoReady? && |p.io.ctxs| >= 32
    ensures DoRegister(p, w, accept).Next? <==> Waiting(p.io, StageOf(p, w).fd, StageOf(p, w).ev) == None
    ensures DoRegister(p, w, accept).Next? ==> Good(DoRegister(p, w, accept).p)
  {
    hide Core, IoSpec.Inv, Waiting, Unplaced, NotKept, Moves, AddEvent;
    Sizes(p);
    WorkerFacts(p, w);
    var s := StageOf(p, w);
    var f := p.workers[w].phase.f;
    AddEventKeeps(p.io, s.fd, s.ev, RunFiber(f), true, accept);
    var r := AddEvent(p.io, s.fd, s.ev, RunFiber(f), true, accept);
    if r.Done? {
      if accept {
        Registered(p, w, r.io);
      } else {
        NothingMoves(p.io, r.io, s.fd, Some(RunFiber(f)));
        SlotsEmptied(p, r.io, s.fd, {});
        var p1 := p.(io := r.io);
        TimerStopped(p1, s.timer);
        var p2 := Stopped(p1, s.timer);
        InfosAreFree(p2, Dropped(p2, s.info).infos);
        StageKeeps(Dropped(p2, s.info), w, Free);
      }
    }
  }

  lemma NothingMoves(io: Io, io': Io, fd: nat, who: Option<Task>)
    requires Moves(io, io', fd, {}, who)
    ensures Moves(io, io', fd, {}, None)
  {
  }

  /** The fiber's one ticket goes into the slot. */
  lemma Registered(p: World, w: nat, io: Io)
    requires Core(p) && Acts(p, w) && StageOf(p, w).IoReady? && IoSpec.Inv(io)
    requires var s := StageOf(p, w); Moves(p.io, io, s.fd, {s.ev}, Some(RunFiber(p.workers[w].phase.f)))
    ensures var f := p.workers[w].phase.f;
            var b := p.fibs[f];
            var s := b.stage;
            Core(p.(io := io, fibs := p.fibs[f := b.(stage := IoParked(s.fd, s.ev, s.info, s.timer, false),
                                                    loc := AtSlot(s.fd, s.ev), issued := b.issued + 1)]))
  {
    hide IoSpec.Inv, Waiting, SlotsOk, WorkersOk, Moves, NotInSlot, NotKept, NotHeld;
    RunningFacts(p, w);
    var f := p.workers[w].phase.f;
    var s := p.fibs[f].stage;
    var b := p.fibs[f].(stage := IoParked(s.fd, s.ev, s.info, s.timer, false), loc := AtSlot(s.fd, s.ev),
                        issued := p.fibs[f].issued + 1);
    RegisteredWorkers(p, w, b);
    RegisteredSlots(p, f, b, io);
  }

  lemma RegisteredSlots(p: World, f: nat, b: Fib, io: Io)
    requires Core(p) && f < |p.fibs| && NotInSlot(p.io, f)
    requires b.stage.IoParked? && b.loc == AtSlot(b.stage.fd, b.stage.ev)
    requires Moves(p.io, io, b.stage.fd, {b.stage.ev}, Some(RunFiber(f)))
    ensures SlotsOk(io, p.fibs[f := b])
  {
    hide IoSpec.Inv, Waiting, WorkersOk, QueueOk, TimersOk, FibsOk, RunOk;
    forall fd: nat, ev ensures SlotOk(Waiting(io, fd, ev), fd, ev, p.fibs[f := b]) {
      assert SlotOk(Waiting(p.io, fd, ev), fd, ev, p.fibs);
    }
  }

  lemma RegisteredWorkers(p: World, w: nat, b: Fib)
    requires Core(p) && Acts(p, w)
    requires var f := p.workers[w].phase.f; b.on == w && NotHeld(p.workers, f) && NotKept(p.workers, f)
    ensures WorkersOk(p.workers, p.sched.states, p.fibs[p.workers[w].phase.f := b])
  {
    hide IoSpec.Inv, Waiting, SlotsOk, TimersOk, QueueOk, FibsOk, RunOk;
    var f := p.workers[w].phase.f;
    forall v | 0 <= v < |p.workers| ensures WorkerOk(p.workers[v], v, p.sched.states, p.fibs[f := b]) {
      assert WorkerOk(p.workers[v], v, p.sched.states, p.fibs);
      assert WorkerOk(p.workers[w], w, p.sched.states, p.fibs);
    }
  }

  lemma ResumeKeeps(p: World, w: nat)
    requires Good(p) && Acts(p, w) && StageOf(p, w).IoParked? && StageOf(p, w).yielded
    ensures Good(DoResume(p, w))
  {
    hide Core, IoSpec.Inv, Waiting;
    var s := StageOf(p, w);
    TimerStopped(p, s.timer);
    var p1 := Stopped(p, s.timer);
    if s.info < |p.infos| && p.infos[s.info].cancelled {
      InfosAreFree(p1, Dropped(p1, s.info).infos);
      StageKeeps(Dropped(p1, s.info), w, Free);
    } else {
      StageKeeps(p1, w, IoReady(s.fd, s.ev, s.info, None));
    }
  }

  /** The fiber's one ticket goes into the timer. */
  lemma SleepKeeps(p: World, w: nat)
    requires Good(p) && Acts(p, w) && StageOf(p, w) == Free
    ensures Good(DoSleep(p, w))
  {
    hide IoSpec.Inv, Waiting, SlotsOk, WorkersOk, NotInSlot, NotKept, NotHeld;
    RunningFacts(p, w);
    var f := p.workers[w].phase.f;
    var b := p.fibs[f].(stage := Asleep(false), loc := AtTimer(|p.timers|), issued := p.fibs[f].issued + 1);
    RegisteredWorkers(p, w, b);
    SlotsElsewhere(p, f, b);
  }

  /** What is said of a fiber that no slot holds does not matter to the slots. */
  lemma SlotsElsewhere(p: World, f: nat, b: Fib)
    requires Core(p) && f < |p.fibs| && NotInSlot(p.io, f)
    ensures SlotsOk(p.io, p.fibs[f := b])
  {
    hide IoSpec.Inv, Waiting, WorkersOk, QueueOk, TimersOk, FibsOk, RunOk;
    forall fd: nat, ev ensures SlotOk(Waiting(p.io, fd, ev), fd, ev, p.fibs[f := b]) {
      assert SlotOk(Waiting(p.io, fd, ev), fd, ev, p.fibs);
    }
  }

  lemma AddCbKeeps(p: World, fd: nat, ev: Event, n: nat, accept: bool)
    requires Good(p) && |p.io.ctxs| >= 32
    ensures DoAddCb(p, fd, ev, n, accept).Next? <==> Waiting(p.io, fd, ev) == None
    ensures DoAddCb(p, fd, ev, n, accept).Next? ==> Good(DoAddCb(p, fd, ev, n, accept).p)
  {
    hide Core, IoSpec.Inv, Waiting, Moves, AddEvent;
    Sizes(p);
    var who := RunCb(User(n));
    AddEventKeeps(p.io, fd, ev, who, true, accept);
    var r := AddEvent(p.io, fd, ev, who, true, accept);
    if r.Done? {
      if accept {
        SlotGiven(p, r.io, fd, ev, n);
      } else {
        NothingMoves(p.io, r.io, fd, Some(who));
        SlotsEmptied(p, r.io, fd, {});
      }
    }
  }

  // ---- every step, every run -----------------------------------------------------

  /** The step fails an assertion: it registers where somebody waits already, or
      idle dispatches an event that is not registered. */
  ghost predicate Fails(p: World, s: Step)
    requires Enabled(p, s)
  {
    match s
    case IoRegister(w, _) => Waiting(p.io, StageOf(p, w).fd, StageOf(p, w).ev).Some?
    case AddCb(_, fd, ev, _, _) => Waiting(p.io, fd, ev).Some?
    case Poll(_, fd, reported, accept) => accept && Overreports(p.io, fd, reported)
    case _ => false
  }

  lemma IoStepKeeps(p: World, s: Step)
    requires Good(p) && |p.io.ctxs| >= 32 && IsIoStep(s) && IoEnabled(p, s)
    ensures DoIo(p, s).Next? <==> !Fails(p, s)
    ensures DoIo(p, s).Next? ==> Good(DoIo(p, s).p)
  {
    hide Core, IoSpec.Inv, Waiting, Quiet, DoStart, DoTodo, Left, DoYieldHold, DoYieldReady, DoSpawn,
      DoRegister, DoResume, DoSleep, DoAddCb, DoExpire, Handed, Pushed, DoTake, BusyCount;
    match s
    case IoBegin(w, fd, ev) =>
      StageKeeps(p, w, IoReady(fd, ev, |p.infos|, None));
      InfosAreFree(SetStage(p, p.workers[w].phase.f, IoReady(fd, ev, |p.infos|, None)), p.infos + [Info(true, false)]);
    case IoTimer(w) =>
      var g := StageOf(p, w);
      var timed := IoReady(g.fd, g.ev, g.info, Some(|p.timers|));
      StageKeeps(p, w, timed);
      TimedKeeps(SetStage(p, p.workers[w].phase.f, timed), Timeout(g.info, g.fd, g.ev));
    case IoRegister(w, accept) => RegisterKeeps(p, w, accept);
    case IoResume(w) => ResumeKeeps(p, w);
    case IoDone(w) =>
      InfosAreFree(p, Dropped(p, StageOf(p, w).info).infos);
      StageKeeps(Dropped(p, StageOf(p, w).info), w, Free);
    case Sleep(w) => SleepKeeps(p, w);
    case SleepResume(w) => StageKeeps(p, w, Free);
  }

  lemma IdleStepKeeps(p: World, s: Step)
    requires Good(p) && |p.io.ctxs| >= 32 && IsIdleStep(s) && IdleEnabled(p, s)
    ensures DoIdle(p, s).Next? <==> !Fails(p, s)
    ensures DoIdle(p, s).Next? ==> Good(DoIdle(p, s).p)
  {
    hide Core, IoSpec.Inv, Waiting, Quiet, DoStart, DoTodo, Left, DoYieldHold, DoYieldReady, DoSpawn,
      DoRegister, DoResume, DoSleep, DoAddCb, DoExpire, Handed, Pushed, DoTake, BusyCount;
    match s
    case GoIdle(w) =>
      WorkerFacts(p, w);
      IdleKeeps(p, w, Worker(Idling, p.workers[w].cached, EXEC));
    case Expire(w, t) => ExpireKeeps(p, t);
    case Poll(w, fd, reported, accept) => PollKeeps(p, fd, reported, accept);
    case Wakeup(w) => IdleKeeps(p, w, Worker(Looping, p.workers[w].cached, HOLD));
    case IdleStop(w) => IdleKeeps(p, w, Worker(Looping, p.workers[w].cached, TERM));
    case Exit(w) => IdleKeeps(p, w, p.workers[w].(phase := Exited));
  }

  lemma EventStepKeeps(p: World, s: Step)
    requires Good(p) && |p.io.ctxs| >= 32 && IsEventStep(s) && EventEnabled(p, s)
    ensures DoEvent(p, s).Next? <==> !Fails(p, s)
    ensures DoEvent(p, s).Next? ==> Good(DoEvent(p, s).p)
  {
    hide Core, IoSpec.Inv, Waiting, Quiet, DoStart, DoTodo, Left, DoYieldHold, DoYieldReady, DoSpawn,
      DoRegister, DoResume, DoSleep, DoAddCb, DoExpire, Handed, Pushed, DoTake, BusyCount;
    match s
    case AddCb(w, fd, ev, n, accept) => AddCbKeeps(p, fd, ev, n, accept);
    case Del(w, fd, ev, accept) => DelKeeps(p, fd, ev, accept);
    case Cancel(w, fd, ev, accept) => CancelKeeps(p, fd, ev, accept);
    case CancelEvery(w, fd, accept) => CancelEveryKeeps(p, fd, accept);
  }

  lemma WorkStepKeeps(p: World, s: Step)
    requires Good(p) && |p.io.ctxs| >= 32 && !IsIoStep(s) && !IsIdleStep(s) && !IsEventStep(s) && WorkEnabled(p, s)
    ensures DoWork(p, s).Next? && Good(DoWork(p, s).p)
  {
    hide Core, IoSpec.Inv, Waiting, Quiet, DoStart, DoTodo, Left, DoYieldHold, DoYieldReady, DoSpawn,
      DoRegister, DoResume, DoSleep, DoAddCb, DoExpire, Handed, Pushed, DoTake, BusyCount;
    match s
    case Take(w) => TakeKeeps(p, w);
    case Start(w) => StartKeeps(p, w);
    case RunTodo(w, accept) => TodoKeeps(p, w, accept);
    case YieldReady(w) => YieldReadyKeeps(p, w);
    case YieldHold(w) => YieldHoldKeeps(p, w);
    case Finish(w, thrown) => LeftKeeps(p, w, if thrown then EXCEPT else TERM);
    case Spawn(_, pin) => SpawnKeeps(p, pin);
    case Submit(_, n, pin) => CallKeeps(p, User(n), pin);
    case AddTimer(w, n, recurring) => TimerAdded(p, Clock(Some(User(n)), recurring));
    case DropTimer(w, t) => TimerStopped(p, Some(t));
    case Stop => StopIsFree(p);
  }

  /** A step that can happen fails an assertion exactly if it registers where
      somebody waits already or dispatches what is not registered; no other
      assertion ever fails. Otherwise it keeps the invariant. */
  lemma StepKeeps(p: World, s: Step)
    requires Good(p) && |p.io.ctxs| >= 32 && Enabled(p, s)
    ensures Do(p, s).Next? <==> !Fails(p, s)
    ensures Do(p, s).Next? ==> Good(Do(p, s).p)
  {
    hide Good, IoEnabled, IdleEnabled, EventEnabled, WorkEnabled, DoIo, DoIdle, DoEvent, DoWork, Overreports;
    if IsIoStep(s) {
      IoStepKeeps(p, s);
    } else if IsIdleStep(s) {
      IdleStepKeeps(p, s);
    } else if IsEventStep(s) {
      EventStepKeeps(p, s);
    } else {
      WorkStepKeeps(p, s);
    }
  }

  lemma StopIsFree(p: World)
    requires Core(p)
    ensures Core(p.(autostop := true, stopping := true))
  {
  }

  /** `n` threads about to enter run, and nothing else. */
  function Begin(n: nat): World {
    World(Sched([], [], 0), [], IoSpec.Start(), [], [], seq(n, _ => Worker(Looping, None, INIT)), false, false)
  }

  lemma {:induction false} NobodyBusy(workers: seq<Worker>)
    requires forall w :: 0 <= w < |workers| ==> !Busy(workers[w])
    ensures BusyCount(workers) == 0
  {
    if workers != [] {
      NobodyBusy(workers[..|workers| - 1]);
    }
  }

  lemma BeginGood(n: nat)
    ensures Good(Begin(n))
  {
    hide IoSpec.Inv;
    StartInv();
    NobodyBusy(Begin(n).workers);
  }

  /** `states` is what `steps` go through, from the beginning. */
  ghost predicate IsRun(n: nat, states: seq<World>, steps: seq<Step>) {
    && |states| == |steps| + 1 && states[0] == Begin(n)
    && forall i :: 0 <= i < |steps| ==> Leads(states[i], steps[i], states[i + 1])
  }

  ghost predicate Leads(p: World, s: Step, q: World) {
    |p.io.ctxs| >= 32 && Enabled(p, s) && Do(p, s) == Next(q)
  }

  /** Every state of every run is good, and a step that could come next fails an
      assertion exactly in the two ways there are. */
  lemma {:induction false} RunsAreGood(n: nat, states: seq<World>, steps: seq<Step>, i: nat)
    requires IsRun(n, states, steps) && i < |states|
    ensures Good(states[i]) && |states[i].io.ctxs| >= 32
    ensures forall s | Enabled(states[i], s) :: Do(states[i], s) == Fault <==> Fails(states[i], s)
  {
    hide Core, Enabled, Do, Fails;
    if i == 0 {
      BeginGood(n);
    } else {
      RunsAreGood(n, states, steps, i - 1);
      assert Leads(states[i - 1], steps[i - 1], states[i]);
      StepKeeps(states[i - 1], steps[i - 1]);
    }
    Sizes(states[i]);
    forall s | Enabled(states[i], s) ensures Do(states[i], s) == Fault <==> Fails(states[i], s) {
      StepKeeps(states[i], s);
    }
  }

  // ---- what a good state means -------------------------------------------------

  datatype Place = AtEntry(i: nat) | InSlot(fd: nat, ev: Event) | InTimer(t: nat) | AtWorker(w: nat)

  /** There is a ticket of fiber `f` at a place. */
  predicate Holds(p: World, a: Place, f: nat) {
    match a
    case AtEntry(i) => i < |p.sched.queue| && Ticket(p.sched.queue[i].task) == Some(f)
    case InSlot(fd, ev) => Waiting(p.io, fd, ev) == Some(RunFiber(f))
    case InTimer(t) => t < |p.timers| && p.timers[t].cb == Some(Wake(f))
    case AtWorker(w) => w < |p.workers| && Held(p.workers[w]) == Some(f)
  }

  /** A fiber has at most one ticket: it is queued at most once, or registered,
      or in a timer, or with a worker. */
  lemma OneTicket(p: World, a: Place, b: Place, f: nat)
    requires Good(p) && Holds(p, a, f) && Holds(p, b, f)
    ensures a == b
  {
    hide Core, IoSpec.Inv, Waiting, NotQueued, NotInSlot, NotInTimer, NotHeld;
    TicketAt(p, a, f);
    TicketAt(p, b, f);
    if a.AtEntry? && b.AtEntry? {
      OneEntry(p, a.i, b.i);
    }
  }

  lemma OneEntry(p: World, i: nat, j: nat)
    requires Core(p) && i < |p.sched.queue| && j < |p.sched.queue|
    requires Ticket(p.sched.queue[i].task).Some? && Ticket(p.sched.queue[i].task) == Ticket(p.sched.queue[j].task)
    ensures i == j
  {
  }

  lemma TicketAt(p: World, a: Place, f: nat)
    requires Core(p) && Holds(p, a, f)
    ensures f < |p.fibs|
    ensures var l := p.fibs[f].loc;
            match a
            case AtEntry(_) => l == InQueue || l == WakeQueued
            case InSlot(fd, ev) => l == AtSlot(fd, ev)
            case InTimer(t) => l == AtTimer(t)
            case AtWorker(w) => l == InHand(w) || l == Waking(w)
  {
    hide Core, IoSpec.Inv, Waiting;
    match a
    case AtEntry(i) => EntryFacts(p, i);
    case InSlot(fd, ev) => WaiterFacts(p, fd, ev);
    case InTimer(t) => ClockFacts(p, t);
    case AtWorker(w) => WorkerFacts(p, w);
  }

  predicate RunsFiber(k: Worker, f: nat) {
    k.phase.Running? && k.phase.f == f
  }

  /** A fiber is in EXEC exactly when a worker runs it, and then one worker
      does; a fiber in EXEC is nobody's taken entry. */
  lemma OneRunner(p: World, f: nat)
    requires Good(p) && f < |p.fibs|
    ensures |p.sched.states| == |p.fibs|
    ensures p.sched.states[f] == EXEC <==>
            exists w :: 0 <= w < |p.workers| && RunsFiber(p.workers[w], f)
    ensures forall v, w ::
              0 <= v < |p.workers| && 0 <= w < |p.workers| && RunsFiber(p.workers[v], f) && RunsFiber(p.workers[w], f)
              ==> v == w
    ensures forall w :: 0 <= w < |p.workers| && p.workers[w].phase == Taken(RunFiber(f)) ==> p.sched.states[f] != EXEC
  {
    hide Core, IoSpec.Inv, Waiting;
    Facts(p, f);
    forall w | 0 <= w < |p.workers| ensures WorkerOk(p.workers[w], w, p.sched.states, p.fibs) {
      WorkerFacts(p, w);
    }
  }

  /** A fiber that has been resumed in do_io has no ticket left. */
  lemma ResumedIsFree(p: World, f: nat)
    requires Good(p) && f < |p.fibs| == |p.sched.states| && p.sched.states[f] == EXEC
    requires p.fibs[f].stage.IoParked? && p.fibs[f].stage.yielded
    ensures forall a :: !Holds(p, a, f)
  {
    hide Core, IoSpec.Inv, Waiting, NotQueued, NotInTimer, NotHeld;
    Facts(p, f);
    forall a ensures !Holds(p, a, f) {
      if Holds(p, a, f) {
        TicketAt(p, a, f);
      }
    }
  }

  /** Every fiber was queued once for each time it asked to be (when it was
      created, yielded READY, registered in do_io or slept), but for the last time
      while it still waits in a slot or a timer, or for a sleeper's callback to
      run. (A fiber whose event delEvent forgot waits for ever.) */
  lemma QueuedPerRequest(p: World, f: nat)
    requires Good(p) && f < |p.fibs|
    ensures var b := p.fibs[f];
            && b.queued <= b.issued <= b.queued + 1
            && (b.queued < b.issued <==> Waits(b.loc))
    ensures |p.sched.states| == |p.fibs|
    ensures GoesOn(p, f) || p.sched.states[f] == TERM || p.sched.states[f] == EXCEPT ==>
              p.fibs[f].queued == p.fibs[f].issued
  {
    hide Core, IoSpec.Inv, Waiting;
    Facts(p, f);
  }

  /** A fiber runs, and not just until it yields after registering. */
  predicate GoesOn(p: World, f: nat) {
    f < |p.fibs| == |p.sched.states| && p.sched.states[f] == EXEC && !Unyielded(p.fibs[f].stage)
  }

  /** What a ticket's place says of these numbers, and of the fiber. */
  lemma TicketPerRequest(p: World, a: Place, f: nat)
    requires Good(p) && Holds(p, a, f)
    ensures f < |p.fibs| == |p.sched.states| && p.sched.states[f] != TERM && p.sched.states[f] != EXCEPT
    ensures a.InSlot? || a.InTimer? ==> p.fibs[f].queued + 1 == p.fibs[f].issued
    ensures a.AtEntry? && p.sched.queue[a.i].task.RunFiber? ==> p.fibs[f].queued == p.fibs[f].issued
  {
    hide Core, IoSpec.Inv, Waiting;
    TicketAt(p, a, f);
    Facts(p, f);
    if a.AtEntry? {
      EntryFacts(p, a.i);
    }
  }

  /** `q` comes after `p`, and the fiber has not asked to be queued in between. */
  predicate NotAsked(p: World, q: World, f: nat) {
    f < |p.fibs| && f < |q.fibs| && q.fibs[f].issued == p.fibs[f].issued
  }

  lemma TakenNotAsked(p: World, w: nat, f: nat)
    requires f < |p.fibs|
    ensures Loops(p, w) && !NothingFor(p, w) ==> NotAsked(p, DoTake(p, w), f)
    ensures w < |p.workers| && p.workers[w].phase.Taken? && |p.fibs| == |p.sched.states| && DoStart(p, w).Next? ==>
              NotAsked(p, DoStart(p, w).p, f)
  {
    hide TakeIndex;
  }

  /** The fiber that asks by yielding READY, registering or sleeping is the one
      that runs. */
  lemma RunnerGoesOn(p: World, w: nat)
    requires Core(p) && Acts(p, w) && !Unyielded(StageOf(p, w))
    ensures GoesOn(p, p.workers[w].phase.f)
  {
    hide Core;
    WorkerFacts(p, w);
  }

  lemma OthersNotAsked(p: World, w: nat, accept: bool, f: nat)
    requires Acts(p, w) && f < |p.fibs| && f != p.workers[w].phase.f && |p.io.ctxs| >= 32
    ensures NotAsked(p, DoYieldReady(p, w), f) && NotAsked(p, DoSleep(p, w), f)
    ensures StageOf(p, w).IoReady? && DoRegister(p, w, accept).Next? ==> NotAsked(p, DoRegister(p, w, accept).p, f)
  {
    hide AddEvent;
  }

  lemma LeftNotAsked(p: World, w: nat, t: State, f: nat)
    requires Acts(p, w) && f < |p.fibs|
    ensures NotAsked(p, Left(p, w, t), f) && NotAsked(p, DoYieldHold(p, w), f)
  {
    hide AfterFiber, AfterCallback;
  }

  lemma StageNotAsked(p: World, q: World, g: nat, s: Stage, f: nat)
    requires NotAsked(p, q, f)
    ensures NotAsked(p, SetStage(q, g, s), f)
  {
  }

  lemma ResumeNotAsked(p: World, w: nat, f: nat)
    requires Acts(p, w) && f < |p.fibs| && StageOf(p, w).IoParked?
    ensures NotAsked(p, DoResume(p, w), f)
  {
    hide SetStage;
    var s := StageOf(p, w);
    var p1 := Stopped(p, s.timer);
    StageNotAsked(p, Dropped(p1, s.info), p.workers[w].phase.f, Free, f);
    StageNotAsked(p, p1, p.workers[w].phase.f, IoReady(s.fd, s.ev, s.info, None), f);
  }

  lemma PushNotAsked(p: World, f: nat, pin: Option<nat>, n: nat)
    requires f < |p.fibs|
    ensures NotAsked(p, DoSpawn(p, pin), f) && NotAsked(p, Pushed(p, RunCb(User(n)), pin), f)
    ensures forall t | 0 <= t < |p.timers| && p.timers[t].cb.Some? :: NotAsked(p, DoExpire(p, t), f)
  {
  }

  lemma TodoNotAsked(p: World, w: nat, accept: bool, f: nat)
    requires f < |p.fibs| && Runs(p, w) && p.workers[w].phase.todo.Some?
    ensures DoTodo(p, w, accept).Next? ==> NotAsked(p, DoTodo(p, w, accept).p, f)
  {
    hide Handed, CancelEvent;
    var cb := p.workers[w].phase.todo.value;
    if cb.Timeout? && cb.info < |p.infos| {
      var p1 := SetPhase(p, w, p.workers[w].phase.(todo := None));
      HandedNotAsked(p1.(infos := p.infos[cb.info := Info(true, true)]), CancelEvent(p.io, cb.fd, cb.ev, accept), f);
    }
  }

  lemma IoNotAsked(p: World, s: Step, f: nat)
    requires Good(p) && |p.io.ctxs| >= 32 && f < |p.fibs| && !GoesOn(p, f)
    requires IsIoStep(s) && IoEnabled(p, s)
    ensures DoIo(p, s).Next? ==> NotAsked(p, DoIo(p, s).p, f)
  {
    hide Core, IoSpec.Inv, Waiting, Quiet, AddEvent, DelEvent, CancelEvent, CancelAll, Dispatch,
      Handed, TakeIndex, DoTake, DoStart, DoTodo, DoYieldReady, DoYieldHold, Left, DoSpawn, Pushed, DoRegister,
      DoResume, DoSleep, DoExpire, GoesOn, SetStage;
    match s
    case IoBegin(w, fd, ev) =>
      StageNotAsked(p, p.(infos := p.infos + [Info(true, false)]), p.workers[w].phase.f,
                    IoReady(fd, ev, |p.infos|, None), f);
    case IoTimer(w) =>
      var g := StageOf(p, w);
      StageNotAsked(p, p.(timers := p.timers + [Clock(Some(Timeout(g.info, g.fd, g.ev)), false)]),
                    p.workers[w].phase.f, IoReady(g.fd, g.ev, g.info, Some(|p.timers|)), f);
    case IoRegister(w, accept) =>
      RunnerGoesOn(p, w);
      OthersNotAsked(p, w, accept, f);
    case IoResume(w) => ResumeNotAsked(p, w, f);
    case IoDone(w) => StageNotAsked(p, Dropped(p, StageOf(p, w).info), p.workers[w].phase.f, Free, f);
    case Sleep(w) =>
      RunnerGoesOn(p, w);
      OthersNotAsked(p, w, true, f);
    case SleepResume(w) => StageNotAsked(p, p, p.workers[w].phase.f, Free, f);
  }

  lemma IdleNotAsked(p: World, s: Step, f: nat)
    requires Good(p) && |p.io.ctxs| >= 32 && f < |p.fibs| && !GoesOn(p, f)
    requires IsIdleStep(s) && IdleEnabled(p, s)
    ensures DoIdle(p, s).Next? ==> NotAsked(p, DoIdle(p, s).p, f)
  {
    hide Core, IoSpec.Inv, Waiting, Quiet, AddEvent, DelEvent, CancelEvent, CancelAll, Dispatch,
      Handed, TakeIndex, DoTake, DoStart, DoTodo, DoYieldReady, DoYieldHold, Left, DoSpawn, Pushed, DoRegister,
      DoResume, DoSleep, DoExpire, GoesOn;
    match s
    case Expire(_, _) => PushNotAsked(p, f, None, 0);
    case Poll(_, fd, reported, accept) => HandedNotAsked(p, Dispatch(p.io, fd, reported, accept), f);
    case _ =>
  }

  lemma EventNotAsked(p: World, s: Step, f: nat)
    requires Good(p) && |p.io.ctxs| >= 32 && f < |p.fibs| && !GoesOn(p, f)
    requires IsEventStep(s) && EventEnabled(p, s)
    ensures DoEvent(p, s).Next? ==> NotAsked(p, DoEvent(p, s).p, f)
  {
    hide Core, IoSpec.Inv, Waiting, Quiet, AddEvent, DelEvent, CancelEvent, CancelAll, Dispatch,
      Handed, TakeIndex, DoTake, DoStart, DoTodo, DoYieldReady, DoYieldHold, Left, DoSpawn, Pushed, DoRegister,
      DoResume, DoSleep, DoExpire, GoesOn;
    match s
    case AddCb(_, fd, ev, n, accept) => HandedNotAsked(p, AddEvent(p.io, fd, ev, RunCb(User(n)), true, accept), f);
    case Del(_, fd, ev, accept) =>
    case Cancel(_, fd, ev, accept) => HandedNotAsked(p, CancelEvent(p.io, fd, ev, accept), f);
    case CancelEvery(_, fd, accept) => HandedNotAsked(p, CancelAll(p.io, fd, accept), f);
  }

  /** Only a fiber that goes on asks to be queued. */
  lemma IssuedStays(p: World, s: Step, f: nat)
    requires Good(p) && |p.io.ctxs| >= 32 && Enabled(p, s) && f < |p.fibs| && !GoesOn(p, f)
    ensures Do(p, s).Next? ==> NotAsked(p, Do(p, s).p, f)
  {
    hide Good, GoesOn, NotAsked, IoEnabled, IdleEnabled, EventEnabled, WorkEnabled, DoIo, DoIdle, DoEvent, DoWork;
    if IsIoStep(s) {
      IoNotAsked(p, s, f);
    } else if IsIdleStep(s) {
      IdleNotAsked(p, s, f);
    } else if IsEventStep(s) {
      EventNotAsked(p, s, f);
    } else {
      WorkNotAsked(p, s, f);
    }
  }

  lemma WorkNotAsked(p: World, s: Step, f: nat)
    requires Good(p) && |p.io.ctxs| >= 32 && f < |p.fibs| && !GoesOn(p, f)
    requires !IsIoStep(s) && !IsIdleStep(s) && !IsEventStep(s) && WorkEnabled(p, s)
    ensures DoWork(p, s).Next? ==> NotAsked(p, DoWork(p, s).p, f)
  {
    hide Core, IoSpec.Inv, Waiting, Quiet, AddEvent, DelEvent, CancelEvent, CancelAll, Dispatch,
      Handed, TakeIndex, DoTake, DoStart, DoTodo, DoYieldReady, DoYieldHold, Left, DoSpawn, Pushed, DoRegister,
      DoResume, DoSleep, DoExpire, GoesOn;
    match s
    case Take(w) => TakenNotAsked(p, w, f);
    case Start(w) => TakenNotAsked(p, w, f);
    case RunTodo(w, accept) => TodoNotAsked(p, w, accept, f);
    case YieldReady(w) =>
      RunnerGoesOn(p, w);
      OthersNotAsked(p, w, true, f);
    case YieldHold(w) => LeftNotAsked(p, w, HOLD, f);
    case Finish(w, thrown) => LeftNotAsked(p, w, if thrown then EXCEPT else TERM, f);
    case Spawn(_, pin) => PushNotAsked(p, f, pin, 0);
    case Submit(_, n, pin) => PushNotAsked(p, f, pin, n);
    case _ =>
  }

  lemma HandedNotAsked(p: World, r: Result, f: nat)
    requires f < |p.fibs|
    ensures Handed(p, r).Next? ==> NotAsked(p, Handed(p, r).p, f)
  {
    hide PushedAll;
    if r.Done? {
      PushesOnly(p.(io := r.io), r.tasks);
    }
  }

  /** For one registration or sleep: from a state where a fiber waits to the
      first one where it goes on, whatever happens in between (readiness, timeout
      callbacks, cancelEvent, cancelAll), it is queued exactly once. */
  lemma QueuedOncePerWait(n: nat, states: seq<World>, steps: seq<Step>, i: nat, j: nat, f: nat)
    requires IsRun(n, states, steps) && i < j < |states| && f < |states[i].fibs| && Waits(states[i].fibs[f].loc)
    requires forall k :: i <= k < j ==> !GoesOn(states[k], f)
    requires GoesOn(states[j], f)
    ensures states[j].fibs[f].queued == states[i].fibs[f].queued + 1
  {
    hide Good, Waits, GoesOn, IsRun;
    IssuedSince(n, states, steps, i, j, f);
    RunsAreGood(n, states, steps, i);
    RunsAreGood(n, states, steps, j);
    QueuedPerRequest(states[i], f);
    QueuedPerRequest(states[j], f);
  }

  lemma {:induction false} IssuedSince(n: nat, states: seq<World>, steps: seq<Step>, i: nat, j: nat, f: nat)
    requires IsRun(n, states, steps) && i <= j < |states| && f < |states[i].fibs|
    requires forall k :: i <= k < j ==> !GoesOn(states[k], f)
    ensures f < |states[j].fibs| && states[j].fibs[f].issued == states[i].fibs[f].issued
  {
    hide Good, Enabled, Do, GoesOn;
    if i < j {
      IssuedSince(n, states, steps, i, j - 1, f);
      RunsAreGood(n, states, steps, j - 1);
      assert Leads(states[j - 1], steps[j - 1], states[j]);
      IssuedStays(states[j - 1], steps[j - 1], f);
    }
  }

  // ---- shutdown ------------------------------------------------------------------

  /** Steps other than the program outside creating work. */
  predicate Internal(s: Step) {
    match s
    case Spawn(user, _) => user.Some?
    case Submit(user, _, _) => user.Some?
    case _ => true
  }

  lemma {:induction false} NobodyBusyBack(workers: seq<Worker>, w: nat)
    requires BusyCount(workers) == 0 && w < |workers|
    ensures !Busy(workers[w])
  {
    if w < |workers| - 1 {
      NobodyBusyBack(workers[..|workers| - 1], w);
    }
  }

  /** Once stopping holds, an internal step leaves nothing to run: no entry, no
      event, no timer, no active worker, no change of any fiber. */
  lemma QuietStays(p: World, s: Step)
    requires Good(p) && Quiet(p) && |p.io.ctxs| >= 32 && Enabled(p, s) && Internal(s)
    ensures Do(p, s).Next? && Quiet(Do(p, s).p) && Do(p, s).p.sched == p.sched && Do(p, s).p.io == p.io
  {
    hide Core, IoSpec.Inv, Waiting, DoIo, DoEvent, DoStart, DoTodo, Left, DoYieldHold, DoYieldReady, DoSpawn,
      DoExpire, Handed, Pushed, DoTake, Dispatch, TakeIndex;
    NobodyWorks(p);
    if s.Poll? {
      NothingToPoll(p, s.fd, s.reported, s.accept);
    }
  }

  lemma NobodyWorks(p: World)
    requires Good(p) && Quiet(p)
    ensures forall w :: 0 <= w < |p.workers| ==> !Busy(p.workers[w]) && (p.workers[w].idle == EXEC ==> Idles(p, w))
  {
    hide Core, IoSpec.Inv, Waiting;
    forall w | 0 <= w < |p.workers| ensures !Busy(p.workers[w]) && (p.workers[w].idle == EXEC ==> Idles(p, w)) {
      NobodyBusyBack(p.workers, w);
      WorkerFacts(p, w);
    }
  }

  lemma NothingToPoll(p: World, fd: nat, reported: set<Event>, accept: bool)
    requires Good(p) && p.io.pending == 0
    ensures Handed(p, Dispatch(p.io, fd, reported, accept)) == Next(p)
  {
    hide Core;
    Sizes(p);
    BitsZero(p.io.ctxs);
  }

  /** So it holds for the rest of every run that goes on by internal steps. */
  lemma {:induction false} QuietForever(n: nat, states: seq<World>, steps: seq<Step>, i: nat, j: nat)
    requires IsRun(n, states, steps) && i <= j < |states| && Quiet(states[i])
    requires forall k :: i <= k < |steps| ==> Internal(steps[k])
    ensures Quiet(states[j]) && states[j].sched == states[i].sched
  {
    hide Good, Enabled, Do, Quiet;
    if i < j {
      QuietForever(n, states, steps, i, j - 1);
      RunsAreGood(n, states, steps, j - 1);
      assert Leads(states[j - 1], steps[j - 1], states[j]);
      QuietStays(states[j - 1], steps[j - 1]);
    }
  }
}
