/** Runs in which one fiber at a time is inside do_io per descriptor and
    direction, and what happens in others. */
module Sharing {
  import opened Options
  import opened IoSpec
  import opened SchedSpec
  import opened Protocol
  import opened Interleavings

  /** Nobody else uses or waits for what a fiber inside do_io is after. */
  ghost predicate Alone(p: World) {
    && (forall f, fd: nat, ev :: 0 <= f < |p.fibs| && Uses(p.fibs[f].stage, fd, ev) ==>
          Waiting(p.io, fd, ev) == None || Waiting(p.io, fd, ev) == Some(RunFiber(f)))
    && (forall f, g, fd: nat, ev :: 0 <= f < |p.fibs| && 0 <= g < |p.fibs| ==>
          Uses(p.fibs[f].stage, fd, ev) && Uses(p.fibs[g].stage, fd, ev) ==> f == g)
  }

  /** No fiber is inside do_io for the event, and nothing is registered. */
  ghost predicate Vacant(p: World, fd: nat, ev: Event) {
    && (forall f :: 0 <= f < |p.fibs| ==> !Uses(p.fibs[f].stage, fd, ev))
    && Waiting(p.io, fd, ev) == None
  }

  /** Whoever enters do_io or registers a callback finds the event vacant. */
  ghost predicate Polite(p: World, s: Step) {
    match s
    case IoBegin(_, fd, ev) => Vacant(p, fd, ev)
    case AddCb(_, fd, ev, _, _) => Vacant(p, fd, ev)
    case _ => true
  }

  /** Nobody enters do_io or registers; others may leave. */
  ghost predicate Thins(p: World, q: World) {
    && (forall f, fd: nat, ev :: 0 <= f < |q.fibs| && Uses(q.fibs[f].stage, fd, ev) ==>
          f < |p.fibs| && Uses(p.fibs[f].stage, fd, ev))
    && (forall fd: nat, ev :: Waiting(q.io, fd, ev) == None || Waiting(q.io, fd, ev) == Waiting(p.io, fd, ev))
  }

  lemma ThinsKeeps(p: World, q: World)
    requires Alone(p) && Thins(p, q)
    ensures Alone(q)
  {
    hide Waiting, Uses;
  }

  /** The slots and the stages are what they were. */
  lemma SameThins(p: World, q: World)
    requires q.io == p.io && |p.fibs| <= |q.fibs|
    requires forall f :: 0 <= f < |q.fibs| ==> q.fibs[f].stage == if f < |p.fibs| then p.fibs[f].stage else Free
    ensures Thins(p, q)
  {
    hide Waiting;
  }

  lemma StageThins(p: World, q: World, f: nat, s: Stage)
    requires f < |p.fibs| && q.io == p.io && q.fibs == p.fibs
    requires forall fd: nat, ev :: Uses(s, fd, ev) ==> Uses(p.fibs[f].stage, fd, ev)
    ensures Thins(p, SetStage(q, f, s))
  {
    hide Waiting, Uses;
  }

  lemma {:induction false} PushesThin(p: World, tasks: seq<Task>)
    ensures var q := PushedAll(p, tasks);
            q.io == p.io && |q.fibs| == |p.fibs| && forall f :: 0 <= f < |p.fibs| ==> q.fibs[f].stage == p.fibs[f].stage
    decreases |tasks|
  {
    if tasks != [] {
      PushesThin(Pushed(p, tasks[0], None), tasks[1..]);
    }
  }

  lemma HandedThins(p: World, r: Result, fd: nat, evs: set<Event>)
    requires r.Done? ==> Moves(p.io, r.io, fd, evs, None)
    ensures Handed(p, r).Next? ==> Thins(p, Handed(p, r).p)
  {
    hide Waiting, PushedAll;
    if r.Done? {
      PushesThin(p.(io := r.io), r.tasks);
    }
  }

  // ---- who is inside do_io after each step ----------------------------------

  lemma TodoThins(p: World, w: nat, accept: bool)
    requires Good(p) && Runs(p, w) && p.workers[w].phase.todo.Some?
    ensures DoTodo(p, w, accept).Next? ==> Thins(p, DoTodo(p, w, accept).p)
  {
    hide Core, IoSpec.Inv, Waiting, Handed, CancelEvent, Thins;
    Sizes(p);
    var p1 := SetPhase(p, w, p.workers[w].phase.(todo := None));
    match p.workers[w].phase.todo.value
    case User(_) => SameThins(p, p1);
    case Timeout(i, fd, ev) =>
      SameThins(p, p1);
      if i < |p.infos| && p.infos[i].alive && !p.infos[i].cancelled {
        var p2 := p1.(infos := p.infos[i := Info(true, true)]);
        CancelEventKeeps(p.io, fd, ev, accept);
        var r := CancelEvent(p.io, fd, ev, accept);
        HandedThins(p2, r, fd, if r.ok then {ev} else {});
        Same(p, p2, Handed(p2, r));
      }
    case Wake(f) => SameThins(p, Pushed(p1, RunFiber(f), None));
  }

  /** Only the slots and the stages matter. */
  lemma Same(p: World, p1: World, r: Outcome)
    requires p1.io == p.io && p1.fibs == p.fibs
    requires r.Next? ==> Thins(p1, r.p)
    ensures r.Next? ==> Thins(p, r.p)
  {
    hide Waiting, Uses;
  }

  lemma LeftThins(p: World, w: nat, t: State)
    requires Acts(p, w)
    ensures Thins(p, Left(p, w, t)) && Thins(p, DoYieldHold(p, w)) && Thins(p, DoYieldReady(p, w))
  {
    hide Waiting, Leave, Thins;
    SameThins(p, Left(p, w, t));
    SameThins(p, DoYieldReady(p, w));
    StageThins(p, Left(p, w, HOLD), p.workers[w].phase.f, Yielded(StageOf(p, w)));
  }

  lemma TakeThins(p: World, w: nat)
    requires Loops(p, w) && !NothingFor(p, w)
    ensures Thins(p, DoTake(p, w))
  {
    hide Waiting, Thins, TakeIndex;
    SameThins(p, DoTake(p, w));
  }

  lemma StartThins(p: World, w: nat)
    requires w < |p.workers| && p.workers[w].phase.Taken? && |p.fibs| == |p.sched.states|
    ensures DoStart(p, w).Next? ==> Thins(p, DoStart(p, w).p)
  {
    hide Waiting, Thins;
    if DoStart(p, w).Next? {
      SameThins(p, DoStart(p, w).p);
    }
  }

  lemma PushedThins(p: World, task: Task, pin: Option<nat>)
    ensures Thins(p, Pushed(p, task, pin))
  {
    hide Waiting, Thins;
    SameThins(p, Pushed(p, task, pin));
  }

  lemma WorkThins(p: World, s: Step)
    requires Good(p) && |p.io.ctxs| >= 32 && !IsIoStep(s) && !IsIdleStep(s) && !IsEventStep(s) && WorkEnabled(p, s)
    ensures DoWork(p, s).Next? ==> Thins(p, DoWork(p, s).p)
  {
    hide Core, IoSpec.Inv, Waiting, Thins, TakeIndex, DoTake, DoStart, DoTodo, DoYieldReady, DoYieldHold, Left, Pushed;
    match s
    case Take(w) => TakeThins(p, w);
    case Start(w) => StartThins(p, w);
    case RunTodo(w, accept) => TodoThins(p, w, accept);
    case YieldReady(w) => LeftThins(p, w, READY);
    case YieldHold(w) => LeftThins(p, w, HOLD);
    case Finish(w, thrown) => LeftThins(p, w, if thrown then EXCEPT else TERM);
    case Spawn(_, pin) => SameThins(p, DoSpawn(p, pin));
    case Submit(_, n, pin) => PushedThins(p, RunCb(User(n)), pin);
    case AddTimer(_, n, recurring) => SameThins(p, p.(timers := p.timers + [Clock(Some(User(n)), recurring)]));
    case DropTimer(_, t) => SameThins(p, Stopped(p, Some(t)));
    case Stop => SameThins(p, p.(autostop := true, stopping := true));
  }

  lemma PollThins(p: World, fd: nat, reported: set<Event>, accept: bool)
    requires Good(p) && fd < |p.io.ctxs|
    ensures var r := Handed(p, Dispatch(p.io, fd, reported, accept)); r.Next? ==> Thins(p, r.p)
  {
    hide Core, IoSpec.Inv, Waiting, Thins, PushedAll, Dispatch, DispatchRegistered;
    Sizes(p);
    DispatchAborts(p.io, fd, reported, accept);
    DispatchKeeps(p.io, fd, reported, accept);
    var r := DispatchRegistered(p.io, fd, reported, accept);
    HandedThins(p, r, fd, if r.ok then reported else {});
  }

  lemma ExpireThins(p: World, t: nat)
    requires t < |p.timers| && p.timers[t].cb.Some?
    ensures Thins(p, DoExpire(p, t))
  {
    hide Waiting, Thins;
    SameThins(p, DoExpire(p, t));
  }

  lemma IdleThins(p: World, s: Step)
    requires Good(p) && |p.io.ctxs| >= 32 && IsIdleStep(s) && IdleEnabled(p, s)
    ensures DoIdle(p, s).Next? ==> Thins(p, DoIdle(p, s).p)
  {
    hide Core, IoSpec.Inv, Waiting, Thins, Handed, Dispatch, DoExpire, Quiet, TakeIndex;
    match s
    case Poll(_, fd, reported, accept) => PollThins(p, fd, reported, accept);
    case GoIdle(w) => SameThins(p, p.(workers := p.workers[w := Worker(Idling, p.workers[w].cached, EXEC)]));
    case Expire(_, t) => ExpireThins(p, t);
    case Wakeup(w) => SameThins(p, DoLeaveIdle(p, w, HOLD));
    case IdleStop(w) => SameThins(p, DoLeaveIdle(p, w, TERM));
    case Exit(w) => SameThins(p, SetPhase(p, w, Exited));
  }

  /** The steps that enter or register. */
  predicate Enters(s: Step) {
    s.IoBegin? || s.IoRegister? || s.AddCb?
  }

  lemma IoThins(p: World, s: Step)
    requires Good(p) && |p.io.ctxs| >= 32 && IsIoStep(s) && IoEnabled(p, s) && !Enters(s)
    ensures Thins(p, DoIo(p, s).p)
  {
    hide Core, IoSpec.Inv, Waiting, Thins, SetStage;
    match s
    case IoTimer(w) =>
      var g := StageOf(p, w);
      StageThins(p, p.(timers := p.timers + [Clock(Some(Timeout(g.info, g.fd, g.ev)), false)]),
                 p.workers[w].phase.f, IoReady(g.fd, g.ev, g.info, Some(|p.timers|)));
    case IoResume(w) =>
      var g := StageOf(p, w);
      var p1 := Stopped(p, g.timer);
      StageThins(p, Dropped(p1, g.info), p.workers[w].phase.f, Free);
      StageThins(p, p1, p.workers[w].phase.f, IoReady(g.fd, g.ev, g.info, None));
    case IoDone(w) => StageThins(p, Dropped(p, StageOf(p, w).info), p.workers[w].phase.f, Free);
    case Sleep(w) => SleepThins(p, w);
    case SleepResume(w) => StageThins(p, p, p.workers[w].phase.f, Free);
  }

  lemma SleepThins(p: World, w: nat)
    requires Acts(p, w)
    ensures Thins(p, DoSleep(p, w))
  {
    hide Waiting;
  }

  lemma EventThins(p: World, s: Step)
    requires Good(p) && |p.io.ctxs| >= 32 && IsEventStep(s) && EventEnabled(p, s) && !Enters(s)
    ensures DoEvent(p, s).Next? ==> Thins(p, DoEvent(p, s).p)
  {
    hide Core, IoSpec.Inv, Waiting, Thins, Handed, DelEvent, CancelEvent, CancelAll;
    Sizes(p);
    match s
    case Del(_, fd, ev, accept) =>
      DelEventKeeps(p.io, fd, ev, accept);
      ForgetThins(p, DelEvent(p.io, fd, ev, accept), fd, ev, Waiting(p.io, fd, ev));
    case Cancel(_, fd, ev, accept) =>
      CancelEventKeeps(p.io, fd, ev, accept);
      var r := CancelEvent(p.io, fd, ev, accept);
      HandedThins(p, r, fd, if r.ok then {ev} else {});
    case CancelEvery(_, fd, accept) =>
      CancelAllKeeps(p.io, fd, accept);
      var r := CancelAll(p.io, fd, accept);
      HandedThins(p, r, fd, if r.ok then {READ, WRITE} else {});
  }

  lemma ForgetThins(p: World, r: Result, fd: nat, ev: Event, who: Option<Task>)
    requires r.Done? && Moves(p.io, r.io, fd, if r.ok then {ev} else {}, None)
    ensures Thins(p, Forget(p.(io := r.io), if r.ok then who else None))
  {
    hide Waiting;
  }

  lemma StepThins(p: World, s: Step)
    requires Good(p) && |p.io.ctxs| >= 32 && Enabled(p, s) && !Enters(s)
    ensures Do(p, s).Next? ==> Thins(p, Do(p, s).p)
  {
    hide Good, Thins, IoEnabled, IdleEnabled, EventEnabled, WorkEnabled, DoIo, DoIdle, DoEvent, DoWork;
    if IsIoStep(s) {
      IoThins(p, s);
    } else if IsIdleStep(s) {
      IdleThins(p, s);
    } else if IsEventStep(s) {
      EventThins(p, s);
    } else {
      WorkThins(p, s);
    }
  }

  // ---- those who enter -------------------------------------------------------

  lemma BeginAlone(p: World, q: World, f: nat, fd: nat, ev: Event, info: nat)
    requires Alone(p) && Vacant(p, fd, ev) && f < |p.fibs| && q.io == p.io && q.fibs == p.fibs
    ensures Alone(SetStage(q, f, IoReady(fd, ev, info, None)))
  {
    hide Waiting;
  }

  lemma RegisterAlone(p: World, w: nat, accept: bool)
    requires Good(p) && Alone(p) && Acts(p, w) && StageOf(p, w).IoReady? && |p.io.ctxs| >= 32
    ensures DoRegister(p, w, accept).Next? ==> Alone(DoRegister(p, w, accept).p)
  {
    hide Core, IoSpec.Inv, Waiting, Moves, AddEvent, Alone, SetStage, SetFib;
    Sizes(p);
    WorkerFacts(p, w);
    var f := p.workers[w].phase.f;
    var b := p.fibs[f];
    var s := b.stage;
    AddEventKeeps(p.io, s.fd, s.ev, RunFiber(f), true, accept);
    var r := AddEvent(p.io, s.fd, s.ev, RunFiber(f), true, accept);
    if r.Done? {
      if accept {
        ParkedAlone(p, r.io, f, b.(stage := IoParked(s.fd, s.ev, s.info, s.timer, false), loc := AtSlot(s.fd, s.ev),
                                   issued := b.issued + 1));
      } else {
        IoThinned(p, p.(io := r.io), s.fd, Some(RunFiber(f)));
        var p1 := p.(io := r.io);
        StageThins(p1, Dropped(Stopped(p1, s.timer), s.info), f, Free);
        ThinsKeeps(p1, SetStage(Dropped(Stopped(p1, s.timer), s.info), f, Free));
      }
    }
  }

  lemma IoThinned(p: World, q: World, fd: nat, who: Option<Task>)
    requires Alone(p) && q.fibs == p.fibs && Moves(p.io, q.io, fd, {}, who)
    ensures Alone(q)
  {
    hide Waiting, Uses;
  }

  lemma ParkedAlone(p: World, io: Io, f: nat, b: Fib)
    requires Alone(p) && f < |p.fibs| && b.stage.IoParked? && Uses(p.fibs[f].stage, b.stage.fd, b.stage.ev)
    requires Moves(p.io, io, b.stage.fd, {b.stage.ev}, Some(RunFiber(f)))
    ensures Alone(SetFib(p.(io := io), f, b))
  {
    hide Waiting;
    var fibs := p.fibs[f := b];
    assert forall g, fd: nat, ev :: 0 <= g < |fibs| ==> Uses(fibs[g].stage, fd, ev) == Uses(p.fibs[g].stage, fd, ev);
  }

  lemma AddCbAlone(p: World, fd: nat, ev: Event, n: nat, accept: bool)
    requires Good(p) && Alone(p) && Vacant(p, fd, ev) && |p.io.ctxs| >= 32
    ensures DoAddCb(p, fd, ev, n, accept).Next? ==> Alone(DoAddCb(p, fd, ev, n, accept).p)
  {
    hide Core, IoSpec.Inv, Waiting, AddEvent, Uses;
    Sizes(p);
    AddEventKeeps(p.io, fd, ev, RunCb(User(n)), true, accept);
  }

  /** The second invariant: in a run of polite steps a fiber inside do_io is
      alone at its descriptor and direction. */
  lemma PoliteKeeps(p: World, s: Step)
    requires Good(p) && Alone(p) && |p.io.ctxs| >= 32 && Enabled(p, s) && Polite(p, s)
    ensures Do(p, s).Next? ==> Alone(Do(p, s).p)
  {
    hide Core, Alone, Vacant, Thins, DoRegister, DoAddCb, SetStage;
    match s
    case IoBegin(w, fd, ev) =>
      BeginAlone(p, p.(infos := p.infos + [Info(true, false)]), p.workers[w].phase.f, fd, ev, |p.infos|);
    case IoRegister(w, accept) => RegisterAlone(p, w, accept);
    case AddCb(_, fd, ev, n, accept) => AddCbAlone(p, fd, ev, n, accept);
    case _ =>
      StepThins(p, s);
      if Do(p, s).Next? {
        ThinsKeeps(p, Do(p, s).p);
      }
  }

  // ---- polite runs -----------------------------------------------------------

  /** The slot that a fiber in do_io is about to register at is empty. */
  lemma ReadySlotIsEmpty(p: World, f: nat)
    requires Good(p) && Alone(p) && f < |p.fibs| && p.fibs[f].stage.IoReady?
    ensures Waiting(p.io, p.fibs[f].stage.fd, p.fibs[f].stage.ev) == None
  {
    hide Core, IoSpec.Inv, Waiting;
    var s := p.fibs[f].stage;
    assert Uses(s, s.fd, s.ev);
    WaiterFacts(p, s.fd, s.ev);
  }

  /** The slot of a fiber that was resumed in do_io is empty again. */
  lemma ResumedSlotIsEmpty(p: World, f: nat)
    requires Good(p) && Alone(p) && f < |p.fibs| == |p.sched.states| && p.sched.states[f] == EXEC
    requires p.fibs[f].stage.IoParked? && p.fibs[f].stage.yielded
    ensures Waiting(p.io, p.fibs[f].stage.fd, p.fibs[f].stage.ev) == None
  {
    hide Core, IoSpec.Inv, Waiting;
    var s := p.fibs[f].stage;
    ResumedIsFree(p, f);
    assert Uses(s, s.fd, s.ev) && !Holds(p, InSlot(s.fd, s.ev), f);
  }

  /** A Poll as if idle looked only at registered events. */
  function Masked(p: World, s: Step): Step {
    if s.Poll? && s.fd < |p.io.ctxs| then s.(reported := s.reported * p.io.ctxs[s.fd].events) else s
  }

  lemma MaskedIsRegistered(p: World, s: Step)
    requires s.Poll? && Enabled(p, s) && |p.io.ctxs| >= 32
    ensures Enabled(p, Masked(p, s))
    ensures Do(p, Masked(p, s)) == Handed(p, DispatchRegistered(p.io, s.fd, s.reported, s.accept))
    ensures !Overreports(p.io, s.fd, Masked(p, s).reported)
  {
    hide Dispatch, Handed;
  }

  /** With one user at a time, only idle's dispatch can fail, and it would not
      if it looked at registered events only. */
  lemma PoliteFails(p: World, s: Step)
    requires Good(p) && Alone(p) && |p.io.ctxs| >= 32 && Enabled(p, s) && Polite(p, s)
    ensures Do(p, s) == Fault <==> s.Poll? && s.accept && Overreports(p.io, s.fd, s.reported)
    ensures Enabled(p, Masked(p, s)) && Do(p, Masked(p, s)).Next?
  {
    hide Core, IoSpec.Inv, Waiting, Overreports, Do;
    StepKeeps(p, s);
    if s.IoRegister? {
      WorkerFacts(p, s.w);
      ReadySlotIsEmpty(p, p.workers[s.w].phase.f);
    }
    if s.Poll? {
      MaskedIsRegistered(p, s);
      StepKeeps(p, Masked(p, s));
    }
  }

  /** In every run of polite steps whoever is inside do_io is alone, and no
      polite step that could come next fails, but for a dispatch of an event that
      is not registered. */
  lemma {:induction false} PoliteRuns(n: nat, states: seq<World>, steps: seq<Step>, i: nat)
    requires IsRun(n, states, steps) && i < |states|
    requires forall k :: 0 <= k < i ==> Polite(states[k], steps[k])
    ensures Alone(states[i]) && |states[i].io.ctxs| >= 32
    ensures forall s | Enabled(states[i], s) && Polite(states[i], s) ::
              && (Do(states[i], s) == Fault <==> s.Poll? && s.accept && Overreports(states[i].io, s.fd, s.reported))
              && Enabled(states[i], Masked(states[i], s)) && Do(states[i], Masked(states[i], s)).Next?
  {
    hide Good, Enabled, Do, Alone, Polite, Masked, Overreports;
    RunsAreGood(n, states, steps, i);
    if i == 0 {
      StartAlone(n);
    } else {
      PoliteRuns(n, states, steps, i - 1);
      RunsAreGood(n, states, steps, i - 1);
      assert Leads(states[i - 1], steps[i - 1], states[i]);
      PoliteKeeps(states[i - 1], steps[i - 1]);
    }
    forall s | Enabled(states[i], s) && Polite(states[i], s)
      ensures Do(states[i], s) == Fault <==> s.Poll? && s.accept && Overreports(states[i].io, s.fd, s.reported)
      ensures Enabled(states[i], Masked(states[i], s)) && Do(states[i], Masked(states[i], s)).Next?
    {
      PoliteFails(states[i], s);
    }
  }

  lemma StartAlone(n: nat)
    ensures Alone(Begin(n))
  {
  }

  // ---- two users ---------------------------------------------------------------

  /** A fiber enters do_io; nobody else is touched. */
  lemma Begins(p: World, v: nat, fd: nat, ev: Event)
    requires Good(p) && |p.io.ctxs| >= 32 && Acts(p, v) && StageOf(p, v) == Free
    ensures var s := IoBegin(v, fd, ev);
            && Enabled(p, s) && Do(p, s).Next?
            && var q := Do(p, s).p;
               && Good(q) && q.io == p.io && q.workers == p.workers && q.sched == p.sched
               && Acts(q, v) && StageOf(q, v).IoReady? && Uses(StageOf(q, v), fd, ev)
               && |q.fibs| == |p.fibs|
               && forall g :: 0 <= g < |p.fibs| && g != p.workers[v].phase.f ==> q.fibs[g] == p.fibs[g]
  {
    hide Core;
    StepKeeps(p, IoBegin(v, fd, ev));
  }

  /** A fiber registers; the next one that tries fails. */
  lemma Occupies(p: World, v: nat, w: nat, fd: nat, ev: Event, accept: bool)
    requires Good(p) && |p.io.ctxs| >= 32 && Acts(p, v) && Acts(p, w) && v != w
    requires StageOf(p, v).IoReady? && Uses(StageOf(p, v), fd, ev)
    requires StageOf(p, w).IoReady? && Uses(StageOf(p, w), fd, ev)
    requires Waiting(p.io, fd, ev) == None
    ensures var s := IoRegister(v, true);
            && Enabled(p, s) && Do(p, s).Next?
            && var q := Do(p, s).p;
               |q.io.ctxs| >= 32 && Enabled(q, IoRegister(w, accept)) && Do(q, IoRegister(w, accept)) == Fault
  {
    hide Core, IoSpec.Inv, Waiting, AddEvent;
    DifferentFibers(p, v, w);
    WorkerFacts(p, v);
    Sizes(p);
    StepKeeps(p, IoRegister(v, true));
    var f := p.workers[v].phase.f;
    AddEventKeeps(p.io, fd, ev, RunFiber(f), true, true);
    var q := Do(p, IoRegister(v, true)).p;
    assert Moves(p.io, q.io, fd, {ev}, Some(RunFiber(f)));
    Sizes(q);
    StepKeeps(q, IoRegister(w, accept));
  }

  /** Two fibers that run and enter do_io for the same event: the second one to
      register fails an assertion. */
  lemma SharedFails(p: World, v: nat, w: nat, fd: nat, ev: Event, accept: bool)
    requires Good(p) && |p.io.ctxs| >= 32 && v != w && Acts(p, v) && Acts(p, w)
    requires StageOf(p, v) == Free && StageOf(p, w) == Free && Waiting(p.io, fd, ev) == None
    ensures exists q, q', r ::
              && Leads(p, IoBegin(v, fd, ev), q) && Leads(q, IoBegin(w, fd, ev), q')
              && Leads(q', IoRegister(v, true), r)
              && |r.io.ctxs| >= 32 && Enabled(r, IoRegister(w, accept)) && Do(r, IoRegister(w, accept)) == Fault
  {
    hide Good, Enabled, Do, Uses, Waiting;
    DifferentFibers(p, v, w);
    Begins(p, v, fd, ev);
    var q := Do(p, IoBegin(v, fd, ev)).p;
    Begins(q, w, fd, ev);
    var q' := Do(q, IoBegin(w, fd, ev)).p;
    Occupies(q', v, w, fd, ev, accept);
    var r := Do(q', IoRegister(v, true)).p;
    assert Leads(p, IoBegin(v, fd, ev), q) && Leads(q, IoBegin(w, fd, ev), q') && Leads(q', IoRegister(v, true), r);
  }

  lemma DifferentFibers(p: World, v: nat, w: nat)
    requires Good(p) && v != w && Acts(p, v) && Acts(p, w)
    ensures p.workers[v].phase.f != p.workers[w].phase.f
  {
    hide Core;
    WorkerFacts(p, v);
    WorkerFacts(p, w);
  }

  // ---- such a state is reached -------------------------------------------------

  ghost predicate Reachable(n: nat, p: World) {
    exists states, steps :: IsRun(n, states, steps) && states[|steps|] == p
  }

  lemma ReachedNext(n: nat, p: World, s: Step, q: World)
    requires Reachable(n, p) && Leads(p, s, q)
    ensures Reachable(n, q)
  {
    hide Leads;
    var states, steps :| IsRun(n, states, steps) && states[|steps|] == p;
    var states', steps' := states + [q], steps + [s];
    forall i | 0 <= i < |steps'| ensures Leads(states'[i], steps'[i], states'[i + 1]) {
      assert i < |steps| ==> Leads(states[i], steps[i], states[i + 1]);
    }
    assert IsRun(n, states', steps');
  }

  /** Two threads of run and what they share, while no event is registered. */
  function Pair(queue: seq<Entry>, states: seq<State>, active: int, fibs: seq<Fib>, v: Phase, w: Phase): World {
    World(Sched(queue, states, active), fibs, IoSpec.Start(), [], [],
          [Worker(v, None, INIT), Worker(w, None, INIT)], false, false)
  }

  const QUEUED := Fib(Free, InQueue, 0, 1, 1)
  const R0 := Entry(RunFiber(0), None)
  const R1 := Entry(RunFiber(1), None)

  /** What a run from two threads and two new fibers goes through. */
  function Prelude(k: nat): World {
    var out := Fib(Free, Nowhere, 0, 1, 1);
    var r0, r1 := Running(0, false, None), Running(1, false, None);
    match k
    case 0 => Pair([], [], 0, [], Looping, Looping)
    case 1 => Pair([R0], [INIT], 0, [QUEUED], Looping, Looping)
    case 2 => Pair([R0, R1], [INIT, INIT], 0, [QUEUED, QUEUED], Looping, Looping)
    case 3 => Pair([R1], [INIT, INIT], 1, [QUEUED.(loc := InHand(0)), QUEUED], Taken(RunFiber(0)), Looping)
    case 4 => Pair([R1], [EXEC, INIT], 1, [out, QUEUED], r0, Looping)
    case 5 => Pair([], [EXEC, INIT], 2, [out, QUEUED.(loc := InHand(1))], r0, Taken(RunFiber(1)))
    case _ => Pair([], [EXEC, EXEC], 2, [out, out.(on := 1)], r0, r1)
  }

  lemma BothSpawned()
    ensures Prelude(0) == Begin(2)
    ensures Leads(Prelude(0), Spawn(None, None), Prelude(1)) && Leads(Prelude(1), Spawn(None, None), Prelude(2))
  {
  }

  lemma FirstTaken()
    ensures Leads(Prelude(2), Take(0), Prelude(3))
  {
    var p := Prelude(2);
    TakeIndexIs(p.sched.queue, p.sched.states, 0, 0);
    assert Without([R0, R1], 0) == [R1];
  }

  lemma FirstStarted()
    ensures Leads(Prelude(3), Start(0), Prelude(4))
  {
  }

  lemma SecondTaken()
    ensures Leads(Prelude(4), Take(1), Prelude(5))
  {
    var p := Prelude(4);
    TakeIndexIs(p.sched.queue, p.sched.states, 1, 0);
    assert Without([R1], 0) == [];
  }

  lemma SecondStarted()
    ensures Leads(Prelude(5), Start(1), Prelude(6))
  {
  }

  /** Two threads get to run two fibers, which may then enter do_io for the same
      event. */
  lemma TwoRun()
    ensures var p := Prelude(6);
            Reachable(2, p) && Acts(p, 0) && Acts(p, 1) && StageOf(p, 0) == Free && StageOf(p, 1) == Free
            && forall fd: nat, ev :: Waiting(p.io, fd, ev) == None
  {
    hide Leads;
    assert IsRun(2, [Begin(2)], []);
    BothSpawned();
    ReachedNext(2, Prelude(0), Spawn(None, None), Prelude(1));
    ReachedNext(2, Prelude(1), Spawn(None, None), Prelude(2));
    FirstTaken();
    ReachedNext(2, Prelude(2), Take(0), Prelude(3));
    FirstStarted();
    ReachedNext(2, Prelude(3), Start(0), Prelude(4));
    SecondTaken();
    ReachedNext(2, Prelude(4), Take(1), Prelude(5));
    SecondStarted();
    ReachedNext(2, Prelude(5), Start(1), Prelude(6));
  }

  /** So the failure is reached: two threads, two fibers, one event. */
  lemma SharingFails(fd: nat, ev: Event, accept: bool)
    ensures exists r :: && Reachable(2, r) && |r.io.ctxs| >= 32
                        && Enabled(r, IoRegister(1, accept)) && Do(r, IoRegister(1, accept)) == Fault
  {
    hide Leads, Good, Enabled, Do, Prelude;
    TwoRun();
    var p := Prelude(6);
    ReachedIsGood(2, p);
    SharedFails(p, 0, 1, fd, ev, accept);
    var q, q', r :| && Leads(p, IoBegin(0, fd, ev), q) && Leads(q, IoBegin(1, fd, ev), q')
                    && Leads(q', IoRegister(0, true), r)
                    && |r.io.ctxs| >= 32 && Enabled(r, IoRegister(1, accept)) && Do(r, IoRegister(1, accept)) == Fault;
    ReachedNext(2, p, IoBegin(0, fd, ev), q);
    ReachedNext(2, q, IoBegin(1, fd, ev), q');
    ReachedNext(2, q', IoRegister(0, true), r);
  }

  lemma ReachedIsGood(n: nat, p: World)
    requires Reachable(n, p)
    ensures Good(p) && |p.io.ctxs| >= 32
  {
    hide Good, Leads;
    var states, steps :| IsRun(n, states, steps) && states[|steps|] == p;
    RunsAreGood(n, states, steps, |steps|);
  }
}
