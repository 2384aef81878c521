/** The calls of do_io: which timeouts ran, what a call answers after a wake-up,
    and that no timeout is lost. */
module Calls {
  import opened Options
  import opened IoSpec
  import opened SchedSpec
  import opened Protocol
  import opened Interleavings
  import Sharing

  /** A call of do_io, by its timer_info, and the timer of this attempt. */
  datatype Call = Call(fd: nat, ev: Event, info: nat, timer: Option<nat>)

  function CallOf(s: Stage): Option<Call> {
    if s.IoReady? || s.IoParked? then Some(Call(s.fd, s.ev, s.info, s.timer)) else None
  }

  /** Fiber `f` is inside the call with this timer_info. */
  predicate InCall(p: World, f: nat, info: nat) {
    f < |p.fibs| && CallOf(p.fibs[f].stage).Some? && CallOf(p.fibs[f].stage).value.info == info
  }

  /** The callback is queued, or with a worker. */
  ghost predicate Underway(p: World, cb: Callback) {
    Listed(p.sched.queue, cb) || Carried(p.workers, cb)
  }

  ghost predicate Listed(queue: seq<Entry>, cb: Callback) {
    exists i :: 0 <= i < |queue| && queue[i].task == RunCb(cb)
  }

  ghost predicate Carried(workers: seq<Worker>, cb: Callback) {
    exists w :: 0 <= w < |workers| && Carries(workers[w].phase, cb)
  }

  predicate Carries(k: Phase, cb: Callback) {
    k == Taken(RunCb(cb)) || (k.Running? && k.todo == Some(cb))
  }

  /** Every call has a timer_info of its own, which is alive exactly as long as
      the call is. */
  ghost predicate InfosOk(p: World) {
    && (forall f :: 0 <= f < |p.fibs| && CallOf(p.fibs[f].stage).Some? ==>
          CallOf(p.fibs[f].stage).value.info < |p.infos|)
    && (forall f: nat, g: nat, n: nat :: InCall(p, f, n) && InCall(p, g, n) ==> f == g)
    && (forall n :: 0 <= n < |p.infos| ==> (p.infos[n].alive <==> exists f: nat :: InCall(p, f, n)))
  }

  /** A timeout that waits is the one of an attempt that goes on; one under way
      is for the descriptor and direction of its call. */
  ghost predicate TimeoutsOk(p: World) {
    && (forall t :: 0 <= t < |p.timers| && p.timers[t].cb.Some? && p.timers[t].cb.value.Timeout? ==>
          exists f: nat :: Awaits(p, f, t, p.timers[t].cb.value))
    && (forall cb: Callback :: cb.Timeout? && Underway(p, cb) ==> Genuine(p, cb))
  }

  predicate Awaits(p: World, f: nat, t: nat, cb: Callback) {
    cb.Timeout? && f < |p.fibs| && CallOf(p.fibs[f].stage) == Some(Call(cb.fd, cb.ev, cb.info, Some(t)))
  }

  ghost predicate Genuine(p: World, cb: Callback)
    requires cb.Timeout?
  {
    && cb.info < |p.infos|
    && forall f: nat :: InCall(p, f, cb.info) ==>
         CallOf(p.fibs[f].stage).value.fd == cb.fd && CallOf(p.fibs[f].stage).value.ev == cb.ev
  }

  /** No two attempts have the same timer. */
  ghost predicate TimersApart(p: World) {
    && (forall f: nat, t: nat :: HasTimer(p, f, t) ==> t < |p.timers|)
    && (forall f: nat, g: nat, t: nat :: HasTimer(p, f, t) && HasTimer(p, g, t) ==> f == g)
  }

  predicate HasTimer(p: World, f: nat, t: nat) {
    f < |p.fibs| && CallOf(p.fibs[f].stage).Some? && CallOf(p.fibs[f].stage).value.timer == Some(t)
  }

  /** The timeout of the attempt waits, is under way, or has run. */
  ghost predicate TimeoutKept(p: World, c: Call) {
    c.timer.Some? ==>
      var cb := Timeout(c.info, c.fd, c.ev);
      || (c.timer.value < |p.timers| && p.timers[c.timer.value].cb == Some(cb))
      || Underway(p, cb)
      || (c.info < |p.infos| && p.infos[c.info].cancelled)
  }

  ghost predicate CallsOk(p: World) {
    && InfosOk(p) && TimeoutsOk(p) && TimersApart(p)
    && forall f :: 0 <= f < |p.fibs| && CallOf(p.fibs[f].stage).Some? ==> TimeoutKept(p, CallOf(p.fibs[f].stage).value)
  }

  // ---- steps that leave the calls alone --------------------------------------

  ghost predicate SameCalls(p: World, q: World) {
    && q.infos == p.infos && |p.fibs| <= |q.fibs|
    && forall f :: 0 <= f < |q.fibs| ==>
         CallOf(q.fibs[f].stage) == if f < |p.fibs| then CallOf(p.fibs[f].stage) else None
  }

  /** The waiting timeouts are the same. */
  ghost predicate SameTimers(p: World, q: World) {
    && |p.timers| <= |q.timers|
    && forall t :: 0 <= t < |q.timers| ==>
         TimeoutAt(q.timers[t]) == if t < |p.timers| then TimeoutAt(p.timers[t]) else None
  }

  function TimeoutAt(c: Clock): Option<Callback> {
    if c.cb.Some? && c.cb.value.Timeout? then c.cb else None
  }

  ghost predicate SameUnderway(p: World, q: World) {
    forall cb: Callback :: cb.Timeout? ==> (Underway(q, cb) <==> Underway(p, cb))
  }

  lemma FrameKeeps(p: World, q: World)
    requires CallsOk(p) && SameCalls(p, q) && SameTimers(p, q) && SameUnderway(p, q)
    ensures CallsOk(q)
  {
    hide Underway;
    assert forall f: nat, n: nat :: InCall(q, f, n) <==> InCall(p, f, n);
    assert InfosOk(q);
    assert forall f: nat, t: nat :: HasTimer(q, f, t) <==> HasTimer(p, f, t);
    forall t | 0 <= t < |q.timers| && q.timers[t].cb.Some? && q.timers[t].cb.value.Timeout?
      ensures exists f: nat :: Awaits(q, f, t, q.timers[t].cb.value)
    {
      assert TimeoutAt(q.timers[t]) == TimeoutAt(p.timers[t]);
      var f: nat :| Awaits(p, f, t, p.timers[t].cb.value);
      assert Awaits(q, f, t, q.timers[t].cb.value);
    }
    forall cb: Callback | cb.Timeout? && Underway(q, cb) ensures Genuine(q, cb) {
      assert Genuine(p, cb);
    }
    forall f | 0 <= f < |q.fibs| && CallOf(q.fibs[f].stage).Some?
      ensures TimeoutKept(q, CallOf(q.fibs[f].stage).value)
    {
      var c := CallOf(q.fibs[f].stage).value;
      assert TimeoutKept(p, c);
      if c.timer.Some? {
        assert HasTimer(p, f, c.timer.value);
        assert TimeoutAt(q.timers[c.timer.value]) == TimeoutAt(p.timers[c.timer.value]);
      }
    }
  }

  lemma ListedPush(queue: seq<Entry>, e: Entry, cb: Callback)
    ensures Listed(queue + [e], cb) <==> Listed(queue, cb) || e.task == RunCb(cb)
  {
    if Listed(queue, cb) {
      var i :| 0 <= i < |queue| && queue[i].task == RunCb(cb);
      assert (queue + [e])[i].task == RunCb(cb);
    }
    assert (queue + [e])[|queue|] == e;
  }

  lemma ListedWithout(queue: seq<Entry>, k: nat, cb: Callback)
    requires k < |queue|
    ensures Listed(queue, cb) <==> Listed(Without(queue, k), cb) || queue[k].task == RunCb(cb)
  {
    var rest := Without(queue, k);
    if Listed(queue, cb) && queue[k].task != RunCb(cb) {
      var i :| 0 <= i < |queue| && queue[i].task == RunCb(cb);
      assert rest[if i < k then i else i - 1].task == RunCb(cb);
    }
    if Listed(rest, cb) {
      var i :| 0 <= i < |rest| && rest[i].task == RunCb(cb);
      assert queue[if i < k then i else i + 1].task == RunCb(cb);
    }
  }

  lemma CarriedUpdate(workers: seq<Worker>, w: nat, k: Worker, cb: Callback)
    requires w < |workers|
    ensures Carried(workers[w := k], cb) ==> Carried(workers, cb) || Carries(k.phase, cb)
    ensures Carries(k.phase, cb) ==> Carried(workers[w := k], cb)
    ensures Carried(workers, cb) && !Carries(workers[w].phase, cb) ==> Carried(workers[w := k], cb)
    ensures Carries(workers[w].phase, cb) ==> Carried(workers, cb)
  {
    var workers' := workers[w := k];
    if Carried(workers', cb) {
      var v :| 0 <= v < |workers'| && Carries(workers'[v].phase, cb);
      assert v != w ==> Carries(workers[v].phase, cb);
    }
    if Carried(workers, cb) {
      var v :| 0 <= v < |workers| && Carries(workers[v].phase, cb);
      assert v != w ==> Carries(workers'[v].phase, cb);
    }
    assert workers'[w] == k;
  }

  /** Nothing but the workers changes, and what they carry stays. */
  lemma WorkerCalls(p: World, q: World, w: nat, k: Worker)
    requires CallsOk(p) && w < |p.workers| && q.workers == p.workers[w := k]
    requires q.sched.queue == p.sched.queue && q.timers == p.timers && SameCalls(p, q)
    requires forall cb: Callback :: cb.Timeout? ==> (Carries(k.phase, cb) <==> Carries(p.workers[w].phase, cb))
    ensures CallsOk(q)
  {
    hide CallsOk, SameCalls, Listed, Carried;
    forall cb: Callback | cb.Timeout? ensures Underway(q, cb) <==> Underway(p, cb) {
      CarriedUpdate(p.workers, w, k, cb);
    }
    FrameKeeps(p, q);
  }

  lemma TakeCalls(p: World, w: nat)
    requires CallsOk(p) && Loops(p, w) && !NothingFor(p, w)
    ensures CallsOk(DoTake(p, w))
  {
    hide CallsOk, Listed, Carried, TakeIndex;
    var k := TakeIndex(p.sched.queue, p.sched.states, w);
    var q := DoTake(p, w);
    var task := p.sched.queue[k].task;
    forall cb: Callback | cb.Timeout? ensures Underway(q, cb) <==> Underway(p, cb) {
      ListedWithout(p.sched.queue, k, cb);
      CarriedUpdate(p.workers, w, p.workers[w].(phase := Taken(task)), cb);
    }
    FrameKeeps(p, q);
  }

  lemma StartCalls(p: World, w: nat)
    requires CallsOk(p) && w < |p.workers| && p.workers[w].phase.Taken? && |p.fibs| == |p.sched.states|
    ensures DoStart(p, w).Next? ==> CallsOk(DoStart(p, w).p)
  {
    hide CallsOk;
    if DoStart(p, w).Next? {
      var q := DoStart(p, w).p;
      WorkerCalls(p, q, w, q.workers[w]);
    }
  }

  lemma LeftCalls(p: World, w: nat, t: State)
    requires CallsOk(p) && Acts(p, w) && t != READY
    ensures CallsOk(Left(p, w, t))
  {
    hide CallsOk;
    var q := Left(p, w, t);
    WorkerCalls(p, q, w, q.workers[w]);
  }

  lemma YieldHoldCalls(p: World, w: nat)
    requires CallsOk(p) && Acts(p, w)
    ensures CallsOk(DoYieldHold(p, w))
  {
    hide CallsOk;
    var q := DoYieldHold(p, w);
    WorkerCalls(p, q, w, q.workers[w]);
  }

  lemma YieldReadyCalls(p: World, w: nat)
    requires CallsOk(p) && Acts(p, w)
    ensures CallsOk(DoYieldReady(p, w))
  {
    hide CallsOk, Listed, Carried;
    var q := DoYieldReady(p, w);
    forall cb: Callback | cb.Timeout? ensures Underway(q, cb) <==> Underway(p, cb) {
      ListedPush(p.sched.queue, Entry(RunFiber(p.workers[w].phase.f), None), cb);
      CarriedUpdate(p.workers, w, q.workers[w], cb);
    }
    FrameKeeps(p, q);
  }

  /** Queueing a fiber, or a callback that is no timeout. */
  lemma PushedCalls(p: World, task: Task, pin: Option<nat>)
    requires CallsOk(p) && (task.RunCb? ==> !task.cb.Timeout?)
    ensures CallsOk(Pushed(p, task, pin))
  {
    hide CallsOk, Listed, Carried;
    forall cb: Callback | cb.Timeout? ensures Underway(Pushed(p, task, pin), cb) <==> Underway(p, cb) {
      ListedPush(p.sched.queue, Entry(task, pin), cb);
    }
    FrameKeeps(p, Pushed(p, task, pin));
  }

  lemma SpawnCalls(p: World, pin: Option<nat>)
    requires CallsOk(p)
    ensures CallsOk(DoSpawn(p, pin))
  {
    hide CallsOk, Listed, Carried;
    forall cb: Callback | cb.Timeout? ensures Underway(DoSpawn(p, pin), cb) <==> Underway(p, cb) {
      ListedPush(p.sched.queue, Entry(RunFiber(|p.fibs|), pin), cb);
    }
    FrameKeeps(p, DoSpawn(p, pin));
  }

  /** Neither the list nor the workers change. */
  lemma StillCalls(p: World, q: World)
    requires CallsOk(p) && q.sched.queue == p.sched.queue && q.workers == p.workers
    requires SameCalls(p, q) && SameTimers(p, q)
    ensures CallsOk(q)
  {
    hide CallsOk, SameCalls, SameTimers, Listed, Carried;
    FrameKeeps(p, q);
  }

  lemma {:induction false} PushesCalls(p: World, tasks: seq<Task>)
    requires CallsOk(p) && forall i :: 0 <= i < |tasks| ==> (tasks[i].RunCb? ==> !tasks[i].cb.Timeout?)
    ensures CallsOk(PushedAll(p, tasks))
    decreases |tasks|
  {
    hide CallsOk, Pushed;
    if tasks != [] {
      PushedCalls(p, tasks[0], None);
      PushesCalls(Pushed(p, tasks[0], None), tasks[1..]);
    }
  }

  /** Slots hold no timeouts. */
  lemma HandedCalls(p: World, r: Result, io: Io, fd: nat, evs: set<Event>)
    requires CallsOk(p) && SlotsOk(io, p.fibs) && (r.Done? ==> r.tasks == [] || r.tasks == Waiters(io, fd, evs))
    ensures Handed(p, r).Next? ==> CallsOk(Handed(p, r).p)
  {
    hide CallsOk, Waiting, PushedAll;
    if r.Done? {
      StillCalls(p, p.(io := r.io));
      assert SlotOk(Waiting(io, fd, READ), fd, READ, p.fibs) && SlotOk(Waiting(io, fd, WRITE), fd, WRITE, p.fibs);
      PushesCalls(p.(io := r.io), r.tasks);
    }
  }

  lemma SlotsOf(p: World)
    requires Good(p)
    ensures SlotsOk(p.io, p.fibs) && IoSpec.Inv(p.io) && |p.io.ctxs| >= 32 && |p.fibs| == |p.sched.states|
  {
  }

  lemma TimerFacts(p: World, t: nat)
    requires Good(p) && t < |p.timers| && p.timers[t].cb.Some?
    ensures p.timers[t].recurring ==> p.timers[t].cb.value.User?
  {
  }

  // ---- the calls themselves ----------------------------------------------------

  /** A fiber enters do_io: a timer_info nobody has, and no timer yet. */
  lemma BeginCalls(p: World, f: nat, fd: nat, ev: Event)
    requires CallsOk(p) && f < |p.fibs| && p.fibs[f].stage == Free
    ensures CallsOk(SetStage(p.(infos := p.infos + [Info(true, false)]), f, IoReady(fd, ev, |p.infos|, None)))
  {
    hide Listed, Carried;
    var q := SetStage(p.(infos := p.infos + [Info(true, false)]), f, IoReady(fd, ev, |p.infos|, None));
    assert forall g: nat, n: nat :: InCall(q, g, n) <==> (if g == f then n == |p.infos| else InCall(p, g, n));
    forall n | 0 <= n < |q.infos| ensures q.infos[n].alive <==> exists g: nat :: InCall(q, g, n) {
      if n == |p.infos| {
        assert InCall(q, f, n);
      } else if exists g: nat :: InCall(p, g, n) {
        var g: nat :| InCall(p, g, n);
        assert InCall(q, g, n);
      }
    }
    assert InfosOk(q);
    assert forall g: nat, t: nat :: HasTimer(q, g, t) <==> g != f && HasTimer(p, g, t);
    forall t | 0 <= t < |q.timers| && q.timers[t].cb.Some? && q.timers[t].cb.value.Timeout?
      ensures exists g: nat :: Awaits(q, g, t, q.timers[t].cb.value)
    {
      var g: nat :| Awaits(p, g, t, p.timers[t].cb.value);
      assert Awaits(q, g, t, q.timers[t].cb.value);
    }
    SameUnderwayKept(p, q, f);
  }

  /** What is said of the timeouts of other fibers' calls stays true. */
  lemma SameUnderwayKept(p: World, q: World, f: nat)
    requires CallsOk(p) && f < |p.fibs| == |q.fibs| && |p.infos| <= |q.infos|
    requires q.sched.queue == p.sched.queue && q.workers == p.workers && q.timers == p.timers
    requires forall g :: 0 <= g < |p.fibs| && g != f ==> q.fibs[g] == p.fibs[g]
    requires forall n :: 0 <= n < |p.infos| ==> q.infos[n].cancelled == p.infos[n].cancelled
    requires CallOf(q.fibs[f].stage).Some? ==> CallOf(q.fibs[f].stage).value.timer.None?
    requires forall n: nat :: InCall(q, f, n) ==> n >= |p.infos|
    ensures forall cb: Callback :: cb.Timeout? && Underway(q, cb) ==> Genuine(q, cb)
    ensures forall g :: 0 <= g < |q.fibs| && CallOf(q.fibs[g].stage).Some? ==>
              TimeoutKept(q, CallOf(q.fibs[g].stage).value)
  {
    hide Listed, Carried;
    forall cb: Callback | cb.Timeout? && Underway(q, cb) ensures Genuine(q, cb) {
      assert Underway(p, cb) && Genuine(p, cb);
      assert forall g: nat :: g != f && InCall(q, g, cb.info) ==> InCall(p, g, cb.info);
    }
    forall g | 0 <= g < |q.fibs| && CallOf(q.fibs[g].stage).Some?
      ensures TimeoutKept(q, CallOf(q.fibs[g].stage).value)
    {
      if g != f {
        assert TimeoutKept(p, CallOf(p.fibs[g].stage).value);
        var c := CallOf(p.fibs[g].stage).value;
        assert Underway(q, Timeout(c.info, c.fd, c.ev)) <==> Underway(p, Timeout(c.info, c.fd, c.ev));
        assert c.info < |p.infos|;
      }
    }
  }

  /** The timer of the attempt has gone off or was cancelled, or there is none. */
  predicate NoTimer(p: World, f: nat)
    requires f < |p.fibs|
  {
    var c := CallOf(p.fibs[f].stage);
    c.Some? && c.value.timer.Some? && c.value.timer.value < |p.timers| ==>
      TimeoutAt(p.timers[c.value.timer.value]) == None
  }

  ghost predicate OthersKept(p: World, f: nat) {
    forall g :: 0 <= g < |p.fibs| && g != f && CallOf(p.fibs[g].stage).Some? ==>
      TimeoutKept(p, CallOf(p.fibs[g].stage).value)
  }

  /** do_io cancels its own timer and no other. */
  lemma StopOwn(p: World, f: nat)
    requires CallsOk(p) && f < |p.fibs| && CallOf(p.fibs[f].stage).Some?
    ensures var q := Stopped(p, CallOf(p.fibs[f].stage).value.timer);
            InfosOk(q) && TimeoutsOk(q) && TimersApart(q) && NoTimer(q, f) && OthersKept(q, f)
  {
    hide Listed, Carried;
    var q := Stopped(p, CallOf(p.fibs[f].stage).value.timer);
    assert forall g: nat, n: nat :: InCall(q, g, n) <==> InCall(p, g, n);
    assert forall g: nat, t: nat :: HasTimer(q, g, t) <==> HasTimer(p, g, t);
    forall t | 0 <= t < |q.timers| && q.timers[t].cb.Some? && q.timers[t].cb.value.Timeout?
      ensures exists g: nat :: Awaits(q, g, t, q.timers[t].cb.value)
    {
      var g: nat :| Awaits(p, g, t, p.timers[t].cb.value);
      assert Awaits(q, g, t, q.timers[t].cb.value);
    }
    forall cb: Callback | cb.Timeout? && Underway(q, cb) ensures Genuine(q, cb) {
      assert Underway(p, cb) && Genuine(p, cb);
    }
    forall g | 0 <= g < |q.fibs| && g != f && CallOf(q.fibs[g].stage).Some?
      ensures TimeoutKept(q, CallOf(q.fibs[g].stage).value)
    {
      var c := CallOf(p.fibs[g].stage).value;
      assert TimeoutKept(p, c);
      assert c.timer.Some? ==> HasTimer(p, g, c.timer.value);
      assert CallOf(p.fibs[f].stage).value.timer == c.timer && c.timer.Some? ==> HasTimer(p, f, c.timer.value);
      assert Underway(q, Timeout(c.info, c.fd, c.ev)) <==> Underway(p, Timeout(c.info, c.fd, c.ev));
    }
  }

  /** A call ends: its timer_info goes, and its timer has gone. */
  lemma EndCalls(p: World, f: nat)
    requires InfosOk(p) && TimeoutsOk(p) && TimersApart(p) && f < |p.fibs| && CallOf(p.fibs[f].stage).Some?
    requires NoTimer(p, f) && OthersKept(p, f)
    ensures CallsOk(SetStage(Dropped(p, p.fibs[f].stage.info), f, Free))
  {
    hide Listed, Carried;
    var n0 := p.fibs[f].stage.info;
    var q := SetStage(Dropped(p, n0), f, Free);
    assert InCall(p, f, n0);
    assert forall g: nat, n: nat :: InCall(q, g, n) <==> g != f && InCall(p, g, n);
    forall n | 0 <= n < |q.infos| ensures q.infos[n].alive <==> exists g: nat :: InCall(q, g, n) {
      if n != n0 && p.infos[n].alive {
        var g: nat :| InCall(p, g, n);
        assert InCall(q, g, n);
      }
    }
    assert InfosOk(q);
    assert forall g: nat, t: nat :: HasTimer(q, g, t) <==> g != f && HasTimer(p, g, t);
    forall t | 0 <= t < |q.timers| && q.timers[t].cb.Some? && q.timers[t].cb.value.Timeout?
      ensures exists g: nat :: Awaits(q, g, t, q.timers[t].cb.value)
    {
      var g: nat :| Awaits(p, g, t, p.timers[t].cb.value);
      assert Awaits(q, g, t, q.timers[t].cb.value);
    }
    forall cb: Callback | cb.Timeout? && Underway(q, cb) ensures Genuine(q, cb) {
      assert Underway(p, cb) && Genuine(p, cb);
    }
    forall g | 0 <= g < |q.fibs| && CallOf(q.fibs[g].stage).Some?
      ensures TimeoutKept(q, CallOf(q.fibs[g].stage).value)
    {
      assert TimeoutKept(p, CallOf(p.fibs[g].stage).value);
    }
  }

  /** The call goes on with another attempt. */
  lemma RetryCalls(p: World, f: nat)
    requires InfosOk(p) && TimeoutsOk(p) && TimersApart(p) && f < |p.fibs| && CallOf(p.fibs[f].stage).Some?
    requires NoTimer(p, f) && OthersKept(p, f)
    ensures var s := p.fibs[f].stage; CallsOk(SetStage(p, f, IoReady(s.fd, s.ev, s.info, None)))
  {
    hide Listed, Carried;
    var s := p.fibs[f].stage;
    var q := SetStage(p, f, IoReady(s.fd, s.ev, s.info, None));
    assert forall g: nat, n: nat :: InCall(q, g, n) <==> InCall(p, g, n);
    assert forall g: nat, t: nat :: HasTimer(q, g, t) <==> g != f && HasTimer(p, g, t);
    forall t | 0 <= t < |q.timers| && q.timers[t].cb.Some? && q.timers[t].cb.value.Timeout?
      ensures exists g: nat :: Awaits(q, g, t, q.timers[t].cb.value)
    {
      var g: nat :| Awaits(p, g, t, p.timers[t].cb.value);
      assert Awaits(q, g, t, q.timers[t].cb.value);
    }
    forall cb: Callback | cb.Timeout? && Underway(q, cb) ensures Genuine(q, cb) {
      assert Underway(p, cb) && Genuine(p, cb);
    }
    forall g | 0 <= g < |q.fibs| && CallOf(q.fibs[g].stage).Some?
      ensures TimeoutKept(q, CallOf(q.fibs[g].stage).value)
    {
      assert g != f ==> TimeoutKept(p, CallOf(p.fibs[g].stage).value);
    }
  }

  /** do_io sets the timer of an attempt. */
  lemma TimedCalls(p: World, f: nat)
    requires CallsOk(p) && f < |p.fibs| && p.fibs[f].stage.IoReady? && p.fibs[f].stage.timer.None?
    ensures var s := p.fibs[f].stage;
            CallsOk(SetStage(p.(timers := p.timers + [Clock(Some(Timeout(s.info, s.fd, s.ev)), false)]), f,
                             IoReady(s.fd, s.ev, s.info, Some(|p.timers|))))
  {
    hide Listed, Carried;
    var s := p.fibs[f].stage;
    var q := SetStage(p.(timers := p.timers + [Clock(Some(Timeout(s.info, s.fd, s.ev)), false)]), f,
                      IoReady(s.fd, s.ev, s.info, Some(|p.timers|)));
    assert forall g: nat, n: nat :: InCall(q, g, n) <==> InCall(p, g, n);
    assert forall g: nat, t: nat :: HasTimer(q, g, t) <==> (if g == f then t == |p.timers| else HasTimer(p, g, t));
    forall t | 0 <= t < |q.timers| && q.timers[t].cb.Some? && q.timers[t].cb.value.Timeout?
      ensures exists g: nat :: Awaits(q, g, t, q.timers[t].cb.value)
    {
      if t == |p.timers| {
        assert Awaits(q, f, t, q.timers[t].cb.value);
      } else {
        var g: nat :| Awaits(p, g, t, p.timers[t].cb.value);
        assert Awaits(q, g, t, q.timers[t].cb.value);
      }
    }
    forall cb: Callback | cb.Timeout? && Underway(q, cb) ensures Genuine(q, cb) {
      assert Underway(p, cb) && Genuine(p, cb);
    }
    forall g | 0 <= g < |q.fibs| && CallOf(q.fibs[g].stage).Some?
      ensures TimeoutKept(q, CallOf(q.fibs[g].stage).value)
    {
      if g != f {
        var c := CallOf(p.fibs[g].stage).value;
        assert TimeoutKept(p, c);
        assert Underway(q, Timeout(c.info, c.fd, c.ev)) <==> Underway(p, Timeout(c.info, c.fd, c.ev));
      }
    }
  }

  /** A timer goes off: a timeout is under way then. */
  lemma ExpireCalls(p: World, t: nat)
    requires Good(p) && CallsOk(p) && t < |p.timers| && p.timers[t].cb.Some?
    ensures CallsOk(DoExpire(p, t))
  {
    hide Good;
    var cb := p.timers[t].cb.value;
    TimerFacts(p, t);
    if cb.Timeout? {
      ExpireTimeout(p, t);
    } else {
      var p1 := if p.timers[t].recurring then p else Stopped(p, Some(t));
      StillCalls(p, p1) by {
        hide CallsOk;
      }
      PushedCalls(p1, RunCb(cb), None);
    }
  }

  lemma ExpireTimeout(p: World, t: nat)
    requires CallsOk(p) && t < |p.timers| && p.timers[t].cb.Some? && p.timers[t].cb.value.Timeout?
    requires !p.timers[t].recurring
    ensures CallsOk(DoExpire(p, t))
  {
    hide Listed, Carried;
    var own := p.timers[t].cb.value;
    var q := DoExpire(p, t);
    assert forall f: nat, n: nat :: InCall(q, f, n) <==> InCall(p, f, n);
    assert forall f: nat, u: nat :: HasTimer(q, f, u) <==> HasTimer(p, f, u);
    var f0: nat :| Awaits(p, f0, t, own);
    assert InCall(p, f0, own.info);
    forall u | 0 <= u < |q.timers| && q.timers[u].cb.Some? && q.timers[u].cb.value.Timeout?
      ensures exists f: nat :: Awaits(q, f, u, q.timers[u].cb.value)
    {
      var f: nat :| Awaits(p, f, u, p.timers[u].cb.value);
      assert Awaits(q, f, u, q.timers[u].cb.value);
    }
    forall cb: Callback ensures Underway(q, cb) <==> Underway(p, cb) || cb == own {
      ListedPush(p.sched.queue, Entry(RunCb(own), None), cb);
    }
    forall cb: Callback | cb.Timeout? && Underway(q, cb) ensures Genuine(q, cb) {
      assert cb != own ==> Genuine(p, cb);
    }
    forall f | 0 <= f < |q.fibs| && CallOf(q.fibs[f].stage).Some?
      ensures TimeoutKept(q, CallOf(q.fibs[f].stage).value)
    {
      var c := CallOf(p.fibs[f].stage).value;
      assert TimeoutKept(p, c);
      assert Underway(q, own);
    }
  }

  /** A worker runs a callback that is no timeout. */
  lemma TodoDoneCalls(p: World, w: nat)
    requires CallsOk(p) && Runs(p, w) && p.workers[w].phase.todo.Some? && !p.workers[w].phase.todo.value.Timeout?
    ensures CallsOk(SetPhase(p, w, p.workers[w].phase.(todo := None)))
  {
    hide CallsOk;
    WorkerCalls(p, SetPhase(p, w, p.workers[w].phase.(todo := None)), w,
                p.workers[w].(phase := p.workers[w].phase.(todo := None)));
  }

  /** A worker runs a timeout: if its call goes on, it has timed out now. */
  lemma TimeoutRunCalls(p: World, w: nat)
    requires CallsOk(p) && Runs(p, w) && p.workers[w].phase.todo.Some? && p.workers[w].phase.todo.value.Timeout?
    ensures var i := p.workers[w].phase.todo.value.info;
            var q := SetPhase(p, w, p.workers[w].phase.(todo := None));
            && i < |p.infos|
            && CallsOk(if p.infos[i].alive then q.(infos := p.infos[i := Info(true, true)]) else q)
  {
    hide Listed, Carried;
    var own := p.workers[w].phase.todo.value;
    var k := p.workers[w].(phase := p.workers[w].phase.(todo := None));
    var p1 := SetPhase(p, w, k.phase);
    assert Underway(p, own) by {
      CarriedUpdate(p.workers, w, k, own);
    }
    assert Genuine(p, own);
    var q := if p.infos[own.info].alive then p1.(infos := p.infos[own.info := Info(true, true)]) else p1;
    assert forall f: nat, n: nat :: InCall(q, f, n) <==> InCall(p, f, n);
    assert forall f: nat, t: nat :: HasTimer(q, f, t) <==> HasTimer(p, f, t);
    assert InfosOk(q);
    forall t | 0 <= t < |q.timers| && q.timers[t].cb.Some? && q.timers[t].cb.value.Timeout?
      ensures exists f: nat :: Awaits(q, f, t, q.timers[t].cb.value)
    {
      var f: nat :| Awaits(p, f, t, p.timers[t].cb.value);
      assert Awaits(q, f, t, q.timers[t].cb.value);
    }
    forall cb: Callback ensures Underway(q, cb) ==> Underway(p, cb)
                        ensures cb != own && Underway(p, cb) ==> Underway(q, cb) {
      CarriedUpdate(p.workers, w, k, cb);
    }
    forall cb: Callback | cb.Timeout? && Underway(q, cb) ensures Genuine(q, cb) {
      assert Genuine(p, cb);
    }
    forall f | 0 <= f < |q.fibs| && CallOf(q.fibs[f].stage).Some?
      ensures TimeoutKept(q, CallOf(q.fibs[f].stage).value)
    {
      var c := CallOf(p.fibs[f].stage).value;
      assert TimeoutKept(p, c) && InCall(p, f, c.info);
    }
  }

  lemma TodoCalls(p: World, w: nat, accept: bool)
    requires Good(p) && CallsOk(p) && Runs(p, w) && p.workers[w].phase.todo.Some?
    ensures DoTodo(p, w, accept).Next? ==> CallsOk(DoTodo(p, w, accept).p)
  {
    hide Good, CallsOk, Handed, CancelEvent, Pushed, Moves, Waiters, Waiting, IoSpec.Inv;
    var p1 := SetPhase(p, w, p.workers[w].phase.(todo := None));
    match p.workers[w].phase.todo.value
    case User(_) => TodoDoneCalls(p, w);
    case Wake(f) =>
      TodoDoneCalls(p, w);
      PushedCalls(p1, RunFiber(f), None);
    case Timeout(i, fd, ev) =>
      TimeoutRunCalls(p, w);
      if p.infos[i].alive && !p.infos[i].cancelled {
        SlotsOf(p);
        CancelEventKeeps(p.io, fd, ev, accept);
        HandedCalls(p1.(infos := p.infos[i := Info(true, true)]), CancelEvent(p.io, fd, ev, accept), p.io, fd, {ev});
      } else if p.infos[i].alive {
        assert p.infos[i := Info(true, true)] == p.infos;
      }
  }

  lemma ResumeCalls(p: World, w: nat)
    requires CallsOk(p) && Acts(p, w) && StageOf(p, w).IoParked?
    ensures CallsOk(DoResume(p, w))
  {
    hide CallsOk, InfosOk, TimeoutsOk, TimersApart, OthersKept, NoTimer, SetStage;
    var f := p.workers[w].phase.f;
    StopOwn(p, f);
    var p1 := Stopped(p, StageOf(p, w).timer);
    RetryCalls(p1, f);
    EndCalls(p1, f);
  }

  lemma RegisterCalls(p: World, w: nat, accept: bool)
    requires CallsOk(p) && Acts(p, w) && StageOf(p, w).IoReady? && |p.io.ctxs| >= 32
    ensures DoRegister(p, w, accept).Next? ==> CallsOk(DoRegister(p, w, accept).p)
  {
    hide CallsOk, InfosOk, TimeoutsOk, TimersApart, OthersKept, NoTimer, SetStage, AddEvent;
    var f := p.workers[w].phase.f;
    var s := StageOf(p, w);
    match AddEvent(p.io, s.fd, s.ev, RunFiber(f), p.sched.states[f] == EXEC, accept)
    case Aborted =>
    case Done(io, ok, _) =>
      if ok {
        StillCalls(p, DoRegister(p, w, accept).p);
      } else {
        StillCalls(p, p.(io := io));
        StopOwn(p.(io := io), f);
        EndCalls(Stopped(p.(io := io), s.timer), f);
      }
  }

  lemma IoStepCalls(p: World, s: Step)
    requires CallsOk(p) && |p.io.ctxs| >= 32 && IsIoStep(s) && IoEnabled(p, s)
    ensures DoIo(p, s).Next? ==> CallsOk(DoIo(p, s).p)
  {
    hide CallsOk, InfosOk, TimeoutsOk, TimersApart, OthersKept, SetStage, DoRegister, DoResume;
    match s
    case IoBegin(w, fd, ev) => BeginCalls(p, p.workers[w].phase.f, fd, ev);
    case IoTimer(w) => TimedCalls(p, p.workers[w].phase.f);
    case IoRegister(w, accept) => RegisterCalls(p, w, accept);
    case IoResume(w) => ResumeCalls(p, w);
    case IoDone(w) =>
      StopOwn(p, p.workers[w].phase.f);
      EndCalls(p, p.workers[w].phase.f);
    case Sleep(w) => StillCalls(p, DoSleep(p, w));
    case SleepResume(w) => FreeCalls(p, p.workers[w].phase.f);
  }

  lemma FreeCalls(p: World, f: nat)
    requires CallsOk(p) && f < |p.fibs| && CallOf(p.fibs[f].stage).None?
    ensures CallsOk(SetStage(p, f, Free))
  {
    hide CallsOk;
    StillCalls(p, SetStage(p, f, Free));
  }

  lemma IdleStepCalls(p: World, s: Step)
    requires Good(p) && CallsOk(p) && |p.io.ctxs| >= 32 && IsIdleStep(s) && IdleEnabled(p, s)
    ensures DoIdle(p, s).Next? ==> CallsOk(DoIdle(p, s).p)
  {
    hide Good, CallsOk, Quiet, TakeIndex, Handed, Dispatch, DoExpire;
    match s
    case Expire(_, t) => ExpireCalls(p, t);
    case Poll(_, fd, reported, accept) => PollCalls(p, fd, reported, accept);
    case GoIdle(w) =>
      var k := Worker(Idling, p.workers[w].cached, EXEC);
      WorkerCalls(p, p.(workers := p.workers[w := k]), w, k);
    case Wakeup(w) => WorkerCalls(p, DoLeaveIdle(p, w, HOLD), w, Worker(Looping, p.workers[w].cached, HOLD));
    case IdleStop(w) => WorkerCalls(p, DoLeaveIdle(p, w, TERM), w, Worker(Looping, p.workers[w].cached, TERM));
    case Exit(w) => WorkerCalls(p, SetPhase(p, w, Exited), w, p.workers[w].(phase := Exited));
  }

  lemma PollCalls(p: World, fd: nat, reported: set<Event>, accept: bool)
    requires Good(p) && CallsOk(p) && fd < |p.io.ctxs|
    ensures var r := Handed(p, Dispatch(p.io, fd, reported, accept)); r.Next? ==> CallsOk(r.p)
  {
    hide Good, IoSpec.Inv, CallsOk, Handed, Dispatch, DispatchRegistered, Moves, Waiting, Waiters;
    SlotsOf(p);
    DispatchAborts(p.io, fd, reported, accept);
    DispatchKeeps(p.io, fd, reported, accept);
    HandedCalls(p, Dispatch(p.io, fd, reported, accept), p.io, fd, reported);
  }

  lemma EventStepCalls(p: World, s: Step)
    requires Good(p) && CallsOk(p) && |p.io.ctxs| >= 32 && IsEventStep(s) && EventEnabled(p, s)
    ensures DoEvent(p, s).Next? ==> CallsOk(DoEvent(p, s).p)
  {
    hide Good, IoSpec.Inv, CallsOk, Handed, AddEvent, DelEvent, CancelEvent, CancelAll, Moves, Waiting, Waiters,
      SlotsOk;
    SlotsOf(p);
    match s
    case AddCb(_, fd, ev, n, accept) =>
      AddEventKeeps(p.io, fd, ev, RunCb(User(n)), true, accept);
      HandedCalls(p, AddEvent(p.io, fd, ev, RunCb(User(n)), true, accept), p.io, fd, {});
    case Del(_, fd, ev, accept) =>
      if DoDel(p, fd, ev, accept).Next? {
        StillCalls(p, DoDel(p, fd, ev, accept).p);
      }
    case Cancel(_, fd, ev, accept) =>
      CancelEventKeeps(p.io, fd, ev, accept);
      HandedCalls(p, CancelEvent(p.io, fd, ev, accept), p.io, fd, {ev});
    case CancelEvery(_, fd, accept) =>
      CancelAllKeeps(p.io, fd, accept);
      HandedCalls(p, CancelAll(p.io, fd, accept), p.io, fd, {READ, WRITE});
  }

  lemma WorkStepCalls(p: World, s: Step)
    requires Good(p) && CallsOk(p) && |p.io.ctxs| >= 32
    requires !IsIoStep(s) && !IsIdleStep(s) && !IsEventStep(s) && WorkEnabled(p, s)
    ensures DoWork(p, s).Next? ==> CallsOk(DoWork(p, s).p)
  {
    hide Good, CallsOk, TakeIndex, DoTake, DoStart, DoTodo, DoYieldReady, DoYieldHold, Left, DoSpawn, Pushed;
    match s
    case Take(w) => TakeCalls(p, w);
    case Start(w) => StartCalls(p, w);
    case RunTodo(w, accept) => TodoCalls(p, w, accept);
    case YieldReady(w) => YieldReadyCalls(p, w);
    case YieldHold(w) => YieldHoldCalls(p, w);
    case Finish(w, thrown) => LeftCalls(p, w, if thrown then EXCEPT else TERM);
    case Spawn(_, pin) => SpawnCalls(p, pin);
    case Submit(_, n, pin) => PushedCalls(p, RunCb(User(n)), pin);
    case AddTimer(_, n, recurring) => StillCalls(p, p.(timers := p.timers + [Clock(Some(User(n)), recurring)]));
    case DropTimer(_, t) => StillCalls(p, Stopped(p, Some(t)));
    case Stop => StillCalls(p, p.(autostop := true, stopping := true));
  }

  lemma StepCalls(p: World, s: Step)
    requires Good(p) && CallsOk(p) && |p.io.ctxs| >= 32 && Enabled(p, s)
    ensures Do(p, s).Next? ==> CallsOk(Do(p, s).p)
  {
    hide Good, CallsOk, IoEnabled, IdleEnabled, EventEnabled, WorkEnabled, DoIo, DoIdle, DoEvent, DoWork;
    if IsIoStep(s) {
      IoStepCalls(p, s);
    } else if IsIdleStep(s) {
      IdleStepCalls(p, s);
    } else if IsEventStep(s) {
      EventStepCalls(p, s);
    } else {
      WorkStepCalls(p, s);
    }
  }

  lemma {:induction false} RunsCalls(n: nat, states: seq<World>, steps: seq<Step>, i: nat)
    requires IsRun(n, states, steps) && i < |states|
    ensures CallsOk(states[i])
  {
    hide Good, Enabled, Do, CallsOk;
    if i == 0 {
      BeginCallsOk(n);
    } else {
      RunsCalls(n, states, steps, i - 1);
      RunsAreGood(n, states, steps, i - 1);
      assert Leads(states[i - 1], steps[i - 1], states[i]);
      StepCalls(states[i - 1], steps[i - 1]);
    }
  }

  lemma BeginCallsOk(n: nat)
    ensures CallsOk(Begin(n))
  {
  }

  // ---- which timeouts ran ------------------------------------------------------

  /** The step runs a timeout of the call fiber `f` is inside, the one with this
      timer_info. */
  predicate TimesOut(p: World, s: Step, f: nat, n: nat) {
    && s.RunTodo? && s.w < |p.workers| && p.workers[s.w].phase.Running?
    && var todo := p.workers[s.w].phase.todo;
       todo.Some? && todo.value.Timeout? && todo.value.info == n && InCall(p, f, n)
  }

  /** No call times out, and none of those there were gets another fiber. */
  ghost predicate Quietly(p: World, q: World) {
    && |p.infos| <= |q.infos|
    && (forall n :: 0 <= n < |q.infos| ==> q.infos[n].cancelled == (n < |p.infos| && p.infos[n].cancelled))
    && (forall f: nat, n: nat :: InCall(q, f, n) && n < |p.infos| ==> InCall(p, f, n))
  }

  lemma SameQuietly(p: World, q: World)
    requires SameCalls(p, q)
    ensures Quietly(p, q)
  {
  }

  lemma HandedQuietly(p: World, r: Result)
    ensures Handed(p, r).Next? ==> Quietly(p, Handed(p, r).p)
  {
    hide PushedAll, Quietly;
    if r.Done? {
      PushesSame(p.(io := r.io), r.tasks);
      SameQuietly(p, Handed(p, r).p);
    }
  }

  lemma {:induction false} PushesSame(p: World, tasks: seq<Task>)
    ensures SameCalls(p, PushedAll(p, tasks)) && |PushedAll(p, tasks).fibs| == |p.fibs|
    decreases |tasks|
  {
    if tasks != [] {
      PushesSame(Pushed(p, tasks[0], None), tasks[1..]);
    }
  }

  lemma EndQuietly(p: World, info: nat, f: nat, s: Stage)
    requires f < |p.fibs| && s == Free
    ensures Quietly(p, SetStage(Dropped(p, info), f, s))
  {
  }

  lemma AgainQuietly(p: World, q: World, f: nat, s: Stage)
    requires f < |p.fibs| && CallOf(s).Some? && InCall(p, f, CallOf(s).value.info)
    requires q.infos == p.infos && q.fibs == p.fibs
    ensures Quietly(p, SetStage(q, f, s))
  {
  }

  lemma RegisterQuietly(p: World, w: nat, accept: bool)
    requires Acts(p, w) && StageOf(p, w).IoReady? && |p.io.ctxs| >= 32
    ensures DoRegister(p, w, accept).Next? ==> Quietly(p, DoRegister(p, w, accept).p)
  {
    hide AddEvent, SetStage, Quietly;
    var f := p.workers[w].phase.f;
    var s := StageOf(p, w);
    match AddEvent(p.io, s.fd, s.ev, RunFiber(f), p.sched.states[f] == EXEC, accept)
    case Aborted =>
    case Done(io, ok, _) =>
      if ok {
        SameQuietly(p, DoRegister(p, w, accept).p);
      } else {
        EndQuietly(Stopped(p.(io := io), s.timer), s.info, f, Free);
        QuietlyFrom(p, Stopped(p.(io := io), s.timer), DoRegister(p, w, accept).p);
      }
  }

  lemma QuietlyFrom(p: World, p1: World, q: World)
    requires p1.infos == p.infos && p1.fibs == p.fibs && Quietly(p1, q)
    ensures Quietly(p, q)
  {
  }

  lemma IoQuietly(p: World, s: Step)
    requires |p.io.ctxs| >= 32 && IsIoStep(s) && IoEnabled(p, s) && InfosOk(p)
    ensures DoIo(p, s).Next? ==> Quietly(p, DoIo(p, s).p)
  {
    hide SetStage, DoRegister, Quietly, InfosOk;
    match s
    case IoBegin(w, fd, ev) => BeginQuietly(p, p.workers[w].phase.f, fd, ev);
    case IoTimer(w) =>
      var g := StageOf(p, w);
      AgainQuietly(p, p.(timers := p.timers + [Clock(Some(Timeout(g.info, g.fd, g.ev)), false)]),
                   p.workers[w].phase.f, IoReady(g.fd, g.ev, g.info, Some(|p.timers|)));
    case IoRegister(w, accept) => RegisterQuietly(p, w, accept);
    case IoResume(w) =>
      var g := StageOf(p, w);
      var p1 := Stopped(p, g.timer);
      AgainQuietly(p, p1, p.workers[w].phase.f, IoReady(g.fd, g.ev, g.info, None));
      EndQuietly(p1, g.info, p.workers[w].phase.f, Free);
      QuietlyFrom(p, p1, SetStage(Dropped(p1, g.info), p.workers[w].phase.f, Free));
    case IoDone(w) => EndQuietly(p, StageOf(p, w).info, p.workers[w].phase.f, Free);
    case Sleep(w) => SameQuietly(p, DoSleep(p, w));
    case SleepResume(w) => SleepResumeQuietly(p, p.workers[w].phase.f);
  }

  lemma SleepResumeQuietly(p: World, f: nat)
    requires f < |p.fibs| && CallOf(p.fibs[f].stage).None?
    ensures Quietly(p, SetStage(p, f, Free))
  {
  }

  lemma BeginQuietly(p: World, f: nat, fd: nat, ev: Event)
    requires f < |p.fibs|
    ensures Quietly(p, SetStage(p.(infos := p.infos + [Info(true, false)]), f, IoReady(fd, ev, |p.infos|, None)))
  {
  }

  lemma IdleQuietly(p: World, s: Step)
    requires |p.io.ctxs| >= 32 && IsIdleStep(s) && IdleEnabled(p, s)
    ensures DoIdle(p, s).Next? ==> Quietly(p, DoIdle(p, s).p)
  {
    hide Quietly, Quiet, TakeIndex, Handed, Dispatch;
    match s
    case Poll(_, fd, reported, accept) => HandedQuietly(p, Dispatch(p.io, fd, reported, accept));
    case Expire(_, t) => SameQuietly(p, DoExpire(p, t));
    case GoIdle(w) =>
      if p.workers[w].idle != EXEC {
        SameQuietly(p, p.(workers := p.workers[w := Worker(Idling, p.workers[w].cached, EXEC)]));
      }
    case Wakeup(w) => SameQuietly(p, DoLeaveIdle(p, w, HOLD));
    case IdleStop(w) => SameQuietly(p, DoLeaveIdle(p, w, TERM));
    case Exit(w) => SameQuietly(p, SetPhase(p, w, Exited));
  }

  lemma EventQuietly(p: World, s: Step)
    requires |p.io.ctxs| >= 32 && IsEventStep(s) && EventEnabled(p, s)
    ensures DoEvent(p, s).Next? ==> Quietly(p, DoEvent(p, s).p)
  {
    hide Quietly, Handed, AddEvent, DelEvent, CancelEvent, CancelAll, Waiting;
    match s
    case AddCb(_, fd, ev, n, accept) => HandedQuietly(p, AddEvent(p.io, fd, ev, RunCb(User(n)), true, accept));
    case Del(_, fd, ev, accept) =>
      if DoDel(p, fd, ev, accept).Next? {
        SameQuietly(p, DoDel(p, fd, ev, accept).p);
      }
    case Cancel(_, fd, ev, accept) => HandedQuietly(p, CancelEvent(p.io, fd, ev, accept));
    case CancelEvery(_, fd, accept) => HandedQuietly(p, CancelAll(p.io, fd, accept));
  }

  lemma LeftSame(p: World, w: nat, t: State)
    requires Acts(p, w)
    ensures Left(p, w, t).fibs == p.fibs && Left(p, w, t).infos == p.infos
  {
    hide Leave;
  }

  lemma LeftQuietly(p: World, w: nat, t: State)
    requires Acts(p, w)
    ensures Quietly(p, Left(p, w, t)) && Quietly(p, DoYieldHold(p, w)) && Quietly(p, DoYieldReady(p, w))
  {
    hide Quietly, Left;
    LeftSame(p, w, t);
    LeftSame(p, w, HOLD);
    LeftSame(p, w, READY);
    SameQuietly(p, Left(p, w, t));
    SameQuietly(p, DoYieldHold(p, w));
    SameQuietly(p, DoYieldReady(p, w));
  }

  lemma StartQuietly(p: World, w: nat)
    requires w < |p.workers| && p.workers[w].phase.Taken? && |p.fibs| == |p.sched.states|
    ensures DoStart(p, w).Next? ==> Quietly(p, DoStart(p, w).p)
  {
    hide Quietly;
    if DoStart(p, w).Next? {
      SameQuietly(p, DoStart(p, w).p);
    }
  }

  /** A call times out exactly when its timeout runs while it goes on. */
  ghost predicate Marks(p: World, s: Step, q: World) {
    && |p.infos| <= |q.infos|
    && (forall n: nat :: n < |q.infos| ==>
          (q.infos[n].cancelled <==> (n < |p.infos| && p.infos[n].cancelled) || exists f: nat :: TimesOut(p, s, f, n)))
    && (forall f: nat, n: nat :: InCall(q, f, n) && n < |p.infos| ==> InCall(p, f, n))
  }

  lemma QuietlyMarks(p: World, s: Step, q: World)
    requires Quietly(p, q)
    requires s.RunTodo? ==>
               && s.w < |p.workers| && p.workers[s.w].phase.Running? && p.workers[s.w].phase.todo.Some?
               && !p.workers[s.w].phase.todo.value.Timeout?
    ensures Marks(p, s, q)
  {
  }

  lemma TodoMarks(p: World, w: nat, accept: bool)
    requires CallsOk(p) && Runs(p, w) && p.workers[w].phase.todo.Some?
    ensures DoTodo(p, w, accept).Next? ==> Marks(p, RunTodo(w, accept), DoTodo(p, w, accept).p)
  {
    hide Handed, CancelEvent, Underway, Pushed, TimersApart, TimeoutKept;
    var p1 := SetPhase(p, w, p.workers[w].phase.(todo := None));
    match p.workers[w].phase.todo.value
    case User(_) => SameQuietly(p, p1);
    case Wake(f) => WakeQuietly(p, p1, f);
    case Timeout(i, fd, ev) =>
      TimeoutRunCalls(p, w);
      assert p.infos[i].alive <==> exists f: nat :: TimesOut(p, RunTodo(w, accept), f, i) by {
        if p.infos[i].alive {
          var f: nat :| InCall(p, f, i);
          assert TimesOut(p, RunTodo(w, accept), f, i);
        }
      }
      if p.infos[i].alive && !p.infos[i].cancelled {
        HandedQuietly(p1.(infos := p.infos[i := Info(true, true)]), CancelEvent(p.io, fd, ev, accept));
      }
  }

  lemma WakeQuietly(p: World, p1: World, f: nat)
    requires p1.infos == p.infos && p1.fibs == p.fibs
    ensures Quietly(p, Pushed(p1, RunFiber(f), None))
  {
    hide Quietly;
    SameQuietly(p, Pushed(p1, RunFiber(f), None));
  }

  lemma WorkQuietly(p: World, s: Step)
    requires |p.io.ctxs| >= 32 && !IsIoStep(s) && !IsIdleStep(s) && !IsEventStep(s) && WorkEnabled(p, s) && !s.RunTodo?
    ensures DoWork(p, s).Next? ==> Quietly(p, DoWork(p, s).p)
  {
    hide Quietly, TakeIndex, DoStart, DoYieldReady, DoYieldHold, Left;
    match s
    case Take(w) => SameQuietly(p, DoTake(p, w));
    case Start(w) => StartQuietly(p, w);
    case YieldReady(w) => LeftQuietly(p, w, READY);
    case YieldHold(w) => LeftQuietly(p, w, HOLD);
    case Finish(w, thrown) => LeftQuietly(p, w, if thrown then EXCEPT else TERM);
    case Spawn(_, pin) => SameQuietly(p, DoSpawn(p, pin));
    case Submit(_, n, pin) => SameQuietly(p, Pushed(p, RunCb(User(n)), pin));
    case AddTimer(_, n, recurring) => SameQuietly(p, p.(timers := p.timers + [Clock(Some(User(n)), recurring)]));
    case DropTimer(_, t) => SameQuietly(p, Stopped(p, Some(t)));
    case Stop => SameQuietly(p, p.(autostop := true, stopping := true));
  }

  lemma StepMarks(p: World, s: Step)
    requires CallsOk(p) && |p.io.ctxs| >= 32 && Enabled(p, s)
    ensures Do(p, s).Next? ==> Marks(p, s, Do(p, s).p)
  {
    hide Marks, Quietly, InfosOk, TimeoutsOk, TimersApart, TimeoutKept, IoEnabled, IdleEnabled, EventEnabled, DoIo,
      DoIdle, DoEvent, DoTodo, DoStart, DoTake, Left, DoYieldReady, DoYieldHold, DoSpawn, Pushed, TakeIndex;
    if IsIoStep(s) {
      IoQuietly(p, s);
    } else if IsIdleStep(s) {
      IdleQuietly(p, s);
    } else if IsEventStep(s) {
      EventQuietly(p, s);
    } else if s.RunTodo? {
      TodoMarks(p, s.w, s.accept);
    } else {
      WorkQuietly(p, s);
    }
    if Do(p, s).Next? && !s.RunTodo? {
      QuietlyMarks(p, s, Do(p, s).p);
    }
  }

  // ---- over every run ------------------------------------------------------------

  /** A timeout of fiber `f`'s call with this timer_info ran before state `i`. */
  ghost predicate TimedOut(states: seq<World>, steps: seq<Step>, i: nat, f: nat, n: nat)
    requires i <= |steps| < |states|
  {
    exists k :: 0 <= k < i && TimesOut(states[k], steps[k], f, n)
  }

  lemma StepLeads(n: nat, states: seq<World>, steps: seq<Step>, k: nat)
    requires IsRun(n, states, steps) && k < |steps|
    ensures Leads(states[k], steps[k], states[k + 1])
  {
  }

  lemma RunMarks(n: nat, states: seq<World>, steps: seq<Step>, k: nat)
    requires IsRun(n, states, steps) && k < |steps|
    ensures Marks(states[k], steps[k], states[k + 1])
  {
    hide Leads, CallsOk, Marks, Enabled, Do;
    StepLeads(n, states, steps, k);
    RunsCalls(n, states, steps, k);
    StepMarks(states[k], steps[k]);
  }

  /** A call is one fiber's from its beginning. */
  lemma {:induction false} SameCaller(n: nat, states: seq<World>, steps: seq<Step>, k: nat, i: nat, f: nat, info: nat)
    requires IsRun(n, states, steps) && k <= i < |states| && InCall(states[i], f, info) && info < |states[k].infos|
    ensures InCall(states[k], f, info)
    decreases i
  {
    hide Leads, InCall;
    if k < i {
      RunMarks(n, states, steps, i - 1);
      InfosGrow(n, states, steps, k, i - 1);
      SameCaller(n, states, steps, k, i - 1, f, info);
    }
  }

  lemma {:induction false} InfosGrow(n: nat, states: seq<World>, steps: seq<Step>, k: nat, i: nat)
    requires IsRun(n, states, steps) && k <= i < |states|
    ensures |states[k].infos| <= |states[i].infos|
    decreases i
  {
    hide Leads;
    if k < i {
      RunMarks(n, states, steps, i - 1);
      InfosGrow(n, states, steps, k, i - 1);
    }
  }

  lemma {:induction false} CancelledIsHistory(n: nat, states: seq<World>, steps: seq<Step>, i: nat, info: nat)
    requires IsRun(n, states, steps) && i < |states| && info < |states[i].infos|
    ensures states[i].infos[info].cancelled <==> exists f: nat :: TimedOut(states, steps, i, f, info)
    decreases i
  {
    hide Leads, TimesOut;
    if i > 0 {
      var p, s := states[i - 1], steps[i - 1];
      RunMarks(n, states, steps, i - 1);
      forall f: nat ensures TimedOut(states, steps, i, f, info)
                            <==> TimedOut(states, steps, i - 1, f, info) || TimesOut(p, s, f, info) {
        OneMore(states, steps, i - 1, f, info);
      }
      if exists f: nat :: TimesOut(p, s, f, info) {
        var f: nat :| TimesOut(p, s, f, info);
        assert TimedOut(states, steps, i, f, info);
      }
      if info < |p.infos| {
        CancelledIsHistory(n, states, steps, i - 1, info);
        if p.infos[info].cancelled {
          var f: nat :| TimedOut(states, steps, i - 1, f, info);
          assert TimedOut(states, steps, i, f, info);
        }
      } else {
        NotBefore(n, states, steps, i - 1, info);
      }
    }
  }

  lemma OneMore(states: seq<World>, steps: seq<Step>, i: nat, f: nat, info: nat)
    requires i < |steps| < |states|
    ensures TimedOut(states, steps, i + 1, f, info)
            <==> TimedOut(states, steps, i, f, info) || TimesOut(states[i], steps[i], f, info)
  {
    hide TimesOut;
  }

  /** No timeout of a call runs before the call begins. */
  lemma NotBefore(n: nat, states: seq<World>, steps: seq<Step>, i: nat, info: nat)
    requires IsRun(n, states, steps) && i < |steps| && info >= |states[i].infos|
    ensures forall f: nat :: !TimedOut(states, steps, i, f, info)
  {
    hide Leads, Underway, TimeoutKept, TimersApart, TimeoutsOk;
    forall f: nat, k | 0 <= k < i ensures !TimesOut(states[k], steps[k], f, info) {
      RunsCalls(n, states, steps, k);
      InfosGrow(n, states, steps, k, i);
    }
  }

  /** What do_io does after a wake-up: in every run, it gives up exactly if a
      timeout of this call has run since the call began, and otherwise tries again
      for the same descriptor and direction, with the same timer_info and no
      timer. */
  lemma GivesUpExactly(n: nat, states: seq<World>, steps: seq<Step>, i: nat)
    requires IsRun(n, states, steps) && i < |steps| && steps[i].IoResume?
    ensures Acts(states[i], steps[i].w)
    ensures var f := states[i].workers[steps[i].w].phase.f;
            var s := states[i].fibs[f].stage;
            && s.IoParked? && f < |states[i + 1].fibs|
            && states[i + 1].fibs[f].stage == if TimedOut(states, steps, i, f, s.info) then Free
                                              else IoReady(s.fd, s.ev, s.info, None)
  {
    hide Underway, TimeoutKept, TimersApart, TimeoutsOk;
    StepLeads(n, states, steps, i);
    RunsCalls(n, states, steps, i);
    var p := states[i];
    var f := p.workers[steps[i].w].phase.f;
    var info := p.fibs[f].stage.info;
    assert InCall(p, f, info);
    CancelledIsHistory(n, states, steps, i, info);
    forall g: nat | TimedOut(states, steps, i, g, info) ensures g == f {
      OneCaller(n, states, steps, i, f, g, info);
    }
  }

  /** No timeout is lost: in every run, as long as a call goes on, the timeout of
      its attempt waits in its timer, or is queued or with a worker, or has run. */
  lemma NoTimeoutIsLost(n: nat, states: seq<World>, steps: seq<Step>, i: nat, f: nat, t: nat)
    requires IsRun(n, states, steps) && i < |states| && HasTimer(states[i], f, t)
    ensures var c := CallOf(states[i].fibs[f].stage).value;
            var cb := Timeout(c.info, c.fd, c.ev);
            || (t < |states[i].timers| && states[i].timers[t].cb == Some(cb))
            || Underway(states[i], cb)
            || TimedOut(states, steps, i, f, c.info)
  {
    hide Leads, Underway, TimeoutsOk;
    RunsCalls(n, states, steps, i);
    var c := CallOf(states[i].fibs[f].stage).value;
    assert TimeoutKept(states[i], c) && InCall(states[i], f, c.info);
    CancelledIsHistory(n, states, steps, i, c.info);
    forall g: nat | TimedOut(states, steps, i, g, c.info) ensures g == f {
      OneCaller(n, states, steps, i, f, g, c.info);
    }
  }

  lemma OneCaller(n: nat, states: seq<World>, steps: seq<Step>, i: nat, f: nat, g: nat, info: nat)
    requires IsRun(n, states, steps) && i < |states|
    requires InCall(states[i], f, info) && TimedOut(states, steps, i, g, info)
    ensures f == g
  {
    hide Leads, Underway, TimeoutKept, TimersApart, TimeoutsOk;
    var k :| 0 <= k < i && TimesOut(states[k], steps[k], g, info);
    RunsCalls(n, states, steps, k);
    assert InCall(states[k], g, info);
    SameCaller(n, states, steps, k, i, f, info);
  }

  // ---- what a timeout does ---------------------------------------------------------

  lemma CancelledOne(p: World, fd: nat, ev: Event, accept: bool)
    requires Good(p)
    ensures var r := Handed(p, CancelEvent(p.io, fd, ev, accept));
            var who := Waiting(p.io, fd, ev);
            && r.Next? && r.p.infos == p.infos && r.p.workers == p.workers && r.p.timers == p.timers
            && (accept && who.Some? ==>
                  && Waiting(r.p.io, fd, ev) == None
                  && r.p.sched == Push(p.sched, Entry(who.value, None)))
            && (!accept || who.None? ==> r.p == p.(io := r.p.io) && forall i: nat, e ::
                                         Waiting(r.p.io, i, e) == Waiting(p.io, i, e))
  {
    hide Core, IoSpec.Inv, Waiting, CancelEvent, Pushed, PushedAll, Moves;
    Sizes(p);
    CancelEventKeeps(p.io, fd, ev, accept);
    var r := CancelEvent(p.io, fd, ev, accept);
    var who := Waiting(p.io, fd, ev);
    MovedAt(p.io, r.io, fd, ev);
    if accept && who.Some? {
      OneWaiter(p.io, fd, ev);
      PushedTwo(p.(io := r.io), who, None);
      PushedRest(p.(io := r.io), who.value);
      assert r.tasks == IoSpec.Listed(who) + IoSpec.Listed(None);
    } else {
      PushedTwo(p.(io := r.io), None, None);
      assert r.tasks == IoSpec.Listed(None) + IoSpec.Listed(None);
    }
  }

  lemma MovedAt(io: Io, io': Io, fd: nat, ev: Event)
    ensures Moves(io, io', fd, {ev}, None) ==> Waiting(io', fd, ev) == None
    ensures Moves(io, io', fd, {}, None) ==> forall i: nat, e :: Waiting(io', i, e) == Waiting(io, i, e)
  {
    hide Waiting;
  }

  lemma PushedRest(p: World, t: Task)
    ensures var q := Pushed(p, t, None);
            && q.io == p.io && q.infos == p.infos && q.workers == p.workers && q.timers == p.timers
            && q.sched == Push(p.sched, Entry(t, None))
  {
  }

  lemma OneWaiter(io: Io, fd: nat, ev: Event)
    ensures Waiters(io, fd, {ev}) == IoSpec.Listed(Waiting(io, fd, ev))
  {
    hide Waiting;
    assert ev == READ || ev == WRITE;
  }

  /** The first timeout of a call that goes on cancels the call's own event: a
      fiber that waits there is queued and will give up. When nothing waits there,
      the timeout leaves the list and the slots alone. */
  lemma TimeoutWakes(p: World, w: nat, f: nat, accept: bool)
    requires Good(p) && CallsOk(p) && |p.io.ctxs| >= 32 && Enabled(p, RunTodo(w, accept))
    requires var todo := p.workers[w].phase.todo;
             todo.value.Timeout? && InCall(p, f, todo.value.info)
             && (todo.value.info < |p.infos| ==> !p.infos[todo.value.info].cancelled)
    ensures var c := CallOf(p.fibs[f].stage).value;
            var r := Do(p, RunTodo(w, accept));
            && r.Next? && c.info < |r.p.infos| && r.p.infos[c.info].cancelled
            && (accept && Waiting(p.io, c.fd, c.ev) == Some(RunFiber(f)) ==>
                  && Waiting(r.p.io, c.fd, c.ev) == None
                  && r.p.sched == Push(p.sched, Entry(RunFiber(f), None)))
            && (Waiting(p.io, c.fd, c.ev) == None ==>
                  && r.p.sched == p.sched && r.p.fibs == p.fibs
                  && r.p.workers == p.workers[w := p.workers[w].(phase := p.workers[w].phase.(todo := None))]
                  && forall i: nat, e :: Waiting(r.p.io, i, e) == Waiting(p.io, i, e))
  {
    hide Core, IoSpec.Inv, Waiting, Handed, CancelEvent, TimersApart, TimeoutKept;
    var cb := p.workers[w].phase.todo.value;
    TimeoutRunCalls(p, w);
    assert Underway(p, cb) && Genuine(p, cb) by {
      assert Carries(p.workers[w].phase, cb);
    }
    TodoGood(p, w);
    var p1 := SetPhase(p, w, p.workers[w].phase.(todo := None));
    var p2 := p1.(infos := p.infos[cb.info := Info(true, true)]);
    InfosAreFree(p1, p2.infos);
    CancelledOne(p2, cb.fd, cb.ev, accept);
  }

  /** A timeout of a call that has timed out before does nothing. */
  lemma SpentTimeout(p: World, w: nat, accept: bool)
    requires |p.io.ctxs| >= 32 && Enabled(p, RunTodo(w, accept)) && p.workers[w].phase.todo.value.Timeout?
    requires var n := p.workers[w].phase.todo.value.info; n < |p.infos| && p.infos[n].cancelled
    ensures var r := Do(p, RunTodo(w, accept));
            r.Next? && r.p.io == p.io && r.p.sched == p.sched && r.p.fibs == p.fibs && r.p.infos == p.infos
  {
  }

  /** So a timeout that runs before its call has registered is lost on it: the
      fiber then waits, its call has timed out, and every timeout still to come
      is spent. */
  lemma EarlyTimeout(p: World, v: nat, w: nat, accept: bool)
    requires Good(p) && CallsOk(p) && |p.io.ctxs| >= 32 && Acts(p, w) && StageOf(p, w).IoReady?
    requires Enabled(p, RunTodo(v, accept)) && p.workers[v].phase.todo.value.Timeout?
    requires var s := StageOf(p, w);
             p.workers[v].phase.todo.value.info == s.info && Waiting(p.io, s.fd, s.ev) == None
             && (s.info < |p.infos| ==> !p.infos[s.info].cancelled)
    ensures exists q, r ::
              && Leads(p, RunTodo(v, accept), q) && Leads(q, IoRegister(w, true), r)
              && var f, s := p.workers[w].phase.f, StageOf(p, w);
                 && Waiting(r.io, s.fd, s.ev) == Some(RunFiber(f)) && f < |r.fibs| && r.fibs[f].stage.IoParked?
                 && r.fibs[f].stage.info == s.info
                 && s.info < |r.infos| && r.infos[s.info].cancelled
  {
    hide Core, IoSpec.Inv, Waiting, CancelEvent, Handed, TimersApart, TimeoutKept, Underway, AddEvent;
    var f := p.workers[w].phase.f;
    assert InCall(p, f, StageOf(p, w).info);
    TimeoutWakes(p, v, f, accept);
    var q := Do(p, RunTodo(v, accept)).p;
    StepKeeps(p, RunTodo(v, accept));
    Sizes(q);
    WorkerFacts(q, w);
    RegisterKeeps(q, w, true);
    var s := StageOf(p, w);
    AddEventKeeps(q.io, s.fd, s.ev, RunFiber(f), true, true);
    var r := DoRegister(q, w, true).p;
    assert Leads(p, RunTodo(v, accept), q) && Leads(q, IoRegister(w, true), r);
  }

  // ---- such a timeout happens -----------------------------------------------------

  /** Two threads of run and one fiber in do_io, while no event is registered. */
  function Scene(queue: seq<Entry>, states: seq<State>, active: int, fibs: seq<Fib>, timers: seq<Clock>,
                 infos: seq<Info>, v: Phase, w: Worker): World {
    World(Sched(queue, states, active), fibs, IoSpec.Start(), timers, infos, [Worker(v, None, INIT), w], false, false)
  }

  /** What a run goes through in which the timeout of a call runs on the second
      thread while the first one has not come to addEvent. */
  function Scenes(k: nat, fd: nat, ev: Event): World {
    var entry, cb := Entry(RunFiber(0), None), Timeout(0, fd, ev);
    var b, r := Fib(Free, Nowhere, 0, 1, 1), Running(0, false, None);
    var bare, timed := b.(stage := IoReady(fd, ev, 0, None)), b.(stage := IoReady(fd, ev, 0, Some(0)));
    var on, off, live := Clock(Some(cb), false), Clock(None, false), Info(true, false);
    var idle0, idle, back := Worker(Looping, None, INIT), Worker(Idling, None, EXEC), Worker(Looping, None, HOLD);
    match k
    case 0 => Scene([], [], 0, [], [], [], Looping, idle0)
    case 1 => Scene([entry], [INIT], 0, [b.(loc := InQueue)], [], [], Looping, idle0)
    case 2 => Scene([], [INIT], 1, [b.(loc := InHand(0))], [], [], Taken(RunFiber(0)), idle0)
    case 3 => Scene([], [EXEC], 1, [b], [], [], r, idle0)
    case 4 => Scene([], [EXEC], 1, [bare], [], [live], r, idle0)
    case 5 => Scene([], [EXEC], 1, [timed], [on], [live], r, idle0)
    case 6 => Scene([], [EXEC], 1, [timed], [on], [live], r, idle)
    case 7 => Scene([Entry(RunCb(cb), None)], [EXEC], 1, [timed], [off], [live], r, idle)
    case 8 => Scene([Entry(RunCb(cb), None)], [EXEC], 1, [timed], [off], [live], r, back)
    case 9 => Scene([], [EXEC], 2, [timed], [off], [live], r, back.(phase := Taken(RunCb(cb))))
    case _ => Scene([], [EXEC, EXEC], 2, [timed, Fib(Free, Nowhere, 1, 0, 0)], [off], [live], r,
                    back.(phase := Running(1, true, Some(cb))))
  }

  lemma SceneStarts(fd: nat, ev: Event)
    ensures Scenes(0, fd, ev) == Begin(2)
    ensures Leads(Scenes(0, fd, ev), Spawn(None, None), Scenes(1, fd, ev))
  {
  }

  lemma SceneTakes(fd: nat, ev: Event)
    ensures Leads(Scenes(1, fd, ev), Take(0), Scenes(2, fd, ev))
  {
    var p := Scenes(1, fd, ev);
    TakeIndexIs(p.sched.queue, p.sched.states, 0, 0);
    assert Without(p.sched.queue, 0) == [];
  }

  lemma SceneRuns(fd: nat, ev: Event)
    ensures Leads(Scenes(2, fd, ev), Start(0), Scenes(3, fd, ev))
    ensures Leads(Scenes(3, fd, ev), IoBegin(0, fd, ev), Scenes(4, fd, ev))
  {
  }

  lemma SceneTimes(fd: nat, ev: Event)
    ensures Leads(Scenes(4, fd, ev), IoTimer(0), Scenes(5, fd, ev))
    ensures Leads(Scenes(5, fd, ev), GoIdle(1), Scenes(6, fd, ev))
  {
  }

  lemma SceneExpires(fd: nat, ev: Event)
    ensures Leads(Scenes(6, fd, ev), Expire(1, 0), Scenes(7, fd, ev))
    ensures Leads(Scenes(7, fd, ev), Wakeup(1), Scenes(8, fd, ev))
  {
  }

  lemma SceneTakesTimeout(fd: nat, ev: Event)
    ensures Leads(Scenes(8, fd, ev), Take(1), Scenes(9, fd, ev))
  {
    var p := Scenes(8, fd, ev);
    TakeIndexIs(p.sched.queue, p.sched.states, 1, 0);
    assert Without(p.sched.queue, 0) == [];
  }

  lemma SceneStartsTimeout(fd: nat, ev: Event)
    ensures Leads(Scenes(9, fd, ev), Start(1), Scenes(10, fd, ev))
  {
  }

  lemma SceneReached(fd: nat, ev: Event)
    ensures Sharing.Reachable(2, Scenes(10, fd, ev))
  {
    hide Leads, Scenes;
    SceneStarts(fd, ev);
    assert IsRun(2, [Begin(2)], []);
    Sharing.ReachedNext(2, Scenes(0, fd, ev), Spawn(None, None), Scenes(1, fd, ev));
    SceneTakes(fd, ev);
    Sharing.ReachedNext(2, Scenes(1, fd, ev), Take(0), Scenes(2, fd, ev));
    SceneRuns(fd, ev);
    Sharing.ReachedNext(2, Scenes(2, fd, ev), Start(0), Scenes(3, fd, ev));
    Sharing.ReachedNext(2, Scenes(3, fd, ev), IoBegin(0, fd, ev), Scenes(4, fd, ev));
    SceneTimes(fd, ev);
    Sharing.ReachedNext(2, Scenes(4, fd, ev), IoTimer(0), Scenes(5, fd, ev));
    Sharing.ReachedNext(2, Scenes(5, fd, ev), GoIdle(1), Scenes(6, fd, ev));
    SceneExpires(fd, ev);
    Sharing.ReachedNext(2, Scenes(6, fd, ev), Expire(1, 0), Scenes(7, fd, ev));
    Sharing.ReachedNext(2, Scenes(7, fd, ev), Wakeup(1), Scenes(8, fd, ev));
    SceneTakesTimeout(fd, ev);
    Sharing.ReachedNext(2, Scenes(8, fd, ev), Take(1), Scenes(9, fd, ev));
    SceneStartsTimeout(fd, ev);
    Sharing.ReachedNext(2, Scenes(9, fd, ev), Start(1), Scenes(10, fd, ev));
  }

  lemma ReachedCalls(n: nat, p: World)
    requires Sharing.Reachable(n, p)
    ensures Good(p) && |p.io.ctxs| >= 32 && CallsOk(p)
  {
    hide Good, Leads, CallsOk;
    var states, steps :| IsRun(n, states, steps) && states[|steps|] == p;
    RunsAreGood(n, states, steps, |steps|);
    RunsCalls(n, states, steps, |steps|);
  }

  lemma SceneIs(fd: nat, ev: Event)
    ensures var p := Scenes(10, fd, ev);
            && Acts(p, 0) && StageOf(p, 0) == IoReady(fd, ev, 0, Some(0)) && p.workers[0].phase.f == 0
            && Enabled(p, RunTodo(1, true)) && p.workers[1].phase.todo == Some(Timeout(0, fd, ev))
            && Waiting(p.io, fd, ev) == None && |p.infos| == 1 && !p.infos[0].cancelled
  {
  }

  /** A run gets there, for every descriptor and direction: the fiber waits, its
      call has timed out, and the timer has gone. */
  lemma EarlyTimeoutHappens(fd: nat, ev: Event)
    ensures exists r :: && Sharing.Reachable(2, r) && Waiting(r.io, fd, ev) == Some(RunFiber(0))
                        && InCall(r, 0, 0) && |r.infos| > 0 && r.infos[0].cancelled
  {
    hide Leads, Scenes, Good, CallsOk, Enabled, Waiting;
    var p := Scenes(10, fd, ev);
    SceneReached(fd, ev);
    ReachedCalls(2, p);
    SceneIs(fd, ev);
    EarlyTimeout(p, 1, 0, true);
    var q, r :| && Leads(p, RunTodo(1, true), q) && Leads(q, IoRegister(0, true), r)
                && Waiting(r.io, fd, ev) == Some(RunFiber(0)) && 0 < |r.fibs| && r.fibs[0].stage.IoParked?
                && r.fibs[0].stage.info == 0 && 0 < |r.infos| && r.infos[0].cancelled;
    Sharing.ReachedNext(2, p, RunTodo(1, true), q);
    Sharing.ReachedNext(2, q, IoRegister(0, true), r);
  }
}
