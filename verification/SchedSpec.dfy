/** The scheduler's list, the states of the fibers and the count of active
    threads, as values. Fibers are numbered in the order of their creation. */
module SchedSpec {
  import opened Options
  import opened IoSpec

  datatype State = INIT | HOLD | EXEC | TERM | READY | EXCEPT

  /** FiberAndThread: what to run, and the one thread that may, if pinned. */
  datatype Entry = Entry(task: Task, thread: Option<nat>)

  datatype Sched = Sched(queue: seq<Entry>, states: seq<State>, active: int)

  // ---- the list ----------------------------------------------------------

  function Push(s: Sched, e: Entry): Sched {
    s.(queue := s.queue + [e])
  }

  /** The range schedule of what expired timers hand out: null callbacks are left
      out. */
  function PushEach(s: Sched, cbs: seq<Option<Callback>>): Sched {
    if cbs == [] then s
    else
      var s1 := PushEach(s, cbs[..|cbs| - 1]);
      var cb := cbs[|cbs| - 1];
      if cb.None? then s1 else Push(s1, Entry(RunCb(cb.value), None))
  }

  /** It appends the callbacks there are, in order, and changes nothing else. */
  lemma {:induction false} PushEachAppends(s: Sched, cbs: seq<Option<Callback>>)
    ensures PushEach(s, cbs) == s.(queue := s.queue + Entries(cbs))
  {
    if cbs == [] {
      assert s.queue + [] == s.queue;
    } else {
      PushEachAppends(s, cbs[..|cbs| - 1]);
    }
  }

  function Entries(cbs: seq<Option<Callback>>): (r: seq<Entry>)
    ensures forall e <- r :: e.task.RunCb? && Some(e.task.cb) in cbs && e.thread.None?
    ensures forall cb <- cbs :: cb.Some? ==> Entry(RunCb(cb.value), None) in r
  {
    if cbs == [] then []
    else
      var r := Entries(cbs[..|cbs| - 1]);
      var cb := cbs[|cbs| - 1];
      assert forall c :: c in cbs <==> c in cbs[..|cbs| - 1] || c == cb;
      if cb.None? then r else r + [Entry(RunCb(cb.value), None)]
  }

  /** Whether thread `tid` may take the entry now. */
  predicate Eligible(e: Entry, states: seq<State>, tid: nat) {
    && (e.thread.None? || e.thread.value == tid)
    && !(e.task.RunFiber? && e.task.fiber < |states| && states[e.task.fiber] == EXEC)
  }

  /** The earliest entry thread `tid` may take; the length if there is none. */
  function TakeIndex(queue: seq<Entry>, states: seq<State>, tid: nat): (k: nat)
    ensures k <= |queue|
    ensures forall i :: 0 <= i < k ==> !Eligible(queue[i], states, tid)
    ensures k < |queue| ==> Eligible(queue[k], states, tid)
  {
    if queue == [] then 0
    else if Eligible(queue[0], states, tid) then 0
    else 1 + TakeIndex(queue[1..], states, tid)
  }

  function Without<T>(s: seq<T>, k: nat): (r: seq<T>)
    requires k < |s|
    ensures |r| == |s| - 1
    ensures forall i :: 0 <= i < |r| ==> r[i] == if i < k then s[i] else s[i + 1]
  {
    s[..k] + s[k + 1..]
  }

  function Take(s: Sched, tid: nat): (Sched, Option<Entry>) {
    var k := TakeIndex(s.queue, s.states, tid);
    if k == |s.queue| then (s, None)
    else (s.(queue := Without(s.queue, k), active := s.active + 1), Some(s.queue[k]))
  }

  /** Whether the scan sees an entry for another thread, which makes run
      tickle the others. */
  predicate Foreign(queue: seq<Entry>, tid: nat) {
    exists i :: 0 <= i < |queue| && queue[i].thread.Some? && queue[i].thread.value != tid
  }

  lemma TakeIndexIs(queue: seq<Entry>, states: seq<State>, tid: nat, k: nat)
    requires k <= |queue|
    requires forall i :: 0 <= i < k ==> !Eligible(queue[i], states, tid)
    requires k < |queue| ==> Eligible(queue[k], states, tid)
    ensures TakeIndex(queue, states, tid) == k
  {
    hide Eligible;
    var t := TakeIndex(queue, states, tid);
    if t < |queue| && k < |queue| {
      assert Eligible(queue[t], states, tid) && Eligible(queue[k], states, tid);
    }
  }

  /** The list is cut at `k`: nothing before may run on thread `tid` now, because
      it is for another thread or already running; what is there may. */
  ghost predicate CutAt(s: Sched, s': Sched, tid: nat, k: nat)
    requires k < |s.queue|
  {
    && (forall i :: 0 <= i < k ==>
          var e := s.queue[i];
          || (e.thread.Some? && e.thread.value != tid)
          || (e.task.RunFiber? && e.task.fiber < |s.states| && s.states[e.task.fiber] == EXEC))
    && (s.queue[k].thread == None || s.queue[k].thread == Some(tid))
    && (s.queue[k].task.RunFiber? ==>
          s.queue[k].task.fiber >= |s.states| || s.states[s.queue[k].task.fiber] != EXEC)
    && s'.queue == s.queue[..k] + s.queue[k + 1..]
  }

  /** Taking is first come, first served among what the thread may run: what
      is taken matches its pin and is not running, everything before it may
      not be taken, and the others keep their order. */
  lemma TakeIsEarliest(s: Sched, tid: nat)
    ensures var (s', e) := Take(s, tid);
            if e.None? then
              && s' == s
              && forall i :: 0 <= i < |s.queue| ==>
                   var e := s.queue[i];
                   || (e.thread.Some? && e.thread.value != tid)
                   || (e.task.RunFiber? && e.task.fiber < |s.states| && s.states[e.task.fiber] == EXEC)
            else
              && s'.active == s.active + 1 && s'.states == s.states
              && exists k :: 0 <= k < |s.queue| && e == Some(s.queue[k]) && CutAt(s, s', tid, k)
  {
    hide TakeIndex;
    var k := TakeIndex(s.queue, s.states, tid);
    var r := Take(s, tid);
    if k < |s.queue| {
      assert CutAt(s, r.0, tid, k);
    }
  }

  // ---- the states --------------------------------------------------------

  /** Fiber::swapIn; None is the failed assertion. */
  function SwapIn(s: Sched, f: nat): Option<Sched>
    requires f < |s.states|
  {
    if s.states[f] == EXEC then None else Some(s.(states := s.states[f := EXEC]))
  }

  predicate Settled(t: State) {
    t == TERM || t == EXCEPT || t == INIT
  }

  /** Fiber::reset. */
  function ResetFiber(s: Sched, f: nat): Option<Sched>
    requires f < |s.states|
  {
    if Settled(s.states[f]) then Some(s.(states := s.states[f := INIT])) else None
  }

  /** The worker's bookkeeping once the fiber it ran has swapped out. */
  function AfterFiber(s: Sched, f: nat): Sched
    requires f < |s.states|
  {
    var s1 := s.(active := s.active - 1);
    if s.states[f] == READY then Push(s1, Entry(RunFiber(f), None))
    else if s.states[f] == TERM || s.states[f] == EXCEPT then s1
    else s1.(states := s.states[f := HOLD])
  }

  /** The same for a callback's fiber, and whether the worker keeps it. */
  function AfterCallback(s: Sched, f: nat): (Sched, bool)
    requires f < |s.states|
  {
    var s1 := s.(active := s.active - 1);
    if s.states[f] == READY then (Push(s1, Entry(RunFiber(f), None)), false)
    else if s.states[f] == TERM || s.states[f] == EXCEPT then (s1.(states := s.states[f := INIT]), true)
    else (s1.(states := s.states[f := HOLD]), false)
  }

  /** A fiber sets its state to `t` and swaps out; the worker does its
      bookkeeping, for a callback's fiber if `viaCb`. The second result tells
      whether the worker keeps the fiber. */
  function Leave(s: Sched, f: nat, t: State, viaCb: bool): (Sched, bool)
    requires f < |s.states|
  {
    var s1 := s.(states := s.states[f := t]);
    if viaCb then AfterCallback(s1, f) else (AfterFiber(s1, f), false)
  }

  /** A worker swaps in the fiber of a callback: its spare one, reset, or a new
      one. None is a failed assertion. */
  function EnterCallback(s: Sched, spare: Option<nat>): Option<(Sched, nat)>
    requires spare.Some? ==> spare.value < |s.states|
  {
    var f := if spare.Some? then spare.value else |s.states|;
    match if spare.Some? then ResetFiber(s, f) else Some(s.(states := s.states + [INIT]))
    case None => None
    case Some(s1) =>
      match SwapIn(s1, f)
      case None => None
      case Some(s2) => Some((s2, f))
  }

  /** Scheduler::stopping. */
  predicate Stopping(s: Sched, autostop: bool, stopping: bool) {
    autostop && stopping && s.queue == [] && s.active == 0
  }
}
