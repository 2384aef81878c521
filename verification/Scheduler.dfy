/** Scheduler and Fiber as they are: a list that is scanned and cut, fibers
    whose state is set in place, and the count of active threads. */
module Schedulers {
  import opened Options
  import opened IoSpec
  import opened SchedSpec

  class Fiber {
    ghost const id: nat
    var state: State
    var cb: Option<Callback>

    constructor (ghost id: nat, cb: Option<Callback>)
      ensures this.id == id && this.state == INIT && this.cb == cb
    {
      this.id, this.state, this.cb := id, INIT, cb;
    }

    /** `ok` is false when the assertion on the state fails. */
    method Reset(cb: Option<Callback>) returns (ok: bool)
      modifies this
      ensures ok == (old(state) == TERM || old(state) == EXCEPT || old(state) == INIT)
      ensures if ok then state == INIT && this.cb == cb else state == old(state) && this.cb == old(this.cb)
    {
      if state != TERM && state != EXCEPT && state != INIT {
        return false;
      }
      this.cb := cb;
      state := INIT;
      return true;
    }

    method SwapIn() returns (ok: bool)
      modifies this`state
      ensures ok == (old(state) != EXEC) && state == EXEC
    {
      ok := state != EXEC;
      state := EXEC;
    }

    method YieldToReady()
      modifies this`state
      ensures state == READY
    {
      state := READY;
    }

    method YieldToHold()
      modifies this`state
      ensures state == HOLD
    {
      state := HOLD;
    }

    /** The end of MainFunc; an exception keeps the callback. */
    method End(thrown: bool)
      modifies this
      ensures state == (if thrown then EXCEPT else TERM) && cb == if thrown then old(cb) else None
    {
      if thrown {
        state := EXCEPT;
      } else {
        cb := None;
        state := TERM;
      }
    }
  }

  /** How a fiber swaps out. */
  datatype Exit = ToReady | ToHold | Ended(thrown: bool)

  function StateAfter(how: Exit): State {
    match how
    case ToReady => READY
    case ToHold => HOLD
    case Ended(thrown) => if thrown then EXCEPT else TERM
  }

  datatype FiberAndThread = FiberAndThread(fiber: Fiber?, cb: Option<Callback>, thread: Option<nat>)

  class Scheduler {
    var fibers: seq<FiberAndThread>
    var activeThreadCount: int
    ghost var all: seq<Fiber>     // every fiber created
    ghost var states: seq<State>  // their states
    ghost var queue: seq<Entry>   // the list by the fibers' numbers

    ghost predicate Matches(ft: FiberAndThread, e: Entry)
      reads this
    {
      && ft.thread == e.thread
      && match e.task
         case RunFiber(f) => f < |all| && ft.fiber == all[f] && ft.cb.None?
         case RunCb(cb) => ft.fiber == null && ft.cb == Some(cb)
    }

    ghost predicate Valid()
      reads this, all
    {
      && |states| == |all| && |queue| == |fibers|
      && (forall i :: 0 <= i < |all| ==> all[i].id == i && all[i].state == states[i])
      && (forall k :: 0 <= k < |queue| ==> Matches(fibers[k], queue[k]))
    }

    ghost function State(): Sched
      reads this
    {
      Sched(queue, states, activeThreadCount)
    }

    constructor ()
      ensures Valid() && State() == Sched([], [], 0)
    {
      fibers, activeThreadCount := [], 0;
      all, states, queue := [], [], [];
    }

    method NewFiber(cb: Option<Callback>) returns (f: Fiber)
      requires Valid()
      modifies this`all, this`states
      ensures Valid() && fresh(f) && f.cb == cb && all == old(all) + [f] && f.id == |old(all)|
      ensures State() == old(State()).(states := old(states) + [INIT])
    {
      f := new Fiber(|all|, cb);
      all, states := all + [f], states + [INIT];
    }

    /** scheduleNoLock for a fiber and for a callback; a null one is not
        appended. */
    method ScheduleFiber(f: Fiber?, thread: Option<nat>) returns (needTickle: bool)
      requires Valid() && (f != null ==> f.id < |all| && all[f.id] == f)
      modifies this`fibers, this`queue
      ensures Valid()
      ensures State() == if f == null then old(State()) else Push(old(State()), Entry(RunFiber(f.id), thread))
      ensures needTickle == (old(fibers) == [])
    {
      needTickle := fibers == [];
      var ft := FiberAndThread(f, None, thread);
      if ft.fiber != null || ft.cb.Some? {
        fibers := fibers + [ft];
        queue := queue + [Entry(RunFiber(f.id), thread)];
      }
    }

    method ScheduleCb(cb: Option<Callback>, thread: Option<nat>) returns (needTickle: bool)
      requires Valid()
      modifies this`fibers, this`queue
      ensures Valid()
      ensures State() == if cb.None? then old(State()) else Push(old(State()), Entry(RunCb(cb.value), thread))
      ensures needTickle == (old(fibers) == [])
    {
      needTickle := fibers == [];
      var ft := FiberAndThread(null, cb, thread);
      if ft.fiber != null || ft.cb.Some? {
        fibers := fibers + [ft];
        queue := queue + [Entry(RunCb(cb.value), thread)];
      }
    }

    /** schedule for a range: one lock, and the callbacks in order, the null ones
        left out. A tickle is needed exactly if the list was empty and the range
        was not, even if there is nothing but null callbacks in it. */
    method ScheduleEach(cbs: seq<Option<Callback>>) returns (needTickle: bool)
      requires Valid()
      modifies this`fibers, this`queue
      ensures Valid() && State() == PushEach(old(State()), cbs)
      ensures needTickle == (old(fibers) == [] && cbs != [])
    {
      needTickle := false;
      for k := 0 to |cbs|
        invariant Valid() && State() == PushEach(old(State()), cbs[..k])
        invariant old(fibers) <= fibers
        invariant needTickle == (old(fibers) == [] && k > 0)
      {
        assert cbs[..k + 1][..k] == cbs[..k];
        var need := ScheduleCb(cbs[k], None);
        needTickle := need || needTickle;
      }
      assert cbs[..|cbs|] == cbs;
    }

    /** What the scan asks of an entry. */
    lemma Asks(k: nat, tid: nat)
      requires Valid() && k < |queue|
      ensures Eligible(queue[k], states, tid) <==>
              && (fibers[k].thread == None || fibers[k].thread.value == tid)
              && !(fibers[k].fiber != null && fibers[k].fiber.state == EXEC)
    {
      assert Matches(fibers[k], queue[k]);
    }

    /** The scan of run: the earliest entry thread `tid` may take leaves the
        list. `tickleMe` tells of entries before it that are for others. */
    method TakeNext(tid: nat) returns (ft: Option<FiberAndThread>, tickleMe: bool)
      requires Valid()
      modifies this`fibers, this`queue, this`activeThreadCount
      ensures Valid() && State() == Take(old(State()), tid).0
      ensures match Take(old(State()), tid).1
              case None => ft == None
              case Some(e) => ft.Some? && Matches(ft.value, e)
      ensures tickleMe <==> Foreign(old(queue)[..TakeIndex(old(queue), states, tid)], tid)
    {
      hide TakeIndex, Eligible, Foreign;
      var it := 0;
      tickleMe := false;
      ForeignNone(tid);
      assert queue[..0] == [];
      while it < |fibers|
        invariant it <= |fibers| && Valid() && State() == old(State()) && fibers == old(fibers)
        invariant forall i :: 0 <= i < it ==> !Eligible(queue[i], states, tid)
        invariant tickleMe <==> Foreign(queue[..it], tid)
      {
        ForeignSnoc(queue, it, tid);
        Asks(it, tid);
        assert Matches(fibers[it], queue[it]);
        if fibers[it].thread != None && fibers[it].thread.value != tid {
          it := it + 1;
          tickleMe := true;
          continue;
        }
        if fibers[it].fiber != null && fibers[it].fiber.state == EXEC {
          it := it + 1;
          continue;
        }
        TakeIndexIs(queue, states, tid, it);
        ft := Some(fibers[it]);
        fibers := Without(fibers, it);
        queue := Without(queue, it);
        activeThreadCount := activeThreadCount + 1;
        return;
      }
      TakeIndexIs(queue, states, tid, it);
      ft := None;
    }

    /** swapIn for a fiber that was taken. */
    method Enter(f: Fiber) returns (ok: bool)
      requires Valid() && f.id < |all| && all[f.id] == f
      modifies this`states, f`state
      ensures Valid() && (if ok then SwapIn(old(State()), f.id) == Some(State()) else SwapIn(old(State()), f.id).None?)
    {
      ok := f.SwapIn();
      states := states[f.id := EXEC];
    }

    /** What run does when a taken fiber has swapped out. */
    method SettleFiber(f: Fiber)
      requires Valid() && f.id < |all| && all[f.id] == f
      modifies this`fibers, this`queue, this`states, this`activeThreadCount, f`state
      ensures Valid() && State() == AfterFiber(old(State()), f.id)
    {
      activeThreadCount := activeThreadCount - 1;
      if f.state == READY {
        var _ := ScheduleFiber(f, None);
      } else if f.state != TERM && f.state != EXCEPT {
        f.state := HOLD;
        states := states[f.id := HOLD];
      }
    }

    /** What it does when the fiber of a callback has: `keep` tells whether it
        stays the worker's spare. */
    method SettleCallback(f: Fiber) returns (keep: bool)
      requires Valid() && f.id < |all| && all[f.id] == f
      modifies this`fibers, this`queue, this`states, this`activeThreadCount, f
      ensures Valid() && (State(), keep) == AfterCallback(old(State()), f.id)
      ensures keep ==> f.cb == None
    {
      activeThreadCount := activeThreadCount - 1;
      if f.state == READY {
        var _ := ScheduleFiber(f, None);
        return false;
      }
      if f.state == EXCEPT || f.state == TERM {
        keep := f.Reset(None);
        states := states[f.id := INIT];
        return true;
      }
      f.state := HOLD;
      states := states[f.id := HOLD];
      return false;
    }

    /** A running fiber yields READY, yields on hold or ends, swaps out, and the
        worker does its bookkeeping; with the fiber of a callback it is told
        whether to keep it. */
    method SwapOut(f: Fiber, how: Exit, viaCb: bool) returns (keep: bool)
      requires Valid() && f.id < |all| && all[f.id] == f
      modifies this`fibers, this`queue, this`states, this`activeThreadCount, f
      ensures Valid() && (State(), keep) == Leave(old(State()), f.id, StateAfter(how), viaCb)
    {
      match how {
        case ToReady => f.YieldToReady();
        case ToHold => f.YieldToHold();
        case Ended(thrown) => f.End(thrown);
      }
      states := states[f.id := f.state];
      if viaCb {
        keep := SettleCallback(f);
      } else {
        SettleFiber(f);
        keep := false;
      }
    }

    /** What run does with a callback it took: it resets its spare fiber or makes
        a new one, and swaps in. None is a failed assertion. */
    method EnterCallbackFiber(spare: Fiber?, cb: Callback) returns (r: Option<Fiber>)
      requires Valid() && (spare != null ==> spare.id < |all| && all[spare.id] == spare)
      modifies this`all, this`states, spare
      ensures r == None <==> EnterCallback(old(State()), if spare == null then None else Some(spare.id)) == None
      ensures r.Some? ==>
                && Valid() && r.value.id < |all| && all[r.value.id] == r.value && r.value.cb == Some(cb)
                && EnterCallback(old(State()), if spare == null then None else Some(spare.id))
                   == Some((State(), r.value.id))
    {
      var f: Fiber;
      if spare != null {
        f := spare;
        var ok := f.Reset(Some(cb));
        if !ok {
          return None;
        }
        states := states[f.id := INIT];
      } else {
        f := NewFiber(Some(cb));
      }
      var ok := Enter(f);
      return if ok then Some(f) else None;
    }
  }

  lemma ForeignNone(tid: nat)
    ensures !Foreign([], tid)
  {
  }

  /** What the scan passed over is foreign if one of the entries is for another
      thread, and only then. */
  lemma ForeignIs(queue: seq<Entry>, k: nat, tid: nat)
    requires k <= |queue|
    ensures Foreign(queue[..k], tid) <==>
            exists i :: 0 <= i < k && queue[i].thread.Some? && queue[i].thread.value != tid
  {
    forall i | 0 <= i < k ensures queue[..k][i] == queue[i] {
    }
    if exists i :: 0 <= i < k && queue[i].thread.Some? && queue[i].thread.value != tid {
      var i :| 0 <= i < k && queue[i].thread.Some? && queue[i].thread.value != tid;
      assert queue[..k][i] == queue[i];
    }
  }

  lemma ForeignSnoc(queue: seq<Entry>, k: nat, tid: nat)
    requires k < |queue|
    ensures Foreign(queue[..k + 1], tid) <==>
            Foreign(queue[..k], tid) || (queue[k].thread.Some? && queue[k].thread.value != tid)
  {
    var a, b := queue[..k], queue[..k + 1];
    assert b == a + [queue[k]];
    if Foreign(a, tid) {
      var i :| 0 <= i < |a| && a[i].thread.Some? && a[i].thread.value != tid;
      assert b[i] == a[i];
    }
    assert b[k] == queue[k];
  }
}
