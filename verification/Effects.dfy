/** What the steps do to the slots, the list and the timers. */
module Effects {
  import opened Options
  import opened IoSpec
  import opened SchedSpec
  import opened Protocol
  import opened Interleavings

  /** The waiters of these events of a descriptor leave for the list, the reader
      first, for any thread to take; nobody else is touched. */
  ghost predicate Woken(p: World, q: World, fd: nat, evs: set<Event>) {
    var reader := if READ in evs then Waiting(p.io, fd, READ) else None;
    var writer := if WRITE in evs then Waiting(p.io, fd, WRITE) else None;
    && (forall i: nat, e ::
          Waiting(q.io, i, e) == if i == fd && e in evs then None else Waiting(p.io, i, e))
    && q.sched.queue == p.sched.queue + (if reader.Some? then [Entry(reader.value, None)] else [])
                        + (if writer.Some? then [Entry(writer.value, None)] else [])
    && q.sched.states == p.sched.states && q.timers == p.timers
  }

  lemma PushedIs(p: World, t: Option<Task>)
    ensures var q := if t.Some? then Pushed(p, t.value, None) else p;
            && q.io == p.io && q.timers == p.timers && q.sched.states == p.sched.states
            && q.sched.queue == p.sched.queue + if t.Some? then [Entry(t.value, None)] else []
  {
  }

  lemma HandedWakes(p: World, r: Result, fd: nat, evs: set<Event>)
    requires r.Done? && Moves(p.io, r.io, fd, evs, None) && r.tasks == Waiters(p.io, fd, evs)
    ensures Handed(p, r).Next? && Woken(p, Handed(p, r).p, fd, evs)
  {
    hide Waiting, Pushed, PushedAll;
    var reader := if READ in evs then Waiting(p.io, fd, READ) else None;
    var writer := if WRITE in evs then Waiting(p.io, fd, WRITE) else None;
    var p1 := p.(io := r.io);
    PushedTwo(p1, reader, writer);
    PushedIs(p1, reader);
    PushedIs(if reader.Some? then Pushed(p1, reader.value, None) else p1, writer);
    assert r.tasks == Listed(reader) + Listed(writer);
  }

  /** addEvent with a callback puts it into the slot if epoll_ctl succeeds, and
      delEvent empties the slot and queues nobody; cancelEvent, cancelAll and the
      dispatch of idle queue whoever waits for the event, for either, and for
      those reported. If epoll_ctl fails nothing happens. */
  lemma EventEffects(p: World, s: Step)
    requires Good(p) && |p.io.ctxs| >= 32 && Enabled(p, s) && Do(p, s).Next?
    ensures var q := Do(p, s).p;
            match s
            case AddCb(_, fd, ev, n, accept) =>
              q.sched == p.sched && q.timers == p.timers && forall i: nat, e ::
                Waiting(q.io, i, e) == if accept && i == fd && e == ev then Some(RunCb(User(n)))
                                       else Waiting(p.io, i, e)
            case Del(_, fd, ev, accept) =>
              q.sched == p.sched && q.timers == p.timers && forall i: nat, e ::
                Waiting(q.io, i, e) == if accept && i == fd && e == ev then None else Waiting(p.io, i, e)
            case Cancel(_, fd, ev, accept) => Woken(p, q, fd, if accept then {ev} else {})
            case CancelEvery(_, fd, accept) => Woken(p, q, fd, if accept then {READ, WRITE} else {})
            case Poll(_, fd, reported, accept) => Woken(p, q, fd, if accept then reported else {})
            case _ => true
  {
    hide Core, IoSpec.Inv, Waiting, Handed, AddEvent, DelEvent, CancelEvent, CancelAll, Dispatch, DispatchRegistered,
      Quiet, IoEnabled, WorkEnabled, DoIo, DoWork;
    Sizes(p);
    match s
    case AddCb(_, fd, ev, n, accept) => AddCbEffect(p, fd, ev, n, accept);
    case Del(_, fd, ev, accept) => DelEffect(p, fd, ev, accept);
    case Cancel(_, fd, ev, accept) =>
      CancelEventKeeps(p.io, fd, ev, accept);
      FiredWakes(p, CancelEvent(p.io, fd, ev, accept), fd, {ev}, accept);
    case CancelEvery(_, fd, accept) =>
      CancelAllKeeps(p.io, fd, accept);
      EitherWaits(p.io, fd);
      FiredWakes(p, CancelAll(p.io, fd, accept), fd, {READ, WRITE}, accept);
    case Poll(_, fd, reported, accept) =>
      DispatchAborts(p.io, fd, reported, accept);
      DispatchKeeps(p.io, fd, reported, accept);
      PollDone(p, fd, reported, accept);
      FiredWakes(p, Dispatch(p.io, fd, reported, accept), fd, reported, accept);
    case _ =>
  }

  lemma PollDone(p: World, fd: nat, reported: set<Event>, accept: bool)
    requires Handed(p, Dispatch(p.io, fd, reported, accept)).Next?
    ensures Dispatch(p.io, fd, reported, accept).Done?
  {
    hide Dispatch;
  }

  lemma EitherWaits(io: Io, fd: nat)
    ensures (exists e :: Waiting(io, fd, e).Some?) <==> exists e :: e in {READ, WRITE} && Waiting(io, fd, e).Some?
  {
    hide Waiting;
    if exists e :: Waiting(io, fd, e).Some? {
      var e :| Waiting(io, fd, e).Some?;
      assert e == READ || e == WRITE;
    }
  }

  /** Nobody to wake, or nothing done: the same. */
  lemma FiredWakes(p: World, r: Result, fd: nat, evs: set<Event>, accept: bool)
    requires r.Done? && (r.ok <==> accept && exists e :: e in evs && Waiting(p.io, fd, e).Some?)
    requires Moves(p.io, r.io, fd, if r.ok then evs else {}, None)
    requires r.tasks == if r.ok then Waiters(p.io, fd, evs) else []
    ensures Handed(p, r).Next? && Woken(p, Handed(p, r).p, fd, if accept then evs else {})
  {
    hide Waiting, Handed;
    if r.ok {
      HandedWakes(p, r, fd, evs);
    } else {
      HandedWakes(p, r, fd, {});
      assert READ in evs && accept ==> Waiting(p.io, fd, READ).None?;
      assert WRITE in evs && accept ==> Waiting(p.io, fd, WRITE).None?;
    }
  }

  lemma AddCbEffect(p: World, fd: nat, ev: Event, n: nat, accept: bool)
    requires Good(p) && |p.io.ctxs| >= 32 && DoAddCb(p, fd, ev, n, accept).Next?
    ensures var q := DoAddCb(p, fd, ev, n, accept).p;
            q.sched == p.sched && q.timers == p.timers && forall i: nat, e ::
              Waiting(q.io, i, e) == if accept && i == fd && e == ev then Some(RunCb(User(n))) else Waiting(p.io, i, e)
  {
    hide Core, IoSpec.Inv, Waiting, AddEvent;
    Sizes(p);
    AddEventKeeps(p.io, fd, ev, RunCb(User(n)), true, accept);
  }

  lemma DelEffect(p: World, fd: nat, ev: Event, accept: bool)
    requires Good(p) && DoDel(p, fd, ev, accept).Next?
    ensures var q := DoDel(p, fd, ev, accept).p;
            q.sched == p.sched && q.timers == p.timers && forall i: nat, e ::
              Waiting(q.io, i, e) == if accept && i == fd && e == ev then None else Waiting(p.io, i, e)
  {
    hide Core, IoSpec.Inv, Waiting, DelEvent;
    Sizes(p);
    DelEventKeeps(p.io, fd, ev, accept);
  }

  /** A timer that expires queues its callback, once, for any thread; it waits on
      if it is recurring, and its callback is gone otherwise. A timer that is
      cancelled queues nothing. No other timer changes. */
  lemma TimerEffects(p: World, s: Step)
    requires Good(p) && |p.io.ctxs| >= 32 && Enabled(p, s)
    ensures s.Expire? ==>
              && Do(p, s).Next?
              && var q, c := Do(p, s).p, p.timers[s.t];
                 && q.sched == p.sched.(queue := p.sched.queue + [Entry(RunCb(c.cb.value), None)])
                 && q.timers == p.timers[s.t := if c.recurring then c else Clock(None, false)]
    ensures s.AddTimer? ==>
              Do(p, s).Next? && Do(p, s).p == p.(timers := p.timers + [Clock(Some(User(s.n)), s.recurring)])
    ensures s.DropTimer? ==>
              && Do(p, s).Next? && Do(p, s).p.sched == p.sched && |Do(p, s).p.timers| == |p.timers|
              && Do(p, s).p.timers[s.t].cb == None
              && forall t :: 0 <= t < |p.timers| && t != s.t ==> Do(p, s).p.timers[t] == p.timers[t]
  {
    hide Core, IoSpec.Inv, Waiting, Quiet, TakeIndex;
  }

  /** A new fiber gets a number of its own and one entry, and a callback one, with
      the pin that was asked for. */
  lemma QueueEffects(p: World, s: Step)
    requires Good(p) && |p.io.ctxs| >= 32 && Enabled(p, s)
    ensures s.Spawn? ==>
              && Do(p, s).Next?
              && Do(p, s).p.sched == Sched(p.sched.queue + [Entry(RunFiber(|p.fibs|), s.pin)],
                                           p.sched.states + [INIT], p.sched.active)
    ensures s.Submit? ==>
              && Do(p, s).Next?
              && Do(p, s).p.sched == p.sched.(queue := p.sched.queue + [Entry(RunCb(User(s.n)), s.pin)])
  {
    hide Core, IoSpec.Inv, Waiting, Quiet, TakeIndex;
  }

  /** Stopping ends what has nothing to do: without entries, active threads,
      events and timers IOManager::stopping holds after Stop. */
  lemma StopQuiets(p: World)
    requires |p.io.ctxs| >= 32 && p.sched.queue == [] && p.sched.active == 0 && p.io.pending == 0
    requires forall t :: 0 <= t < |p.timers| ==> p.timers[t].cb.None?
    ensures Enabled(p, Stop) && Do(p, Stop).Next? && Quiet(Do(p, Stop).p)
  {
  }
}
