/** IOManager and its FdContexts as they are: contexts updated in place, the
    kernel's interest set and the scheduler's list as fields. Each method body
    under the context's mutex is one call here. */
module IoManagers {
  import opened Options
  import opened IoSpec

  class FdContext {
    const fd: nat
    var events: set<Event>
    var read: Slot
    var write: Slot

    ghost function Snap(): FdCtx
      reads this
    {
      FdCtx(events, read, write)
    }

    constructor (fd: nat)
      ensures this.fd == fd && Snap() == NONE
    {
      this.fd, events, read, write := fd, {}, EMPTY, EMPTY;
    }

    /** getContext hands out the slot by reference; here its value, which
        SetContext stores back. */
    function GetContext(ev: Event): (s: Slot)
      reads this
      ensures s == Snap().Get(ev)
    {
      match ev
      case READ => read
      case WRITE => write
    }

    method SetContext(ev: Event, s: Slot)
      modifies this
      ensures Snap() == old(Snap()).Put(ev, s)
    {
      match ev
      case READ => read := s;
      case WRITE => write := s;
    }

    method ResetContext(ev: Event)
      modifies this
      ensures Snap() == old(Snap()).Put(ev, EMPTY)
    {
      SetContext(ev, EMPTY);
    }

    /** The bit and the slot of an event, set and cleared together. */
    method Register(ev: Event, s: Slot)
      modifies this
      ensures Snap() == old(Snap()).Put(ev, s).(events := old(events) + {ev})
    {
      events := events + {ev};
      SetContext(ev, s);
    }

    method Forget(ev: Event)
      modifies this
      ensures Snap() == old(Snap()).Put(ev, EMPTY).(events := old(events) - {ev})
    {
      events := events - {ev};
      ResetContext(ev);
    }

    /** No tasks at all means a failed assertion or a null scheduler. */
    method TriggerEvent(ev: Event) returns (tasks: Option<seq<Task>>)
      modifies this
      ensures match Trigger(old(Snap()), ev)
              case None => tasks.None?
              case Some((c, t)) => Snap() == c && tasks == Some(t)
    {
      if ev !in events {
        return None;
      }
      events := events - {ev};
      var ctx := GetContext(ev);
      if !ctx.scheduler {
        return None;
      }
      if ctx.cb.Some? {
        tasks := Some([RunCb(ctx.cb.value)]);
        ctx := ctx.(cb := None);
      } else {
        tasks := Some(if ctx.fiber.Some? then [RunFiber(ctx.fiber.value)] else []);
        ctx := ctx.(fiber := None);
      }
      ctx := ctx.(scheduler := false);
      SetContext(ev, ctx);
    }
  }

  class IOManager {
    var fdContexts: seq<FdContext>
    var interest: map<nat, set<Event>>   // what the kernel holds
    var pendingEventCount: int
    var scheduled: seq<Task>             // what schedule was given
    ghost var recs: seq<FdCtx>           // the values of the contexts
    ghost var added: nat
    ghost var fired: nat
    ghost var deleted: nat

    ghost predicate Linked()
      reads this, fdContexts
    {
      && |recs| == |fdContexts|
      && forall i :: 0 <= i < |recs| ==> fdContexts[i].fd == i && fdContexts[i].Snap() == recs[i]
    }

    ghost predicate Valid()
      reads this, fdContexts
    {
      Linked() && Inv(State())
    }

    ghost function State(): Io
      reads this
    {
      Io(recs, interest, pendingEventCount, added, fired, deleted)
    }

    constructor ()
      ensures Valid() && State() == Start() && scheduled == [] && fresh(fdContexts)
    {
      hide Inv;
      fdContexts, interest, pendingEventCount, scheduled := [], map[], 0, [];
      recs, added, fired, deleted := [], 0, 0, 0;
      new;
      ContextResize(32);
      StartInv();
      assert fdContexts == fdContexts[0..];
      assert recs == Start().ctxs;
    }

    method ContextResize(size: nat)
      requires Linked() && |fdContexts| <= size
      modifies this`fdContexts, this`recs
      ensures Linked() && recs == old(recs) + seq(size - |old(recs)|, _ => NONE)
      ensures old(fdContexts) <= fdContexts && fresh(fdContexts[|old(fdContexts)|..])
    {
      var n := |fdContexts|;
      for i := n to size
        invariant Linked() && |fdContexts| == i
        invariant fdContexts[..n] == old(fdContexts) && fresh(fdContexts[n..])
        invariant recs == old(recs) + seq(i - n, _ => NONE)
      {
        var c := new FdContext(i);
        assert (fdContexts + [c])[n..] == fdContexts[n..] + [c];
        fdContexts := fdContexts + [c];
        recs := recs + [NONE];
      }
    }

    method EpollControl(op: Ctl, fd: nat, events: set<Event>, accept: bool) returns (ok: bool)
      modifies this`interest
      ensures (interest, ok) == EpollCtl(old(interest), op, fd, events, accept)
      ensures !ok ==> interest == old(interest)
    {
      if !accept || (op == ADD) == (fd in interest) {
        return false;
      }
      interest := if op == DEL then interest - {fd} else interest[fd := events];
      return true;
    }

    /** The first half of addEvent: the context, after growing the table. */
    method ContextOf(fd: nat) returns (c: FdContext)
      requires Linked() && |fdContexts| >= 32
      modifies this`fdContexts, this`recs
      ensures Linked() && recs == Grow(old(recs), fd) && fd < |fdContexts| && c == fdContexts[fd]
      ensures old(fdContexts) <= fdContexts && fresh(fdContexts[|old(fdContexts)|..])
      ensures c in old(fdContexts) || fresh(c)
    {
      if |fdContexts| <= fd {
        ContextResize(fd * 3 / 2);
        assert fdContexts[fd] == fdContexts[|old(fdContexts)|..][fd - |old(fdContexts)|];
      }
      c := fdContexts[fd];
    }

    /** The rest of addEvent, under the context's mutex. */
    method Enlist(c: FdContext, ev: Event, who: Task, running: bool, accept: bool) returns (aborted: bool, ok: bool)
      requires Linked() && |recs| >= 32 && c in fdContexts && c.fd < |recs|
      modifies this`recs, this`interest, this`pendingEventCount, this`added, c
      ensures aborted == IoSpec.AddEvent(old(State()), c.fd, ev, who, running, accept).Aborted?
      ensures !aborted ==>
                && Linked()
                && Done(State(), ok, []) == IoSpec.AddEvent(old(State()), c.fd, ev, who, running, accept)
    {
      hide EpollCtl, SlotFor;
      RecOf(c);
      if ev in c.events {
        return true, false;
      }
      ok := EpollControl(if c.events == {} then ADD else MOD, c.fd, c.events + {ev}, accept);
      if !ok {
        return false, false;
      }
      pendingEventCount := pendingEventCount + 1;
      if c.GetContext(ev) != EMPTY {
        return true, false;
      }
      c.Register(ev, SlotFor(who));
      if who.RunFiber? && !running {
        return true, false;
      }
      recs := recs[c.fd := c.Snap()];
      added := added + 1;
      return false, true;
    }

    /** `running`: the calling fiber is in EXEC. */
    method AddEvent(fd: nat, ev: Event, who: Task, running: bool, accept: bool) returns (aborted: bool, ok: bool)
      requires Valid()
      modifies this, fdContexts
      ensures aborted == IoSpec.AddEvent(old(State()), fd, ev, who, running, accept).Aborted?
      ensures !aborted ==> Valid() && scheduled == old(scheduled)
                           && Done(State(), ok, []) == IoSpec.AddEvent(old(State()), fd, ev, who, running, accept)
      ensures old(fdContexts) <= fdContexts && fresh(fdContexts[|old(fdContexts)|..])
    {
      hide Inv, Grow, Moves, Waiting, IoSpec.AddEvent;
      HasTable(State());
      AddEventKeeps(State(), fd, ev, who, running, accept);
      AddEventGrown(State(), fd, ev, who, running, accept);
      var c := ContextOf(fd);
      aborted, ok := Enlist(c, ev, who, running, accept);
    }

    method DelEvent(fd: nat, ev: Event, accept: bool) returns (ok: bool)
      requires Valid()
      modifies this, fdContexts
      ensures Valid() && scheduled == old(scheduled) && fdContexts == old(fdContexts)
      ensures Done(State(), ok, []) == IoSpec.DelEvent(old(State()), fd, ev, accept)
    {
      hide Inv, EpollCtl, Moves, Waiting;
      DelEventKeeps(State(), fd, ev, accept);
      if |fdContexts| <= fd {
        return false;
      }
      var c := fdContexts[fd];
      if ev !in c.events {
        return false;
      }
      var left := c.events - {ev};
      ok := EpollControl(if left == {} then DEL else MOD, fd, left, accept);
      if !ok {
        return false;
      }
      pendingEventCount := pendingEventCount - 1;
      c.Forget(ev);
      recs := recs[fd := c.Snap()];
      deleted := deleted + 1;
      return true;
    }

    /** triggerEvent for one event, whose task is scheduled and which is counted
        off. */
    method TriggerOne(c: FdContext, ev: Event) returns (aborted: bool)
      requires Linked() && c in fdContexts
      modifies this`recs, this`scheduled, this`pendingEventCount, c
      ensures c.fd < |recs|
      ensures aborted == Trigger(old(c.Snap()), ev).None?
      ensures !aborted ==>
              var (c', tasks) := Trigger(old(c.Snap()), ev).value;
              && Linked() && recs == old(recs)[c.fd := c'] && scheduled == old(scheduled) + tasks
              && pendingEventCount == old(pendingEventCount) - 1
    {
      hide Trigger;
      var tasks := c.TriggerEvent(ev);
      if tasks.None? {
        return true;
      }
      scheduled := scheduled + tasks.value;
      pendingEventCount := pendingEventCount - 1;
      recs := recs[c.fd := c.Snap()];
      return false;
    }

    lemma RecOf(c: FdContext)
      requires Linked() && c in fdContexts
      ensures c.fd < |recs| && recs[c.fd] == c.Snap() && c == fdContexts[c.fd]
    {
    }

    /** triggerEvent for READ, then for WRITE, as asked. */
    method TriggerBoth(c: FdContext, evs: set<Event>) returns (aborted: bool)
      requires Linked() && c in fdContexts
      modifies this`recs, this`scheduled, this`pendingEventCount, this`fired, c
      ensures aborted == TriggerAll(old(State()), c.fd, evs).Aborted?
      ensures !aborted ==>
              Linked() && old(scheduled) <= scheduled
              && Done(State(), true, scheduled[|old(scheduled)|..]) == TriggerAll(old(State()), c.fd, evs)
    {
      hide Trigger;
      RecOf(c);
      if READ in evs {
        aborted := TriggerOne(c, READ);
        if aborted {
          return;
        }
        RecOf(c);
      }
      if WRITE in evs {
        aborted := TriggerOne(c, WRITE);
        if aborted {
          return;
        }
      }
      fired := fired + Count(evs);
      return false;
    }

    method CancelEvent(fd: nat, ev: Event, accept: bool) returns (ok: bool)
      requires Valid()
      modifies this, fdContexts
      ensures Valid() && old(scheduled) <= scheduled && fdContexts == old(fdContexts)
      ensures Done(State(), ok, scheduled[|old(scheduled)|..]) == IoSpec.CancelEvent(old(State()), fd, ev, accept)
    {
      hide Inv, TriggerAll, EpollCtl;
      CancelEventKeeps(State(), fd, ev, accept);
      if |fdContexts| <= fd {
        return false;
      }
      var c := fdContexts[fd];
      if ev !in c.events {
        return false;
      }
      var left := c.events - {ev};
      ok := EpollControl(if left == {} then DEL else MOD, fd, left, accept);
      if !ok {
        return false;
      }
      var _ := TriggerBoth(c, {ev});
      return true;
    }

    method CancelAll(fd: nat, accept: bool) returns (ok: bool)
      requires Valid()
      modifies this, fdContexts
      ensures Valid() && old(scheduled) <= scheduled && fdContexts == old(fdContexts)
      ensures Done(State(), ok, scheduled[|old(scheduled)|..]) == IoSpec.CancelAll(old(State()), fd, accept)
    {
      hide Inv, TriggerAll, EpollCtl;
      CancelAllKeeps(State(), fd, accept);
      if |fdContexts| <= fd {
        return false;
      }
      var c := fdContexts[fd];
      if c.events == {} {
        return false;
      }
      ok := EpollControl(DEL, fd, {}, accept);
      if !ok {
        return false;
      }
      var _ := TriggerBoth(c, c.events);
      return true;
    }

    /** The loop of idle over what epoll_wait reported. */
    method DispatchEvents(reports: seq<Report>) returns (aborted: bool)
      requires Valid()
      modifies this, fdContexts
      ensures aborted == DispatchEach(old(State()), reports).Aborted?
      ensures !aborted ==>
              Valid() && old(scheduled) <= scheduled && fdContexts == old(fdContexts)
              && Done(State(), true, scheduled[|old(scheduled)|..]) == DispatchEach(old(State()), reports)
    {
      hide Inv, Dispatch, RealEvents;
      DispatchEachKeeps(State(), reports);
      for i := 0 to |reports|
        invariant Linked() && fdContexts == old(fdContexts) && old(scheduled) <= scheduled
        invariant Done(State(), true, scheduled[|old(scheduled)|..]) == DispatchEach(old(State()), reports[..i])
      {
        assert reports[..i + 1][..i] == reports[..i];
        match reports[i] {
          case Tickle =>
          case Ready(fd, flags, accept) =>
            var failed := DispatchOne(fd, flags, accept);
            if failed {
              AbortedStays(old(State()), reports, i + 1);
              return true;
            }
        }
      }
      assert reports[..|reports|] == reports;
      return false;
    }

    method DispatchOne(fd: nat, flags: set<Poll>, accept: bool) returns (aborted: bool)
      requires Linked()
      modifies this, fdContexts
      ensures aborted == Dispatch(old(State()), fd, RealEvents(flags), accept).Aborted?
      ensures !aborted ==>
              Linked() && old(scheduled) <= scheduled && fdContexts == old(fdContexts)
              && (State(), scheduled[|old(scheduled)|..])
                 == var r := Dispatch(old(State()), fd, RealEvents(flags), accept); (r.io, r.tasks)
    {
      hide TriggerAll, EpollCtl;
      var polled := flags;
      if ERR in polled || HUP in polled {
        polled := polled + {IN, OUT};
      }
      var realEvents := {};
      if IN in polled {
        realEvents := realEvents + {READ};
      }
      if OUT in polled {
        realEvents := realEvents + {WRITE};
      }
      assert realEvents == RealEvents(flags);
      assert scheduled[|scheduled|..] == [];
      if |fdContexts| <= fd || fdContexts[fd].events * realEvents == {} {
        return false;
      }
      var c := fdContexts[fd];
      var left := c.events - realEvents;
      var ok := EpollControl(if left == {} then DEL else MOD, fd, left, accept);
      if !ok {
        return false;
      }
      aborted := TriggerBoth(c, realEvents);
    }
  }

  lemma {:induction false} AbortedStays(io: Io, reports: seq<Report>, n: nat)
    requires n <= |reports| && DispatchEach(io, reports[..n]).Aborted?
    ensures DispatchEach(io, reports).Aborted?
    decreases |reports| - n
  {
    if n == |reports| {
      assert reports[..n] == reports;
    } else {
      assert reports[..n + 1][..n] == reports[..n];
      AbortedStays(io, reports, n + 1);
    }
  }
}
