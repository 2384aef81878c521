/** Timer and TimerManager as they are: timers updated in place, the set of the
    waiting ones, and the notification flag. */
module Timers {
  import opened Options
  import opened TimerSpec

  class Timer {
    const addr: nat
    const recurring: bool
    var ms: nat
    var next: nat
    var cb: Option<Callback>
    ghost const id: nat
    ghost const armed: bool
    ghost var fired: nat
    ghost var cancelled: bool

    ghost function Snap(): Rec
      reads this
    {
      Rec(addr, recurring, armed, ms, next, cb, fired, cancelled)
    }

    constructor (ghost id: nat, addr: nat, ms: nat, cb: Option<Callback>, recurring: bool, now: nat)
      ensures this.id == id && Snap() == Rec(addr, recurring, cb.Some?, ms, Wrap(now + ms), cb, 0, false)
    {
      this.id, this.addr, this.recurring, this.ms, this.cb := id, addr, recurring, ms, cb;
      this.armed, this.fired, this.cancelled := cb.Some?, 0, false;
      next := Wrap(now + ms);
    }

    /** The timer listExpiredCb looks for: only its deadline matters. */
    constructor Probe(addr: nat, next: nat)
      ensures Snap().addr == addr && Snap().next == next
    {
      this.addr, this.recurring, this.ms, this.cb := addr, false, 0, None;
      this.id, this.armed, this.fired, this.cancelled := 0, false, 0, false;
      this.next := next;
    }
  }

  /** Timer::Comparator. */
  predicate Before(l: Timer?, r: Timer?)
    reads l, r
  {
    if l == null && r == null then false
    else if l == null then true
    else if r == null then false
    else if l.next < r.next then true
    else if r.next < l.next then false
    else l.addr < r.addr
  }

  class TimerManager {
    var timers: seq<Timer>
    var tickled: bool
    var previousTime: nat
    ghost var all: seq<Timer>   // every timer created
    ghost var recs: seq<Rec>    // their values
    ghost var queue: seq<nat>   // the numbers of those in the set
    ghost var notes: nat
    ghost var notesSeen: nat
    ghost var seen: Option<nat>

    ghost predicate Linked()
      reads this, all
    {
      && |recs| == |all| && |queue| == |timers|
      && (forall i :: 0 <= i < |all| ==> all[i].id == i && all[i].Snap() == recs[i])
      && (forall k :: 0 <= k < |queue| ==> queue[k] < |all| && timers[k] == all[queue[k]])
    }

    ghost predicate Valid()
      reads this, all
    {
      Linked() && Inv(State())
    }

    ghost function State(): Manager
      reads this
    {
      Manager(recs, queue, tickled, previousTime, notes, notesSeen, seen)
    }

    ghost predicate Owns(t: Timer)
      reads this
    {
      t.id < |all| && all[t.id] == t
    }

    constructor (now: nat)
      ensures Valid() && State() == Init(now)
    {
      timers, tickled, previousTime := [], false, now;
      all, recs, queue, notes, notesSeen, seen := [], [], [], 0, 0, None;
    }

    lemma RecOf(t: Timer)
      requires Linked() && Owns(t)
      ensures t.id < |recs| == |all| && recs[t.id] == t.Snap() && |queue| == |timers|
      ensures Known(recs, queue)
    {
    }

    lemma OwnsAll()
      requires Linked()
      ensures |recs| == |all| && forall i :: 0 <= i < |all| ==> all[i].id == i
    {
    }

    // ---- a timer's fields ------------------------------------------------

    method SetTimes(t: Timer, ms: nat, next: nat)
      requires Linked() && Owns(t) && t.id < |recs|
      modifies this`recs, t`ms, t`next
      ensures Linked() && recs == old(recs)[t.id := old(recs)[t.id].(ms := ms, next := next)]
    {
      t.ms := ms;
      t.next := next;
      recs := recs[t.id := t.Snap()];
    }

    method ClearCb(t: Timer, ghost cancelling: bool)
      requires Linked() && Owns(t) && t.id < |recs|
      modifies this`recs, t`cb, t`cancelled
      ensures Linked()
      ensures var r := old(recs)[t.id];
              recs == old(recs)[t.id := r.(cb := None, cancelled := r.cancelled || cancelling)]
    {
      t.cb := None;
      t.cancelled := t.cancelled || cancelling;
      recs := recs[t.id := t.Snap()];
    }

    ghost method NoteFired(t: Timer)
      requires Linked() && Owns(t) && t.id < |recs|
      modifies this`recs, t`fired
      ensures Linked()
      ensures var r := old(recs)[t.id];
              recs == old(recs)[t.id := r.(fired := r.fired + if r.cb.Some? then 1 else 0)]
    {
      t.fired := t.fired + if t.cb.Some? then 1 else 0;
      recs := recs[t.id := t.Snap()];
    }

    // ---- the set -------------------------------------------------------

    method LowerBoundOf(r: Timer) returns (k: nat)
      requires Linked()
      ensures k == LowerBound(recs, queue, r.Snap())
    {
      k := 0;
      while k < |timers| && Before(timers[k], r)
        invariant k <= |timers|
        invariant forall i :: 0 <= i < k ==> Less(recs[queue[i]], r.Snap())
      {
        k := k + 1;
      }
      BoundIsFirst(recs, queue, r.Snap(), k);
    }

    /** find; the length of the set stands for its end. */
    method FindTimer(t: Timer) returns (k: nat)
      requires Linked() && Owns(t)
      ensures k == Find(recs, queue, recs[t.id])
    {
      k := LowerBoundOf(t);
      if k < |timers| && Before(t, timers[k]) {
        k := |timers|;
      }
    }

    method EraseAt(k: nat)
      requires Linked() && k < |timers|
      modifies this`timers, this`queue
      ensures Linked() && queue == Erase(old(queue), k)
    {
      timers := timers[..k] + timers[k + 1..];
      queue := Erase(queue, k);
    }

    method InsertTimer(t: Timer) returns (k: nat)
      requires Linked() && Owns(t)
      modifies this`timers, this`queue
      ensures Linked() && queue == Insert(recs, old(queue), t.id)
      ensures k < |queue| && queue[k] == t.id && k == LowerBound(recs, old(queue), recs[t.id])
    {
      hide Less;
      k := LowerBoundOf(t);
      timers := timers[..k] + [t] + timers[k..];
      queue := Insert(recs, queue, t.id);
    }

    method OnTimerInsertedAtFront()
      modifies this`notes
      ensures notes == old(notes) + 1
    {
      notes := notes + 1;
    }

    /** addTimer(val, lock). */
    method EnqueueTimer(t: Timer)
      requires Linked() && Owns(t)
      modifies this`timers, this`queue, this`tickled, this`notes
      ensures Linked() && State() == Enqueue(old(State()), t.id)
    {
      hide Insert, LowerBound;
      InsertedFirst(recs, queue, t.id);
      var k := InsertTimer(t);
      var atFront := k == 0 && !tickled;
      if atFront {
        tickled := true;
      }
      if atFront {
        OnTimerInsertedAtFront();
      }
    }

    // ---- the operations ------------------------------------------------

    method AddTimer(addr: nat, ms: nat, cb: Option<Callback>, recurring: bool, now: nat) returns (t: Timer)
      requires Valid() && forall j <- queue :: j < |recs| && recs[j].addr != addr
      modifies this
      ensures Valid() && State() == Add(old(State()), addr, ms, cb, recurring, now)
      ensures fresh(t) && Owns(t) && all == old(all) + [t]
    {
      hide Inv, Enqueue;
      AddKeeps(State(), addr, ms, cb, recurring, now);
      t := new Timer(|all|, addr, ms, cb, recurring, now);
      all := all + [t];
      recs := recs + [t.Snap()];
      EnqueueTimer(t);
    }

    /** Timer::cancel. What find returns is never the end of the set. */
    method CancelTimer(t: Timer) returns (done: bool)
      requires Valid() && Owns(t)
      modifies this, t
      ensures Valid() && (State(), done) == Cancel(old(State()), t.id) && all == old(all)
    {
      hide Linked, Inv, Find, Erase, Insert;
      RecOf(t);
      CancelKeeps(State(), t.id);
      if t.cb == None {
        return false;
      }
      FindIs(State(), t.id);
      var k := FindTimer(t);
      ClearCb(t, true);
      EraseAt(k);
      return true;
    }

    /** Timer::refresh. */
    method RefreshTimer(t: Timer, now: nat) returns (done: bool)
      requires Valid() && Owns(t)
      modifies this, t
      ensures Valid() && (State(), done) == Refresh(old(State()), t.id, now) && all == old(all)
    {
      hide Linked, Inv, Find, Erase, Insert, Wrap;
      RecOf(t);
      RefreshKeeps(State(), t.id, now);
      if t.cb == None {
        return false;
      }
      var k := FindTimer(t);
      if k == |timers| {
        return false;
      }
      EraseAt(k);
      RecOf(t);
      SetTimes(t, t.ms, Wrap(now + t.ms));
      var _ := InsertTimer(t);
      return true;
    }

    /** Timer::reset. */
    method ResetTimer(t: Timer, ms: nat, fromNow: bool, now: nat) returns (done: bool)
      requires Valid() && Owns(t)
      modifies this, t
      ensures Valid() && (State(), done) == Reset(old(State()), t.id, ms, fromNow, now) && all == old(all)
    {
      hide Linked, Inv, Find, Erase, Enqueue, Wrap;
      RecOf(t);
      ResetKeeps(State(), t.id, ms, fromNow, now);
      if ms == t.ms && !fromNow {
        return true;
      }
      if t.cb == None {
        return false;
      }
      var k := FindTimer(t);
      if k == |timers| {
        return false;
      }
      EraseAt(k);
      RecOf(t);
      var start := if fromNow then now else Wrap(t.next - t.ms);
      SetTimes(t, ms, Wrap(start + ms));
      EnqueueTimer(t);
      return true;
    }

    method GetNextTimer(now: nat) returns (wait: nat)
      requires Valid()
      modifies this
      ensures Valid() && (State(), wait) == GetNext(old(State()), now) && all == old(all)
    {
      hide Mid;
      GetNextKeeps(State(), now);
      tickled := false;
      notesSeen := notes;
      seen := if |timers| == 0 then None else Some(timers[0].next);
      if |timers| == 0 {
        return WORD - 1;
      }
      if now >= timers[0].next {
        return 0;
      }
      return timers[0].next - now;
    }

    method DetectClockRollover(now: nat) returns (rollover: bool)
      modifies this`previousTime
      ensures rollover == Rollover(old(previousTime), now) && previousTime == now
    {
      rollover := now < previousTime && now < Wrap(previousTime - 60 * 60 * 1000);
      previousTime := now;
    }

    /** The search of listExpiredCb: lower_bound of a probe timer with the
        current time and some address, then past the timers due right now. It
        ends behind the last due timer whatever the probe's address is. */
    method DueEnd(now: nat, probeAddr: nat) returns (it: nat)
      requires Linked() && Sorted(recs, queue)
      ensures it == DueCount(recs, queue, now)
    {
      var probe := new Timer.Probe(probeAddr, now);
      it := LowerBoundOf(probe);
      while it < |timers| && timers[it].next == now
        invariant it <= |timers|
        invariant forall i :: 0 <= i < it ==> recs[queue[i]].next <= now
        invariant it < |timers| ==> recs[queue[it]].next >= now
      {
        if it + 1 < |timers| {
          assert Less(recs[queue[it]], recs[queue[it + 1]]);
        }
        it := it + 1;
      }
    }

    /** Hands out the callback of a timer taken out of the set: a recurring one
        goes back, a one-shot one loses it. */
    method FireTimer(t: Timer, now: nat) returns (cb: Option<Callback>)
      requires Linked() && Owns(t)
      modifies this`timers, this`queue, this`recs, t
      ensures Linked() && State() == Fire(old(State()), t.id, now) && cb == old(recs)[t.id].cb
    {
      hide Linked, Insert, Wrap;
      RecOf(t);
      cb := t.cb;
      NoteFired(t);
      if t.recurring {
        SetTimes(t, t.ms, Wrap(now + t.ms));
        assert recs == old(recs)[t.id := Fired(old(recs)[t.id], now)];
        var _ := InsertTimer(t);
      } else {
        ClearCb(t, false);
        assert recs == old(recs)[t.id := Fired(old(recs)[t.id], now)];
      }
    }

    /** The loop over the expired timers. */
    method FireTimers(expired: seq<Timer>, ghost ids: seq<nat>, now: nat) returns (cbs: seq<Option<Callback>>)
      requires Linked() && Mid(State(), ids) && |ids| == |expired|
      requires forall i :: 0 <= i < |ids| ==> ids[i] < |all| && expired[i] == all[ids[i]]
      modifies this`timers, this`queue, this`recs, all
      ensures Linked() && State() == FireAll(old(State()), ids, now)
      ensures cbs == Callbacks(old(recs), ids)
    {
      hide Linked, Insert, Mid, Fire, Fired;
      ghost var m := State();
      KnownOfMid(m, ids);
      OwnsAll();
      cbs := [];
      assert ids[..0] == [];
      for i := 0 to |expired|
        invariant Linked() && |recs| == |m.recs| && Known(m.recs, m.queue)
        invariant forall j :: 0 <= j < |all| ==> all[j].id == j
        invariant State() == FireAll(m, ids[..i], now)
        invariant |cbs| == i && forall j :: 0 <= j < i ==> cbs[j] == m.recs[ids[j]].cb
      {
        Untouched(m, ids, i, now);
        assert ids[..i + 1] == ids[..i] + [ids[i]];
        var cb := FireTimer(expired[i], now);
        cbs := cbs + [cb];
      }
      assert ids[..|ids|] == ids;
    }

    /** Takes the first `it` timers out of the set and fires them. */
    method FireFirst(it: nat, now: nat) returns (cbs: seq<Option<Callback>>)
      requires Linked() && it <= |timers| && Known(recs, queue)
      requires Mid(State().(queue := queue[it..]), queue[..it])
      modifies this`timers, this`queue, this`recs, all
      ensures Linked()
      ensures (State(), cbs) == (FireAll(old(State()).(queue := old(queue)[it..]), old(queue)[..it], now),
                                 Callbacks(old(recs), old(queue)[..it]))
    {
      hide Mid, FireAll;
      var expired := timers[..it];
      ghost var ids := queue[..it];
      timers := timers[it..];
      queue := queue[it..];
      cbs := FireTimers(expired, ids, now);
    }

    method ListExpiredCb(now: nat, probeAddr: nat) returns (cbs: seq<Option<Callback>>)
      requires Valid()
      modifies this, all
      ensures Valid() && (State(), cbs) == Expire(old(State()), now) && all == old(all)
    {
      hide Mid, DueCount, Expire, FireAll, Rollover, Wrap;
      ghost var m := State();
      ExpireKeeps(m, now);
      ExpireCases(m, now);
      if |timers| == 0 {
        return [];
      }
      var rollover := DetectClockRollover(now);
      if !rollover && timers[0].next > now {
        return [];
      }
      var it: nat;
      if rollover {
        it := |timers|;
      } else {
        SortedOfMid(m, []);
        it := DueEnd(now, probeAddr);
      }
      Halved(m, it, now);
      cbs := FireFirst(it, now);
    }
  }

  lemma SortedOfMid(m: Manager, out: seq<nat>)
    requires Mid(m, out)
    ensures Known(m.recs, m.queue) && Sorted(m.recs, m.queue)
  {
  }

  /** A timer is inserted first exactly when no other precedes it. */
  lemma InsertedFirst(recs: seq<Rec>, q: seq<nat>, id: nat)
    requires Known(recs, q) && id < |recs|
    ensures Insert(recs, q, id)[0] == id <==> LowerBound(recs, q, recs[id]) == 0
  {
  }

  /** A timer that is still to be fired has not been changed yet. */
  lemma Untouched(m: Manager, ids: seq<nat>, i: nat, now: nat)
    requires Mid(m, ids) && i < |ids| && Known(m.recs, ids) && Known(m.recs, m.queue) && Known(m.recs, ids[..i])
    ensures FireAll(m, ids[..i], now).recs[ids[i]] == m.recs[ids[i]]
  {
    hide Mid, Fired, FireAll;
    assert ids == ids[..i] + ids[i..] == ids[..i] + ([ids[i]] + ids[i + 1..]);
    FireAllEffect(m, ids[..i], ids[i..], now);
    LastIsNew(m, ids[..i], ids[i], ids[i + 1..]);
  }

  lemma ExpireCases(m: Manager, now: nat)
    requires Inv(m)
    ensures Known(m.recs, m.queue)
    ensures m.queue == [] ==> Expire(m, now) == (m, [])
    ensures m.queue != [] && !Rollover(m.previous, now) && m.recs[m.queue[0]].next > now ==>
      Expire(m, now) == (m.(previous := now), [])
    ensures m.queue != [] ==>
      var k := if Rollover(m.previous, now) then |m.queue| else DueCount(m.recs, m.queue, now);
      && Known(m.recs, m.queue[k..]) && Known(m.recs, m.queue[..k])
      && Expire(m, now) == (FireAll(m.(queue := m.queue[k..], previous := now), m.queue[..k], now),
                            Callbacks(m.recs, m.queue[..k]))
  {
    hide Mid, Rollover, Fired;
    KnownOfMid(m, []);
    assert m.queue[0..] == m.queue && m.queue[..0] == [];
  }

  lemma {:induction false} BoundIsFirst(recs: seq<Rec>, q: seq<nat>, r: Rec, k: nat)
    requires Known(recs, q) && k <= |q|
    requires forall i :: 0 <= i < k ==> Less(recs[q[i]], r)
    requires k < |q| ==> !Less(recs[q[k]], r)
    ensures k == LowerBound(recs, q, r)
  {
  }
}
