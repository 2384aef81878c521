/** The timers of a TimerManager as values: the ordered set, what every
    operation does to it, and what holds in every run. */
module TimerSpec {
  import opened Options

  const WORD := 0x1_0000_0000_0000_0000

  type Callback = nat

  /** Unsigned 64-bit arithmetic. */
  function Wrap(n: int): (r: nat)
    ensures r < WORD
  {
    n % WORD
  }

  /** A timer. `armed` says whether it was created with a callback at all;
      `fired` and `cancelled` are its history: how often its callback was
      handed out, and whether a cancel returned true. */
  datatype Rec = Rec(addr: nat, recurring: bool, armed: bool, ms: nat, next: nat, cb: Option<Callback>,
                     fired: nat, cancelled: bool)

  /** All timers created so far, by number; the set of the waiting ones, in set
      order; and the history of notifications: how many there were, now and at
      the last getNextTimer, and the earliest deadline that call saw. */
  datatype Manager = Manager(recs: seq<Rec>, queue: seq<nat>, tickled: bool, previous: nat,
                             notes: nat, notesSeen: nat, seen: Option<nat>)

  function Init(now: nat): Manager {
    Manager([], [], false, now, 0, 0, None)
  }

  // ---- the order -------------------------------------------------------

  /** Timer::Comparator on non-null timers. */
  predicate Less(a: Rec, b: Rec) {
    a.next < b.next || (a.next == b.next && a.addr < b.addr)
  }

  predicate Known(recs: seq<Rec>, q: seq<nat>) {
    forall k :: 0 <= k < |q| ==> q[k] < |recs|
  }

  ghost predicate Sorted(recs: seq<Rec>, q: seq<nat>)
    requires Known(recs, q)
  {
    forall i, j :: 0 <= i < j < |q| ==> Less(recs[q[i]], recs[q[j]])
  }

  /** lower_bound: how many timers of the set precede `r`. */
  function LowerBound(recs: seq<Rec>, q: seq<nat>, r: Rec): (k: nat)
    requires Known(recs, q)
    ensures k <= |q|
    ensures forall i :: 0 <= i < k ==> Less(recs[q[i]], r)
    ensures k < |q| ==> !Less(recs[q[k]], r)
  {
    if q == [] || !Less(recs[q[0]], r) then 0
    else
      assert Known(recs, q[1..]);
      1 + LowerBound(recs, q[1..], r)
  }

  /** set::find: the place of an element equivalent to `r`, or the end. */
  function Find(recs: seq<Rec>, q: seq<nat>, r: Rec): (k: nat)
    requires Known(recs, q)
    ensures k <= |q|
  {
    var k := LowerBound(recs, q, r);
    if k < |q| && !Less(r, recs[q[k]]) then k else |q|
  }

  /** set::insert of a timer that is not in the set. */
  function Insert(recs: seq<Rec>, q: seq<nat>, id: nat): (r: seq<nat>)
    requires Known(recs, q) && id < |recs|
    ensures Known(recs, r) && |r| == |q| + 1
  {
    var k := LowerBound(recs, q, recs[id]);
    q[..k] + [id] + q[k..]
  }

  function Erase(q: seq<nat>, k: nat): seq<nat>
    requires k < |q|
  {
    q[..k] + q[k + 1..]
  }

  /** How many timers are due at `now`: the set is ordered by deadline, so these
      are the first ones. */
  function DueCount(recs: seq<Rec>, q: seq<nat>, now: nat): (k: nat)
    requires Known(recs, q)
    ensures k <= |q|
    ensures forall i :: 0 <= i < k ==> recs[q[i]].next <= now
    ensures k < |q| ==> recs[q[k]].next > now
  {
    if q == [] || recs[q[0]].next > now then 0
    else
      assert Known(recs, q[1..]);
      1 + DueCount(recs, q[1..], now)
  }

  // ---- the operations --------------------------------------------------

  /** TimerManager::addTimer(val, lock): notifies when the timer came first and
      nobody was notified since the last getNextTimer. */
  function Enqueue(m: Manager, id: nat): Manager
    requires Known(m.recs, m.queue) && id < |m.recs|
  {
    var q := Insert(m.recs, m.queue, id);
    var atFront := q[0] == id && !m.tickled;
    m.(queue := q, tickled := m.tickled || atFront, notes := m.notes + if atFront then 1 else 0)
  }

  function Add(m: Manager, addr: nat, ms: nat, cb: Option<Callback>, recurring: bool, now: nat): Manager
    requires Known(m.recs, m.queue)
  {
    var r := Rec(addr, recurring, cb.Some?, ms, Wrap(now + ms), cb, 0, false);
    Enqueue(m.(recs := m.recs + [r]), |m.recs|)
  }

  function Cancel(m: Manager, id: nat): (Manager, bool)
    requires Known(m.recs, m.queue) && id < |m.recs|
  {
    var r := m.recs[id];
    if r.cb == None then (m, false)
    else
      var k := Find(m.recs, m.queue, r);
      var recs := m.recs[id := r.(cb := None, cancelled := true)];
      (m.(recs := recs, queue := if k < |m.queue| then Erase(m.queue, k) else m.queue), true)
  }

  /** Removes a waiting timer and gives it a new period and deadline. */
  function Retime(m: Manager, id: nat, k: nat, ms: nat, next: nat): Manager
    requires id < |m.recs| && k < |m.queue|
  {
    m.(recs := m.recs[id := m.recs[id].(ms := ms, next := next)], queue := Erase(m.queue, k))
  }

  function Refresh(m: Manager, id: nat, now: nat): (Manager, bool)
    requires Known(m.recs, m.queue) && id < |m.recs|
  {
    var r := m.recs[id];
    var k := Find(m.recs, m.queue, r);
    if r.cb == None || k == |m.queue| then (m, false)
    else
      var m' := Retime(m, id, k, r.ms, Wrap(now + r.ms));
      (m'.(queue := Insert(m'.recs, m'.queue, id)), true)
  }

  function Reset(m: Manager, id: nat, ms: nat, fromNow: bool, now: nat): (Manager, bool)
    requires Known(m.recs, m.queue) && id < |m.recs|
  {
    var r := m.recs[id];
    if ms == r.ms && !fromNow then (m, true)
    else
      var k := Find(m.recs, m.queue, r);
      if r.cb == None || k == |m.queue| then (m, false)
      else
        var start := if fromNow then now else Wrap(r.next - r.ms);
        (Enqueue(Retime(m, id, k, ms, Wrap(start + ms)), id), true)
  }

  /** getNextTimer: the time to wait, all ones when there is nothing to wait
      for. */
  function GetNext(m: Manager, now: nat): (Manager, nat)
    requires Known(m.recs, m.queue)
  {
    var first := if m.queue == [] then None else Some(m.recs[m.queue[0]].next);
    (m.(tickled := false, notesSeen := m.notes, seen := first),
     if first == None then WORD - 1 else if now >= first.value then 0 else first.value - now)
  }

  /** detectClockRollover: the clock went back by more than an hour, in
      unsigned arithmetic. */
  predicate Rollover(previous: nat, now: nat) {
    now < previous && now < Wrap(previous - 3600000)
  }

  /** A timer whose callback was handed out: re-armed, or retired. */
  function Fired(r: Rec, now: nat): Rec {
    var fired := r.fired + if r.cb.Some? then 1 else 0;
    if r.recurring then r.(next := Wrap(now + r.ms), fired := fired)
    else r.(cb := None, fired := fired)
  }

  function Fire(m: Manager, id: nat, now: nat): (m': Manager)
    requires Known(m.recs, m.queue) && id < |m.recs|
    ensures Known(m'.recs, m'.queue) && |m'.recs| == |m.recs|
  {
    var recs := m.recs[id := Fired(m.recs[id], now)];
    m.(recs := recs, queue := if m.recs[id].recurring then Insert(recs, m.queue, id) else m.queue)
  }

  function FireAll(m: Manager, ids: seq<nat>, now: nat): (m': Manager)
    requires Known(m.recs, m.queue) && Known(m.recs, ids)
    ensures Known(m'.recs, m'.queue) && |m'.recs| == |m.recs|
    decreases |ids|
  {
    if ids == [] then m else Fire(FireAll(m, ids[..|ids| - 1], now), ids[|ids| - 1], now)
  }

  /** How many timers, from the front, listExpiredCb takes out. */
  function Expiring(m: Manager, now: nat): (k: nat)
    requires Known(m.recs, m.queue)
    ensures k <= |m.queue|
  {
    if m.queue != [] && Rollover(m.previous, now) then |m.queue| else DueCount(m.recs, m.queue, now)
  }

  function Callbacks(recs: seq<Rec>, ids: seq<nat>): (cbs: seq<Option<Callback>>)
    requires Known(recs, ids)
    ensures |cbs| == |ids|
  {
    seq(|ids|, i requires 0 <= i < |ids| => recs[ids[i]].cb)
  }

  /** listExpiredCb. */
  function Expire(m: Manager, now: nat): (Manager, seq<Option<Callback>>)
    requires Known(m.recs, m.queue)
  {
    var k := Expiring(m, now);
    var expired := m.queue[..k];
    if m.queue == [] then (m, [])
    else (FireAll(m.(queue := m.queue[k..], previous := now), expired, now), Callbacks(m.recs, expired))
  }

  // ---- the invariant ---------------------------------------------------

  /** A one-shot timer created with a callback is exactly one of waiting, fired
      once and cancelled; one with a callback left waits. */
  ghost predicate Account(r: Rec, waiting: bool) {
    && (r.cb.Some? ==> waiting && r.armed && !r.cancelled)
    && (r.armed && waiting ==> r.cb.Some?)
    && (!r.recurring ==> (if waiting && r.armed then 1 else 0) + r.fired + (if r.cancelled then 1 else 0)
                         == if r.armed then 1 else 0)
    && (r.recurring && r.armed && !waiting ==> r.cancelled)
    && r.next < WORD
  }

  /** No two of these timers have the same address; in particular none is
      listed twice. */
  ghost predicate Apart(recs: seq<Rec>, s: seq<nat>)
    requires Known(recs, s)
  {
    forall i, j :: 0 <= i < |s| && 0 <= j < |s| && i != j ==> recs[s[i]].addr != recs[s[j]].addr
  }

  /** The invariant while the timers of `out` are out of the set, to be put
      back or retired. */
  ghost predicate Mid(m: Manager, out: seq<nat>) {
    && Known(m.recs, m.queue) && Known(m.recs, out) && Known(m.recs, m.queue + out)
    && Sorted(m.recs, m.queue)
    && Apart(m.recs, m.queue + out)
    && (forall id :: 0 <= id < |m.recs| ==> Account(m.recs[id], id in m.queue + out))
    && m.notes == m.notesSeen + if m.tickled then 1 else 0
  }

  ghost predicate Inv(m: Manager) {
    Mid(m, [])
  }

  lemma ApartMoved(recs: seq<Rec>, a: seq<nat>, b: seq<nat>, x: nat, c: seq<nat>)
    requires Known(recs, a + b + [x] + c) && Apart(recs, a + b + [x] + c)
    ensures Known(recs, a + [x] + b + c) && Apart(recs, a + [x] + b + c)
  {
    var s, t := a + b + [x] + c, a + [x] + b + c;
    forall i | 0 <= i < |t|
      ensures t[i] == s[Source(|a|, |b|, i)] && t[i] < |recs|
    {
    }
    forall i, j | 0 <= i < |t| && 0 <= j < |t| && i != j
      ensures recs[t[i]].addr != recs[t[j]].addr
    {
      assert Source(|a|, |b|, i) != Source(|a|, |b|, j);
    }
  }

  /** Where the element that moved to `i` came from. */
  function Source(a: nat, b: nat, i: nat): nat {
    if i < a || i > a + b then i else if i == a then a + b else i - 1
  }

  /** insert keeps the order when no waiting timer has the new one's address. */
  lemma InsertSorted(recs: seq<Rec>, q: seq<nat>, id: nat)
    requires Known(recs, q) && Sorted(recs, q) && id < |recs|
    requires forall i :: 0 <= i < |q| ==> recs[q[i]].addr != recs[id].addr
    ensures Sorted(recs, Insert(recs, q, id))
  {
    var k := LowerBound(recs, q, recs[id]);
    forall i | k <= i < |q| ensures Less(recs[id], recs[q[i]]) {
      assert i > k ==> Less(recs[q[k]], recs[q[i]]);
    }
  }

  lemma PutIn(m: Manager, id: nat, rest: seq<nat>)
    requires Mid(m, [id] + rest) && id < |m.recs|
    ensures Mid(m.(queue := Insert(m.recs, m.queue, id)), rest)
  {
    hide Less, Account;
    var q := m.queue;
    var k := LowerBound(m.recs, q, m.recs[id]);
    var q' := Insert(m.recs, q, id);
    var s := q + ([id] + rest);
    assert s == q[..k] + q[k..] + [id] + rest;
    ApartMoved(m.recs, q[..k], q[k..], id, rest);
    assert q' + rest == q[..k] + [id] + q[k..] + rest;
    assert s[|q|] == id;
    assert forall i :: 0 <= i < |q| ==> s[i] == q[i];
    InsertSorted(m.recs, q, id);
    assert ([id] + rest)[1..] == rest;
    assert forall x :: x in q' + rest <==> x in s;
  }

  /** The erased timer and the others are the timers there were. */
  lemma Erased(recs: seq<Rec>, q: seq<nat>, k: nat)
    requires Known(recs, q) && Apart(recs, q) && k < |q|
    ensures Known(recs, Erase(q, k) + [q[k]]) && Apart(recs, Erase(q, k) + [q[k]])
    ensures forall x :: x in Erase(q, k) + [q[k]] <==> x in q
  {
    var s := Erase(q, k) + [q[k]];
    forall i | 0 <= i < |s| ensures s[i] == q[Back(|q|, k, i)] {
    }
    forall i, j | 0 <= i < |s| && 0 <= j < |s| && i != j
      ensures recs[s[i]].addr != recs[s[j]].addr
    {
      assert Back(|q|, k, i) != Back(|q|, k, j);
    }
    forall i | 0 <= i < |q| ensures q[i] in s {
      assert s[if i < k then i else if i == k then |q| - 1 else i - 1] == q[i];
    }
  }

  lemma TakeOut(m: Manager, k: nat)
    requires Inv(m) && k < |m.queue|
    ensures Mid(m.(queue := Erase(m.queue, k)), [m.queue[k]])
  {
    hide Account, Less;
    assert m.queue + [] == m.queue;
    Erased(m.recs, m.queue, k);
  }

  function Back(n: nat, k: nat, i: nat): nat {
    if i == n - 1 then k else if i < k then i else i + 1
  }

  /** A timer that is out of the set can be changed without disturbing it. */
  lemma Touch(m: Manager, id: nat, rest: seq<nat>, r: Rec)
    requires Mid(m, [id] + rest) && id < |m.recs|
    requires r.addr == m.recs[id].addr && Account(r, true)
    ensures Mid(m.(recs := m.recs[id := r]), [id] + rest)
  {
    OutIsOut(m, id, rest);
  }

  lemma Retire(m: Manager, id: nat, rest: seq<nat>, r: Rec)
    requires Mid(m, [id] + rest) && id < |m.recs|
    requires r.addr == m.recs[id].addr && Account(r, false)
    ensures Mid(m.(recs := m.recs[id := r]), rest)
  {
    OutIsOut(m, id, rest);
    var s, t := m.queue + ([id] + rest), m.queue + rest;
    forall i | 0 <= i < |t| ensures t[i] == s[if i < |m.queue| then i else i + 1] {
    }
    assert ([id] + rest)[1..] == rest;
    forall x | x != id ensures x in t <==> x in s {
    }
  }

  lemma OutIsOut(m: Manager, id: nat, rest: seq<nat>)
    requires Mid(m, [id] + rest)
    ensures id !in m.queue && id !in rest
  {
    var s := m.queue + ([id] + rest);
    assert s[|m.queue|] == id;
    forall i | 0 <= i < |m.queue| ensures m.queue[i] != id {
      assert s[i] == m.queue[i];
    }
    forall i | 0 <= i < |rest| ensures rest[i] != id {
      assert s[|m.queue| + 1 + i] == rest[i];
    }
  }

  /** find finds a waiting timer, itself and no other. */
  lemma FindFinds(m: Manager, id: nat)
    requires Inv(m) && id in m.queue
    ensures var k := Find(m.recs, m.queue, m.recs[id]); k < |m.queue| && m.queue[k] == id
  {
    var q := m.queue;
    assert q + [] == q;
    var j :| 0 <= j < |q| && q[j] == id;
    assert forall i :: 0 <= i < j ==> Less(m.recs[q[i]], m.recs[id]);
    assert !Less(m.recs[q[j]], m.recs[id]);
  }

  lemma MidOfInv(m: Manager)
    ensures m.queue + [] == m.queue
  {
  }

  // ---- every operation keeps the invariant -----------------------------

  /** A timer just created is out of the set. */
  lemma AddedOut(m: Manager, addr: nat, ms: nat, cb: Option<Callback>, recurring: bool, now: nat)
    requires Inv(m) && forall id <- m.queue :: id < |m.recs| && m.recs[id].addr != addr
    ensures var r := Rec(addr, recurring, cb.Some?, ms, Wrap(now + ms), cb, 0, false);
            Mid(m.(recs := m.recs + [r]), [|m.recs|]) && Known(m.recs + [r], m.queue)
  {
    var r := Rec(addr, recurring, cb.Some?, ms, Wrap(now + ms), cb, 0, false);
    assert m.queue + [] == m.queue;
    assert forall i :: 0 <= i < |m.recs| ==> (m.recs + [r])[i] == m.recs[i];
  }

  lemma AddKeeps(m: Manager, addr: nat, ms: nat, cb: Option<Callback>, recurring: bool, now: nat)
    requires Inv(m) && forall id <- m.queue :: id < |m.recs| && m.recs[id].addr != addr
    ensures Inv(Add(m, addr, ms, cb, recurring, now))
  {
    hide Mid, Enqueue, Wrap;
    AddedOut(m, addr, ms, cb, recurring, now);
    EnqueueKeeps(m.(recs := m.recs + [Rec(addr, recurring, cb.Some?, ms, Wrap(now + ms), cb, 0, false)]), |m.recs|);
  }

  lemma CancelKeeps(m: Manager, id: nat)
    requires Inv(m) && id < |m.recs|
    ensures Inv(Cancel(m, id).0)
    ensures Cancel(m, id).1 <==> m.recs[id].cb.Some?
    ensures Cancel(m, id).1 ==> id !in Cancel(m, id).0.queue
  {
    MidOfInv(m);
    if m.recs[id].cb.Some? {
      FindFinds(m, id);
      var k := Find(m.recs, m.queue, m.recs[id]);
      TakeOut(m, k);
      assert [id] + [] == [id];
      var out := m.(queue := Erase(m.queue, k));
      OutIsOut(out, id, []);
      Retire(out, id, [], m.recs[id].(cb := None, cancelled := true));
    }
  }

  /** Taking a waiting timer out and giving it another deadline. */
  lemma RetimeKeeps(m: Manager, id: nat, k: nat, ms: nat, next: nat)
    requires Inv(m) && k < |m.queue| && m.queue[k] == id && next < WORD
    ensures Mid(Retime(m, id, k, ms, next), [id])
  {
    MidOfInv(m);
    TakeOut(m, k);
    assert [id] + [] == [id];
    Touch(m.(queue := Erase(m.queue, k)), id, [], m.recs[id].(ms := ms, next := next));
  }

  lemma BackInSet(m: Manager, id: nat)
    requires Mid(m, [id]) && id < |m.recs|
    ensures Inv(m.(queue := Insert(m.recs, m.queue, id)))
  {
    assert [id] + [] == [id];
    PutIn(m, id, []);
  }

  lemma EnqueueKeeps(m: Manager, id: nat)
    requires Mid(m, [id]) && id < |m.recs|
    ensures Inv(Enqueue(m, id))
  {
    BackInSet(m, id);
    MidNotes(m.(queue := Insert(m.recs, m.queue, id)), Enqueue(m, id));
  }

  lemma MidNotes(m: Manager, m': Manager)
    requires Inv(m) && m' == m.(tickled := m'.tickled, notes := m'.notes)
    requires m'.notes == m'.notesSeen + if m'.tickled then 1 else 0
    ensures Inv(m')
  {
  }

  lemma FindIs(m: Manager, id: nat)
    requires Inv(m) && id < |m.recs| && m.recs[id].cb.Some?
    ensures var k := Find(m.recs, m.queue, m.recs[id]); k < |m.queue| && m.queue[k] == id
  {
    MidOfInv(m);
    FindFinds(m, id);
  }

  /** A timer with a callback is taken out of the set, retimed and put back. */
  lemma RetimedBack(m: Manager, id: nat, ms: nat, next: nat)
    requires Inv(m) && id < |m.recs| && m.recs[id].cb.Some? && next < WORD
    ensures var k := Find(m.recs, m.queue, m.recs[id]);
            && k < |m.queue| && m.queue[k] == id
            && Inv(Enqueue(Retime(m, id, k, ms, next), id))
            && var out := Retime(m, id, k, ms, next);
               Inv(out.(queue := Insert(out.recs, out.queue, id)))
  {
    hide Mid, Find, Insert, Enqueue;
    KnownOfMid(m, []);
    FindIs(m, id);
    var k := Find(m.recs, m.queue, m.recs[id]);
    RetimeKeeps(m, id, k, ms, next);
    EnqueueKeeps(Retime(m, id, k, ms, next), id);
    BackInSet(Retime(m, id, k, ms, next), id);
  }

  lemma RefreshKeeps(m: Manager, id: nat, now: nat)
    requires Inv(m) && id < |m.recs|
    ensures Inv(Refresh(m, id, now).0) && (Refresh(m, id, now).1 <==> m.recs[id].cb.Some?)
  {
    hide Inv, Find, Insert, Retime, Wrap;
    if m.recs[id].cb.Some? {
      RetimedBack(m, id, m.recs[id].ms, Wrap(now + m.recs[id].ms));
    }
  }

  lemma ResetKeeps(m: Manager, id: nat, ms: nat, fromNow: bool, now: nat)
    requires Inv(m) && id < |m.recs|
    ensures Inv(Reset(m, id, ms, fromNow, now).0)
  {
    hide Inv, Find, Enqueue, Retime, Wrap;
    var r := m.recs[id];
    if r.cb.Some? {
      var start := if fromNow then now else Wrap(r.next - r.ms);
      RetimedBack(m, id, ms, Wrap(start + ms));
    }
  }

  /** Handing out the callback keeps the account: a recurring timer waits on, a
      one-shot timer with a callback has now fired once. */
  lemma FiredAccount(r: Rec, now: nat)
    requires Account(r, true)
    ensures Account(Fired(r, now), r.recurring) && Fired(r, now).addr == r.addr
  {
  }

  lemma OutAccount(m: Manager, id: nat, rest: seq<nat>)
    requires Mid(m, [id] + rest)
    ensures Known(m.recs, m.queue) && id < |m.recs| && Account(m.recs[id], true)
  {
    assert (m.queue + ([id] + rest))[|m.queue|] == id;
  }

  lemma FireKeeps(m: Manager, id: nat, rest: seq<nat>, now: nat)
    requires Mid(m, [id] + rest) && id < |m.recs|
    ensures Mid(Fire(m, id, now), rest)
  {
    hide Mid, Insert, Account, Fired;
    OutAccount(m, id, rest);
    var r := m.recs[id];
    FiredAccount(r, now);
    if r.recurring {
      Rearm(m, id, rest, Fired(r, now));
    } else {
      Retire(m, id, rest, Fired(r, now));
    }
  }

  lemma Rearm(m: Manager, id: nat, rest: seq<nat>, r: Rec)
    requires Mid(m, [id] + rest) && id < |m.recs|
    requires r.addr == m.recs[id].addr && Account(r, true)
    ensures var recs := m.recs[id := r]; Mid(m.(recs := recs, queue := Insert(recs, m.queue, id)), rest)
  {
    Touch(m, id, rest, r);
    PutIn(m.(recs := m.recs[id := r]), id, rest);
  }

  lemma {:induction false} FireAllKeeps(m: Manager, ids: seq<nat>, rest: seq<nat>, now: nat)
    requires Mid(m, ids + rest) && Known(m.recs, ids)
    ensures Mid(FireAll(m, ids, now), rest)
    decreases |ids|
  {
    if ids == [] {
      assert ids + rest == rest;
    } else {
      var n := |ids| - 1;
      assert ids + rest == ids[..n] + ([ids[n]] + rest);
      FireAllKeeps(m, ids[..n], [ids[n]] + rest, now);
      FireKeeps(FireAll(m, ids[..n], now), ids[n], rest, now);
    }
  }

  lemma ExpireKeeps(m: Manager, now: nat)
    requires Inv(m)
    ensures Inv(Expire(m, now).0)
  {
    hide Mid, Fired, Rollover, Insert;
    KnownOfMid(m, []);
    var k := Expiring(m, now);
    Halved(m, k, now);
    FireAllKeeps(m.(queue := m.queue[k..], previous := now), m.queue[..k], [], now);
  }

  lemma Rotated(recs: seq<Rec>, a: seq<nat>, b: seq<nat>)
    requires Known(recs, a + b) && Apart(recs, a + b)
    ensures Known(recs, b + a) && Apart(recs, b + a)
    ensures forall x :: x in b + a <==> x in a + b
  {
    var s, t := a + b, b + a;
    forall i | 0 <= i < |t| ensures t[i] == s[if i < |b| then |a| + i else i - |b|] {
    }
  }

  // ---- expiry ----------------------------------------------------------

  /** What handing out the callbacks of `ids` does to every timer. */
  lemma {:induction false} FireAllEffect(m: Manager, ids: seq<nat>, rest: seq<nat>, now: nat)
    requires Mid(m, ids + rest) && Known(m.recs, ids)
    ensures var m' := FireAll(m, ids, now);
            forall j :: 0 <= j < |m.recs| ==>
              && m'.recs[j] == (if j in ids then Fired(m.recs[j], now) else m.recs[j])
              && (j in m'.queue <==> j in m.queue || (j in ids && m.recs[j].recurring))
    decreases |ids|
  {
    hide Mid, Insert, Fired;
    if ids != [] {
      var n := |ids| - 1;
      var before, id := ids[..n], ids[n];
      assert ids == before + [id];
      assert ids + rest == before + ([id] + rest);
      KnownOfMid(m, ids + rest);
      FireAllEffect(m, before, [id] + rest, now);
      FireAllKeeps(m, before, [id] + rest, now);
      LastIsNew(m, before, id, rest);
      InsertMembers(FireAll(m, ids, now).recs, FireAll(m, before, now).queue, id);
    }
  }

  lemma KnownOfMid(m: Manager, out: seq<nat>)
    requires Mid(m, out)
    ensures Known(m.recs, m.queue)
  {
  }

  lemma LastIsNew(m: Manager, before: seq<nat>, id: nat, rest: seq<nat>)
    requires Mid(m, before + ([id] + rest))
    ensures id !in before
  {
    var s := m.queue + (before + ([id] + rest));
    assert s[|m.queue| + |before|] == id;
    forall i | 0 <= i < |before| ensures before[i] != id {
      assert s[|m.queue| + i] == before[i];
    }
  }

  lemma InsertMembers(recs: seq<Rec>, q: seq<nat>, id: nat)
    requires Known(recs, q) && id < |recs|
    ensures forall x :: x in Insert(recs, q, id) <==> x == id || x in q
  {
    var k := LowerBound(recs, q, recs[id]);
    assert q == q[..k] + q[k..];
  }

  /** Without rollover exactly the timers due at `now` are taken out, on
      rollover all. */
  lemma ExpiredAreDue(m: Manager, now: nat)
    requires Inv(m) && m.queue != []
    ensures Known(m.recs, m.queue)
    ensures var expired := m.queue[..Expiring(m, now)];
            && (forall j <- m.queue :: j in expired <==> Rollover(m.previous, now) || m.recs[j].next <= now)
            && (forall j <- expired :: j !in m.queue[|expired|..])
  {
    hide Account, Rollover, Expiring, Less, Sorted;
    MidOfInv(m);
    var k := Expiring(m, now);
    var q, ids := m.queue[k..], m.queue[..k];
    assert m.queue == ids + q;
    DistinctParts(ids, q);
    forall i | 0 <= i < |m.queue|
      ensures m.queue[i] in ids <==> Rollover(m.previous, now) || m.recs[m.queue[i]].next <= now
    {
      assert i < k ==> m.queue[i] == ids[i];
      assert i >= k ==> m.queue[i] == q[i - k];
      DueByPlace(m, now, i);
    }
  }

  /** The timers before the place where the search ends are the due ones. */
  lemma DueByPlace(m: Manager, now: nat, i: nat)
    requires Inv(m) && i < |m.queue|
    ensures i < Expiring(m, now) <==> Rollover(m.previous, now) || m.recs[m.queue[i]].next <= now
  {
    hide Account, Rollover, Apart;
    var k := Expiring(m, now);
    assert i > k ==> Less(m.recs[m.queue[k]], m.recs[m.queue[i]]);
  }

  lemma DistinctParts(a: seq<nat>, b: seq<nat>)
    requires forall i, j :: 0 <= i < j < |a + b| ==> (a + b)[i] != (a + b)[j]
    ensures forall j <- a :: j !in b
  {
    forall i, j | 0 <= i < |a| && 0 <= j < |b| ensures a[i] != b[j] {
      assert (a + b)[i] == a[i] && (a + b)[|a| + j] == b[j];
    }
  }

  /** listExpiredCb: exactly the due timers hand out their callbacks, one each
      and in set order; the recurring ones wait on, a period from now, the
      others are retired; every other timer stays as it is. */
  lemma ExpireExact(m: Manager, now: nat)
    requires Inv(m) && m.queue != []
    ensures Known(m.recs, m.queue)
    ensures var (m', cbs) := Expire(m, now);
            var expired := m.queue[..Expiring(m, now)];
            && m'.previous == now
            && (forall j <- m.queue :: j in expired <==> Rollover(m.previous, now) || m.recs[j].next <= now)
            && |cbs| == |expired| && (forall i :: 0 <= i < |cbs| ==> cbs[i] == m.recs[expired[i]].cb)
            && (forall j :: 0 <= j < |m.recs| ==>
                  && m'.recs[j] == (if j in expired then Fired(m.recs[j], now) else m.recs[j])
                  && (j in m'.queue <==> j in m.queue && (j in expired ==> m.recs[j].recurring)))
  {
    hide Fired, Mid, Rollover, Expiring;
    ExpiredAreDue(m, now);
    Halved(m, Expiring(m, now), now);
    var k := Expiring(m, now);
    var q, ids := m.queue[k..], m.queue[..k];
    assert forall x :: x in m.queue <==> x in ids || x in q by {
      assert m.queue == ids + q;
    }
    FireAllEffect(m.(queue := q, previous := now), ids, [], now);
    FireAllPrevious(m.(queue := q, previous := now), ids, now);
  }

  lemma Halved(m: Manager, k: nat, now: nat)
    requires Inv(m) && k <= |m.queue|
    ensures Known(m.recs, m.queue[..k]) && Known(m.recs, m.queue[k..])
    ensures m.queue[..k] + [] == m.queue[..k]
    ensures Mid(m.(queue := m.queue[k..], previous := now), m.queue[..k])
  {
    hide Account, Less;
    MidOfInv(m);
    var q, ids := m.queue[k..], m.queue[..k];
    assert m.queue == ids + q;
    Rotated(m.recs, ids, q);
  }

  lemma {:induction false} FireAllPrevious(m: Manager, ids: seq<nat>, now: nat)
    requires Known(m.recs, m.queue) && Known(m.recs, ids)
    ensures var m' := FireAll(m, ids, now);
            && m'.previous == m.previous && m'.tickled == m.tickled
            && m'.seen == m.seen && m'.notes == m.notes && m'.notesSeen == m.notesSeen
    decreases |ids|
  {
    hide Fired, Insert;
    if ids != [] {
      FireAllPrevious(m, ids[..|ids| - 1], now);
    }
  }

  // ---- notification ----------------------------------------------------

  /** The earliest deadline. */
  function First(m: Manager): Option<nat>
    requires Known(m.recs, m.queue)
  {
    if m.queue == [] then None else Some(m.recs[m.queue[0]].next)
  }

  /** Deadline `a` comes before `b`; None is no deadline at all. */
  predicate Earlier(a: Option<nat>, b: Option<nat>) {
    a.Some? && (b.None? || a.value < b.value)
  }

  /** If the earliest deadline comes before the one the last getNextTimer saw,
      there was a notification since. */
  ghost predicate NoMissed(m: Manager)
    requires Known(m.recs, m.queue)
  {
    Earlier(First(m), m.seen) ==> m.tickled && m.notes > m.notesSeen
  }

  /** A deadline would come before the one last seen, and nobody has been told
      of an earlier one since. */
  predicate Sneaks(m: Manager, next: nat) {
    !m.tickled && Earlier(Some(next), m.seen)
  }

  /** Without a notification since, the first deadline is the one last seen, or a
      later one. */
  lemma NotTold(m: Manager)
    requires Inv(m) && Known(m.recs, m.queue)
    ensures NoMissed(m) <==> m.tickled || !Earlier(First(m), m.seen)
  {
  }

  lemma FirstIsLeast(m: Manager, j: nat)
    requires Inv(m) && Known(m.recs, m.queue) && j in m.queue
    ensures First(m).Some? && First(m).value <= m.recs[j].next
  {
    var i :| 0 <= i < |m.queue| && m.queue[i] == j;
    assert i > 0 ==> Less(m.recs[m.queue[0]], m.recs[m.queue[i]]);
  }

  /** addTimer's notification: the set's first deadline is the old one, or
      somebody was told of the new one. */
  lemma EnqueueTells(m: Manager, id: nat)
    requires Mid(m, [id]) && id < |m.recs| && Known(m.recs, m.queue) && NoMissed(m)
    ensures Known(Enqueue(m, id).recs, Enqueue(m, id).queue) && NoMissed(Enqueue(m, id))
  {
  }

  /** Erasing brings no deadline forward. */
  lemma EraseNotForward(m: Manager, k: nat)
    requires Inv(m) && Known(m.recs, m.queue) && k < |m.queue|
    ensures var m' := m.(queue := Erase(m.queue, k));
            Known(m'.recs, m'.queue) && !Earlier(First(m'), First(m)) && (First(m).None? ==> First(m').None?)
  {
    assert |m.queue| > 1 ==> Less(m.recs[m.queue[0]], m.recs[m.queue[1]]);
  }

  lemma AddTells(m: Manager, addr: nat, ms: nat, cb: Option<Callback>, recurring: bool, now: nat)
    requires Inv(m) && Known(m.recs, m.queue) && NoMissed(m) && forall id <- m.queue :: m.recs[id].addr != addr
    ensures var m' := Add(m, addr, ms, cb, recurring, now); Known(m'.recs, m'.queue) && NoMissed(m')
  {
    hide Mid, Inv, Enqueue, Wrap;
    AddedOut(m, addr, ms, cb, recurring, now);
    EnqueueTells(m.(recs := m.recs + [Rec(addr, recurring, cb.Some?, ms, Wrap(now + ms), cb, 0, false)]), |m.recs|);
  }

  /** A timer taken out and retimed, before it goes back. */
  lemma RetimedOut(m: Manager, id: nat, ms: nat, next: nat)
    requires Inv(m) && id < |m.recs| && m.recs[id].cb.Some? && next < WORD
    ensures Known(m.recs, m.queue)
    ensures var k := Find(m.recs, m.queue, m.recs[id]);
            && k < |m.queue| && m.queue[k] == id
            && var out := Retime(m, id, k, ms, next);
               && Mid(out, [id]) && Known(out.recs, out.queue) && !Earlier(First(out), First(m))
               && (First(m).None? ==> First(out).None?)
  {
    hide Mid, Find, First;
    KnownOfMid(m, []);
    FindIs(m, id);
    var k := Find(m.recs, m.queue, m.recs[id]);
    RetimeKeeps(m, id, k, ms, next);
    RestNotForward(m, id, k, ms, next);
  }

  /** The timers that stay are as they were. */
  lemma RestNotForward(m: Manager, id: nat, k: nat, ms: nat, next: nat)
    requires Inv(m) && id < |m.recs| && Known(m.recs, m.queue) && k < |m.queue| && m.queue[k] == id
    requires Mid(Retime(m, id, k, ms, next), [id])
    ensures var out := Retime(m, id, k, ms, next);
            Known(out.recs, out.queue) && !Earlier(First(out), First(m)) && (First(m).None? ==> First(out).None?)
  {
    hide Mid;
    var out := Retime(m, id, k, ms, next);
    assert [id] + [] == [id];
    KnownOfMid(out, [id]);
    OutIsOut(out, id, []);
    EraseNotForward(m, k);
    assert out.queue != [] ==> out.queue[0] in out.queue;
  }

  /** Whether nothing is missed depends on the first deadline alone. */
  lemma MissedByFirst(m: Manager, m': Manager)
    requires Known(m.recs, m.queue) && Known(m'.recs, m'.queue) && NoMissed(m)
    requires m'.seen == m.seen && m'.tickled == m.tickled && m'.notes == m.notes && m'.notesSeen == m.notesSeen
    requires !Earlier(First(m'), First(m)) && (First(m).None? ==> First(m').None?)
    ensures NoMissed(m')
  {
  }

  lemma CancelTells(m: Manager, id: nat)
    requires Inv(m) && Known(m.recs, m.queue) && NoMissed(m) && id < |m.recs|
    ensures var m' := Cancel(m, id).0; Known(m'.recs, m'.queue) && NoMissed(m')
  {
    hide Mid, Find;
    CancelKeeps(m, id);
    KnownOfMid(Cancel(m, id).0, []);
    if m.recs[id].cb.Some? {
      FindIs(m, id);
      var k := Find(m.recs, m.queue, m.recs[id]);
      EraseNotForward(m, k);
      MissedByFirst(m, Cancel(m, id).0);
    }
  }

  /** reset goes through addTimer, which notifies. */
  lemma ResetTells(m: Manager, id: nat, ms: nat, fromNow: bool, now: nat)
    requires Inv(m) && Known(m.recs, m.queue) && NoMissed(m) && id < |m.recs|
    ensures var m' := Reset(m, id, ms, fromNow, now).0; Known(m'.recs, m'.queue) && NoMissed(m')
  {
    hide Mid, Inv, Find, Enqueue, Wrap, First, NoMissed, Earlier, Retime;
    var r := m.recs[id];
    if r.cb.Some? && !(ms == r.ms && !fromNow) {
      var next := Wrap((if fromNow then now else Wrap(r.next - r.ms)) + ms);
      RetimedOut(m, id, ms, next);
      var out := Retime(m, id, Find(m.recs, m.queue, r), ms, next);
      RetimeSame(m, id, Find(m.recs, m.queue, r), ms, next);
      MissedByFirst(m, out);
      EnqueueTells(out, id);
    }
  }

  lemma RetimeSame(m: Manager, id: nat, k: nat, ms: nat, next: nat)
    requires id < |m.recs| && k < |m.queue|
    ensures var out := Retime(m, id, k, ms, next);
            && out.seen == m.seen && out.tickled == m.tickled && out.notes == m.notes && out.notesSeen == m.notesSeen
            && |out.recs| == |m.recs| && out.recs[id].next == next
  {
  }

  /** A timer put back without a notification: the first deadline is its own, or
      that of the others. */
  lemma InsertFirst(m: Manager, id: nat)
    requires Mid(m, [id]) && Known(m.recs, m.queue) && id < |m.recs|
    ensures var m' := m.(queue := Insert(m.recs, m.queue, id));
            && (First(m') == First(m) || First(m') == Some(m.recs[id].next))
            && First(m').Some? && First(m').value <= m.recs[id].next
  {
    BackInSet(m, id);
    var m' := m.(queue := Insert(m.recs, m.queue, id));
    InsertMembers(m.recs, m.queue, id);
    FirstIsLeast(m', id);
  }

  /** refresh does not notify: it misses exactly when the new deadline comes
      before the one last seen and nobody was told of an earlier one. */
  lemma RefreshMisses(m: Manager, id: nat, now: nat)
    requires Inv(m) && Known(m.recs, m.queue) && NoMissed(m) && id < |m.recs|
    ensures var m' := Refresh(m, id, now).0;
            && Known(m'.recs, m'.queue)
            && (NoMissed(m') <==> !(m.recs[id].cb.Some? && Sneaks(m, Wrap(now + m.recs[id].ms))))
  {
    hide Mid, Inv, Find, Wrap, Insert, First, Retime, Earlier;
    var r := m.recs[id];
    RefreshKeeps(m, id, now);
    if r.cb.Some? {
      var next := Wrap(now + r.ms);
      RetimedOut(m, id, r.ms, next);
      var k := Find(m.recs, m.queue, r);
      var out := Retime(m, id, k, r.ms, next);
      RetimeSame(m, id, k, r.ms, next);
      InsertFirst(out, id);
      BackMisses(m, out, out.(queue := Insert(out.recs, out.queue, id)), next);
    }
  }

  lemma BackMisses(m: Manager, out: Manager, m': Manager, next: nat)
    requires Known(m.recs, m.queue) && Known(out.recs, out.queue) && Known(m'.recs, m'.queue) && NoMissed(m)
    requires Inv(m) && Inv(m')
    requires m'.seen == m.seen && m'.tickled == m.tickled && m'.notes == m.notes && m'.notesSeen == m.notesSeen
    requires !Earlier(First(out), First(m)) && (First(m).None? ==> First(out).None?)
    requires First(m') == First(out) || First(m') == Some(next)
    requires First(m').Some? && First(m').value <= next
    ensures NoMissed(m') <==> !Sneaks(m, next)
  {
    hide Inv, First;
    NotTold(m);
    NotTold(m');
  }

  /** listExpiredCb takes the timer out. */
  predicate Due(m: Manager, j: nat, now: nat)
    requires j < |m.recs|
  {
    Rollover(m.previous, now) || m.recs[j].next <= now
  }

  /** Some timer is due, recurring, and re-armed to a deadline of this kind. */
  ghost predicate Rearms(m: Manager, now: nat, bad: nat -> bool)
    requires Known(m.recs, m.queue)
  {
    exists j :: j in m.queue && Due(m, j, now) && m.recs[j].recurring && bad(Wrap(now + m.recs[j].ms))
  }

  /** What waits after listExpiredCb: the timers that were not due, as they were,
      and the recurring ones that were, a period from now. */
  lemma LeftWaiting(m: Manager, now: nat)
    requires Inv(m) && Known(m.recs, m.queue) && m.queue != []
    ensures var m' := Expire(m, now).0;
            && Inv(m') && Known(m'.recs, m'.queue) && |m'.recs| == |m.recs|
            && m'.tickled == m.tickled && m'.seen == m.seen
            && (forall j :: j in m'.queue <==> j in m.queue && (Due(m, j, now) ==> m.recs[j].recurring))
            && (forall j <- m'.queue ::
                  && m'.recs[j].ms == m.recs[j].ms
                  && m'.recs[j].next == if Due(m, j, now) then Wrap(now + m.recs[j].ms) else m.recs[j].next)
  {
    hide Mid, Rollover, Expiring, FireAll, Less, Insert;
    ExpireKeeps(m, now);
    ExpireExact(m, now);
    Halved(m, Expiring(m, now), now);
    var m' := Expire(m, now).0;
    KnownOfMid(m', []);
    FireAllPrevious(m.(queue := m.queue[Expiring(m, now)..], previous := now), m.queue[..Expiring(m, now)], now);
  }

  /** listExpiredCb re-arms timers without notifying: it misses exactly when a
      recurring timer it takes out is re-armed to a deadline before the one last
      seen and nobody was told of an earlier one. */
  lemma ExpireMisses(m: Manager, now: nat)
    requires Inv(m) && Known(m.recs, m.queue) && NoMissed(m)
    ensures var m' := Expire(m, now).0;
            Known(m'.recs, m'.queue) && (NoMissed(m') <==> !Rearms(m, now, (next: nat) => Sneaks(m, next)))
  {
    hide Inv, Expire, Due, Wrap, NoMissed;
    if m.queue == [] {
      ExpireNothing(m, now);
    } else {
      LeftWaiting(m, now);
      var m' := Expire(m, now).0;
      NotTold(m);
      NotTold(m');
      if m'.queue != [] {
        var j := m'.queue[0];
        FirstIsLeast(m, j);
      }
      forall j | j in m'.queue ensures First(m').Some? && First(m').value <= m'.recs[j].next {
        FirstIsLeast(m', j);
      }
    }
  }

  lemma ExpireNothing(m: Manager, now: nat)
    requires m.queue == []
    ensures Expire(m, now) == (m, [])
  {
  }

  /** After listExpiredCb there is nothing to wait for at the same clock exactly
      when a recurring timer it took out was re-armed to a deadline that has
      passed: its period is zero or the sum wraps around. */
  lemma NothingDueLeft(m: Manager, now: nat)
    requires Inv(m) && Known(m.recs, m.queue)
    ensures var m' := Expire(m, now).0;
            Known(m'.recs, m'.queue) && (GetNext(m', now).1 == 0 <==> Rearms(m, now, (next: nat) => next <= now))
  {
    hide Inv, Expire, Wrap;
    if m.queue == [] {
      ExpireNothing(m, now);
    } else {
      LeftWaiting(m, now);
      var m' := Expire(m, now).0;
      forall j | j in m'.queue ensures First(m').Some? && First(m').value <= m'.recs[j].next {
        FirstIsLeast(m', j);
      }
      assert m'.queue != [] ==> m'.queue[0] in m'.queue;
    }
  }

  /** So with positive periods in the range of the clock there is time to wait. */
  lemma PositivePeriodsLeaveTime(m: Manager, now: nat)
    requires Inv(m) && Known(m.recs, m.queue)
    requires forall j <- m.queue :: Due(m, j, now) && m.recs[j].recurring ==>
               m.recs[j].ms > 0 && now + m.recs[j].ms < WORD
    ensures var m' := Expire(m, now).0; Known(m'.recs, m'.queue) && GetNext(m', now).1 > 0
  {
    hide Inv, Expire, GetNext;
    NothingDueLeft(m, now);
  }

  // ---- what the operations do, in plain numbers -------------------------

  /** Timer `id` would come first in the set. */
  predicate Leads(m: Manager, addr: nat, next: nat)
    requires Known(m.recs, m.queue)
  {
    forall j <- m.queue :: next < m.recs[j].next || (next == m.recs[j].next && addr < m.recs[j].addr)
  }

  lemma FrontIs(m: Manager, id: nat)
    requires Mid(m, [id]) && id < |m.recs| && Known(m.recs, m.queue)
    ensures Insert(m.recs, m.queue, id)[0] == id <==> Leads(m, m.recs[id].addr, m.recs[id].next)
  {
    hide Account;
    var q := m.queue;
    assert [id] + [] == [id];
    OutIsOut(m, id, []);
    forall i | 0 <= i < |q| ensures m.recs[q[i]].addr != m.recs[id].addr {
      assert (q + [id])[i] == q[i] && (q + [id])[|q|] == id;
    }
    if q != [] && Less(m.recs[id], m.recs[q[0]]) {
      forall j | j in q ensures Less(m.recs[id], m.recs[j]) {
        var i :| 0 <= i < |q| && q[i] == j;
        assert i > 0 ==> Less(m.recs[q[0]], m.recs[q[i]]);
      }
    }
    assert q != [] ==> q[0] in q;
  }

  /** A timer that comes first and finds nobody told makes the one notification
      there is. */
  predicate Notified(m: Manager, m': Manager, first: bool) {
    && m'.tickled == (m.tickled || first)
    && m'.notes == m.notes + (if first && !m.tickled then 1 else 0)
    && m'.seen == m.seen && m'.notesSeen == m.notesSeen && m'.previous == m.previous
  }

  lemma EnqueueIs(m: Manager, id: nat)
    requires Mid(m, [id]) && id < |m.recs| && Known(m.recs, m.queue)
    ensures var m' := Enqueue(m, id);
            && m'.recs == m.recs && (forall x :: x in m'.queue <==> x == id || x in m.queue)
            && Notified(m, m', Leads(m, m.recs[id].addr, m.recs[id].next))
  {
    hide Mid, Insert, Leads;
    FrontIs(m, id);
    InsertMembers(m.recs, m.queue, id);
  }

  /** addTimer: a new timer waits with the deadline now + ms in 64 bits, whoever
      waits already goes on waiting as it was, and there is one notification if
      the new timer comes first and nobody was told since the last
      getNextTimer, and none otherwise. */
  lemma AddExact(m: Manager, addr: nat, ms: nat, cb: Option<Callback>, recurring: bool, now: nat)
    requires Inv(m) && Known(m.recs, m.queue) && forall j <- m.queue :: m.recs[j].addr != addr
    ensures var m' := Add(m, addr, ms, cb, recurring, now);
            var next := (now + ms) % 0x1_0000_0000_0000_0000;
            && m'.recs == m.recs + [Rec(addr, recurring, cb.Some?, ms, next, cb, 0, false)]
            && (forall x :: x in m'.queue <==> x == |m.recs| || x in m.queue)
            && Notified(m, m', Leads(m, addr, next))
  {
    hide Mid, Enqueue, Leads;
    AddedOut(m, addr, ms, cb, recurring, now);
    var out := m.(recs := m.recs + [Rec(addr, recurring, cb.Some?, ms, Wrap(now + ms), cb, 0, false)]);
    EnqueueIs(out, |m.recs|);
    assert Leads(out, addr, Wrap(now + ms)) == Leads(m, addr, Wrap(now + ms)) by {
      LeadsSame(m, out, addr, Wrap(now + ms));
    }
  }

  lemma LeadsSame(m: Manager, m': Manager, addr: nat, next: nat)
    requires Known(m.recs, m.queue) && Known(m'.recs, m'.queue) && m'.queue == m.queue
    requires forall j <- m.queue :: m'.recs[j] == m.recs[j]
    ensures Leads(m', addr, next) == Leads(m, addr, next)
  {
  }

  /** The timers other than `id` wait and are as they were; `id` waits with
      another period and deadline. */
  ghost predicate Rearmed(m: Manager, m': Manager, id: nat, ms: nat, next: nat)
    requires id < |m.recs|
  {
    && m'.recs == m.recs[id := m.recs[id].(ms := ms, next := next)]
    && id in m'.queue && forall x :: x != id ==> (x in m'.queue <==> x in m.queue)
  }

  /** It comes before all others in the set. */
  predicate LeadsOthers(m: Manager, id: nat, addr: nat, next: nat)
    requires Known(m.recs, m.queue)
  {
    forall j <- m.queue :: j != id ==> next < m.recs[j].next || (next == m.recs[j].next && addr < m.recs[j].addr)
  }

  /** refresh: a timer that still has its callback waits with the deadline now +
      period, and nobody is notified; any other is left alone. */
  lemma RefreshExact(m: Manager, id: nat, now: nat)
    requires Inv(m) && Known(m.recs, m.queue) && id < |m.recs|
    ensures var (m', done) := Refresh(m, id, now);
            && (done <==> m.recs[id].cb.Some?) && (!done ==> m' == m)
            && (done ==>
                  && Rearmed(m, m', id, m.recs[id].ms, (now + m.recs[id].ms) % 0x1_0000_0000_0000_0000)
                  && Notified(m, m', false))
  {
    hide Mid, Insert, Find, Less, Account;
    RefreshKeeps(m, id, now);
    if m.recs[id].cb.Some? {
      var ms, next := m.recs[id].ms, Wrap(now + m.recs[id].ms);
      RetimedOut(m, id, ms, next);
      var k := Find(m.recs, m.queue, m.recs[id]);
      var out := Retime(m, id, k, ms, next);
      ErasedMembers(m, k);
      InsertMembers(out.recs, out.queue, id);
    }
  }

  lemma ErasedMembers(m: Manager, k: nat)
    requires Inv(m) && Known(m.recs, m.queue) && k < |m.queue|
    ensures forall x :: x in Erase(m.queue, k) <==> x in m.queue && x != m.queue[k]
  {
    hide Account, Less;
    TakeOut(m, k);
    assert [m.queue[k]] + [] == [m.queue[k]];
    OutIsOut(m.(queue := Erase(m.queue, k)), m.queue[k], []);
    Erased(m.recs, m.queue, k) by {
      assert m.queue + [] == m.queue;
    }
    var q := Erase(m.queue, k);
    assert forall x :: x in q + [m.queue[k]] <==> x in q || x == m.queue[k];
  }

  /** reset: a timer that still has its callback gets the new period; it waits
      with the deadline now + ms, or, unless it starts from now, with its old
      deadline moved by the difference of the periods; one notification if it then
      comes first and nobody was told. The same period from the old start changes
      nothing and succeeds; without a callback it fails and changes nothing. */
  lemma ResetExact(m: Manager, id: nat, ms: nat, fromNow: bool, now: nat)
    requires Inv(m) && Known(m.recs, m.queue) && id < |m.recs|
    ensures var (m', done) := Reset(m, id, ms, fromNow, now);
            var r := m.recs[id];
            var next := (if fromNow then now + ms else r.next - r.ms + ms) % 0x1_0000_0000_0000_0000;
            if ms == r.ms && !fromNow then m' == m && done
            else if r.cb == None then m' == m && !done
            else done && Rearmed(m, m', id, ms, next) && Notified(m, m', LeadsOthers(m, id, r.addr, next))
  {
    hide Mid, Insert, Find, Less, Account, Enqueue, Wrap, Retime, Notified, LeadsOthers, First, Erase;
    var r := m.recs[id];
    if r.cb.Some? && !(ms == r.ms && !fromNow) {
      var next := Wrap((if fromNow then now else Wrap(r.next - r.ms)) + ms);
      StartIs(r.next, r.ms, ms, now, fromNow);
      RetimedOut(m, id, ms, next);
      var k := Find(m.recs, m.queue, r);
      var out := Retime(m, id, k, ms, next);
      RetimedRest(m, id, k, ms, next);
      EnqueueIs(out, id);
      ErasedMembers(m, k);
      OthersLead(m, out, id, r.addr, next);
    }
  }

  /** Retiming tells nobody. */
  lemma RetimedRest(m: Manager, id: nat, k: nat, ms: nat, next: nat)
    requires id < |m.recs| && k < |m.queue|
    ensures var out := Retime(m, id, k, ms, next);
            && out.recs == m.recs[id := m.recs[id].(ms := ms, next := next)] && out.queue == Erase(m.queue, k)
            && |out.recs| == |m.recs| && out.recs[id].addr == m.recs[id].addr && out.recs[id].next == next
            && forall m', first :: Notified(out, m', first) == Notified(m, m', first)
  {
  }

  lemma OthersLead(m: Manager, out: Manager, id: nat, addr: nat, next: nat)
    requires Known(m.recs, m.queue) && Known(out.recs, out.queue)
    requires forall x :: x in out.queue <==> x in m.queue && x != id
    requires forall j <- out.queue :: out.recs[j] == m.recs[j]
    ensures Leads(out, addr, next) == LeadsOthers(m, id, addr, next)
  {
  }

  lemma StartIs(next: nat, period: nat, ms: nat, now: nat, fromNow: bool)
    ensures Wrap((if fromNow then now else Wrap(next - period)) + ms)
            == (if fromNow then now + ms else next - period + ms) % 0x1_0000_0000_0000_0000
  {
  }

  /** cancel: a timer that still has its callback loses it and waits no longer;
      all others are as they were. */
  lemma CancelExact(m: Manager, id: nat)
    requires Inv(m) && Known(m.recs, m.queue) && id < |m.recs|
    ensures var (m', done) := Cancel(m, id);
            && (done <==> m.recs[id].cb.Some?) && (!done ==> m' == m)
            && (done ==>
                  && m'.recs == m.recs[id := m.recs[id].(cb := None, cancelled := true)]
                  && (forall x :: x in m'.queue <==> x in m.queue && x != id)
                  && Notified(m, m', false))
  {
    hide Mid, Find, Less, Account;
    if m.recs[id].cb.Some? {
      FindIs(m, id);
      ErasedMembers(m, Find(m.recs, m.queue, m.recs[id]));
    }
  }

  /** getNextTimer: with nothing waiting all ones, with a timer that is due 0, and
      otherwise the time to the earliest deadline; the set stays as it is, and the
      next timer to come first is told of again. */
  lemma GetNextExact(m: Manager, now: nat)
    requires Inv(m) && Known(m.recs, m.queue)
    ensures var (m', wait) := GetNext(m, now);
            && m'.recs == m.recs && m'.queue == m.queue && !m'.tickled
            && (m.queue == [] ==> wait == 0xFFFF_FFFF_FFFF_FFFF)
            && (forall j <- m.queue :: wait == 0 || now + wait <= m.recs[j].next)
            && (m.queue != [] ==> exists j <- m.queue :: if m.recs[j].next <= now then wait == 0
                                                         else now + wait == m.recs[j].next)
  {
    hide Mid;
    forall j | j in m.queue ensures First(m).Some? && First(m).value <= m.recs[j].next {
      FirstIsLeast(m, j);
    }
    assert m.queue != [] ==> m.queue[0] in m.queue;
  }

  // ---- when a timer was armed ------------------------------------------

  /** The clock a deadline was reckoned from. */
  function ArmedAt(r: Rec): nat {
    Wrap(r.next - r.ms)
  }

  /** Every waiting timer was armed at a time that has passed. */
  ghost predicate Timely(m: Manager, clock: nat)
    requires Known(m.recs, m.queue)
  {
    forall j <- m.queue :: ArmedAt(m.recs[j]) <= clock
  }

  lemma WrapIs(n: int, k: int)
    requires 0 <= n + k * WORD < WORD
    ensures Wrap(n) == n + k * WORD
  {
  }

  /** Under wrap-around, too, a deadline remembers when it was reckoned. */
  lemma ArmedBack(start: nat, ms: nat)
    requires start < WORD
    ensures Wrap(Wrap(start + ms) - ms) == start
  {
    hide Wrap;
    var q := (start + ms) / WORD;
    WrapIs(start + ms, -q);
    WrapIs(Wrap(start + ms) - ms, q);
  }

  lemma DeadlineBack(next: nat, ms: nat)
    requires next < WORD
    ensures Wrap(Wrap(next - ms) + ms) == next && next <= Wrap(next - ms) + ms
  {
    hide Wrap;
    var a := Wrap(next - ms);
    var q := (next - ms) / WORD;
    WrapIs(next - ms, -q);
    WrapIs(a + ms, q);
  }

  /** What reset subtracts, in every state of a run: the difference is the time
      the timer was armed, which has passed, and it underflows exactly when the
      deadline wrapped around. */
  lemma ArmedInPast(m: Manager, clock: nat, id: nat)
    requires Inv(m) && Known(m.recs, m.queue) && Timely(m, clock) && id in m.queue
    ensures var r := m.recs[id];
            && ArmedAt(r) <= clock && r.next == Wrap(ArmedAt(r) + r.ms)
            && (r.ms < WORD ==> (r.next < r.ms <==> ArmedAt(r) + r.ms >= WORD))
  {
    hide Wrap;
    var r := m.recs[id];
    InSet(m, id);
    DeadlineBack(r.next, r.ms);
    if r.ms < WORD {
      if r.next < r.ms {
        WrapIs(r.next - r.ms, 1);
      } else {
        WrapIs(r.next - r.ms, 0);
      }
    }
  }

  lemma InSet(m: Manager, id: nat)
    requires Inv(m) && id in m.queue
    ensures id < |m.recs| && m.recs[id].next < WORD
  {
    MidOfInv(m);
  }

  /** detectClockRollover in plain numbers: the clock went back by more than an
      hour, or at all in the first hour of the epoch. */
  lemma RolloverIs(previous: nat, now: nat)
    requires previous < WORD
    ensures Rollover(previous, now) <==> now < previous && (previous < 3600000 || now < previous - 3600000)
  {
    hide Wrap;
    if previous < 3600000 {
      WrapIs(previous - 3600000, 1);
    } else {
      WrapIs(previous - 3600000, 0);
    }
  }

  // ---- runs ------------------------------------------------------------

  datatype Op =
    | DoAdd(addr: nat, ms: nat, cb: Option<Callback>, recurring: bool)
    | DoCancel(id: nat)
    | DoRefresh(id: nat)
    | DoReset(id: nat, ms: nat, fromNow: bool)
    | DoGetNext
    | DoExpire

  /** What a caller can do: name timers that exist; a new timer gets an address
      no waiting timer has. */
  ghost predicate Possible(m: Manager, op: Op) {
    Known(m.recs, m.queue) &&
    match op
    case DoAdd(addr, _, _, _) => forall j <- m.queue :: m.recs[j].addr != addr
    case DoCancel(id) => id < |m.recs|
    case DoRefresh(id) => id < |m.recs|
    case DoReset(id, _, _) => id < |m.recs|
    case _ => true
  }

  ghost function Step(m: Manager, op: Op, now: nat): Manager
    requires Possible(m, op)
  {
    match op
    case DoAdd(addr, ms, cb, recurring) => Add(m, addr, ms, cb, recurring, now)
    case DoCancel(id) => Cancel(m, id).0
    case DoRefresh(id) => Refresh(m, id, now).0
    case DoReset(id, ms, fromNow) => Reset(m, id, ms, fromNow, now).0
    case DoGetNext => GetNext(m, now).0
    case DoExpire => Expire(m, now).0
  }

  /** A history: each operation, in the order of the lock, with the clock it
      read, which it may have read before it got the lock. */
  ghost predicate Run(trace: seq<Manager>, ops: seq<(Op, nat)>) {
    && |trace| == |ops| + 1
    && (exists now :: trace[0] == Init(now))
    && forall i :: 0 <= i < |ops| ==>
         Possible(trace[i], ops[i].0) && trace[i + 1] == Step(trace[i], ops[i].0, ops[i].1)
  }

  lemma StepKeeps(m: Manager, op: Op, now: nat)
    requires Inv(m) && Possible(m, op)
    ensures Inv(Step(m, op, now))
  {
    hide Inv, Add, Cancel, Refresh, Reset, GetNext, Expire;
    match op
    case DoAdd(addr, ms, cb, recurring) => AddKeeps(m, addr, ms, cb, recurring, now);
    case DoCancel(id) => CancelKeeps(m, id);
    case DoRefresh(id) => RefreshKeeps(m, id, now);
    case DoReset(id, ms, fromNow) => ResetKeeps(m, id, ms, fromNow, now);
    case DoGetNext => GetNextKeeps(m, now);
    case DoExpire => ExpireKeeps(m, now);
  }

  lemma GetNextKeeps(m: Manager, now: nat)
    requires Inv(m) && Known(m.recs, m.queue)
    ensures Inv(GetNext(m, now).0)
  {
    MidNotesSeen(m, GetNext(m, now).0);
  }

  lemma MidNotesSeen(m: Manager, m': Manager)
    requires Inv(m) && m' == m.(tickled := false, notesSeen := m.notes, seen := m'.seen)
    ensures Inv(m')
  {
  }

  /** Whatever the clock does: in every reachable state the set is strictly
      sorted, a timer created with a callback waits exactly when it still has
      it, so that cancel finds what it erases, and every one-shot timer is
      exactly one of waiting, fired once and cancelled. */
  lemma {:induction false} RunsKeepAccount(trace: seq<Manager>, ops: seq<(Op, nat)>, i: nat)
    requires Run(trace, ops) && i < |trace|
    ensures Inv(trace[i]) && Known(trace[i].recs, trace[i].queue)
  {
    hide Step, Possible;
    if i > 0 {
      RunsKeepAccount(trace, ops, i - 1);
      StepKeeps(trace[i - 1], ops[i - 1].0, ops[i - 1].1);
    }
  }

  /** So a callback of a one-shot timer is handed out at most once, never both
      handed out and cancelled, and it waits exactly while it has neither
      happened. */
  lemma OneShotOnce(trace: seq<Manager>, ops: seq<(Op, nat)>, i: nat, id: nat)
    requires Run(trace, ops) && i < |trace| && id < |trace[i].recs|
    ensures var r := trace[i].recs[id];
            !r.recurring && r.armed ==>
              && r.fired <= 1 && !(r.fired == 1 && r.cancelled)
              && (id in trace[i].queue <==> r.fired == 0 && !r.cancelled)
              && (id in trace[i].queue <==> r.cb.Some?)
  {
    RunsKeepAccount(trace, ops, i);
    MidOfInv(trace[i]);
    assert Account(trace[i].recs[id], id in trace[i].queue);
  }

  // ---- no missed notification --------------------------------------------

  /** The operation puts no deadline before the one last seen without telling:
      only refresh and the re-arming of listExpiredCb could. */
  ghost predicate Tells(m: Manager, op: Op, now: nat)
    requires Possible(m, op)
  {
    match op
    case DoRefresh(id) => !(m.recs[id].cb.Some? && Sneaks(m, Wrap(now + m.recs[id].ms)))
    case DoExpire => !Rearms(m, now, (next: nat) => Sneaks(m, next))
    case _ => true
  }

  lemma StepTells(m: Manager, op: Op, now: nat)
    requires Inv(m) && Possible(m, op) && NoMissed(m)
    ensures var m' := Step(m, op, now); Known(m'.recs, m'.queue) && (NoMissed(m') <==> Tells(m, op, now))
  {
    hide Inv, Add, Cancel, Refresh, Reset, Expire, NoMissed, Sneaks, Rearms;
    match op
    case DoAdd(addr, ms, cb, recurring) => AddTells(m, addr, ms, cb, recurring, now);
    case DoCancel(id) => CancelTells(m, id);
    case DoRefresh(id) => RefreshMisses(m, id, now);
    case DoReset(id, ms, fromNow) => ResetTells(m, id, ms, fromNow, now);
    case DoGetNext => GetNextTells(m, now);
    case DoExpire => ExpireMisses(m, now);
  }

  lemma GetNextTells(m: Manager, now: nat)
    requires Known(m.recs, m.queue)
    ensures var m' := GetNext(m, now).0; Known(m'.recs, m'.queue) && NoMissed(m')
  {
  }

  /** A notification is missed first at the first operation that does not tell:
      in every run, whatever the clocks, no state before or after the `n`-th
      operation misses one exactly when all operations up to there tell. */
  lemma {:induction false} RunsTellExactly(trace: seq<Manager>, ops: seq<(Op, nat)>, n: nat)
    requires Run(trace, ops) && n < |trace|
    ensures forall i :: 0 <= i <= n ==> Known(trace[i].recs, trace[i].queue)
    ensures (forall i :: 0 <= i <= n ==> NoMissed(trace[i])) <==>
            (forall k :: 0 <= k < n ==> Tells(trace[k], ops[k].0, ops[k].1))
  {
    hide Step, Inv, NoMissed, Tells;
    if n == 0 {
      RunsKeepAccount(trace, ops, 0);
      StartTells(trace[0]);
    } else {
      RunsTellExactly(trace, ops, n - 1);
      RunsKeepAccount(trace, ops, n - 1);
      RunsKeepAccount(trace, ops, n);
      if NoMissed(trace[n - 1]) {
        StepTells(trace[n - 1], ops[n - 1].0, ops[n - 1].1);
      }
    }
  }

  lemma StartTells(m: Manager)
    requires exists now :: m == Init(now)
    ensures Known(m.recs, m.queue) && NoMissed(m)
  {
  }

  /** The operation reckons deadlines from the clock it read. */
  predicate Arms(op: Op) {
    op.DoAdd? || op.DoRefresh? || op.DoReset? || op.DoExpire?
  }

  /** What refresh and re-arming need of the clock: the new deadline does not wrap
      around, and when the clock rolled back, it is not before the old one. */
  ghost predicate InRange(m: Manager, op: Op, now: nat)
    requires Possible(m, op)
  {
    match op
    case DoRefresh(id) => m.recs[id].cb.Some? ==> now + m.recs[id].ms < WORD
    case DoExpire => forall j <- m.queue :: Due(m, j, now) && m.recs[j].recurring ==>
        now + m.recs[j].ms < WORD && (Rollover(m.previous, now) ==> m.recs[j].next <= now + m.recs[j].ms)
    case _ => true
  }

  /** A deadline not before that of a waiting timer does not sneak in. */
  lemma LaterTells(m: Manager, j: nat, next: nat)
    requires Inv(m) && Known(m.recs, m.queue) && NoMissed(m) && j in m.queue && m.recs[j].next <= next
    ensures !Sneaks(m, next)
  {
    hide Inv;
    NotTold(m);
    FirstIsLeast(m, j);
  }

  lemma InRangeTells(m: Manager, op: Op, clock: nat, now: nat)
    requires Inv(m) && Possible(m, op) && NoMissed(m) && InRange(m, op, now)
    requires op.DoRefresh? ==> Timely(m, clock) && clock <= now
    ensures Tells(m, op, now)
  {
    hide Mid, NoMissed, Sneaks, Wrap, Rollover;
    match op
    case DoRefresh(id) =>
      var r := m.recs[id];
      if r.cb.Some? {
        HasIsIn(m, id);
        ArmedInPast(m, clock, id);
        InSet(m, id);
        DeadlineBack(r.next, r.ms);
        WrapIs(now + r.ms, 0);
        LaterTells(m, id, now + r.ms);
      }
    case DoExpire =>
      forall j | j in m.queue && Due(m, j, now) && m.recs[j].recurring ensures !Sneaks(m, Wrap(now + m.recs[j].ms)) {
        WrapIs(now + m.recs[j].ms, 0);
        LaterTells(m, j, now + m.recs[j].ms);
      }
    case _ =>
  }

  lemma HasIsIn(m: Manager, id: nat)
    requires Inv(m) && id < |m.recs| && m.recs[id].cb.Some?
    ensures id in m.queue
  {
    MidOfInv(m);
  }

  lemma AddTimely(m: Manager, clock: nat, addr: nat, ms: nat, cb: Option<Callback>, recurring: bool, now: nat)
    requires Known(m.recs, m.queue) && Timely(m, clock) && now < WORD && now <= clock
    ensures var m' := Add(m, addr, ms, cb, recurring, now); Known(m'.recs, m'.queue) && Timely(m', clock)
  {
    hide Wrap, Insert;
    ArmedBack(now, ms);
    var recs := m.recs + [Rec(addr, recurring, cb.Some?, ms, Wrap(now + ms), cb, 0, false)];
    assert forall j <- m.queue :: recs[j] == m.recs[j];
    InsertMembers(recs, m.queue, |m.recs|);
  }

  lemma RetimedTimely(m: Manager, clock: nat, id: nat, k: nat, ms: nat, start: nat)
    requires Known(m.recs, m.queue) && Timely(m, clock) && id < |m.recs| && k < |m.queue|
    requires start < WORD && start <= clock
    ensures var out := Retime(m, id, k, ms, Wrap(start + ms));
            && Known(out.recs, out.queue) && Known(Enqueue(out, id).recs, Enqueue(out, id).queue)
            && Timely(Enqueue(out, id), clock) && Timely(out.(queue := Insert(out.recs, out.queue, id)), clock)
  {
    hide Wrap, Insert;
    ArmedBack(start, ms);
    var out := Retime(m, id, k, ms, Wrap(start + ms));
    EraseMembers(m.queue, k);
    assert forall i :: 0 <= i < |out.queue| ==> out.queue[i] in m.queue;
    InsertMembers(out.recs, out.queue, id);
  }

  lemma EraseMembers(q: seq<nat>, k: nat)
    requires k < |q|
    ensures forall x :: x in Erase(q, k) ==> x in q
  {
  }

  lemma CancelTimely(m: Manager, clock: nat, id: nat)
    requires Known(m.recs, m.queue) && Timely(m, clock) && id < |m.recs|
    ensures var m' := Cancel(m, id).0; Known(m'.recs, m'.queue) && Timely(m', clock)
  {
    hide Wrap, Find;
    var k := Find(m.recs, m.queue, m.recs[id]);
    if k < |m.queue| {
      EraseMembers(m.queue, k);
    }
  }

  lemma ExpireTimely(m: Manager, clock: nat, now: nat)
    requires Inv(m) && Known(m.recs, m.queue) && Timely(m, clock) && now < WORD && now <= clock
    ensures var m' := Expire(m, now).0; Known(m'.recs, m'.queue) && Timely(m', clock)
  {
    hide Wrap, Expire, Inv, Due;
    if m.queue == [] {
      ExpireNothing(m, now);
    } else {
      LeftWaiting(m, now);
      forall j | j in m.queue ensures Wrap(Wrap(now + m.recs[j].ms) - m.recs[j].ms) == now {
        ArmedBack(now, m.recs[j].ms);
      }
    }
  }

  /** Timers are armed at the clocks that were read. */
  lemma StepTimely(m: Manager, op: Op, clock: nat, now: nat)
    requires Inv(m) && Possible(m, op) && Timely(m, clock) && now < WORD && (Arms(op) ==> now <= clock)
    ensures var m' := Step(m, op, now); Known(m'.recs, m'.queue) && Timely(m', clock)
  {
    hide Mid, Wrap, Insert, Enqueue, Find, Expire, Add, Cancel, Retime;
    match op
    case DoAdd(addr, ms, cb, recurring) => AddTimely(m, clock, addr, ms, cb, recurring, now);
    case DoCancel(id) => CancelTimely(m, clock, id);
    case DoRefresh(id) =>
      var r := m.recs[id];
      var k := Find(m.recs, m.queue, r);
      if k < |m.queue| {
        RetimedTimely(m, clock, id, k, r.ms, now);
      }
    case DoReset(id, ms, fromNow) =>
      var r := m.recs[id];
      var k := Find(m.recs, m.queue, r);
      if k < |m.queue| && r.cb.Some? {
        HasIsIn(m, id);
        RetimedTimely(m, clock, id, k, ms, if fromNow then now else ArmedAt(r));
      }
    case DoGetNext =>
    case DoExpire => ExpireTimely(m, clock, now);
  }

  lemma {:induction false} RunsTimely(trace: seq<Manager>, ops: seq<(Op, nat)>, n: nat, clock: nat)
    requires Run(trace, ops) && n < |trace|
    requires forall k :: 0 <= k < n ==> ops[k].1 < WORD && (Arms(ops[k].0) ==> ops[k].1 <= clock)
    ensures Known(trace[n].recs, trace[n].queue) && Timely(trace[n], clock)
  {
    hide Step, Inv, Timely;
    RunsKeepAccount(trace, ops, n);
    if n == 0 {
      StartTimely(trace[0], clock);
    } else {
      RunsTimely(trace, ops, n - 1, clock);
      RunsKeepAccount(trace, ops, n - 1);
      StepTimely(trace[n - 1], ops[n - 1].0, clock, ops[n - 1].1);
    }
  }

  lemma StartTimely(m: Manager, clock: nat)
    requires exists now :: m == Init(now)
    ensures Known(m.recs, m.queue) && Timely(m, clock)
  {
  }

  /** No run misses a notification in which no refreshed or re-armed deadline
      wraps around, a refresh reads no clock older than a deadline was reckoned
      from, and a rollback of more than an hour puts no re-armed deadline before
      its old one. Adding, resetting and cancelling are free, and so are the
      clocks that other operations read. */
  lemma {:induction false} RunsMissNothing(trace: seq<Manager>, ops: seq<(Op, nat)>, n: nat)
    requires Run(trace, ops) && n < |trace|
    requires forall k :: 0 <= k < |ops| ==> ops[k].1 < WORD && InRange(trace[k], ops[k].0, ops[k].1)
    requires forall j, k :: 0 <= j < k < |ops| && Arms(ops[j].0) && ops[k].0.DoRefresh? ==> ops[j].1 <= ops[k].1
    ensures Known(trace[n].recs, trace[n].queue) && NoMissed(trace[n])
  {
    hide Step, Inv, NoMissed, Tells, InRange, Timely;
    RunsKeepAccount(trace, ops, n);
    if n == 0 {
      StartTells(trace[0]);
    } else {
      var m, op, now := trace[n - 1], ops[n - 1].0, ops[n - 1].1;
      RunsMissNothing(trace, ops, n - 1);
      RunsKeepAccount(trace, ops, n - 1);
      if op.DoRefresh? {
        RunsTimely(trace, ops, n - 1, now);
      }
      InRangeTells(m, op, now, now);
      StepTells(m, op, now);
    }
  }

  /** With a clock that never runs back, refresh misses exactly when its sum wraps
      around to a deadline before the one last seen and nobody was told of an
      earlier one. */
  lemma RefreshMissesByWrap(m: Manager, clock: nat, id: nat, now: nat)
    requires Inv(m) && Known(m.recs, m.queue) && NoMissed(m) && Timely(m, clock) && clock <= now && id < |m.recs|
    ensures var m' := Refresh(m, id, now).0;
            && Known(m'.recs, m'.queue)
            && (NoMissed(m') <==> !(m.recs[id].cb.Some? && now + m.recs[id].ms >= WORD
                                    && Sneaks(m, Wrap(now + m.recs[id].ms))))
  {
    hide Inv, NoMissed, Sneaks, Wrap, Refresh;
    RefreshMisses(m, id, now);
    if m.recs[id].cb.Some? && now + m.recs[id].ms < WORD {
      InRangeTells(m, DoRefresh(id), clock, now);
    }
  }

  /** It does happen: a timer due at the last moment of the clock was seen, and is
      refreshed two milliseconds after the start. */
  lemma WrappedRefreshIsMissed()
    ensures var m := GetNext(Add(Init(0), 1, WORD - 1, Some(7), false, 0), 0).0;
            Known(m.recs, m.queue) && NoMissed(m) && |m.recs| == 1 &&
            var m' := Refresh(m, 0, 2).0;
            Known(m'.recs, m'.queue) && !NoMissed(m')
  {
    hide Wrap, Less;
    Wrapped();
    FirstAdded(1, WORD - 1, 7, false, 0);
    var m := GetNext(Add(Init(0), 1, WORD - 1, Some(7), false, 0), 0).0;
    StartInv(0);
    AddKeeps(Init(0), 1, WORD - 1, Some(7), false, 0);
    GetNextKeeps(Add(Init(0), 1, WORD - 1, Some(7), false, 0), 0);
    RefreshMisses(m, 0, 2);
  }

  lemma StartInv(now: nat)
    ensures Inv(Init(now))
  {
  }

  lemma Wrapped()
    ensures Wrap(0 + (WORD - 1)) == 0 + (WORD - 1) && Wrap(2 + (WORD - 1)) == 1
    ensures Wrap(WORD - 1 + (WORD - 1)) == WORD - 2
  {
  }

  /** So is a recurring timer that expires at the last moment of the clock: it is
      re-armed to the moment before, of which nobody is told. */
  lemma WrappedExpiryIsMissed()
    ensures var m := GetNext(Add(Init(0), 1, WORD - 1, Some(7), true, 0), 0).0;
            Known(m.recs, m.queue) && NoMissed(m) &&
            var m' := Expire(m, WORD - 1).0;
            Known(m'.recs, m'.queue) && !NoMissed(m')
  {
    hide Wrap, Less;
    Wrapped();
    FirstAdded(1, WORD - 1, 7, true, 0);
    var m := GetNext(Add(Init(0), 1, WORD - 1, Some(7), true, 0), 0).0;
    StartInv(0);
    AddKeeps(Init(0), 1, WORD - 1, Some(7), true, 0);
    GetNextKeeps(Add(Init(0), 1, WORD - 1, Some(7), true, 0), 0);
    ExpireMisses(m, WORD - 1);
    assert 0 in m.queue && Due(m, 0, WORD - 1) && m.recs[0].recurring;
  }

  /** The first timer of a new manager. */
  lemma FirstAdded(addr: nat, ms: nat, cb: Callback, recurring: bool, now: nat)
    requires Wrap(now + ms) == now + ms
    ensures Add(Init(now), addr, ms, Some(cb), recurring, now)
            == Manager([Rec(addr, recurring, true, ms, now + ms, Some(cb), 0, false)], [0], true, now, 1, 0, None)
  {
    hide Less, Wrap, Insert, LowerBound;
    var r := Rec(addr, recurring, true, ms, now + ms, Some(cb), 0, false);
    assert Init(now).recs + [r] == [r];
    SoleInserted([r], [], 0);
  }

  lemma SoleInserted(recs: seq<Rec>, q: seq<nat>, id: nat)
    requires q == [] && id < |recs|
    ensures Insert(recs, q, id) == [id]
  {
    hide Less, LowerBound;
    assert q[..0] + [id] + q[0..] == [id];
  }
}
