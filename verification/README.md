# sylar, modelled and verified

A Dafny model of the stateful cores of sylar, a C++ coroutine server library,
with proofs of what they promise. `dafny verify dfyconfig.toml` checks it.

| module | models |
|---|---|
| `Options` | a value that may be missing |
| `Bytes`, `Codec` | byte sequences and blocks; fixed-width, LEB128 and zigzag numbers |
| `Tapes` | what a ByteArray means: one flat byte sequence with a cursor; typed scripts |
| `ByteArrays` | the ByteArray class over its linked list of blocks with the cached block |
| `Histories` | any list of calls on a ByteArray against the flat sequence |
| `SocketStreams` | the zero-copy path over the scatter and gather views |
| `TimerSpec`, `Timers` | the timer set as a value with its runs, and the TimerManager class |
| `IoSpec`, `IoManagers` | the event table as a value, and the IOManager class with its contexts |
| `SchedSpec`, `Schedulers` | the scheduler's list and fiber states as values, and the classes |
| `Protocol`, `Interleavings` | fibers, workers, slots and timers as a step relation, and what every run keeps |
| `Effects` | what the steps do to slots, list and timers |
| `Calls` | the calls of do_io over every run: timeouts, giving up and trying again |
| `Sharing` | runs in which fibers do not share a descriptor and direction, and runs in which they do |
| `Whereabouts` | that no fiber is lost, and what delEvent does to one that waits |
| `Patterns` | the log pattern scanner |
| `IPv6` | the IPv6 printer and a specification parser |

Classes and loops follow the code; each method is proved equal to a function of
the old state, and the properties are lemmas about those functions over every
input or every run.

**Failures.** A failed SYLAR_ASSERT, a thrown exception or a null dereference is
an outcome (`Aborted`, `Fault`, `OutOfRange`, `NullBlock`, a `false` result), not
a precondition. What epoll_ctl, a socket or the clock answers is a parameter.

**Step granularity of the protocol.** One step is: a body under `fd_ctx->mutex`;
a body under the scheduler's mutex; a fiber's yield together with the worker's
bookkeeping after swapIn; one run of a timer callback; the expiry of one timer
together with queueing its callback (a batch of listExpiredCb is several such
steps in a row, and any timer may expire at any time). At a finer granularity
some claims fail: YieldToHold sets HOLD before it swaps out, so in between another
worker could take a fiber that is queued already and still on its stack. A fiber
is any program that, between do_io and sleep calls, yields, ends, spawns, submits
callbacks, adds and cancels timers, adds callback events and deletes or cancels
events; any number of them may use the same descriptor and direction.

**Where the code differs from its intent.** Six places, each with a concrete
input and an exact condition: the block count of addCapacity
(`Tapes.GrowthSuffices`, `Tapes.GrowthFails`); the dispatch loop of idle
triggering events that are reported but not registered
(`IoSpec.DispatchAborts`, `IoSpec.HangUpAborts`), in runs as well
(`Interleavings.StepKeeps`); deadlines that refresh and re-arming move to the
front, by wrap-around or a clock that ran back, without anybody being told
(`TimerSpec.RunsTellExactly`, `TimerSpec.WrappedRefreshIsMissed`,
`TimerSpec.WrappedExpiryIsMissed`); two fibers in do_io for one descriptor and
direction (`Interleavings.RegisterKeeps`, `Sharing.SharingFails`); a timeout of
do_io that runs before the event is registered (`Calls.TimeoutWakes`,
`Calls.EarlyTimeoutHappens`); and the doubled percent sign in patterns
(`Patterns.ScanInvertsRender`, `Patterns.PercentIsNoEscape`). An empty string is
read with a null block at full capacity, and a string longer than its prefix
counts is cut; the round trips say so. A comment in setPosition says it throws
beyond m_size; the code, followed here, throws beyond m_capacity.

## Model

| member | source | states |
|---|---|---|
| `Codec.SignedUnsigned` | sylar/bytearray.cc:72-117 | a signed value stored as its unsigned representative is restored |
| `Codec.LoadMemory` | sylar/bytearray.cc:79-117 | a w-byte number stored in either byte order and loaded in the same order is itself modulo 256^w |
| `Codec.MemoryBytes` | sylar/bytearray.cc:79-117 | byte for byte: the i-th byte from the low end is the i-th eight bits of the number; the low end comes first in little-endian and last in big-endian order |
| `Codec.MemoryOfSwapped` | sylar/endian.h:12-28 | storing a byte-swapped number in one order is storing the number in the other order |
| `Codec.SwappedLoad` | sylar/endian.h:12-28 | byte-swapping what was loaded in one order is loading in the other order |
| `Codec.LebLength` | sylar/bytearray.cc:253-285 | the encoding of v has at most k bytes if and only if v < 2^(7k); so 5 and 10 bytes always suffice |
| `Codec.LebByte` | sylar/bytearray.cc:253-285 | byte for byte: the i-th byte of an encoding holds the i-th seven bits of the number |
| `Codec.LebTerminator` | sylar/bytearray.cc:253-285 | only the last byte of an encoding is below 0x80 (section 7.6 of DWARF Version 4) |
| `Codec.UnLebInRange` | sylar/bytearray.cc:402-442 | whatever the bytes, a value the decoder returns fits the type |
| `Codec.UnLebStops` | sylar/bytearray.cc:402-442 | whatever the bytes, the decoder stops after at most one byte per seven bits of the type (5 or 10), and runs out of bytes only at their end |
| `Codec.VarintRoundTrip` | sylar/bytearray.cc:253-285 | decoding an encoding followed by any bytes gives the value and stops behind the encoding |
| `Codec.ZigzagInterleaves` | sylar/bytearray.cc:138-158 | the signed values in the order 0, -1, 1, -2, ... are numbered 0, 1, 2, 3, ..., the most negative one included |
| `Codec.ZigzagRoundTrip` | sylar/bytearray.cc:202-225 | decoding undoes encoding for every signed value, under wrap-around |
| `Codec.ZigzagOnto` | sylar/bytearray.cc:202-225 | encoding undoes decoding for every unsigned value |
| `Codec.ZigzagSize` | sylar/bytearray.cc:228-275 | a signed value takes at most k bytes if and only if it lies in [-2^(7k-1), 2^(7k-1)) |
| `Tapes.GrowthSuffices` | sylar/bytearray.cc:774-811 | when growth is needed, the block count as computed leaves the room asked for if and only if the missing bytes modulo the block size are 0 or more than the room there was |
| `Tapes.GrowthSufficesWhenFull` | sylar/bytearray.cc:774-811 | the growth always suffices when there was no room left, or blocks are single bytes |
| `Tapes.CeilingSuffices` | sylar/bytearray.cc:790 | rounding up always leaves the room, with the fewest blocks |
| `Tapes.GrowthIs` | sylar/bytearray.cc:790 | the growth appends exactly as many blocks as rounding up would if that condition holds, and one less if not; never more |
| `Tapes.GrowthFails` | sylar/bytearray.cc:790 | a fresh array of 4096-byte blocks asked for 4097 bytes appends no block and falls short |
| `Tapes.GetPutUint` | sylar/bytearray.cc:79-117 | reading a fixed-width or variable-length number where it was written returns it, reduced to its type, and stops behind it |
| `Tapes.SignedRoundTrip` | sylar/bytearray.cc:72-275 | signed values survive conversion, by two's complement or zigzag |
| `Tapes.ReadBack` | sylar/bytearray.cc:324-488 | reading one item back where it was written succeeds if and only if a string's length fits its prefix and it is not an empty string at the end of the capacity |
| `Tapes.EncodeIsFlat` | sylar/bytearray.cc:300-318 | the write calls an item makes add up to one encoding |
| `Tapes.VarintItem` | sylar/bytearray.cc:138-275 | what a varint writer puts out: the LEB128 bytes of an unsigned u itself, and of 2n or, below zero, -2n-1 for a signed n, in at most k bytes if and only if n lies in [-2^(7k-1), 2^(7k-1)) |
| `Tapes.FixedItem` | sylar/bytearray.cc:72-117 | what a fixed-width writer puts out, signed or not: w bytes, the i-th from the low end being the i-th eight bits of the number modulo 2^(8w), in either byte order |
| `Tapes.TextItem` | sylar/bytearray.cc:300-318 | what a string writer puts out: its length, as an unsigned number of the prefix type, and its bytes |
| `Tapes.WriteChunksJoins` | sylar/bytearray.cc:508-562 | writing chunks one after the other is writing them joined together, the cursor behind them |
| `Tapes.EmptyTextAtCapacity` | sylar/bytearray.cc:300-318 | such an empty string: written by a fresh array whose one block its prefix fills, and read with a null block |
| `Tapes.ReadScriptBack` | sylar/bytearray.cc:324-488 | a mirrored read script over a whole encoding returns the items and ends behind them if and only if every string fits its prefix and none that is empty ends the capacity |
| `Tapes.ScriptRoundTrip` | sylar/bytearray.cc:72-488 | main round trip: any mixed script of fixed, varint, zigzag and string writes, rewound and read by the mirrored script, returns the values and the end position if and only if every string fits its prefix and the script does not end with an empty string at full capacity |
| `Tapes.WriteChunksRoom` | sylar/bytearray.cc:774-817 | whether a sequence of writes succeeds, and the room it leaves, is decided by the block size, the room there was and the lengths alone |
| `Tapes.LengthsOf` | sylar/bytearray.cc:72-322 | the lengths a script writes: the width or varint size of each number and the length of each string, in either byte order |
| `Tapes.ScriptFits` | sylar/bytearray.cc:774-817 | a script can be written when blocks are single bytes or the whole of it fits the room there is |
| `ByteArrays.EncodeVarint` | sylar/bytearray.cc:253-285 | the shifting loop over tmp computes the LEB128 encoding and never runs over tmp |
| `ByteArrays.ByteArray.CursorIsBlock` | sylar/bytearray.h:138-154 | m_cur is block m_position / m_baseSize, null exactly at the end of the capacity; m_position <= m_size <= m_capacity = blocks * m_baseSize |
| `ByteArrays.ByteArray.constructor` | sylar/bytearray.cc:41-49 | a fresh array is an empty tape with one block of room |
| `ByteArrays.ByteArray.SetIsLittleEndian` | sylar/bytearray.cc:64-70 | sets the byte order and nothing else |
| `ByteArrays.ByteArray.Clear` | sylar/bytearray.cc:490-501 | an empty tape with one block of room again |
| `ByteArrays.ByteArray.AddCapacity` | sylar/bytearray.cc:774-817 | the node list stays in step with m_capacity, which grows by whole blocks; no byte changes; m_cur is not null |
| `ByteArrays.ByteArray.Append` | sylar/bytearray.cc:790-811 | appends exactly `count` blocks behind the last one and returns the first |
| `ByteArrays.ByteArray.Put` | sylar/bytearray.cc:525-556 | one turn of the loop of write: splices into one block and moves m_cur at the end of it |
| `ByteArrays.ByteArray.Fill` | sylar/bytearray.cc:518-561 | the loop of write refines splicing into the flat contents, and fails only at the null block |
| `ByteArrays.ByteArray.Write` | sylar/bytearray.cc:508-562 | refines overwriting a flat byte sequence at the cursor: exactly [pos, pos + n) changes; succeeds if and only if the growth suffices |
| `ByteArrays.ByteArray.Collect` | sylar/bytearray.cc:569-616 | the loop of read returns [pos, pos + n) of the flat contents |
| `ByteArrays.ByteArray.Read` | sylar/bytearray.cc:569-616 | refines reading from a flat byte sequence: out of range, null block, or exactly [pos, pos + n); contents unchanged |
| `ByteArrays.ByteArray.Locate` | sylar/bytearray.cc:677-691 | walking the list from the root finds block pos / base |
| `ByteArrays.ByteArray.SetPosition` | sylar/bytearray.cc:667-692 | out of range beyond the capacity; else the cursor is there and the data extends to it at least; contents unchanged |
| `ByteArrays.ByteArray.Segments` | sylar/bytearray.cc:861-892 | the loop of the buffer getters: non-empty segments, each in one block, one behind the other, covering exactly [pos, pos + len) |
| `ByteArrays.ByteArray.GatherTiles` | sylar/bytearray.cc:850-894 | segments that tile a range hold exactly the bytes the flat contents have there |
| `ByteArrays.ByteArray.GetReadBuffers` | sylar/bytearray.cc:850-894 | the segments together hold exactly the bytes read would return |
| `ByteArrays.ByteArray.GetWriteBuffers` | sylar/bytearray.cc:933-961 | the segments tile exactly [pos, pos + len) after the growth; data, cursor and size are unchanged; succeeds if and only if the growth suffices |
| `ByteArrays.ByteArray.FillSegments` | sylar/socket_stream.cc:41-45 | filling write segments in order is splicing the bytes into the contents at the cursor |
| `ByteArrays.ByteArray.WriteFuint` | sylar/bytearray.cc:79-117 | with the host's order and a conditional byteswap, writes the number in m_endian order |
| `ByteArrays.ByteArray.WriteUvar` | sylar/bytearray.cc:253-285 | writes the LEB128 encoding |
| `ByteArrays.ByteArray.ReadFuint` | sylar/bytearray.cc:330-367 | the flat fixed-width read |
| `ByteArrays.ByteArray.ReadUvar` | sylar/bytearray.cc:402-442 | the byte-by-byte decoding loop refines the flat varint read |
| `ByteArrays.ByteArray.WriteItem` | sylar/bytearray.cc:72-322 | every typed writer refines writing its chunks to the flat tape |
| `ByteArrays.ByteArray.ReadItem` | sylar/bytearray.cc:324-488 | every typed reader refines the flat reader |
| `ByteArrays.ByteArray.ReadItems` | tests/test_bytearray.cc:6-45 | a sequence of typed reads refines the flat read script |
| `ByteArrays.WriteAll` | tests/test_bytearray.cc:6-45 | a sequence of typed writes refines writing all chunks to the flat tape |
| `ByteArrays.RoundTrip` | tests/test_bytearray.cc:6-45 | write, rewind, read on the block list gives the values back with nothing left, if and only if, by the lengths written, the growth never falls short, strings fit their prefixes and no empty string ends the capacity |
| `Histories.Replay` | sylar/bytearray.cc:490-692 | any list of writes, reads, cursor moves and clears takes the block list through exactly the history the flat tape goes through, up to the first null block, which is met exactly where a growth falls short or a read of nothing stands at the end of the capacity |
| `Histories.Remembered` | sylar/bytearray.cc:508-562 | in every history the data hold, at each place, the byte written there last since the last clear, whatever seeks and reads came in between |
| `Histories.ReadsLastWritten` | sylar/bytearray.cc:569-616 | in every history a read that succeeds returns at each place the byte written there last |
| `SocketStreams.Read` | sylar/socket_stream.cc:36-47 | receiving into write segments and moving the cursor leaves the data, size and position that write of the received bytes would |
| `SocketStreams.Write` | sylar/socket_stream.cc:65-76 | the socket is offered exactly what read would return; the cursor moves by what it took |
| `TimerSpec.FindFinds` | sylar/timer.cc:34-75 | find returns the waiting timer itself, never the end |
| `TimerSpec.AddExact` | sylar/timer.cc:93-100 | addTimer: the new timer waits with the deadline now + ms modulo 2^64, everybody else waits on unchanged, and there is one notification if the new timer comes first by deadline and address and nobody was told since the last getNextTimer, and none otherwise |
| `TimerSpec.CancelExact` | sylar/timer.cc:34-43 | cancel: a timer that has its callback loses it and waits no longer; otherwise nothing changes; all others stay as they were |
| `TimerSpec.RefreshExact` | sylar/timer.cc:45-58 | refresh: a timer that has its callback waits with the deadline now + period modulo 2^64, nobody is notified, and all others stay as they were; it fails and changes nothing without a callback |
| `TimerSpec.ResetExact` | sylar/timer.cc:60-83 | reset: with its callback the timer gets the new period and waits with the deadline now + ms, or, not from now, its old deadline less its old period plus ms, modulo 2^64; one notification if it then comes first and nobody was told; it succeeds and changes nothing for the same period not from now, and fails and changes nothing without a callback |
| `TimerSpec.GetNextExact` | sylar/timer.cc:114-130 | getNextTimer: all ones with nothing waiting, 0 if a timer is due, and else the time to the earliest deadline; the set stays as it is |
| `TimerSpec.CancelKeeps` | sylar/timer.cc:34-43 | cancel keeps the account and succeeds exactly when the timer still has its callback |
| `TimerSpec.RefreshKeeps` | sylar/timer.cc:45-58 | refresh keeps the account and succeeds exactly when the timer still has its callback |
| `TimerSpec.ResetKeeps` | sylar/timer.cc:60-83 | reset keeps the account |
| `TimerSpec.ExpiredAreDue` | sylar/timer.cc:149-155 | however ties with the probe timer fall, the prefix taken is exactly the timers with m_next <= now (all of them on rollover) |
| `TimerSpec.ExpireExact` | sylar/timer.cc:132-168 | listExpiredCb hands out one callback per due timer in set order, re-inserts exactly the recurring ones at now + period, retires the others and changes no other timer |
| `TimerSpec.ArmedInPast` | sylar/timer.cc:73-80 | what reset reckons from, the deadline less the period, is the time the timer was armed, which has passed, wrapped deadlines included; the subtraction underflows if and only if the deadline had wrapped around |
| `TimerSpec.RolloverIs` | sylar/timer.cc:185-194 | in plain numbers: a rollover is seen if and only if the clock went back by more than an hour, or at all within the first hour |
| `TimerSpec.LeftWaiting` | sylar/timer.cc:132-168 | what waits after listExpiredCb: the timers that were not due, as they were, and the recurring ones that were, a period from now |
| `TimerSpec.NothingDueLeft` | sylar/timer.cc:114-168 | after listExpiredCb getNextTimer at the same clock is 0 if and only if a recurring timer it took out was re-armed to a deadline that is not later than the clock |
| `TimerSpec.PositivePeriodsLeaveTime` | sylar/timer.cc:114-168 | so with positive periods and sums in range, of the due recurring timers only, there is time to wait |
| `TimerSpec.RunsKeepAccount` | sylar/timer.cc:34-183 | over every run and any clock: the set is strictly sorted, and a timer created with a callback is in it exactly while m_cb is set |
| `TimerSpec.OneShotOnce` | sylar/timer.cc:34-168 | over every run: a one-shot callback is handed out at most once, never both handed out and cancelled, and waits exactly while neither happened |
| `TimerSpec.RefreshMisses` | sylar/timer.cc:45-58 | refresh puts a deadline before the one the last getNextTimer saw without telling if and only if the timer has its callback, its new deadline is before that one, and nobody was told of an earlier one |
| `TimerSpec.RefreshMissesByWrap` | sylar/timer.cc:45-58 | when the clock does not run back, that takes a sum that wraps around |
| `TimerSpec.ExpireMisses` | sylar/timer.cc:132-168 | listExpiredCb does so if and only if a recurring timer it takes out is re-armed to such a deadline |
| `TimerSpec.RunsTellExactly` | sylar/timer.cc:34-183 | over every run, whatever the clocks: no state up to the n-th misses a notification if and only if none of the operations so far is one of those refreshes and expiries; adding, resetting and cancelling never are |
| `TimerSpec.RunsMissNothing` | sylar/timer.cc:34-183 | over every run, in any order of clock and lock but for refreshes: no notification is missed when refreshed and re-armed sums do not wrap around and no rollback re-arms a timer before its old deadline |
| `TimerSpec.WrappedRefreshIsMissed` | sylar/timer.cc:45-58 | a refresh for which it happens |
| `TimerSpec.WrappedExpiryIsMissed` | sylar/timer.cc:132-168 | an expiry of a recurring timer for which it happens |
| `Timers.TimerManager.FindTimer` | sylar/timer.cc:38-50 | searching with the comparator finds what the specification finds |
| `Timers.TimerManager.InsertTimer` | sylar/timer.cc:171 | inserts at the lower bound by the comparator |
| `Timers.TimerManager.EnqueueTimer` | sylar/timer.cc:170-183 | insertion with the notification flag |
| `Timers.TimerManager.AddTimer` | sylar/timer.cc:93-100 | refines the specification of addTimer |
| `Timers.TimerManager.CancelTimer` | sylar/timer.cc:34-43 | refines the specification; what is erased is never the end iterator |
| `Timers.TimerManager.RefreshTimer` | sylar/timer.cc:45-58 | refines the specification of refresh |
| `Timers.TimerManager.ResetTimer` | sylar/timer.cc:60-83 | refines the specification of reset, with wrap-around |
| `Timers.TimerManager.GetNextTimer` | sylar/timer.cc:114-130 | refines the specification of getNextTimer |
| `Timers.TimerManager.DetectClockRollover` | sylar/timer.cc:185-194 | an hour back, computed with wrap-around, and the clock is remembered |
| `Timers.TimerManager.DueEnd` | sylar/timer.cc:149-154 | lower_bound of the probe and the step over equal deadlines end behind the last due timer, wherever the probe's address falls |
| `Timers.TimerManager.FireTimers` | sylar/timer.cc:159-167 | the loop over the expired timers refines firing them in order |
| `Timers.TimerManager.ListExpiredCb` | sylar/timer.cc:132-168 | refines the specification of listExpiredCb |
| `IoSpec.CtlAgrees` | sylar/iomanager.cc:116-125 | every epoll_ctl call made from a good state is legal for the kernel, and leaves the interest set equal to the table, changed or unchanged |
| `IoSpec.TriggerTakes` | sylar/iomanager.cc:31-42 | triggerEvent on a registered event hands out its one waiter and leaves an empty slot |
| `IoSpec.AddEventKeeps` | sylar/iomanager.cc:94-144 | addEvent fails an assertion if and only if the event is registered already, or epoll_ctl succeeds and it would register a fiber that is not in EXEC; else it registers the caller or, if epoll_ctl fails, changes nothing; the invariant is kept |
| `IoSpec.DelEventKeeps` | sylar/iomanager.cc:146-178 | delEvent never fails an assertion, forgets exactly that waiter and schedules nothing |
| `IoSpec.CancelEventKeeps` | sylar/iomanager.cc:180-210 | cancelEvent never fails an assertion and schedules exactly the waiter of that event |
| `IoSpec.CancelAllKeeps` | sylar/iomanager.cc:212-250 | cancelAll never fails an assertion and schedules exactly the waiters of the descriptor |
| `IoSpec.DispatchKeeps` | sylar/iomanager.cc:312-358 | the dispatch of idle, for events reported and registered, schedules exactly their waiters and keeps the invariant |
| `IoSpec.DispatchAborts` | sylar/iomanager.cc:333-357 | as written it fails triggerEvent's assertion if and only if epoll_ctl succeeds and a descriptor reported for a registered event is reported for another one too; otherwise it does what the masked form does |
| `IoSpec.HangUpAborts` | sylar/iomanager.cc:322-352 | a descriptor registered for READ and reported with EPOLLHUP makes it fail |
| `IoSpec.TurnExact` | sylar/iomanager.cc:320-357 | one turn of the loop from the poll flags: with EPOLLIN, EPOLLERR or EPOLLHUP the reader is scheduled, then with EPOLLOUT, EPOLLERR or EPOLLHUP the writer; exactly those slots are emptied; nothing happens if epoll_ctl fails; it fails an assertion if and only if it succeeds, one of the two waits and the flags are also for the other, who does not |
| `IoSpec.DispatchEachKeeps` | sylar/iomanager.cc:312-358 | a loop over any reports that fails no assertion keeps the invariant and schedules one task per pending event it takes away |
| `IoSpec.WaitingIsRegistered` | sylar/iomanager.cc:94-250 | an event bit is set if and only if its slot has a waiter |
| `IoSpec.StartInv` | sylar/iomanager.cc:44-68 | a new manager satisfies the invariant: interest set = table, slots match bits, pending count = registered bits, and added = fired + deleted + pending |
| `IoSpec.BitsZero` | sylar/iomanager.cc:264-269 | a pending count of 0 means no event is registered anywhere |
| `IoManagers.FdContext.ResetContext` | sylar/iomanager.cc:26-30 | empties one slot and nothing else |
| `IoManagers.FdContext.TriggerEvent` | sylar/iomanager.cc:31-42 | refines the specification of triggerEvent, failures included |
| `IoManagers.IOManager.ContextResize` | sylar/iomanager.cc:82-91 | appends empty contexts up to the size and keeps the others |
| `IoManagers.IOManager.AddEvent` | sylar/iomanager.cc:94-144 | refines the specification of addEvent, its three assertions included, on contexts updated in place |
| `IoManagers.IOManager.DelEvent` | sylar/iomanager.cc:146-178 | refines the specification of delEvent |
| `IoManagers.IOManager.CancelEvent` | sylar/iomanager.cc:180-210 | refines the specification of cancelEvent |
| `IoManagers.IOManager.CancelAll` | sylar/iomanager.cc:212-250 | refines the specification of cancelAll |
| `IoManagers.IOManager.DispatchOne` | sylar/iomanager.cc:320-357 | one turn of the loop of idle, as written, from poll flags |
| `IoManagers.IOManager.DispatchEvents` | sylar/iomanager.cc:312-358 | the loop of idle, as written, over any reports |
| `SchedSpec.TakeIndex` | sylar/scheduler.cc:160-179 | the first entry the thread may take |
| `SchedSpec.TakeIsEarliest` | sylar/scheduler.cc:158-180 | what is taken is not pinned to another thread and is no fiber in EXEC, everything before it is, the others keep their order, and m_activeThreadCount goes up by one; if nothing is taken, everything is |
| `Schedulers.Fiber.Reset` | sylar/fiber.cc:99-115 | INIT with the new callback, or a failed assertion unless TERM, EXCEPT or INIT |
| `Schedulers.Fiber.SwapIn` | sylar/fiber.cc:133-140 | EXEC, or a failed assertion if already EXEC |
| `SchedSpec.PushEachAppends` | sylar/scheduler.h:66-98 | scheduling a range appends the callbacks there are, in order and without a pin, and changes nothing else |
| `Schedulers.Scheduler.ScheduleFiber` | sylar/scheduler.h:90-98 | appends one entry unless the fiber is null, and tells whether the list was empty |
| `Schedulers.Scheduler.ScheduleCb` | sylar/scheduler.h:90-98 | appends one entry unless the callback is null, and tells whether the list was empty |
| `Schedulers.Scheduler.ScheduleEach` | sylar/scheduler.h:66-78 | appends the callbacks of the range that are not null; a tickle is needed exactly if the list was empty and the range was not |
| `Schedulers.Scheduler.TakeNext` | sylar/scheduler.cc:158-184 | the scanning loop takes the earliest eligible entry, and tickles exactly when an entry before it is for another thread |
| `Schedulers.ForeignIs` | sylar/scheduler.cc:160-168 | the scan tickles if and only if it passed an entry that is pinned to another thread |
| `Schedulers.Scheduler.Enter` | sylar/scheduler.cc:186-188 | swapIn of a taken fiber |
| `Schedulers.Scheduler.SettleFiber` | sylar/scheduler.cc:189-197 | the bookkeeping after a fiber swapped out |
| `Schedulers.Scheduler.SettleCallback` | sylar/scheduler.cc:206-216 | the bookkeeping after a callback's fiber swapped out, and whether it is kept |
| `Schedulers.Scheduler.SwapOut` | sylar/scheduler.cc:189-216 | a fiber yields READY, yields on hold or ends, and the worker settles it: together the Leave that the steps of the protocol take |
| `Schedulers.Scheduler.EnterCallbackFiber` | sylar/scheduler.cc:198-205 | resets the spare fiber or makes a new one and swaps in, or fails an assertion: the EnterCallback that the protocol takes |
| `Interleavings.BeginGood` | sylar/scheduler.cc:139-151 | threads entering run with nothing to do satisfy the invariant |
| `Interleavings.TakeKeeps` | sylar/scheduler.cc:158-180 | taking an entry moves the one ticket from the list to the worker |
| `Interleavings.StartKeeps` | sylar/scheduler.cc:186-205 | the assertions of swapIn and reset hold at every call for a taken entry |
| `Interleavings.StartFiber` | sylar/scheduler.cc:186-188 | a taken fiber has not ended and is not in EXEC, so the taken entry is never dropped |
| `Interleavings.LeftKeeps` | sylar/scheduler.cc:189-216 | a fiber that ends, and the bookkeeping after it, keep the invariant |
| `Interleavings.YieldHoldKeeps` | sylar/fiber.cc:169-173 | a fiber that registered and then yields to hold keeps the invariant, even if it was queued in between |
| `Interleavings.YieldReadyKeeps` | sylar/fiber.cc:163-167 | a fiber that yields READY has no other ticket and gets one |
| `Interleavings.RegisterKeeps` | sylar/hook.cc:154-163 | whoever else uses the descriptor: the addEvent of do_io, retries included, fails an assertion if and only if somebody waits there already; otherwise the ticket goes into the slot, or do_io gives up, and the invariant is kept |
| `Interleavings.ResumeKeeps` | sylar/hook.cc:166-176 | after a wake-up, do_io gives up or retries with its slot empty |
| `Interleavings.SleepKeeps` | sylar/hook.cc:188-199 | sleep puts the fiber's one ticket into a timer |
| `Interleavings.TodoKeeps` | sylar/hook.cc:143-151 | one run of a timeout or wake-up callback keeps the invariant |
| `Interleavings.ExpireKeeps` | sylar/iomanager.cc:304-310 | a timer that expires moves the ticket it holds into the list |
| `Interleavings.ResultKeeps` | sylar/iomanager.cc:31-42 | the waiters of emptied slots are queued once each |
| `Interleavings.StepKeeps` | sylar/scheduler.cc:139-236 | for every enabled step of every fiber, worker and timer: an assertion fails if and only if the step registers where somebody waits already, or idle dispatches a registered event together with one that is not; those of swapIn, for the idle fiber too, of reset and the others of the event table never fail; otherwise the invariant is kept |
| `Interleavings.RunsAreGood` | sylar/scheduler.cc:139-236 | main result: over every run of any number of workers and any programs, each state satisfies the invariant (m_activeThreadCount is the number of workers holding a taken entry), and a step that could come next fails an assertion exactly in those two ways |
| `Interleavings.OneTicket` | sylar/hook.cc:133-177 | in a good state a fiber has at most one ticket among list entries, slots, timers and workers |
| `Interleavings.OneRunner` | sylar/scheduler.cc:169-197 | a fiber is in EXEC if and only if a worker runs it; never two workers; no worker has taken a fiber that is in EXEC |
| `Interleavings.ResumedIsFree` | sylar/hook.cc:165-176 | a fiber resumed in do_io has no ticket left |
| `Interleavings.QueuedPerRequest` | sylar/hook.cc:154-176 | every fiber was queued once for each creation, READY yield, registration and sleep, but for the last one exactly while it waits for it; so the numbers agree in a fiber that goes on and in one that has ended |
| `Interleavings.TicketPerRequest` | sylar/hook.cc:154-176 | a fiber in a slot or a timer is owed one queueing and one in the list none; none of them has ended |
| `Interleavings.IssuedStays` | sylar/hook.cc:154-199 | no step asks for a fiber to be queued unless that fiber itself goes on |
| `Interleavings.QueuedOncePerWait` | sylar/hook.cc:154-176 | over every run: from any state where a fiber waits to the first one where it goes on, it is queued exactly once, whatever readiness, timeouts and cancellations come in between |
| `Interleavings.QuietStays` | sylar/iomanager.cc:264-273 | once IOManager::stopping holds, no internal step makes anything runnable |
| `Interleavings.QuietForever` | sylar/iomanager.cc:264-273 | so it holds for the rest of every run without outside calls |
| `Effects.EventEffects` | sylar/iomanager.cc:94-358 | in any good state: addEvent puts a callback into its slot, delEvent empties a slot and queues nobody, cancelEvent, cancelAll and the dispatch of idle queue the waiters of the event, of both, or of those reported, the reader first; other slots, and all if epoll_ctl fails, stay as they are |
| `Effects.TimerEffects` | sylar/iomanager.cc:304-310 | an expiring timer queues its callback once, and waits on if and only if it is recurring; a cancelled one queues nothing |
| `Effects.QueueEffects` | sylar/scheduler.h:50-64 | spawning and submitting append one entry with the pin that was asked for |
| `Effects.StopQuiets` | sylar/iomanager.cc:264-273 | without entries, active threads, events and timers IOManager::stopping holds once stop was called |
| `Calls.GivesUpExactly` | sylar/hook.cc:164-176 | main result: over every run, do_io gives up after a wake-up if and only if a timeout of this call has run since the call began, and otherwise tries again for the same descriptor and direction |
| `Calls.CancelledIsHistory` | sylar/hook.cc:143-149 | over every run: tinfo->cancelled is set if and only if a timeout of the call ran while the call went on |
| `Calls.SameCaller` | sylar/hook.cc:121 | over every run: a timer_info is one fiber's, from the beginning of the call to its end |
| `Calls.RunsCalls` | sylar/hook.cc:119-177 | over every run: a timer_info lives exactly as long as its call, a waiting timeout is that of an attempt which goes on, and every timeout names the descriptor and direction of its own call |
| `Calls.NoTimeoutIsLost` | sylar/hook.cc:140-151 | over every run: while a call goes on, the timeout of its attempt waits in the timer, or is queued or with a worker, or has run |
| `Calls.TimeoutWakes` | sylar/hook.cc:143-151 | the first timeout of a call queues its fiber if it waits at its event, empties that slot, and marks the call; if nothing waits there it leaves slots and list alone |
| `Calls.SpentTimeout` | sylar/hook.cc:146-148 | a later timeout of the same call does nothing |
| `Calls.EarlyTimeout` | sylar/hook.cc:140-165 | so a timeout that runs between setting the timer and addEvent is lost on the call: the fiber registers and waits, its call timed out, and every timeout to come is spent |
| `Calls.EarlyTimeoutHappens` | sylar/hook.cc:140-165 | a run of two threads and one fiber gets there, for every descriptor and direction |
| `Sharing.PoliteRuns` | sylar/hook.cc:133-177 | over every run in which whoever enters do_io or registers a callback finds the event unused: a fiber inside do_io is alone at its descriptor and direction, and only a dispatch of an event that is not registered can fail; the same step over registered events only does not |
| `Sharing.PoliteKeeps` | sylar/hook.cc:133-177 | every such step keeps a fiber inside do_io alone |
| `Sharing.ReadySlotIsEmpty` | sylar/hook.cc:154 | in such a run the slot a fiber is about to register at is empty |
| `Sharing.ResumedSlotIsEmpty` | sylar/hook.cc:165-176 | and the slot of a fiber resumed in do_io is empty again |
| `Sharing.SharedFails` | sylar/hook.cc:154 | in any good state: if two running fibers enter do_io for the same empty slot and one registers, the addEvent of the other fails |
| `Sharing.SharingFails` | sylar/iomanager.cc:109-114 | a run of two threads and two fibers gets there, for every descriptor and direction |
| `Whereabouts.RunsKnown` | sylar/hook.cc:133-199 | over every run: each ticket is exactly where the history says, in the list, its slot, its timer or with its worker |
| `Whereabouts.NobodyIsLost` | sylar/hook.cc:133-199 | no fiber is lost: one that waits in do_io or sleep, or yielded READY, has a ticket, unless delEvent took its event away; one without goes on, has ended, is a spare, or yielded to hold of its own accord |
| `Whereabouts.StoppingStrandsNobody` | sylar/iomanager.cc:264-273 | when IOManager::stopping holds in a run, no fiber waits in do_io or sleep, but for those delEvent forgot |
| `Whereabouts.OnlyDelForgets` | sylar/iomanager.cc:146-178 | a step forgets a waiting fiber only if it is a delEvent that succeeds on the slot where the fiber waits |
| `Whereabouts.LostForEver` | sylar/iomanager.cc:146-178 | over every run: a fiber that delEvent forgot never goes on again, its timeout notwithstanding |
| `Patterns.ScanItem` | sylar/log.cc:263-301 | the inner loop finds the name and format up to where an item ends, or an unclosed brace |
| `Patterns.Init` | sylar/log.cc:247-321 | the two nested loops terminate on every pattern and compute the specification's token list and error flag |
| `Patterns.ScanRender` | sylar/log.cc:247-321 | scanning a rendered well-formed token list gives the same list, after any text |
| `Patterns.LettersNameItems` | sylar/log.cc:263-301 | behind any text without percent signs, an item whose name is made of characters in a to z, A to Z and closing braces, with or without a format, is scanned as itself; a name without a format ends at the first character that is none of these |
| `Patterns.UnclosedIsError` | sylar/log.cc:303-316 | an item whose brace is never closed is an error: its text comes in place of the item, and the scan goes on behind the percent sign with the text that was before it |
| `Patterns.ScanWellFormed` | sylar/log.cc:247-321 | without an error and empty braces, whatever is scanned is a well-formed token list |
| `Patterns.ScanInvertsRender` | sylar/log.cc:247-321 | main result: any token list, written with doubled percent signs, is scanned back if and only if it is well-formed (texts non-empty and not adjacent, names and formats without what ends them, nothing behind a bare item that would continue it) and no text has a percent sign |
| `Patterns.RenderScan` | sylar/log.cc:247-321 | the scanner loses nothing: without an error, rendering the tokens gives the pattern back if and only if no item has empty braces; percent signs are never lost |
| `Patterns.PercentIsNoEscape` | sylar/log.cc:253-258 | a doubled percent sign is read as one and a nameless item |
| `IPv6.Insert` | sylar/address.cc:546-570 | the loop over used_zeros prints the groups with the first run of zeros given as two colons, then the port, on hosts of either byte order |
| `IPv6.DoublesPrinted` | sylar/address.cc:550-566 | two colons in a row appear once if some group is zero and never otherwise |
| `IPv6.FirstRunGoes` | sylar/address.cc:550-566 | the two colons stand for the first run of zero groups, all of it |
| `IPv6.NumeralPlain` | sylar/address.cc:562 | digits are 0 to 9 and a to f, and a number starts with 0 only if it is 0 |
| `IPv6.ParsePrinted` | sylar/address.cc:550-566 | a parser by section 2.2 of RFC 4291 reads the printed groups back |
| `IPv6.ParseInvertsText` | sylar/address.cc:546-570 | the whole text is read back as the groups and the port |
| `IPv6.AddressReadBack` | sylar/address.cc:546-570 | read by section 2.2 of RFC 4291, the text of sixteen bytes and a port in memory gives the eight pairs of bytes, high byte first, and the port |
| `IPv6.TextInjective` | sylar/address.cc:546-570 | different addresses or ports never print alike |

## Left out

- size_t arithmetic of ByteArray is unbounded; number widths, truncation and wrap-around are explicit where values are stored.
- Bit operators of the codecs are given by the arithmetic they compute on unsigned values.
- The typed writers and readers of ByteArray are one pair of methods with the width and signedness as a parameter; the loops of its buffer getters are one method.
- ByteArray: freeing nodes, the positioned read and getReadBuffers, float and double, toString, toHexString and file I/O.
- A position or size that read, write or setPosition left behind after dereferencing the null block or throwing in the middle of a string is not described.
- ucontext switching, stacks, the fiber destructor's assertion, thread creation, epoll_wait, pipes and real clocks: steps and inputs.
- IOManager::tickle and idle counts: no claim about waking epoll_wait, and no liveness of do_io timeouts.
- Growth races of contextResize, the gap between the two locks in listExpiredCb, and negative descriptors.
- addEvent from threads without a scheduler, which stores a null scheduler.
- Scheduling an arbitrary fiber from user code other than creating it: a second ticket for a fiber would break the protocol, and nothing in the code prevents it.
- The root fiber of use_caller (call, back) and the destructor of IOManager.
- The emptying of a source by the pointer constructors of FiberAndThread shows only where triggerEvent uses it.
- Recurring timers in the protocol belong to user callbacks; fibers sleep in one-shot timers, as in the code.
- do_io, sleep, idle and the loop of run suspend in the middle: they are sequences of steps of the protocol, not methods; the bodies they call are the methods above.
- do_io before its retry loop (closed or non-socket descriptors) and connect_with_timeout.
- The lookup of item names that follows the pattern scanner, and formatting.
- IPv4, masks, address lookup, HTTP, configuration, appenders and servlets: small claims or I/O.
