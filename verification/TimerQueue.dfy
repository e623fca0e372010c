/**
 The timer queue (mymuduo/net/TimerQueue.cc, Timer.hpp): two ordered sets over the same heap-allocated timers, a
 detached batch of expired timers whose callbacks may add and cancel timers, and one timerfd.
 */
module TimerQueue {
  import opened Common

  /** An address. Every object lies below UINTPTR_MAX, the sentry of `getExpired`. */
  type Ptr = nat

  /** A `Timer` object. `repeat` is kept apart from the interval: a positive interval may be 0 microseconds. */
  datatype Timer = Timer(expiration: int, interval: nat, repeat: bool, sequence: nat)

  /** Element of `timers_`, ordered by time, then address. */
  datatype Entry = Entry(when: int, timer: Ptr)

  /** `TimerId`, and element of `activeTimers_` and `cancelingTimers_`. */
  datatype TimerId = TimerId(timer: Ptr, sequence: nat)

  // ---------- std::set<Entry>, as its sorted sequence ----------

  predicate Less(a: Entry, b: Entry) {
    a.when < b.when || (a.when == b.when && a.timer < b.timer)
  }

  predicate Sorted(es: seq<Entry>) {
    forall i, j :: 0 <= i < j < |es| ==> Less(es[i], es[j])
  }

  function InsertSorted(es: seq<Entry>, e: Entry): (r: seq<Entry>)
    ensures forall x :: x in r <==> x == e || x in es
  {
    if es == [] then [e]
    else if Less(e, es[0]) then [e] + es
    else if e == es[0] then es
    else [es[0]] + InsertSorted(es[1..], e)
  }

  lemma {:induction false} InsertSortedKeeps(es: seq<Entry>, e: Entry)
    requires Sorted(es) && e !in es
    ensures Sorted(InsertSorted(es, e)) && |InsertSorted(es, e)| == |es| + 1
  {
    if es == [] {
    } else if Less(e, es[0]) {
      SortedCons(e, es);
    } else {
      assert es == [es[0]] + es[1..];
      InsertSortedKeeps(es[1..], e);
      var r := InsertSorted(es[1..], e);
      forall x | x in r ensures Less(es[0], x) {
        if x != e { assert x in es[1..]; FirstIsLeast(es, x); }
      }
      SortedFront(es[0], r);
    }
  }

  lemma FirstIsLeast(es: seq<Entry>, x: Entry)
    requires Sorted(es) && es != [] && x in es[1..]
    ensures Less(es[0], x)
  {
    var k :| 0 < k < |es| && es[k] == x;
  }

  lemma SortedCons(e: Entry, es: seq<Entry>)
    requires Sorted(es) && es != [] && Less(e, es[0])
    ensures Sorted([e] + es)
  {
    forall x | x in es ensures Less(e, x) {
      if x != es[0] { assert es == [es[0]] + es[1..]; FirstIsLeast(es, x); }
    }
    SortedFront(e, es);
  }

  lemma SortedFront(e: Entry, es: seq<Entry>)
    requires Sorted(es) && forall x :: x in es ==> Less(e, x)
    ensures Sorted([e] + es)
  {
    var r := [e] + es;
    forall i, j | 0 <= i < j < |r| ensures Less(r[i], r[j]) {
      assert r[j] in es;
    }
  }

  function EraseSorted(es: seq<Entry>, e: Entry): seq<Entry> {
    if es == [] then [] else if es[0] == e then es[1..] else [es[0]] + EraseSorted(es[1..], e)
  }

  lemma {:induction false} EraseSortedKeeps(es: seq<Entry>, e: Entry)
    requires Sorted(es) && e in es
    ensures Sorted(EraseSorted(es, e)) && |EraseSorted(es, e)| == |es| - 1
    ensures forall x :: x in EraseSorted(es, e) <==> x in es && x != e
  {
    if es[0] == e {
      assert forall k :: 0 < k < |es| ==> Less(es[0], es[k]);
      assert forall x :: x in es <==> x == es[0] || x in es[1..];
    } else {
      assert e in es[1..];
      EraseSortedKeeps(es[1..], e);
      var r := EraseSorted(es[1..], e);
      assert forall k :: 0 <= k < |r| ==> r[k] in r && r[k] in es[1..];
      assert forall x :: x in es <==> x == es[0] || x in es[1..];
      assert forall k :: 0 < k < |es| ==> Less(es[0], es[k]);
    }
  }

  /** `lower_bound` of (now, UINTPTR_MAX): how many entries are due. */
  function DueCount(es: seq<Entry>, now: int): (n: nat)
    ensures n <= |es|
  {
    if es == [] || es[0].when > now then 0 else 1 + DueCount(es[1..], now)
  }

  lemma {:induction false} DueCountSplits(es: seq<Entry>, now: int)
    requires Sorted(es)
    ensures forall k :: 0 <= k < DueCount(es, now) ==> es[k].when <= now
    ensures forall k :: DueCount(es, now) <= k < |es| ==> now < es[k].when
  {
    if es != [] && es[0].when <= now {
      DueCountSplits(es[1..], now);
      assert forall k :: 0 < k < |es| ==> es[k] == es[1..][k - 1];
    } else if es != [] {
      assert forall k :: 0 < k < |es| ==> Less(es[0], es[k]);
    }
  }

  // ---------- The machine ----------

  datatype State = State(
    timers: seq<Entry>, active: set<TimerId>, canceling: set<TimerId>, calling: bool,
    heap: map<Ptr, Timer>, numCreated: nat,
    alarm: Option<int>,         // when the timerfd becomes readable; None once it has been read
    clock: int,                 // the latest clock reading
    armedAt: int,               // the clock reading the timerfd was last armed with
    transit: set<Ptr>,          // allocated by addTimer, addTimerInLoop still to run
    batch: seq<Entry>,          // handleRead's `expired`, less what `reset` has dealt with
    next: nat,                  // the next element of the batch to be called
    batchTime: int,             // handleRead's `now`
    resetting: bool,            // in the loop of `reset`
    disposing: bool,            // in the destructor of the batch's front, which `reset` is deleting
    erasing: Option<TimerId>,   // in the destructor of a timer that `cancelInLoop` is deleting, between its two erases
    aborted: bool,              // an assert failed
    born: map<nat, Ptr>)        // history: the address each sequence number was given to

  const INIT := State([], {}, {}, false, map[], 0, None, 1, 0, {}, [], 0, 1, false, false, None, false, map[])

  /** A `delete` is two steps: between them runs the destructor of the callback, which is user code. */
  datatype Event =
    | New(timer: Ptr, when: int, interval: nat, repeat: bool)   // addTimer, on any thread
    | AddInLoop(timer: Ptr, now: int)
    | CancelInLoop(id: TimerId)                                 // as far as its delete, if there is one
    | CancelDeleted                                             // the rest of cancelInLoop
    | BeginRead(now: int)                                       // handleRead up to its callbacks
    | RunCallback
    | BeginReset
    | ResetNext                                                 // a turn of reset, as far as its delete
    | TimerDeleted                                              // the end of that delete
    | EndRead(now: int)                                         // `now` is the clock reading that arms the timerfd

  /** User code runs on the loop thread: between polls, in a callback, or in a destructor. */
  predicate UserCode(s: State) {
    s.resetting ==> s.disposing
  }

  /** Neither in handleRead nor in the middle of a cancel. */
  predicate Quiet(s: State) {
    !s.calling && !s.resetting && s.erasing.None?
  }

  predicate Enabled(s: State, e: Event) {
    && !s.aborted
    && match e
       case New(p, _, _, _) => p !in s.heap
       case AddInLoop(p, now) => UserCode(s) && p in s.transit && now >= s.clock
       case CancelInLoop(_) => UserCode(s)
       case CancelDeleted => s.erasing.Some?
       case BeginRead(now) => Quiet(s) && s.alarm.Some? && s.alarm.value <= now && now >= s.clock
       case RunCallback => s.calling && s.erasing.None? && s.next < |s.batch|
       case BeginReset => s.calling && s.erasing.None? && s.next == |s.batch|
       case ResetNext => s.resetting && !s.disposing && s.batch != []
       case TimerDeleted => s.disposing && s.erasing.None?
       case EndRead(now) => s.resetting && !s.disposing && s.batch == [] && now >= s.clock
  }

  function IdOf(s: State, p: Ptr): TimerId
    requires p in s.heap
  {
    TimerId(p, s.heap[p].sequence)
  }

  predicate BatchLive(batch: seq<Entry>, heap: map<Ptr, Timer>) {
    && (forall i :: 0 <= i < |batch| ==> batch[i].timer in heap)
    && (forall i, j :: 0 <= i < j < |batch| ==> batch[i].timer != batch[j].timer)
  }

  function IdsOf(es: seq<Entry>, heap: map<Ptr, Timer>): set<TimerId>
    requires forall i :: 0 <= i < |es| ==> es[i].timer in heap
  {
    set i | 0 <= i < |es| :: TimerId(es[i].timer, heap[es[i].timer].sequence)
  }

  /** The test in `reset`. */
  predicate ToRearm(s: State, p: Ptr)
    requires p in s.heap
  {
    s.heap[p].repeat && IdOf(s, p) !in s.canceling
  }

  /** The timer after `restart`. */
  function Restarted(s: State, p: Ptr): Timer
    requires p in s.heap
  {
    s.heap[p].(expiration := s.batchTime + s.heap[p].interval)
  }

  /** The source's asserts, and that every Timer dereferenced or deleted is alive. */
  predicate AssertsHold(s: State, e: Event)
    requires Enabled(s, e)
  {
    match e
    case New(_, _, _, _) => true
    case AddInLoop(p, _) =>
      && |s.timers| == |s.active|
      && p in s.heap && Entry(s.heap[p].expiration, p) !in s.timers && IdOf(s, p) !in s.active
    case CancelInLoop(id) =>
      && |s.timers| == |s.active|
      && (id in s.active ==> id.timer in s.heap && Entry(s.heap[id.timer].expiration, id.timer) in s.timers)
    case CancelDeleted =>
      s.erasing.value in s.active && s.erasing.value.timer in s.heap && |s.timers| == |s.active - {s.erasing.value}|
    case BeginRead(now) =>
      var n := DueCount(s.timers, now);
      && (n < |s.timers| ==> now < s.timers[n].when)
      && BatchLive(s.timers[..n], s.heap)
      && (forall i :: 0 <= i < n ==> IdOf(s, s.timers[i].timer) in s.active)
    case RunCallback => s.batch[s.next].timer in s.heap
    case BeginReset => true
    case ResetNext =>
      var p := s.batch[0].timer;
      && p in s.heap && IdOf(s, p) !in s.active
      && (ToRearm(s, p) ==> |s.timers| == |s.active| && Entry(Restarted(s, p).expiration, p) !in s.timers)
    case TimerDeleted => s.batch != [] && s.batch[0].timer in s.heap
    case EndRead(_) => s.timers != [] ==> s.timers[0].timer in s.heap
  }

  /** `resetTimerfd`: `howMuchTimeFromNow` never waits less than 100 microseconds. */
  function AlarmFor(when: int, now: int): int {
    now + Max(when - now, 100)
  }

  /** `insert`, and whether the earliest expiration changed. */
  function Insert(s: State, p: Ptr): State
    requires p in s.heap
  {
    s.(timers := InsertSorted(s.timers, Entry(s.heap[p].expiration, p)), active := s.active + {IdOf(s, p)})
  }

  predicate EarliestChanged(s: State, when: int) {
    s.timers == [] || when < s.timers[0].when
  }

  /** The end of `reset`: arm the timerfd for the earliest expiration, if that is a valid timestamp. */
  function Rearm(s: State, now: int): State {
    if s.timers != [] && s.timers[0].when > 0 then
      s.(alarm := Some(AlarmFor(s.timers[0].when, now)), armedAt := now, clock := now)
    else s
  }

  function Apply(s: State, e: Event): State
    requires Enabled(s, e) && AssertsHold(s, e)
  {
    match e
    case New(p, when, interval, repeat) =>
      var n := s.numCreated + 1;
      s.(heap := s.heap[p := Timer(when, interval, repeat, n)], numCreated := n, transit := s.transit + {p},
         born := s.born[n := p])
    case AddInLoop(p, now) =>
      var when := s.heap[p].expiration;
      var t := Insert(s.(transit := s.transit - {p}), p);
      if EarliestChanged(s, when) then t.(alarm := Some(AlarmFor(when, now)), armedAt := now, clock := now) else t
    case CancelInLoop(id) =>
      if id in s.active then
        s.(timers := EraseSorted(s.timers, Entry(s.heap[id.timer].expiration, id.timer)), erasing := Some(id))
      else if s.calling then s.(canceling := s.canceling + {id})
      else s
    case CancelDeleted =>
      var id := s.erasing.value;
      s.(heap := s.heap - {id.timer}, active := s.active - {id}, erasing := None)
    case BeginRead(now) =>
      var n := DueCount(s.timers, now);
      s.(batch := s.timers[..n], timers := s.timers[n..],
         active := s.active - IdsOf(s.timers[..n], s.heap),
         calling := true, canceling := {}, next := 0, batchTime := now, alarm := None, clock := now)
    case RunCallback => s.(next := s.next + 1)
    case BeginReset => s.(calling := false, next := 0, resetting := true)
    case ResetNext =>
      var p := s.batch[0].timer;
      if ToRearm(s, p) then Insert(s.(heap := s.heap[p := Restarted(s, p)], batch := s.batch[1..]), p)
      else s.(disposing := true)
    case TimerDeleted => s.(heap := s.heap - {s.batch[0].timer}, batch := s.batch[1..], disposing := false)
    case EndRead(now) => Rearm(s, now).(resetting := false)
  }

  /** A failed assert aborts the program. */
  function Next(s: State, e: Event): State
    requires Enabled(s, e)
  {
    if AssertsHold(s, e) then Apply(s, e) else s.(aborted := true)
  }

  /** A destructor run by `cancelInLoop` adds or cancels a timer. */
  predicate Interrupts(s: State, e: Event) {
    s.erasing.Some? && (e.AddInLoop? || e.CancelInLoop?)
  }

  // ---------- Invariants ----------

  /** The two sets hold the same timers, and the keys stored in them are the timers' own. */
  predicate Indexed(timers: seq<Entry>, active: set<TimerId>, heap: map<Ptr, Timer>) {
    && Sorted(timers) && |timers| == |active|
    && (forall e :: e in timers ==>
          e.timer in heap && heap[e.timer].expiration == e.when && TimerId(e.timer, heap[e.timer].sequence) in active)
    && (forall a :: a in active ==>
          a.timer in heap && heap[a.timer].sequence == a.sequence && Entry(heap[a.timer].expiration, a.timer) in timers)
  }

  /** `activeTimers_` without the timer that has left `timers_` already. */
  function Standing(s: State): set<TimerId> {
    if s.erasing.Some? then s.active - {s.erasing.value} else s.active
  }

  function BatchTimers(batch: seq<Entry>): set<Ptr> {
    set e | e in batch :: e.timer
  }

  /** A live timer has one owner: the two sets, the batch, or an addTimerInLoop that is still to run. */
  predicate OneOwner(p: Ptr, id: TimerId, active: set<TimerId>, batch: seq<Entry>, transit: set<Ptr>) {
    && (id in active || p in BatchTimers(batch) || p in transit)
    && !(id in active && p in BatchTimers(batch))
    && !(id in active && p in transit)
    && !(p in BatchTimers(batch) && p in transit)
  }

  predicate Owned(s: State) {
    && (forall p :: p in s.heap ==> OneOwner(p, IdOf(s, p), s.active, s.batch, s.transit))
    && (forall p :: p in s.transit ==> p in s.heap)
    && BatchLive(s.batch, s.heap)
  }

  /** Sequence numbers are given out once each. */
  predicate Sequenced(heap: map<Ptr, Timer>, numCreated: nat, born: map<nat, Ptr>) {
    && (forall n :: n in born ==> 1 <= n <= numCreated)
    && (forall n :: 1 <= n <= numCreated ==> n in born)
    && (forall p :: p in heap ==> heap[p].sequence in born && born[heap[p].sequence] == p)
  }

  /** The timerfd is armed early enough; in handleRead, only for timers that the end of `reset` would pass over. */
  predicate Armed(s: State) {
    && s.clock > 0 && (s.calling || s.resetting ==> s.batchTime > 0)
    && (s.timers != [] && (s.calling ==> s.timers[0].when <= s.batchTime) && (s.resetting ==> s.timers[0].when <= 0) ==>
          s.alarm.Some? && s.alarm.value <= Max(s.timers[0].when, s.armedAt + 100))
  }

  /** Where the loop thread can be. */
  predicate Placed(s: State) {
    && !(s.calling && s.resetting)
    && (!s.calling && !s.resetting ==> s.batch == [])
    && (s.calling ==> s.next <= |s.batch|)
    && (s.disposing ==> s.resetting && s.batch != [] &&
                        (s.batch[0].timer in s.heap ==> !ToRearm(s, s.batch[0].timer)))
    && (s.erasing.Some? ==> UserCode(s) && s.erasing.value in s.active && s.erasing.value.timer in s.heap &&
                            s.heap[s.erasing.value.timer].sequence == s.erasing.value.sequence)
  }

  predicate Inv(s: State) {
    && Indexed(s.timers, Standing(s), s.heap)
    && Owned(s)
    && Sequenced(s.heap, s.numCreated, s.born)
    && Armed(s)
    && Placed(s)
  }

  // ---------- Index lemmas ----------

  lemma IndexedFrame(timers: seq<Entry>, active: set<TimerId>, heap: map<Ptr, Timer>, heap': map<Ptr, Timer>)
    requires Indexed(timers, active, heap)
    requires forall a :: a in active ==> a.timer in heap' && heap'[a.timer] == heap[a.timer]
    ensures Indexed(timers, active, heap')
  {
  }

  lemma InsertIndexed(timers: seq<Entry>, active: set<TimerId>, heap: map<Ptr, Timer>, p: Ptr)
    requires Indexed(timers, active, heap)
    requires p in heap && TimerId(p, heap[p].sequence) !in active
    ensures Entry(heap[p].expiration, p) !in timers
    ensures Indexed(InsertSorted(timers, Entry(heap[p].expiration, p)), active + {TimerId(p, heap[p].sequence)}, heap)
  {
    InsertSortedKeeps(timers, Entry(heap[p].expiration, p));
  }

  lemma EraseIndexed(timers: seq<Entry>, active: set<TimerId>, heap: map<Ptr, Timer>, id: TimerId)
    requires Indexed(timers, active, heap) && id in active
    ensures Indexed(EraseSorted(timers, Entry(heap[id.timer].expiration, id.timer)), active - {id}, heap)
  {
    EraseSortedKeeps(timers, Entry(heap[id.timer].expiration, id.timer));
  }

  lemma FirstOfInsert(es: seq<Entry>, e: Entry)
    requires Sorted(es)
    ensures InsertSorted(es, e) != []
    ensures InsertSorted(es, e)[0].when == if es == [] || e.when < es[0].when then e.when else es[0].when
  {
  }

  lemma FirstOfErase(es: seq<Entry>, e: Entry)
    requires Sorted(es) && e in es
    ensures EraseSorted(es, e) != [] ==> EraseSorted(es, e)[0].when >= es[0].when
  {
    EraseSortedKeeps(es, e);
    var r := EraseSorted(es, e);
    if r != [] {
      assert r[0] in r;
      var k :| 0 <= k < |es| && es[k] == r[0];
      assert k > 0 ==> Less(es[0], es[k]);
    }
  }

  // ---------- Each step keeps the invariant ----------

  lemma NewStep(s: State, e: Event)
    requires Inv(s) && Enabled(s, e) && e.New?
    ensures AssertsHold(s, e) && Inv(Apply(s, e))
  {
    hide Sorted, Owned, Indexed;
    var t := Apply(s, e);
    ActiveAlive(s);
    assert BatchLive(s.batch, s.heap) by { BatchAlive(s); }
    NewIndexed(s.timers, Standing(s), s.heap, e.timer, t.heap[e.timer]);
    NewOwned(s, e.timer, t.heap[e.timer]);
    OwnedFrame(s.(heap := t.heap, transit := s.transit + {e.timer}), t);
  }

  lemma BatchAlive(s: State)
    requires Owned(s)
    ensures BatchLive(s.batch, s.heap)
  {
  }

  lemma ActiveAlive(s: State)
    requires Indexed(s.timers, Standing(s), s.heap) && Placed(s)
    ensures forall a :: a in s.active ==> a.timer in s.heap
  {
    hide Sorted;
  }

  lemma NewIndexed(timers: seq<Entry>, active: set<TimerId>, heap: map<Ptr, Timer>, p: Ptr, timer: Timer)
    requires Indexed(timers, active, heap) && p !in heap
    ensures Indexed(timers, active, heap[p := timer])
  {
    hide Sorted;
    IndexedFrame(timers, active, heap, heap[p := timer]);
  }

  lemma NewOwned(s: State, p: Ptr, timer: Timer)
    requires Owned(s) && p !in s.heap
    requires forall a :: a in s.active ==> a.timer in s.heap
    ensures Owned(s.(heap := s.heap[p := timer], transit := s.transit + {p}))
  {
    assert p !in BatchTimers(s.batch);
    assert TimerId(p, timer.sequence) !in s.active;
  }

  lemma AddStep(s: State, e: Event)
    requires Inv(s) && Enabled(s, e) && e.AddInLoop? && s.erasing.None?
    ensures AssertsHold(s, e) && Inv(Apply(s, e))
  {
    hide Apply, AssertsHold, Indexed, Owned, Sequenced, Armed, Placed, Enabled, Standing;
    AddAsserts(s, e);
    AddIndexed(s, e);
    AddArmed(s, e);
  }

  lemma AddIndexed(s: State, e: Event)
    requires Inv(s) && Enabled(s, e) && e.AddInLoop? && s.erasing.None? && AssertsHold(s, e)
    ensures var t := Apply(s, e);
            Indexed(t.timers, Standing(t), t.heap) && Owned(t) && Sequenced(t.heap, t.numCreated, t.born) && Placed(t)
  {
    hide Indexed, InsertSorted, Owned, Sequenced, Armed, AssertsHold, EarliestChanged;
    var p := e.timer;
    TransitIsNew(s, p);
    assert Standing(s) == s.active;
    InsertIndexed(s.timers, s.active, s.heap, p);
    OwnedFrame(s.(transit := s.transit - {p}, active := s.active + {IdOf(s, p)}), Apply(s, e));
  }

  lemma AddArmed(s: State, e: Event)
    requires Inv(s) && Enabled(s, e) && e.AddInLoop? && AssertsHold(s, e)
    ensures Armed(Apply(s, e))
  {
    hide Sorted, InsertSorted, Owned, Sequenced, Placed;
    FirstOfTimersInsert(s, Entry(s.heap[e.timer].expiration, e.timer));
  }

  lemma AddAsserts(s: State, e: Event)
    requires Inv(s) && Enabled(s, e) && e.AddInLoop? && s.erasing.None?
    ensures AssertsHold(s, e)
  {
    hide Sorted, Owned, Sequenced, Armed;
    TransitIsNew(s, e.timer);
  }

  lemma TransitIsNew(s: State, p: Ptr)
    requires Owned(s) && p in s.transit
    ensures p in s.heap && IdOf(s, p) !in s.active && p !in BatchTimers(s.batch)
    ensures Owned(s.(transit := s.transit - {p}, active := s.active + {IdOf(s, p)}))
  {
    assert OneOwner(p, IdOf(s, p), s.active, s.batch, s.transit);
  }

  lemma FirstOfTimersInsert(s: State, e: Entry)
    requires Sorted(s.timers)
    ensures InsertSorted(s.timers, e) != []
    ensures InsertSorted(s.timers, e)[0].when == if EarliestChanged(s, e.when) then e.when else s.timers[0].when
  {
    FirstOfInsert(s.timers, e);
  }

  lemma CancelStep(s: State, e: Event)
    requires Inv(s) && Enabled(s, e) && e.CancelInLoop? && s.erasing.None?
    ensures AssertsHold(s, e) && Inv(Apply(s, e))
  {
    hide Sorted, InsertSorted, EraseSorted, Owned, Sequenced;
    var id := e.id;
    OwnedFrame(s, Apply(s, e));
    if id in s.active {
      EraseIndexed(s.timers, s.active, s.heap, id);
      EraseFirst(s, id);
    }
  }

  lemma CancelDeletedStep(s: State)
    requires Inv(s) && Enabled(s, CancelDeleted)
    ensures AssertsHold(s, CancelDeleted) && Inv(Apply(s, CancelDeleted))
  {
    hide Sorted, Owned, Sequenced;
    var id := s.erasing.value;
    assert Standing(s) == s.active - {id};
    IndexedFrame(s.timers, s.active - {id}, s.heap, s.heap - {id.timer});
    CancelOwned(s, id);
    OwnedFrame(s.(heap := s.heap - {id.timer}, active := s.active - {id}), Apply(s, CancelDeleted));
  }

  lemma OwnedFrame(s: State, t: State)
    requires Owned(s)
    requires t.heap == s.heap && t.active == s.active && t.batch == s.batch && t.transit == s.transit
    ensures Owned(t)
  {
  }

  lemma CancelOwned(s: State, id: TimerId)
    requires Inv(s) && s.erasing == Some(id)
    ensures Owned(s.(heap := s.heap - {id.timer}, active := s.active - {id}))
    ensures Sequenced(s.heap - {id.timer}, s.numCreated, s.born)
  {
    hide Sorted, Armed, Indexed;
    assert IdOf(s, id.timer) == id;
    forall i | 0 <= i < |s.batch| ensures s.batch[i].timer != id.timer {
      assert s.batch[i] in s.batch;
      assert s.batch[i].timer in BatchTimers(s.batch);
    }
  }

  lemma EraseFirst(s: State, id: TimerId)
    requires Indexed(s.timers, s.active, s.heap) && id in s.active
    ensures var es := EraseSorted(s.timers, Entry(s.heap[id.timer].expiration, id.timer));
            es != [] ==> s.timers != [] && es[0].when >= s.timers[0].when
  {
    FirstOfErase(s.timers, Entry(s.heap[id.timer].expiration, id.timer));
  }

  lemma DistinctTimers(timers: seq<Entry>, active: set<TimerId>, heap: map<Ptr, Timer>, i: nat, j: nat)
    requires Indexed(timers, active, heap) && i < j < |timers|
    ensures timers[i].timer != timers[j].timer
  {
    assert Less(timers[i], timers[j]);
    assert timers[i] in timers && timers[j] in timers;
  }

  lemma PrefixIsActive(timers: seq<Entry>, active: set<TimerId>, heap: map<Ptr, Timer>, n: nat)
    requires Indexed(timers, active, heap) && n <= |timers|
    ensures BatchLive(timers[..n], heap)
    ensures IdsOf(timers[..n], heap) <= active && |IdsOf(timers[..n], heap)| == n
  {
    hide Sorted;
    var gone := timers[..n];
    assert forall i :: 0 <= i < |timers| ==> timers[i] in timers;
    forall i, j | 0 <= i < j < n ensures gone[i].timer != gone[j].timer {
      DistinctTimers(timers, active, heap, i, j);
    }
    IdsCount(gone, heap);
  }

  /** Taking the first `n` entries out of both sets leaves the two sets in step. */
  lemma DetachDue(timers: seq<Entry>, active: set<TimerId>, heap: map<Ptr, Timer>, n: nat)
    requires Indexed(timers, active, heap) && n <= |timers|
    ensures BatchLive(timers[..n], heap)
    ensures IdsOf(timers[..n], heap) <= active
    ensures Indexed(timers[n..], active - IdsOf(timers[..n], heap), heap)
  {
    hide Sorted, IdsOf, BatchLive;
    PrefixIsActive(timers, active, heap, n);
    var gone, rest := timers[..n], timers[n..];
    var kept := active - IdsOf(gone, heap);
    forall a | a in kept ensures Entry(heap[a.timer].expiration, a.timer) in rest {
      KeptIsInRest(timers, active, heap, n, a);
    }
    forall e | e in rest ensures e.timer in heap && TimerId(e.timer, heap[e.timer].sequence) in kept {
      RestIsKept(timers, active, heap, n, e);
    }
    SortedSuffix(timers, n);
  }

  lemma SortedSuffix(es: seq<Entry>, n: nat)
    requires Sorted(es) && n <= |es|
    ensures Sorted(es[n..])
  {
  }

  lemma KeptIsInRest(timers: seq<Entry>, active: set<TimerId>, heap: map<Ptr, Timer>, n: nat, a: TimerId)
    requires Indexed(timers, active, heap) && n <= |timers| && BatchLive(timers[..n], heap)
    requires a in active && a !in IdsOf(timers[..n], heap)
    ensures Entry(heap[a.timer].expiration, a.timer) in timers[n..]
  {
    hide Sorted;
    var e := Entry(heap[a.timer].expiration, a.timer);
    forall i | 0 <= i < n ensures TimerId(timers[i].timer, heap[timers[i].timer].sequence) != a {
      assert timers[..n][i] == timers[i];
    }
    var k :| 0 <= k < |timers| && timers[k] == e;
    assert timers[n..][k - n] == e;
  }

  lemma RestIsKept(timers: seq<Entry>, active: set<TimerId>, heap: map<Ptr, Timer>, n: nat, e: Entry)
    requires Indexed(timers, active, heap) && n <= |timers| && BatchLive(timers[..n], heap)
    requires e in timers[n..]
    ensures e.timer in heap && TimerId(e.timer, heap[e.timer].sequence) in active - IdsOf(timers[..n], heap)
  {
    hide Sorted;
    var k :| n <= k < |timers| && timers[k] == e;
    assert timers[k] in timers;
    forall i | 0 <= i < n ensures timers[i].timer != e.timer {
      DistinctTimers(timers, active, heap, i, k);
    }
  }

  lemma IdsSnoc(es: seq<Entry>, heap: map<Ptr, Timer>, i: nat)
    requires i < |es| && forall k :: 0 <= k < |es| ==> es[k].timer in heap
    ensures IdsOf(es[..i + 1], heap) == IdsOf(es[..i], heap) + {TimerId(es[i].timer, heap[es[i].timer].sequence)}
  {
    var longer := es[..i + 1];
    assert longer[i] == es[i] && forall k :: 0 <= k < i ==> longer[k] == es[..i][k];
  }

  lemma {:induction false} IdsCount(es: seq<Entry>, heap: map<Ptr, Timer>)
    requires BatchLive(es, heap)
    ensures |IdsOf(es, heap)| == |es|
  {
    if es != [] {
      var n := |es| - 1;
      IdsCount(es[..n], heap);
      IdsSnoc(es, heap, n);
      assert es[..n + 1] == es;
      assert TimerId(es[n].timer, heap[es[n].timer].sequence) !in IdsOf(es[..n], heap);
    }
  }

  /** The fields after `getExpired`, written out. */
  ghost function Detached(s: State, now: int): State
    requires BatchLive(s.timers[..DueCount(s.timers, now)], s.heap)
  {
    var n := DueCount(s.timers, now);
    s.(batch := s.timers[..n], timers := s.timers[n..], active := s.active - IdsOf(s.timers[..n], s.heap),
       calling := true, canceling := {}, next := 0, batchTime := now, alarm := None, clock := now)
  }

  lemma BeginUnfolds(s: State, now: int)
    requires Enabled(s, BeginRead(now)) && AssertsHold(s, BeginRead(now))
    ensures var n := DueCount(s.timers, now);
            && BatchLive(s.timers[..n], s.heap)
            && (n < |s.timers| ==> now < s.timers[n].when)
            && Apply(s, BeginRead(now)) == Detached(s, now)
  {
  }

  lemma BeginStep(s: State, e: Event)
    requires Inv(s) && Enabled(s, e) && e.BeginRead?
    ensures AssertsHold(s, e) && Inv(Apply(s, e))
  {
    hide Sorted, Indexed, Sequenced, DueCount, Owned, BatchLive, IdsOf, AssertsHold, Apply;
    var n := DueCount(s.timers, e.now);
    BeginAsserts(s, e.now);
    BeginUnfolds(s, e.now);
    DetachDue(s.timers, s.active, s.heap, n);
    var t := Detached(s, e.now);
    DetachOwned(s, n);
    OwnedFrame(s.(batch := s.timers[..n], active := s.active - IdsOf(s.timers[..n], s.heap)), t);
    assert t.timers != [] ==> t.timers[0] == s.timers[n];
  }

  lemma DueNow(s: State, now: int)
    requires Indexed(s.timers, s.active, s.heap)
    ensures var n := DueCount(s.timers, now);
            && (n < |s.timers| ==> now < s.timers[n].when)
            && (forall k :: 0 <= k < n ==> s.timers[k].when <= now)
            && (forall k :: n <= k < |s.timers| ==> now < s.timers[k].when)
  {
    DueCountSplits(s.timers, now);
  }

  lemma BeginAsserts(s: State, now: int)
    requires Inv(s) && Enabled(s, BeginRead(now))
    ensures AssertsHold(s, BeginRead(now))
  {
    hide Sorted, DueCount, Owned, Sequenced, Armed, BatchLive;
    var n := DueCount(s.timers, now);
    DueNow(s, now);
    DetachDue(s.timers, s.active, s.heap, n);
    forall i | 0 <= i < n ensures s.timers[i].timer in s.heap && IdOf(s, s.timers[i].timer) in s.active {
      assert s.timers[i] in s.timers;
    }
  }

  lemma DetachOwned(s: State, n: nat)
    requires Inv(s) && s.batch == [] && n <= |s.timers| && BatchLive(s.timers[..n], s.heap)
    ensures Owned(s.(batch := s.timers[..n], active := s.active - IdsOf(s.timers[..n], s.heap)))
  {
    hide Sorted, Sequenced, Armed;
    var gone := s.timers[..n];
    var ids := IdsOf(gone, s.heap);
    forall p | p in s.heap ensures OneOwner(p, IdOf(s, p), s.active - ids, gone, s.transit) {
      assert OneOwner(p, IdOf(s, p), s.active, s.batch, s.transit);
      assert p !in BatchTimers(s.batch);
      IdInBatch(gone, s.heap, p);
      if p in BatchTimers(gone) {
        var e :| e in gone && e.timer == p;
        assert e in s.timers;
      }
    }
  }

  lemma IdInBatch(es: seq<Entry>, heap: map<Ptr, Timer>, p: Ptr)
    requires p in heap && forall i :: 0 <= i < |es| ==> es[i].timer in heap
    ensures TimerId(p, heap[p].sequence) in IdsOf(es, heap) <==> p in BatchTimers(es)
  {
    if p in BatchTimers(es) {
      var e :| e in es && e.timer == p;
      var i :| 0 <= i < |es| && es[i] == e;
    }
  }

  lemma CallbackStep(s: State, e: Event)
    requires Inv(s) && Enabled(s, e) && (e.RunCallback? || e.BeginReset?)
    ensures AssertsHold(s, e) && Inv(Apply(s, e))
  {
    hide Sorted, Sequenced;
    OwnedFrame(s, Apply(s, e));
  }

  /** The front of the batch is in neither set. */
  lemma FrontIsFresh(s: State)
    requires Inv(s) && s.batch != []
    ensures var p := s.batch[0].timer;
            && p in s.heap && IdOf(s, p) !in s.active && p !in s.transit
            && (forall when :: Entry(when, p) !in s.timers)
            && (forall a :: a in s.active ==> a.timer != p)
  {
    hide Sorted, Armed, Sequenced;
    var p := s.batch[0].timer;
    assert s.batch[0] in s.batch && p in BatchTimers(s.batch);
    assert OneOwner(p, IdOf(s, p), s.active, s.batch, s.transit);
  }

  lemma ResetNextStep(s: State)
    requires Inv(s) && Enabled(s, ResetNext)
    ensures AssertsHold(s, ResetNext) && Inv(Apply(s, ResetNext))
  {
    hide Sorted, InsertSorted, Sequenced, Owned;
    FrontIsFresh(s);
    var p := s.batch[0].timer;
    assert s.erasing.None?;
    if ToRearm(s, p) {
      var heap' := s.heap[p := Restarted(s, p)];
      IndexedFrame(s.timers, s.active, s.heap, heap');
      InsertIndexed(s.timers, s.active, heap', p);
      FirstOfTimersInsert(s, Entry(heap'[p].expiration, p));
      SequencedUpdate(s, p, heap'[p]);
      RestartOwned(s, heap'[p]);
      OwnedFrame(s.(batch := s.batch[1..], heap := heap', active := s.active + {IdOf(s, p)}), Apply(s, ResetNext));
    } else {
      OwnedFrame(s, Apply(s, ResetNext));
    }
  }

  lemma TimerDeletedStep(s: State)
    requires Inv(s) && Enabled(s, TimerDeleted)
    ensures AssertsHold(s, TimerDeleted) && Inv(Apply(s, TimerDeleted))
  {
    hide Sorted, Sequenced, Owned;
    FrontIsFresh(s);
    var p := s.batch[0].timer;
    IndexedFrame(s.timers, s.active, s.heap, s.heap - {p});
    SequencedRemove(s, p);
    DeleteOwned(s);
    OwnedFrame(s.(batch := s.batch[1..], heap := s.heap - {p}), Apply(s, TimerDeleted));
  }

  lemma EndStep(s: State, e: Event)
    requires Inv(s) && Enabled(s, e) && e.EndRead?
    ensures AssertsHold(s, e) && Inv(Apply(s, e))
  {
    hide Sorted, Sequenced, Owned;
    assert s.timers != [] ==> s.timers[0] in s.timers;
    OwnedFrame(s, Apply(s, e));
  }

  lemma BatchTail(s: State)
    requires BatchLive(s.batch, s.heap) && s.batch != []
    ensures BatchTimers(s.batch[1..]) == BatchTimers(s.batch) - {s.batch[0].timer}
    ensures forall i :: 0 <= i < |s.batch[1..]| ==> s.batch[1..][i].timer != s.batch[0].timer
  {
    var tail := s.batch[1..];
    assert s.batch == [s.batch[0]] + tail;
    forall p | p in BatchTimers(tail) ensures p != s.batch[0].timer && p in BatchTimers(s.batch) {
      var e :| e in tail && e.timer == p;
      var i :| 0 <= i < |tail| && tail[i] == e;
      assert s.batch[i + 1] == e;
    }
  }

  lemma SequencedUpdate(s: State, p: Ptr, timer: Timer)
    requires Sequenced(s.heap, s.numCreated, s.born) && p in s.heap && timer.sequence == s.heap[p].sequence
    ensures Sequenced(s.heap[p := timer], s.numCreated, s.born)
  {
  }

  lemma SequencedRemove(s: State, p: Ptr)
    requires Sequenced(s.heap, s.numCreated, s.born)
    ensures Sequenced(s.heap - {p}, s.numCreated, s.born)
  {
  }

  lemma RestartOwned(s: State, timer: Timer)
    requires Owned(s) && s.batch != []
    requires timer.sequence == s.heap[s.batch[0].timer].sequence
    ensures var p := s.batch[0].timer;
            Owned(s.(batch := s.batch[1..], heap := s.heap[p := timer], active := s.active + {IdOf(s, p)}))
  {
    BatchTail(s);
    assert s.batch[0].timer in BatchTimers(s.batch) by { assert s.batch[0] in s.batch; }
  }

  lemma DeleteOwned(s: State)
    requires Owned(s) && s.batch != []
    ensures Owned(s.(batch := s.batch[1..], heap := s.heap - {s.batch[0].timer}))
  {
    BatchTail(s);
    assert s.batch[0].timer in BatchTimers(s.batch) by { assert s.batch[0] in s.batch; }
  }

  lemma InterruptAborts(s: State, e: Event)
    requires Inv(s) && Enabled(s, e) && Interrupts(s, e)
    ensures !AssertsHold(s, e)
  {
    hide Sorted, Owned, Sequenced, Armed;
    assert |Standing(s)| == |s.active| - 1;
  }

  /** An assert of the source fails exactly at an add or cancel made in the middle of a cancel; no dead timer is
      touched, and every other step keeps the invariant. */
  lemma InvStep(s: State, e: Event)
    requires Inv(s) && Enabled(s, e)
    ensures AssertsHold(s, e) <==> !Interrupts(s, e)
    ensures Inv(Next(s, e))
  {
    hide Inv, Apply, AssertsHold;
    if Interrupts(s, e) {
      InterruptAborts(s, e);
      AbortKeeps(s);
    } else {
      match e
      case New(_, _, _, _) => NewStep(s, e);
      case AddInLoop(_, _) => AddStep(s, e);
      case CancelInLoop(_) => CancelStep(s, e);
      case CancelDeleted => CancelDeletedStep(s);
      case BeginRead(_) => BeginStep(s, e);
      case RunCallback => CallbackStep(s, e);
      case BeginReset => CallbackStep(s, e);
      case ResetNext => ResetNextStep(s);
      case TimerDeleted => TimerDeletedStep(s);
      case EndRead(_) => EndStep(s, e);
    }
  }

  lemma AbortKeeps(s: State)
    requires Inv(s)
    ensures Inv(s.(aborted := true))
  {
    hide Sorted, Sequenced;
    OwnedFrame(s, s.(aborted := true));
  }

  // ---------- Whole runs ----------

  /** The step `e` leads from `s` to `t`. */
  ghost predicate Stepped(s: State, e: Event, t: State) {
    Enabled(s, e) && t == Next(s, e)
  }

  /** Any interleaving of allocations by any thread with the loop thread's polls, callbacks and destructors. */
  ghost predicate IsRun(states: seq<State>, events: seq<Event>) {
    IsPath(states, events) && states[0] == INIT
  }

  ghost predicate IsPath(states: seq<State>, events: seq<Event>) {
    && |states| == |events| + 1
    && forall i :: 0 <= i < |events| ==> Enabled(states[i], events[i]) && states[i + 1] == Next(states[i], events[i])
  }

  lemma InitInv()
    ensures Inv(INIT)
  {
  }

  lemma {:induction false} RunInv(states: seq<State>, events: seq<Event>, i: nat)
    requires IsRun(states, events) && i < |states|
    ensures Inv(states[i])
    ensures i < |events| ==> (AssertsHold(states[i], events[i]) <==> !Interrupts(states[i], events[i]))
  {
    hide Inv, Next, Enabled, AssertsHold, Interrupts;
    if i == 0 {
      InitInv();
    } else {
      RunInv(states, events, i - 1);
      InvStep(states[i - 1], events[i - 1]);
    }
    if i < |events| {
      InvStep(states[i], events[i]);
    }
  }

  /** A run ends in a failed assert if and only if a destructor run by `cancelInLoop` adds or cancels a timer. */
  lemma {:induction false} AbortsIff(states: seq<State>, events: seq<Event>, i: nat)
    requires IsRun(states, events) && i < |states|
    ensures states[i].aborted <==> exists k :: 0 <= k < i && Interrupts(states[k], events[k])
  {
    hide Inv, AssertsHold, Apply, Interrupts;
    if i > 0 {
      AbortsIff(states, events, i - 1);
      RunInv(states, events, i - 1);
      if AssertsHold(states[i - 1], events[i - 1]) {
        ApplyKeepsAborted(states[i - 1], events[i - 1]);
      }
    }
  }

  lemma ApplyKeepsAborted(s: State, e: Event)
    requires Enabled(s, e) && AssertsHold(s, e)
    ensures Apply(s, e).aborted == s.aborted
  {
    hide AssertsHold, Enabled, InsertSorted, EraseSorted, IdsOf, DueCount, ToRearm, Restarted, IdOf, AlarmFor;
    match e
    case BeginRead(now) =>
    case ResetNext =>
    case AddInLoop(_, _) =>
    case EndRead(_) =>
    case CancelInLoop(_) =>
    case CancelDeleted =>
    case TimerDeleted =>
    case _ =>
  }

  /** The two sets index the same timers by the timers' own keys, less the one a cancel is deleting; and every live
      timer has exactly one owner. */
  lemma IndexesAgree(states: seq<State>, events: seq<Event>, i: nat)
    requires IsRun(states, events) && i < |states|
    ensures var s := states[i];
            && (forall when, p :: Entry(when, p) in s.timers <==>
                  p in s.heap && IdOf(s, p) in Standing(s) && s.heap[p].expiration == when)
            && (forall p :: p in s.heap ==> OneOwner(p, IdOf(s, p), s.active, s.batch, s.transit))
            && (forall a :: a in s.active ==> a.timer in s.heap && a == IdOf(s, a.timer))
  {
    RunInv(states, events, i);
  }

  /** The timerfd is armed by an add that comes before all other timers, and at the end of handleRead. */
  predicate Arms(s: State, e: Event) {
    || (e.AddInLoop? && s.erasing.None? && e.timer in s.heap &&
        forall x :: x in s.timers ==> s.heap[e.timer].expiration < x.when)
    || (e.EndRead? && s.timers != [] && s.timers[0].when > 0)
  }

  /** When it is armed it is for the first timer, and not for less than 100 microseconds; only handleRead disarms it. */
  lemma ArmsForTheFirst(s: State, e: Event)
    requires Inv(s) && Enabled(s, e)
    ensures var t := Next(s, e);
            if Arms(s, e) then
              t.timers != [] && t.alarm == Some(Max(t.timers[0].when, e.now + 100)) && t.armedAt == e.now
            else t.alarm == (if e.BeginRead? then None else s.alarm) && t.armedAt == s.armedAt
  {
    hide Inv, Apply, AssertsHold, InsertSorted, Sorted, Interrupts;
    InvStep(s, e);
    match e
    case AddInLoop(p, now) => ArmsAtAdd(s, p, now);
    case _ => ArmsOtherwise(s, e);
  }

  lemma ArmsAtAdd(s: State, p: Ptr, now: int)
    requires Inv(s) && Enabled(s, AddInLoop(p, now))
    ensures var e := AddInLoop(p, now);
            var t := Next(s, e);
            if Arms(s, e) then t.timers != [] && t.alarm == Some(Max(t.timers[0].when, now + 100)) && t.armedAt == now
            else t.alarm == s.alarm && t.armedAt == s.armedAt
  {
    hide Inv, Apply, AssertsHold, InsertSorted, Sorted, Next, Enabled;
    AddStepped(s, p, now);
    FirstOfTimersInsert(s, Entry(s.heap[p].expiration, p));
    FirstIsEarliest(s.timers);
  }

  lemma FirstIsEarliest(es: seq<Entry>)
    requires Sorted(es)
    ensures forall x :: x in es ==> es[0].when <= x.when
    ensures es != [] ==> es[0] in es
  {
    forall x | x in es ensures es[0].when <= x.when {
      var k :| 0 <= k < |es| && es[k] == x;
      assert k > 0 ==> Less(es[0], es[k]);
    }
  }

  lemma ArmsOtherwise(s: State, e: Event)
    requires Inv(s) && Enabled(s, e) && !e.AddInLoop? && AssertsHold(s, e) != Interrupts(s, e)
    ensures var t := Next(s, e);
            if Arms(s, e) then
              t.timers != [] && t.alarm == Some(Max(t.timers[0].when, e.now + 100)) && t.armedAt == e.now
            else t.alarm == (if e.BeginRead? then None else s.alarm) && t.armedAt == s.armedAt
  {
    hide Inv, AssertsHold, InsertSorted, EraseSorted, Sorted, Enabled, IdsOf, DueCount, ToRearm, Restarted, IdOf;
    match e
    case BeginRead(_) =>
    case EndRead(_) =>
    case ResetNext =>
    case CancelInLoop(_) =>
    case CancelDeleted =>
    case TimerDeleted =>
    case _ =>
  }

  /** While it is armed, it is as the latest such step left it. */
  lemma {:induction false} ArmedAsLeft(states: seq<State>, events: seq<Event>, i: nat) returns (k: nat)
    requires IsRun(states, events) && i < |states| && states[i].alarm.Some?
    ensures k < i && Arms(states[k], events[k]) && states[i].alarm == states[k + 1].alarm
    ensures states[i].armedAt == events[k].now && states[k + 1].timers != []
    ensures states[i].alarm == Some(Max(states[k + 1].timers[0].when, events[k].now + 100))
  {
    hide Inv, Next, Enabled, AssertsHold, Arms;
    var s, e := states[i - 1], events[i - 1];
    RunInv(states, events, i - 1);
    ArmsForTheFirst(s, e);
    if Arms(s, e) {
      k := i - 1;
    } else {
      k := ArmedAsLeft(states, events, i - 1);
    }
  }

  /** Outside handleRead a pending timer has an alarm no later than its expiration, up to 100 microseconds from the
      step that armed it; and the alarm is never earlier than what that step armed it for. */
  lemma AlarmIsEarlyEnough(states: seq<State>, events: seq<Event>, i: nat) returns (k: nat)
    requires IsRun(states, events) && i < |states|
    requires !states[i].calling && !states[i].resetting && states[i].timers != []
    ensures k < i && Arms(states[k], events[k]) && states[i].alarm.Some? && states[k + 1].timers != []
    ensures forall e :: e in states[i].timers ==> states[i].alarm.value <= Max(e.when, events[k].now + 100)
    ensures states[i].alarm.value == Max(states[k + 1].timers[0].when, events[k].now + 100)
  {
    hide Arms, Owned, Sequenced, Placed;
    RunInv(states, events, i);
    FirstIsEarliest(states[i].timers);
    k := ArmedAsLeft(states, events, i);
  }

  /** `getExpired`: the batch is exactly the due entries, in order; everything else stays. */
  lemma ExpiredExactly(s: State, now: int)
    requires Inv(s) && Enabled(s, BeginRead(now)) && AssertsHold(s, BeginRead(now))
    ensures var t := Apply(s, BeginRead(now));
            && t.batch + t.timers == s.timers && Sorted(t.batch)
            && (forall e :: e in t.batch ==> e.when <= now)
            && (forall e :: e in t.timers ==> now < e.when)
            && t.heap == s.heap
  {
    hide Owned, Sequenced, Armed, DueCount, Apply, AssertsHold, IdsOf;
    BeginUnfolds(s, now);
    DueNow(s, now);
    var n := DueCount(s.timers, now);
    assert s.timers == s.timers[..n] + s.timers[n..];
  }

  // ---------- What a run did, read off its events ----------

  /** How many timers were created. */
  function Created(events: seq<Event>): nat {
    if events == [] then 0
    else Created(events[..|events| - 1]) + (if events[|events| - 1].New? then 1 else 0)
  }

  /** The creation of the `n`th. */
  function Creation(events: seq<Event>, n: nat): Option<Event> {
    if events == [] then None
    else
      var before, last := events[..|events| - 1], events[|events| - 1];
      if last.New? && Created(before) + 1 == n then Some(last) else Creation(before, n)
  }

  /** The clock readings of handleRead, the latest last. */
  function ReadTimes(events: seq<Event>): seq<int> {
    if events == [] then []
    else ReadTimes(events[..|events| - 1]) +
         (if events[|events| - 1].BeginRead? then [events[|events| - 1].now] else [])
  }

  /** The cancels that callbacks of the running batch made of timers in neither set. */
  function Noted(states: seq<State>, events: seq<Event>): set<TimerId>
    requires |states| >= |events|
    decreases |events|
  {
    if events == [] then {}
    else
      var n := |events| - 1;
      var s, e := states[n], events[n];
      if e.BeginRead? then {}
      else if e.CancelInLoop? && s.calling && s.erasing.None? && e.id !in s.active then
        Noted(states, events[..n]) + {e.id}
      else Noted(states, events[..n])
  }

  /** A timer is what `addTimer` was told, but that each expiry of a periodic one moves its expiration on. */
  predicate AsCreated(p: Ptr, timer: Timer, creation: Option<Event>, readTimes: seq<int>) {
    && creation.Some? && creation.value.New? && creation.value.timer == p
    && timer.interval == creation.value.interval && timer.repeat == creation.value.repeat
    && (timer.expiration == creation.value.when || (timer.repeat && timer.expiration - timer.interval in readTimes))
  }

  predicate Told(s: State, events: seq<Event>) {
    && s.numCreated == Created(events)
    && (forall n :: n in s.born ==> Creation(events, n).Some? && Creation(events, n).value.New? &&
                                    Creation(events, n).value.timer == s.born[n])
    && (s.calling || s.resetting ==>
          ReadTimes(events) != [] && s.batchTime == ReadTimes(events)[|ReadTimes(events)| - 1])
    && (forall p :: p in s.heap ==> AsCreated(p, s.heap[p], Creation(events, s.heap[p].sequence), ReadTimes(events)))
  }

  lemma ToldSnoc(events: seq<Event>, e: Event)
    ensures Created(events + [e]) == Created(events) + (if e.New? then 1 else 0)
    ensures ReadTimes(events + [e]) == ReadTimes(events) + (if e.BeginRead? then [e.now] else [])
    ensures forall n :: Creation(events + [e], n) ==
                        if e.New? && Created(events) + 1 == n then Some(e) else Creation(events, n)
  {
    assert (events + [e])[..|events|] == events;
  }

  /** A step creates a timer, restarts a periodic one in `reset`, or leaves those that stay as they were. */
  predicate HeapKept(s: State, e: Event, t: State) {
    && (forall p :: p in t.heap && !(e.New? && p == e.timer) ==>
          p in s.heap && (t.heap[p] == s.heap[p] ||
                          (s.resetting && s.heap[p].repeat && t.heap[p] == Restarted(s, p))))
    && (if e.New? then t.numCreated == s.numCreated + 1 && t.born == s.born[t.numCreated := e.timer]
                       && t.heap == s.heap[e.timer := Timer(e.when, e.interval, e.repeat, t.numCreated)]
        else t.numCreated == s.numCreated && t.born == s.born)
  }

  lemma HeapStep(s: State, e: Event)
    requires Inv(s) && Enabled(s, e)
    ensures HeapKept(s, e, Next(s, e))
  {
    hide Inv, Enabled, AssertsHold, Apply, HeapKept, Next;
    if e.New? {
      NewKeepsHeap(s, e);
    } else if e.ResetNext? {
      RestartKeepsHeap(s);
    } else {
      OthersKeepHeap(s, e);
    }
  }

  lemma NewKeepsHeap(s: State, e: Event)
    requires Inv(s) && Enabled(s, e) && e.New?
    ensures HeapKept(s, e, Next(s, e))
  {
    hide Inv;
    InvStep(s, e);
  }

  lemma OthersKeepHeap(s: State, e: Event)
    requires Enabled(s, e) && !e.New? && !e.ResetNext?
    ensures HeapKept(s, e, Next(s, e))
  {
    hide Next, Enabled, ToRearm, Restarted, IdOf;
    OthersOnlyDelete(s, e);
    OthersCreateNothing(s, e);
  }

  lemma OthersOnlyDelete(s: State, e: Event)
    requires Enabled(s, e) && !e.New? && !e.ResetNext?
    ensures Next(s, e).heap == s.heap
            || (e.CancelDeleted? && s.erasing.Some? && Next(s, e).heap == s.heap - {s.erasing.value.timer})
            || (e.TimerDeleted? && s.batch != [] && Next(s, e).heap == s.heap - {s.batch[0].timer})
  {
    hide InsertSorted, EraseSorted, DueCount, IdsOf, ToRearm, Restarted, IdOf;
    match e
    case CancelDeleted =>
    case TimerDeleted =>
    case BeginRead(_) =>
    case _ =>
  }

  lemma OthersCreateNothing(s: State, e: Event)
    requires Enabled(s, e) && !e.New? && !e.ResetNext?
    ensures Next(s, e).numCreated == s.numCreated && Next(s, e).born == s.born
  {
    hide InsertSorted, EraseSorted, DueCount, IdsOf, ToRearm, Restarted, IdOf, AssertsHold, Enabled, Rearm, Insert;
    match e
    case BeginRead(_) =>
    case AddInLoop(p, _) =>
      if AssertsHold(s, e) {
        AddEnablesInsert(s, e);
        InsertCreatesNothing(s.(transit := s.transit - {p}), p);
      }
    case EndRead(now) => RearmCreatesNothing(s, now);
    case _ =>
  }

  lemma AddEnablesInsert(s: State, e: Event)
    requires Enabled(s, e) && e.AddInLoop? && AssertsHold(s, e)
    ensures e.timer in s.heap
  {
  }

  lemma InsertCreatesNothing(s: State, p: Ptr)
    requires p in s.heap
    ensures Insert(s, p).numCreated == s.numCreated && Insert(s, p).born == s.born
  {
    hide InsertSorted;
  }

  lemma RearmCreatesNothing(s: State, now: int)
    ensures Rearm(s, now).numCreated == s.numCreated && Rearm(s, now).born == s.born
  {
  }

  lemma RestartKeepsHeap(s: State)
    requires Enabled(s, ResetNext)
    ensures HeapKept(s, ResetNext, Next(s, ResetNext))
  {
    hide InsertSorted;
  }

  lemma BatchTimeStep(s: State, e: Event)
    requires Enabled(s, e)
    ensures var t := Next(s, e);
            t.calling || t.resetting ==> if e.BeginRead? then t.batchTime == e.now || t.aborted
                                         else (s.calling || s.resetting) && t.batchTime == s.batchTime
  {
    hide Sorted, InsertSorted, EraseSorted, DueCount, IdsOf, AssertsHold, ToRearm, Restarted, IdOf;
    match e
    case AddInLoop(_, _) =>
    case CancelInLoop(_) =>
    case BeginRead(_) =>
    case ResetNext =>
    case EndRead(_) =>
    case _ =>
  }

  lemma ToldStep(s: State, e: Event, events: seq<Event>)
    requires Inv(s) && Enabled(s, e) && Told(s, events)
    ensures Told(Next(s, e), events + [e])
  {
    hide Indexed, Owned, Armed, Placed, Next, Enabled, Created, Creation, ReadTimes;
    HeapStep(s, e);
    BatchTimeStep(s, e);
    if e.BeginRead? { ReadSucceeds(s, e); }
    ToldSnoc(events, e);
  }

  lemma ReadSucceeds(s: State, e: Event)
    requires Inv(s) && Enabled(s, e) && e.BeginRead?
    ensures !Next(s, e).aborted
  {
    hide Inv, DueCount, IdsOf, AssertsHold;
    InvStep(s, e);
  }

  lemma {:induction false} RunTold(states: seq<State>, events: seq<Event>, i: nat)
    requires IsRun(states, events) && i < |states|
    ensures Told(states[i], events[..i])
  {
    hide Told, Next, Enabled, Inv;
    if i == 0 {
      NothingTold();
      assert events[..0] == [];
    } else {
      RunTold(states, events, i - 1);
      RunInv(states, events, i - 1);
      ToldStep(states[i - 1], events[i - 1], events[..i - 1]);
      assert events[..i] == events[..i - 1] + [events[i - 1]];
    }
  }

  lemma NothingTold()
    ensures Told(INIT, [])
  {
  }

  /** Sequence numbers count the creations, and a live timer is the one created under its number: at its address, with
      its interval, due when it was first asked for or an interval after an expiry. */
  lemma TimersAsCreated(states: seq<State>, events: seq<Event>, i: nat)
    requires IsRun(states, events) && i < |states|
    ensures states[i].numCreated == Created(events[..i])
    ensures forall p :: p in states[i].heap ==>
              AsCreated(p, states[i].heap[p], Creation(events[..i], states[i].heap[p].sequence), ReadTimes(events[..i]))
    ensures states[i].calling || states[i].resetting ==>
              var times := ReadTimes(events[..i]); times != [] && states[i].batchTime == times[|times| - 1]
    ensures forall id :: Issued(states[i], id) ==>
              var creation := Creation(events[..i], id.sequence);
              creation.Some? && creation.value.New? && creation.value.timer == id.timer
  {
    hide AsCreated, Creation, Created, ReadTimes;
    RunTold(states, events, i);
  }

  lemma NotedStep(s: State, e: Event)
    requires Inv(s) && Enabled(s, e)
    ensures Next(s, e).canceling ==
            if e.BeginRead? then {}
            else if e.CancelInLoop? && s.calling && s.erasing.None? && e.id !in s.active then s.canceling + {e.id}
            else s.canceling
  {
    hide Inv, Sorted, InsertSorted, EraseSorted, DueCount, IdsOf, Enabled, AssertsHold;
    InvStep(s, e);
    match e
    case BeginRead(_) =>
    case CancelInLoop(_) =>
    case AddInLoop(_, _) =>
    case ResetNext =>
    case EndRead(_) =>
    case _ =>
  }

  /** What `reset` takes for cancelled is what the callbacks of this batch cancelled. */
  lemma {:induction false} CancelingIsNoted(states: seq<State>, events: seq<Event>, i: nat)
    requires IsRun(states, events) && i < |states|
    ensures states[i].canceling == Noted(states, events[..i])
  {
    hide Inv, Next, Enabled;
    if i > 0 {
      CancelingIsNoted(states, events, i - 1);
      RunInv(states, events, i - 1);
      NotedStep(states[i - 1], events[i - 1]);
      assert events[..i][..i - 1] == events[..i - 1];
    }
  }

  // ---------- The callbacks of a batch ----------

  /** The sequence numbers of the timers called by the steps from `i` up to `j`. */
  function Called(states: seq<State>, events: seq<Event>, i: nat, j: nat): seq<nat>
    requires i <= j <= |events| <= |states|
  {
    if i == j then []
    else
      var s, e := states[j - 1], events[j - 1];
      Called(states, events, i, j - 1) +
      (if e.RunCallback? && s.next < |s.batch| && s.batch[s.next].timer in s.heap
       then [s.heap[s.batch[s.next].timer].sequence] else [])
  }

  function Sequences(batch: seq<Entry>, heap: map<Ptr, Timer>): seq<nat>
    requires BatchLive(batch, heap)
  {
    seq(|batch|, i requires 0 <= i < |batch| => heap[batch[i].timer].sequence)
  }

  lemma CallingStep(s: State, e: Event)
    requires Inv(s) && Enabled(s, e) && s.calling && Next(s, e).calling
    ensures var t := Next(s, e);
            && BatchLive(s.batch, s.heap) && BatchLive(t.batch, t.heap)
            && t.batch == s.batch && Sequences(t.batch, t.heap) == Sequences(s.batch, s.heap)
            && t.next == s.next + (if e.RunCallback? then 1 else 0)
            && (e.RunCallback? ==> s.next < |s.batch|)
  {
    hide Sorted, InsertSorted, EraseSorted, Inv, Owned;
    InvStep(s, e);
    BatchStays(s, e);
    assert BatchLive(s.batch, s.heap) && BatchLive(Next(s, e).batch, Next(s, e).heap) by {
      OwnedOf(s);
      OwnedOf(Next(s, e));
    }
  }

  lemma OwnedOf(s: State)
    requires Inv(s)
    ensures BatchLive(s.batch, s.heap)
  {
    BatchAlive(s);
  }

  lemma BatchStays(s: State, e: Event)
    requires Inv(s) && Enabled(s, e) && s.calling && Next(s, e).calling
    ensures var t := Next(s, e);
            && t.batch == s.batch && t.next == s.next + (if e.RunCallback? then 1 else 0)
            && forall i :: 0 <= i < |s.batch| ==>
                 && s.batch[i].timer in s.heap && s.batch[i].timer in t.heap
                 && t.heap[s.batch[i].timer].sequence == s.heap[s.batch[i].timer].sequence
  {
    hide Sorted, InsertSorted, EraseSorted, Armed, Sequenced, Indexed;
    forall i | 0 <= i < |s.batch|
      ensures s.batch[i].timer in s.heap && IdOf(s, s.batch[i].timer) !in s.active {
      assert s.batch[i] in s.batch && s.batch[i].timer in BatchTimers(s.batch);
      assert OneOwner(s.batch[i].timer, IdOf(s, s.batch[i].timer), s.active, s.batch, s.transit);
    }
  }

  lemma {:induction false} CalledSoFar(states: seq<State>, events: seq<Event>, i: nat, j: nat)
    requires IsRun(states, events) && i < j < |states| && events[i].BeginRead?
    requires forall m :: i < m <= j ==> states[m].calling
    ensures BatchLive(states[i + 1].batch, states[i + 1].heap) && BatchLive(states[j].batch, states[j].heap)
    ensures var batch := states[i + 1].batch;
            && states[j].batch == batch
            && Sequences(states[j].batch, states[j].heap) == Sequences(batch, states[i + 1].heap)
            && states[j].next <= |batch|
            && Called(states, events, i + 1, j) == Sequences(batch, states[i + 1].heap)[..states[j].next]
    decreases j
  {
    hide Inv, Next, Enabled, BatchLive;
    RunInv(states, events, j);
    OwnedOf(states[j]);
    if j == i + 1 {
      RunInv(states, events, i);
      BeginStepped(states[i], events[i].now);
      BeginsAtZero(states[i], events[i]);
    } else {
      CalledSoFar(states, events, i, j - 1);
      RunInv(states, events, j - 1);
      CallingStep(states[j - 1], events[j - 1]);
      CalledNext(states, events, i, j);
    }
  }

  lemma CalledNext(states: seq<State>, events: seq<Event>, i: nat, j: nat)
    requires i + 1 < j <= |events| < |states|
    requires var s := states[j - 1];
             && BatchLive(s.batch, s.heap) && s.next <= |s.batch|
             && Called(states, events, i + 1, j - 1) == Sequences(s.batch, s.heap)[..s.next]
             && (events[j - 1].RunCallback? ==> s.next < |s.batch|)
    ensures var s := states[j - 1];
            var n := s.next + (if events[j - 1].RunCallback? then 1 else 0);
            n <= |s.batch| && Called(states, events, i + 1, j) == Sequences(s.batch, s.heap)[..n]
  {
  }

  lemma BeginsAtZero(s: State, e: Event)
    requires Inv(s) && Enabled(s, e) && e.BeginRead?
    ensures Next(s, e).next == 0
  {
    hide Inv, DueCount, IdsOf, AssertsHold, Enabled;
    InvStep(s, e);
  }

  /** By the time the callbacks are done, exactly the timers of the batch have been called, in order, each once. */
  lemma BatchCalledInOrder(states: seq<State>, events: seq<Event>, i: nat, j: nat)
    requires IsRun(states, events) && i < j < |events| && events[i].BeginRead? && events[j].BeginReset?
    requires forall m :: i < m <= j ==> states[m].calling
    ensures var t := states[i + 1];
            BatchLive(t.batch, t.heap) && Called(states, events, i + 1, j) == Sequences(t.batch, t.heap)
  {
    hide Next, BatchLive;
    CalledSoFar(states, events, i, j);
  }

  // ---------- Cancelling ----------

  /** What one timer's share in the queue is: the object, its places in the sets, and its mark. */
  predicate SameTimer(s: State, t: State, p: Ptr)
    requires p in s.heap
  {
    && p in t.heap && t.heap[p] == s.heap[p]
    && (IdOf(t, p) in t.active <==> IdOf(s, p) in s.active)
    && (Entry(s.heap[p].expiration, p) in t.timers <==> Entry(s.heap[p].expiration, p) in s.timers)
    && (IdOf(t, p) in t.canceling <==> IdOf(s, p) in s.canceling)
  }

  /** Cancelling touches no timer but the one the id was issued for, even if another now lives at its address. */
  lemma CancelTouchesOnlyItsTimer(s: State, id: TimerId, p: Ptr)
    requires Inv(s) && Enabled(s, CancelInLoop(id)) && AssertsHold(s, CancelInLoop(id))
    requires p in s.heap && s.heap[p].sequence != id.sequence
    ensures var t := Apply(s, CancelInLoop(id));
            && SameTimer(s, t, p) && (t.erasing.Some? ==> t.erasing == Some(id) && Enabled(t, CancelDeleted))
  {
    hide Sorted, InsertSorted, EraseSorted;
    InvStep(s, CancelInLoop(id));
    if id in s.active {
      EraseSortedMembers(s, id);
    }
  }

  lemma EraseSortedMembers(s: State, id: TimerId)
    requires Inv(s) && s.erasing.None? && id in s.active
    ensures var gone := Entry(s.heap[id.timer].expiration, id.timer);
            forall e :: e in EraseSorted(s.timers, gone) <==> e in s.timers && e != gone
  {
    EraseSortedKeeps(s.timers, Entry(s.heap[id.timer].expiration, id.timer));
  }

  /** Nor does the end of the cancel, after the destructor. */
  lemma DeletionTouchesOnlyItsTimer(s: State, id: TimerId, p: Ptr)
    requires Inv(s) && Enabled(s, CancelDeleted) && AssertsHold(s, CancelDeleted) && s.erasing == Some(id)
    requires p in s.heap && s.heap[p].sequence != id.sequence
    ensures SameTimer(s, Apply(s, CancelDeleted), p)
  {
    hide Sorted;
  }

  /** A stale id, whose own timer is gone, leaves every timer alone. */
  lemma StaleCancelIsHarmless(s: State, id: TimerId)
    requires Inv(s) && Enabled(s, CancelInLoop(id)) && AssertsHold(s, CancelInLoop(id))
    requires forall p :: p in s.heap ==> s.heap[p].sequence != id.sequence
    ensures var t := Apply(s, CancelInLoop(id));
            && t == s.(canceling := t.canceling)
            && forall p :: p in s.heap ==> (IdOf(s, p) in t.canceling <==> IdOf(s, p) in s.canceling)
  {
  }

  predicate Alive(s: State, n: nat) {
    exists p :: p in s.heap && s.heap[p].sequence == n
  }

  /** An id that `addTimer` returned. */
  predicate Issued(s: State, id: TimerId) {
    id.sequence in s.born && s.born[id.sequence] == id.timer
  }

  /** A cancel that comes too early or too late to be seen: before the timer's own add, or while `reset` has yet to
      re-arm the timer. */
  predicate Overlooked(s: State, id: TimerId) {
    && id.timer in s.heap && IdOf(s, id.timer) == id
    && (id.timer in s.transit || (s.resetting && id.timer in BatchTimers(s.batch) && ToRearm(s, id.timer)))
  }

  /** The timer numbered `n` is gone, is being deleted, or is in the batch and not to be re-armed. */
  predicate Doomed(s: State, n: nat) {
    && n <= s.numCreated
    && forall p :: p in s.heap && s.heap[p].sequence == n ==>
         || s.erasing == Some(IdOf(s, p))
         || (p in BatchTimers(s.batch) && (IdOf(s, p) in s.canceling || (s.resetting && !s.heap[p].repeat)))
  }

  lemma CancelDooms(s: State, id: TimerId)
    requires Inv(s) && Enabled(s, CancelInLoop(id)) && s.erasing.None?
    requires Issued(s, id) && !Overlooked(s, id)
    ensures Doomed(Next(s, CancelInLoop(id)), id.sequence)
  {
    hide Sorted, EraseSorted, Armed;
    InvStep(s, CancelInLoop(id));
    if id.timer in s.heap && s.heap[id.timer].sequence == id.sequence {
      assert OneOwner(id.timer, IdOf(s, id.timer), s.active, s.batch, s.transit);
    }
  }

  lemma DoomedStep(s: State, e: Event, n: nat)
    requires Inv(s) && Enabled(s, e) && Doomed(s, n)
    ensures Doomed(Next(s, e), n)
  {
    hide Sorted, EraseSorted, InsertSorted, Doomed, Inv, Apply, AssertsHold;
    InvStep(s, e);
    if AssertsHold(s, e) {
      match e
      case BeginRead(now) => DoomedBegin(s, now, n);
      case ResetNext => DoomedReset(s, e, n);
      case TimerDeleted => DoomedReset(s, e, n);
      case _ => DoomedSimple(s, e, n);
    } else {
      DoomedAbort(s, n);
    }
  }

  lemma DoomedAbort(s: State, n: nat)
    requires Doomed(s, n)
    ensures Doomed(s.(aborted := true), n)
  {
  }

  lemma DoomedSimple(s: State, e: Event, n: nat)
    requires Inv(s) && Enabled(s, e) && AssertsHold(s, e) && Doomed(s, n)
    requires !e.BeginRead? && !e.ResetNext? && !e.TimerDeleted? && !Interrupts(s, e)
    ensures Doomed(Apply(s, e), n)
  {
    hide Sorted, EraseSorted, InsertSorted, Armed, Sequenced, Indexed;
  }

  lemma DoomedBegin(s: State, now: int, n: nat)
    requires Inv(s) && Enabled(s, BeginRead(now)) && AssertsHold(s, BeginRead(now)) && Doomed(s, n)
    ensures Doomed(Apply(s, BeginRead(now)), n) && !Alive(s, n)
  {
    hide AssertsHold, Apply, IdsOf, BatchLive, Owned, Indexed, Sequenced, Armed;
    BeginUnfolds(s, now);
  }

  lemma DoomedReset(s: State, e: Event, n: nat)
    requires Inv(s) && Enabled(s, e) && AssertsHold(s, e) && Doomed(s, n)
    requires e.ResetNext? || e.TimerDeleted?
    ensures Doomed(Apply(s, e), n)
  {
    hide Sorted, InsertSorted, Armed, Sequenced, Indexed;
    BatchTail(s);
  }

  lemma {:induction false} DoomedRun(states: seq<State>, events: seq<Event>, i: nat, j: nat, n: nat)
    requires IsRun(states, events) && i <= j < |states| && Doomed(states[i], n)
    ensures Doomed(states[j], n)
    decreases j
  {
    hide Doomed, Inv, Next, Enabled, AssertsHold;
    if i < j {
      DoomedRun(states, events, i, j - 1, n);
      RunInv(states, events, j - 1);
      DoomedStep(states[j - 1], events[j - 1], n);
    }
  }

  /** A cancel that is not overlooked takes effect for good - even on a timer cancelled by its own or another callback
      of the running batch: at no later moment outside handleRead and cancels is the timer alive. */
  lemma CancelledIsGone(states: seq<State>, events: seq<Event>, i: nat, j: nat, id: TimerId)
    requires IsRun(states, events) && i < |events| && i < j < |states|
    requires events[i] == CancelInLoop(id) && states[i].erasing.None?
    requires Issued(states[i], id) && !Overlooked(states[i], id)
    requires Quiet(states[j])
    ensures !Alive(states[j], id.sequence)
  {
    hide Owned, Indexed, Sequenced, Armed, Next, AssertsHold, Overlooked, Issued;
    RunInv(states, events, i);
    RunInv(states, events, j);
    CancelDooms(states[i], id);
    DoomedRun(states, events, i + 1, j, id.sequence);
  }

  /** The timer is alive, and on its way into the two sets or in them. */
  predicate Staying(s: State, id: TimerId) {
    && id.timer in s.heap && IdOf(s, id.timer) == id && s.erasing != Some(id)
    && (id.timer in s.transit || id in s.active ||
        (s.resetting && id.timer in BatchTimers(s.batch) && ToRearm(s, id.timer)))
  }

  lemma OverlookedStays(s: State, id: TimerId)
    requires Inv(s) && Enabled(s, CancelInLoop(id)) && s.erasing.None? && Overlooked(s, id)
    ensures Staying(Next(s, CancelInLoop(id)), id)
  {
    hide Sorted, EraseSorted, Armed, Sequenced, Indexed;
    InvStep(s, CancelInLoop(id));
    assert OneOwner(id.timer, id, s.active, s.batch, s.transit);
  }

  lemma StayingStep(s: State, e: Event, id: TimerId)
    requires Inv(s) && Enabled(s, e) && Staying(s, id) && e != CancelInLoop(id) && !e.BeginRead?
    ensures Staying(Next(s, e), id)
  {
    hide Inv, Apply, AssertsHold, Staying, Interrupts;
    InvStep(s, e);
    if e.ResetNext? || e.TimerDeleted? {
      StayingReset(s, e, id);
    } else if AssertsHold(s, e) {
      StayingSimple(s, e, id);
    } else {
      StayingAbort(s, id);
    }
  }

  lemma StayingAbort(s: State, id: TimerId)
    requires Staying(s, id)
    ensures Staying(s.(aborted := true), id)
  {
  }

  lemma StayingSimple(s: State, e: Event, id: TimerId)
    requires Inv(s) && Enabled(s, e) && AssertsHold(s, e) && Staying(s, id)
    requires e != CancelInLoop(id) && !e.BeginRead? && !e.ResetNext? && !e.TimerDeleted?
    ensures Staying(Apply(s, e), id)
  {
    hide Sorted, EraseSorted, InsertSorted, Armed, Sequenced, Indexed, Owned;
  }

  lemma StayingReset(s: State, e: Event, id: TimerId)
    requires Inv(s) && Enabled(s, e) && Staying(s, id) && (e.ResetNext? || e.TimerDeleted?)
    ensures Staying(Next(s, e), id)
  {
    hide Sorted, InsertSorted, Armed, Sequenced, Indexed;
    BatchTail(s);
    FrontIsFresh(s);
  }

  lemma {:induction false} StayingRun(states: seq<State>, events: seq<Event>, i: nat, j: nat, id: TimerId)
    requires IsRun(states, events) && i <= j < |states| && Staying(states[i], id)
    requires forall k :: i <= k < j ==> events[k] != CancelInLoop(id) && !events[k].BeginRead?
    ensures Staying(states[j], id)
    decreases j
  {
    hide Staying, Inv, Next, Enabled, AssertsHold;
    if i < j {
      StayingRun(states, events, i, j - 1, id);
      RunInv(states, events, j - 1);
      StayingStep(states[j - 1], events[j - 1], id);
    }
  }

  /** Exactly when a cancel takes effect: of an issued id, before the next handleRead and without a second cancel, the
      timer is gone at a moment outside handleRead and cancels if and only if the cancel was not overlooked. */
  lemma CancelTakesEffectIff(states: seq<State>, events: seq<Event>, i: nat, j: nat, id: TimerId)
    requires IsRun(states, events) && i < |events| && i < j < |states|
    requires events[i] == CancelInLoop(id) && states[i].erasing.None? && Issued(states[i], id)
    requires forall k :: i < k < j ==> events[k] != CancelInLoop(id) && !events[k].BeginRead?
    requires Quiet(states[j])
    ensures !Alive(states[j], id.sequence) <==> !Overlooked(states[i], id)
  {
    hide Inv, Next, AssertsHold, Issued, Overlooked, Quiet;
    if Overlooked(states[i], id) {
      RunInv(states, events, i);
      OverlookedStays(states[i], id);
      StayingRun(states, events, i + 1, j, id);
    } else {
      CancelledIsGone(states, events, i, j, id);
    }
  }

  // ---------- Calls after a cancel ----------

  /** The step calls the timer numbered `n`. */
  predicate Calls(s: State, e: Event, n: nat) {
    && e.RunCallback? && s.next < |s.batch| && s.batch[s.next].timer in s.heap
    && s.heap[s.batch[s.next].timer].sequence == n
  }

  /** The timer's turn in the running batch, number `k`, is to come. */
  predicate TurnAt(s: State, id: TimerId, k: nat) {
    && s.calling && s.next <= k < |s.batch| && s.batch[k].timer == id.timer
    && id.timer in s.heap && IdOf(s, id.timer) == id
  }

  predicate TurnToCome(s: State, id: TimerId) {
    exists k :: s.next <= k < |s.batch| && TurnAt(s, id, k)
  }

  /** No element of the batch that is still to be called is the timer numbered `n`. */
  predicate NoTurnLeft(s: State, n: nat) {
    s.calling ==> forall k :: s.next <= k < |s.batch| ==>
      s.batch[k].timer in s.heap ==> s.heap[s.batch[k].timer].sequence != n
  }

  lemma NoTurnStep(s: State, e: Event, n: nat)
    requires Inv(s) && Enabled(s, e) && Doomed(s, n) && NoTurnLeft(s, n)
    ensures NoTurnLeft(Next(s, e), n) && !Calls(s, e, n)
  {
    hide Sorted, EraseSorted, InsertSorted, Inv, Doomed, Apply, AssertsHold;
    if AssertsHold(s, e) {
      if e.BeginRead? {
        DoomedBegin(s, e.now, n);
        BeginUnfolds(s, e.now);
      } else if !e.ResetNext? && !e.TimerDeleted? {
        NoTurnSimple(s, e, n);
      } else {
        ResetIsNotCalling(s, e);
      }
    }
  }

  lemma ResetIsNotCalling(s: State, e: Event)
    requires Inv(s) && Enabled(s, e) && AssertsHold(s, e) && (e.ResetNext? || e.TimerDeleted?)
    ensures !Apply(s, e).calling
  {
    hide Sorted, InsertSorted, Armed, Sequenced, Indexed, Owned;
  }

  lemma NoTurnSimple(s: State, e: Event, n: nat)
    requires Inv(s) && Enabled(s, e) && AssertsHold(s, e) && Doomed(s, n) && NoTurnLeft(s, n)
    requires !e.BeginRead? && !e.ResetNext? && !e.TimerDeleted?
    ensures NoTurnLeft(Apply(s, e), n)
  {
    hide Sorted, EraseSorted, InsertSorted, Armed, Sequenced, Indexed, BatchTimers;
  }

  lemma {:induction false} NeverCalledAgain(states: seq<State>, events: seq<Event>, i: nat, j: nat, n: nat)
    requires IsRun(states, events) && i <= j < |states| && Doomed(states[i], n) && NoTurnLeft(states[i], n)
    ensures NoTurnLeft(states[j], n)
    ensures j < |events| ==> !Calls(states[j], events[j], n)
    decreases j
  {
    hide Doomed, Inv, Next, Enabled, AssertsHold, NoTurnLeft, Calls;
    if i < j {
      NeverCalledAgain(states, events, i, j - 1, n);
      RunInv(states, events, j - 1);
      DoomedRun(states, events, i, j - 1, n);
      NoTurnStep(states[j - 1], events[j - 1], n);
    }
    if j < |events| {
      RunInv(states, events, j);
      DoomedRun(states, events, i, j, n);
      NoTurnStep(states[j], events[j], n);
    }
  }

  lemma TurnStep(s: State, e: Event, id: TimerId, k: nat)
    requires Inv(s) && Enabled(s, e) && TurnAt(s, id, k)
    ensures TurnAt(Next(s, e), id, k) || (Calls(s, e, id.sequence) && s.next == k)
  {
    hide Sorted, EraseSorted, InsertSorted, Armed, Sequenced, Indexed;
    assert s.batch[k] in s.batch && id.timer in BatchTimers(s.batch);
    assert OneOwner(id.timer, id, s.active, s.batch, s.transit);
  }

  lemma {:induction false} TurnComes(states: seq<State>, events: seq<Event>, i: nat, m: nat, id: TimerId, k: nat)
      returns (j: nat)
    requires IsRun(states, events) && i <= m < |states| && TurnAt(states[i], id, k) && !states[m].calling
    ensures i <= j < m && Calls(states[j], events[j], id.sequence)
    decreases m - i
  {
    hide Inv, Next, Enabled, AssertsHold, Calls;
    RunInv(states, events, i);
    TurnStep(states[i], events[i], id, k);
    if TurnAt(states[i + 1], id, k) {
      j := TurnComes(states, events, i + 1, m, id, k);
    } else {
      j := i;
    }
  }

  /** A cancelled timer is called once more if and only if the running batch still had its turn to come. */
  lemma CancelledIsCalledIff(states: seq<State>, events: seq<Event>, i: nat, m: nat, id: TimerId)
    requires IsRun(states, events) && i < |events| && i < m < |states|
    requires events[i] == CancelInLoop(id) && states[i].erasing.None?
    requires Issued(states[i], id) && !Overlooked(states[i], id)
    requires !states[m].calling
    ensures (exists j :: i < j < |events| && Calls(states[j], events[j], id.sequence)) <==> TurnToCome(states[i], id)
  {
    hide Inv, Enabled, AssertsHold, Calls, Issued, Overlooked, Doomed, NoTurnLeft, Next;
    var s := states[i];
    RunInv(states, events, i);
    CancelDooms(s, id);
    if TurnToCome(s, id) {
      var k :| s.next <= k < |s.batch| && TurnAt(s, id, k);
      TurnStep(s, events[i], id, k);
      assert !Calls(s, events[i], id.sequence) by { CancelCallsNobody(s, id); }
      var j := TurnComes(states, events, i + 1, m, id, k);
    } else {
      CancelLeavesNoTurn(s, id);
      forall j | i < j < |events| ensures !Calls(states[j], events[j], id.sequence) {
        NeverCalledAgain(states, events, i + 1, j, id.sequence);
      }
    }
  }

  lemma CancelCallsNobody(s: State, id: TimerId)
    ensures !Calls(s, CancelInLoop(id), id.sequence)
  {
  }

  lemma CancelLeavesNoTurn(s: State, id: TimerId)
    requires Inv(s) && Enabled(s, CancelInLoop(id)) && s.erasing.None? && Issued(s, id) && !TurnToCome(s, id)
    ensures NoTurnLeft(Next(s, CancelInLoop(id)), id.sequence)
  {
    hide Sorted, EraseSorted, Armed, Indexed, Owned;
    var t := Next(s, CancelInLoop(id));
    forall k | t.calling && t.next <= k < |t.batch| && t.batch[k].timer in t.heap
      ensures t.heap[t.batch[k].timer].sequence != id.sequence {
      assert !TurnAt(s, id, k);
    }
  }

  // ---------- What `reset` does to each timer ----------

  /** The timer is re-armed, or it is in the batch and will be. */
  predicate Rearming(s: State, p: Ptr, timer: Timer) {
    && p in s.heap && IdOf(s, p) == TimerId(p, timer.sequence) && s.erasing != Some(IdOf(s, p))
    && ((s.resetting && p in BatchTimers(s.batch) && ToRearm(s, p) && Restarted(s, p) == timer) ||
        (s.heap[p] == timer && IdOf(s, p) in s.active))
  }

  lemma RearmingStep(s: State, e: Event, p: Ptr, timer: Timer)
    requires Inv(s) && Enabled(s, e) && Rearming(s, p, timer)
    requires s.resetting && e != CancelInLoop(TimerId(p, timer.sequence))
    ensures Rearming(Next(s, e), p, timer)
  {
    hide Inv, Apply, AssertsHold, Rearming, Interrupts;
    InvStep(s, e);
    if e.ResetNext? || e.TimerDeleted? {
      RearmingReset(s, e, p, timer);
    } else if AssertsHold(s, e) {
      RearmingSimple(s, e, p, timer);
    } else {
      RearmingAbort(s, p, timer);
    }
  }

  lemma RearmingAbort(s: State, p: Ptr, timer: Timer)
    requires Rearming(s, p, timer)
    ensures Rearming(s.(aborted := true), p, timer)
  {
  }

  lemma RearmingSimple(s: State, e: Event, p: Ptr, timer: Timer)
    requires Inv(s) && Enabled(s, e) && AssertsHold(s, e) && Rearming(s, p, timer)
    requires s.resetting && e != CancelInLoop(TimerId(p, timer.sequence)) && !e.ResetNext? && !e.TimerDeleted?
    ensures Rearming(Apply(s, e), p, timer)
  {
    hide Sorted, EraseSorted, InsertSorted, Armed, Sequenced, Indexed, Owned;
  }

  lemma RearmingReset(s: State, e: Event, p: Ptr, timer: Timer)
    requires Inv(s) && Enabled(s, e) && Rearming(s, p, timer) && (e.ResetNext? || e.TimerDeleted?)
    ensures Rearming(Next(s, e), p, timer)
  {
    hide Sorted, InsertSorted, Armed, Sequenced, Indexed;
    BatchTail(s);
    FrontIsFresh(s);
  }

  lemma {:induction false} RearmingRun(states: seq<State>, events: seq<Event>, i: nat, j: nat, p: Ptr, timer: Timer)
    requires IsRun(states, events) && i <= j < |states| && Rearming(states[i], p, timer)
    requires forall k :: i <= k < j ==> states[k].resetting && events[k] != CancelInLoop(TimerId(p, timer.sequence))
    ensures Rearming(states[j], p, timer)
    decreases j
  {
    hide Rearming, Inv, Next, Enabled, AssertsHold;
    if i < j {
      RearmingRun(states, events, i, j - 1, p, timer);
      RunInv(states, events, j - 1);
      RearmingStep(states[j - 1], events[j - 1], p, timer);
    }
  }

  /** What `reset` does to each timer of the batch, whatever the destructors do meanwhile short of cancelling that
      timer again: re-armed from the batch's time if periodic and not cancelled, deleted otherwise. */
  lemma ResetOutcome(states: seq<State>, events: seq<Event>, i: nat, j: nat, k: nat)
    requires IsRun(states, events) && i < j < |states| && k < |states[i].batch|
    requires (forall m :: i <= m < j ==> states[m].resetting) && Quiet(states[j])
    ensures states[i].batch[k].timer in states[i].heap
    ensures var s, t, p := states[i], states[j], states[i].batch[k].timer;
            if !ToRearm(s, p) then !Alive(t, s.heap[p].sequence)
            else (forall m :: i <= m < j ==> events[m] != CancelInLoop(IdOf(s, p))) ==>
              p in t.heap && t.heap[p] == Restarted(s, p) && IdOf(s, p) in t.active
  {
    hide Next, Sorted, InsertSorted, Enabled, AssertsHold, Armed;
    RunInv(states, events, i);
    RunInv(states, events, j);
    var s, p := states[i], states[i].batch[k].timer;
    assert s.batch[k] in s.batch && p in BatchTimers(s.batch);
    assert OneOwner(p, IdOf(s, p), s.active, s.batch, s.transit);
    if !ToRearm(s, p) {
      DoomedRun(states, events, i, j, s.heap[p].sequence);
    } else if forall m :: i <= m < j ==> events[m] != CancelInLoop(IdOf(s, p)) {
      RearmingRun(states, events, i, j, p, Restarted(s, p));
    }
  }

  // ---------- Runs that show the exceptions ----------

  const FIRST := TimerId(1, 1)
  const SECOND := TimerId(2, 2)

  /** With one timer at address 1, due at 10. */
  const ONE_ADDED := INIT.(heap := map[1 := Timer(10, 0, false, 1)], numCreated := 1, born := map[1 := 1],
                           timers := [Entry(10, 1)], active := {FIRST}, alarm := Some(101), armedAt := 1)

  /** Before its addTimerInLoop has run. */
  const ONE_CREATED := ONE_ADDED.(transit := {1}, timers := [], active := {}, alarm := None, armedAt := 0)

  lemma OneTimerAdded()
    ensures Stepped(INIT, New(1, 10, 0, false), ONE_CREATED) && Stepped(ONE_CREATED, AddInLoop(1, 1), ONE_ADDED)
  {
    assert ONE_CREATED.transit - {1} == {};
    assert AssertsHold(ONE_CREATED, AddInLoop(1, 1));
  }

  /** A timer is cancelled, and the destructor of its callback adds another, as `~TcpClient` does. */
  lemma AddInDestructorAborts()
    ensures exists states: seq<State>, events: seq<Event> :: IsRun(states, events) && states[|events|].aborted
  {
    hide Enabled, Next;
    var s3 := ONE_ADDED.(timers := [], erasing := Some(FIRST));
    var s4 := s3.(heap := s3.heap[2 := Timer(20, 0, false, 2)], numCreated := 2, transit := {2},
                  born := s3.born[2 := 2]);
    var s5 := s4.(aborted := true);
    OneTimerAdded();
    AddDuringCancel(s3, s4, s5);
    var events :=
      [New(1, 10, 0, false), AddInLoop(1, 1), CancelInLoop(FIRST), New(2, 20, 0, false), AddInLoop(2, 1)];
    assert IsRun([INIT, ONE_CREATED, ONE_ADDED, s3, s4, s5], events);
  }

  lemma AddDuringCancel(s3: State, s4: State, s5: State)
    requires s3 == ONE_ADDED.(timers := [], erasing := Some(FIRST))
    requires s4 == s3.(heap := s3.heap[2 := Timer(20, 0, false, 2)], numCreated := 2, transit := {2},
                       born := s3.born[2 := 2])
    requires s5 == s4.(aborted := true)
    ensures Stepped(ONE_ADDED, CancelInLoop(FIRST), s3) && Stepped(s3, New(2, 20, 0, false), s4)
    ensures Stepped(s4, AddInLoop(2, 1), s5)
  {
    assert |s4.active| == 1;
    assert !AssertsHold(s4, AddInLoop(2, 1));
  }

  /** A cancel that overtakes the timer's own add is lost, and the timer is scheduled after all. */
  lemma CancelBeforeAddIsLost()
    ensures exists states: seq<State>, events: seq<Event> ::
              && IsRun(states, events) && |events| == 3
              && events[1] == CancelInLoop(FIRST) && Issued(states[1], FIRST)
              && Quiet(states[3]) && Alive(states[3], FIRST.sequence) && states[3].timers != []
  {
    OneTimerAdded();
    var s := ONE_CREATED;
    assert Stepped(s, CancelInLoop(FIRST), s);
    assert IsRun([INIT, s, s, ONE_ADDED], [New(1, 10, 0, false), CancelInLoop(FIRST), AddInLoop(1, 1)]) by {
      hide Enabled, Next;
    }
    assert ONE_ADDED.heap[1].sequence == FIRST.sequence;
  }

  /** Two timers expire together. The first is not periodic; the destructor of its callback, run by `reset`, cancels
      the second, which is re-armed all the same. */
  lemma CancelInDestructorIsLost()
    ensures exists states: seq<State>, events: seq<Event> ::
              && IsRun(states, events) && |events| == 13
              && events[9] == CancelInLoop(SECOND) && Issued(states[9], SECOND) && states[9].transit == {}
              && Quiet(states[13]) && Alive(states[13], SECOND.sequence)
  {
    hide IsPath, Quiet, Alive, Issued;
    var s4 := ONE_ADDED.(heap := TWO_TIMERS, numCreated := 2, born := map[1 := 1, 2 := 2],
                         timers := [Entry(10, 1), Entry(20, 2)], active := {FIRST, SECOND});
    var s8 := s4.(batch := s4.timers, timers := [], active := {}, batchTime := 200, alarm := None, clock := 200,
                  resetting := true);
    var toBatch := PeriodicAdded(s4);
    var toReset := TwoTimersExpire(s4, s8);
    var toEnd := ResetWithCancel(s8);
    var added := [New(1, 10, 0, false), AddInLoop(1, 1), New(2, 20, 5, true), AddInLoop(2, 1)];
    var expired := [BeginRead(200), RunCallback, RunCallback, BeginReset];
    var reset := [ResetNext, CancelInLoop(SECOND), TimerDeleted, ResetNext, EndRead(200)];
    PathConcat(toBatch, added, toReset, expired);
    PathConcat(toBatch + toReset[1..], added + expired, toEnd, reset);
    var states, events := toBatch + toReset[1..] + toEnd[1..], added + expired + reset;
    assert states[9] == toEnd[1] && states[13] == toEnd[5] && events[9] == CancelInLoop(SECOND);
    assert IsRun(states, events);
  }

  lemma PathConcat(xs: seq<State>, es: seq<Event>, ys: seq<State>, fs: seq<Event>)
    requires IsPath(xs, es) && IsPath(ys, fs) && xs[|es|] == ys[0]
    ensures IsPath(xs + ys[1..], es + fs)
  {
    hide Enabled, Next;
    var states, events := xs + ys[1..], es + fs;
    forall i | 0 <= i < |events| ensures Stepped(states[i], events[i], states[i + 1]) {
      if i >= |es| {
        assert Stepped(ys[i - |es|], fs[i - |es|], ys[i - |es| + 1]);
      }
    }
  }

  const TWO_TIMERS := map[1 := Timer(10, 0, false, 1), 2 := Timer(20, 5, true, 2)]

  lemma PeriodicAdded(s4: State) returns (path: seq<State>)
    requires s4 == ONE_ADDED.(heap := TWO_TIMERS, numCreated := 2, born := map[1 := 1, 2 := 2],
                              timers := [Entry(10, 1), Entry(20, 2)], active := {FIRST, SECOND})
    ensures IsPath(path, [New(1, 10, 0, false), AddInLoop(1, 1), New(2, 20, 5, true), AddInLoop(2, 1)])
    ensures |path| == 5 && path[0] == INIT && path[4] == s4
  {
    var s3 := s4.(transit := {2}, timers := [Entry(10, 1)], active := {FIRST});
    OneTimerAdded();
    SecondAdded(s3, s4);
    path := [INIT, ONE_CREATED, ONE_ADDED, s3, s4];
    assert IsPath(path, [New(1, 10, 0, false), AddInLoop(1, 1), New(2, 20, 5, true), AddInLoop(2, 1)]) by {
      hide Enabled, Next;
    }
  }

  lemma SecondAdded(s3: State, s4: State)
    requires s4 == ONE_ADDED.(heap := TWO_TIMERS, numCreated := 2, born := map[1 := 1, 2 := 2],
                              timers := [Entry(10, 1), Entry(20, 2)], active := {FIRST, SECOND})
    requires s3 == s4.(transit := {2}, timers := [Entry(10, 1)], active := {FIRST})
    ensures Stepped(ONE_ADDED, New(2, 20, 5, true), s3) && Stepped(s3, AddInLoop(2, 1), s4)
  {
    var e := Entry(20, 2);
    assert s3.timers[1..] == [] && InsertSorted([], e) == [e];
    assert InsertSorted(s3.timers, e) == s4.timers;
    assert AssertsHold(s3, AddInLoop(2, 1));
  }

  lemma TwoTimersExpire(s4: State, s8: State) returns (path: seq<State>)
    requires s4.timers == [Entry(10, 1), Entry(20, 2)] && s4.active == {FIRST, SECOND} && s4.canceling == {}
    requires s4.heap == TWO_TIMERS
    requires Quiet(s4) && !s4.aborted && s4.alarm == Some(101) && s4.clock == 1 && s4.next == 0
    requires s8 == s4.(batch := s4.timers, timers := [], active := {}, batchTime := 200, alarm := None, clock := 200,
                       resetting := true)
    ensures IsPath(path, [BeginRead(200), RunCallback, RunCallback, BeginReset])
    ensures |path| == 5 && path[0] == s4 && path[4] == s8
  {
    var s5 := s8.(calling := true, resetting := false);
    path := [s4, s5, s5.(next := 1), s5.(next := 2), s8];
    assert DueCount(s4.timers, 200) == 2;
    assert s4.timers[..2] == s4.timers && s4.timers[2..] == [];
    assert s4.active - IdsOf(s4.timers, s4.heap) == {} by {
      assert s4.timers[0] == Entry(10, 1) && s4.timers[1] == Entry(20, 2);
    }
    assert Stepped(s4, BeginRead(200), s5);
  }

  lemma ResetWithCancel(s8: State) returns (path: seq<State>)
    requires s8.batch == [Entry(10, 1), Entry(20, 2)] && s8.timers == [] && s8.active == {} && s8.canceling == {}
    requires s8.heap == TWO_TIMERS
    requires s8.resetting && !s8.disposing && !s8.calling && s8.erasing.None? && !s8.aborted
    requires s8.clock == 200 && s8.batchTime == 200 && s8.transit == {} && s8.born == map[1 := 1, 2 := 2]
    ensures IsPath(path, [ResetNext, CancelInLoop(SECOND), TimerDeleted, ResetNext, EndRead(200)])
    ensures |path| == 6 && path[0] == s8
    ensures Issued(path[1], SECOND) && path[1].transit == {} && Quiet(path[5]) && Alive(path[5], SECOND.sequence)
  {
    var s9 := s8.(disposing := true);
    var s11 := s8.(batch := [Entry(20, 2)], heap := map[2 := Timer(20, 5, true, 2)]);
    var s12 := s11.(batch := [], heap := map[2 := Timer(205, 5, true, 2)], timers := [Entry(205, 2)],
                    active := {SECOND});
    var s13 := s12.(resetting := false, alarm := Some(300), armedAt := 200);
    FirstDeleted(s8, s9, s11);
    SecondRearmed(s11, s12);
    assert Stepped(s12, EndRead(200), s13);
    assert s13.heap[2].sequence == SECOND.sequence;
    path := [s8, s9, s9, s11, s12, s13];
    assert IsPath(path, [ResetNext, CancelInLoop(SECOND), TimerDeleted, ResetNext, EndRead(200)]) by {
      hide Enabled, Next;
    }
  }

  lemma FirstDeleted(s8: State, s9: State, s11: State)
    requires s8.batch == [Entry(10, 1), Entry(20, 2)] && s8.active == {} && s8.timers == [] && s8.heap == TWO_TIMERS
    requires s8.resetting && !s8.disposing && !s8.calling && s8.erasing.None? && !s8.aborted
    requires s9 == s8.(disposing := true)
    requires s11 == s8.(batch := [Entry(20, 2)], heap := map[2 := Timer(20, 5, true, 2)])
    ensures Stepped(s8, ResetNext, s9) && Stepped(s9, CancelInLoop(SECOND), s9) && Stepped(s9, TimerDeleted, s11)
  {
    assert s8.heap - {1} == s11.heap && s8.batch[1..] == s11.batch;
    assert AssertsHold(s9, TimerDeleted) && AssertsHold(s9, CancelInLoop(SECOND));
  }

  lemma SecondRearmed(s11: State, s12: State)
    requires s11.resetting && !s11.disposing && !s11.aborted && s11.timers == [] && s11.active == {}
    requires s11.canceling == {} && s11.batch == [Entry(20, 2)] && s11.batchTime == 200
    requires s11.heap == map[2 := Timer(20, 5, true, 2)]
    requires s12 == s11.(batch := [], heap := map[2 := Timer(205, 5, true, 2)], timers := [Entry(205, 2)],
                         active := {SECOND})
    ensures Stepped(s11, ResetNext, s12)
  {
    assert AssertsHold(s11, ResetNext);
  }

  lemma BeginStepped(s: State, now: int)
    requires Inv(s) && Enabled(s, BeginRead(now))
    ensures var n := DueCount(s.timers, now);
            && BatchLive(s.timers[..n], s.heap)
            && (n < |s.timers| ==> now < s.timers[n].when)
            && Stepped(s, BeginRead(now), Detached(s, now)) && Inv(Detached(s, now)) && !s.aborted
  {
    hide Inv, BatchLive, DueCount, IdsOf;
    InvStep(s, BeginRead(now));
    BeginUnfolds(s, now);
  }

  lemma TimersSorted(s: State)
    requires Inv(s)
    ensures Sorted(s.timers)
  {
  }

  lemma AddStepped(s: State, p: Ptr, now: int)
    requires Inv(s) && Enabled(s, AddInLoop(p, now))
    ensures p in s.heap && Sorted(s.timers) && !s.aborted
    ensures s.erasing.Some? <==> |s.timers| != |s.active| || Entry(s.heap[p].expiration, p) in s.timers
                                 || IdOf(s, p) in s.active
    ensures var when := s.heap[p].expiration;
            var t := Insert(s.(transit := s.transit - {p}), p);
            Next(s, AddInLoop(p, now)) ==
            if s.erasing.Some? then s.(aborted := true)
            else if EarliestChanged(s, when) then t.(alarm := Some(AlarmFor(when, now)), armedAt := now, clock := now)
            else t
  {
    hide InsertSorted, Sequenced, Armed, Sorted;
    InvStep(s, AddInLoop(p, now));
    TimersSorted(s);
  }

  /** The assert at the start of `cancelInLoop` fails exactly in the middle of another cancel. */
  lemma CancelAborts(s: State, id: TimerId)
    requires Inv(s)
    ensures |s.timers| == |s.active| <==> s.erasing.None?
    ensures s.erasing.None? && id in s.active ==> Entry(s.heap[id.timer].expiration, id.timer) in s.timers
  {
  }

  // ---------- The object ----------

  /**
   `TimerQueue` with the heap of its timers made explicit. Clock readings are parameters. `handleRead` and
   `cancelInLoop` are split where user code runs - a callback, or the destructor of one - since that calls back into
   `AddTimerInLoop` and `BeginCancel`.
   */
  class Queue {
    var timers: seq<Entry>
    var activeTimers: set<TimerId>
    var cancelingTimers: set<TimerId>
    var callingExpiredTimers: bool
    var heap: map<Ptr, Timer>
    var numCreated: nat
    var alarm: Option<int>
    var expired: seq<Entry>
    var nextExpired: nat
    var readTime: int
    var erasing: Option<TimerId>
    var aborted: bool
    ghost var rest: State   // the fields of the view that the object does not have

    ghost function View(): State
      reads this
    {
      rest.(timers := timers, active := activeTimers, canceling := cancelingTimers, calling := callingExpiredTimers,
            heap := heap, numCreated := numCreated, alarm := alarm, batch := expired, next := nextExpired,
            batchTime := readTime, erasing := erasing, aborted := aborted)
    }

    ghost predicate Valid()
      reads this
    {
      Inv(View())
    }

    constructor ()
      ensures Valid() && View() == INIT
    {
      timers, activeTimers, cancelingTimers, callingExpiredTimers := [], {}, {}, false;
      heap, numCreated, alarm, expired, nextExpired, readTime := map[], 0, None, [], 0, 1;
      erasing, aborted, rest := None, false, INIT;
      new;
      InitInv();
    }

    /** `addTimer` up to handing the timer to the loop; `p` is the address the allocator picked. */
    method AddTimer(p: Ptr, when: int, interval: nat, repeat: bool) returns (id: TimerId)
      requires Valid() && Enabled(View(), New(p, when, interval, repeat))
      modifies this
      ensures Valid() && Stepped(old(View()), New(p, when, interval, repeat), View()) && !aborted
      ensures id == TimerId(p, numCreated) && heap[p].sequence == id.sequence && id.sequence !in old(View()).born
    {
      hide Indexed, Owned, Armed, Placed;
      InvStep(View(), New(p, when, interval, repeat));
      numCreated := numCreated + 1;
      heap := heap[p := Timer(when, interval, repeat, numCreated)];
      id := TimerId(p, heap[p].sequence);
      rest := rest.(transit := rest.transit + {p}, born := rest.born[numCreated := p]);
    }

    /** `insert`, with its asserts: on the sizes of the sets, and that both take the timer in. */
    method InsertTimer(p: Ptr) returns (earliestChanged: bool)
      requires p in heap && Sorted(timers) && !aborted
      modifies this`timers, this`activeTimers, this`aborted
      ensures aborted <==> |old(timers)| != |old(activeTimers)| || Entry(heap[p].expiration, p) in old(timers)
                           || TimerId(p, heap[p].sequence) in old(activeTimers)
      ensures !aborted ==> View() == Insert(old(View()), p) && |timers| == |activeTimers|
      ensures !aborted ==> earliestChanged == EarliestChanged(old(View()), heap[p].expiration)
      ensures aborted ==> View() == old(View()).(aborted := true)
    {
      hide Sorted, InsertSorted;
      var when := heap[p].expiration;
      earliestChanged := timers == [] || when < timers[0].when;
      if |timers| != |activeTimers| || Entry(when, p) in timers || TimerId(p, heap[p].sequence) in activeTimers {
        aborted := true;
        return;
      }
      InsertSortedKeeps(timers, Entry(when, p));
      timers := InsertSorted(timers, Entry(when, p));
      activeTimers := activeTimers + {TimerId(p, heap[p].sequence)};
    }

    /** `addTimerInLoop`. */
    method AddTimerInLoop(p: Ptr, now: int)
      requires Valid() && Enabled(View(), AddInLoop(p, now))
      modifies this
      ensures Valid() && Stepped(old(View()), AddInLoop(p, now), View())
      ensures aborted <==> old(erasing).Some?
    {
      hide Inv, InsertSorted, Sorted, AssertsHold, Next, Apply, Enabled;
      InvStep(View(), AddInLoop(p, now));
      AddStepped(View(), p, now);
      var earliestChanged := InsertTimer(p);
      if !aborted {
        rest := rest.(transit := rest.transit - {p});
        if earliestChanged {
          alarm, rest := Some(AlarmFor(heap[p].expiration, now)), rest.(armedAt := now, clock := now);
        }
      }
    }

    /** `cancelInLoop` as far as the delete; the timer's destructor runs next, if there is one. */
    method BeginCancel(id: TimerId)
      requires Valid() && Enabled(View(), CancelInLoop(id))
      modifies this
      ensures Valid() && Stepped(old(View()), CancelInLoop(id), View())
      ensures aborted <==> old(erasing).Some?
    {
      hide Indexed, Owned, Armed, Sequenced, EraseSorted, Placed;
      InvStep(View(), CancelInLoop(id));
      CancelAborts(View(), id);
      if |timers| != |activeTimers| {
        aborted := true;
      } else if id in activeTimers {
        assert Entry(heap[id.timer].expiration, id.timer) in timers;
        timers := EraseSorted(timers, Entry(heap[id.timer].expiration, id.timer));
        erasing := Some(id);
      } else if callingExpiredTimers {
        cancelingTimers := cancelingTimers + {id};
      }
    }

    /** The rest of `cancelInLoop`, with its assert. */
    method EndCancel()
      requires Valid() && Enabled(View(), CancelDeleted)
      modifies this
      ensures Valid() && Stepped(old(View()), CancelDeleted, View())
      ensures !aborted && |timers| == |activeTimers|
    {
      hide Indexed, Owned, Armed, Sequenced, Placed;
      InvStep(View(), CancelDeleted);
      heap := heap - {erasing.value.timer};
      activeTimers := activeTimers - {erasing.value};
      erasing := None;
    }

    /** `handleRead` up to the callbacks. */
    method BeginHandleRead(now: int)
      requires Valid() && Enabled(View(), BeginRead(now))
      modifies this
      ensures Valid() && Stepped(old(View()), BeginRead(now), View())
      ensures !aborted
    {
      hide Inv, DueCount, IdsOf, BatchLive, Stepped, Enabled, AssertsHold, Apply, Next;
      BeginStepped(View(), now);
      GetExpired(now);
      StartCallbacks(now);
    }

    /** The flag and the set that `cancelInLoop` looks at while callbacks run. */
    method StartCallbacks(now: int)
      modifies this`callingExpiredTimers, this`cancelingTimers, this`nextExpired, this`readTime, this`alarm, this`rest
      ensures View() == old(View()).(calling := true, canceling := {}, next := 0, batchTime := now, alarm := None,
                                     clock := now)
    {
      callingExpiredTimers, cancelingTimers, nextExpired, readTime, alarm, rest := true, {}, 0, now, None,
        rest.(clock := now);
    }

    /** `getExpired`, with its assert. */
    method GetExpired(now: int)
      requires var n := DueCount(timers, now);
               (n < |timers| ==> now < timers[n].when) && BatchLive(timers[..n], heap)
      modifies this`timers, this`activeTimers, this`expired
      ensures expired == old(timers)[..DueCount(old(timers), now)]
      ensures View() == old(View()).(batch := expired, timers := old(timers)[DueCount(old(timers), now)..],
                                     active := old(activeTimers) - IdsOf(expired, heap))
    {
      var n := DueCount(timers, now);
      assert n == |timers| || now < timers[n].when;
      expired := timers[..n];
      timers := timers[n..];
      for i := 0 to |expired|
        modifies this`activeTimers
        invariant activeTimers == old(activeTimers) - IdsOf(expired[..i], heap)
      {
        var id := TimerId(expired[i].timer, heap[expired[i].timer].sequence);
        activeTimers := activeTimers - {id};
        IdsSnoc(expired, heap, i);
      }
      assert expired[..|expired|] == expired;
    }

    /** One turn of the callback loop: the timer called is alive. */
    method CallNext() returns (called: Timer)
      requires Valid() && Enabled(View(), RunCallback)
      modifies this`nextExpired
      ensures Valid() && Stepped(old(View()), RunCallback, View())
      ensures old(nextExpired) < |expired| && expired[old(nextExpired)].timer in heap
      ensures called == heap[expired[old(nextExpired)].timer] && Calls(old(View()), RunCallback, called.sequence)
    {
      hide Indexed, Owned, Armed, Sequenced, Placed;
      InvStep(View(), RunCallback);
      called := heap[expired[nextExpired].timer];
      nextExpired := nextExpired + 1;
    }

    /** The callbacks are done. */
    method StartReset()
      requires Valid() && Enabled(View(), BeginReset)
      modifies this
      ensures Valid() && Stepped(old(View()), BeginReset, View())
    {
      hide Indexed, Owned, Armed, Sequenced, Placed;
      InvStep(View(), BeginReset);
      callingExpiredTimers, nextExpired, rest := false, 0, rest.(resetting := true);
    }

    /** One turn of the loop in `reset`, as far as its delete, if there is one. */
    method ResetTimer()
      requires Valid() && Enabled(View(), ResetNext)
      modifies this
      ensures Valid() && Stepped(old(View()), ResetNext, View())
      ensures !aborted
    {
      hide InsertSorted, Sorted, Inv;
      InvStep(View(), ResetNext);
      TimersSorted(View());
      var p := expired[0].timer;
      var timer := heap[p];
      if timer.repeat && TimerId(p, timer.sequence) !in cancelingTimers {
        heap := heap[p := timer.(expiration := readTime + timer.interval)];
        expired := expired[1..];
        var _ := InsertTimer(p);
      } else {
        rest := rest.(disposing := true);
      }
    }

    /** The end of that delete. */
    method EndDelete()
      requires Valid() && Enabled(View(), TimerDeleted)
      modifies this
      ensures Valid() && Stepped(old(View()), TimerDeleted, View())
    {
      hide Indexed, Owned, Armed, Sequenced, Placed;
      InvStep(View(), TimerDeleted);
      heap := heap - {expired[0].timer};
      expired := expired[1..];
      rest := rest.(disposing := false);
    }

    /** `reset` after its loop. */
    method EndReset(now: int)
      requires Valid() && Enabled(View(), EndRead(now))
      modifies this
      ensures Valid() && Stepped(old(View()), EndRead(now), View())
    {
      hide Indexed, Owned, Armed, Sequenced, Placed;
      InvStep(View(), EndRead(now));
      if timers != [] && timers[0].when > 0 {
        alarm := Some(AlarmFor(timers[0].when, now));
        rest := rest.(armedAt := now, clock := now);
      }
      rest := rest.(resetting := false);
    }
  }
}
