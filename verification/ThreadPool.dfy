/**
 The thread pool's bounded producer/consumer queue with shutdown (mymuduo/base/ThreadPool.cc), as critical sections
 under one mutex with two condition variables. Without a stop it is also BoundedBlockingQueue.
 */
module ThreadPool {
  import opened Common

  type Tid = nat
  type Task = nat

  /** A worker between its critical sections; the index of a held task is its position in the accepted sequence. A
      worker is `Starting` until its first test of `running_`, which may come after `start` has returned. */
  datatype Worker = Starting | Taking | WaitingNotEmpty | Woken | Holding(index: nat) | Left

  /** A caller of `run` between its critical sections. */
  datatype Producer = Offering(task: Task) | WaitingNotFull(task: Task) | Retrying(task: Task) | Returned

  datatype State = State(
    queue: seq<Task>, maxQueueSize: nat, running: bool, workers: map<Tid, Worker>, producers: map<Tid, Producer>,
    // history
    accepted: seq<Task>, takenCount: nat, executed: set<nat>)

  function Init(maxQueueSize: nat, threads: set<Tid>): State {
    State([], maxQueueSize, true, map w | w in threads :: Starting, map[], [], 0, {})
  }

  function WaitingWorkers(ws: map<Tid, Worker>): set<Tid> { set w | w in ws && ws[w].WaitingNotEmpty? }
  function WokenWorkers(ws: map<Tid, Worker>): set<Tid> { set w | w in ws && ws[w].Woken? }
  function WaitingProducers(ps: map<Tid, Producer>): set<Tid> { set p | p in ps && ps[p].WaitingNotFull? }
  function WokenProducers(ps: map<Tid, Producer>): set<Tid> { set p | p in ps && ps[p].Retrying? }

  predicate IsFull(s: State) {
    s.maxQueueSize > 0 && |s.queue| >= s.maxQueueSize
  }

  /** `wake` is the waiter that a `notify` in the section happens to pick, if there is one to pick. */
  datatype Event =
    | EnterLoop(w: Tid)                    // the thread's init callback, and the first loop test
    | CallRun(p: Tid, task: Task)          // a thread calls run
    | Put(p: Tid, wake: Option<Tid>)       // run's critical section, from the mutex to a wait or the end
    | Take(w: Tid, wake: Option<Tid>)      // take's critical section
    | Execute(w: Tid)                      // the task, and the loop test after it
    | SpuriousWorker(w: Tid) | SpuriousProducer(p: Tid)
    | Stop

  /** `notify` wakes one waiter whenever there is one. */
  predicate Notifies(waiting: set<Tid>, wake: Option<Tid>) {
    if waiting == {} then wake.None? else wake.Some? && wake.value in waiting
  }

  predicate MayRunWorker(s: State, w: Tid) {
    w in s.workers && (s.workers[w].Taking? || s.workers[w].Woken?)
  }

  predicate MayRunProducer(s: State, p: Tid) {
    p in s.producers && (s.producers[p].Offering? || s.producers[p].Retrying?)
  }

  predicate Pushes(s: State) {
    s.running && !IsFull(s) && s.workers != map[]
  }

  predicate Enabled(s: State, e: Event) {
    match e
    case EnterLoop(w) => w in s.workers && s.workers[w].Starting?
    case CallRun(p, _) => p !in s.producers
    case Put(p, wake) =>
      MayRunProducer(s, p) && (if Pushes(s) then Notifies(WaitingWorkers(s.workers), wake) else wake.None?)
    case Take(w, wake) =>
      MayRunWorker(s, w) &&
      (if s.queue != [] && s.maxQueueSize > 0 then Notifies(WaitingProducers(s.producers), wake) else wake.None?)
    case Execute(w) => w in s.workers && s.workers[w].Holding?
    case SpuriousWorker(w) => w in WaitingWorkers(s.workers)
    case SpuriousProducer(p) => p in WaitingProducers(s.producers)
    case Stop => true
  }

  function WakeWorker(s: State, wake: Option<Tid>): State {
    if wake.Some? then s.(workers := s.workers[wake.value := Woken]) else s
  }

  function WakeProducer(s: State, wake: Option<Tid>): State
    requires wake.Some? ==> wake.value in WaitingProducers(s.producers)
  {
    if wake.Some? then s.(producers := s.producers[wake.value := Retrying(s.producers[wake.value].task)]) else s
  }

  function PutSection(s: State, p: Tid, wake: Option<Tid>): State
    requires MayRunProducer(s, p)
  {
    var task := s.producers[p].task;
    if s.workers == map[] then  // no threads: the caller runs the task itself
      s.(producers := s.producers[p := Returned], accepted := s.accepted + [task],
         takenCount := s.takenCount + 1, executed := s.executed + {|s.accepted|})
    else if IsFull(s) && s.running then s.(producers := s.producers[p := WaitingNotFull(task)])
    else if !s.running then s.(producers := s.producers[p := Returned])
    else WakeWorker(s.(producers := s.producers[p := Returned], queue := s.queue + [task],
                       accepted := s.accepted + [task]), wake)
  }

  function TakeSection(s: State, w: Tid, wake: Option<Tid>): State
    requires MayRunWorker(s, w)
    requires wake.Some? ==> wake.value in WaitingProducers(s.producers)
  {
    if s.queue == [] then s.(workers := s.workers[w := if s.running then WaitingNotEmpty else Left])
    else WakeProducer(s.(workers := s.workers[w := Holding(s.takenCount)], queue := s.queue[1..],
                         takenCount := s.takenCount + 1), wake)
  }

  function Apply(s: State, e: Event): State
    requires Enabled(s, e)
  {
    match e
    case EnterLoop(w) => s.(workers := s.workers[w := if s.running then Taking else Left])
    case CallRun(p, task) => s.(producers := s.producers[p := Offering(task)])
    case Put(p, wake) => PutSection(s, p, wake)
    case Take(w, wake) => TakeSection(s, w, wake)
    case Execute(w) =>
      s.(executed := s.executed + {s.workers[w].index}, workers := s.workers[w := if s.running then Taking else Left])
    case SpuriousWorker(w) => WakeWorker(s, Some(w))
    case SpuriousProducer(p) => WakeProducer(s, Some(p))
    case Stop =>
      s.(running := false,
         workers := map w | w in s.workers :: (if s.workers[w].WaitingNotEmpty? then Woken else s.workers[w]),
         producers := map p | p in s.producers ::
           (if s.producers[p].WaitingNotFull? then Retrying(s.producers[p].task) else s.producers[p]))
  }

  // ---------- Invariants ----------

  /** A worker sleeps only while every queued task already has a worker woken for it, and dually for free slots. */
  predicate NoLostWakeup(s: State) {
    && (WaitingWorkers(s.workers) != {} ==> |s.queue| <= |WokenWorkers(s.workers)|)
    && (WaitingProducers(s.producers) != {} ==>
          s.maxQueueSize > 0 && s.maxQueueSize - |s.queue| <= |WokenProducers(s.producers)|)
    && (!s.running ==> WaitingWorkers(s.workers) == {} && WaitingProducers(s.producers) == {})
  }

  predicate Bounded(s: State) {
    && (s.maxQueueSize > 0 ==> |s.queue| <= s.maxQueueSize)
    && (s.workers == map[] ==> s.queue == [] && WaitingProducers(s.producers) == {})
  }

  /** Which task each worker holds, by position in the accepted sequence. */
  function HeldBy(ws: map<Tid, Worker>): map<Tid, nat> {
    map w | w in ws && ws[w].Holding? :: ws[w].index
  }

  /** The first `n` positions are each executed or held by one worker, never both, never by two. */
  predicate Partition(held: map<Tid, nat>, executed: set<nat>, n: nat) {
    && (forall i :: i in executed ==> i < n)
    && (forall w :: w in held ==> held[w] < n && held[w] !in executed)
    && (forall v, w :: v in held && w in held && held[v] == held[w] ==> v == w)
    && (forall i :: 0 <= i < n && i !in executed ==> exists w :: w in held && held[w] == i)
  }

  /** Every accepted task is executed, held by exactly one worker, or still queued, the queue in order. */
  predicate Accounted(s: State) {
    && s.takenCount <= |s.accepted| && s.queue == s.accepted[s.takenCount..]
    && Partition(HeldBy(s.workers), s.executed, s.takenCount)
  }

  predicate Inv(s: State) {
    NoLostWakeup(s) && Bounded(s) && Accounted(s)
  }

  lemma InitInv(maxQueueSize: nat, threads: set<Tid>)
    ensures Inv(Init(maxQueueSize, threads))
  {
  }

  // How each set of sleepers changes when one thread changes status.

  lemma OneWorker(ws: map<Tid, Worker>, w: Tid, status: Worker)
    ensures var ws' := ws[w := status];
            && WaitingWorkers(ws') ==
               (if status.WaitingNotEmpty? then WaitingWorkers(ws) + {w} else WaitingWorkers(ws) - {w})
            && WokenWorkers(ws') == (if status.Woken? then WokenWorkers(ws) + {w} else WokenWorkers(ws) - {w})
  {
  }

  lemma OneProducer(ps: map<Tid, Producer>, p: Tid, status: Producer)
    ensures var ps' := ps[p := status];
            && WaitingProducers(ps') ==
               (if status.WaitingNotFull? then WaitingProducers(ps) + {p} else WaitingProducers(ps) - {p})
            && WokenProducers(ps') == (if status.Retrying? then WokenProducers(ps) + {p} else WokenProducers(ps) - {p})
  {
  }

  lemma StopWakesAll(s: State)
    ensures var t := Apply(s, Stop);
            && WaitingWorkers(t.workers) == {} && WaitingProducers(t.producers) == {}
            && HeldBy(t.workers) == HeldBy(s.workers)
  {
  }

  lemma WakeupStep(s: State, e: Event)
    requires NoLostWakeup(s) && Bounded(s) && Enabled(s, e)
    ensures NoLostWakeup(Apply(s, e)) && Bounded(Apply(s, e))
  {
    hide WaitingWorkers, WokenWorkers, WaitingProducers, WokenProducers, PutSection, TakeSection;
    match e
    case EnterLoop(w) => ThreadLocalKeepsWakeups(s, e);
    case CallRun(p, task) => ThreadLocalKeepsWakeups(s, e);
    case Put(p, wake) => PutKeepsWakeups(s, p, wake);
    case Take(w, wake) => TakeKeepsWakeups(s, w, wake);
    case Execute(w) => ThreadLocalKeepsWakeups(s, e);
    case SpuriousWorker(w) => ThreadLocalKeepsWakeups(s, e);
    case SpuriousProducer(p) => ThreadLocalKeepsWakeups(s, e);
    case Stop => StopKeepsWakeups(s);
  }

  lemma StopKeepsWakeups(s: State)
    requires Bounded(s)
    ensures NoLostWakeup(Apply(s, Stop)) && Bounded(Apply(s, Stop))
  {
    hide WokenWorkers, WokenProducers;
    StopWakesAll(s);
    assert Apply(s, Stop).workers == map[] ==> s.workers == map[] by {
      assert Apply(s, Stop).workers.Keys == s.workers.Keys;
    }
  }

  lemma BoundedLocal(s: State, e: Event)
    requires Bounded(s) && Enabled(s, e) && !e.Put? && !e.Take? && !e.Stop?
    ensures Bounded(Apply(s, e))
  {
  }

  lemma ThreadLocalKeepsWakeups(s: State, e: Event)
    requires NoLostWakeup(s) && Bounded(s) && Enabled(s, e)
    requires !e.Put? && !e.Take? && !e.Stop?
    ensures NoLostWakeup(Apply(s, e)) && Bounded(Apply(s, e))
  {
    hide Bounded;
    BoundedLocal(s, e);
    match e
    case EnterLoop(w) => OneWorker(s.workers, w, if s.running then Taking else Left);
    case CallRun(p, task) => OneProducer(s.producers, p, Offering(task));
    case Execute(w) => OneWorker(s.workers, w, if s.running then Taking else Left);
    case SpuriousWorker(w) => OneWorker(s.workers, w, Woken);
    case SpuriousProducer(p) => OneProducer(s.producers, p, Retrying(s.producers[p].task));
  }

  lemma PutKeepsWakeups(s: State, p: Tid, wake: Option<Tid>)
    requires NoLostWakeup(s) && Bounded(s) && Enabled(s, Put(p, wake))
    ensures NoLostWakeup(PutSection(s, p, wake)) && Bounded(PutSection(s, p, wake))
  {
    var task := s.producers[p].task;
    OneProducer(s.producers, p, Returned);
    OneProducer(s.producers, p, WaitingNotFull(task));
    if Pushes(s) {
      if wake.Some? { OneWorker(s.workers, wake.value, Woken); }
    }
  }

  lemma TakeKeepsWakeups(s: State, w: Tid, wake: Option<Tid>)
    requires NoLostWakeup(s) && Bounded(s) && Enabled(s, Take(w, wake))
    ensures NoLostWakeup(TakeSection(s, w, wake)) && Bounded(TakeSection(s, w, wake))
  {
    OneWorker(s.workers, w, if s.running then WaitingNotEmpty else Left);
    OneWorker(s.workers, w, Holding(s.takenCount));
    if s.queue != [] {
      if wake.Some? { OneProducer(s.producers, wake.value, Retrying(s.producers[wake.value].task)); }
    }
  }

  /** A worker moving between statuses that hold nothing does not change who holds what. */
  lemma HeldSame(ws: map<Tid, Worker>, w: Tid, status: Worker)
    requires w in ws && !ws[w].Holding? && !status.Holding?
    ensures HeldBy(ws[w := status]) == HeldBy(ws)
  {
  }

  /** Taking the next task extends the partition. */
  lemma PartitionTake(held: map<Tid, nat>, w: Tid, executed: set<nat>, n: nat)
    requires w !in held && Partition(held, executed, n)
    ensures Partition(held[w := n], executed, n + 1)
  {
    var held' := held[w := n];
    forall i | 0 <= i < n + 1 && i !in executed ensures exists v :: v in held' && held'[v] == i {
      if i < n {
        var v :| v in held && held[v] == i;
        assert v in held' && held'[v] == i;
      } else {
        assert w in held' && held'[w] == i;
      }
    }
  }

  /** Executing a held task moves it to the other side. */
  lemma PartitionExecute(held: map<Tid, nat>, w: Tid, executed: set<nat>, n: nat)
    requires w in held && Partition(held, executed, n)
    ensures held[w] !in executed && Partition(held - {w}, executed + {held[w]}, n)
  {
    var held' := held - {w};
    forall i | 0 <= i < n && i !in executed + {held[w]} ensures exists v :: v in held' && held'[v] == i {
      var v :| v in held && held[v] == i;
      assert v in held' && held'[v] == i;
    }
  }

  lemma HeldTake(ws: map<Tid, Worker>, w: Tid, executed: set<nat>, n: nat)
    requires w in ws && !ws[w].Holding? && Partition(HeldBy(ws), executed, n)
    ensures Partition(HeldBy(ws[w := Holding(n)]), executed, n + 1)
  {
    hide Partition;
    assert HeldBy(ws[w := Holding(n)]) == HeldBy(ws)[w := n];
    PartitionTake(HeldBy(ws), w, executed, n);
  }

  lemma HeldExecute(ws: map<Tid, Worker>, w: Tid, status: Worker, executed: set<nat>, n: nat)
    requires w in ws && ws[w].Holding? && !status.Holding? && Partition(HeldBy(ws), executed, n)
    ensures ws[w].index !in executed
    ensures Partition(HeldBy(ws[w := status]), executed + {ws[w].index}, n)
  {
    hide Partition;
    assert HeldBy(ws)[w] == ws[w].index;
    assert HeldBy(ws[w := status]) == HeldBy(ws) - {w};
    PartitionExecute(HeldBy(ws), w, executed, n);
  }

  lemma AccountStep(s: State, e: Event)
    requires Accounted(s) && Bounded(s) && Enabled(s, e)
    ensures Accounted(Apply(s, e))
  {
    hide WokenWorkers, WokenProducers, HeldBy, Partition;
    match e
    case EnterLoop(w) => HeldSame(s.workers, w, if s.running then Taking else Left);
    case CallRun(p, task) =>
    case Put(p, wake) => PutAccounts(s, p, wake);
    case Take(w, wake) => TakeAccounts(s, w, wake);
    case Execute(w) => HeldExecute(s.workers, w, if s.running then Taking else Left, s.executed, s.takenCount);
    case SpuriousWorker(w) => HeldSame(s.workers, w, Woken);
    case SpuriousProducer(p) =>
    case Stop => StopWakesAll(s);
  }

  lemma PutAccounts(s: State, p: Tid, wake: Option<Tid>)
    requires Accounted(s) && Bounded(s) && Enabled(s, Put(p, wake))
    ensures Accounted(PutSection(s, p, wake))
  {
    hide WokenWorkers, WokenProducers, HeldBy;
    if s.workers == map[] {
      assert |s.accepted| == s.takenCount;
      assert HeldBy(s.workers) == map[] by { NothingHeld(); }
    } else if wake.Some? {
      HeldSame(s.workers, wake.value, Woken);
    }
  }

  lemma NothingHeld()
    ensures HeldBy(map[]) == map[]
  {
  }

  lemma TakeAccounts(s: State, w: Tid, wake: Option<Tid>)
    requires Accounted(s) && Enabled(s, Take(w, wake))
    ensures Accounted(TakeSection(s, w, wake))
  {
    hide WokenWorkers, WokenProducers, HeldBy, Partition;
    if s.queue == [] {
      HeldSame(s.workers, w, if s.running then WaitingNotEmpty else Left);
    } else {
      HeldTake(s.workers, w, s.executed, s.takenCount);
    }
  }

  lemma InvStep(s: State, e: Event)
    requires Inv(s) && Enabled(s, e)
    ensures Inv(Apply(s, e))
  {
    hide NoLostWakeup, Bounded, Accounted, Enabled, Apply;
    WakeupStep(s, e);
    AccountStep(s, e);
  }

  // ---------- Whole runs ----------

  ghost predicate IsRun(states: seq<State>, events: seq<Event>) {
    && |states| == |events| + 1
    && (exists m: nat, threads: set<Tid> :: states[0] == Init(m, threads))
    && forall i :: 0 <= i < |events| ==> Enabled(states[i], events[i]) && states[i + 1] == Apply(states[i], events[i])
  }

  lemma {:induction false} RunInv(states: seq<State>, events: seq<Event>, i: nat)
    requires IsRun(states, events) && i < |states|
    ensures Inv(states[i])
  {
    hide Inv, Apply, Enabled, Init;
    if i == 0 {
      var m: nat, threads: set<Tid> :| states[0] == Init(m, threads);
      InitInv(m, threads);
    } else {
      RunInv(states, events, i - 1);
      InvStep(states[i - 1], events[i - 1]);
    }
  }

  /** In every interleaving: a queued task never waits on sleeping workers alone, a free slot never on sleeping
      producers alone, the bound holds, and after a stop nobody sleeps. */
  lemma NobodySleepsOnWork(states: seq<State>, events: seq<Event>, i: nat)
    requires IsRun(states, events) && i < |states|
    ensures var s := states[i];
            && (s.queue != [] && WaitingWorkers(s.workers) != {} ==> WokenWorkers(s.workers) != {})
            && (WaitingProducers(s.producers) != {} && !IsFull(s) ==> WokenProducers(s.producers) != {})
            && (s.maxQueueSize > 0 ==> |s.queue| <= s.maxQueueSize)
            && (!s.running ==> WaitingWorkers(s.workers) == {} && WaitingProducers(s.producers) == {})
  {
    RunInv(states, events, i);
  }

  /** Exactly once: a task about to be executed has not been executed, and no other worker holds it. */
  lemma ExactlyOnce(states: seq<State>, events: seq<Event>, i: nat, w: Tid)
    requires IsRun(states, events) && i < |events| && events[i] == Execute(w)
    ensures w in states[i].workers && states[i].workers[w].Holding?
    ensures var index := states[i].workers[w].index;
            && index < |states[i].accepted| && index !in states[i].executed
            && forall v :: v in states[i].workers && v != w ==> states[i].workers[v] != Holding(index)
  {
    RunInv(states, events, i);
    var s := states[i];
    var held := HeldBy(s.workers);
    assert w in held && held[w] == s.workers[w].index;
    forall v | v in s.workers && v != w ensures s.workers[v] != Holding(held[w]) {
      if s.workers[v].Holding? { assert v in held; }
    }
  }

  // ---------- What a run did, read off its events ----------

  /** What `p` called `run` with. */
  function Offered(events: seq<Event>, p: Tid): Option<Task> {
    if events == [] then None
    else
      var last := events[|events| - 1];
      if last.CallRun? && last.p == p then Some(last.task) else Offered(events[..|events| - 1], p)
  }

  /** `run` finds no thread to hand the task to, or room in a pool that has not been stopped. */
  predicate Accepts(s: State, stopped: bool) {
    s.workers == map[] || (!stopped && (s.maxQueueSize == 0 || |s.queue| < s.maxQueueSize))
  }

  /** The tasks taken on in a run: those of the callers that came to `run`'s critical section at such a moment. */
  function TakenOn(states: seq<State>, events: seq<Event>): seq<Task>
    requires |states| >= |events|
    decreases |events|
  {
    if events == [] then []
    else
      var n := |events| - 1;
      var before, e := events[..n], events[n];
      var offered := if e.Put? && Accepts(states[n], Stop in before) then Offered(before, e.p) else None;
      TakenOn(states, before) + (if offered.Some? then [offered.value] else [])
  }

  /** The bookkeeping of the state is what the events say. */
  predicate Told(s: State, events: seq<Event>) {
    && (s.running <==> Stop !in events)
    && (forall p :: p in s.producers && !s.producers[p].Returned? ==> Offered(events, p) == Some(s.producers[p].task))
    && (forall w :: w in s.workers && s.workers[w].Left? ==> Stop in events)
  }

  lemma ToldStep(s: State, e: Event, events: seq<Event>)
    requires Enabled(s, e) && Told(s, events)
    ensures Told(Apply(s, e), events + [e])
    ensures Apply(s, e).maxQueueSize == s.maxQueueSize && Apply(s, e).workers.Keys == s.workers.Keys
  {
    hide WokenWorkers, WokenProducers;
    assert (events + [e])[..|events|] == events;
    match e
    case CallRun(_, _) =>
    case Put(_, _) =>
    case Take(_, _) =>
    case Execute(_) =>
    case EnterLoop(_) =>
    case Stop =>
    case _ =>
  }

  lemma {:induction false} RunTold(states: seq<State>, events: seq<Event>, i: nat)
    requires IsRun(states, events) && i < |states|
    ensures Told(states[i], events[..i])
    ensures states[i].maxQueueSize == states[0].maxQueueSize && states[i].workers.Keys == states[0].workers.Keys
  {
    hide Told, Apply, Enabled;
    if i == 0 {
      var m: nat, threads: set<Tid> :| states[0] == Init(m, threads);
      NothingTold(m, threads);
      assert events[..0] == [];
    } else {
      RunTold(states, events, i - 1);
      ToldStep(states[i - 1], events[i - 1], events[..i - 1]);
      assert events[..i] == events[..i - 1] + [events[i - 1]];
    }
  }

  lemma NothingTold(m: nat, threads: set<Tid>)
    ensures Told(Init(m, threads), []) && Init(m, threads).accepted == []
  {
  }

  lemma AcceptedStep(s: State, e: Event, stopped: bool)
    requires Enabled(s, e) && (s.running <==> !stopped)
    ensures Apply(s, e).accepted ==
            if e.Put? && Accepts(s, stopped) then s.accepted + [s.producers[e.p].task] else s.accepted
  {
    hide WaitingWorkers, WokenWorkers, WaitingProducers, WokenProducers;
    match e
    case Put(_, _) =>
    case Take(_, _) =>
    case _ =>
  }

  /** Every task offered to a pool with room is accepted, whoever sleeps or is woken; nothing else is. */
  lemma {:induction false} AcceptedIsTakenOn(states: seq<State>, events: seq<Event>, i: nat)
    requires IsRun(states, events) && i < |states|
    ensures states[i].accepted == TakenOn(states, events[..i])
  {
    hide Apply, Accepts, Offered;
    if i == 0 {
      var m: nat, threads: set<Tid> :| states[0] == Init(m, threads);
      NothingTold(m, threads);
    } else {
      AcceptedIsTakenOn(states, events, i - 1);
      RunTold(states, events, i - 1);
      AcceptedStep(states[i - 1], events[i - 1], Stop in events[..i - 1]);
      assert events[..i][..i - 1] == events[..i - 1];
    }
  }

  /** The tasks, by position, that workers executed, or their callers in a pool without threads. */
  function Ran(states: seq<State>, events: seq<Event>): set<nat>
    requires |states| >= |events|
    decreases |events|
  {
    if events == [] then {}
    else
      var n := |events| - 1;
      var s, e, before := states[n], events[n], Ran(states, events[..n]);
      if e.Execute? && e.w in s.workers && s.workers[e.w].Holding? then before + {s.workers[e.w].index}
      else if e.Put? && s.workers == map[] then before + {|TakenOn(states, events[..n])|}
      else before
  }

  lemma ExecutedStep(s: State, e: Event)
    requires Enabled(s, e)
    ensures Apply(s, e).executed ==
            if e.Execute? then s.executed + {s.workers[e.w].index}
            else if e.Put? && s.workers == map[] then s.executed + {|s.accepted|}
            else s.executed
  {
    hide WaitingWorkers, WokenWorkers, WaitingProducers, WokenProducers;
    match e
    case Put(_, _) =>
    case Take(_, _) =>
    case _ =>
  }

  lemma {:induction false} ExecutedIsRan(states: seq<State>, events: seq<Event>, i: nat)
    requires IsRun(states, events) && i < |states|
    ensures states[i].executed == Ran(states, events[..i])
  {
    hide Apply, TakenOn;
    if i == 0 {
      var m: nat, threads: set<Tid> :| states[0] == Init(m, threads);
    } else {
      ExecutedIsRan(states, events, i - 1);
      AcceptedIsTakenOn(states, events, i - 1);
      ExecutedStep(states[i - 1], events[i - 1]);
      assert events[..i][..i - 1] == events[..i - 1];
    }
  }

  /** No task is lost or doubled: of the tasks taken on, in order, the first ones were each executed or are held by
      exactly one worker, and the others are the queue. */
  lemma TasksConserved(states: seq<State>, events: seq<Event>, i: nat)
    requires IsRun(states, events) && i < |states|
    ensures var s, tasks, ran := states[i], TakenOn(states, events[..i]), Ran(states, events[..i]);
            && s.takenCount <= |tasks| && s.queue == tasks[s.takenCount..]
            && (forall n :: n in ran ==> n < s.takenCount)
            && (forall w :: w in s.workers && s.workers[w].Holding? ==>
                  s.workers[w].index < s.takenCount && s.workers[w].index !in ran)
            && (forall v, w :: v in s.workers && w in s.workers && v != w && s.workers[v].Holding? ==>
                  s.workers[v] != s.workers[w])
            && (forall n :: 0 <= n < s.takenCount && n !in ran ==>
                  exists w :: w in s.workers && s.workers[w] == Holding(n))
  {
    hide TakenOn, Ran, NoLostWakeup, Bounded;
    RunInv(states, events, i);
    AcceptedIsTakenOn(states, events, i);
    ExecutedIsRan(states, events, i);
    HeldMeans(states[i].workers, states[i].executed, states[i].takenCount);
  }

  lemma HeldMeans(ws: map<Tid, Worker>, executed: set<nat>, n: nat)
    requires Partition(HeldBy(ws), executed, n)
    ensures forall w :: w in ws && ws[w].Holding? ==> ws[w].index < n && ws[w].index !in executed
    ensures forall v, w :: v in ws && w in ws && v != w && ws[v].Holding? ==> ws[v] != ws[w]
    ensures forall k :: 0 <= k < n && k !in executed ==> exists w :: w in ws && ws[w] == Holding(k)
  {
    var held := HeldBy(ws);
    assert forall w :: w in ws && ws[w].Holding? ==> w in held && held[w] == ws[w].index;
    forall k | 0 <= k < n && k !in executed ensures exists w :: w in ws && ws[w] == Holding(k) {
      var w :| w in held && held[w] == k;
      assert ws[w] == Holding(k);
    }
  }

  /** A call of `run` comes to its end exactly when its task is accepted or the pool has been stopped; until then each
      stay in the mutex ends in a wait. */
  lemma RunReturnsIff(states: seq<State>, events: seq<Event>, k: nat)
    requires IsRun(states, events) && k < |events| && events[k].Put?
    ensures var p := events[k].p;
            && p in states[k + 1].producers
            && (states[k + 1].producers[p].Returned? <==>
                  Accepts(states[k], Stop in events[..k]) || Stop in events[..k])
            && (states[k + 1].producers[p].Returned? || states[k + 1].producers[p].WaitingNotFull?)
  {
    hide WaitingWorkers, WokenWorkers, WaitingProducers, WokenProducers, Offered;
    RunTold(states, events, k);
  }

  /** A worker's visit to the queue: it takes the first task if there is one, and otherwise sleeps or, after a stop,
      leaves. */
  lemma VisitOutcome(states: seq<State>, events: seq<Event>, k: nat)
    requires IsRun(states, events) && k < |events| && events[k].Take?
    ensures var s, w := states[k], events[k].w;
            && w in states[k + 1].workers
            && var status := states[k + 1].workers[w];
               && (status.Holding? <==> s.queue != [])
               && (status.Holding? ==> status.index < |s.accepted| && s.accepted[status.index] == s.queue[0])
               && (status.WaitingNotEmpty? <==> s.queue == [] && Stop !in events[..k])
               && (status.Left? <==> s.queue == [] && Stop in events[..k])
  {
    hide WaitingWorkers, WokenWorkers, WaitingProducers, WokenProducers, Offered;
    RunTold(states, events, k);
    RunInv(states, events, k);
  }

  /** A worker leaves only after a stop, and goes back to the queue unless there was one. */
  lemma WorkersStay(states: seq<State>, events: seq<Event>, i: nat)
    requires IsRun(states, events) && i < |states|
    ensures states[i].workers.Keys == states[0].workers.Keys
    ensures forall w :: w in states[i].workers && states[i].workers[w].Left? ==> Stop in events[..i]
    ensures i < |events| && (events[i].Execute? || events[i].EnterLoop?) ==>
              var w := events[i].w;
              w in states[i + 1].workers && (states[i + 1].workers[w].Taking? <==> Stop !in events[..i])
  {
    hide Offered;
    RunTold(states, events, i);
  }

  // ---------- What a stop leaves behind ----------

  /** Workers that passed their last loop test and have not yet made the visit to the queue that follows. */
  function ReadyWorkers(ws: map<Tid, Worker>): set<Tid> {
    set w | w in ws && (ws[w].Taking? || ws[w].Woken?)
  }

  /** After a stop each ready worker takes one task, if there is one, and the queue gains nothing. */
  predicate Draining(s: State, accepted: seq<Task>, budget: nat) {
    && !s.running && s.accepted == accepted
    && (s.queue != [] ==> s.takenCount + |ReadyWorkers(s.workers)| == budget)
    && s.takenCount + |ReadyWorkers(s.workers)| <= budget
  }

  lemma OneReady(ws: map<Tid, Worker>, w: Tid, status: Worker)
    requires w in ws
    ensures ReadyWorkers(ws[w := status]) ==
            (if status.Taking? || status.Woken? then ReadyWorkers(ws) + {w} else ReadyWorkers(ws) - {w})
  {
  }

  lemma DrainStep(s: State, e: Event, accepted: seq<Task>, budget: nat)
    requires Inv(s) && Enabled(s, e) && s.workers != map[] && Draining(s, accepted, budget)
    ensures Draining(Apply(s, e), accepted, budget) && Apply(s, e).workers.Keys == s.workers.Keys
  {
    hide Accounted, Bounded, ReadyWorkers, WokenWorkers, WokenProducers;
    match e
    case Take(w, wake) => DrainTake(s, w, wake, accepted, budget);
    case EnterLoop(w) => OneReady(s.workers, w, Left); NotReady(s, w);
    case Execute(w) => OneReady(s.workers, w, Left); NotReady(s, w);
    case Stop =>
      assert forall w :: w in s.workers && s.workers[w].WaitingNotEmpty? ==> w in WaitingWorkers(s.workers);
      assert Apply(s, e).workers == s.workers;
    case _ =>
  }

  lemma NotReady(s: State, w: Tid)
    requires w in s.workers && (s.workers[w].Holding? || s.workers[w].Starting?)
    ensures w !in ReadyWorkers(s.workers)
  {
  }

  lemma DrainTake(s: State, w: Tid, wake: Option<Tid>, accepted: seq<Task>, budget: nat)
    requires Enabled(s, Take(w, wake)) && Draining(s, accepted, budget)
    ensures Draining(TakeSection(s, w, wake), accepted, budget)
  {
    OneReady(s.workers, w, if s.queue == [] then Left else Holding(s.takenCount));
  }

  lemma {:induction false} DrainRun(states: seq<State>, events: seq<Event>, i: nat, j: nat)
    requires IsRun(states, events) && i <= j < |states|
    requires !states[i].running && states[i].workers != map[]
    ensures Draining(states[j], states[i].accepted, states[i].takenCount + |ReadyWorkers(states[i].workers)|)
    ensures states[j].workers.Keys == states[i].workers.Keys
    decreases j
  {
    if i < j {
      DrainRun(states, events, i, j - 1);
      RunInv(states, events, j - 1);
      assert states[j - 1].workers != map[] by {
        var w :| w in states[i].workers;
        assert w in states[j - 1].workers.Keys;
      }
      var budget := states[i].takenCount + |ReadyWorkers(states[i].workers)|;
      DrainStep(states[j - 1], events[j - 1], states[i].accepted, budget);
    }
  }

  /** Once every worker has left after a stop, the queue was drained exactly when the workers still to make a last
      visit were at least as many as the tasks queued at the stop; otherwise the rest is never executed. */
  lemma StopDrainsIff(states: seq<State>, events: seq<Event>, i: nat, j: nat)
    requires IsRun(states, events) && i <= j < |states|
    requires !states[i].running && states[i].workers != map[]
    requires forall w :: w in states[j].workers ==> states[j].workers[w].Left?
    ensures states[j].queue == [] <==> |states[i].queue| <= |ReadyWorkers(states[i].workers)|
  {
    DrainRun(states, events, i, j);
    RunInv(states, events, i);
    RunInv(states, events, j);
    assert ReadyWorkers(states[j].workers) == {};
  }

  ghost predicate Reachable(s: State) {
    exists states: seq<State>, events: seq<Event> :: IsRun(states, events) && states[|events|] == s
  }

  predicate Leads(s: State, e: Event, t: State) {
    Enabled(s, e) && t == Apply(s, e)
  }

  lemma ReachableStep(s: State, e: Event, t: State)
    requires Reachable(s) && Leads(s, e, t)
    ensures Reachable(t)
  {
    hide Enabled, Apply, Init;
    var states: seq<State>, events: seq<Event> :| IsRun(states, events) && states[|events|] == s;
    assert IsRun(states + [t], events + [e]);
  }

  lemma ReachableInit(m: nat, threads: set<Tid>)
    ensures Reachable(Init(m, threads))
  {
    assert IsRun([Init(m, threads)], []);
  }

  /** Of `n` tasks accepted, the last stays queued with nobody left to take it. */
  predicate Lost(s: State, n: nat) {
    |s.accepted| == n && |s.queue| == 1 && !s.running && s.workers != map[] &&
    forall w :: w in s.workers ==> s.workers[w].Left?
  }

  /** Tasks are lost by runs as short as these: the only worker was still starting at the stop; or it was to take two
      tasks. */
  lemma StopLosesTasks()
    ensures exists s :: Reachable(s) && Lost(s, 1)
    ensures exists s :: Reachable(s) && Lost(s, 2)
  {
    var s := StartingWorkerLosesTask();
    var t := BusyWorkerLosesTask();
  }

  lemma StartingWorkerLosesTask() returns (t: State)
    ensures Reachable(t) && Lost(t, 1)
  {
    hide Reachable;
    ReachableInit(0, {1});
    var s := TaskAccepted(Init(0, {1}), 5, 7);
    assert s.workers == map[1 := Starting];
    t := s.(running := false);
    StopStep(s, t);
    ReachableStep(s, Stop, t);
    ReachableStep(t, EnterLoop(1), t.(workers := map[1 := Left]));
    t := t.(workers := map[1 := Left]);
    assert 1 in t.workers;
  }

  lemma StopStep(s: State, t: State)
    requires t == s.(running := false) && WaitingWorkers(s.workers) == {} && WaitingProducers(s.producers) == {}
    ensures Leads(s, Stop, t)
  {
    assert forall w :: w in s.workers ==> w in WaitingWorkers(s.workers) || !s.workers[w].WaitingNotEmpty?;
    assert forall p :: p in s.producers ==> p in WaitingProducers(s.producers) || !s.producers[p].WaitingNotFull?;
  }

  /** A call of `run` with room in the queue and no worker asleep. */
  lemma TaskAccepted(s: State, p: Tid, task: Task) returns (t: State)
    requires Reachable(s) && s.running && s.maxQueueSize == 0 && p !in s.producers
    requires 1 in s.workers && WaitingWorkers(s.workers) == {} && WaitingProducers(s.producers) == {}
    ensures Reachable(t) && WaitingProducers(t.producers) == {}
    ensures t == s.(producers := s.producers[p := Returned], queue := s.queue + [task], accepted := s.accepted + [task])
  {
    hide Reachable, WaitingWorkers;
    var asked := s.(producers := s.producers[p := Offering(task)]);
    t := s.(producers := s.producers[p := Returned], queue := s.queue + [task], accepted := s.accepted + [task]);
    ReachableStep(s, CallRun(p, task), asked);
    assert asked.producers[p := Returned] == t.producers;
    ReachableStep(asked, Put(p, None), t);
  }

  lemma BusyWorkerLosesTask() returns (t: State)
    ensures Reachable(t) && Lost(t, 2)
  {
    hide Reachable;
    ReachableInit(0, {1});
    var s := Init(0, {1}).(workers := map[1 := Taking]);
    ReachableStep(Init(0, {1}), EnterLoop(1), s);
    s := TaskAccepted(s, 5, 7);
    s := TaskAccepted(s, 6, 8);
    t := LastVisit(s);
  }

  lemma LastVisit(s: State) returns (t: State)
    requires Reachable(s) && s.workers == map[1 := Taking] && s.queue == [7, 8] && |s.accepted| == 2
    requires s.maxQueueSize == 0 && s.takenCount == 0 && WaitingProducers(s.producers) == {}
    ensures Reachable(t) && Lost(t, 2)
  {
    hide Reachable, WaitingProducers;
    var stopped := s.(running := false);
    StopStep(s, stopped);
    ReachableStep(s, Stop, stopped);
    var holding := stopped.(workers := map[1 := Holding(0)], queue := [8], takenCount := 1);
    ReachableStep(stopped, Take(1, None), holding);
    t := holding.(workers := map[1 := Left], executed := s.executed + {0});
    ReachableStep(holding, Execute(1), t);
    assert 1 in t.workers;
  }

  // ---------- The object ----------

  /** The pool's fields, with each thread's position made explicit. A method is one stay inside the mutex. */
  class Pool {
    var queue: seq<Task>
    const maxQueueSize: nat
    var running: bool
    var workers: map<Tid, Worker>
    var producers: map<Tid, Producer>
    ghost var accepted: seq<Task>
    var takenCount: nat
    ghost var executed: set<nat>

    ghost function View(): State
      reads this
    {
      State(queue, maxQueueSize, running, workers, producers, accepted, takenCount, executed)
    }

    ghost predicate Valid()
      reads this
    {
      Inv(View())
    }

    /** `start`, after which every thread is yet to make its first loop test. */
    constructor (maxQueueSize: nat, threads: set<Tid>)
      ensures Valid() && View() == Init(maxQueueSize, threads)
    {
      this.queue, this.maxQueueSize, this.running := [], maxQueueSize, true;
      this.workers := map w | w in threads :: Starting;
      this.producers := map[];
      this.accepted, this.takenCount, this.executed := [], 0, {};
      new;
      InitInv(maxQueueSize, threads);
    }

    /** The start of `runInThread`. */
    method EnterTheLoop(w: Tid)
      requires Valid() && Enabled(View(), EnterLoop(w))
      modifies this
      ensures Valid() && View() == Apply(old(View()), EnterLoop(w))
    {
      hide Inv;
      InvStep(View(), EnterLoop(w));
      workers := workers[w := if running then Taking else Left];
    }

    predicate Full()
      reads this
    {
      maxQueueSize > 0 && |queue| >= maxQueueSize
    }

    /** `pthread_cond_signal` on `notEmpty_`. */
    method NotifyNotEmpty() returns (wake: Option<Tid>)
      modifies this`workers
      ensures Notifies(WaitingWorkers(old(workers)), wake)
      ensures workers == if wake.Some? then old(workers)[wake.value := Woken] else old(workers)
    {
      wake := None;
      if WaitingWorkers(workers) != {} {
        var w :| w in WaitingWorkers(workers);
        workers := workers[w := Woken];
        wake := Some(w);
      }
    }

    /** `pthread_cond_signal` on `notFull_`. */
    method NotifyNotFull() returns (wake: Option<Tid>)
      modifies this`producers
      ensures Notifies(WaitingProducers(old(producers)), wake)
      ensures producers == if wake.Some? then old(producers)[wake.value := Retrying(old(producers)[wake.value].task)]
                           else old(producers)
    {
      wake := None;
      if WaitingProducers(producers) != {} {
        var p :| p in WaitingProducers(producers);
        producers := producers[p := Retrying(producers[p].task)];
        wake := Some(p);
      }
    }

    /** `run` by caller `p`: wait while full, give up after a stop, else push and notify. */
    method Run(p: Tid) returns (wake: Option<Tid>)
      requires Valid() && MayRunProducer(View(), p)
      modifies this
      ensures Valid() && Enabled(old(View()), Put(p, wake)) && View() == Apply(old(View()), Put(p, wake))
    {
      hide Inv, WaitingWorkers, WaitingProducers;
      var task := producers[p].task;
      wake := None;
      if workers == map[] {
        executed := executed + {|accepted|};
        accepted := accepted + [task];
        takenCount := takenCount + 1;
        producers := producers[p := Returned];
      } else if Full() && running {
        producers := producers[p := WaitingNotFull(task)];
      } else if !running {
        producers := producers[p := Returned];
      } else {
        assert !Full();
        queue := queue + [task];
        accepted := accepted + [task];
        producers := producers[p := Returned];
        wake := NotifyNotEmpty();
      }
      InvStep(old(View()), Put(p, wake));
    }

    /** `take` by worker `w`: wait while empty, pop the front and notify, or return nothing after a stop. */
    method TakeTask(w: Tid) returns (task: Option<Task>, wake: Option<Tid>)
      requires Valid() && MayRunWorker(View(), w)
      modifies this
      ensures Valid() && Enabled(old(View()), Take(w, wake)) && View() == Apply(old(View()), Take(w, wake))
      ensures task == if old(queue) == [] then None else Some(old(accepted)[old(takenCount)])
    {
      hide Inv, WaitingWorkers, WaitingProducers;
      wake, task := None, None;
      if queue == [] && running {
        workers := workers[w := WaitingNotEmpty];
      } else if queue != [] {
        FrontIsNext(View());
        task := Some(queue[0]);
        queue := queue[1..];
        workers := workers[w := Holding(takenCount)];
        takenCount := takenCount + 1;
        if maxQueueSize > 0 {
          wake := NotifyNotFull();
        }
      } else {
        workers := workers[w := Left];
      }
      InvStep(old(View()), Take(w, wake));
    }

    /** `stop`: clear the flag and wake everyone. */
    method StopAll()
      requires Valid()
      modifies this
      ensures Valid() && View() == Apply(old(View()), Stop)
    {
      InvStep(View(), Stop);
      running := false;
      workers := map w | w in workers :: (if workers[w].WaitingNotEmpty? then Woken else workers[w]);
      producers := map p | p in producers ::
        (if producers[p].WaitingNotFull? then Retrying(producers[p].task) else producers[p]);
    }
  }

  lemma FrontIsNext(s: State)
    requires Inv(s) && s.queue != []
    ensures s.takenCount < |s.accepted| && s.queue[0] == s.accepted[s.takenCount]
  {
  }
}
