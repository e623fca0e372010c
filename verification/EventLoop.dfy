/**
 The task queue and wakeup protocol of the event loop (mymuduo/net/EventLoop.cc): foreign threads push tasks and
 write an eventfd; the IO thread polls, handles events, swaps the queue out and runs it.
 */
module EventLoop {
  import opened Common

  type Task = nat

  const EVENTFD_MAX := 0xffff_ffff_ffff_fffe

  /** Where the IO thread is. */
  datatype Pc =
    | NotLooping                 // constructed, `loop` not entered
    | Polling                    // blocked in poll
    | Handling(readable: bool)   // running channel callbacks; `readable` while the wakeup channel is still to come
    | Swapping                   // in doPendingFunctors, `callingPendingFunctors_` set, before the swap
    | Calling(next: nat)         // about to run functors[next]
    | Waking(next: nat)          // in a queueInLoop made by a functor, between its push and its wakeup
    | Releasing                  // leaving doPendingFunctors: the functors' destructors, which are user code, run
    | LoopTest                   // about to test quit_
    | Exited

  datatype State = State(
    pc: Pc, quit: bool, callingPending: bool, pending: seq<Task>, functors: seq<Task>,
    counter: nat,
    pushedUnwoken: nat,   // foreign threads between their push and their wakeup write
    quitUnwoken: nat,     // foreign threads between setting quit_ and their wakeup write
    // history
    enqueued: seq<Task>, executed: seq<Task>,
    ownBeforeLoop: bool,   // the queue holds a task that the loop's thread pushed before entering the loop
    ownInRelease: bool,    // the queue holds a task that the destructor of a functor pushed in doPendingFunctors
    quitBeforeLoop: bool)

  const INIT := State(NotLooping, false, false, [], [], 0, 0, 0, [], [], false, false, false)

  datatype Event =
    | ForeignPush(task: Task) | ForeignWake | ForeignQuit | ForeignQuitWake
    | EnterLoop | TestQuit | PollReturns | HandleWakeup | EventsHandled | Swap | RunFunctor | FunctorsDone | Released
    | OwnQueueInLoop(task: Task) | OwnWake | OwnQuit

  predicate OnLoopThread(pc: Pc) {
    pc.NotLooping? || pc.Handling? || pc.Calling? || pc.Releasing?
  }

  predicate Enabled(s: State, e: Event) {
    match e
    case ForeignPush(_) => true
    case ForeignWake => s.pushedUnwoken > 0
    case ForeignQuit => true
    case ForeignQuitWake => s.quitUnwoken > 0
    case EnterLoop => s.pc.NotLooping?
    case TestQuit => s.pc.LoopTest?
    case PollReturns => s.pc.Polling?
    case HandleWakeup => s.pc.Handling? && s.pc.readable
    case EventsHandled => s.pc.Handling? && !s.pc.readable
    case Swap => s.pc.Swapping?
    case RunFunctor => s.pc.Calling? && s.pc.next < |s.functors|
    case FunctorsDone => s.pc.Calling? && s.pc.next == |s.functors|
    case Released => s.pc.Releasing?
    case OwnQueueInLoop(_) => OnLoopThread(s.pc)
    case OwnWake => s.pc.Waking?
    case OwnQuit => OnLoopThread(s.pc)
  }

  /** A write of 1 to the eventfd; at its maximum the write fails, leaving it readable all the same. */
  function Written(counter: nat): nat {
    if counter < EVENTFD_MAX then counter + 1 else counter
  }

  function Apply(s: State, e: Event): State
    requires Enabled(s, e)
  {
    match e
    case ForeignPush(task) =>
      s.(pending := s.pending + [task], enqueued := s.enqueued + [task], pushedUnwoken := s.pushedUnwoken + 1)
    case ForeignWake => s.(pushedUnwoken := s.pushedUnwoken - 1, counter := Written(s.counter))
    case ForeignQuit =>
      s.(quit := true, quitUnwoken := s.quitUnwoken + 1, quitBeforeLoop := s.quitBeforeLoop || s.pc.NotLooping?)
    case ForeignQuitWake => s.(quitUnwoken := s.quitUnwoken - 1, counter := Written(s.counter))
    case EnterLoop => s.(quit := false, pc := LoopTest)
    case TestQuit => s.(pc := if s.quit then Exited else Polling)
    case PollReturns => s.(pc := Handling(s.counter > 0))
    case HandleWakeup => s.(counter := 0, pc := Handling(false))
    case EventsHandled => s.(callingPending := true, pc := Swapping)
    case Swap =>
      s.(functors := s.pending, pending := [], ownBeforeLoop := false, ownInRelease := false, pc := Calling(0))
    case RunFunctor => s.(executed := s.executed + [s.functors[s.pc.next]], pc := Calling(s.pc.next + 1))
    case FunctorsDone => s.(callingPending := false, pc := Releasing)
    case Released => s.(functors := [], pc := LoopTest)
    case OwnQueueInLoop(task) =>
      s.(pending := s.pending + [task], enqueued := s.enqueued + [task],
         ownBeforeLoop := s.ownBeforeLoop || s.pc.NotLooping?, ownInRelease := s.ownInRelease || s.pc.Releasing?,
         pc := if s.callingPending && s.pc.Calling? then Waking(s.pc.next) else s.pc)
    case OwnWake => s.(counter := Written(s.counter), pc := Calling(s.pc.next))
    case OwnQuit => s.(quit := true, quitBeforeLoop := s.quitBeforeLoop || s.pc.NotLooping?)
  }

  // ---------- Invariants ----------

  /** Tasks swapped out and not run yet. */
  function Unrun(s: State): seq<Task> {
    if (s.pc.Calling? || s.pc.Waking?) && s.pc.next <= |s.functors| then s.functors[s.pc.next..] else []
  }

  /** Every task is executed, being run or queued, in the order of the pushes. */
  predicate Fifo(s: State) {
    && s.enqueued == s.executed + Unrun(s) + s.pending
    && (s.pc.Calling? || s.pc.Waking? ==> s.pc.next <= |s.functors|)
    && (s.callingPending <==> s.pc.Swapping? || s.pc.Calling? || s.pc.Waking?)
  }

  /** Something will make the next poll return: the counter is up, or a thread is on its way to write it. */
  predicate WakeupDue(s: State) {
    s.counter > 0 || s.pushedUnwoken > 0 || s.pc.Waking?
  }

  /** Program points from which the queue is not swapped before the next poll. */
  predicate PollNext(pc: Pc) {
    pc.Polling? || pc.Calling? || pc.Waking? || pc.Releasing? || pc.LoopTest?
  }

  predicate NoLostWakeup(s: State) {
    && (!s.ownBeforeLoop && !s.ownInRelease && (PollNext(s.pc) || s.pc.NotLooping?) && s.pending != [] ==> WakeupDue(s))
    && (s.pc.NotLooping? ==> !s.ownInRelease)
    && (s.pc.Calling? || s.pc.Waking? || s.pc.Releasing? ==> !s.ownBeforeLoop)
  }

  /** A quit after the loop started is seen at once, or the poll will return. */
  predicate NoLostQuit(s: State) {
    && (s.pc.NotLooping? && s.quit ==> s.quitBeforeLoop)
    && (s.pc.Polling? && s.quit ==> s.counter > 0 || s.quitUnwoken > 0)
  }

  predicate Inv(s: State) {
    Fifo(s) && NoLostWakeup(s) && NoLostQuit(s)
  }

  lemma InvStep(s: State, e: Event)
    requires Inv(s) && Enabled(s, e)
    ensures Inv(Apply(s, e))
  {
    hide NoLostWakeup, NoLostQuit;
    FifoStep(s, e);
    WakeupStep(s, e);
  }

  lemma FifoStep(s: State, e: Event)
    requires Fifo(s) && Enabled(s, e)
    ensures Fifo(Apply(s, e))
  {
    hide Unrun;
    var t := Apply(s, e);
    UnrunStep(s, e);
    if e.RunFunctor? {
      var f := s.functors[s.pc.next];
      assert s.executed + ([f] + Unrun(t)) + s.pending == (s.executed + [f]) + Unrun(t) + s.pending;
    } else if e.Swap? {
      assert s.executed + [] + s.pending == s.executed + s.pending + [];
    } else if e.ForeignPush? || e.OwnQueueInLoop? {
      assert s.executed + Unrun(s) + (s.pending + [e.task]) == s.executed + Unrun(s) + s.pending + [e.task];
    }
  }

  /** What each step does to the tasks that are swapped out and not run yet. */
  lemma UnrunStep(s: State, e: Event)
    requires Fifo(s) && Enabled(s, e)
    ensures e.RunFunctor? ==> Unrun(s) == [s.functors[s.pc.next]] + Unrun(Apply(s, e))
    ensures e.Swap? ==> Unrun(s) == [] && Unrun(Apply(s, e)) == s.pending
    ensures !e.RunFunctor? && !e.Swap? ==> Unrun(Apply(s, e)) == Unrun(s)
  {
    var t := Apply(s, e);
    if e.Swap? {
      assert t.functors[0..] == s.pending;
    } else if e.RunFunctor? {
      assert s.functors[s.pc.next..] == [s.functors[s.pc.next]] + s.functors[s.pc.next + 1..];
    }
  }

  lemma WakeupStep(s: State, e: Event)
    requires Inv(s) && Enabled(s, e)
    ensures NoLostWakeup(Apply(s, e)) && NoLostQuit(Apply(s, e))
  {
  }

  // ---------- Whole runs ----------

  ghost predicate IsRun(states: seq<State>, events: seq<Event>) {
    && |states| == |events| + 1 && states[0] == INIT
    && forall i :: 0 <= i < |events| ==> Enabled(states[i], events[i]) && states[i + 1] == Apply(states[i], events[i])
  }

  lemma {:induction false} RunInv(states: seq<State>, events: seq<Event>, i: nat)
    requires IsRun(states, events) && i < |states|
    ensures Inv(states[i])
  {
    if i > 0 {
      RunInv(states, events, i - 1);
      InvStep(states[i - 1], events[i - 1]);
    }
  }

  // ---------- What a run did, read off its events ----------

  function Last(events: seq<Event>): Event
    requires events != []
  {
    events[|events| - 1]
  }

  function Earlier(events: seq<Event>): seq<Event>
    requires events != []
  {
    events[..|events| - 1]
  }

  /** The tasks handed to `queueInLoop` by any thread, in the order of the calls. */
  function Pushed(events: seq<Event>): seq<Task> {
    if events == [] then []
    else
      Pushed(Earlier(events)) +
      (match Last(events) case ForeignPush(task) => [task] case OwnQueueInLoop(task) => [task] case _ => [])
  }

  /** How many steps of a kind there were. */
  function Count(events: seq<Event>, e: Event): nat {
    multiset(events)[e]
  }

  function ForeignPushes(events: seq<Event>): nat {
    if events == [] then 0 else ForeignPushes(Earlier(events)) + (if Last(events).ForeignPush? then 1 else 0)
  }

  /** The eventfd was written after it was last read. */
  predicate Readable(events: seq<Event>) {
    events != [] && match Last(events)
                    case ForeignWake => true
                    case ForeignQuitWake => true
                    case OwnWake => true
                    case HandleWakeup => false
                    case _ => Readable(Earlier(events))
  }

  /** The queue holds a task that the loop's thread pushed at `where` - not since swapped out. */
  predicate OwnPushAt(states: seq<State>, events: seq<Event>, i: nat, where: Pc)
    requires |states| == |events| + 1 && i < |states|
  {
    exists k :: 0 <= k < i && events[k].OwnQueueInLoop? && states[k].pc == where &&
                forall m :: k < m < i ==> !events[m].Swap?
  }

  /** The bookkeeping of the state is what the events say. */
  predicate Told(s: State, events: seq<Event>) {
    && s.enqueued == Pushed(events)
    && s.pushedUnwoken + Count(events, ForeignWake) == ForeignPushes(events)
    && s.quitUnwoken + Count(events, ForeignQuitWake) == Count(events, ForeignQuit)
    && (s.counter > 0 <==> Readable(events))
  }

  lemma ToldStep(s: State, e: Event, events: seq<Event>)
    requires Enabled(s, e) && Told(s, events)
    ensures Told(Apply(s, e), events + [e])
  {
    hide Count, Pushed, ForeignPushes, Readable;
    CountSnoc(events, e);
    ReadSnoc(events, e);
    match e
    case ForeignPush(_) =>
    case OwnQueueInLoop(_) =>
    case ForeignWake =>
    case ForeignQuitWake =>
    case OwnWake =>
    case HandleWakeup =>
    case _ =>
  }

  lemma ReadSnoc(events: seq<Event>, e: Event)
    ensures Pushed(events + [e]) ==
            Pushed(events) + (if e.ForeignPush? || e.OwnQueueInLoop? then [e.task] else [])
    ensures ForeignPushes(events + [e]) == ForeignPushes(events) + (if e.ForeignPush? then 1 else 0)
    ensures Readable(events + [e]) <==>
            e in {ForeignWake, ForeignQuitWake, OwnWake} || (e != HandleWakeup && Readable(events))
  {
    assert Earlier(events + [e]) == events;
  }

  lemma CountSnoc(events: seq<Event>, e: Event)
    ensures forall f :: Count(events + [e], f) == Count(events, f) + (if f == e then 1 else 0)
  {
  }

  lemma {:induction false} RunTold(states: seq<State>, events: seq<Event>, i: nat)
    requires IsRun(states, events) && i < |states|
    ensures Told(states[i], events[..i])
  {
    hide Told, Apply, Enabled;
    if i == 0 {
      NothingTold();
      assert events[..0] == [];
    } else {
      RunTold(states, events, i - 1);
      ToldStep(states[i - 1], events[i - 1], events[..i - 1]);
      assert events[..i] == events[..i - 1] + [events[i - 1]];
    }
  }

  lemma NothingTold()
    ensures Told(INIT, [])
  {
  }

  lemma OwnStep(s: State, e: Event)
    requires Enabled(s, e)
    ensures var t := Apply(s, e);
            && (t.ownBeforeLoop <==> !e.Swap? && (s.ownBeforeLoop || (e.OwnQueueInLoop? && s.pc.NotLooping?)))
            && (t.ownInRelease <==> !e.Swap? && (s.ownInRelease || (e.OwnQueueInLoop? && s.pc.Releasing?)))
  {
    match e
    case OwnQueueInLoop(_) =>
    case Swap =>
    case _ =>
  }

  lemma OwnPushStep(states: seq<State>, events: seq<Event>, i: nat, where: Pc)
    requires |states| == |events| + 1 && 0 < i < |states|
    ensures OwnPushAt(states, events, i, where) <==>
            (events[i - 1].OwnQueueInLoop? && states[i - 1].pc == where) ||
            (!events[i - 1].Swap? && OwnPushAt(states, events, i - 1, where))
  {
    if OwnPushAt(states, events, i, where) {
      var k :| 0 <= k < i && events[k].OwnQueueInLoop? && states[k].pc == where &&
               forall m :: k < m < i ==> !events[m].Swap?;
      assert k < i - 1 ==> !events[i - 1].Swap?;
    }
    if !events[i - 1].Swap? && OwnPushAt(states, events, i - 1, where) {
      var k :| 0 <= k < i - 1 && events[k].OwnQueueInLoop? && states[k].pc == where &&
               forall m :: k < m < i - 1 ==> !events[m].Swap?;
      assert forall m :: k < m < i ==> !events[m].Swap?;
    }
  }

  /** The two exceptions to the wakeup protocol are what their names say. */
  lemma {:induction false} ExceptionsMean(states: seq<State>, events: seq<Event>, i: nat)
    requires IsRun(states, events) && i < |states|
    ensures states[i].ownBeforeLoop <==> OwnPushAt(states, events, i, NotLooping)
    ensures states[i].ownInRelease <==> OwnPushAt(states, events, i, Releasing)
  {
    hide Apply, Enabled, OwnPushAt;
    if i == 0 {
      NoPushYet(states, events);
    } else {
      ExceptionsMean(states, events, i - 1);
      OwnStep(states[i - 1], events[i - 1]);
      OwnPushStep(states, events, i, NotLooping);
      OwnPushStep(states, events, i, Releasing);
    }
  }

  lemma NoPushYet(states: seq<State>, events: seq<Event>)
    requires |states| == |events| + 1
    ensures !OwnPushAt(states, events, 0, NotLooping) && !OwnPushAt(states, events, 0, Releasing)
  {
  }

  // ---------- The protocol ----------

  /** If the IO thread is blocked with tasks queued, the eventfd was written and not read since, or of the threads that
      pushed a task one has yet to write it, with two exceptions: the queue still holds a task that the loop's own
      thread pushed before entering the loop, or one that it pushed from the destructor of a functor at the end of
      `doPendingFunctors`. */
  lemma WakeupNeverLost(states: seq<State>, events: seq<Event>, i: nat)
    requires IsRun(states, events) && i < |states|
    requires states[i].pc.Polling? && states[i].pending != []
    ensures Readable(events[..i]) || ForeignPushes(events[..i]) > Count(events[..i], ForeignWake)
            || OwnPushAt(states, events, i, NotLooping) || OwnPushAt(states, events, i, Releasing)
  {
    hide OwnPushAt, Readable, ForeignPushes, Count;
    RunInv(states, events, i);
    RunTold(states, events, i);
    ExceptionsMean(states, events, i);
  }

  /** A readable eventfd is read in the pass that finds it so: before that pass comes to the functors. */
  lemma {:induction false} WakeupIsRead(states: seq<State>, events: seq<Event>, k: nat, j: nat)
    requires IsRun(states, events) && k < j < |states|
    requires events[k].PollReturns? && Readable(events[..k])
    requires !(exists m :: k < m < j && events[m].HandleWakeup?)
    ensures states[j].pc == Handling(true)
    decreases j
  {
    hide Readable, Fifo, NoLostQuit, NoLostWakeup;
    if j == k + 1 {
      RunTold(states, events, k);
    } else {
      WakeupIsRead(states, events, k, j - 1);
    }
  }

  /** The first exception is real: from any such moment the loop goes to sleep on a non-empty queue. */
  lemma OwnTaskBeforeLoopStalls(states: seq<State>, events: seq<Event>)
    requires IsRun(states, events)
    requires var s := states[|events|];
             s.pc.NotLooping? && s.pending != [] && s.counter == 0 && s.pushedUnwoken == 0
    ensures states[|events|].ownBeforeLoop
    ensures Asleep(Apply(Apply(states[|events|], EnterLoop), TestQuit))
  {
    RunInv(states, events, |events|);
  }

  /** So is the second. */
  lemma OwnTaskInReleaseStalls(states: seq<State>, events: seq<Event>)
    requires IsRun(states, events)
    requires var s := states[|events|];
             s.pc.Releasing? && s.pending != [] && s.counter == 0 && s.pushedUnwoken == 0 && !s.quit
    ensures states[|events|].ownInRelease && !states[|events|].ownBeforeLoop
    ensures Asleep(Apply(Apply(states[|events|], Released), TestQuit))
  {
    RunInv(states, events, |events|);
  }

  /** Blocked on a non-empty queue with nothing on its way to wake the loop. */
  predicate Asleep(s: State) {
    s.pc.Polling? && s.pending != [] && !WakeupDue(s)
  }

  /** Runs that get there: a task queued before `loop`, and one queued by the destructor of another. */
  lemma StallingRuns()
    ensures exists states: seq<State>, events: seq<Event> ::
              IsRun(states, events) && Asleep(states[|events|]) && !states[|events|].ownInRelease
    ensures exists states: seq<State>, events: seq<Event> ::
              IsRun(states, events) && Asleep(states[|events|]) && !states[|events|].ownBeforeLoop
  {
    hide Apply;
    var queued := INIT.(pending := [7], enqueued := [7], ownBeforeLoop := true);
    var entered := queued.(pc := LoopTest);
    QueuedBeforeLoop(queued);
    assert IsRun([INIT, queued, entered, entered.(pc := Polling)], [OwnQueueInLoop(7), EnterLoop, TestQuit]);
    ReleaseStalls();
  }

  lemma QueuedBeforeLoop(queued: State)
    requires queued == INIT.(pending := [7], enqueued := [7], ownBeforeLoop := true)
    ensures Leads(INIT, OwnQueueInLoop(7), queued) && Leads(queued, EnterLoop, queued.(pc := LoopTest))
    ensures Leads(queued.(pc := LoopTest), TestQuit, queued.(pc := Polling))
  {
    assert INIT.pending + [7] == [7] && INIT.enqueued + [7] == [7];
  }

  lemma ReleaseStalls()
    ensures exists states: seq<State>, events: seq<Event> ::
              IsRun(states, events) && Asleep(states[|events|]) && !states[|events|].ownBeforeLoop
  {
    hide Enabled, Apply;
    var polling, swapping := INIT.(pc := Polling), INIT.(callingPending := true, pc := Swapping);
    var releasing := INIT.(pc := Releasing);
    var queued := releasing.(pending := [7], enqueued := [7], ownInRelease := true);
    PassWithoutWork(polling, swapping, releasing);
    QueuedInRelease(releasing, queued);
    var states := [INIT, INIT.(pc := LoopTest), polling, polling.(pc := Handling(false)), swapping,
                   swapping.(pc := Calling(0)), releasing, queued, queued.(pc := LoopTest), queued.(pc := Polling)];
    var events := [EnterLoop, TestQuit, PollReturns, EventsHandled, Swap, FunctorsDone, OwnQueueInLoop(7), Released,
                   TestQuit];
    assert IsRun(states, events);
  }

  predicate Leads(s: State, e: Event, t: State) {
    Enabled(s, e) && t == Apply(s, e)
  }

  lemma PassWithoutWork(polling: State, swapping: State, releasing: State)
    requires polling == INIT.(pc := Polling) && swapping == INIT.(callingPending := true, pc := Swapping)
    requires releasing == INIT.(pc := Releasing)
    ensures Leads(INIT, EnterLoop, INIT.(pc := LoopTest)) && Leads(INIT.(pc := LoopTest), TestQuit, polling)
    ensures Leads(polling, PollReturns, polling.(pc := Handling(false)))
    ensures Leads(polling.(pc := Handling(false)), EventsHandled, swapping)
    ensures Leads(swapping, Swap, swapping.(pc := Calling(0)))
    ensures Leads(swapping.(pc := Calling(0)), FunctorsDone, releasing)
  {
  }

  lemma QueuedInRelease(releasing: State, queued: State)
    requires releasing == INIT.(pc := Releasing)
    requires queued == releasing.(pending := [7], enqueued := [7], ownInRelease := true)
    ensures Leads(releasing, OwnQueueInLoop(7), queued) && Leads(queued, Released, queued.(pc := LoopTest))
    ensures Leads(queued.(pc := LoopTest), TestQuit, queued.(pc := Polling))
  {
    assert INIT.pending + [7] == [7] && INIT.enqueued + [7] == [7];
  }

  predicate IsQuit(e: Event) {
    e.ForeignQuit? || e.OwnQuit?
  }

  lemma LoopEnteredForGood(s: State, e: Event)
    requires Enabled(s, e) && !s.pc.NotLooping?
    ensures !Apply(s, e).pc.NotLooping?
    ensures Apply(s, e).quit == (s.quit || IsQuit(e))
  {
    match e
    case OwnQueueInLoop(_) =>
    case _ =>
  }

  /** A quit made once the loop is entered stays set, and cannot be slept through. */
  lemma {:induction false} QuitNeverLost(states: seq<State>, events: seq<Event>, k: nat, j: nat)
    requires IsRun(states, events) && k < j < |states|
    requires IsQuit(events[k]) && !states[k].pc.NotLooping?
    ensures states[j].quit && !states[j].pc.NotLooping?
    ensures states[j].pc.Polling? ==>
              Readable(events[..j]) || Count(events[..j], ForeignQuit) > Count(events[..j], ForeignQuitWake)
    decreases j
  {
    hide Apply, Enabled, Readable, Count;
    RunInv(states, events, j);
    RunTold(states, events, j);
    if k + 1 < j {
      QuitNeverLost(states, events, k, j - 1);
    }
    LoopEnteredForGood(states[j - 1], events[j - 1]);
  }

  /** A quit is heeded if and only if it is made after the loop is entered: whatever it did before that, entering the
      loop undoes, and only another quit sets the flag again. */
  lemma {:induction false} QuitHeededIff(states: seq<State>, events: seq<Event>, k: nat, j: nat)
    requires IsRun(states, events) && k < j < |states| && IsQuit(events[k])
    requires !states[j].pc.NotLooping?
    requires forall m :: k < m < j && IsQuit(events[m]) ==> states[m].pc.NotLooping?
    ensures states[j].quit <==> !states[k].pc.NotLooping?
    decreases j
  {
    hide IsQuit;
    if !states[k].pc.NotLooping? {
      QuitNeverLost(states, events, k, j);
    } else if states[j - 1].pc.NotLooping? {
      assert events[j - 1].EnterLoop? by { LeavesNotLooping(states[j - 1], events[j - 1]); }
    } else {
      assert k < j - 1;
      QuitHeededIff(states, events, k, j - 1);
      LoopEnteredForGood(states[j - 1], events[j - 1]);
    }
  }

  /** The loop ends only on a quit made after it was entered, and the flag is set by nothing else. */
  lemma {:induction false} EndsOnlyOnQuit(states: seq<State>, events: seq<Event>, i: nat)
    requires IsRun(states, events) && i < |states| && !states[i].pc.NotLooping?
    ensures states[i].quit <==> exists k :: 0 <= k < i && IsQuit(events[k]) && !states[k].pc.NotLooping?
    ensures states[i].pc.Exited? ==> states[i].quit
  {
    hide Apply, Enabled, IsQuit;
    assert i > 0;
    var s, e := states[i - 1], events[i - 1];
    if s.pc.NotLooping? {
      LeavesNotLooping(s, e);
      NotLoopingBefore(states, events, i - 1);
    } else {
      EndsOnlyOnQuit(states, events, i - 1);
      LoopEnteredForGood(s, e);
      OnlyTheTestExits(s, e);
    }
  }

  lemma OnlyTheTestExits(s: State, e: Event)
    requires Enabled(s, e)
    ensures Apply(s, e).pc.Exited? ==> s.pc.Exited? || s.quit
  {
    match e
    case TestQuit =>
    case _ =>
  }

  lemma {:induction false} NotLoopingBefore(states: seq<State>, events: seq<Event>, i: nat)
    requires IsRun(states, events) && i < |states| && states[i].pc.NotLooping?
    ensures forall k :: 0 <= k <= i ==> states[k].pc.NotLooping?
  {
    hide Apply, Enabled;
    if i > 0 {
      if !states[i - 1].pc.NotLooping? {
        LoopEnteredForGood(states[i - 1], events[i - 1]);
      }
      NotLoopingBefore(states, events, i - 1);
    }
  }

  lemma LeavesNotLooping(s: State, e: Event)
    requires Enabled(s, e) && s.pc.NotLooping? && !Apply(s, e).pc.NotLooping?
    ensures e.EnterLoop? && !Apply(s, e).quit && !Apply(s, e).pc.Exited?
  {
  }

  /** The shortest run in which a quit is lost: the loop sleeps with no wakeup due. */
  lemma QuitBeforeLoopIsLost()
    ensures exists states: seq<State>, events: seq<Event> ::
              && IsRun(states, events) && events == [OwnQuit, EnterLoop, TestQuit]
              && states[3].pc.Polling? && !states[3].quit && states[3].counter == 0 && states[3].quitUnwoken == 0
  {
    var s1 := INIT.(quit := true, quitBeforeLoop := true);
    var s2 := s1.(quit := false, pc := LoopTest);
    assert IsRun([INIT, s1, s2, s2.(pc := Polling)], [OwnQuit, EnterLoop, TestQuit]);
  }

  /** Each task runs once, in the order of the calls of `queueInLoop`. */
  lemma ExactlyOnceInOrder(states: seq<State>, events: seq<Event>, i: nat)
    requires IsRun(states, events) && i < |states|
    ensures states[i].executed <= Pushed(events[..i])
    ensures Pushed(events[..i]) == states[i].executed + Unrun(states[i]) + states[i].pending
  {
    hide Pushed, Unrun;
    RunInv(states, events, i);
    RunTold(states, events, i);
  }

  predicate BeforeSwap(pc: Pc) {
    pc.Polling? || pc.Handling? || pc.Swapping?
  }

  /** One pass of the loop runs everything that was queued before it: from any point between the poll and the swap,
      by the next loop test all tasks pushed so far have been executed. */
  lemma OnePassRunsAll(states: seq<State>, events: seq<Event>, i: nat, j: nat)
    requires IsRun(states, events) && i <= j < |states|
    requires BeforeSwap(states[i].pc) && states[j].pc.LoopTest?
    ensures Pushed(events[..i]) <= states[j].executed
  {
    hide Pushed;
    RunTold(states, events, i);
    PassProgress(states, events, i, j);
  }

  lemma {:induction false} PassProgress(states: seq<State>, events: seq<Event>, i: nat, j: nat)
    requires IsRun(states, events) && i <= j < |states| && BeforeSwap(states[i].pc)
    ensures BeforeSwap(states[j].pc) || states[i].enqueued <= states[j].executed + Unrun(states[j])
    ensures states[i].enqueued <= states[j].enqueued
    decreases j
  {
    hide Apply, Unrun, Enabled, Inv;
    if i < j {
      RunInv(states, events, j - 1);
      PassProgress(states, events, i, j - 1);
      PassStep(states[j - 1], events[j - 1]);
    }
  }

  lemma PassStep(s: State, e: Event)
    requires Inv(s) && Enabled(s, e)
    ensures s.enqueued <= Apply(s, e).enqueued
    ensures e.Swap? ==> s.enqueued == Apply(s, e).executed + Unrun(Apply(s, e))
    ensures BeforeSwap(s.pc) && !e.Swap? ==> BeforeSwap(Apply(s, e).pc)
    ensures !e.Swap? ==> s.executed + Unrun(s) == Apply(s, e).executed + Unrun(Apply(s, e))
  {
    hide Unrun, NoLostWakeup, NoLostQuit;
    UnrunStep(s, e);
    if e.RunFunctor? {
      var f := s.functors[s.pc.next];
      assert s.executed + ([f] + Unrun(Apply(s, e))) == (s.executed + [f]) + Unrun(Apply(s, e));
    } else if e.Swap? {
      assert s.executed + [] + s.pending == s.executed + s.pending;
    }
  }

  // ---------- The object ----------

  /**
   The loop's fields, with `functors` the local of `doPendingFunctors`. Each method is code that other threads see
   as one step: a critical section, a system call, or IO-thread work that touches nothing shared.
   */
  class Loop {
    var quit: bool
    var callingPendingFunctors: bool
    var pendingFunctors: seq<Task>
    var functors: seq<Task>
    var wakeupCounter: nat
    ghost var pc: Pc
    ghost var rest: State   // the fields of the view that the object does not have

    ghost function View(): State
      reads this
    {
      rest.(pc := pc, quit := quit, callingPending := callingPendingFunctors, pending := pendingFunctors,
            functors := functors, counter := wakeupCounter)
    }

    ghost predicate Valid()
      reads this
    {
      Inv(View())
    }

    constructor ()
      ensures Valid() && View() == INIT
    {
      quit, callingPendingFunctors, pendingFunctors, functors, wakeupCounter := false, false, [], [], 0;
      pc, rest := NotLooping, INIT;
    }

    /** `queueInLoop` up to the decision whether to wake the loop; the caller then runs `Wakeup`. */
    method QueueInLoop(task: Task, isInLoopThread: bool) returns (mustWake: bool)
      requires Valid()
      requires isInLoopThread ==> Enabled(View(), OwnQueueInLoop(task))
      modifies this
      ensures Valid()
      ensures View() == Apply(old(View()), if isInLoopThread then OwnQueueInLoop(task) else ForeignPush(task))
      ensures mustWake <==> !isInLoopThread || pc.Waking?
    {
      hide Unrun, NoLostWakeup, NoLostQuit;
      InvStep(View(), if isInLoopThread then OwnQueueInLoop(task) else ForeignPush(task));
      pendingFunctors := pendingFunctors + [task];
      mustWake := !isInLoopThread || callingPendingFunctors;
      if isInLoopThread {
        rest := rest.(enqueued := rest.enqueued + [task], ownBeforeLoop := rest.ownBeforeLoop || pc.NotLooping?,
                      ownInRelease := rest.ownInRelease || pc.Releasing?);
        pc := if mustWake then Waking(pc.next) else pc;
      } else {
        rest := rest.(enqueued := rest.enqueued + [task], pushedUnwoken := rest.pushedUnwoken + 1);
      }
    }

    /** `wakeup`, by a thread that pushed a task or asked to quit. */
    method Wakeup(ghost writer: Event)
      requires Valid()
      requires writer in {ForeignWake, ForeignQuitWake, OwnWake} && Enabled(View(), writer)
      modifies this
      ensures Valid() && View() == Apply(old(View()), writer)
    {
      hide Fifo, Unrun, NoLostWakeup, NoLostQuit;
      InvStep(View(), writer);
      if wakeupCounter < EVENTFD_MAX {
        wakeupCounter := wakeupCounter + 1;
      }
      match writer
      case ForeignWake => rest := rest.(pushedUnwoken := rest.pushedUnwoken - 1);
      case ForeignQuitWake => rest := rest.(quitUnwoken := rest.quitUnwoken - 1);
      case OwnWake => pc := Calling(pc.next);
    }

    /** `handleRead`: reading the eventfd resets it. */
    method HandleRead()
      requires Valid() && Enabled(View(), HandleWakeup)
      modifies this
      ensures Valid() && View() == Apply(old(View()), HandleWakeup)
    {
      InvStep(View(), HandleWakeup);
      wakeupCounter := 0;
      pc := Handling(false);
    }

    /** The critical section of `doPendingFunctors`. */
    method SwapFunctors()
      requires Valid() && Enabled(View(), Swap)
      modifies this
      ensures Valid() && View() == Apply(old(View()), Swap)
    {
      hide Fifo, Unrun, NoLostWakeup, NoLostQuit;
      InvStep(View(), Swap);
      functors := [];
      functors, pendingFunctors := pendingFunctors, functors;
      rest := rest.(ownBeforeLoop := false, ownInRelease := false);
      pc := Calling(0);
    }

    /** `quit`: the flag first, then, from another thread, a wakeup. */
    method Quit(isInLoopThread: bool) returns (mustWake: bool)
      requires Valid()
      requires isInLoopThread ==> Enabled(View(), OwnQuit)
      modifies this
      ensures Valid() && View() == Apply(old(View()), if isInLoopThread then OwnQuit else ForeignQuit)
      ensures mustWake == !isInLoopThread
    {
      InvStep(View(), if isInLoopThread then OwnQuit else ForeignQuit);
      quit := true;
      mustWake := !isInLoopThread;
      rest := rest.(quitBeforeLoop := rest.quitBeforeLoop || pc.NotLooping?,
                    quitUnwoken := if mustWake then rest.quitUnwoken + 1 else rest.quitUnwoken);
    }

    /** The start of `loop`. */
    method EnterTheLoop()
      requires Valid() && Enabled(View(), EnterLoop)
      modifies this
      ensures Valid() && View() == Apply(old(View()), EnterLoop)
    {
      InvStep(View(), EnterLoop);
      quit := false;
      pc := LoopTest;
    }

    /** The test of the while loop; `more` means poll again. */
    method TestLoop() returns (more: bool)
      requires Valid() && Enabled(View(), TestQuit)
      modifies this
      ensures Valid() && View() == Apply(old(View()), TestQuit)
      ensures more <==> pc.Polling?
    {
      InvStep(View(), TestQuit);
      more := !quit;
      pc := if more then Polling else Exited;
    }

    /** `doPendingFunctors` up to the mutex. */
    method BeginPendingFunctors()
      requires Valid() && Enabled(View(), EventsHandled)
      modifies this
      ensures Valid() && View() == Apply(old(View()), EventsHandled)
    {
      InvStep(View(), EventsHandled);
      callingPendingFunctors := true;
      pc := Swapping;
    }

    /** One turn of the functor loop, which calls functors[i]. */
    method CallFunctor(i: nat) returns (called: Task)
      requires Valid() && Enabled(View(), RunFunctor) && pc.next == i
      modifies this
      ensures Valid() && View() == Apply(old(View()), RunFunctor)
      ensures i < |functors| && called == functors[i] && View().executed == old(View()).executed + [called]
    {
      hide Fifo, Unrun, NoLostWakeup, NoLostQuit;
      InvStep(View(), RunFunctor);
      called := functors[i];
      rest := rest.(executed := rest.executed + [called]);
      pc := Calling(i + 1);
    }

    /** `doPendingFunctors` after its loop: from here on a task queued on this thread is not woken for. */
    method EndPendingFunctors()
      requires Valid() && Enabled(View(), FunctorsDone)
      modifies this
      ensures Valid() && View() == Apply(old(View()), FunctorsDone)
    {
      hide Fifo, Unrun, NoLostWakeup, NoLostQuit;
      InvStep(View(), FunctorsDone);
      callingPendingFunctors := false;
      pc := Releasing;
    }

    /** The end of the scope of `functors`, whose elements have been destroyed. */
    method ReleaseFunctors()
      requires Valid() && Enabled(View(), Released)
      modifies this
      ensures Valid() && View() == Apply(old(View()), Released)
    {
      hide Fifo, Unrun, NoLostWakeup, NoLostQuit;
      InvStep(View(), Released);
      functors := [];
      pc := LoopTest;
    }
  }
}
