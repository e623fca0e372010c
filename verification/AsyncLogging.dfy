/**
 Double-buffered asynchronous logging (mymuduo/base/AsyncLogging.cc). Front-end threads append lines under a
 mutex; one back-end thread swaps the filled buffers out, writes them, and recycles two of them.
 */
module AsyncLogging {
  import opened Common
  import LogStream

  type Line = string

  /** A log buffer, seen as the whole lines appended to it since it was last reset. */
  type Buffer = seq<Line>

  const CAPACITY := LogStream.LARGE_BUFFER
  const MAX_BUFFERS_TO_WRITE := 25

  function Length(b: Buffer): nat {
    if b == [] then 0 else Length(b[..|b| - 1]) + |b[|b| - 1]|
  }

  function Avail(b: Buffer): int {
    CAPACITY - Length(b)
  }

  /** `FixedBuffer::append`: a line that does not fit with a byte to spare is discarded. */
  function BufferAppend(b: Buffer, line: Line): Buffer {
    if Avail(b) > |line| then b + [line] else b
  }

  /** What reaches the log file: the text of a buffer, or the notice that some buffers were dropped. */
  datatype Chunk = Text(lines: seq<Line>) | DropNotice(buffers: nat)

  /** Where the back-end thread is: before its loop test, in the timed wait, and between its later sections. */
  datatype Pc = LoopTest | Waiting | Swapped | Written | Finished

  datatype State = State(
    current: Option<Buffer>, next: Option<Buffer>, buffers: seq<Buffer>,
    new1: Option<Buffer>, new2: Option<Buffer>, toWrite: seq<Buffer>,
    pc: Pc, running: bool, output: seq<Chunk>,
    // history
    accepted: seq<Line>, swaps: seq<seq<Buffer>>)

  const INIT := State(Some([]), Some([]), [], Some([]), Some([]), [], LoopTest, true, [], [], [])

  /** One step: a front-end append, a stop request, or the back end running from one section to the next. */
  datatype Event = Append(line: Line) | Stop | Check | Wake | Write | Recycle

  predicate Enabled(s: State, e: Event) {
    match e
    case Append(_) => true
    case Stop => true
    case Check => s.pc == LoopTest
    case Wake => s.pc == Waiting
    case Write => s.pc == Swapped
    case Recycle => s.pc == Written
  }

  function Present(b: Option<Buffer>): nat { if b.Some? then 1 else 0 }

  /** The source's asserts, and that no null buffer is dereferenced. */
  predicate AssertsHold(s: State, e: Event) {
    match e
    case Append(_) => s.current.Some?
    case Stop => true
    case Check =>
      s.running ==> s.new1 == Some([]) && s.new2 == Some([]) && s.toWrite == [] && (s.buffers != [] ==> s.current.Some?)
    case Wake => s.current.Some?
    case Write => s.toWrite != []
    case Recycle => |s.toWrite| <= 2 && |s.toWrite| + Present(s.new1) + Present(s.new2) >= 2
  }

  function SwapBuffers(s: State): State
    requires s.current.Some?
  {
    var batch := s.buffers + [s.current.value];
    s.(current := s.new1, new1 := None,
       toWrite := batch, buffers := [],
       next := if s.next.None? then s.new2 else s.next,
       new2 := if s.next.None? then None else s.new2,
       pc := Swapped, swaps := s.swaps + [batch])
  }

  /** The buffers that survive the overload check. */
  function Kept(batch: seq<Buffer>): seq<Buffer> {
    if |batch| > MAX_BUFFERS_TO_WRITE then batch[..2] else batch
  }

  function Texts(batch: seq<Buffer>): seq<Chunk> {
    seq(|batch|, i requires 0 <= i < |batch| => Text(batch[i]))
  }

  function Printed(batch: seq<Buffer>): seq<Chunk> {
    (if |batch| > MAX_BUFFERS_TO_WRITE then [DropNotice(|batch| - 2)] else []) + Texts(Kept(batch))
  }

  function Apply(s: State, e: Event): State
    requires Enabled(s, e) && AssertsHold(s, e)
  {
    match e
    case Append(line) =>
      var b := s.current.value;
      var accepted := if |line| < CAPACITY then s.accepted + [line] else s.accepted;
      if Avail(b) > |line| then
        s.(current := Some(BufferAppend(b, line)), accepted := accepted)
      else
        var spare := if s.next.Some? then s.next.value else [];
        s.(buffers := s.buffers + [b], current := Some(BufferAppend(spare, line)), next := None, accepted := accepted)
    case Stop => s.(running := false)
    case Check =>
      if !s.running then s.(pc := Finished)
      else if s.buffers == [] then s.(pc := Waiting)
      else SwapBuffers(s)
    case Wake => SwapBuffers(s)
    case Write =>
      var kept := Kept(s.toWrite);
      s.(output := s.output + Printed(s.toWrite), toWrite := if |kept| > 2 then kept[..2] else kept, pc := Written)
    case Recycle =>
      s.(new1 := Some([]), new2 := Some([]), toWrite := [], pc := LoopTest)
  }

  // ---------- The invariant ----------

  /** Who owns a buffer when: the cross-thread part is that `next` is only missing while `buffers` is not empty. */
  predicate Supply(s: State) {
    && s.current.Some? && Length(s.current.value) < CAPACITY
    && (s.next.Some? ==> s.next.value == [])
    && (s.next.None? ==> s.buffers != [])
    && (s.new1.Some? ==> s.new1.value == []) && (s.new2.Some? ==> s.new2.value == [])
    && (s.pc in {LoopTest, Waiting, Finished} ==> s.new1.Some? && s.new2.Some? && s.toWrite == [])
    && (s.pc in {Swapped, Written} ==> |s.toWrite| + Present(s.new1) + Present(s.new2) >= 2 && s.toWrite != [])
    && (s.pc == Written ==> |s.toWrite| <= 2)
  }

  function PrintedAll(swaps: seq<seq<Buffer>>): seq<Chunk> {
    if swaps == [] then [] else PrintedAll(swaps[..|swaps| - 1]) + Printed(swaps[|swaps| - 1])
  }

  /** The batches whose writing is finished. */
  function Done(s: State): seq<seq<Buffer>> {
    if s.pc == Swapped && s.swaps != [] then s.swaps[..|s.swaps| - 1] else s.swaps
  }

  /** Every accepted line is in exactly one swapped batch, filled buffer or current buffer, in lock order. */
  predicate Conserved(s: State) {
    && s.current.Some?
    && s.accepted == Flatten(Flatten(s.swaps)) + Flatten(s.buffers) + s.current.value
    && s.output == PrintedAll(Done(s))
    && (s.pc == Swapped ==> s.swaps != [] && s.toWrite == s.swaps[|s.swaps| - 1])
  }

  predicate Inv(s: State) {
    Supply(s) && Conserved(s)
  }

  lemma InvInit()
    ensures Inv(INIT)
  {
  }

  lemma FreshFits(line: Line)
    ensures BufferAppend([], line) == if |line| < CAPACITY then [line] else []
    ensures Length(BufferAppend([], line)) < CAPACITY
  {
    assert ([] + [line])[..0] == [];
  }

  lemma AppendFits(b: Buffer, line: Line)
    requires Avail(b) > |line|
    ensures BufferAppend(b, line) == b + [line]
    ensures Length(b + [line]) == Length(b) + |line| < CAPACITY
    ensures |line| < CAPACITY
  {
    assert (b + [line])[..|b|] == b;
  }

  lemma AppendStep(s: State, line: Line)
    requires Inv(s)
    ensures Inv(Apply(s, Append(line)))
  {
    hide Flatten, Length, BufferAppend, PrintedAll;
    var b := s.current.value;
    var t := Apply(s, Append(line));
    if Avail(b) > |line| {
      AppendFits(b, line);
      assert t.accepted == Flatten(Flatten(t.swaps)) + Flatten(t.buffers) + t.current.value;
    } else {
      FreshFits(line);
      FlattenSnoc(s.buffers, b);
      var before := Flatten(Flatten(s.swaps)) + Flatten(s.buffers) + b;
      assert before == Flatten(Flatten(s.swaps)) + (Flatten(s.buffers) + b);
      assert t.accepted == Flatten(Flatten(t.swaps)) + Flatten(t.buffers) + t.current.value;
    }
  }

  lemma SwapStep(s: State)
    requires Inv(s) && s.pc in {LoopTest, Waiting}
    ensures Inv(SwapBuffers(s))
  {
    var batch := s.buffers + [s.current.value];
    var t := SwapBuffers(s);
    FlattenSnoc(s.swaps, batch);
    FlattenConcat(Flatten(s.swaps), batch);
    FlattenSnoc(s.buffers, s.current.value);
    assert t.swaps[..|t.swaps| - 1] == s.swaps;
    assert Length([]) == 0;
  }

  lemma PrintedSnoc(swaps: seq<seq<Buffer>>)
    requires swaps != []
    ensures PrintedAll(swaps) == PrintedAll(swaps[..|swaps| - 1]) + Printed(swaps[|swaps| - 1])
  {
  }

  lemma WriteStep(s: State)
    requires Inv(s) && s.pc == Swapped
    ensures AssertsHold(s, Write) && Inv(Apply(s, Write))
  {
    hide Flatten, Length, Printed, PrintedAll, Supply;
    WriteSupply(s);
    PrintedSnoc(s.swaps);
  }

  lemma WriteSupply(s: State)
    requires Supply(s) && s.pc == Swapped
    ensures AssertsHold(s, Write) && Supply(Apply(s, Write))
  {
    hide Printed, Length;
  }

  lemma ThreadLocalStep(s: State, e: Event)
    requires Inv(s) && Enabled(s, e) && (e == Stop || e == Recycle || (e == Check && (!s.running || s.buffers == [])))
    ensures AssertsHold(s, e) && Inv(Apply(s, e))
  {
    hide Flatten, Length, PrintedAll;
  }

  /** No assert of the source can fail, and every step keeps the invariant. */
  lemma InvStep(s: State, e: Event)
    requires Inv(s) && Enabled(s, e)
    ensures AssertsHold(s, e) && Inv(Apply(s, e))
  {
    hide Flatten, Length, PrintedAll, Printed, Conserved, BufferAppend;
    match e
    case Append(line) => AppendStep(s, line);
    case Stop => ThreadLocalStep(s, e);
    case Check =>
      if s.running && s.buffers != [] { SwapStep(s); } else { ThreadLocalStep(s, e); }
    case Wake => SwapStep(s);
    case Write => WriteStep(s);
    case Recycle => ThreadLocalStep(s, e);
  }

  // ---------- Whole runs ----------

  /** Any interleaving of front-end threads, the back end and a stop. */
  ghost predicate IsRun(states: seq<State>, events: seq<Event>) {
    && |states| == |events| + 1 && states[0] == INIT
    && forall i :: 0 <= i < |events| ==>
         Enabled(states[i], events[i]) &&
         (AssertsHold(states[i], events[i]) ==> states[i + 1] == Apply(states[i], events[i]))
  }

  lemma {:induction false} RunInv(states: seq<State>, events: seq<Event>, i: nat)
    requires IsRun(states, events) && i < |states|
    ensures Inv(states[i])
    ensures i < |events| ==> AssertsHold(states[i], events[i])
  {
    if i == 0 {
      InvInit();
    } else {
      RunInv(states, events, i - 1);
      InvStep(states[i - 1], events[i - 1]);
    }
    if i < |events| {
      InvStep(states[i], events[i]);
    }
  }

  /** The lines in the file, notices left out. */
  function WrittenLines(output: seq<Chunk>): seq<Line> {
    if output == [] then []
    else
      var last := output[|output| - 1];
      WrittenLines(output[..|output| - 1]) + (if last.Text? then last.lines else [])
  }

  lemma WrittenLinesNil()
    ensures WrittenLines([]) == []
  {
  }

  lemma WrittenLinesSnoc(xs: seq<Chunk>, c: Chunk)
    ensures WrittenLines(xs + [c]) == WrittenLines(xs) + (if c.Text? then c.lines else [])
  {
    assert (xs + [c])[..|xs|] == xs;
  }

  lemma {:induction false} WrittenLinesConcat(xs: seq<Chunk>, ys: seq<Chunk>)
    ensures WrittenLines(xs + ys) == WrittenLines(xs) + WrittenLines(ys)
  {
    hide WrittenLines;
    if ys == [] {
      assert xs + ys == xs;
      WrittenLinesNil();
    } else {
      var front, last := ys[..|ys| - 1], ys[|ys| - 1];
      WrittenLinesConcat(xs, front);
      assert xs + ys == (xs + front) + [last];
      WrittenLinesSnoc(xs + front, last);
      WrittenLinesSnoc(front, last);
      assert ys == front + [last];
    }
  }

  lemma {:induction false} WrittenTexts(batch: seq<Buffer>)
    ensures WrittenLines(Texts(batch)) == Flatten(batch)
  {
    if batch != [] {
      var front := batch[..|batch| - 1];
      WrittenTexts(front);
      assert Texts(batch) == Texts(front) + [Text(batch[|batch| - 1])];
      WrittenLinesSnoc(Texts(front), Text(batch[|batch| - 1]));
    }
  }

  lemma WrittenPrinted(batch: seq<Buffer>)
    ensures WrittenLines(Printed(batch)) == Flatten(Kept(batch))
  {
    var notice := if |batch| > MAX_BUFFERS_TO_WRITE then [DropNotice(|batch| - 2)] else [];
    WrittenLinesConcat(notice, Texts(Kept(batch)));
    WrittenTexts(Kept(batch));
    assert notice != [] ==> notice[..0] == [];
  }

  /** The lines that the overload check threw away. */
  function Dropped(batch: seq<Buffer>): seq<Line> {
    if |batch| > MAX_BUFFERS_TO_WRITE then Flatten(batch[2..]) else []
  }

  function DroppedAll(swaps: seq<seq<Buffer>>): seq<Line> {
    if swaps == [] then [] else DroppedAll(swaps[..|swaps| - 1]) + Dropped(swaps[|swaps| - 1])
  }

  lemma KeptAndDropped(batch: seq<Buffer>)
    ensures Flatten(batch) == Flatten(Kept(batch)) + Dropped(batch)
  {
    if |batch| > MAX_BUFFERS_TO_WRITE {
      assert batch == batch[..2] + batch[2..];
      FlattenConcat(batch[..2], batch[2..]);
    }
  }

  /** What finished batches leave in the file: a subsequence of their lines, short by exactly the dropped ones. */
  lemma {:induction false} PrintedIsSubsequence(swaps: seq<seq<Buffer>>)
    ensures var written := WrittenLines(PrintedAll(swaps));
            && Subsequence(written, Flatten(Flatten(swaps)))
            && |Flatten(Flatten(swaps))| == |written| + |DroppedAll(swaps)|
            && (DroppedAll(swaps) == [] ==> written == Flatten(Flatten(swaps)))
  {
    if swaps != [] {
      var front, batch := swaps[..|swaps| - 1], swaps[|swaps| - 1];
      PrintedIsSubsequence(front);
      WrittenLinesConcat(PrintedAll(front), Printed(batch));
      WrittenPrinted(batch);
      FlattenConcat(Flatten(front), batch);
      KeptAndDropped(batch);
      SubsequenceSelf(Flatten(Kept(batch)));
      SubsequenceExtend(Flatten(Kept(batch)), Flatten(Kept(batch)), Dropped(batch));
      SubsequenceConcat(WrittenLines(PrintedAll(front)), Flatten(Flatten(front)),
                        Flatten(Kept(batch)), Flatten(batch));
    }
  }

  /** Accepted lines that are in memory: in the batch being written, in filled buffers, in the current buffer. */
  function InMemory(s: State): seq<Line>
    requires s.current.Some?
  {
    (if s.pc == Swapped then Flatten(s.toWrite) else []) + Flatten(s.buffers) + s.current.value
  }

  /** The lines of the buffers that passed the overload check. */
  function KeptAll(swaps: seq<seq<Buffer>>): seq<Line> {
    if swaps == [] then [] else KeptAll(swaps[..|swaps| - 1]) + Flatten(Kept(swaps[|swaps| - 1]))
  }

  lemma {:induction false} PrintedIsKept(swaps: seq<seq<Buffer>>)
    ensures WrittenLines(PrintedAll(swaps)) == KeptAll(swaps)
  {
    if swaps != [] {
      var front, batch := swaps[..|swaps| - 1], swaps[|swaps| - 1];
      PrintedIsKept(front);
      WrittenLinesConcat(PrintedAll(front), Printed(batch));
      WrittenPrinted(batch);
    }
  }

  /** The lines that a series of calls asks to log and a buffer can hold, in the order of the calls. */
  function Logged(events: seq<Event>): seq<Line> {
    if events == [] then []
    else
      var last := events[|events| - 1];
      Logged(events[..|events| - 1]) + (if last.Append? && |last.line| < CAPACITY then [last.line] else [])
  }

  lemma AcceptedStep(s: State, e: Event)
    requires Inv(s) && Enabled(s, e) && AssertsHold(s, e)
    ensures Apply(s, e).accepted == s.accepted + (if e.Append? && |e.line| < CAPACITY then [e.line] else [])
  {
    hide Flatten, Length, PrintedAll;
  }

  /** Every line that fits in a buffer is accepted, and nothing else is. */
  lemma {:induction false} AcceptedIsLogged(states: seq<State>, events: seq<Event>, i: nat)
    requires IsRun(states, events) && i < |states|
    ensures states[i].accepted == Logged(events[..i])
  {
    hide Inv, Apply, AssertsHold, Enabled;
    if i == 0 {
      NothingLogged();
    } else {
      AcceptedIsLogged(states, events, i - 1);
      RunInv(states, events, i - 1);
      AcceptedStep(states[i - 1], events[i - 1]);
      assert events[..i][..i - 1] == events[..i - 1];
    }
  }

  lemma NothingLogged()
    ensures Logged([]) == [] && INIT.accepted == []
  {
  }

  /** At every moment of every run: the lines logged so far are, in lock order, those of the batches dealt with and then
      those in memory; the file has the lines of the buffers that each batch kept, so it is short by exactly the lines
      of whole buffers dropped under overload; without a drop nothing is lost or reordered. */
  lemma LogConservation(states: seq<State>, events: seq<Event>, i: nat)
    requires IsRun(states, events) && i < |states|
    ensures var s, logged := states[i], Logged(events[..i]);
            && s.current.Some?
            && logged == Flatten(Flatten(Done(s))) + InMemory(s)
            && WrittenLines(s.output) == KeptAll(Done(s))
            && Subsequence(WrittenLines(s.output) + InMemory(s), logged)
            && |logged| == |WrittenLines(s.output) + InMemory(s)| + |DroppedAll(Done(s))|
            && (DroppedAll(Done(s)) == [] <==> WrittenLines(s.output) + InMemory(s) == logged)
  {
    hide Flatten, PrintedAll, WrittenLines, KeptAll, Logged;
    RunInv(states, events, i);
    AcceptedIsLogged(states, events, i);
    AcceptedSplit(states[i]);
    PrintedIsKept(Done(states[i]));
    ConservedMeans(states[i]);
  }

  /** A swap takes along everything that is in memory. */
  lemma SwapTakesAll(s: State, e: Event)
    requires Inv(s) && Enabled(s, e) && AssertsHold(s, e)
    ensures var t := Apply(s, e);
            && s.swaps <= t.swaps
            && (s.pc != Swapped && t.pc == Swapped ==>
                  t.accepted == s.accepted && t.accepted == Flatten(Flatten(t.swaps)))
  {
    hide Length, PrintedAll, BufferAppend, Flatten, Supply;
    if e.Check? || e.Wake? {
      SwappedLines(s.swaps, s.buffers, s.current.value);
    }
  }

  lemma SwappedLines(swaps: seq<seq<Buffer>>, buffers: seq<Buffer>, current: Buffer)
    ensures Flatten(Flatten(swaps + [buffers + [current]])) == Flatten(Flatten(swaps)) + Flatten(buffers) + current
  {
    hide Flatten;
    FlattenSnoc(swaps, buffers + [current]);
    FlattenConcat(Flatten(swaps), buffers + [current]);
    FlattenSnoc(buffers, current);
  }

  lemma {:induction false} SwapsGrow(states: seq<State>, events: seq<Event>, i: nat, j: nat)
    requires IsRun(states, events) && i <= j < |states|
    ensures states[i].swaps <= states[j].swaps
    decreases j
  {
    hide Inv, Apply, AssertsHold, Enabled, Flatten;
    if i < j {
      SwapsGrow(states, events, i, j - 1);
      RunInv(states, events, j - 1);
      SwapTakesAll(states[j - 1], events[j - 1]);
    }
  }

  /** One pass of the back end deals with everything logged before its swap: with the swap as step `k`, whenever later
      no batch is waiting to be written, those lines are in the batches that have been. */
  lemma OnePassWritesAll(states: seq<State>, events: seq<Event>, k: nat, j: nat)
    requires IsRun(states, events) && k < j < |states|
    requires states[k].pc != Swapped && states[k + 1].pc == Swapped && states[j].pc != Swapped
    ensures Logged(events[..k]) <= Flatten(Flatten(Done(states[j])))
  {
    hide Inv, Apply, AssertsHold, Enabled, Flatten, Logged;
    RunInv(states, events, k);
    AcceptedIsLogged(states, events, k);
    SwapTakesAll(states[k], events[k]);
    SwapsGrow(states, events, k + 1, j);
    var before, after := states[k + 1].swaps, states[j].swaps;
    assert after == before + after[|before|..];
    FlattenConcat(before, after[|before|..]);
    FlattenConcat(Flatten(before), Flatten(after[|before|..]));
  }

  lemma RunningStep(s: State, e: Event)
    requires Inv(s) && Enabled(s, e) && AssertsHold(s, e)
    ensures var t := Apply(s, e);
            && (t.running <==> s.running && e != Stop)
            && (t.pc == Finished <==> s.pc == Finished || (e == Check && !s.running))
            && (e == Check ==> (t.pc == Waiting <==> s.running && s.buffers == []))
  {
    hide Flatten, Length, PrintedAll;
  }

  /** The back end ends only after a stop, and goes to sleep only on an empty queue. */
  lemma {:induction false} RunsUntilStopped(states: seq<State>, events: seq<Event>, i: nat)
    requires IsRun(states, events) && i < |states|
    ensures states[i].running <==> Stop !in events[..i]
    ensures states[i].pc == Finished ==> Stop in events[..i]
    ensures i < |events| && events[i] == Check ==>
              && (states[i + 1].pc == Finished <==> Stop in events[..i])
              && (states[i + 1].pc == Waiting <==> Stop !in events[..i] && states[i].buffers == [])
  {
    hide Inv, Apply, AssertsHold;
    RunInv(states, events, i);
    if i > 0 {
      RunsUntilStopped(states, events, i - 1);
      RunInv(states, events, i - 1);
      RunningStep(states[i - 1], events[i - 1]);
      assert events[..i] == events[..i - 1] + [events[i - 1]];
    }
    if i < |events| {
      RunningStep(states[i], events[i]);
    }
  }

  /** The current buffer is passed on exactly when the line does not fit with a byte to spare. */
  lemma PassedOnIffFull(states: seq<State>, events: seq<Event>, i: nat)
    requires IsRun(states, events) && i < |events| && events[i].Append?
    ensures states[i].current.Some?
    ensures states[i + 1].buffers == states[i].buffers <==>
            Length(states[i].current.value) + |events[i].line| < CAPACITY
    ensures states[i + 1].buffers != states[i].buffers ==>
              states[i + 1].buffers == states[i].buffers + [states[i].current.value]
  {
    hide Flatten, Length, PrintedAll;
    RunInv(states, events, i);
    assert states[i + 1].buffers != states[i].buffers ==> |states[i + 1].buffers| == |states[i].buffers| + 1;
  }

  /** Once the back end has ended, nothing is written any more. */
  lemma {:induction false} FinishedIsFinal(states: seq<State>, events: seq<Event>, i: nat, j: nat)
    requires IsRun(states, events) && i <= j < |states| && states[i].pc == Finished
    ensures states[j].pc == Finished && states[j].output == states[i].output && states[j].swaps == states[i].swaps
    decreases j
  {
    if i < j {
      FinishedIsFinal(states, events, i, j - 1);
      RunInv(states, events, j - 1);
    }
  }

  /** What a stop costs: once the back end has ended, the file is what it will ever be, and it holds every line
      logged if and only if none of them came after the last swap and none was dropped. */
  lemma StopWritesAllIff(states: seq<State>, events: seq<Event>, i: nat, j: nat)
    requires IsRun(states, events) && i <= j < |states| && states[i].pc == Finished
    ensures states[j].output == states[i].output && states[j].current.Some?
    ensures var s := states[j];
            WrittenLines(s.output) == Logged(events[..j]) <==>
            Flatten(s.buffers) == [] && s.current.value == [] && DroppedAll(s.swaps) == []
  {
    hide Flatten, PrintedAll, WrittenLines, KeptAll, DroppedAll, Logged;
    FinishedIsFinal(states, events, i, j);
    LogConservation(states, events, j);
    var s := states[j];
    if Flatten(s.buffers) == [] && s.current.value == [] {
      assert WrittenLines(s.output) + InMemory(s) == WrittenLines(s.output);
    }
  }

  /** The shortest run that loses a line. */
  lemma StopLosesLines()
    ensures exists states: seq<State>, events: seq<Event> ::
              && IsRun(states, events) && events == [Append("x"), Stop, Check]
              && states[3].pc == Finished && states[3].accepted == ["x"] && states[3].output == []
  {
    var appended := INIT.(current := Some(["x"]), accepted := ["x"]);
    var stopped := appended.(running := false);
    AppendFits([], "x");
    assert [] + ["x"] == ["x"];
    var states, events := [INIT, appended, stopped, stopped.(pc := Finished)], [Append("x"), Stop, Check];
    assert IsRun(states, events);
  }

  lemma AcceptedSplit(s: State)
    requires Inv(s)
    ensures s.accepted == Flatten(Flatten(Done(s))) + InMemory(s)
  {
    hide Flatten, Length, PrintedAll;
    var done := Done(s);
    if s.pc == Swapped {
      assert s.swaps == done + [s.toWrite];
      FlattenSnoc(done, s.toWrite);
      FlattenConcat(Flatten(done), s.toWrite);
    }
  }

  lemma ConservedMeans(s: State)
    requires Inv(s)
    ensures Subsequence(WrittenLines(s.output) + InMemory(s), s.accepted)
    ensures |s.accepted| == |WrittenLines(s.output) + InMemory(s)| + |DroppedAll(Done(s))|
    ensures DroppedAll(Done(s)) == [] <==> WrittenLines(s.output) + InMemory(s) == s.accepted
  {
    hide Flatten, Length, PrintedAll, DroppedAll, WrittenLines, Subsequence, InMemory;
    var done := Done(s);
    AcceptedSplit(s);
    PrintedIsSubsequence(done);
    SubsequenceSelf(InMemory(s));
    SubsequenceConcat(WrittenLines(s.output), Flatten(Flatten(done)), InMemory(s), InMemory(s));
  }

  // ---------- The object ----------

  /**
   The logger's fields together with the back-end thread's locals. Each method is one stretch of code that no other
   thread can observe half done: a critical section, or thread-local work between two of them.
   */
  class AsyncLogger {
    var currentBuffer: Option<Buffer>
    var nextBuffer: Option<Buffer>
    var buffers: seq<Buffer>
    var running: bool
    var newBuffer1: Option<Buffer>
    var newBuffer2: Option<Buffer>
    var buffersToWrite: seq<Buffer>
    var output: seq<Chunk>
    ghost var pc: Pc
    ghost var accepted: seq<Line>
    ghost var swaps: seq<seq<Buffer>>

    ghost function View(): State
      reads this
    {
      State(currentBuffer, nextBuffer, buffers, newBuffer1, newBuffer2, buffersToWrite, pc, running, output,
            accepted, swaps)
    }

    ghost predicate Valid()
      reads this
    {
      Inv(View())
    }

    constructor ()
      ensures Valid() && View() == INIT
    {
      currentBuffer, nextBuffer, buffers := Some([]), Some([]), [];
      newBuffer1, newBuffer2, buffersToWrite := Some([]), Some([]), [];
      running, output := true, [];
      pc, accepted, swaps := LoopTest, [], [];
      new;
      InvInit();
    }

    /** `append`, called by any front-end thread, under the mutex. */
    method AppendLine(line: Line)
      requires Valid()
      modifies this
      ensures Valid() && View() == Apply(old(View()), Append(line))
    {
      hide Flatten, PrintedAll, Length;
      InvStep(View(), Append(line));
      if |line| < CAPACITY {
        accepted := accepted + [line];
      }
      if Avail(currentBuffer.value) > |line| {
        currentBuffer := Some(BufferAppend(currentBuffer.value, line));
      } else {
        buffers := buffers + [currentBuffer.value];
        if nextBuffer.Some? {
          currentBuffer, nextBuffer := nextBuffer, None;
        } else {
          currentBuffer := Some([]);
        }
        currentBuffer := Some(BufferAppend(currentBuffer.value, line));
      }
    }

    /** The loop test, the asserts at the top of the loop, and the test for an empty queue under the mutex. */
    method CheckQueue()
      requires Valid() && Enabled(View(), Check)
      modifies this
      ensures Valid() && View() == Apply(old(View()), Check)
    {
      hide Flatten, PrintedAll, Length;
      InvStep(View(), Check);
      if running {
        assert newBuffer1 == Some([]);
        assert newBuffer2 == Some([]);
        assert buffersToWrite == [];
        if buffers == [] {
          pc := Waiting;
        } else {
          Swap();
        }
      } else {
        pc := Finished;
      }
    }

    /** The rest of the critical section after the timed wait returned, for whatever reason. */
    method AfterWait()
      requires Valid() && Enabled(View(), Wake)
      modifies this
      ensures Valid() && View() == Apply(old(View()), Wake)
    {
      Swap();
    }

    method Swap()
      requires Valid() && pc in {LoopTest, Waiting}
      modifies this
      ensures Valid() && View() == SwapBuffers(old(View()))
    {
      hide Flatten, PrintedAll, Length, Conserved;
      SwapStep(View());
      buffers := buffers + [currentBuffer.value];
      currentBuffer, newBuffer1 := newBuffer1, None;
      buffersToWrite, buffers := buffers, buffersToWrite;
      swaps := swaps + [buffersToWrite];
      if nextBuffer.None? {
        nextBuffer, newBuffer2 := newBuffer2, None;
      }
      pc := Swapped;
    }

    /** Outside the mutex: drop under overload, write, keep at most two buffers. */
    method WriteOut()
      requires Valid() && Enabled(View(), Write)
      modifies this
      ensures Valid() && View() == Apply(old(View()), Write)
    {
      hide Flatten, PrintedAll, Length;
      InvStep(View(), Write);
      assert buffersToWrite != [];
      if |buffersToWrite| > MAX_BUFFERS_TO_WRITE {
        output := output + [DropNotice(|buffersToWrite| - 2)];
        buffersToWrite := buffersToWrite[..2];
      }
      AppendToFile();
      assert output == old(output) + Printed(old(buffersToWrite));
      if |buffersToWrite| > 2 {
        buffersToWrite := buffersToWrite[..2];
      }
      pc := Written;
    }

    method AppendToFile()
      modifies this`output
      ensures output == old(output) + Texts(buffersToWrite)
    {
      for i := 0 to |buffersToWrite|
        invariant output == old(output) + Texts(buffersToWrite[..i])
      {
        output := output + [Text(buffersToWrite[i])];
        assert Texts(buffersToWrite[..i + 1]) == Texts(buffersToWrite[..i]) + [Text(buffersToWrite[i])];
      }
      assert buffersToWrite[..|buffersToWrite|] == buffersToWrite;
    }

    /** Outside the mutex: two of the written buffers become the spare ones, emptied. */
    method RecycleBuffers()
      requires Valid() && Enabled(View(), Recycle)
      modifies this
      ensures Valid() && View() == Apply(old(View()), Recycle)
    {
      hide Flatten, PrintedAll, Length;
      InvStep(View(), Recycle);
      if newBuffer1.None? {
        assert buffersToWrite != [];
        buffersToWrite := buffersToWrite[..|buffersToWrite| - 1];
        newBuffer1 := Some([]);
      }
      if newBuffer2.None? {
        assert buffersToWrite != [];
        buffersToWrite := buffersToWrite[..|buffersToWrite| - 1];
        newBuffer2 := Some([]);
      }
      buffersToWrite := [];
      pc := LoopTest;
    }
  }
}
