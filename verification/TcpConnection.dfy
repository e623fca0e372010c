/**
 The output side of a TCP connection (mymuduo/net/TcpConnection.cc): direct writes, the output buffer, a pending
 file, the write-interest flag and half-close, under arbitrary short writes and errors.
 */
module TcpConnection {
  import opened Common
  import opened Buffer

  datatype Phase = Connecting | Connected | Disconnecting | Disconnected

  /** What `write` or `sendfile` returned. */
  datatype Io = Wrote(n: nat) | WouldBlock | OtherError | Broken

  datatype State = State(
    phase: Phase, out: seq<Octet>, writing: bool,
    fileLeft: seq<Octet>,      // the bytes sendfile has yet to send; their number is sendLen_
    handed: seq<seq<Octet>>,   // messages that `send` on other threads handed to the loop, sendInLoop still to run
    shutdownQueued: bool,      // shutdownInLoop handed to the loop, behind them, and not run yet
    shutDown: bool,            // shutdownWrite was called
    // history
    wire: seq<Octet>,          // bytes the kernel took
    accepted: seq<Octet>,      // messages and files accepted, in the order they reached the loop thread, less what a
                               // failed sendfile cut off
    overlapped: bool,          // a message was accepted while a file was pending
    replaced: bool,            // a file was accepted while another was pending
    abandonedClosing: bool,    // handleWrite gave up a file while disconnecting, shutdownInLoop having run already
    fileBroken: bool)          // sendFileInLoop met a broken connection

  const INIT := State(Connecting, [], false, [], [], false, false, [], [], false, false, false, false)

  datatype Event =
    | Establish
    | Send(data: seq<Octet>, io: Io)         // send on the loop thread
    | HandOver(data: seq<Octet>)             // send on another thread
    | SendHanded(io: Io)                     // sendInLoop of the message handed over first
    | SendFile(file: seq<Octet>, io: Io)     // sendFile and sendFileInLoop, on the loop thread
    | Writable(io: Io)                       // handleWrite
    | Shutdown(inLoop: bool)                 // on the loop thread or another
    | ShutdownInLoop                         // as handed over by another
    | Close                                  // handleClose

  /** At most what was offered. */
  predicate Possible(io: Io, offered: nat) {
    io.Wrote? ==> io.n <= offered
  }

  /** Once the write side is shut down, writing bytes fails with EPIPE. */
  predicate Allowed(s: State, io: Io, offered: nat) {
    s.shutDown && offered > 0 ==> io.Broken?
  }

  predicate Direct(s: State) {
    !s.writing && |s.out| == 0
  }

  predicate Enabled(s: State, e: Event) {
    match e
    case Establish => s.phase.Connecting?
    case Send(data, io) => Possible(io, |data|) && Allowed(s, io, |data|)
    case HandOver(_) => true
    case SendHanded(io) => s.handed != [] && Possible(io, |s.handed[0]|) && Allowed(s, io, |s.handed[0]|)
    case SendFile(file, io) => Possible(io, |file|)
    case Writable(io) => Possible(io, Offered(s)) && Allowed(s, io, Offered(s))
    case Shutdown(_) => true
    case ShutdownInLoop => s.shutdownQueued && s.handed == []
    case Close => s.phase.Connected? || s.phase.Disconnecting?
  }

  /** What handleWrite asks the kernel to take. */
  function Offered(s: State): nat {
    if |s.out| > 0 then |s.out| else |s.fileLeft|
  }

  function IoBytes(io: Io): nat {
    if io.Wrote? then io.n else 0
  }

  function DoShutdownInLoop(s: State): State {
    if !s.writing then s.(shutDown := true) else s
  }

  /** `nwrote` bytes of the message went out at once; buffer the rest, and watch for writability if there is any. */
  function StartMessage(s: State, data: seq<Octet>, nwrote: nat): State
    requires nwrote <= |data|
  {
    s.(wire := s.wire + data[..nwrote], out := s.out + data[nwrote..], writing := s.writing || nwrote < |data|)
  }

  function Accept(s: State, data: seq<Octet>): State {
    s.(accepted := s.accepted + data, overlapped := s.overlapped || (|data| > 0 && |s.fileLeft| > 0))
  }

  function DoSend(s: State, data: seq<Octet>, io: Io): State
    requires Possible(io, |data|)
  {
    if s.phase.Disconnected? then s
    else if Direct(s) && io.Broken? then s
    else StartMessage(Accept(s, data), data, if Direct(s) then IoBytes(io) else 0)
  }

  /** `nwrote` bytes of the file went out at once; watch for writability if there are more. */
  function StartFile(s: State, file: seq<Octet>, nwrote: nat): State
    requires nwrote <= |file|
  {
    s.(wire := s.wire + file[..nwrote], fileLeft := file[nwrote..], writing := s.writing || nwrote < |file|)
  }

  function AcceptFile(s: State, file: seq<Octet>): State {
    s.(accepted := s.accepted + file, replaced := s.replaced || |s.fileLeft| > 0)
  }

  function DoSendFile(s: State, file: seq<Octet>, io: Io): State
    requires Possible(io, |file|)
  {
    if !s.phase.Connected? then s
    else if Direct(s) && io.Broken? then AcceptFile(s, file).(fileLeft := file, fileBroken := true)
    else StartFile(AcceptFile(s, file), file, if Direct(s) then IoBytes(io) else 0)
  }

  /** Nothing is left to write: stop watching for writability, and carry out a waiting half-close. */
  function Drained(s: State): State {
    var t := s.(writing := false);
    if s.phase.Disconnecting? then DoShutdownInLoop(t) else t
  }

  function DrainBuffer(s: State, n: nat): State
    requires n <= |s.out|
  {
    var t := s.(wire := s.wire + s.out[..n], out := s.out[n..]);
    if n > 0 && |t.out| == 0 && |s.fileLeft| == 0 then Drained(t) else t
  }

  function DrainFile(s: State, n: nat): State
    requires 0 < n <= |s.fileLeft|
  {
    var t := s.(wire := s.wire + s.fileLeft[..n], fileLeft := s.fileLeft[n..]);
    if |t.fileLeft| == 0 then Drained(t) else t
  }

  /** A file is given up: its unsent bytes no longer count as accepted. */
  function CutOff(accepted: seq<Octet>, unsent: seq<Octet>): seq<Octet> {
    if |unsent| <= |accepted| then accepted[..|accepted| - |unsent|] else []
  }

  function GiveUpFile(s: State): State {
    s.(fileLeft := [], writing := false, accepted := CutOff(s.accepted, s.fileLeft),
       abandonedClosing := s.abandonedClosing || (s.phase.Disconnecting? && !s.shutdownQueued))
  }

  function DoWritable(s: State, io: Io): State
    requires Possible(io, Offered(s))
  {
    if !s.writing then s
    else if |s.out| > 0 then DrainBuffer(s, IoBytes(io))
    else if IoBytes(io) > 0 then DrainFile(s, IoBytes(io))
    else GiveUpFile(s)
  }

  function DoShutdown(s: State, inLoop: bool): State {
    if !s.phase.Connected? then s
    else if inLoop then DoShutdownInLoop(s.(phase := Disconnecting))
    else s.(phase := Disconnecting, shutdownQueued := true)
  }

  function Apply(s: State, e: Event): State
    requires Enabled(s, e)
  {
    match e
    case Establish => s.(phase := Connected)
    case Send(data, io) => if s.phase.Connected? then DoSend(s, data, io) else s
    case HandOver(data) => if s.phase.Connected? then s.(handed := s.handed + [data]) else s
    case SendHanded(io) => DoSend(s.(handed := s.handed[1..]), s.handed[0], io)
    case SendFile(file, io) => DoSendFile(s, file, io)
    case Writable(io) => DoWritable(s, io)
    case Shutdown(inLoop) => DoShutdown(s, inLoop)
    case ShutdownInLoop => DoShutdownInLoop(s.(shutdownQueued := false))
    case Close => s.(phase := Disconnected, writing := false)
  }

  // ---------- Invariants ----------

  /** Write interest is on exactly while something is left to write: no forgotten bytes, no busy loop. */
  predicate InterestMatches(s: State) {
    !s.fileBroken && !s.replaced && !s.phase.Disconnected? ==> (s.writing <==> |s.out| > 0 || |s.fileLeft| > 0)
  }

  /** The wire, the buffer and the rest of the file make up everything accepted, in order. */
  predicate InOrder(s: State) {
    s.wire + s.out + s.fileLeft == s.accepted
  }

  predicate StreamKept(s: State) {
    !s.overlapped && !s.replaced && !s.fileBroken ==> InOrder(s)
  }

  /** A half-close that has reached the loop is carried out as soon as nothing is left to write. */
  predicate HalfCloseDone(s: State) {
    && (s.shutdownQueued ==> s.phase.Disconnecting? || s.phase.Disconnected?)
    && (!s.fileBroken && s.phase.Disconnecting? && !s.shutdownQueued && !s.writing ==>
          s.shutDown || s.abandonedClosing)
  }

  predicate Inv(s: State) {
    Flags(s) && StreamKept(s)
  }

  lemma InvStep(s: State, e: Event)
    requires Inv(s) && Enabled(s, e)
    ensures Inv(Apply(s, e))
  {
    hide StreamKept, Flags, Apply;
    StreamStep(s, e);
    FlagsStep(s, e);
  }

  predicate Flags(s: State) {
    && InterestMatches(s) && HalfCloseDone(s)
    && (s.phase.Connecting? ==> |s.out| == 0 && |s.fileLeft| == 0 && !s.writing && s.handed == [])
    && (s.shutDown ==> s.phase.Disconnecting? || s.phase.Disconnected?)
  }

  lemma FlagsStep(s: State, e: Event)
    requires Flags(s) && Enabled(s, e)
    ensures Flags(Apply(s, e))
  {
    hide Flags, DoSend, DoSendFile, DoWritable, DoShutdownInLoop;
    match e
    case Send(data, io) => if s.phase.Connected? { SendFlags(s, data, io); }
    case SendHanded(io) => HandedFlags(s); SendFlags(s.(handed := s.handed[1..]), s.handed[0], io);
    case SendFile(file, io) => SendFileFlags(s, file, io);
    case Writable(io) => WritableFlags(s, io);
    case _ => OtherFlags(s, e);
  }

  lemma OtherFlags(s: State, e: Event)
    requires Flags(s) && Enabled(s, e) && !e.Send? && !e.SendHanded? && !e.SendFile? && !e.Writable?
    ensures Flags(Apply(s, e))
  {
  }

  lemma HandedFlags(s: State)
    requires Flags(s) && s.handed != []
    ensures Flags(s.(handed := s.handed[1..])) && !s.phase.Connecting?
  {
  }

  lemma SendFlags(s: State, data: seq<Octet>, io: Io)
    requires Flags(s) && !s.phase.Connecting? && Possible(io, |data|)
    ensures Flags(DoSend(s, data, io))
  {
  }

  lemma SendFileFlags(s: State, file: seq<Octet>, io: Io)
    requires Flags(s) && Enabled(s, SendFile(file, io))
    ensures Flags(DoSendFile(s, file, io))
  {
  }

  lemma WritableFlags(s: State, io: Io)
    requires Flags(s) && Enabled(s, Writable(io))
    ensures Flags(DoWritable(s, io))
  {
    hide Flags, DrainBuffer, DrainFile;
    if s.writing && |s.out| > 0 {
      DrainBufferFlags(s, IoBytes(io));
    } else if s.writing && IoBytes(io) > 0 {
      DrainFileFlags(s, IoBytes(io));
    } else {
      AbandonFlags(s, io);
    }
  }

  lemma AbandonFlags(s: State, io: Io)
    requires Flags(s) && Enabled(s, Writable(io)) && (s.writing ==> |s.out| == 0 && IoBytes(io) == 0)
    ensures Flags(DoWritable(s, io))
  {
  }

  lemma DrainBufferFlags(s: State, n: nat)
    requires Flags(s) && s.writing && |s.out| > 0 && n <= |s.out|
    ensures Flags(DrainBuffer(s, n))
  {
    hide Drained;
    DrainedFlags(s.(wire := s.wire + s.out[..n], out := s.out[n..]));
  }

  lemma DrainFileFlags(s: State, n: nat)
    requires Flags(s) && s.writing && |s.out| == 0 && 0 < n <= |s.fileLeft|
    ensures Flags(DrainFile(s, n))
  {
    hide Drained;
    DrainedFlags(s.(wire := s.wire + s.fileLeft[..n], fileLeft := s.fileLeft[n..]));
  }

  lemma DrainedFlags(t: State)
    requires HalfCloseDone(t) && t.writing && !t.phase.Connecting?
    requires t.shutDown ==> t.phase.Disconnecting? || t.phase.Disconnected?
    ensures |t.out| == 0 && |t.fileLeft| == 0 ==> Flags(Drained(t))
  {
  }

  lemma StreamStep(s: State, e: Event)
    requires Inv(s) && Enabled(s, e)
    ensures StreamKept(Apply(s, e))
  {
    hide Flags, DoSend, DoSendFile, DoWritable;
    match e
    case Send(data, io) => if s.phase.Connected? { SendStream(s, data, io); }
    case SendHanded(io) => SendStream(s.(handed := s.handed[1..]), s.handed[0], io);
    case SendFile(file, io) => SendFileStream(s, file, io);
    case Writable(io) => WritableStream(s, io);
    case _ =>
  }

  lemma SendStream(s: State, data: seq<Octet>, io: Io)
    requires StreamKept(s) && Possible(io, |data|)
    ensures StreamKept(DoSend(s, data, io))
  {
    hide InOrder;
    if InOrder(s) && (|data| == 0 || |s.fileLeft| == 0) { SendKeepsOrder(s, data, io); }
  }

  lemma SendFileStream(s: State, file: seq<Octet>, io: Io)
    requires StreamKept(s) && Possible(io, |file|)
    ensures StreamKept(DoSendFile(s, file, io))
  {
    hide InOrder;
    if InOrder(s) && |s.fileLeft| == 0 { SendFileKeepsOrder(s, file, io); }
  }

  lemma WritableStream(s: State, io: Io)
    requires StreamKept(s) && Enabled(s, Writable(io))
    ensures StreamKept(DoWritable(s, io))
  {
    hide InOrder, DoWritable;
    WritableFlagsOnly(s, io);
    if InOrder(s) { WritableKeepsOrder(s, io); }
  }

  /** handleWrite does not touch the flags of the stream's history. */
  lemma WritableFlagsOnly(s: State, io: Io)
    requires Enabled(s, Writable(io))
    ensures var t := DoWritable(s, io);
            && t.overlapped == s.overlapped && t.replaced == s.replaced && t.fileBroken == s.fileBroken
  {
    hide Drained;
    var n := IoBytes(io);
    if s.writing && |s.out| > 0 {
      DrainedHistory(s.(wire := s.wire + s.out[..n], out := s.out[n..]));
    } else if s.writing && n > 0 {
      DrainedHistory(s.(wire := s.wire + s.fileLeft[..n], fileLeft := s.fileLeft[n..]));
    }
  }

  lemma DrainedHistory(s: State)
    ensures var t := Drained(s);
            t.overlapped == s.overlapped && t.replaced == s.replaced && t.fileBroken == s.fileBroken
  {
  }

  /** Bytes that move from the front of one part to the end of the one before it. */
  lemma Moved(a: seq<Octet>, b: seq<Octet>, c: seq<Octet>, n: nat)
    requires n <= |b|
    ensures (a + b[..n]) + b[n..] + c == a + b + c
  {
    assert b == b[..n] + b[n..];
  }

  lemma SendKeepsOrder(s: State, data: seq<Octet>, io: Io)
    requires Possible(io, |data|) && InOrder(s) && (|data| == 0 || |s.fileLeft| == 0)
    ensures InOrder(DoSend(s, data, io))
  {
    SentInOrder(s.wire, s.out, s.fileLeft, data, if Direct(s) then IoBytes(io) else 0);
  }

  lemma SentInOrder(wire: seq<Octet>, out: seq<Octet>, left: seq<Octet>, data: seq<Octet>, n: nat)
    requires n <= |data| && (n > 0 ==> |out| == 0) && (|data| == 0 || |left| == 0)
    ensures (wire + data[..n]) + (out + data[n..]) + left == wire + out + left + data
  {
    assert data == data[..n] + data[n..];
    if |out| == 0 {
      assert wire + out == wire && out + data[n..] == data[n..];
      assert (wire + data[..n]) + data[n..] == wire + data;
    }
    if |left| > 0 {
      assert data == [];
    }
  }

  lemma SendFileKeepsOrder(s: State, file: seq<Octet>, io: Io)
    requires Possible(io, |file|) && InOrder(s) && |s.fileLeft| == 0
    ensures InOrder(DoSendFile(s, file, io))
  {
    var n := if Direct(s) then IoBytes(io) else 0;
    Moved(s.wire, file, [], n);
    assert file[..0] == [] && file[0..] == file;
  }

  lemma WritableKeepsOrder(s: State, io: Io)
    requires Possible(io, Offered(s)) && InOrder(s)
    ensures InOrder(DoWritable(s, io))
  {
    hide DrainBuffer, DrainFile;
    var n := IoBytes(io);
    if s.writing && |s.out| > 0 {
      DrainBufferKeepsOrder(s, n);
    } else if s.writing && n > 0 {
      DrainFileKeepsOrder(s, n);
    } else if s.writing {
      CutOffTail(s.wire + s.out, s.fileLeft);
      assert s.wire + s.out + [] == s.wire + s.out;
    }
  }

  lemma CutOffTail(a: seq<Octet>, b: seq<Octet>)
    ensures CutOff(a + b, b) == a
  {
  }

  lemma DrainBufferKeepsOrder(s: State, n: nat)
    requires n <= |s.out| && InOrder(s)
    ensures InOrder(DrainBuffer(s, n))
  {
    hide InOrder, Drained;
    var t := s.(wire := s.wire + s.out[..n], out := s.out[n..]);
    assert InOrder(t) by { OutMoved(s, n); }
    DrainedInOrder(t);
  }

  lemma DrainFileKeepsOrder(s: State, n: nat)
    requires 0 < n <= |s.fileLeft| && |s.out| == 0 && InOrder(s)
    ensures InOrder(DrainFile(s, n))
  {
    hide InOrder, Drained;
    var t := s.(wire := s.wire + s.fileLeft[..n], fileLeft := s.fileLeft[n..]);
    assert InOrder(t) by { FileMoved(s, n); }
    DrainedInOrder(t);
  }

  lemma OutMoved(s: State, n: nat)
    requires n <= |s.out| && InOrder(s)
    ensures InOrder(s.(wire := s.wire + s.out[..n], out := s.out[n..]))
  {
    Moved(s.wire, s.out, s.fileLeft, n);
  }

  lemma FileMoved(s: State, n: nat)
    requires n <= |s.fileLeft| && |s.out| == 0 && InOrder(s)
    ensures InOrder(s.(wire := s.wire + s.fileLeft[..n], fileLeft := s.fileLeft[n..]))
  {
    Moved(s.wire, s.fileLeft, [], n);
    assert s.wire + s.out + s.fileLeft == s.wire + s.fileLeft + [];
    var w, f := s.wire + s.fileLeft[..n], s.fileLeft[n..];
    assert w + s.out + f == w + f + [];
  }

  lemma DrainedInOrder(t: State)
    ensures InOrder(Drained(t)) <==> InOrder(t)
  {
  }

  // ---------- Whole runs ----------

  ghost predicate IsRun(states: seq<State>, events: seq<Event>) {
    && |states| == |events| + 1 && states[0] == INIT
    && forall i :: 0 <= i < |events| ==> Enabled(states[i], events[i]) && states[i + 1] == Apply(states[i], events[i])
  }

  lemma InitInv()
    ensures Inv(INIT)
  {
  }

  lemma {:induction false} RunInv(states: seq<State>, events: seq<Event>, i: nat)
    requires IsRun(states, events) && i < |states|
    ensures Inv(states[i])
  {
    hide Inv, Apply, Enabled;
    if i == 0 {
      InitInv();
    } else {
      RunInv(states, events, i - 1);
      InvStep(states[i - 1], events[i - 1]);
    }
  }

  // ---------- What a run did, read off its events ----------

  function PhaseAfter(events: seq<Event>): Phase {
    if events == [] then Connecting
    else
      var before := PhaseAfter(events[..|events| - 1]);
      match events[|events| - 1]
      case Establish => Connected
      case Shutdown(_) => if before.Connected? then Disconnecting else before
      case Close => Disconnected
      case _ => before
  }

  /** The messages of other threads that were sent while connected and have not come to the loop thread, in order. */
  function OnTheirWay(events: seq<Event>): seq<seq<Octet>> {
    if events == [] then []
    else
      var before, e := events[..|events| - 1], events[|events| - 1];
      if e.HandOver? && PhaseAfter(before).Connected? then OnTheirWay(before) + [e.data]
      else if e.SendHanded? && OnTheirWay(before) != [] then OnTheirWay(before)[1..]
      else OnTheirWay(before)
  }

  /** shutdownInLoop was handed over and has not run. */
  predicate ShutdownOnItsWay(events: seq<Event>) {
    events != [] &&
    var before, e := events[..|events| - 1], events[|events| - 1];
    (e == Shutdown(false) && PhaseAfter(before).Connected?) || (!e.ShutdownInLoop? && ShutdownOnItsWay(before))
  }

  /** The message that comes to sendInLoop in a step, if one does. */
  function Message(events: seq<Event>, e: Event): Option<seq<Octet>> {
    if e.Send? && PhaseAfter(events).Connected? then Some(e.data)
    else if e.SendHanded? && !PhaseAfter(events).Disconnected? && OnTheirWay(events) != [] then
      Some(OnTheirWay(events)[0])
    else None
  }

  predicate NewFile(events: seq<Event>, e: Event) {
    e.SendFile? && PhaseAfter(events).Connected?
  }

  /** handleWrite finds that sendfile can send no more. */
  predicate FileFails(s: State, e: Event) {
    e.Writable? && s.writing && |s.out| == 0 && IoBytes(e.io) == 0
  }

  /** All messages that came to sendInLoop on an open connection, and all files sent while connected, in order. Only a
      message written directly to a broken connection does not count, and the bytes of a file that a failure cut off. */
  function TakenOn(states: seq<State>, events: seq<Event>): seq<Octet>
    requires |states| >= |events|
    decreases |events|
  {
    if events == [] then []
    else
      var n := |events| - 1;
      var s, e, before := states[n], events[n], TakenOn(states, events[..n]);
      var message := Message(events[..n], e);
      if message.Some? then (if Direct(s) && e.io.Broken? then before else before + message.value)
      else if NewFile(events[..n], e) then before + e.file
      else if FileFails(s, e) then CutOff(before, s.fileLeft)
      else before
  }

  /** What the kernel is asked to take in a step. */
  function OfferedIn(s: State, events: seq<Event>, e: Event): seq<Octet> {
    var message := Message(events, e);
    if message.Some? then (if Direct(s) then message.value else [])
    else if NewFile(events, e) then (if Direct(s) then e.file else [])
    else if e.Writable? && s.writing then (if |s.out| > 0 then s.out else s.fileLeft)
    else []
  }

  /** What the kernel took, by its own account. */
  function SentBytes(states: seq<State>, events: seq<Event>): seq<Octet>
    requires |states| >= |events|
    decreases |events|
  {
    if events == [] then []
    else
      var n := |events| - 1;
      var e, offered := events[n], OfferedIn(states[n], events[..n], events[n]);
      SentBytes(states, events[..n]) +
      (if |offered| > 0 && IoBytes(e.io) <= |offered| then offered[..IoBytes(e.io)] else [])
  }

  /** The exceptions: a message overtakes the rest of a file, a file replaces the rest of another, a file meets a broken
      connection, handleWrite gives up a file when shutdownInLoop has run. */
  predicate OvertakesAt(states: seq<State>, events: seq<Event>, k: nat)
    requires k < |events| <= |states|
  {
    var m := Message(events[..k], events[k]);
    m.Some? && |m.value| > 0 && |states[k].fileLeft| > 0 && !(Direct(states[k]) && events[k].io.Broken?)
  }

  predicate ReplacesAt(states: seq<State>, events: seq<Event>, k: nat)
    requires k < |events| <= |states|
  {
    NewFile(events[..k], events[k]) && |states[k].fileLeft| > 0
  }

  predicate BreaksAt(states: seq<State>, events: seq<Event>, k: nat)
    requires k < |events| <= |states|
  {
    NewFile(events[..k], events[k]) && Direct(states[k]) && events[k].io.Broken?
  }

  predicate StrandsAt(states: seq<State>, events: seq<Event>, k: nat)
    requires k < |events| <= |states|
  {
    FileFails(states[k], events[k]) && PhaseAfter(events[..k]).Disconnecting? && !ShutdownOnItsWay(events[..k])
  }

  /** Phase and hand-off queue are what the events say. */
  predicate Told(s: State, events: seq<Event>) {
    && s.phase == PhaseAfter(events) && s.handed == OnTheirWay(events)
    && (s.shutdownQueued <==> ShutdownOnItsWay(events))
  }

  lemma ToldSnoc(events: seq<Event>, e: Event)
    ensures var t := PhaseAfter(events);
            && PhaseAfter(events + [e]) ==
               (if e.Establish? then Connected else if e.Close? then Disconnected
                else if e.Shutdown? && t.Connected? then Disconnecting else t)
            && OnTheirWay(events + [e]) ==
               (if e.HandOver? && t.Connected? then OnTheirWay(events) + [e.data]
                else if e.SendHanded? && OnTheirWay(events) != [] then OnTheirWay(events)[1..] else OnTheirWay(events))
            && (ShutdownOnItsWay(events + [e]) <==>
                  (e == Shutdown(false) && t.Connected?) || (!e.ShutdownInLoop? && ShutdownOnItsWay(events)))
  {
    assert (events + [e])[..|events|] == events;
  }

  predicate SameHistory(s: State, t: State) {
    && t.accepted == s.accepted && t.wire == s.wire
    && t.overlapped == s.overlapped && t.replaced == s.replaced
    && t.fileBroken == s.fileBroken && t.abandonedClosing == s.abandonedClosing
  }

  lemma SendHistory(s: State, data: seq<Octet>, io: Io)
    requires Possible(io, |data|)
    ensures var t := DoSend(s, data, io);
            if s.phase.Disconnected? || (Direct(s) && io.Broken?) then t == s
            else && t.accepted == s.accepted + data
                 && t.wire == s.wire + (if Direct(s) then data[..IoBytes(io)] else [])
                 && (t.overlapped <==> s.overlapped || (|data| > 0 && |s.fileLeft| > 0))
                 && t.replaced == s.replaced && t.fileBroken == s.fileBroken && t.abandonedClosing == s.abandonedClosing
                 && t.phase == s.phase && t.handed == s.handed && t.shutdownQueued == s.shutdownQueued
  {
  }

  lemma FileHistory(s: State, file: seq<Octet>, io: Io)
    requires Possible(io, |file|)
    ensures var t := DoSendFile(s, file, io);
            if !s.phase.Connected? then t == s
            else && t.accepted == s.accepted + file
                 && t.wire == s.wire + (if Direct(s) then file[..IoBytes(io)] else [])
                 && (t.replaced <==> s.replaced || |s.fileLeft| > 0)
                 && (t.fileBroken <==> s.fileBroken || (Direct(s) && io.Broken?))
                 && t.overlapped == s.overlapped && t.abandonedClosing == s.abandonedClosing
                 && t.phase == s.phase && t.handed == s.handed && t.shutdownQueued == s.shutdownQueued
  {
    hide StartFile, AcceptFile;
    AcceptFileKeeps(s, file);
    if s.phase.Connected? {
      if Direct(s) && io.Broken? {
        assert file[..0] == [] && s.wire + [] == s.wire;
      } else {
        StartFileKeeps(AcceptFile(s, file), file, if Direct(s) then IoBytes(io) else 0);
      }
    }
  }

  lemma AcceptFileKeeps(s: State, file: seq<Octet>)
    ensures var t := AcceptFile(s, file);
            && t.accepted == s.accepted + file && (t.replaced <==> s.replaced || |s.fileLeft| > 0)
            && t.wire == s.wire && t.fileBroken == s.fileBroken && t.overlapped == s.overlapped
            && t.abandonedClosing == s.abandonedClosing
            && t.phase == s.phase && t.handed == s.handed && t.shutdownQueued == s.shutdownQueued
  {
  }

  lemma StartFileKeeps(s: State, file: seq<Octet>, n: nat)
    requires n <= |file|
    ensures var t := StartFile(s, file, n);
            && t.wire == s.wire + file[..n] && SameHistory(s.(wire := t.wire), t)
            && t.phase == s.phase && t.handed == s.handed && t.shutdownQueued == s.shutdownQueued
    ensures file[..0] == []
  {
  }

  lemma WritableHistory(s: State, io: Io)
    requires Possible(io, Offered(s))
    ensures var t, n := DoWritable(s, io), IoBytes(io);
            if !s.writing then t == s
            else if FileFails(s, Writable(io)) then t == GiveUpFile(s)
            else Drains(s, t, if |s.out| > 0 then s.out[..n] else s.fileLeft[..n])
  {
    hide Drains, DrainBuffer, DrainFile, GiveUpFile;
    var n := IoBytes(io);
    if s.writing && |s.out| > 0 {
      DrainBufferDrains(s, n);
    } else if s.writing && n > 0 {
      DrainFileDrains(s, n);
    }
  }

  /** The bytes go to the wire, and nothing is recorded but that. */
  predicate Drains(s: State, t: State, sent: seq<Octet>) {
    && t.wire == s.wire + sent && SameHistory(s.(wire := t.wire), t)
    && t.phase == s.phase && t.handed == s.handed && t.shutdownQueued == s.shutdownQueued
  }

  lemma DrainBufferDrains(s: State, n: nat)
    requires n <= |s.out|
    ensures Drains(s, DrainBuffer(s, n), s.out[..n])
  {
    hide Drained;
    DrainedKeeps(s.(wire := s.wire + s.out[..n], out := s.out[n..]));
  }

  lemma DrainFileDrains(s: State, n: nat)
    requires 0 < n <= |s.fileLeft|
    ensures Drains(s, DrainFile(s, n), s.fileLeft[..n])
  {
    hide Drained;
    DrainedKeeps(s.(wire := s.wire + s.fileLeft[..n], fileLeft := s.fileLeft[n..]));
  }

  lemma DrainedKeeps(s: State)
    ensures var t := Drained(s);
            SameHistory(s, t) && t.phase == s.phase && t.handed == s.handed && t.shutdownQueued == s.shutdownQueued
  {
  }

  lemma ToldStep(s: State, e: Event, events: seq<Event>)
    requires Enabled(s, e) && Told(s, events)
    ensures Told(Apply(s, e), events + [e])
  {
    hide PhaseAfter, OnTheirWay, ShutdownOnItsWay, DoSend, DoSendFile, DoWritable;
    ToldSnoc(events, e);
    match e
    case Send(data, io) => SendHistory(s, data, io);
    case SendHanded(io) => SendHistory(s.(handed := s.handed[1..]), s.handed[0], io);
    case SendFile(file, io) => FileHistory(s, file, io);
    case Writable(io) => WritableHistory(s, io);
    case _ =>
  }

  lemma {:induction false} RunTold(states: seq<State>, events: seq<Event>, i: nat)
    requires IsRun(states, events) && i < |states|
    ensures Told(states[i], events[..i])
  {
    hide Told, Apply, Enabled;
    if i == 0 {
      NothingTold();
      assert events[..0] == [];
    } else {
      RunTold(states, events, i - 1);
      ToldStep(states[i - 1], events[i - 1], events[..i - 1]);
      assert events[..i] == events[..i - 1] + [events[i - 1]];
    }
  }

  lemma NothingTold()
    ensures Told(INIT, [])
  {
  }

  /** What a step adds to the history. */
  predicate Records(s: State, e: Event, events: seq<Event>, t: State) {
    var m, offered := Message(events, e), OfferedIn(s, events, e);
    && t.accepted == (if m.Some? then (if Direct(s) && e.io.Broken? then s.accepted else s.accepted + m.value)
                      else if NewFile(events, e) then s.accepted + e.file
                      else if FileFails(s, e) then CutOff(s.accepted, s.fileLeft) else s.accepted)
    && (if |offered| == 0 then t.wire == s.wire
        else (e.Send? || e.SendHanded? || e.SendFile? || e.Writable?) && IoBytes(e.io) <= |offered|
             && t.wire == s.wire + offered[..IoBytes(e.io)])
  }

  /** Which exceptions it is. */
  predicate Flagged(s: State, e: Event, events: seq<Event>, t: State) {
    var m := Message(events, e);
    && (t.overlapped <==>
          s.overlapped || (m.Some? && |m.value| > 0 && |s.fileLeft| > 0 && !(Direct(s) && e.io.Broken?)))
    && (t.replaced <==> s.replaced || (NewFile(events, e) && |s.fileLeft| > 0))
    && (t.fileBroken <==> s.fileBroken || (NewFile(events, e) && Direct(s) && e.io.Broken?))
    && (t.abandonedClosing <==>
          s.abandonedClosing ||
          (FileFails(s, e) && PhaseAfter(events).Disconnecting? && !ShutdownOnItsWay(events)))
  }

  /** The message that the step brings to sendInLoop. */
  function SentMessage(s: State, e: Event): Option<seq<Octet>>
    requires Enabled(s, e) && (e.Send? || e.SendHanded?)
  {
    if e.Send? then (if s.phase.Connected? then Some(e.data) else None)
    else if s.phase.Disconnected? then None else Some(s.handed[0])
  }

  lemma SendMeans(s: State, e: Event, events: seq<Event>, m: Option<seq<Octet>>)
    requires Enabled(s, e) && Told(s, events)
    requires (e.Send? || e.SendHanded?) && m == SentMessage(s, e)
    ensures Message(events, e) == m && !NewFile(events, e) && !FileFails(s, e)
    ensures OfferedIn(s, events, e) == (if m.Some? && Direct(s) then m.value else [])
  {
    hide PhaseAfter, OnTheirWay, ShutdownOnItsWay;
  }

  lemma SendKeeps(s: State, e: Event)
    requires Enabled(s, e) && (e.Send? || e.SendHanded?)
    ensures var t, m := Apply(s, e), SentMessage(s, e);
            if m.None? || (Direct(s) && e.io.Broken?) then SameHistory(s, t)
            else && t.accepted == s.accepted + m.value
                 && IoBytes(e.io) <= |m.value|
                 && t.wire == s.wire + (if Direct(s) then m.value[..IoBytes(e.io)] else [])
                 && (t.overlapped <==> s.overlapped || (|m.value| > 0 && |s.fileLeft| > 0))
                 && t.replaced == s.replaced && t.fileBroken == s.fileBroken && t.abandonedClosing == s.abandonedClosing
  {
    hide DoSend;
    if e.Send? {
      SendHistory(s, e.data, e.io);
    } else {
      SendHistory(s.(handed := s.handed[1..]), s.handed[0], e.io);
    }
  }

  lemma SendRecords(s: State, e: Event, events: seq<Event>)
    requires Enabled(s, e) && Told(s, events) && (e.Send? || e.SendHanded?)
    ensures Records(s, e, events, Apply(s, e)) && Flagged(s, e, events, Apply(s, e))
  {
    hide PhaseAfter, ShutdownOnItsWay, CutOff, Message, NewFile, FileFails, OfferedIn, Told, Apply, Enabled;
    var m := SentMessage(s, e);
    SendMeans(s, e, events, m);
    SendKeeps(s, e);
  }

  lemma FileRecords(s: State, e: Event, events: seq<Event>)
    requires Enabled(s, e) && Told(s, events) && e.SendFile?
    ensures Records(s, e, events, Apply(s, e)) && Flagged(s, e, events, Apply(s, e))
  {
    hide PhaseAfter, OnTheirWay, ShutdownOnItsWay, CutOff, DoSendFile;
    FileHistory(s, e.file, e.io);
  }

  lemma WritableRecords(s: State, e: Event, events: seq<Event>)
    requires Enabled(s, e) && Told(s, events) && e.Writable?
    ensures Records(s, e, events, Apply(s, e)) && Flagged(s, e, events, Apply(s, e))
  {
    hide PhaseAfter, OnTheirWay, ShutdownOnItsWay, CutOff, DoWritable;
    WritableHistory(s, e.io);
  }

  lemma OthersMeanNothing(s: State, e: Event, events: seq<Event>)
    requires !e.Send? && !e.SendHanded? && !e.SendFile? && !e.Writable?
    ensures Message(events, e).None? && !NewFile(events, e) && !FileFails(s, e) && OfferedIn(s, events, e) == []
  {
  }

  lemma ShutdownKeepsHistory(s: State, inLoop: bool)
    ensures SameHistory(s, DoShutdown(s, inLoop)) && SameHistory(s, DoShutdownInLoop(s))
  {
  }

  lemma OthersKeepHistory(s: State, e: Event)
    requires Enabled(s, e) && !e.Send? && !e.SendHanded? && !e.SendFile? && !e.Writable?
    ensures SameHistory(s, Apply(s, e))
  {
    hide Enabled, DoSend, DoSendFile, DoWritable, DoShutdown, DoShutdownInLoop;
    match e
    case Shutdown(inLoop) => ShutdownKeepsHistory(s, inLoop);
    case ShutdownInLoop => ShutdownKeepsHistory(s.(shutdownQueued := false), true);
    case Close =>
    case Establish =>
    case HandOver(_) =>
  }

  lemma OthersRecordNothing(s: State, e: Event, events: seq<Event>)
    requires Enabled(s, e) && !e.Send? && !e.SendHanded? && !e.SendFile? && !e.Writable?
    ensures Records(s, e, events, Apply(s, e)) && Flagged(s, e, events, Apply(s, e))
  {
    hide PhaseAfter, CutOff, Apply, Enabled, Message, NewFile, FileFails, OfferedIn;
    OthersMeanNothing(s, e, events);
    OthersKeepHistory(s, e);
  }

  lemma HistoryStep(s: State, e: Event, events: seq<Event>)
    requires Enabled(s, e) && Told(s, events)
    ensures Records(s, e, events, Apply(s, e)) && Flagged(s, e, events, Apply(s, e))
  {
    hide Apply, Enabled, Told, Records, Flagged;
    match e
    case Send(_, _) => SendRecords(s, e, events);
    case SendHanded(_) => SendRecords(s, e, events);
    case SendFile(_, _) => FileRecords(s, e, events);
    case Writable(_) => WritableRecords(s, e, events);
    case _ => OthersRecordNothing(s, e, events);
  }

  /** Nothing that is sent is dropped, whatever is buffered or pending, and the wire is what the kernel took. */
  lemma {:induction false} HistoryTold(states: seq<State>, events: seq<Event>, i: nat)
    requires IsRun(states, events) && i < |states|
    ensures states[i].accepted == TakenOn(states, events[..i])
    ensures states[i].wire == SentBytes(states, events[..i])
  {
    hide Apply, Enabled, Told, Message, OfferedIn, NewFile, FileFails, CutOff, Direct;
    if i > 0 {
      HistoryTold(states, events, i - 1);
      RunTold(states, events, i - 1);
      HistoryStep(states[i - 1], events[i - 1], events[..i - 1]);
      assert events[..i][..i - 1] == events[..i - 1];
    }
  }

  /** The exceptions of the state are those of its history. */
  lemma {:induction false} FlagsMean(states: seq<State>, events: seq<Event>, i: nat)
    requires IsRun(states, events) && i < |states|
    ensures states[i].overlapped <==> exists k :: 0 <= k < i && OvertakesAt(states, events, k)
    ensures states[i].replaced <==> exists k :: 0 <= k < i && ReplacesAt(states, events, k)
    ensures states[i].fileBroken <==> exists k :: 0 <= k < i && BreaksAt(states, events, k)
    ensures states[i].abandonedClosing <==> exists k :: 0 <= k < i && StrandsAt(states, events, k)
  {
    hide Apply, Enabled, OvertakesAt, ReplacesAt, BreaksAt, StrandsAt;
    if i > 0 {
      FlagsMean(states, events, i - 1);
      FlagsAt(states, events, i - 1);
    }
  }

  lemma FlagsAt(states: seq<State>, events: seq<Event>, k: nat)
    requires IsRun(states, events) && k < |events|
    ensures var s, t := states[k], states[k + 1];
            && (t.overlapped <==> s.overlapped || OvertakesAt(states, events, k))
            && (t.replaced <==> s.replaced || ReplacesAt(states, events, k))
            && (t.fileBroken <==> s.fileBroken || BreaksAt(states, events, k))
            && (t.abandonedClosing <==> s.abandonedClosing || StrandsAt(states, events, k))
  {
    hide Apply, Enabled, Told, Message, NewFile, FileFails, Direct, PhaseAfter, ShutdownOnItsWay;
    RunTold(states, events, k);
    HistoryStep(states[k], events[k], events[..k]);
  }

  // ---------- The properties ----------

  /** The byte stream: what the kernel took, the buffer and the rest of the file are the messages and files sent, in the
      order in which they came to the loop thread, so the wire always carries a prefix of them - as long as nothing is
      sent while a file is pending. A file that sendfile fails on is cut off where it failed, and the stream goes on
      from there. */
  lemma OutputStream(states: seq<State>, events: seq<Event>, i: nat)
    requires IsRun(states, events) && i < |states|
    requires forall k :: 0 <= k < i ==>
               !OvertakesAt(states, events, k) && !ReplacesAt(states, events, k) && !BreaksAt(states, events, k)
    ensures var s, sent := states[i], TakenOn(states, events[..i]);
            s.wire + s.out + s.fileLeft == sent && s.wire == SentBytes(states, events[..i]) <= sent
  {
    hide TakenOn, SentBytes, OvertakesAt, ReplacesAt, BreaksAt, StrandsAt, Flags;
    RunInv(states, events, i);
    HistoryTold(states, events, i);
    FlagsMean(states, events, i);
  }

  /** Write interest is on exactly while there is something to write. */
  lemma NoForgottenBytesNoBusyLoop(states: seq<State>, events: seq<Event>, i: nat)
    requires IsRun(states, events) && i < |states| && !PhaseAfter(events[..i]).Disconnected?
    requires forall k :: 0 <= k < i ==> !ReplacesAt(states, events, k) && !BreaksAt(states, events, k)
    ensures var s := states[i]; s.writing <==> |s.out| > 0 || |s.fileLeft| > 0
  {
    hide OvertakesAt, ReplacesAt, BreaksAt, StrandsAt, PhaseAfter;
    RunInv(states, events, i);
    RunTold(states, events, i);
    FlagsMean(states, events, i);
  }

  /** The write side is shut down only in half-close and when everything that came to the loop thread is on the wire.
      Messages from other threads may still be on their way there, but never when the step is shutdownInLoop itself. */
  lemma ShutdownOnlyWhenDrained(states: seq<State>, events: seq<Event>, i: nat)
    requires IsRun(states, events) && i < |events|
    requires !states[i].shutDown && states[i + 1].shutDown && !PhaseAfter(events[..i + 1]).Disconnected?
    requires forall k :: 0 <= k <= i ==>
               !OvertakesAt(states, events, k) && !ReplacesAt(states, events, k) && !BreaksAt(states, events, k)
    ensures PhaseAfter(events[..i + 1]).Disconnecting?
    ensures var s := states[i + 1];
            |s.out| == 0 && |s.fileLeft| == 0 && SentBytes(states, events[..i + 1]) == TakenOn(states, events[..i + 1])
    ensures OnTheirWay(events[..i + 1]) != [] ==> events[i].Writable? || events[i] == Shutdown(true)
  {
    hide StreamKept, InOrder, Apply, Enabled, OvertakesAt, ReplacesAt, BreaksAt, StrandsAt, PhaseAfter, TakenOn;
    hide SentBytes, OnTheirWay;
    RunInv(states, events, i + 1);
    RunTold(states, events, i + 1);
    FlagsMean(states, events, i + 1);
    OutputStream(states, events, i + 1);
    ShutdownMeansIdle(states[i], events[i]);
  }

  /** Nothing more can be written, and nothing is. */
  predicate WriteSideClosed(s: State) {
    s.shutDown && !s.writing && |s.out| == 0 && (s.phase.Disconnecting? || s.phase.Disconnected?)
  }

  lemma ClosedStep(s: State, e: Event)
    requires WriteSideClosed(s) && Enabled(s, e)
    ensures var t := Apply(s, e);
            && WriteSideClosed(t) && t.wire == s.wire && t.accepted == s.accepted
            && (s.handed == [] ==> t.handed == [])
  {
    hide StartFile, DrainBuffer, DrainFile, Drained;
    if e.SendHanded? {
      var data := s.handed[0];
      assert |data| == 0 ==> data == [];
      assert Direct(s);
    }
  }

  /** Messages that were still on their way at the shutdown are lost for good, and only those: from then on no byte is
      accepted or written. */
  lemma ShutdownIsFinal(states: seq<State>, events: seq<Event>, i: nat, j: nat)
    requires IsRun(states, events) && i < j < |states|
    requires !states[i].shutDown && states[i + 1].shutDown && !PhaseAfter(events[..i + 1]).Disconnected?
    requires forall k :: 0 <= k <= i ==> !ReplacesAt(states, events, k) && !BreaksAt(states, events, k)
    ensures WriteSideClosed(states[j])
    ensures SentBytes(states, events[..j]) == SentBytes(states, events[..i + 1])
    ensures TakenOn(states, events[..j]) == TakenOn(states, events[..i + 1])
  {
    hide WriteSideClosed, OvertakesAt, ReplacesAt, BreaksAt, StrandsAt, PhaseAfter, TakenOn, SentBytes;
    RunTold(states, events, i + 1);
    FlagsMean(states, events, i + 1);
    HistoryTold(states, events, i + 1);
    HistoryTold(states, events, j);
    StaysClosed(states, events, i, j);
  }

  lemma {:induction false} StaysClosed(states: seq<State>, events: seq<Event>, i: nat, j: nat)
    requires IsRun(states, events) && i < j < |states|
    requires !states[i].shutDown && states[i + 1].shutDown
    requires var s := states[i + 1]; !s.replaced && !s.fileBroken && !s.phase.Disconnected?
    ensures WriteSideClosed(states[j])
    ensures states[j].wire == states[i + 1].wire && states[j].accepted == states[i + 1].accepted
    decreases j
  {
    hide Apply, Enabled, WriteSideClosed, StreamKept;
    if j == i + 1 {
      RunInv(states, events, j);
      ShutdownMeansIdle(states[i], events[i]);
      ShutIsClosed(states[j]);
    } else {
      StaysClosed(states, events, i, j - 1);
      ClosedStep(states[j - 1], events[j - 1]);
    }
  }

  lemma ShutIsClosed(s: State)
    requires Flags(s) && s.shutDown && !s.writing && !s.replaced && !s.fileBroken && !s.phase.Disconnected?
    ensures WriteSideClosed(s)
  {
  }

  lemma ShutdownMeansIdle(s: State, e: Event)
    requires Enabled(s, e) && !s.shutDown && Apply(s, e).shutDown
    ensures !Apply(s, e).writing
    ensures Apply(s, e).handed != [] ==> e.Writable? || e == Shutdown(true)
  {
    hide DoSend, DoSendFile, DoWritable;
    match e
    case Send(data, io) => if s.phase.Connected? { SendDoesNotShutDown(s, data, io); }
    case SendHanded(io) => SendDoesNotShutDown(s.(handed := s.handed[1..]), s.handed[0], io);
    case SendFile(file, io) => SendFileDoesNotShutDown(s, file, io);
    case Writable(io) => WritableShutsDownIdle(s, io);
    case _ =>
  }

  lemma SendDoesNotShutDown(s: State, data: seq<Octet>, io: Io)
    requires Possible(io, |data|)
    ensures DoSend(s, data, io).shutDown == s.shutDown
  {
  }

  lemma SendFileDoesNotShutDown(s: State, file: seq<Octet>, io: Io)
    requires Possible(io, |file|)
    ensures DoSendFile(s, file, io).shutDown == s.shutDown
  {
  }

  lemma WritableShutsDownIdle(s: State, io: Io)
    requires Enabled(s, Writable(io))
    ensures DoWritable(s, io).shutDown ==> s.shutDown || !DoWritable(s, io).writing
  {
    hide Drained;
    var n := IoBytes(io);
    if s.writing && |s.out| > 0 {
      DrainedIsIdle(s.(wire := s.wire + s.out[..n], out := s.out[n..]));
    } else if s.writing && n > 0 {
      DrainedIsIdle(s.(wire := s.wire + s.fileLeft[..n], fileLeft := s.fileLeft[n..]));
    }
  }

  lemma DrainedIsIdle(t: State)
    ensures !Drained(t).writing
  {
  }

  /** And it is shut down: in half-close, with shutdownInLoop behind it and nothing left to write, shutdownWrite has
      been called, unless handleWrite gave up a file in that time. */
  lemma HalfCloseHappens(states: seq<State>, events: seq<Event>, i: nat)
    requires IsRun(states, events) && i < |states|
    requires PhaseAfter(events[..i]).Disconnecting? && !ShutdownOnItsWay(events[..i])
    requires |states[i].out| == 0 && |states[i].fileLeft| == 0
    requires forall k :: 0 <= k < i ==>
               !ReplacesAt(states, events, k) && !BreaksAt(states, events, k) && !StrandsAt(states, events, k)
    ensures states[i].shutDown
  {
    hide OvertakesAt, ReplacesAt, BreaksAt, StrandsAt, PhaseAfter, ShutdownOnItsWay;
    RunInv(states, events, i);
    RunTold(states, events, i);
    FlagsMean(states, events, i);
  }

  /** handleWrite gives up the file in half-close, when shutdownInLoop has run and found the connection writing. */
  predicate GivesUpClosing(s: State, e: Event) {
    && s.phase.Disconnecting? && !s.shutdownQueued && !s.shutDown
    && s.writing && |s.out| == 0 && e.Writable? && IoBytes(e.io) == 0
  }

  /** The message did not go out whole. */
  predicate LeavesRest(s: State, e: Event)
    requires Enabled(s, e)
  {
    e.SendHanded? && Apply(s, e).writing
  }

  /** After that the only thing left to happen is that a message on its way from another thread is buffered. */
  predicate GivenUp(s: State, buffered: bool) {
    && (s.phase.Disconnecting? || s.phase.Disconnected?) && !s.shutdownQueued && |s.fileLeft| == 0
    && (s.writing ==> buffered && |s.out| > 0)
    && (s.shutDown ==> buffered)
    && (buffered && s.phase.Disconnecting? ==> s.writing || s.shutDown)
    && (!buffered ==> |s.out| == 0)
  }

  lemma GivenUpStep(s: State, e: Event, buffered: bool)
    requires GivenUp(s, buffered) && Enabled(s, e)
    ensures GivenUp(Apply(s, e), buffered || LeavesRest(s, e))
  {
    hide StartFile, DrainFile;
    match e
    case Writable(_) =>
    case SendHanded(_) =>
    case _ =>
  }

  lemma {:induction false} GivenUpRun(states: seq<State>, events: seq<Event>, i: nat, j: nat) returns (buffered: bool)
    requires IsRun(states, events) && i < j < |states| && GivesUpClosing(states[i], events[i])
    ensures GivenUp(states[j], buffered)
    ensures buffered <==> exists k :: i < k < j && LeavesRest(states[k], events[k])
    decreases j
  {
    hide Apply, GivenUp, LeavesRest, Enabled;
    if j == i + 1 {
      buffered := false;
      GivingUp(states[i], events[i]);
    } else {
      var before := GivenUpRun(states, events, i, j - 1);
      GivenUpStep(states[j - 1], events[j - 1], before);
      buffered := before || LeavesRest(states[j - 1], events[j - 1]);
    }
  }

  lemma GivingUp(s: State, e: Event)
    requires Enabled(s, e) && GivesUpClosing(s, e)
    ensures GivenUp(Apply(s, e), false)
  {
  }

  /** The exception is real, and final but for one way out: once a file is given up in half-close, a connection that
      is still half-closing with nothing to write has been shut down if and only if since then a message that another
      thread had sent before the half-close was buffered. */
  lemma FailedFileShutdownIff(states: seq<State>, events: seq<Event>, i: nat, j: nat)
    requires IsRun(states, events) && i < j < |states| && GivesUpClosing(states[i], events[i])
    requires states[j].phase.Disconnecting? && !states[j].writing
    ensures states[j].shutDown <==> exists k :: i < k < j && LeavesRest(states[k], events[k])
  {
    hide Apply, Enabled;
    var buffered := GivenUpRun(states, events, i, j);
  }

  lemma StaysClosedStep(s: State, e: Event)
    requires Enabled(s, e) && s.phase.Disconnected? && !s.writing
    ensures var t := Apply(s, e);
            t.phase.Disconnected? && !t.writing && t.wire == s.wire && t.accepted == s.accepted
  {
    hide DoSend, DoSendFile, DoWritable, DoShutdown, DoShutdownInLoop;
    match e
    case SendHanded(io) => SendHistory(s.(handed := s.handed[1..]), s.handed[0], io);
    case SendFile(file, io) => FileHistory(s, file, io);
    case Writable(io) => WritableHistory(s, io);
    case Shutdown(inLoop) => ShutdownOfClosed(s, inLoop);
    case ShutdownInLoop => ShutdownOfClosed(s.(shutdownQueued := false), true);
    case _ =>
  }

  lemma ShutdownOfClosed(s: State, inLoop: bool)
    requires s.phase.Disconnected? && !s.writing
    ensures DoShutdown(s, inLoop) == s
    ensures var t := DoShutdownInLoop(s);
            t.phase.Disconnected? && !t.writing && t.wire == s.wire && t.accepted == s.accepted
  {
  }

  /** Once the connection is closed, whatever comes to the loop thread is dropped and nothing is written. */
  lemma {:induction false} NothingAfterClose(states: seq<State>, events: seq<Event>, i: nat, j: nat)
    requires IsRun(states, events) && i < j < |states| && events[i].Close?
    ensures PhaseAfter(events[..j]).Disconnected? && !states[j].writing
    ensures SentBytes(states, events[..j]) == SentBytes(states, events[..i])
    ensures TakenOn(states, events[..j]) == TakenOn(states, events[..i])
    decreases j
  {
    hide Apply, Enabled, SentBytes, TakenOn, PhaseAfter;
    HistoryTold(states, events, j);
    HistoryTold(states, events, j - 1);
    RunTold(states, events, j);
    RunTold(states, events, j - 1);
    if j == i + 1 {
      CloseStops(states[i]);
    } else {
      NothingAfterClose(states, events, i, j - 1);
      StaysClosedStep(states[j - 1], events[j - 1]);
    }
  }

  lemma CloseStops(s: State)
    requires Enabled(s, Close)
    ensures var t := Apply(s, Close);
            t.phase.Disconnected? && !t.writing && t.wire == s.wire && t.accepted == s.accepted
  {
  }

  /** A new file takes the place of what was pending, less what the kernel took at once; on a broken connection it stays
      pending whole, and write interest as it was. */
  lemma FileTakesOver(states: seq<State>, events: seq<Event>, k: nat)
    requires IsRun(states, events) && k < |events| && NewFile(events[..k], events[k])
    ensures var s, t, e := states[k], states[k + 1], events[k];
            && IoBytes(e.io) <= |e.file|
            && t.fileLeft == (if Direct(s) then e.file[IoBytes(e.io)..] else e.file)
            && t.out == s.out
            && (Direct(s) && e.io.Broken? ==> !t.writing)
  {
    hide PhaseAfter, AcceptFile;
    RunTold(states, events, k);
    AcceptFileIsPlain(states[k], events[k].file);
  }

  lemma AcceptFileIsPlain(s: State, file: seq<Octet>)
    ensures var t := AcceptFile(s, file);
            t.fileLeft == s.fileLeft && t.out == s.out && t.writing == s.writing && t.phase == s.phase
  {
  }

  /** Accepting a message keeps the stream in call order exactly when swapping it with the rest of the pending file
      makes no difference: it goes out first. */
  lemma SendDuringFileIff(s: State, data: seq<Octet>, io: Io)
    requires InOrder(s) && Possible(io, |data|) && !s.phase.Disconnected? && (Direct(s) ==> !io.Broken?)
    ensures InOrder(DoSend(s, data, io)) <==> data + s.fileLeft == s.fileLeft + data
  {
    var t := DoSend(s, data, io);
    var sent := s.wire + s.out;
    SentInOrder(s.wire, s.out, [], data, if Direct(s) then IoBytes(io) else 0);
    assert t.wire + t.out == sent + data by {
      assert t.wire + t.out == t.wire + t.out + [] && sent + [] == sent;
    }
    assert t.wire + t.out + t.fileLeft == sent + (data + s.fileLeft);
    assert t.accepted == sent + (s.fileLeft + data);
    SamePrefix(sent, data + s.fileLeft, s.fileLeft + data);
  }

  lemma SamePrefix(p: seq<Octet>, x: seq<Octet>, y: seq<Octet>)
    ensures p + x == p + y <==> x == y
  {
    assert (p + x)[|p|..] == x && (p + y)[|p|..] == y;
  }

  /** Accepting a file while another is pending loses the rest of the first, always. */
  lemma FileDuringFileIff(s: State, file: seq<Octet>, io: Io)
    requires InOrder(s) && s.phase.Connected? && Enabled(s, SendFile(file, io)) && (Direct(s) ==> !io.Broken?)
    ensures InOrder(Apply(s, SendFile(file, io))) <==> |s.fileLeft| == 0
  {
    if |s.fileLeft| == 0 {
      SendFileKeepsOrder(s, file, io);
    }
  }

  // ---------- Runs that show the exceptions ----------

  ghost predicate Reachable(s: State) {
    exists states: seq<State>, events: seq<Event> :: IsRun(states, events) && states[|events|] == s
  }

  lemma ReachableStep(s: State, e: Event)
    requires Reachable(s) && Enabled(s, e)
    ensures Reachable(Apply(s, e))
  {
    hide Enabled, Apply;
    var states: seq<State>, events: seq<Event> :| IsRun(states, events) && states[|events|] == s;
    assert IsRun(states + [Apply(s, e)], events + [e]);
  }

  /** An established connection. */
  const ESTABLISHED := INIT.(phase := Connected)

  /** With a file of two bytes pending. */
  const SENDING_FILE := ESTABLISHED.(fileLeft := ['1', '2'], writing := true, accepted := ['1', '2'])

  lemma SendingFile()
    ensures Reachable(ESTABLISHED) && Reachable(SENDING_FILE)
  {
    hide Reachable;
    assert Reachable(INIT) by { EmptyRun(); }
    ReachableStep(INIT, Establish);
    ReachableStep(ESTABLISHED, SendFile(['1', '2'], WouldBlock));
    assert ['1', '2'][..0] == [] && ['1', '2'][0..] == ['1', '2'];
    assert Apply(ESTABLISHED, SendFile(['1', '2'], WouldBlock)) == SENDING_FILE;
  }

  lemma EmptyRun()
    ensures Reachable(INIT)
  {
    assert IsRun([INIT], []);
  }

  /** A message overtakes a file; a file replaces another; a file is given up in half-close; a message is still on its
      way to the loop thread when handleWrite carries out the half-close. */
  lemma ExceptionsHappen()
    ensures exists s :: Reachable(s) && s.overlapped && !InOrder(s)
    ensures exists s :: Reachable(s) && s.replaced && !InOrder(s)
    ensures exists s, e :: Reachable(s) && Enabled(s, e) && GivesUpClosing(s, e)
    ensures exists s :: Reachable(s) && s.shutDown && s.handed == [['4']] && s.wire == ['3']
  {
    hide Reachable, Inv;
    MessageOvertakesFile();
    FileReplacesFile();
    FileGivenUp();
    HandedMessageLost();
  }

  lemma MessageOvertakesFile()
    ensures exists s :: Reachable(s) && s.overlapped && !InOrder(s)
  {
    hide Reachable;
    SendingFile();
    var e := Send(['3'], WouldBlock);
    ReachableStep(SENDING_FILE, e);
    var t := Apply(SENDING_FILE, e);
    assert t.wire + t.out + t.fileLeft == ['3', '1', '2'] && t.accepted == ['1', '2', '3'];
    assert ['3', '1', '2'][0] == '3';
  }

  lemma FileReplacesFile()
    ensures exists s :: Reachable(s) && s.replaced && !InOrder(s)
  {
    hide Reachable;
    SendingFile();
    var e := SendFile(['3'], WouldBlock);
    ReachableStep(SENDING_FILE, e);
    var t := Apply(SENDING_FILE, e);
    assert |t.wire + t.out + t.fileLeft| == 1 && |t.accepted| == 3;
  }

  lemma FileGivenUp()
    ensures exists s, e :: Reachable(s) && Enabled(s, e) && GivesUpClosing(s, e)
  {
    hide Reachable;
    SendingFile();
    var closing := SENDING_FILE.(phase := Disconnecting, shutdownQueued := true);
    ReachableStep(SENDING_FILE, Shutdown(false));
    assert Apply(SENDING_FILE, Shutdown(false)) == closing;
    ReachableStep(closing, ShutdownInLoop);
    assert GivesUpClosing(Apply(closing, ShutdownInLoop), Writable(OtherError));
  }

  lemma HandedMessageLost()
    ensures exists s :: Reachable(s) && s.shutDown && s.handed == [['4']] && s.wire == ['3']
  {
    hide Reachable;
    SendingFile();
    var buffered := ESTABLISHED.(out := ['3'], writing := true, accepted := ['3']);
    ReachableStep(ESTABLISHED, Send(['3'], WouldBlock));
    assert ['3'][..0] == [] && ['3'][0..] == ['3'];
    assert Apply(ESTABLISHED, Send(['3'], WouldBlock)) == buffered;
    ReachableStep(buffered, HandOver(['4']));
    var handed := buffered.(handed := [['4']]);
    assert Apply(buffered, HandOver(['4'])) == handed;
    ReachableStep(handed, Shutdown(false));
    var closing := handed.(phase := Disconnecting, shutdownQueued := true);
    ReachableStep(closing, Writable(Wrote(1)));
    var t := Apply(closing, Writable(Wrote(1)));
    assert t.shutDown && t.handed == [['4']] && t.wire == ['3'];
  }

  // ---------- The object ----------

  /** The connection's output fields; methods run on the loop thread. What a system call returned is a parameter. */
  class Connection {
    var state: Phase
    const outputBuffer: Buffer
    var writing: bool               // the channel's interest in writability
    var fileLeft: seq<Octet>        // sendFd_ and sendLen_: the bytes still to be sent from the file
    var handed: seq<seq<Octet>>     // the loop's queue of messages from other threads
    var shutdownQueued: bool
    var shutDown: bool
    ghost var rest: State           // the fields of the view that the object does not have

    ghost predicate Valid()
      reads this, outputBuffer
    {
      outputBuffer.Valid()
    }

    ghost function View(): State
      requires Valid()
      reads this, outputBuffer
    {
      rest.(phase := state, out := outputBuffer.Readable(), writing := writing, fileLeft := fileLeft, handed := handed,
            shutdownQueued := shutdownQueued, shutDown := shutDown)
    }

    constructor ()
      ensures Valid() && fresh(outputBuffer) && View() == INIT
    {
      state, writing, fileLeft, handed, shutdownQueued, shutDown := Connecting, false, [], [], false, false;
      outputBuffer := new Buffer(INITIAL_SIZE);
      rest := INIT;
    }

    /** `send` on the loop thread. */
    method SendHere(data: seq<Octet>, io: Io)
      requires Valid() && Enabled(View(), Send(data, io))
      modifies this, outputBuffer
      ensures Valid() && View() == Apply(old(View()), Send(data, io))
    {
      hide DoSend;
      if state.Connected? {
        SendInLoop(data, io);
      }
    }

    /** `send` on another thread. */
    method HandToLoop(data: seq<Octet>)
      requires Valid()
      modifies this`handed
      ensures Valid() && View() == Apply(old(View()), HandOver(data))
    {
      if state.Connected? {
        handed := handed + [data];
      }
    }

    /** The loop thread takes the first message handed over. */
    method RunHanded(io: Io)
      requires Valid() && Enabled(View(), SendHanded(io))
      modifies this, outputBuffer
      ensures Valid() && View() == Apply(old(View()), SendHanded(io))
    {
      hide DoSend;
      var data := handed[0];
      handed := handed[1..];
      SendInLoop(data, io);
    }

    method SendInLoop(data: seq<Octet>, io: Io)
      requires Valid() && Possible(io, |data|)
      modifies this, outputBuffer
      ensures Valid() && View() == DoSend(old(View()), data, io)
    {
      hide StartMessage, Accept;
      if state.Disconnected? {
        return;
      }
      var direct := !writing && outputBuffer.ReadableBytes() == 0;
      if direct && io.Broken? {
        return;
      }
      RecordMessage(data);
      TransferMessage(data, if direct then IoBytes(io) else 0);
    }

    ghost method RecordMessage(data: seq<Octet>)
      requires Valid()
      modifies this`rest
      ensures Valid() && View() == Accept(old(View()), data)
    {
      rest := rest.(accepted := rest.accepted + data, overlapped := rest.overlapped || (|data| > 0 && |fileLeft| > 0));
    }

    method TransferMessage(data: seq<Octet>, nwrote: nat)
      requires Valid() && nwrote <= |data|
      modifies this`rest, this`writing, outputBuffer
      ensures Valid() && View() == StartMessage(old(View()), data, nwrote)
    {
      rest := rest.(wire := rest.wire + data[..nwrote]);
      var remaining := |data| - nwrote;
      if remaining > 0 {
        outputBuffer.Append(data[nwrote..]);
        if !writing {
          writing := true;
        }
      }
    }

    ghost method RecordFile(file: seq<Octet>)
      requires Valid()
      modifies this`rest
      ensures Valid() && View() == AcceptFile(old(View()), file)
    {
      rest := rest.(accepted := rest.accepted + file, replaced := rest.replaced || |fileLeft| > 0);
    }

    method SendFileInLoop(file: seq<Octet>, io: Io)
      requires Valid() && Enabled(View(), SendFile(file, io))
      modifies this
      ensures Valid() && View() == Apply(old(View()), SendFile(file, io))
    {
      hide StartFile, AcceptFile;
      if !state.Connected? {
        return;
      }
      RecordFile(file);
      var direct := !writing && outputBuffer.ReadableBytes() == 0;
      if direct && io.Broken? {
        fileLeft := file;
        rest := rest.(fileBroken := true);
      } else {
        TransferFile(file, if direct then IoBytes(io) else 0);
      }
    }

    method TransferFile(file: seq<Octet>, nwrote: nat)
      requires Valid() && nwrote <= |file|
      modifies this`rest, this`fileLeft, this`writing
      ensures Valid() && View() == StartFile(old(View()), file, nwrote)
    {
      rest := rest.(wire := rest.wire + file[..nwrote]);
      fileLeft := file[nwrote..];
      if |fileLeft| > 0 {
        if !writing {
          writing := true;
        }
      }
    }

    method HandleWrite(io: Io)
      requires Valid() && Enabled(View(), Writable(io))
      modifies this, outputBuffer
      ensures Valid() && View() == Apply(old(View()), Writable(io))
    {
      hide Drained, DrainBuffer, DrainFile, GiveUpFile;
      if writing {
        if outputBuffer.ReadableBytes() > 0 {
          WriteBuffer(IoBytes(io));
        } else if IoBytes(io) > 0 {
          WriteFile(IoBytes(io));
        } else {
          AbandonFile();
        }
      }
    }

    /** sendfile failed: no more of this file, and no look at the state. */
    method AbandonFile()
      requires Valid()
      modifies this`rest, this`fileLeft, this`writing
      ensures Valid() && View() == GiveUpFile(old(View()))
    {
      hide CutOff;
      ghost var stranded := rest.abandonedClosing || (state.Disconnecting? && !shutdownQueued);
      ghost var history := rest.(accepted := CutOff(rest.accepted, fileLeft), abandonedClosing := stranded);
      fileLeft, writing, rest := [], false, history;
    }

    method WriteBuffer(n: nat)
      requires Valid() && n <= |outputBuffer.Readable()|
      modifies this, outputBuffer
      ensures Valid() && View() == DrainBuffer(old(View()), n)
    {
      hide Drained;
      rest := rest.(wire := rest.wire + outputBuffer.Readable()[..n]);
      outputBuffer.Retrieve(n);
      if n > 0 && outputBuffer.ReadableBytes() == 0 && |fileLeft| == 0 {
        StopWriting();
      }
    }

    method WriteFile(n: nat)
      requires Valid() && 0 < n <= |fileLeft|
      modifies this
      ensures Valid() && View() == DrainFile(old(View()), n)
    {
      hide Drained;
      rest := rest.(wire := rest.wire + fileLeft[..n]);
      fileLeft := fileLeft[n..];
      if |fileLeft| == 0 {
        StopWriting();
      }
    }

    /** Disable writing, then carry out a waiting half-close. */
    method StopWriting()
      requires Valid()
      modifies this`writing, this`shutDown
      ensures Valid() && View() == Drained(old(View()))
    {
      writing := false;
      if state.Disconnecting? {
        ShutdownNow();
      }
    }

    method ShutdownNow()
      requires Valid()
      modifies this`shutDown
      ensures Valid() && View() == DoShutdownInLoop(old(View()))
    {
      if !writing {
        shutDown := true;
      }
    }

    /** `shutdown`. */
    method RequestShutdown(inLoop: bool)
      requires Valid()
      modifies this`state, this`shutdownQueued, this`shutDown
      ensures Valid() && View() == Apply(old(View()), Shutdown(inLoop))
    {
      if state.Connected? {
        state := Disconnecting;
        if inLoop {
          ShutdownNow();
        } else {
          shutdownQueued := true;
        }
      }
    }

    /** `shutdownInLoop`, as handed over. */
    method RunShutdown()
      requires Valid() && Enabled(View(), ShutdownInLoop)
      modifies this`shutdownQueued, this`shutDown
      ensures Valid() && View() == Apply(old(View()), ShutdownInLoop)
    {
      shutdownQueued := false;
      ShutdownNow();
    }

    method HandleClose()
      requires Valid() && Enabled(View(), Close)
      modifies this
      ensures Valid() && View() == Apply(old(View()), Close)
    {
      state := Disconnected;
      writing := false;
    }
  }
}
