/**
  What every step of a shell session keeps, and what that says about whole runs.
 */
module ShellInvariants {
  import opened Basics
  import opened Base64
  import opened ShellSession

  predicate Unique<M(==)>(s: seq<M>, m: M) {
    forall i, j :: 0 <= i < j < |s| && s[i] == m ==> s[j] != m
  }

  lemma UniqueGrows<M>(s: seq<M>, t: seq<M>, m: M)
    requires Unique(s, m) && |t| <= 1 && (m in t ==> m !in s)
    ensures Unique(s + t, m)
    ensures m in s + t <==> m in s || m in t
  {
  }

  lemma Slices<M>(s: seq<M>, t: seq<M>)
    ensures forall k :: 0 <= k <= |s| ==> (s + t)[..k] == s[..k]
  {
  }

  // The Server's end alone

  ghost predicate ServerInv(s: Server) {
    && (s.opener.NotStarted? ==> s == NEW_SERVER)
    && s.sends == (if s.openOnce.Used? then 1 else 0)
    && |s.result| <= s.sends
    && s.runs == (if s.closeOnce.Idle? then 0 else 1)
    && (s.inMap ==> !s.opener.Unregistered? && !s.opener.Failed? && s.killer.Away?)
    && (s.closeOnce.AtPipe? || s.closeOnce.Done? || s.pipeClosed ==> !s.inMap)
    && (!s.closer.Holding? ==> s.opener.Succeeded?)
    && (s.closer.Returned? || s.killer.Gone? ==> s.closeOnce.Done?)
    && (s.opener.Failed? ==> s.pipeClosed)
    && (s.closeOnce.Done? ==> s.pipeClosed)
  }

  lemma OpenShellKeeps(a: ServerAct, s: Server, broken: bool)
    requires ServerInv(s) && OpenShell(a, s, broken).Moved?
    ensures ServerInv(OpenShell(a, s, broken).next)
  {
  }

  lemma RunTeardownKeeps(a: ServerAct, s: Server, broken: bool)
    requires ServerInv(s) && RunTeardown(a, s, broken).Moved?
    ensures ServerInv(RunTeardown(a, s, broken).next)
  {
  }

  lemma FailOpenKeeps(a: ServerAct, s: Server)
    requires ServerInv(s) && FailOpen(a, s).Moved?
    ensures ServerInv(FailOpen(a, s).next)
  {
  }

  lemma ReadLoopKeeps(a: ServerAct, s: Server)
    requires ServerInv(s) && ReadLoop(a, s).Moved?
    ensures ServerInv(ReadLoop(a, s).next)
  {
  }

  lemma ShutdownKeeps(a: ServerAct, s: Server)
    requires ServerInv(s) && Shutdown(a, s).Moved?
    ensures ServerInv(Shutdown(a, s).next)
  {
  }

  lemma UseHandleKeeps(a: ServerAct, s: Server, broken: bool)
    requires ServerInv(s) && UseHandle(a, s, broken).Moved?
    ensures ServerInv(UseHandle(a, s, broken).next)
  {
  }

  lemma ServerKeeps(a: ServerAct, s: Server, broken: bool)
    requires ServerInv(s) && ServerNext(a, s, broken).Moved?
    ensures ServerInv(ServerNext(a, s, broken).next)
  {
    hide ServerInv, OpenShell, RunTeardown, FailOpen, ReadLoop, Shutdown, UseHandle;
    match a {
      case BeginTeardown | TeardownNext => RunTeardownKeeps(a, s, broken);
      case ClaimReader | ClaimKiller | SendResult => FailOpenKeeps(a, s);
      case Receive(_) | ReaderSignalled | ReaderTornDown | CheckClosed | DeliverSome(_) | DeliverFails =>
        ReadLoopKeeps(a, s);
      case Collect | KillerSignalled | KillerDone => ShutdownKeeps(a, s);
      case CheckInput(_) | CheckResize | WriteUser | CallClose | CloseReturns => UseHandleKeeps(a, s, broken);
      case _ => OpenShellKeeps(a, s, broken);
    }
  }

  // The Server's wire

  predicate InRange(x: Session) {
    x.downAt <= |x.down| && x.upAt <= |x.up|
  }

  /** What the Server may have put on the wire; `killed` says that a shutdown took the session. */
  ghost predicate DownWire(down: seq<ServerMsg>, killed: bool) {
    && Unique(down, Open) && Unique(down, Close)
    && (forall i :: 0 <= i < |down| && (down[i].Input? || down[i].Resize?) ==> Open in down[..i])
    && (forall i :: 0 <= i < |down| && down[i].Close? && Open !in down[..i] ==> killed)
  }

  lemma DownAppend(down: seq<ServerMsg>, m: ServerMsg, killed: bool)
    requires DownWire(down, killed)
    requires m.Open? || m.Close? ==> m !in down
    requires m.Input? || m.Resize? ==> Open in down
    requires m.Close? && Open !in down ==> killed
    ensures DownWire(down + [m], killed)
    ensures forall k :: k in down + [m] <==> k in down || k == m
  {
    UniqueGrows(down, [m], Open);
    UniqueGrows(down, [m], Close);
    Slices(down, [m]);
  }

  ghost predicate DownInv(x: Session) {
    var s := x.server;
    && DownWire(x.down, !s.killer.Away?)
    && (s.opener in {NotStarted, Registered, WriteFailed, Unregistered} ==> Open !in x.down)
    && (s.opener in {Waiting, Closing, Succeeded} ==> Open in x.down)
    && (s.closeOnce in {CloseOnce.Idle, AtChan, AtWrite} ==> Close !in x.down)
    && (s.closeOnce in {AtRemove, AtPipe, CloseOnce.Done} ==> x.downBroken || Close in x.down)
    && (Open !in x.down ==> x.up == [] && s.reader.Free? && (s.closeOnce.Idle? || !s.killer.Away?))
  }

  // The Agent's end and its wire

  /** Nothing happened on the Agent yet, except that all shells were swept. */
  predicate Untouched(g: Agent) {
    g.(swept := false) == NEW_AGENT
  }

  /** `asked`: the Agent has read the session's `shell_open`. */
  ghost predicate AgentInv(g: Agent, asked: bool, up: seq<AgentMsg>, broken: bool) {
    && (!asked ==> Untouched(g) && up == [])
    && (g.handler in {Listening, Inserting} && !g.inserted ==> Untouched(g.(handler := Listening)))
    && (g.handler.Inserting? ==> !g.inserted && up == [])
    && (g.handler in {Announcing, Aborting} ==> g.inserted && g.pump.Off?)
    && (g.handler.Aborting? ==> broken)
    && (g.inMap <==> g.inserted && g.winner.Nobody?)
    && (!g.winner.Nobody? ==> g.inserted)
    && (g.winner.Notifying? || g.winner == Ending(true) ==> !g.pump.Off?)
    && (g.pump.Off? <==> g.waiter.Unborn?)
    && (!g.pump.Off? ==> g.inserted && (g.handler.Listening? || g.handler.Feeding?))
    && (g.inserted && g.pump.Off? ==> up == [] && (g.handler in {Announcing, Aborting} || !g.inMap))
    && (g.handler.Feeding? ==> !g.pump.Off?)
  }

  /** What the Agent may have put on the wire about one session. */
  ghost predicate UpWire(g: Agent, up: seq<AgentMsg>) {
    && Unique(up, Opened) && Unique(up, Closed)
    && (!g.pump.Off? <==> Opened in up)
    && (g.pump.Off? ==> up == [] || (up == [Error] && !g.inserted))
    && (!g.pump.Off? ==> up[0] == Opened && Error !in up)
    && (Closed in up ==> g.winner.Ended?)
  }

  ghost predicate UpInv(x: Session) {
    && InRange(x)
    && AgentInv(x.agent, Open in x.down[..x.downAt], x.up, x.upBroken)
    && UpWire(x.agent, x.up)
  }

  // Output bytes

  function DataOf(m: AgentMsg): seq<byte> {
    if m.Data? && StdDecode(m.text).Some? then StdDecode(m.text).value else []
  }

  function Payload(up: seq<AgentMsg>): seq<byte> {
    if up == [] then [] else Payload(up[..|up| - 1]) + DataOf(up[|up| - 1])
  }

  /** Bytes the pump has read and not yet put on the wire. */
  function Held(p: Pump): seq<byte> {
    if p.Full? then p.chunk else []
  }

  /** Bytes the read loop has taken off the wire and may still hand to the pipe. */
  function InHand(s: Server): seq<byte> {
    match s.reader
    case Check(bytes) => if ChanClosed(s) then [] else bytes
    case Deliver(bytes) => bytes
    case _ => []
  }

  predicate Accepting(s: Server) {
    s.inMap && !ChanClosed(s)
  }

  /** Everything on the wire is a chunk the pump read, in order; only a broken wire loses the tail. */
  ghost predicate PumpInv(g: Agent, up: seq<AgentMsg>, broken: bool) {
    && (forall m :: m in up && m.Data? ==> StdDecode(m.text).Some?)
    && Payload(up) <= g.read
    && (!broken ==> Payload(up) + Held(g.pump) == g.read)
  }

  /** What reached the reader is a prefix of what was taken off the wire, all of it while accepting. */
  ghost predicate PipeInv(s: Server, taken: seq<byte>) {
    && s.out + InHand(s) <= taken
    && (Accepting(s) ==> s.out + InHand(s) == taken)
  }

  ghost predicate DataInv(x: Session) {
    && InRange(x)
    && PumpInv(x.agent, x.up, x.upBroken)
    && PipeInv(x.server, Payload(x.up[..x.upAt]))
  }

  // The close handshake

  ghost predicate CloseAfterOpen(down: seq<ServerMsg>) {
    exists j :: 0 <= j < |down| && down[j].Close? && Open in down[..j]
  }

  /** Why a session is gone from the Agent's map, in terms of what the Agent has read and written. */
  ghost predicate AgentEnd(g: Agent, heard: seq<ServerMsg>, up: seq<AgentMsg>, broken: bool) {
    && (CloseAfterOpen(heard) ==> !g.inMap && (g.handler.Listening? || g.handler.Feeding?))
    && (g.inserted && !g.inMap && !g.swept && !broken ==>
          CloseAfterOpen(heard) || g.winner in {Ending(true), Notifying} || Closed in up)
  }

  /** Why a session is gone from the Server's map, and why `OpenShell` may have succeeded. */
  ghost predicate ServerEnd(s: Server, taken: seq<AgentMsg>, broken: bool) {
    && (Closed in taken || Error in taken ==> !s.inMap)
    && (!s.opener.NotStarted? && !s.inMap && !broken && s.closeOnce.Idle? ==>
          s.reader == Signal(false) || s.reader.Teardown? || s.killer in {Signalling, Killing})
    && (s.opener in {WriteFailed, Unregistered} ==> broken)
    && (s.opener.Failed? && s.closeOnce.Idle? ==> broken)
    && (s.opener.Succeeded? || true in s.result || s.openOnce == Sending(true) || s.reader == Signal(true) ==>
          Opened in taken)
  }

  ghost predicate HandshakeInv(x: Session) {
    && InRange(x)
    && AgentEnd(x.agent, x.down[..x.downAt], x.up, x.upBroken)
    && ServerEnd(x.server, x.up[..x.upAt], x.downBroken)
  }

  // Every step keeps them

  ghost predicate Inv(x: Session) {
    ServerInv(x.server) && InRange(x) && DownInv(x) && UpInv(x) && DataInv(x) && HandshakeInv(x)
  }

  /** `y` is `x` after a step of the Server's end that read nothing. */
  ghost predicate ServerMoved(x: Session, y: Session, r: Outcome<Server, ServerMsg>) {
    r.Moved? && y == x.(server := r.next, down := x.down + Sent(r.sent))
  }

  lemma OpenShellKeepsDown(b: ServerAct, x: Session, y: Session)
    requires ServerInv(x.server) && DownInv(x) && ServerMoved(x, y, OpenShell(b, x.server, x.downBroken))
    ensures DownInv(y)
  {
    hide DownWire;
    if |y.down| > |x.down| {
      DownAppend(x.down, Open, !x.server.killer.Away?);
    } else {
      assert y.down == x.down;
    }
  }

  lemma TeardownKeepsDown(b: ServerAct, x: Session, y: Session)
    requires ServerInv(x.server) && DownInv(x) && ServerMoved(x, y, RunTeardown(b, x.server, x.downBroken))
    ensures DownInv(y)
  {
    hide DownWire;
    if |y.down| > |x.down| {
      DownAppend(x.down, Close, !x.server.killer.Away?);
    } else {
      assert y.down == x.down;
    }
  }

  lemma UseHandleKeepsDown(b: ServerAct, x: Session, y: Session)
    requires ServerInv(x.server) && DownInv(x) && ServerMoved(x, y, UseHandle(b, x.server, x.downBroken))
    ensures DownInv(y)
  {
    hide DownWire;
    if |y.down| > |x.down| {
      var w := x.server.writer;
      DownAppend(x.down, if w.Typing? then Input(StdEncode(w.bytes)) else Resize, !x.server.killer.Away?);
    } else {
      assert y.down == x.down;
    }
  }

  lemma FailOpenKeepsDown(b: ServerAct, x: Session, y: Session)
    requires ServerInv(x.server) && DownInv(x) && ServerMoved(x, y, FailOpen(b, x.server))
    ensures DownInv(y)
  {
    hide DownWire;
    assert y.down == x.down;
  }

  lemma ShutdownKeepsDown(b: ServerAct, x: Session, y: Session)
    requires ServerInv(x.server) && DownInv(x) && ServerMoved(x, y, Shutdown(b, x.server))
    ensures DownInv(y)
  {
    assert y.down == x.down;
  }

  lemma ReadLoopKeepsDown(b: ServerAct, x: Session, y: Session)
    requires InRange(x) && DownInv(x) && Step(OnServer(b), x, y) && ReadLoop(b, x.server).Moved?
    ensures DownInv(y)
  {
    hide DownWire, StdDecode;
    assert y.down == x.down;
  }

  lemma HandleKeeps(a: AgentAct, g: Agent, asked: bool, up: seq<AgentMsg>, broken: bool)
    requires AgentInv(g, asked, up, broken) && UpWire(g, up) && Handle(a, g, broken).Moved?
    requires a.Take? && a.msg.Open? ==> !asked
    ensures var r := Handle(a, g, broken);
            && AgentInv(r.next, asked || (a.Take? && a.msg.Open?), up + Sent(r.sent), broken)
            && UpWire(r.next, up + Sent(r.sent))
  {
    var r := Handle(a, g, broken);
    UniqueGrows(up, Sent(r.sent), Opened);
    UniqueGrows(up, Sent(r.sent), Closed);
  }

  lemma RunSessionKeeps(a: AgentAct, g: Agent, asked: bool, up: seq<AgentMsg>, broken: bool)
    requires AgentInv(g, asked, up, broken) && UpWire(g, up) && RunSession(a, g, broken).Moved?
    ensures var r := RunSession(a, g, broken);
            AgentInv(r.next, asked, up + Sent(r.sent), broken) && UpWire(r.next, up + Sent(r.sent))
  {
    hide StdEncode;
    var r := RunSession(a, g, broken);
    UniqueGrows(up, Sent(r.sent), Opened);
    UniqueGrows(up, Sent(r.sent), Closed);
  }

  lemma AskedNow(x: Session, m: ServerMsg)
    requires InRange(x) && Unique(x.down, Open) && x.downAt < |x.down| && x.down[x.downAt] == m
    ensures Open in x.down[..x.downAt + 1] <==> Open in x.down[..x.downAt] || m.Open?
    ensures m.Open? ==> Open !in x.down[..x.downAt]
  {
    assert x.down[..x.downAt + 1] == x.down[..x.downAt] + [m];
  }

  lemma AgentKeepsUp(b: AgentAct, x: Session, y: Session)
    requires InRange(x) && DownInv(x) && UpInv(x) && Step(OnAgent(b), x, y)
    ensures UpInv(y)
  {
    hide AgentInv, UpWire, Handle, RunSession;
    var asked := Open in x.down[..x.downAt];
    if b.Take? {
      AskedNow(x, b.msg);
    }
    if b in {Insert, Announce, Abort, FeedOk} || b.FeedFails? || b.Take? {
      HandleKeeps(b, x.agent, asked, x.up, x.upBroken);
    } else {
      RunSessionKeeps(b, x.agent, asked, x.up, x.upBroken);
    }
  }

  lemma ServerKeepsUp(b: ServerAct, x: Session, y: Session)
    requires InRange(x) && UpInv(x) && Step(OnServer(b), x, y)
    ensures UpInv(y)
  {
    hide AgentInv, UpWire, ServerNext;
    Slices(x.down, Sent(ServerNext(b, x.server, x.downBroken).sent));
  }

  lemma PayloadAppend(up: seq<AgentMsg>, m: AgentMsg)
    ensures Payload(up + [m]) == Payload(up) + DataOf(m)
  {
    assert (up + [m])[..|up|] == up;
  }

  lemma {:induction false} PayloadPrefix(up: seq<AgentMsg>, k: nat)
    requires k <= |up|
    ensures Payload(up[..k]) <= Payload(up)
    decreases |up|
  {
    if k < |up| {
      PayloadPrefix(up[..|up| - 1], k);
      assert up[..|up| - 1][..k] == up[..k];
    } else {
      assert up[..k] == up;
    }
  }

  lemma HandleKeepsPump(b: AgentAct, g: Agent, up: seq<AgentMsg>, broken: bool)
    requires PumpInv(g, up, broken) && Handle(b, g, broken).Moved?
    requires g.handler.Announcing? ==> g.pump.Off?
    ensures var r := Handle(b, g, broken); PumpInv(r.next, up + Sent(r.sent), broken)
  {
    hide StdDecode, Payload;
    var r := Handle(b, g, broken);
    assert Held(r.next.pump) == Held(g.pump) && r.next.read == g.read;
    if r.sent.Some? {
      PayloadAppend(up, r.sent.value);
    } else {
      assert up + Sent(r.sent) == up;
    }
  }

  lemma RunSessionKeepsPump(b: AgentAct, g: Agent, up: seq<AgentMsg>, broken: bool)
    requires PumpInv(g, up, broken) && RunSession(b, g, broken).Moved?
    ensures var r := RunSession(b, g, broken); PumpInv(r.next, up + Sent(r.sent), broken)
  {
    hide StdDecode, StdEncode, Payload;
    var r := RunSession(b, g, broken);
    if g.pump.Full? {
      StdRoundTrip(g.pump.chunk);
    }
    if r.sent.Some? {
      PayloadAppend(up, r.sent.value);
    } else {
      assert up + Sent(r.sent) == up;
    }
  }

  lemma ReceiveKeepsPipe(m: AgentMsg, s: Server, taken: seq<byte>)
    requires PipeInv(s, taken) && s.reader.Free?
    requires m.Data? ==> StdDecode(m.text).Some?
    ensures PipeInv(HandleMessage(m, s), taken + DataOf(m))
  {
    hide StdDecode;
  }

  lemma ReadLoopKeepsPipe(b: ServerAct, s: Server, taken: seq<byte>)
    requires PipeInv(s, taken) && ReadLoop(b, s).Moved? && !b.Receive?
    requires s.pipeClosed ==> !s.inMap
    ensures PipeInv(ReadLoop(b, s).next, taken)
  {
    if b.DeliverSome? {
      assert s.reader.bytes == s.reader.bytes[..b.k] + s.reader.bytes[b.k..];
    }
  }

  lemma OthersLeavePipe(b: ServerAct, s: Server, broken: bool)
    requires ServerNext(b, s, broken).Moved? && ReadLoop(b, s).Blocked?
    ensures var t := ServerNext(b, s, broken).next;
            && t.out == s.out && t.reader == s.reader && (ChanClosed(s) ==> ChanClosed(t))
            && (t.inMap ==> s.inMap || s.opener.NotStarted?)
  {
  }

  lemma PipeFrame(s: Server, t: Server, taken: seq<byte>)
    requires ServerInv(s) && PipeInv(s, taken) && (s.opener.NotStarted? ==> taken == [])
    requires t.out == s.out && t.reader == s.reader && (ChanClosed(s) ==> ChanClosed(t))
    requires t.inMap ==> s.inMap || s.opener.NotStarted?
    ensures PipeInv(t, taken)
  {
  }

  lemma ServerKeepsData(b: ServerAct, x: Session, y: Session)
    requires ServerInv(x.server) && DownInv(x) && DataInv(x) && Step(OnServer(b), x, y)
    ensures DataInv(y)
  {
    hide PipeInv, Payload, ReadLoop, OpenShell, RunTeardown, FailOpen, Shutdown, UseHandle, DownWire;
    var s, taken := x.server, Payload(x.up[..x.upAt]);
    if b.Receive? {
      assert y.up[..y.upAt] == x.up[..x.upAt] + [b.msg];
      PayloadAppend(x.up[..x.upAt], b.msg);
      ReceiveStep(b.msg, s);
      ReceiveKeepsPipe(b.msg, s, taken);
    } else if ReadLoop(b, s).Moved? {
      ReadLoopOnly(b, s, x.downBroken);
      ReadLoopKeepsPipe(b, s, taken);
    } else {
      OthersLeavePipe(b, s, x.downBroken);
      assert x.up == [] ==> taken == [] by { PayloadOfNothing(); }
      PipeFrame(s, y.server, taken);
    }
  }

  lemma PayloadOfNothing()
    ensures Payload([]) == []
  {
  }

  lemma ReceiveStep(m: AgentMsg, s: Server)
    requires ReadLoop(Receive(m), s).Moved?
    ensures s.reader.Free? && ReadLoop(Receive(m), s).next == HandleMessage(m, s)
  {
  }

  lemma ReadLoopOnly(b: ServerAct, s: Server, broken: bool)
    requires ReadLoop(b, s).Moved?
    ensures ServerNext(b, s, broken) == ReadLoop(b, s)
  {
  }

  lemma HandleOnly(b: AgentAct, g: Agent, broken: bool)
    requires Handle(b, g, broken).Moved?
    ensures AgentNext(b, g, broken) == Handle(b, g, broken)
  {
  }

  lemma HandleBlocked(b: AgentAct, g: Agent, broken: bool)
    requires Handle(b, g, broken).Blocked? && AgentNext(b, g, broken).Moved?
    ensures AgentNext(b, g, broken) == RunSession(b, g, broken)
  {
  }

  lemma AgentKeepsData(b: AgentAct, x: Session, y: Session)
    requires UpInv(x) && DataInv(x) && Step(OnAgent(b), x, y)
    ensures DataInv(y)
  {
    hide PipeInv, PumpInv, Payload, Handle, RunSession, UpWire;
    if Handle(b, x.agent, x.upBroken).Moved? {
      HandleOnly(b, x.agent, x.upBroken);
      HandleKeepsPump(b, x.agent, x.up, x.upBroken);
    } else {
      HandleBlocked(b, x.agent, x.upBroken);
      RunSessionKeepsPump(b, x.agent, x.up, x.upBroken);
    }
    Slices(x.up, Sent(AgentNext(b, x.agent, x.upBroken).sent));
  }

  lemma HeardMore(heard: seq<ServerMsg>, m: ServerMsg)
    ensures CloseAfterOpen(heard + [m]) <==> CloseAfterOpen(heard) || (m.Close? && Open in heard)
  {
    var t := heard + [m];
    Slices(heard, [m]);
    if CloseAfterOpen(heard) {
      var j :| 0 <= j < |heard| && heard[j].Close? && Open in heard[..j];
      assert t[j].Close? && Open in t[..j];
    }
    if m.Close? && Open in heard {
      assert t[|heard|].Close? && t[..|heard|] == heard;
    }
  }

  lemma TakeKeepsEnd(b: AgentAct, g: Agent, heard: seq<ServerMsg>, up: seq<AgentMsg>, broken: bool)
    requires AgentInv(g, Open in heard, up, broken) && AgentEnd(g, heard, up, broken)
    requires b.Take? && AgentNext(b, g, broken).Moved? && (b.msg.Open? ==> Open !in heard)
    ensures var r := AgentNext(b, g, broken); AgentEnd(r.next, heard + [b.msg], up + Sent(r.sent), broken)
  {
    hide CloseAfterOpen;
    HeardMore(heard, b.msg);
    assert CloseAfterOpen(heard) ==> Open in heard by {
      NoCloseAfterNothing(heard);
    }
  }

  lemma NoCloseAfterNothing(heard: seq<ServerMsg>)
    ensures CloseAfterOpen(heard) ==> Open in heard
  {
  }

  lemma AgentActKeepsEnd(b: AgentAct, g: Agent, heard: seq<ServerMsg>, up: seq<AgentMsg>, broken: bool)
    requires AgentInv(g, Open in heard, up, broken) && AgentEnd(g, heard, up, broken)
    requires !b.Take? && AgentNext(b, g, broken).Moved?
    ensures var r := AgentNext(b, g, broken); AgentEnd(r.next, heard, up + Sent(r.sent), broken)
  {
    hide CloseAfterOpen, StdEncode;
  }

  lemma AgentKeepsHandshake(b: AgentAct, x: Session, y: Session)
    requires DownInv(x) && UpInv(x) && HandshakeInv(x) && Step(OnAgent(b), x, y)
    ensures HandshakeInv(y)
  {
    hide AgentInv, AgentEnd, ServerEnd, UpWire, AgentNext;
    var heard := x.down[..x.downAt];
    Slices(x.up, Sent(AgentNext(b, x.agent, x.upBroken).sent));
    if b.Take? {
      AskedNow(x, b.msg);
      assert y.down[..y.downAt] == heard + [b.msg];
      TakeKeepsEnd(b, x.agent, heard, x.up, x.upBroken);
    } else {
      AgentActKeepsEnd(b, x.agent, heard, x.up, x.upBroken);
    }
  }

  lemma ReceiveKeepsEnd(m: AgentMsg, s: Server, taken: seq<AgentMsg>, broken: bool)
    requires ServerInv(s) && ServerEnd(s, taken, broken) && s.reader.Free?
    ensures ServerEnd(HandleMessage(m, s), taken + [m], broken)
  {
    hide StdDecode;
  }

  lemma OpenShellKeepsEnd(b: ServerAct, s: Server, taken: seq<AgentMsg>, broken: bool)
    requires ServerInv(s) && ServerEnd(s, taken, broken) && OpenShell(b, s, broken).Moved?
    requires s.opener.NotStarted? ==> taken == []
    ensures ServerEnd(OpenShell(b, s, broken).next, taken, broken)
  {
  }

  lemma TeardownKeepsEnd(b: ServerAct, s: Server, taken: seq<AgentMsg>, broken: bool)
    requires ServerInv(s) && ServerEnd(s, taken, broken) && RunTeardown(b, s, broken).Moved?
    ensures ServerEnd(RunTeardown(b, s, broken).next, taken, broken)
  {
  }

  lemma FailOpenKeepsEnd(b: ServerAct, s: Server, taken: seq<AgentMsg>, broken: bool)
    requires ServerInv(s) && ServerEnd(s, taken, broken) && FailOpen(b, s).Moved?
    ensures ServerEnd(FailOpen(b, s).next, taken, broken)
  {
  }

  lemma ReadLoopKeepsEnd(b: ServerAct, s: Server, taken: seq<AgentMsg>, broken: bool)
    requires ServerInv(s) && ServerEnd(s, taken, broken) && ReadLoop(b, s).Moved? && !b.Receive?
    ensures ServerEnd(ReadLoop(b, s).next, taken, broken)
  {
  }

  lemma ShutdownKeepsEnd(b: ServerAct, s: Server, taken: seq<AgentMsg>, broken: bool)
    requires ServerInv(s) && ServerEnd(s, taken, broken) && Shutdown(b, s).Moved?
    ensures ServerEnd(Shutdown(b, s).next, taken, broken)
  {
  }

  lemma UseHandleKeepsEnd(b: ServerAct, s: Server, taken: seq<AgentMsg>, broken: bool)
    requires ServerInv(s) && ServerEnd(s, taken, broken) && UseHandle(b, s, broken).Moved?
    ensures ServerEnd(UseHandle(b, s, broken).next, taken, broken)
  {
  }

  lemma ServerKeepsHandshake(b: ServerAct, x: Session, y: Session)
    requires ServerInv(x.server) && DownInv(x) && HandshakeInv(x) && Step(OnServer(b), x, y)
    ensures HandshakeInv(y)
  {
    hide ServerInv, AgentEnd, ServerEnd, OpenShell, RunTeardown, FailOpen, ReadLoop, Shutdown, UseHandle, DownWire;
    var s, taken, broken := x.server, x.up[..x.upAt], x.downBroken;
    Slices(x.down, Sent(ServerNext(b, s, broken).sent));
    match b {
      case Receive(m) =>
        assert y.up[..y.upAt] == taken + [m];
        ReceiveStep(m, s);
        ReceiveKeepsEnd(m, s, taken, broken);
      case BeginTeardown | TeardownNext => TeardownKeepsEnd(b, s, taken, broken);
      case ClaimReader | ClaimKiller | SendResult => FailOpenKeepsEnd(b, s, taken, broken);
      case ReaderSignalled | ReaderTornDown | CheckClosed | DeliverSome(_) | DeliverFails =>
        ReadLoopKeepsEnd(b, s, taken, broken);
      case Collect | KillerSignalled | KillerDone => ShutdownKeepsEnd(b, s, taken, broken);
      case CheckInput(_) | CheckResize | WriteUser | CallClose | CloseReturns => UseHandleKeepsEnd(b, s, taken, broken);
      case _ => OpenShellKeepsEnd(b, s, taken, broken);
    }
  }

  lemma AgentKeepsDown(b: AgentAct, x: Session, y: Session)
    requires DownInv(x) && InRange(y) && UpInv(y) && Step(OnAgent(b), x, y)
    ensures DownInv(y)
  {
    hide DownWire, AgentNext;
  }

  lemma ServerKeepsDown(b: ServerAct, x: Session, y: Session)
    requires InRange(x) && ServerInv(x.server) && DownInv(x) && Step(OnServer(b), x, y)
    ensures DownInv(y)
  {
    hide ServerInv, DownInv, OpenShell, RunTeardown, FailOpen, ReadLoop, Shutdown, UseHandle;
    match b {
      case BeginTeardown | TeardownNext => TeardownKeepsDown(b, x, y);
      case ClaimReader | ClaimKiller | SendResult => FailOpenKeepsDown(b, x, y);
      case Receive(_) | ReaderSignalled | ReaderTornDown | CheckClosed | DeliverSome(_) | DeliverFails =>
        ReadLoopKeepsDown(b, x, y);
      case Collect | KillerSignalled | KillerDone => ShutdownKeepsDown(b, x, y);
      case CheckInput(_) | CheckResize | WriteUser | CallClose | CloseReturns => UseHandleKeepsDown(b, x, y);
      case _ => OpenShellKeepsDown(b, x, y);
    }
  }

  lemma BreakKeepsInv(x: Session, y: Session)
    requires Inv(x) && (y == x.(downBroken := true) || y == x.(upBroken := true))
    ensures Inv(y)
  {
    hide DownWire, UpWire, Payload, CloseAfterOpen;
  }

  /** Every step of either end, and every failure of the connection, keeps the invariant. */
  lemma StepKeepsInv(a: Act, x: Session, y: Session)
    requires Inv(x) && Step(a, x, y)
    ensures Inv(y)
  {
    match a {
      case OnServer(b) => ServerStepKeepsInv(b, x, y);
      case OnAgent(b) => AgentStepKeepsInv(b, x, y);
      case _ => BreakKeepsInv(x, y);
    }
  }

  lemma ServerStepKeepsInv(b: ServerAct, x: Session, y: Session)
    requires Inv(x) && Step(OnServer(b), x, y)
    ensures Inv(y)
  {
    hide ServerInv, DownInv, UpInv, DataInv, HandshakeInv, ServerNext;
    ServerKeeps(b, x.server, x.downBroken);
    ServerKeepsDown(b, x, y);
    ServerKeepsUp(b, x, y);
    ServerKeepsData(b, x, y);
    ServerKeepsHandshake(b, x, y);
  }

  lemma AgentStepKeepsInv(b: AgentAct, x: Session, y: Session)
    requires Inv(x) && Step(OnAgent(b), x, y)
    ensures Inv(y)
  {
    hide ServerInv, DownInv, UpInv, DataInv, HandshakeInv, AgentNext;
    AgentKeepsUp(b, x, y);
    AgentKeepsDown(b, x, y);
    AgentKeepsData(b, x, y);
    AgentKeepsHandshake(b, x, y);
  }
}
