/**
  A shell session comes to rest: whatever the order of the steps, each of them uses up a bounded supply, and until
  both ends are at rest some step is possible.
 */
module ShellProgress {
  import opened Basics
  import opened Base64
  import opened ShellSession
  import opened ShellInvariants
  import opened ShellRuns

  // What a message on the wire still costs

  /** Enough for the Agent to start a shell, or for any smaller thing the Server may ask. */
  const ASK := 9

  function Cost(m: AgentMsg): nat {
    5 + |DataOf(m)|
  }

  function CostOf(up: seq<AgentMsg>): nat {
    if up == [] then 0 else CostOf(up[..|up| - 1]) + Cost(up[|up| - 1])
  }

  function CostSent(m: Option<AgentMsg>): nat {
    if m.Some? then Cost(m.value) else 0
  }

  lemma CostAppend(up: seq<AgentMsg>, m: Option<AgentMsg>)
    ensures CostOf(up + Sent(m)) == CostOf(up) + CostSent(m)
  {
    hide Cost;
    if m.Some? {
      assert (up + [m.value])[..|up|] == up;
    } else {
      assert up + [] == up;
    }
  }

  lemma {:induction false} CostGrows(up: seq<AgentMsg>, k: nat)
    requires k <= |up|
    ensures CostOf(up[..k]) <= CostOf(up)
    decreases |up|
  {
    if k == |up| {
      assert up[..k] == up;
    } else {
      CostGrows(up[..|up| - 1], k);
      assert up[..|up| - 1][..k] == up[..k];
    }
  }

  // What each end may still do

  function OpenerFuel(o: Opener): nat {
    match o
    case NotStarted => ASK + 5
    case Registered => ASK + 4
    case WriteFailed => 2
    case Unregistered => 1
    case Waiting => 2
    case Closing => 1
    case _ => 0
  }

  function CloseFuel(c: CloseOnce): nat {
    match c
    case Idle => ASK + 5
    case AtChan => ASK + 4
    case AtWrite => ASK + 3
    case AtRemove => 2
    case AtPipe => 1
    case Done => 0
  }

  function ReaderFuel(r: Reader): nat {
    match r
    case Free => 0
    case Signal(_) => 3
    case Teardown => 2
    case Check(bytes) => 4 + |bytes|
    case Deliver(bytes) => 3 + |bytes|
  }

  function SignalFuel(o: OpenOnce): nat {
    match o case Unused => 2 case Sending(_) => 1 case Used => 0
  }

  function KillerFuel(k: Killer): nat {
    match k case Away => 3 case Signalling => 2 case Killing => 1 case Gone => 0
  }

  function WriterFuel(w: Writer): nat {
    if w.Quiet? then 0 else ASK + 1
  }

  function CloserFuel(c: Closer): nat {
    match c case Holding => 2 case Calling => 1 case Returned => 0
  }

  function ServerFuel(s: Server): nat {
    OpenerFuel(s.opener) + CloseFuel(s.closeOnce) + ReaderFuel(s.reader) + SignalFuel(s.openOnce)
    + KillerFuel(s.killer) + WriterFuel(s.writer) + CloserFuel(s.closer)
  }

  function HandlerFuel(h: Handler): nat {
    match h case Listening => 0 case Feeding(_) => 1 case Inserting => 7 case Announcing => 6 case Aborting => 1
  }

  function WinnerFuel(w: Winner): nat {
    match w case Nobody => 8 case Ending(_) => 7 case Notifying => 6 case Ended => 0
  }

  function WaiterFuel(w: Waiter): nat {
    match w case Unborn => 2 case Watching => 1 case Finished => 0
  }

  function PumpFuel(p: Pump): nat {
    match p case Off => 4 case Reading => 3 case Full(chunk, _) => 9 + |chunk| case AtEnd => 2 case Stopped => 0
  }

  function AgentFuel(g: Agent): nat {
    HandlerFuel(g.handler) + WinnerFuel(g.winner) + WaiterFuel(g.waiter) + PumpFuel(g.pump)
  }

  function Fuel(x: Session): int
    requires InRange(x)
  {
    ServerFuel(x.server) + AgentFuel(x.agent) + ASK * (|x.down| - x.downAt) + CostOf(x.up) - CostOf(x.up[..x.upAt])
  }

  /** Output of the PTY, typing at the Portal: what a session is for, and what may go on as long as it is open. */
  predicate IsUse(a: Act) {
    (a.OnAgent? && a.a.ReadChunk?) || (a.OnServer? && (a.s.CheckInput? || a.s.CheckResize?))
  }

  /** A delivery makes progress if it delivers a byte or had none to deliver. */
  predicate Delivers(a: ServerAct, s: Server) {
    a.DeliverSome? && s.reader.Deliver? ==> a.k > 0 || s.reader.bytes == []
  }

  /** A step of the code that is not use of the session, and neither a sweep nor a delivery of nothing. */
  predicate IsWork(a: Act, x: Session) {
    match a
    case OnServer(b) => !IsUse(a) && Delivers(b, x.server)
    case OnAgent(b) => !IsUse(a) && !b.Sweep?
    case _ => false
  }

  // Every step uses fuel

  function AskSent(m: Option<ServerMsg>): nat {
    if m.Some? then ASK else 0
  }

  lemma OpenShellBurns(a: ServerAct, s: Server, broken: bool)
    requires OpenShell(a, s, broken).Moved?
    ensures var r := OpenShell(a, s, broken); ServerFuel(r.next) + AskSent(r.sent) < ServerFuel(s)
  {
    hide CloseFuel, ReaderFuel, SignalFuel, KillerFuel, WriterFuel, CloserFuel;
  }

  lemma RunTeardownBurns(a: ServerAct, s: Server, broken: bool)
    requires RunTeardown(a, s, broken).Moved?
    ensures var r := RunTeardown(a, s, broken); ServerFuel(r.next) + AskSent(r.sent) < ServerFuel(s)
  {
    hide OpenerFuel, ReaderFuel, SignalFuel, KillerFuel, WriterFuel, CloserFuel, WantsTeardown;
  }

  lemma FailOpenBurns(a: ServerAct, s: Server)
    requires FailOpen(a, s).Moved?
    ensures ServerFuel(FailOpen(a, s).next) < ServerFuel(s) && FailOpen(a, s).sent.None?
  {
    hide OpenerFuel, CloseFuel, ReaderFuel, KillerFuel, WriterFuel, CloserFuel;
  }

  lemma ShutdownBurns(a: ServerAct, s: Server)
    requires Shutdown(a, s).Moved?
    ensures ServerFuel(Shutdown(a, s).next) < ServerFuel(s) && Shutdown(a, s).sent.None?
  {
    hide OpenerFuel, CloseFuel, ReaderFuel, SignalFuel, WriterFuel, CloserFuel;
  }

  lemma UseHandleBurns(a: ServerAct, s: Server, broken: bool)
    requires UseHandle(a, s, broken).Moved? && !a.CheckInput? && !a.CheckResize?
    ensures var r := UseHandle(a, s, broken); ServerFuel(r.next) + AskSent(r.sent) < ServerFuel(s)
  {
    hide OpenerFuel, CloseFuel, ReaderFuel, SignalFuel, KillerFuel;
  }

  lemma ReadLoopBurns(a: ServerAct, s: Server)
    requires ReadLoop(a, s).Moved? && !a.Receive?
    ensures ReadLoop(a, s).sent.None? && ServerFuel(ReadLoop(a, s).next) <= ServerFuel(s)
    ensures Delivers(a, s) ==> ServerFuel(ReadLoop(a, s).next) < ServerFuel(s)
  {
    hide OpenerFuel, CloseFuel, SignalFuel, KillerFuel, WriterFuel, CloserFuel, ChanClosed;
  }

  lemma ReceiveBurns(m: AgentMsg, s: Server)
    requires s.reader.Free?
    ensures ServerFuel(HandleMessage(m, s)) < ServerFuel(s) + Cost(m)
  {
    hide StdDecode, OpenerFuel, CloseFuel, SignalFuel, KillerFuel, WriterFuel, CloserFuel;
  }

  lemma HandleBurns(a: AgentAct, g: Agent, broken: bool)
    requires Handle(a, g, broken).Moved? && (g.inMap ==> g.winner.Nobody?)
    requires a == Announce ==> g.pump.Off? && g.waiter.Unborn?
    ensures var r := Handle(a, g, broken);
            AgentFuel(r.next) + CostSent(r.sent) < AgentFuel(g) + (if a.Take? then ASK else 0)
  {
    hide StdDecode;
  }

  lemma ChunkCost(chunk: seq<byte>)
    ensures Cost(Data(StdEncode(chunk))) == 5 + |chunk|
  {
    StdRoundTrip(chunk);
    hide StdEncode, StdDecode;
  }

  lemma SendChunkIs(g: Agent, broken: bool)
    requires g.pump.Full?
    ensures RunSession(SendChunk, g, broken)
            == Moved(g.(pump := if g.pump.last then AtEnd else Reading), Put(broken, Data(StdEncode(g.pump.chunk))))
  {
    hide StdEncode;
  }

  lemma SendChunkBurns(g: Agent, broken: bool)
    requires g.pump.Full?
    ensures var r := RunSession(SendChunk, g, broken); r.Moved? && AgentFuel(r.next) + CostSent(r.sent) < AgentFuel(g)
  {
    hide StdEncode, RunSession, Cost, HandlerFuel, WinnerFuel, WaiterFuel;
    SendChunkIs(g, broken);
    ChunkCost(g.pump.chunk);
  }

  lemma RunSessionBurns(a: AgentAct, g: Agent, broken: bool)
    requires RunSession(a, g, broken).Moved? && !a.ReadChunk? && (g.inMap ==> g.winner.Nobody?)
    ensures var r := RunSession(a, g, broken);
            if a.Sweep? then AgentFuel(r.next) <= AgentFuel(g) && r.sent.None?
            else AgentFuel(r.next) + CostSent(r.sent) < AgentFuel(g)
  {
    if a.SendChunk? {
      SendChunkBurns(g, broken);
    } else {
      hide StdEncode, StdDecode, HandlerFuel;
    }
  }

  lemma AgentParts(g: Agent, asked: bool, up: seq<AgentMsg>, broken: bool)
    requires AgentInv(g, asked, up, broken)
    ensures g.inMap ==> g.winner.Nobody?
    ensures g.handler.Announcing? ==> g.pump.Off? && g.waiter.Unborn?
  {
  }

  lemma AgentBurns(b: AgentAct, x: Session, y: Session)
    requires UpInv(x) && Step(OnAgent(b), x, y) && !b.ReadChunk?
    ensures InRange(y) && if b.Sweep? then Fuel(y) <= Fuel(x) else Fuel(y) < Fuel(x)
  {
    hide AgentInv, UpWire, AgentFuel, ServerFuel, Handle, RunSession, CostOf;
    var r := AgentNext(b, x.agent, x.upBroken);
    AgentParts(x.agent, Open in x.down[..x.downAt], x.up, x.upBroken);
    CostAppend(x.up, r.sent);
    Slices(x.up, Sent(r.sent));
    if Handle(b, x.agent, x.upBroken).Moved? {
      HandleOnly(b, x.agent, x.upBroken);
      AnnounceIsHandled(b, x.agent, x.upBroken);
      HandleBurns(b, x.agent, x.upBroken);
    } else {
      HandleBlocked(b, x.agent, x.upBroken);
      RunSessionBurns(b, x.agent, x.upBroken);
    }
  }

  lemma AnnounceIsHandled(b: AgentAct, g: Agent, broken: bool)
    requires Handle(b, g, broken).Moved?
    ensures b == Announce ==> g.handler.Announcing?
    ensures !b.Sweep?
  {
  }

  lemma ServerBurns(b: ServerAct, x: Session, y: Session)
    requires InRange(x) && Step(OnServer(b), x, y) && !b.Receive? && !b.CheckInput? && !b.CheckResize?
    ensures InRange(y) && Fuel(y) <= Fuel(x) && (Delivers(b, x.server) ==> Fuel(y) < Fuel(x))
  {
    hide AgentFuel, ServerFuel, OpenShell, RunTeardown, FailOpen, ReadLoop, Shutdown, UseHandle, CostOf, Delivers;
    var s, broken := x.server, x.downBroken;
    match b {
      case BeginTeardown | TeardownNext => RunTeardownBurns(b, s, broken);
      case ClaimReader | ClaimKiller | SendResult => FailOpenBurns(b, s);
      case ReaderSignalled | ReaderTornDown | CheckClosed | DeliverSome(_) | DeliverFails => ReadLoopBurns(b, s);
      case Collect | KillerSignalled | KillerDone => ShutdownBurns(b, s);
      case WriteUser | CallClose | CloseReturns => UseHandleBurns(b, s, broken);
      case _ => OpenShellBurns(b, s, broken);
    }
  }

  lemma TakenCost(up: seq<AgentMsg>, k: nat)
    requires k < |up|
    ensures CostOf(up[..k + 1]) == CostOf(up[..k]) + Cost(up[k])
  {
    assert up[..k + 1][..k] == up[..k];
  }

  lemma ReceivingBurns(m: AgentMsg, x: Session, y: Session)
    requires InRange(x) && Step(OnServer(Receive(m)), x, y)
    ensures InRange(y) && Fuel(y) < Fuel(x)
  {
    hide AgentFuel, ServerFuel, HandleMessage, CostOf, Cost;
    ReceiveStep(m, x.server);
    TakenCost(x.up, x.upAt);
    ReceiveBurns(m, x.server);
  }

  /** Work uses up fuel; nothing but use of the session adds any. */
  lemma StepBurns(a: Act, x: Session, y: Session)
    requires InRange(x) && UpInv(x) && Step(a, x, y) && !IsUse(a)
    ensures InRange(y) && Fuel(y) <= Fuel(x)
    ensures IsWork(a, x) ==> Fuel(y) < Fuel(x)
  {
    hide UpInv, Fuel, Delivers;
    match a {
      case OnAgent(b) => AgentBurns(b, x, y);
      case OnServer(Receive(m)) => ReceivingBurns(m, x, y);
      case OnServer(b) => ServerBurns(b, x, y);
      case _ => SameFuel(x, y);
    }
  }

  lemma SameFuel(x: Session, y: Session)
    requires InRange(x) && (y == x.(downBroken := true) || y == x.(upBroken := true))
    ensures InRange(y) && Fuel(y) == Fuel(x)
  {
  }

  // Whole runs

  /** What one act of use lets follow: the chunk to be sent and delivered, the input to be written and fed. */
  function Gain(a: Act): nat {
    match a
    case OnAgent(ReadChunk(chunk, _)) => 6 + |chunk|
    case OnServer(CheckInput(_)) => ASK + 1
    case OnServer(CheckResize) => ASK + 1
    case _ => 0
  }

  lemma UseGains(a: Act, x: Session, y: Session)
    requires InRange(x) && Step(a, x, y) && IsUse(a)
    ensures InRange(y) && Fuel(y) == Fuel(x) + Gain(a)
  {
    if a.OnServer? {
      assert OpenShell(a.s, x.server, x.downBroken).Blocked?;
      hide OpenerFuel, CloseFuel, ReaderFuel, SignalFuel, KillerFuel, CloserFuel, AgentFuel, CostOf;
    } else {
      assert Handle(a.a, x.agent, x.upBroken).Blocked?;
      assert y.up == x.up;
      hide ServerFuel, HandlerFuel, WinnerFuel, WaiterFuel, CostOf;
    }
  }

  /** Steps of work among the first `n` of a run. */
  ghost function Work(run: seq<Session>, acts: seq<Act>, n: nat): nat
    requires |run| > |acts| && n <= |acts|
  {
    if n == 0 then 0 else Work(run, acts, n - 1) + (if IsWork(acts[n - 1], run[n - 1]) then 1 else 0)
  }

  function Gains(acts: seq<Act>): nat {
    if acts == [] then 0 else Gains(acts[..|acts| - 1]) + Gain(acts[|acts| - 1])
  }

  const FIRST_FUEL := 2 * (ASK + 5) + 21

  /**
    However the goroutines are scheduled, a session does a bounded amount of work: what opening and closing take,
    and a bounded amount for each chunk of output and each input.
   */
  lemma {:induction false} WorkIsBounded(run: seq<Session>, acts: seq<Act>, n: nat)
    requires IsRun(run, acts) && n <= |acts|
    ensures InRange(run[n]) && Work(run, acts, n) + Fuel(run[n]) <= FIRST_FUEL + Gains(acts[..n])
    ensures Work(run, acts, n) <= FIRST_FUEL + Gains(acts[..n])
    decreases n
  {
    hide Inv, Step, Fuel, IsWork, IsUse, Gain;
    RunKeepsInv(run, acts, n);
    InvRange(run[n]);
    FuelLeft(run[n]);
    if n == 0 {
      assert Fuel(NEW_SESSION) == FIRST_FUEL by {
        NewFuel();
      }
    } else {
      var k := n - 1;
      WorkIsBounded(run, acts, k);
      assert Step(acts[k], run[k], run[k + 1]);
      assert acts[..n][..k] == acts[..k];
      RunKeepsInv(run, acts, k);
      InvRange(run[k]);
      if IsUse(acts[k]) {
        UseGains(acts[k], run[k], run[n]);
        UseIsNoWork(acts[k], run[k]);
      } else {
        StepBurns(acts[k], run[k], run[n]);
      }
    }
  }

  lemma UseIsNoWork(a: Act, x: Session)
    ensures IsUse(a) ==> !IsWork(a, x)
  {
  }

  lemma InvRange(x: Session)
    requires Inv(x)
    ensures InRange(x) && UpInv(x)
  {
  }

  lemma FuelLeft(x: Session)
    requires InRange(x)
    ensures Fuel(x) >= 0
  {
    hide ServerFuel, AgentFuel;
    CostGrows(x.up, x.upAt);
  }

  lemma NewFuel()
    ensures Fuel(NEW_SESSION) == FIRST_FUEL
  {
    assert NEW_SESSION.up == [] && NEW_SESSION.up[..0] == [];
  }

  // Until it rests, a session can move

  lemma ServerCanMove(x: Session) returns (b: ServerAct)
    requires ServerInv(x.server) && x.server.opener !in {NotStarted, Succeeded, Failed}
    ensures ServerNext(b, x.server, x.downBroken).Moved? && !b.Receive? && IsWork(OnServer(b), x)
  {
    var s := x.server;
    match s.opener {
      case Registered => b := WriteOpen;
      case WriteFailed => b := RemoveUnsent;
      case Unregistered => b := CloseUnsent;
      case Waiting => b := GiveUp;
      case Closing => b := TearDown(x);
    }
  }

  /** Whoever wants the session torn down can go on, or someone else is at it. */
  lemma TearDown(x: Session) returns (b: ServerAct)
    requires WantsTeardown(x.server) && ServerInv(x.server)
    requires x.server.closer.Calling? ==> x.server.opener.Succeeded?
    ensures ServerNext(b, x.server, x.downBroken).Moved? && !b.Receive? && IsWork(OnServer(b), x)
  {
    var s := x.server;
    if s.closeOnce.Idle? {
      b := BeginTeardown;
    } else if !s.closeOnce.Done? {
      b := TeardownNext;
    } else if s.opener.Closing? {
      b := OpenFails;
    } else if s.reader.Teardown? {
      b := ReaderTornDown;
    } else if s.killer.Killing? {
      b := KillerDone;
    } else {
      b := CloseReturns;
    }
  }

  lemma SignalCanMove(x: Session) returns (b: ServerAct)
    requires ServerInv(x.server) && (x.server.reader.Signal? || x.server.killer.Signalling?)
    ensures ServerNext(b, x.server, x.downBroken).Moved? && !b.Receive? && IsWork(OnServer(b), x)
  {
    var s := x.server;
    match s.openOnce {
      case Unused => b := if s.reader.Signal? then ClaimReader else ClaimKiller;
      case Sending(_) => b := SendResult;
      case Used => b := if s.reader.Signal? then ReaderSignalled else KillerSignalled;
    }
  }

  lemma ReaderCanMove(x: Session) returns (b: ServerAct)
    requires ServerInv(x.server) && !x.server.reader.Free?
    ensures ServerNext(b, x.server, x.downBroken).Moved? && !b.Receive? && IsWork(OnServer(b), x)
  {
    var s := x.server;
    match s.reader {
      case Signal(_) => b := SignalCanMove(x);
      case Teardown => b := TearDown(x);
      case Check(_) => b := CheckClosed;
      case Deliver(bytes) => b := if s.pipeClosed then DeliverFails else DeliverSome(|bytes|);
    }
  }

  lemma AgentCanMove(x: Session) returns (b: AgentAct)
    requires !x.agent.handler.Listening? || x.agent.winner.Ending? || x.agent.winner.Notifying?
    ensures AgentNext(b, x.agent, x.upBroken).Moved? && !b.Take? && IsWork(OnAgent(b), x)
  {
    var g := x.agent;
    match g.handler {
      case Inserting => b := Insert;
      case Announcing => b := Announce;
      case Aborting => b := Abort;
      case Feeding(_) => b := FeedOk;
      case Listening => b := if g.winner.Ending? then EndSession else Notify;
    }
  }

  /** A session that was asked for and is not at rest can do some work, on whole and on failing wires. */
  lemma NeverStuck(x: Session) returns (a: Act, y: Session)
    requires Reachable(x) && !x.server.opener.NotStarted? && !Resting(x)
    ensures Step(a, x, y) && IsWork(a, x)
  {
    hide Inv, ServerInv, ServerNext, AgentNext, IsWork;
    ReachableInv(x);
    ServerPart(x);
    var s, g := x.server, x.agent;
    if !g.handler.Listening? || g.winner.Ending? || g.winner.Notifying? {
      var b := AgentCanMove(x);
      a, y := AgentMoves(x, b);
    } else if !s.reader.Free? {
      var b := ReaderCanMove(x);
      a, y := ServerMoves(x, b);
    } else if s.killer.Signalling? {
      var b := SignalCanMove(x);
      a, y := ServerMoves(x, b);
    } else if s.killer.Killing? {
      var b := TearDown(x);
      a, y := ServerMoves(x, b);
    } else if !s.closeOnce.Idle? && !s.closeOnce.Done? {
      TeardownCanMove(x);
      a, y := ServerMoves(x, TeardownNext);
    } else if s.opener !in {Succeeded, Failed} {
      var b := ServerCanMove(x);
      a, y := ServerMoves(x, b);
    } else if x.downAt < |x.down| {
      a, y := MessageTaken(x);
    } else {
      a, y := MessageReceived(x);
    }
  }

  lemma ServerPart(x: Session)
    requires Inv(x)
    ensures ServerInv(x.server) && InRange(x)
    ensures x.server.closer.Calling? ==> x.server.opener.Succeeded?
  {
  }

  lemma TeardownCanMove(x: Session)
    requires !x.server.closeOnce.Idle? && !x.server.closeOnce.Done?
    ensures ServerNext(TeardownNext, x.server, x.downBroken).Moved? && IsWork(OnServer(TeardownNext), x)
  {
  }

  lemma ServerMoves(x: Session, b: ServerAct) returns (a: Act, y: Session)
    requires ServerNext(b, x.server, x.downBroken).Moved? && !b.Receive? && IsWork(OnServer(b), x)
    ensures Step(a, x, y) && IsWork(a, x)
  {
    hide ServerNext, IsWork;
    var r := ServerNext(b, x.server, x.downBroken);
    a, y := OnServer(b), x.(server := r.next, down := x.down + Sent(r.sent));
  }

  lemma AgentMoves(x: Session, b: AgentAct) returns (a: Act, y: Session)
    requires AgentNext(b, x.agent, x.upBroken).Moved? && !b.Take? && IsWork(OnAgent(b), x)
    ensures Step(a, x, y) && IsWork(a, x)
  {
    hide AgentNext, IsWork;
    var r := AgentNext(b, x.agent, x.upBroken);
    a, y := OnAgent(b), x.(agent := r.next, up := x.up + Sent(r.sent));
  }

  lemma MessageTaken(x: Session) returns (a: Act, y: Session)
    requires x.downAt < |x.down| && x.agent.handler.Listening?
    ensures Step(a, x, y) && IsWork(a, x)
  {
    var b := Take(x.down[x.downAt], true);
    var r := AgentNext(b, x.agent, x.upBroken);
    a, y := OnAgent(b), x.(agent := r.next, up := x.up + Sent(r.sent), downAt := x.downAt + 1);
  }

  lemma MessageReceived(x: Session) returns (a: Act, y: Session)
    requires x.upAt < |x.up| && x.server.reader.Free?
    ensures Step(a, x, y) && IsWork(a, x)
  {
    var b := Receive(x.up[x.upAt]);
    ReceiveMoves(x.up[x.upAt], x.server, x.downBroken);
    hide HandleMessage;
    var r := ServerNext(b, x.server, x.downBroken);
    a, y := OnServer(b), x.(server := r.next, down := x.down + Sent(r.sent), upAt := x.upAt + 1);
  }

  lemma ReceiveMoves(m: AgentMsg, s: Server, broken: bool)
    requires s.reader.Free?
    ensures ServerNext(Receive(m), s, broken).Moved?
  {
  }
}
