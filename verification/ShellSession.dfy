/**
  One shell session, from both ends of the Agent WebSocket.

  Every mutex-protected access to a map, every message written and every `sync.Once` transition is
  one step; steps of all goroutines interleave freely.  A wire is the list of messages ever written
  with a cursor for how far the other side has read.  A connection that fails a write fails every
  later one.
 */
module ShellSession {
  import opened Basics
  import opened Base64

  // Messages about this session

  datatype ServerMsg = Open | Input(text: string) | Resize | Close

  datatype AgentMsg = Opened | Error | Data(text: string) | Closed

  // The Server's end (hub.go)

  /** Where `OpenShell` is. */
  datatype Opener = NotStarted | Registered | WriteFailed | Unregistered | Waiting | Closing | Failed | Succeeded

  /** `openOnce`, with the value its body is about to send. */
  datatype OpenOnce = Unused | Sending(ok: bool) | Used

  /** `closeOnce`, with the next statement of its body. */
  datatype CloseOnce = Idle | AtChan | AtWrite | AtRemove | AtPipe | Done

  /** The read loop, while it handles a message for this session. */
  datatype Reader = Free | Signal(ok: bool) | Teardown | Check(bytes: seq<byte>) | Deliver(bytes: seq<byte>)

  /** A `shutdown` of the connection that took this session out of the map. */
  datatype Killer = Away | Signalling | Killing | Gone

  /** The Portal's bridge: one goroutine writes, another closes. */
  datatype Writer = Quiet | Typing(bytes: seq<byte>) | Sizing

  datatype Closer = Holding | Calling | Returned

  /** `out` is what the reader of stdout has been given, `typed` what the Portal's writes were given. */
  datatype Server = Server(
    opener: Opener, inMap: bool, openOnce: OpenOnce, result: seq<bool>, sends: nat,
    closeOnce: CloseOnce, runs: nat, pipeClosed: bool, reader: Reader, killer: Killer,
    writer: Writer, closer: Closer, out: seq<byte>, typed: seq<byte>)

  datatype ServerAct =
    | Register | WriteOpen | RemoveUnsent | CloseUnsent | GiveUp | TakeResult | OpenFails
    | BeginTeardown | TeardownNext
    | ClaimReader | ClaimKiller | SendResult
    | Receive(msg: AgentMsg) | ReaderSignalled | ReaderTornDown | CheckClosed | DeliverSome(k: nat) | DeliverFails
    | Collect | KillerSignalled | KillerDone
    | CheckInput(bytes: seq<byte>) | CheckResize | WriteUser | CallClose | CloseReturns

  /** `Moved` to a next state, having put at most one message on the wire. */
  datatype Outcome<+S, +M> = Blocked | Moved(next: S, sent: Option<M>)

  function Put<M>(broken: bool, m: M): Option<M> {
    if broken then None else Some(m)
  }

  /** The channel `closed` of the session is closed. */
  predicate ChanClosed(s: Server) {
    !s.closeOnce.Idle? && !s.closeOnce.AtChan?
  }

  predicate WantsTeardown(s: Server) {
    s.opener.Closing? || s.reader.Teardown? || s.killer.Killing? || s.closer.Calling?
  }

  function OpenShell(a: ServerAct, s: Server, broken: bool): Outcome<Server, ServerMsg> {
    match a
    case Register =>
      if s.opener.NotStarted? then Moved(s.(opener := Registered, inMap := true), None) else Blocked
    case WriteOpen =>
      if !s.opener.Registered? then Blocked
      else Moved(s.(opener := if broken then WriteFailed else Waiting), Put(broken, Open))
    case RemoveUnsent =>
      if s.opener.WriteFailed? then Moved(s.(opener := Unregistered, inMap := false), None) else Blocked
    case CloseUnsent =>
      if s.opener.Unregistered? then Moved(s.(opener := Failed, pipeClosed := true), None) else Blocked
    case GiveUp =>
      if s.opener.Waiting? then Moved(s.(opener := Closing), None) else Blocked
    case TakeResult =>
      if s.opener.Waiting? && s.result != []
      then Moved(s.(opener := if s.result[0] then Succeeded else Closing, result := s.result[1..]), None) else Blocked
    case OpenFails =>
      if s.opener.Closing? && s.closeOnce.Done? then Moved(s.(opener := Failed), None) else Blocked
    case _ => Blocked
  }

  function RunTeardown(a: ServerAct, s: Server, broken: bool): Outcome<Server, ServerMsg> {
    match a
    case BeginTeardown =>
      if s.closeOnce.Idle? && WantsTeardown(s)
      then Moved(s.(closeOnce := AtChan, runs := s.runs + 1), None) else Blocked
    case TeardownNext =>
      (match s.closeOnce
       case AtChan => Moved(s.(closeOnce := AtWrite), None)
       case AtWrite => Moved(s.(closeOnce := AtRemove), Put(broken, Close))
       case AtRemove => Moved(s.(closeOnce := AtPipe, inMap := false), None)
       case AtPipe => Moved(s.(closeOnce := Done, pipeClosed := true), None)
       case _ => Blocked)
    case _ => Blocked
  }

  function FailOpen(a: ServerAct, s: Server): Outcome<Server, ServerMsg> {
    match a
    case ClaimReader =>
      if s.openOnce.Unused? && s.reader.Signal? then Moved(s.(openOnce := Sending(s.reader.ok)), None) else Blocked
    case ClaimKiller =>
      if s.openOnce.Unused? && s.killer.Signalling? then Moved(s.(openOnce := Sending(false)), None) else Blocked
    case SendResult =>
      // The channel holds one value: a second send would block.
      if s.openOnce.Sending? && |s.result| < 1
      then Moved(s.(openOnce := Used, result := s.result + [s.openOnce.ok], sends := s.sends + 1), None) else Blocked
    case _ => Blocked
  }

  function HandleMessage(m: AgentMsg, s: Server): Server {
    if !s.inMap then s
    else
      match m
      case Opened => s.(reader := Signal(true))
      case Error => s.(reader := Signal(false), inMap := false)
      case Closed => s.(reader := Teardown, inMap := false)
      case Data(text) =>
        match StdDecode(text)
        case Some(bytes) => s.(reader := Check(bytes))
        case None => s
  }

  function ReadLoop(a: ServerAct, s: Server): Outcome<Server, ServerMsg> {
    match a
    case Receive(m) =>
      if s.reader.Free? then Moved(HandleMessage(m, s), None) else Blocked
    case ReaderSignalled =>
      if s.reader.Signal? && s.openOnce.Used?
      then Moved(s.(reader := if s.reader.ok then Free else Teardown), None) else Blocked
    case ReaderTornDown =>
      if s.reader.Teardown? && s.closeOnce.Done? then Moved(s.(reader := Free), None) else Blocked
    case CheckClosed =>
      if s.reader.Check?
      then Moved(s.(reader := if ChanClosed(s) then Free else Deliver(s.reader.bytes)), None) else Blocked
    case DeliverSome(k) =>
      if s.reader.Deliver? && !s.pipeClosed && k <= |s.reader.bytes|
      then Moved(s.(out := s.out + s.reader.bytes[..k],
                    reader := if k == |s.reader.bytes| then Free else Deliver(s.reader.bytes[k..])), None) else Blocked
    case DeliverFails =>
      if s.reader.Deliver? && s.pipeClosed then Moved(s.(reader := Teardown), None) else Blocked
    case _ => Blocked
  }

  function Shutdown(a: ServerAct, s: Server): Outcome<Server, ServerMsg> {
    match a
    case Collect =>
      if s.killer.Away? && s.inMap then Moved(s.(killer := Signalling, inMap := false), None) else Blocked
    case KillerSignalled =>
      if s.killer.Signalling? && s.openOnce.Used? then Moved(s.(killer := Killing), None) else Blocked
    case KillerDone =>
      if s.killer.Killing? && s.closeOnce.Done? then Moved(s.(killer := Gone), None) else Blocked
    case _ => Blocked
  }

  function UseHandle(a: ServerAct, s: Server, broken: bool): Outcome<Server, ServerMsg> {
    if !s.opener.Succeeded? then Blocked
    else
      match a
      case CheckInput(bytes) =>
        if s.writer.Quiet? && !ChanClosed(s)
        then Moved(s.(writer := Typing(bytes), typed := s.typed + bytes), None) else Blocked
      case CheckResize =>
        if s.writer.Quiet? && !ChanClosed(s) then Moved(s.(writer := Sizing), None) else Blocked
      case WriteUser =>
        if s.writer.Quiet? then Blocked
        else
          Moved(s.(writer := Quiet),
                Put(broken, if s.writer.Typing? then Input(StdEncode(s.writer.bytes)) else Resize))
      case CallClose =>
        if s.closer.Holding? then Moved(s.(closer := Calling), None) else Blocked
      case CloseReturns =>
        if s.closer.Calling? && s.closeOnce.Done? then Moved(s.(closer := Returned), None) else Blocked
      case _ => Blocked
  }

  function ServerNext(a: ServerAct, s: Server, broken: bool): Outcome<Server, ServerMsg> {
    match a
    case BeginTeardown | TeardownNext => RunTeardown(a, s, broken)
    case ClaimReader | ClaimKiller | SendResult => FailOpen(a, s)
    case Receive(_) | ReaderSignalled | ReaderTornDown | CheckClosed | DeliverSome(_) | DeliverFails => ReadLoop(a, s)
    case Collect | KillerSignalled | KillerDone => Shutdown(a, s)
    case CheckInput(_) | CheckResize | WriteUser | CallClose | CloseReturns => UseHandle(a, s, broken)
    case _ => OpenShell(a, s, broken)
  }

  // The Agent's end (cmd/agent/shell.go)

  datatype Handler = Listening | Inserting | Announcing | Aborting | Feeding(bytes: seq<byte>)

  /** The one call of `closeShell` that found the session in the map. */
  datatype Winner = Nobody | Ending(notify: bool) | Notifying | Ended

  datatype Pump = Off | Reading | Full(chunk: seq<byte>, last: bool) | AtEnd | Stopped

  datatype Waiter = Unborn | Watching | Finished

  /** `read` is what the pump has read from the PTY, `fed` what the PTY has taken. */
  datatype Agent = Agent(
    handler: Handler, inMap: bool, inserted: bool, winner: Winner, pump: Pump, waiter: Waiter,
    swept: bool, read: seq<byte>, fed: seq<byte>)

  datatype AgentAct =
    | Take(msg: ServerMsg, started: bool) | Insert | Announce | Abort | FeedOk | FeedFails(k: nat)
    | EndSession | Notify
    | ReadChunk(chunk: seq<byte>, last: bool) | ReadEnd | SendChunk | PumpCloses | ProcessExits
    | Sweep

  const BUFFER_SIZE := 32 * 1024

  /** `closeShell(id, notify)` up to releasing the manager's mutex. */
  function CloseShell(g: Agent, notify: bool): Agent {
    if g.inMap then g.(inMap := false, winner := Ending(notify)) else g
  }

  /** `write` up to the write to the PTY. */
  function HandleInput(text: string, g: Agent): Agent {
    if !g.inMap then g
    else
      match StdDecode(text)
      case Some(bytes) => g.(handler := Feeding(bytes))
      case None => g
  }

  function Handle(a: AgentAct, g: Agent, broken: bool): Outcome<Agent, AgentMsg> {
    match a
    case Take(m, started) =>
      if !g.handler.Listening? then Blocked
      else (match m
            case Open => if started then Moved(g.(handler := Inserting), None) else Moved(g, Put(broken, Error))
            case Input(text) => Moved(HandleInput(text, g), None)
            case Resize => Moved(g, None)
            case Close => Moved(CloseShell(g, false), None))
    case Insert =>
      if g.handler.Inserting? then Moved(g.(handler := Announcing, inMap := true, inserted := true), None) else Blocked
    case Announce =>
      if !g.handler.Announcing? then Blocked
      else if broken then Moved(g.(handler := Aborting), None)
      else Moved(g.(handler := Listening, pump := Reading, waiter := Watching), Some(Opened))
    case Abort =>
      if g.handler.Aborting? then Moved(CloseShell(g, false).(handler := Listening), None) else Blocked
    case FeedOk =>
      if g.handler.Feeding?
      then Moved(g.(handler := Listening, fed := g.fed + g.handler.bytes), None) else Blocked
    case FeedFails(k) =>
      // The PTY may have taken some of it.
      if g.handler.Feeding? && k <= |g.handler.bytes|
      then Moved(CloseShell(g, true).(handler := Listening, fed := g.fed + g.handler.bytes[..k]), None) else Blocked
    case _ => Blocked
  }

  function RunSession(a: AgentAct, g: Agent, broken: bool): Outcome<Agent, AgentMsg> {
    match a
    case EndSession =>
      if g.winner.Ending? then Moved(g.(winner := if g.winner.notify then Notifying else Ended), None) else Blocked
    case Notify =>
      if g.winner.Notifying? then Moved(g.(winner := Ended), Put(broken, Closed)) else Blocked
    case ReadChunk(chunk, last) =>
      if g.pump.Reading? && 0 < |chunk| <= BUFFER_SIZE
      then Moved(g.(pump := Full(chunk, last), read := g.read + chunk), None) else Blocked
    case ReadEnd =>
      if g.pump.Reading? then Moved(g.(pump := AtEnd), None) else Blocked
    case SendChunk =>
      if g.pump.Full?
      then Moved(g.(pump := if g.pump.last then AtEnd else Reading), Put(broken, Data(StdEncode(g.pump.chunk))))
      else Blocked
    case PumpCloses =>
      if g.pump.AtEnd? then Moved(CloseShell(g, true).(pump := Stopped), None) else Blocked
    case ProcessExits =>
      if g.waiter.Watching? then Moved(CloseShell(g, true).(waiter := Finished), None) else Blocked
    case Sweep =>
      Moved(CloseShell(g, false).(swept := true), None)
    case _ => Blocked
  }

  function AgentNext(a: AgentAct, g: Agent, broken: bool): Outcome<Agent, AgentMsg> {
    match a
    case Take(_, _) | Insert | Announce | Abort | FeedOk | FeedFails(_) => Handle(a, g, broken)
    case _ => RunSession(a, g, broken)
  }

  // The two ends joined

  datatype Session = Session(
    server: Server, agent: Agent,
    down: seq<ServerMsg>, downAt: nat, downBroken: bool,
    up: seq<AgentMsg>, upAt: nat, upBroken: bool)

  datatype Act = OnServer(s: ServerAct) | OnAgent(a: AgentAct) | BreakDown | BreakUp

  const NEW_SERVER := Server(
    NotStarted, false, Unused, [], 0, CloseOnce.Idle, 0, false, Free, Away, Quiet, Holding, [], [])

  const NEW_AGENT := Agent(Listening, false, false, Nobody, Off, Unborn, false, [], [])

  const NEW_SESSION := Session(NEW_SERVER, NEW_AGENT, [], 0, false, [], 0, false)

  function Sent<M>(m: Option<M>): seq<M> {
    match m
    case Some(v) => [v]
    case None => []
  }

  ghost predicate Step(a: Act, x: Session, y: Session) {
    match a
    case OnServer(b) =>
      var r := ServerNext(b, x.server, x.downBroken);
      && r.Moved?
      && (b.Receive? ==> x.upAt < |x.up| && x.up[x.upAt] == b.msg)
      && y == x.(server := r.next, down := x.down + Sent(r.sent), upAt := if b.Receive? then x.upAt + 1 else x.upAt)
    case OnAgent(b) =>
      var r := AgentNext(b, x.agent, x.upBroken);
      && r.Moved?
      && (b.Take? ==> x.downAt < |x.down| && x.down[x.downAt] == b.msg)
      && y == x.(agent := r.next, up := x.up + Sent(r.sent), downAt := if b.Take? then x.downAt + 1 else x.downAt)
    case BreakDown => y == x.(downBroken := true)
    case BreakUp => y == x.(upBroken := true)
  }
}
