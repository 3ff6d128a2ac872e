/** Who gets a session: what `OpenShell` returns, and that a session once opened works. */
module ShellOpens {
  import opened Basics
  import opened Base64
  import opened ShellSession
  import opened ShellInvariants
  import opened ShellRuns

  /** At step `j` the read loop handles `shell_opened` for a session it knows. */
  ghost predicate HandlesOpened(run: seq<Session>, acts: seq<Act>, j: nat)
    requires |run| > |acts|
  {
    j < |acts| && acts[j] == OnServer(Receive(Opened)) && run[j].server.inMap
  }

  /** At step `k` the read loop is the first to signal, and signals that the Agent accepted. */
  ghost predicate Accepts(run: seq<Session>, acts: seq<Act>, k: nat)
    requires |run| > |acts|
  {
    && k < |acts| && acts[k] == OnServer(ClaimReader)
    && run[k].server.reader == Signal(true)
    && exists j: nat :: j < k && HandlesOpened(run, acts, j)
  }

  /** The value sent, or about to be sent, or waiting in the channel is success. */
  predicate SaysYes(s: Server) {
    s.openOnce == Sending(true) || true in s.result
  }

  predicate SaysNo(s: Server) {
    s.openOnce == Sending(false) || false in s.result
  }

  /** What one step does about the signal. */
  predicate Signalled(b: ServerAct, s: Server, t: Server) {
    && (t.reader == Signal(true) ==> s.reader == Signal(true) || (b == Receive(Opened) && s.inMap))
    && (SaysYes(t) ==> SaysYes(s) || (b.ClaimReader? && s.reader == Signal(true)))
    && (SaysNo(t) ==> SaysNo(s) || b.ClaimKiller? || (b.ClaimReader? && s.reader == Signal(false)))
    && (s.openOnce.Used? ==> t.openOnce.Used?)
    && (s.openOnce.Sending? ==> !t.openOnce.Unused?)
    && (b.ClaimReader? || b.ClaimKiller? ==> s.openOnce.Unused? && !SaysYes(s) && !SaysNo(s))
    && (b.ClaimReader? ==> s.reader.Signal? && t.openOnce == Sending(s.reader.ok) && t.result == [])
  }

  lemma OpenShellSignals(b: ServerAct, s: Server, broken: bool)
    requires ServerInv(s) && OpenShell(b, s, broken).Moved?
    ensures Signalled(b, s, OpenShell(b, s, broken).next)
  {
  }

  lemma FailOpenSignals(b: ServerAct, s: Server)
    requires ServerInv(s) && FailOpen(b, s).Moved?
    ensures Signalled(b, s, FailOpen(b, s).next)
  {
  }

  lemma ReadLoopSignals(b: ServerAct, s: Server)
    requires ReadLoop(b, s).Moved?
    ensures Signalled(b, s, ReadLoop(b, s).next)
  {
    hide StdDecode;
  }

  lemma OthersSignal(b: ServerAct, s: Server, broken: bool)
    requires RunTeardown(b, s, broken).Moved? || Shutdown(b, s).Moved? || UseHandle(b, s, broken).Moved?
    ensures RunTeardown(b, s, broken).Moved? ==> Signalled(b, s, RunTeardown(b, s, broken).next)
    ensures Shutdown(b, s).Moved? ==> Signalled(b, s, Shutdown(b, s).next)
    ensures UseHandle(b, s, broken).Moved? ==> Signalled(b, s, UseHandle(b, s, broken).next)
  {
  }

  lemma SignalStep(b: ServerAct, s: Server, broken: bool)
    requires ServerInv(s) && ServerNext(b, s, broken).Moved?
    ensures Signalled(b, s, ServerNext(b, s, broken).next)
  {
    hide Signalled, ServerInv, OpenShell, FailOpen, ReadLoop, RunTeardown, Shutdown, UseHandle;
    match b {
      case ClaimReader | ClaimKiller | SendResult => FailOpenSignals(b, s);
      case Receive(_) | ReaderSignalled | ReaderTornDown | CheckClosed | DeliverSome(_) | DeliverFails =>
        ReadLoopSignals(b, s);
      case BeginTeardown | TeardownNext => OthersSignal(b, s, broken);
      case Collect | KillerSignalled | KillerDone => OthersSignal(b, s, broken);
      case CheckInput(_) | CheckResize | WriteUser | CallClose | CloseReturns => OthersSignal(b, s, broken);
      case _ => OpenShellSignals(b, s, broken);
    }
  }

  lemma SignalFrom(a: Act, x: Session, y: Session)
    requires ServerInv(x.server) && Step(a, x, y) && !a.OnServer?
    ensures y.server == x.server
  {
    hide AgentNext;
  }

  lemma {:induction false} YesHasCause(run: seq<Session>, acts: seq<Act>, n: nat)
    requires IsRun(run, acts) && n <= |acts|
    ensures run[n].server.reader == Signal(true) ==> exists j: nat :: j < n && HandlesOpened(run, acts, j)
    ensures SaysYes(run[n].server) ==> exists k: nat :: k < n && Accepts(run, acts, k)
    decreases n
  {
    hide Inv, ServerInv, ServerNext, AgentNext, SaysYes, SaysNo;
    if n == 0 {
      NewSaysNothing();
    } else {
      var m := n - 1;
      YesHasCause(run, acts, m);
      RunKeepsInv(run, acts, m);
      ServerOf(run[m]);
      assert Step(acts[m], run[m], run[m + 1]);
      if acts[m].OnServer? {
        SignalStep(acts[m].s, run[m].server, run[m].downBroken);
        if acts[m].s.ClaimReader? && run[m].server.reader == Signal(true) {
          assert Accepts(run, acts, m);
        }
        if acts[m].s == Receive(Opened) && run[m].server.inMap {
          assert HandlesOpened(run, acts, m);
        }
      } else {
        SignalFrom(acts[m], run[m], run[n]);
      }
    }
  }

  lemma NewSaysNothing()
    ensures !SaysYes(NEW_SERVER) && !SaysNo(NEW_SERVER) && NEW_SERVER.reader.Free?
  {
  }

  lemma ServerOf(x: Session)
    requires Inv(x)
    ensures ServerInv(x.server)
  {
  }

  /** Once the read loop has claimed the signal for success, nothing else is ever said. */
  lemma {:induction false} YesIsFinal(run: seq<Session>, acts: seq<Act>, k: nat, n: nat)
    requires IsRun(run, acts) && k < n <= |acts| && Accepts(run, acts, k)
    ensures !run[n].server.openOnce.Unused? && !SaysNo(run[n].server)
    decreases n
  {
    hide Inv, ServerInv, ServerNext, AgentNext;
    var m := n - 1;
    RunKeepsInv(run, acts, m);
    ServerOf(run[m]);
    assert Step(acts[m], run[m], run[m + 1]);
    if k < m {
      YesIsFinal(run, acts, k, m);
    }
    if acts[m].OnServer? {
      SignalStep(acts[m].s, run[m].server, run[m].downBroken);
    } else {
      SignalFrom(acts[m], run[m], run[n]);
    }
  }

  lemma TakeStep(s: Server, broken: bool)
    requires ServerInv(s) && ServerNext(TakeResult, s, broken).Moved?
    ensures SaysYes(s) != SaysNo(s)
    ensures var t := ServerNext(TakeResult, s, broken).next; t.opener == if SaysYes(s) then Succeeded else Closing
  {
  }

  /**
    `OpenShell` hands the session to its caller exactly if the value it takes off the channel was sent because the
    read loop handled `shell_opened`; with any other value it goes on to close the session and fail.
   */
  lemma OpenReturnsExactly(run: seq<Session>, acts: seq<Act>, i: nat)
    requires IsRun(run, acts) && i < |acts| && acts[i] == OnServer(TakeResult)
    ensures run[i + 1].server.opener.Succeeded? <==> exists k: nat :: k < i && Accepts(run, acts, k)
    ensures !run[i + 1].server.opener.Succeeded? ==> run[i + 1].server.opener.Closing?
  {
    hide Inv, ServerInv, ServerNext, SaysYes, SaysNo;
    RunKeepsInv(run, acts, i);
    ServerOf(run[i]);
    assert Step(acts[i], run[i], run[i + 1]);
    TakeStep(run[i].server, run[i].downBroken);
    YesHasCause(run, acts, i);
    if k: nat :| k < i && Accepts(run, acts, k) {
      YesIsFinal(run, acts, k, i);
    }
  }

  /** In every run `OpenShell` succeeds in no other way. */
  lemma {:induction false} SucceedsOnlySo(run: seq<Session>, acts: seq<Act>, n: nat)
    requires IsRun(run, acts) && n <= |acts| && run[n].server.opener.Succeeded?
    ensures exists i :: 0 <= i < n && acts[i] == OnServer(TakeResult) && run[i + 1].server.opener.Succeeded?
    decreases n
  {
    hide Inv;
    if n > 0 {
      var m := n - 1;
      assert Step(acts[m], run[m], run[m + 1]);
      if run[m].server.opener.Succeeded? {
        SucceedsOnlySo(run, acts, m);
      } else {
        BecomesSucceeded(acts[m], run[m], run[m + 1]);
        assert acts[m] == OnServer(TakeResult);
      }
    }
  }

  lemma BecomesSucceeded(a: Act, x: Session, y: Session)
    requires Step(a, x, y) && !x.server.opener.Succeeded? && y.server.opener.Succeeded?
    ensures a == OnServer(TakeResult)
  {
    hide AgentNext, StdDecode;
  }

  // It does work

  /** The Server has registered the session and written `shell_open`, and the Agent has opened a shell. */
  lemma OpenedOnAgent() returns (x: Session)
    ensures Reachable(x)
    ensures x == NEW_SESSION.(server := NEW_SERVER.(opener := Waiting, inMap := true), down := [Open], downAt := 1,
                              up := [Opened],
                              agent := NEW_AGENT.(inMap := true, inserted := true, pump := Reading, waiter := Watching))
  {
    StartReachable();
    var s1 := NEW_SERVER.(opener := Registered, inMap := true);
    var x1 := NEW_SESSION.(server := s1);
    ReachableStep(NEW_SESSION, OnServer(Register), x1);
    var x2 := NEW_SESSION.(server := s1.(opener := Waiting), down := [Open]);
    assert x1.down + [Open] == [Open];
    ReachableStep(x1, OnServer(WriteOpen), x2);
    x := AgentOpens(x2);
  }

  /** The Server's end of a session that was opened. */
  function OpenServer(): Server {
    NEW_SERVER.(opener := Succeeded, inMap := true, openOnce := Used, sends := 1)
  }

  lemma OpenedOnServer() returns (x: Session)
    ensures Reachable(x) && x.server == OpenServer()
    ensures x.agent == NEW_AGENT.(inMap := true, inserted := true, pump := Reading, waiter := Watching)
    ensures x.down == [Open] && x.downAt == 1 && x.up == [Opened] && x.upAt == 1 && !x.upBroken && !x.downBroken
  {
    var x0 := OpenedOnAgent();
    var s0 := x0.server;
    var x1 := x0.(server := s0.(reader := Signal(true)), upAt := 1);
    ReachableStep(x0, OnServer(Receive(Opened)), x1);
    var s2 := x1.server.(openOnce := Sending(true));
    var x2 := x1.(server := s2);
    ReachableStep(x1, OnServer(ClaimReader), x2);
    var s3 := s2.(openOnce := Used, result := [true], sends := 1);
    var x3 := x2.(server := s3);
    ReachableStep(x2, OnServer(SendResult), x3);
    var x4 := x3.(server := s3.(reader := Free));
    ReachableStep(x3, OnServer(ReaderSignalled), x4);
    x := x4.(server := x4.server.(opener := Succeeded, result := []));
    ReachableStep(x4, OnServer(TakeResult), x);
  }

  /** A session can be opened, and is then at rest, held at both ends, with its caller. */
  lemma OpenIsReachable() returns (x: Session)
    ensures Reachable(x) && AtRest(x) && x.server.opener.Succeeded? && x.server.inMap && x.agent.inMap
  {
    x := OpenedOnServer();
  }

  /** And what its PTY says, up to a full buffer, arrives. */
  lemma OutputArrives(chunk: seq<byte>) returns (x: Session)
    requires 0 < |chunk| <= 32768
    ensures Reachable(x) && AtRest(x) && x.server.out == chunk && x.server.inMap && x.agent.inMap
  {
    hide StdDecode, StdEncode;
    StdRoundTrip(chunk);
    var x0 := OpenedOnServer();
    var text := StdEncode(chunk);
    var x1 := x0.(agent := x0.agent.(pump := Full(chunk, false), read := chunk));
    assert x0.agent.read + chunk == chunk;
    ReachableStep(x0, OnAgent(ReadChunk(chunk, false)), x1);
    var x2 := x1.(agent := x1.agent.(pump := Reading), up := [Opened, Data(text)]);
    assert x1.up + [Data(text)] == [Opened, Data(text)];
    ReachableStep(x1, OnAgent(SendChunk), x2);
    x := ChunkDelivered(x2, text, chunk);
  }

  lemma ChunkDelivered(x2: Session, text: string, chunk: seq<byte>) returns (x: Session)
    requires Reachable(x2) && x2.server == OpenServer() && x2.up == [Opened, Data(text)] && x2.upAt == 1
    requires StdDecode(text) == Some(chunk)
    ensures x == x2.(server := x2.server.(out := chunk), upAt := 2) && Reachable(x)
  {
    hide StdDecode, StdEncode, Reachable, RunTeardown, FailOpen, Shutdown, UseHandle, OpenShell, AgentNext;
    var x3 := x2.(server := x2.server.(reader := Check(chunk)), upAt := 2);
    ReachableStep(x2, OnServer(Receive(Data(text))), x3);
    var x4 := x3.(server := x3.server.(reader := Deliver(chunk)));
    ReachableStep(x3, OnServer(CheckClosed), x4);
    x := x4.(server := x4.server.(reader := Free, out := chunk));
    assert chunk[..|chunk|] == chunk && x4.server.out + chunk == chunk;
    ReachableStep(x4, OnServer(DeliverSome(|chunk|)), x);
  }
}
