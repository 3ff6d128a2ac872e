/**
  Whole runs of a shell session: safety in every reachable state, over every interleaving.
 */
module ShellRuns {
  import opened ShellSession
  import opened ShellInvariants

  ghost predicate IsRun(run: seq<Session>, acts: seq<Act>) {
    && |run| == |acts| + 1
    && run[0] == NEW_SESSION
    && forall i :: 0 <= i < |acts| ==> Step(acts[i], run[i], run[i + 1])
  }

  ghost predicate Reachable(x: Session) {
    exists run, acts :: IsRun(run, acts) && run[|acts|] == x
  }

  lemma {:induction false} RunKeepsInv(run: seq<Session>, acts: seq<Act>, n: nat)
    requires IsRun(run, acts) && n <= |acts|
    ensures Inv(run[n])
    decreases n
  {
    hide Inv, Step;
    if n == 0 {
      StartsWithInv();
    } else {
      RunKeepsInv(run, acts, n - 1);
      StepKeepsInv(acts[n - 1], run[n - 1], run[n]);
    }
  }

  lemma StartsWithInv()
    ensures Inv(NEW_SESSION)
  {
  }

  lemma ReachableInv(x: Session)
    requires Reachable(x)
    ensures Inv(x)
  {
    var run, acts :| IsRun(run, acts) && run[|acts|] == x;
    RunKeepsInv(run, acts, |acts|);
  }

  /** At most one value is ever sent on `openResult`, its sender never waits, and teardown runs at most once. */
  lemma OnceEach(x: Session)
    requires Reachable(x)
    ensures x.server.sends <= 1 && x.server.runs <= 1
    ensures x.server.openOnce.Sending? ==> ServerNext(SendResult, x.server, x.downBroken).Moved?
  {
    ReachableInv(x);
  }

  predicate Released(s: Server) {
    s.opener.Failed? || s.closer.Returned?
  }

  lemma ServerStaysGone(b: ServerAct, s: Server, broken: bool)
    requires ServerNext(b, s, broken).Moved? && !s.opener.NotStarted? && !s.inMap
    ensures !ServerNext(b, s, broken).next.opener.NotStarted? && !ServerNext(b, s, broken).next.inMap
  {
  }

  lemma StaysGone(a: Act, x: Session, y: Session)
    requires Step(a, x, y) && !x.server.opener.NotStarted? && !x.server.inMap
    ensures !y.server.opener.NotStarted? && !y.server.inMap
  {
    hide ServerNext, AgentNext;
    if a.OnServer? {
      ServerStaysGone(a.s, x.server, x.downBroken);
    }
  }

  /** A session that left the map never comes back: ids are used once. */
  lemma {:induction false} NeverReappears(run: seq<Session>, acts: seq<Act>, i: nat, j: nat)
    requires IsRun(run, acts) && i <= j <= |acts|
    requires !run[i].server.opener.NotStarted? && !run[i].server.inMap
    ensures !run[j].server.opener.NotStarted? && !run[j].server.inMap
    decreases j
  {
    hide Inv, Step;
    if i < j {
      NeverReappears(run, acts, i, j - 1);
      RunKeepsInv(run, acts, j - 1);
      StaysGone(acts[j - 1], run[j - 1], run[j]);
    }
  }

  /** Once `OpenShell` has failed or `Close` has returned, the session is out of `conn.shells` for good. */
  lemma ClosedForGood(run: seq<Session>, acts: seq<Act>, i: nat, j: nat)
    requires IsRun(run, acts) && i <= j <= |acts| && Released(run[i].server)
    ensures !run[j].server.inMap
  {
    RunKeepsInv(run, acts, i);
    NeverReappears(run, acts, i, j);
  }

  /** Each side puts at most one close on the wire, however the reasons to close race. */
  lemma OneCloseEach(x: Session)
    requires Reachable(x)
    ensures Unique(x.down, Close) && Unique(x.up, Closed)
  {
    ReachableInv(x);
  }

  // Echoes

  lemma {:induction false} WiresGrow(run: seq<Session>, acts: seq<Act>, i: nat, j: nat)
    requires IsRun(run, acts) && i <= j <= |acts|
    ensures run[i].down <= run[j].down && run[i].up <= run[j].up
    decreases j
  {
    hide ServerNext, AgentNext;
    if i < j {
      WiresGrow(run, acts, i, j - 1);
      assert Step(acts[j - 1], run[j - 1], run[j - 1 + 1]);
    }
  }

  /** A side that has written its close writes no other, whatever it reads afterwards. */
  lemma NoSecondClose(run: seq<Session>, acts: seq<Act>, i: nat, j: nat, k: nat)
    requires IsRun(run, acts) && i <= j <= |acts|
    ensures Close in run[i].down && |run[i].down| <= k < |run[j].down| ==> !run[j].down[k].Close?
    ensures Closed in run[i].up && |run[i].up| <= k < |run[j].up| ==> !run[j].up[k].Closed?
  {
    hide Inv, Step;
    WiresGrow(run, acts, i, j);
    RunKeepsInv(run, acts, j);
    WiresUnique(run[j]);
    if Close in run[i].down {
      var n :| 0 <= n < |run[i].down| && run[i].down[n] == Close;
      assert run[j].down[n] == Close;
    }
    if Closed in run[i].up {
      var n :| 0 <= n < |run[i].up| && run[i].up[n] == Closed;
      assert run[j].up[n] == Closed;
    }
  }

  lemma WiresUnique(x: Session)
    requires Inv(x)
    ensures Unique(x.down, Close) && Unique(x.up, Closed)
  {
  }

  /** The Agent ended the shell without notice, or has nothing left to say about it. */
  predicate Mute(g: Agent, up: seq<AgentMsg>) {
    g.inserted && !g.inMap && g.winner != Ending(true) && !g.winner.Notifying? && Closed !in up
  }

  lemma HandlerStaysMute(b: AgentAct, g: Agent, asked: bool, up: seq<AgentMsg>, broken: bool)
    requires AgentInv(g, asked, up, broken) && Mute(g, up) && Handle(b, g, broken).Moved?
    requires b.Take? && b.msg.Open? ==> !asked
    ensures var r := Handle(b, g, broken); Mute(r.next, up + Sent(r.sent))
  {
  }

  lemma SessionStaysMute(b: AgentAct, g: Agent, up: seq<AgentMsg>, broken: bool)
    requires Mute(g, up) && RunSession(b, g, broken).Moved?
    ensures var r := RunSession(b, g, broken); Mute(r.next, up + Sent(r.sent))
  {
  }

  lemma StaysMute(a: Act, x: Session, y: Session)
    requires DownInv(x) && UpInv(x) && Step(a, x, y) && Mute(x.agent, x.up)
    ensures Mute(y.agent, y.up)
  {
    hide ServerNext, DownInv, AgentInv, UpWire, Mute, Handle, RunSession;
    if a.OnAgent? {
      var b := a.a;
      if Handle(b, x.agent, x.upBroken).Moved? {
        HandleOnly(b, x.agent, x.upBroken);
        if b.Take? {
          OpenIsUnique(x);
          AskedNow(x, b.msg);
        }
        HandlerStaysMute(b, x.agent, Open in x.down[..x.downAt], x.up, x.upBroken);
      } else {
        HandleBlocked(b, x.agent, x.upBroken);
        SessionStaysMute(b, x.agent, x.up, x.upBroken);
      }
    }
  }

  lemma OpenIsUnique(x: Session)
    requires DownInv(x)
    ensures Unique(x.down, Open)
  {
  }

  lemma {:induction false} MuteForGood(run: seq<Session>, acts: seq<Act>, i: nat, j: nat)
    requires IsRun(run, acts) && i <= j <= |acts| && Mute(run[i].agent, run[i].up)
    ensures Mute(run[j].agent, run[j].up)
    decreases j
  {
    hide Inv, Step, Mute;
    if i < j {
      MuteForGood(run, acts, i, j - 1);
      RunKeepsInv(run, acts, j - 1);
      assert Step(acts[j - 1], run[j - 1], run[j - 1 + 1]);
      InvParts(run[j - 1]);
      StaysMute(acts[j - 1], run[j - 1], run[j]);
    }
  }

  /**
    No close is answered in circles.  A close that finds the shell on the Agent is never echoed; one that does not
    changes nothing there; and so at the Server, which has by then written all the closes it will ever write.
   */
  lemma EchoIsSilent(run: seq<Session>, acts: seq<Act>, i: nat, j: nat)
    requires IsRun(run, acts) && i < j <= |acts|
    ensures acts[i] == OnAgent(Take(Close, false)) || acts[i] == OnAgent(Take(Close, true)) ==>
              if run[i].agent.inMap then Closed !in run[j].up
              else run[i + 1] == run[i].(downAt := run[i].downAt + 1)
    ensures acts[i] == OnServer(Receive(Closed)) && !run[i].server.inMap ==>
              run[i + 1] == run[i].(upAt := run[i].upAt + 1)
  {
    hide Inv, Step;
    RunKeepsInv(run, acts, i);
    InvParts(run[i]);
    assert Step(acts[i], run[i], run[i + 1]);
    UnknownIsIgnored(acts[i], run[i], run[i + 1]);
    if acts[i].OnAgent? && acts[i].a.Take? && acts[i].a.msg.Close? && run[i].agent.inMap {
      TakenQuietly(run[i], run[i + 1], acts[i].a);
      MuteForGood(run, acts, i + 1, j);
    }
  }

  lemma InvParts(x: Session)
    requires Inv(x)
    ensures DownInv(x) && UpInv(x)
  {
  }

  lemma UnknownIsIgnored(a: Act, x: Session, y: Session)
    requires Step(a, x, y)
    ensures a.OnAgent? && a.a.Take? && a.a.msg.Close? && !x.agent.inMap ==> y == x.(downAt := x.downAt + 1)
    ensures a == OnServer(Receive(Closed)) && !x.server.inMap ==> y == x.(upAt := x.upAt + 1)
  {
  }

  lemma TakenQuietly(x: Session, y: Session, b: AgentAct)
    requires UpInv(x) && Step(OnAgent(b), x, y) && b.Take? && b.msg.Close? && x.agent.inMap
    ensures Mute(y.agent, y.up)
  {
  }

  /**
    The Agent's side of the wire: nothing, or one refusal, or `shell_opened` first and only output
    and a close after it.
   */
  lemma AgentWireOrder(x: Session)
    requires Reachable(x)
    ensures Error in x.up ==> x.up == [Error]
    ensures forall i :: 0 <= i < |x.up| && !x.up[i].Error? ==> x.up[0] == Opened
    ensures Unique(x.up, Opened)
  {
    ReachableInv(x);
  }

  /**
    The Server's side: `shell_open` at most once and before any input, and `shell_close` ahead of it
    only when a shutdown of the connection took the session first.
   */
  lemma ServerWireOrder(x: Session)
    requires Reachable(x)
    ensures Unique(x.down, Open)
    ensures forall i :: 0 <= i < |x.down| && (x.down[i].Input? || x.down[i].Resize?) ==> Open in x.down[..i]
    ensures forall i :: 0 <= i < |x.down| && x.down[i].Close? && Open !in x.down[..i] ==> !x.server.killer.Away?
  {
    ReachableInv(x);
  }

  /** What the Portal reads is a prefix of what the PTY produced. */
  lemma OutputIsPrefix(x: Session)
    requires Reachable(x)
    ensures x.server.out <= x.agent.read
  {
    ReachableInv(x);
    PayloadPrefix(x.up, x.upAt);
  }

  /** While the session is open and the wire is whole, everything read from the PTY arrives. */
  lemma OutputIsComplete(x: Session)
    requires Reachable(x) && Accepting(x.server) && !x.upBroken
    requires x.upAt == |x.up| && Held(x.agent.pump) == [] && InHand(x.server) == []
    ensures x.server.out == x.agent.read
  {
    ReachableInv(x);
    assert x.up[..x.upAt] == x.up;
  }

  // A lost connection

  /** All that is left of the session on the Agent is an opening that is about to fail. */
  predicate Abandoned(g: Agent) {
    g.inMap ==> g.handler in {Announcing, Aborting}
  }

  lemma StaysAbandoned(a: Act, x: Session, y: Session)
    requires Step(a, x, y) && x.upBroken && Abandoned(x.agent)
    ensures y.upBroken && Abandoned(y.agent)
  {
    hide ServerNext;
  }

  lemma {:induction false} AbandonedForGood(run: seq<Session>, acts: seq<Act>, i: nat, j: nat)
    requires IsRun(run, acts) && i <= j <= |acts| && run[i].upBroken && Abandoned(run[i].agent)
    ensures run[j].upBroken && Abandoned(run[j].agent)
    decreases j
  {
    hide Step, Abandoned;
    if i < j {
      AbandonedForGood(run, acts, i, j - 1);
      assert Step(acts[j - 1], run[j - 1], run[j - 1 + 1]);
      StaysAbandoned(acts[j - 1], run[j - 1], run[j]);
    }
  }

  /**
    No shell outlives its connection on the Agent: once the connection has failed and the shells were swept, the
    Agent holds the session at most while an opening is about to fail, and at rest not at all.
   */
  lemma NoneOutlives(run: seq<Session>, acts: seq<Act>, i: nat, j: nat)
    requires IsRun(run, acts) && i < j <= |acts| && acts[i] == OnAgent(Sweep) && run[i].upBroken
    ensures run[j].agent.inMap ==> run[j].agent.handler in {Announcing, Aborting}
    ensures run[j].agent.handler.Listening? ==> !run[j].agent.inMap
  {
    assert Step(acts[i], run[i], run[i + 1]);
    hide Step;
    AbandonedForGood(run, acts, i + 1, j);
  }

  /** Both wires read to their ends, `OpenShell` done, and no goroutine in the middle of anything. */
  predicate Resting(x: Session) {
    && x.downAt == |x.down| && x.upAt == |x.up|
    && (x.server.opener.Succeeded? || x.server.opener.Failed?)
    && x.server.reader.Free? && (x.server.killer.Away? || x.server.killer.Gone?)
    && (x.server.closeOnce.Idle? || x.server.closeOnce.Done?)
    && x.agent.handler.Listening? && (x.agent.winner.Nobody? || x.agent.winner.Ended?)
  }

  /** At rest on a connection that never failed. */
  predicate AtRest(x: Session) {
    Resting(x) && !x.downBroken && !x.upBroken && !x.agent.swept
  }

  /** `shell_close` went out before `shell_open`. */
  ghost predicate ClosedFirst(down: seq<ServerMsg>) {
    exists i :: 0 <= i < |down| && down[i].Close? && Open !in down[..i]
  }

  /** The Server closed before it asked, and the Agent opened a shell that has not ended since. */
  ghost predicate Orphaned(x: Session) {
    ClosedFirst(x.down) && Opened in x.up && Closed !in x.up
  }

  /**
    What the close handshake comes to, at rest: the Server holds the session exactly as long as nothing has closed
    it, and the Agent holds it exactly if both do or the shell is orphaned.
   */
  lemma HandshakeEnds(x: Session)
    requires Reachable(x) && AtRest(x)
    ensures x.server.inMap <==> x.server.closeOnce.Idle?
    ensures x.server.inMap ==> x.server.opener.Succeeded?
    ensures x.agent.inMap <==> x.server.inMap || Orphaned(x)
    ensures Orphaned(x) ==> !x.server.inMap
  {
    hide Payload;
    ReachableInv(x);
    assert x.down[..x.downAt] == x.down && x.up[..x.upAt] == x.up;
    ClosesSplit(x.down);
  }

  /** A close is on the wire, ahead of the open or after it. */
  lemma ClosesSplit(down: seq<ServerMsg>)
    ensures Close in down <==> ClosedFirst(down) || CloseAfterOpen(down)
    ensures Unique(down, Close) ==> !(ClosedFirst(down) && CloseAfterOpen(down))
  {
    if Close in down {
      var i :| 0 <= i < |down| && down[i] == Close;
      assert Open in down[..i] || Open !in down[..i];
    }
  }

  /** At rest the two ends agree about the session if and only if the shell is not orphaned. */
  lemma EndsAgree(x: Session)
    requires Reachable(x) && AtRest(x)
    ensures (x.server.inMap <==> x.agent.inMap) <==> !Orphaned(x)
  {
    HandshakeEnds(x);
  }

  lemma OnlyShutdownClosesFirst(x: Session)
    requires Reachable(x) && ClosedFirst(x.down)
    ensures !x.server.killer.Away?
  {
    ReachableInv(x);
  }

  // The exception is real

  lemma StartReachable()
    ensures Reachable(NEW_SESSION)
  {
    assert IsRun([NEW_SESSION], []);
  }

  lemma ReachableStep(x: Session, a: Act, y: Session)
    requires Reachable(x) && Step(a, x, y)
    ensures Reachable(y)
  {
    hide Step;
    var run, acts :| IsRun(run, acts) && run[|acts|] == x;
    assert IsRun(run + [y], acts + [a]);
  }

  /** The connection is replaced after the session entered the map and before `shell_open` was written. */
  lemma ReplacedBeforeOpen() returns (s: Server)
    ensures s == NEW_SERVER.(opener := Registered, openOnce := Used, result := [false], sends := 1,
                             closeOnce := AtChan, runs := 1, killer := Killing)
    ensures Reachable(NEW_SESSION.(server := s))
  {
    var x := NEW_SESSION;
    StartReachable();
    var s1 := NEW_SERVER.(opener := Registered, inMap := true);
    ReachableStep(x, OnServer(Register), x.(server := s1));
    var s2 := s1.(killer := Signalling, inMap := false);
    ReachableStep(x.(server := s1), OnServer(Collect), x.(server := s2));
    var s3 := s2.(openOnce := Sending(false));
    ReachableStep(x.(server := s2), OnServer(ClaimKiller), x.(server := s3));
    var s4 := s3.(openOnce := Used, result := [false], sends := 1);
    ReachableStep(x.(server := s3), OnServer(SendResult), x.(server := s4));
    var s5 := s4.(killer := Killing);
    ReachableStep(x.(server := s4), OnServer(KillerSignalled), x.(server := s5));
    s := s5.(closeOnce := AtChan, runs := 1);
    ReachableStep(x.(server := s5), OnServer(BeginTeardown), x.(server := s));
  }

  /** `shell_close` then `shell_open` go out, and `OpenShell` returns its error. */
  lemma OpenAfterClose() returns (s: Server)
    ensures s.opener.Failed? && s.closeOnce.Done? && s.killer.Gone? && s.reader.Free? && !s.inMap
    ensures Reachable(NEW_SESSION.(server := s, down := [Close, Open]))
  {
    var s1 := ReplacedBeforeOpen();
    var x := NEW_SESSION;
    var s2 := s1.(closeOnce := AtWrite);
    ReachableStep(x.(server := s1), OnServer(TeardownNext), x.(server := s2));
    var s3 := s2.(closeOnce := AtRemove);
    ReachableStep(x.(server := s2), OnServer(TeardownNext), x.(server := s3, down := [Close]));
    var s4 := s3.(closeOnce := AtPipe);
    ReachableStep(x.(server := s3, down := [Close]), OnServer(TeardownNext), x.(server := s4, down := [Close]));
    var s5 := s4.(closeOnce := CloseOnce.Done, pipeClosed := true);
    ReachableStep(x.(server := s4, down := [Close]), OnServer(TeardownNext), x.(server := s5, down := [Close]));
    var s6 := s5.(killer := Gone);
    ReachableStep(x.(server := s5, down := [Close]), OnServer(KillerDone), x.(server := s6, down := [Close]));
    var s7 := s6.(opener := Waiting);
    ReachableStep(x.(server := s6, down := [Close]), OnServer(WriteOpen), x.(server := s7, down := [Close, Open]));
    s := ErrorTaken(s7);
  }

  lemma ErrorTaken(s1: Server) returns (s: Server)
    requires Reachable(NEW_SESSION.(server := s1, down := [Close, Open]))
    requires s1.opener.Waiting? && s1.result == [false] && s1.closeOnce.Done?
    ensures s == s1.(opener := Failed, result := [])
    ensures Reachable(NEW_SESSION.(server := s, down := [Close, Open]))
  {
    var x := NEW_SESSION.(down := [Close, Open]);
    var s2 := s1.(opener := Closing, result := []);
    ReachableStep(x.(server := s1), OnServer(TakeResult), x.(server := s2));
    s := s2.(opener := Failed);
    ReachableStep(x.(server := s2), OnServer(OpenFails), x.(server := s));
  }

  lemma AgentOpens(x: Session) returns (y: Session)
    requires Reachable(x) && x.agent == NEW_AGENT && x.up == [] && x.upAt == 0 && !x.upBroken
    requires x.downAt < |x.down| && x.down[x.downAt].Open?
    ensures y == x.(downAt := x.downAt + 1, up := [Opened],
                    agent := NEW_AGENT.(inMap := true, inserted := true, pump := Reading, waiter := Watching))
    ensures Reachable(y)
  {
    var x1 := x.(downAt := x.downAt + 1, agent := NEW_AGENT.(handler := Inserting));
    ReachableStep(x, OnAgent(Take(Open, true)), x1);
    var x2 := x1.(agent := NEW_AGENT.(handler := Announcing, inMap := true, inserted := true));
    ReachableStep(x1, OnAgent(Insert), x2);
    y := x2.(agent := NEW_AGENT.(inMap := true, inserted := true, pump := Reading, waiter := Watching), up := [Opened]);
    ReachableStep(x2, OnAgent(Announce), y);
  }

  /**
    A session closed before it was asked for leaves a shell running on the Agent that the Server has
    given up: nothing is left on either wire to end it.
   */
  lemma OrphanReachable() returns (x: Session)
    ensures Reachable(x) && AtRest(x) && Orphaned(x)
    ensures x.server.opener.Failed? && !x.server.inMap && x.agent.inMap
  {
    var s := OpenAfterClose();
    var x1 := NEW_SESSION.(server := s, down := [Close, Open]);
    var x2 := x1.(downAt := 1);
    ReachableStep(x1, OnAgent(Take(Close, false)), x2);
    var x3 := AgentOpens(x2);
    x := x3.(upAt := 1);
    ReachableStep(x3, OnServer(Receive(Opened)), x);
    assert x.down[0].Close? && Open !in x.down[..0];
  }
}
