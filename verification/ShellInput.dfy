/** What is typed at the Portal, on its way to the PTY. */
module ShellInput {
  import opened Basics
  import opened Base64
  import opened ShellSession
  import opened ShellInvariants
  import opened ShellRuns
  import opened ShellOpens

  function InputOf(m: ServerMsg): seq<byte> {
    if m.Input? && StdDecode(m.text).Some? then StdDecode(m.text).value else []
  }

  /** The input on a wire. */
  function Inputs(down: seq<ServerMsg>): seq<byte> {
    if down == [] then [] else Inputs(down[..|down| - 1]) + InputOf(down[|down| - 1])
  }

  /** Input that passed the check for a closed session and is not on the wire. */
  function Unwritten(w: Writer): seq<byte> {
    if w.Typing? then w.bytes else []
  }

  /** Input that the Agent has read and not handed to the PTY. */
  function Unfed(h: Handler): seq<byte> {
    if h.Feeding? then h.bytes else []
  }

  /** All that was typed is on the wire, in order; only a broken wire loses the tail. */
  ghost predicate TypedInv(s: Server, down: seq<ServerMsg>, broken: bool) {
    && Inputs(down) <= s.typed
    && (!broken ==> Inputs(down) + Unwritten(s.writer) == s.typed)
  }

  /** The PTY has a prefix of what was read off the wire, and all of it while the Agent has the session. */
  ghost predicate FedInv(g: Agent, taken: seq<byte>) {
    && g.fed + Unfed(g.handler) <= taken
    && (g.inMap ==> g.fed + Unfed(g.handler) == taken)
    && (g.handler.Inserting? ==> taken == [])
  }

  ghost predicate InputInv(x: Session) {
    && InRange(x)
    && TypedInv(x.server, x.down, x.downBroken)
    && FedInv(x.agent, Inputs(x.down[..x.downAt]))
  }

  lemma InputsAppend(down: seq<ServerMsg>, m: ServerMsg)
    ensures Inputs(down + [m]) == Inputs(down) + InputOf(m)
  {
    assert (down + [m])[..|down|] == down;
  }

  lemma {:induction false} InputsPrefix(down: seq<ServerMsg>, k: nat)
    requires k <= |down|
    ensures Inputs(down[..k]) <= Inputs(down)
    decreases |down|
  {
    if k < |down| {
      var n := |down| - 1;
      InputsPrefix(down[..n], k);
      assert down[..n][..k] == down[..k];
    } else {
      assert down[..k] == down;
    }
  }

  lemma {:induction false} NoInputs(down: seq<ServerMsg>)
    requires forall m :: m in down ==> !m.Input?
    ensures Inputs(down) == []
  {
    if down != [] {
      NoInputs(down[..|down| - 1]);
    }
  }

  lemma NothingBeforeOpen(down: seq<ServerMsg>, killed: bool, k: nat)
    requires DownWire(down, killed) && k < |down| && down[k].Open?
    ensures Inputs(down[..k]) == []
  {
    assert forall i :: 0 <= i < k && down[i].Input? ==> Open in down[..i];
    NoInputs(down[..k]);
  }

  // The Server's end

  lemma WritingKeepsTyped(b: ServerAct, s: Server, down: seq<ServerMsg>, broken: bool)
    requires TypedInv(s, down, broken) && UseHandle(b, s, broken).Moved?
    ensures var r := UseHandle(b, s, broken); TypedInv(r.next, down + Sent(r.sent), broken)
  {
    hide StdEncode, StdDecode;
    var r := UseHandle(b, s, broken);
    if r.sent.Some? {
      InputsAppend(down, r.sent.value);
      if s.writer.Typing? {
        StdRoundTrip(s.writer.bytes);
      }
    } else {
      assert down + Sent(r.sent) == down;
    }
  }

  /** The other steps of the Server neither type nor write input. */
  lemma OthersDoNotType(b: ServerAct, s: Server, broken: bool)
    requires ServerNext(b, s, broken).Moved? && UseHandle(b, s, broken).Blocked?
    ensures var r := ServerNext(b, s, broken);
            && r.next.typed == s.typed && r.next.writer == s.writer
            && (r.sent.Some? ==> !r.sent.value.Input?)
  {
    hide StdDecode;
  }

  lemma UseIsUse(b: ServerAct, s: Server, broken: bool)
    requires UseHandle(b, s, broken).Moved?
    ensures ServerNext(b, s, broken) == UseHandle(b, s, broken)
  {
  }

  lemma ServerKeepsTyped(b: ServerAct, s: Server, down: seq<ServerMsg>, broken: bool)
    requires TypedInv(s, down, broken) && ServerNext(b, s, broken).Moved?
    ensures var r := ServerNext(b, s, broken); TypedInv(r.next, down + Sent(r.sent), broken)
  {
    hide ServerNext, UseHandle, Inputs;
    if UseHandle(b, s, broken).Moved? {
      UseIsUse(b, s, broken);
      WritingKeepsTyped(b, s, down, broken);
    } else {
      OthersDoNotType(b, s, broken);
      var r := ServerNext(b, s, broken);
      if r.sent.Some? {
        InputsAppend(down, r.sent.value);
      } else {
        assert down + Sent(r.sent) == down;
      }
    }
  }

  // The Agent's end

  lemma TakingKeepsFed(m: ServerMsg, started: bool, g: Agent, taken: seq<byte>, broken: bool)
    requires FedInv(g, taken) && g.handler.Listening? && (m.Open? ==> taken == [])
    ensures var r := Handle(Take(m, started), g, broken); r.Moved? && FedInv(r.next, taken + InputOf(m))
  {
    hide StdDecode;
  }

  lemma HandlerKeepsFed(b: AgentAct, g: Agent, taken: seq<byte>, broken: bool)
    requires FedInv(g, taken) && !b.Take? && Handle(b, g, broken).Moved?
    ensures FedInv(Handle(b, g, broken).next, taken)
  {
  }

  lemma SessionKeepsFed(b: AgentAct, g: Agent, taken: seq<byte>, broken: bool)
    requires FedInv(g, taken) && RunSession(b, g, broken).Moved?
    ensures FedInv(RunSession(b, g, broken).next, taken)
  {
    hide StdEncode;
  }

  lemma TakeListens(m: ServerMsg, started: bool, g: Agent, broken: bool)
    requires AgentNext(Take(m, started), g, broken).Moved?
    ensures g.handler.Listening?
    ensures AgentNext(Take(m, started), g, broken) == Handle(Take(m, started), g, broken)
  {
  }

  lemma AgentKeepsInput(b: AgentAct, x: Session, y: Session)
    requires DownInv(x) && InputInv(x) && Step(OnAgent(b), x, y)
    ensures InputInv(y)
  {
    hide FedInv, TypedInv, AgentNext, Handle, RunSession, Inputs, InputOf;
    var g, broken, taken := x.agent, x.upBroken, x.down[..x.downAt];
    match b {
      case Take(m, started) =>
        assert x.down[..x.downAt + 1] == taken + [m];
        InputsAppend(taken, m);
        TakeListens(m, started, g, broken);
        if m.Open? {
          NothingBeforeOpen(x.down, !x.server.killer.Away?, x.downAt);
        }
        TakingKeepsFed(m, started, g, Inputs(taken), broken);
      case _ =>
        if Handle(b, g, broken).Moved? {
          HandleOnly(b, g, broken);
          HandlerKeepsFed(b, g, Inputs(taken), broken);
        } else {
          HandleBlocked(b, g, broken);
          SessionKeepsFed(b, g, Inputs(taken), broken);
        }
    }
  }

  lemma StepKeepsInput(a: Act, x: Session, y: Session)
    requires DownInv(x) && InputInv(x) && Step(a, x, y)
    ensures InputInv(y)
  {
    match a {
      case OnAgent(b) => AgentKeepsInput(b, x, y);
      case OnServer(b) =>
        hide DownInv, FedInv, TypedInv, ServerNext, Inputs;
        var r := ServerNext(b, x.server, x.downBroken);
        ServerKeepsTyped(b, x.server, x.down, x.downBroken);
        Slices(x.down, Sent(r.sent));
      case _ =>
    }
  }

  lemma {:induction false} RunKeepsInput(run: seq<Session>, acts: seq<Act>, n: nat)
    requires IsRun(run, acts) && n <= |acts|
    ensures InputInv(run[n])
    decreases n
  {
    hide InputInv, Step, Inv;
    if n == 0 {
      NothingTyped();
    } else {
      RunKeepsInput(run, acts, n - 1);
      RunKeepsInv(run, acts, n - 1);
      InvParts(run[n - 1]);
      assert Step(acts[n - 1], run[n - 1], run[n - 1 + 1]);
      StepKeepsInput(acts[n - 1], run[n - 1], run[n]);
    }
  }

  lemma NothingTyped()
    ensures InputInv(NEW_SESSION)
  {
  }

  lemma ReachableInput(x: Session)
    requires Reachable(x)
    ensures InputInv(x)
  {
    var run, acts :| IsRun(run, acts) && run[|acts|] == x;
    RunKeepsInput(run, acts, |acts|);
  }

  /** What the PTY has taken is a prefix of what was typed: nothing is reordered, doubled or made up. */
  lemma InputIsPrefix(x: Session)
    requires Reachable(x)
    ensures x.agent.fed <= x.server.typed
  {
    ReachableInput(x);
    InputsPrefix(x.down, x.downAt);
  }

  /** While the Agent has the session and the wire is whole, all of it arrives. */
  lemma InputIsComplete(x: Session)
    requires Reachable(x) && x.agent.inMap && !x.downBroken && x.downAt == |x.down|
    requires Unwritten(x.server.writer) == [] && Unfed(x.agent.handler) == []
    ensures x.agent.fed == x.server.typed
  {
    ReachableInput(x);
    assert x.down[..x.downAt] == x.down;
  }

  /** And it can: in an open session anything typed is fed to the PTY. */
  lemma InputArrives(bytes: seq<byte>) returns (x: Session)
    ensures Reachable(x) && AtRest(x) && x.agent.fed == x.server.typed == bytes && x.server.inMap && x.agent.inMap
  {
    hide Step, StdDecode, StdEncode;
    StdRoundTrip(bytes);
    var x0 := OpenedOnServer();
    assert x0.server.typed + bytes == bytes;
    var x2 := InputWritten(x0, bytes);
    x := InputDelivered(x2, StdEncode(bytes), bytes);
  }

  lemma InputWritten(x0: Session, bytes: seq<byte>) returns (x2: Session)
    requires Reachable(x0) && x0.server == OpenServer() && x0.down == [Open] && !x0.downBroken
    ensures x2 == x0.(server := x0.server.(typed := bytes), down := [Open, Input(StdEncode(bytes))]) && Reachable(x2)
  {
    hide StdEncode;
    var x1 := x0.(server := x0.server.(writer := Typing(bytes), typed := bytes));
    assert x0.server.typed + bytes == bytes;
    ReachableStep(x0, OnServer(CheckInput(bytes)), x1);
    x2 := x1.(server := x1.server.(writer := Quiet), down := [Open, Input(StdEncode(bytes))]);
    assert x1.down + [Input(StdEncode(bytes))] == x2.down;
    ReachableStep(x1, OnServer(WriteUser), x2);
  }

  lemma InputDelivered(x2: Session, text: string, bytes: seq<byte>) returns (x: Session)
    requires Reachable(x2) && StdDecode(text) == Some(bytes) && x2.down == [Open, Input(text)] && x2.downAt == 1
    requires x2.agent == NEW_AGENT.(inMap := true, inserted := true, pump := Reading, waiter := Watching)
    ensures x == x2.(agent := x2.agent.(fed := bytes), downAt := 2) && Reachable(x)
  {
    hide StdDecode;
    var x3 := x2.(agent := x2.agent.(handler := Feeding(bytes)), downAt := 2);
    ReachableStep(x2, OnAgent(Take(Input(text), true)), x3);
    x := x3.(agent := x3.agent.(handler := Listening, fed := bytes));
    assert x3.agent.fed + bytes == bytes;
    ReachableStep(x3, OnAgent(FeedOk), x);
  }
}
