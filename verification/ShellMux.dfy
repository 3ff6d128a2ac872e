/**
  Many shell sessions over one WebSocket.

  All sessions of a connection share one wire in each direction, one read loop, one Agent-side message
  handler, and one failing writer.  Seen through the messages that carry its id, each of them still
  moves exactly as a session that has the connection to itself, so whatever holds in every run of one
  session holds of every session in every run of a connection.
 */
module ShellMux {
  import opened Basics
  import opened ShellSession
  import opened ShellInvariants
  import opened ShellRuns
  import opened ShellInput

  type Id = string

  datatype Ends = Ends(server: Server, agent: Agent)

  datatype Conn = Conn(
    ends: map<Id, Ends>,
    down: seq<(Id, ServerMsg)>, downAt: nat, downBroken: bool,
    up: seq<(Id, AgentMsg)>, upAt: nat, upBroken: bool)

  const NEW_CONN := Conn(map[], [], 0, false, [], 0, false)

  /** An id that was never used stands for a session that has not started. */
  function At(c: Conn, id: Id): Ends {
    if id in c.ends then c.ends[id] else Ends(NEW_SERVER, NEW_AGENT)
  }

  function Tagged<M>(id: Id, m: Option<M>): seq<(Id, M)> {
    match m
    case Some(v) => [(id, v)]
    case None => []
  }

  /** The read loop handles one message at a time, for whatever session. */
  ghost predicate ReadLoopFree(c: Conn) {
    forall id :: At(c, id).server.reader.Free?
  }

  ghost predicate HandlerFree(c: Conn) {
    forall id :: At(c, id).agent.handler.Listening?
  }

  /** `shutdown` empties the map of sessions under the connection's mutex. */
  function Collected(s: Server, broken: bool): Server {
    var r := ServerNext(Collect, s, broken);
    if r.Moved? then r.next else s
  }

  datatype ConnAct = Act(id: Id, act: Act) | CollectAll

  ghost predicate ConnStep(a: ConnAct, c: Conn, d: Conn) {
    match a
    case CollectAll =>
      d == c.(ends := map id | id in c.ends :: c.ends[id].(server := Collected(c.ends[id].server, c.downBroken)))
    case Act(id, OnServer(b)) =>
      var r := ServerNext(b, At(c, id).server, c.downBroken);
      && r.Moved? && !b.Collect?
      && (b.Receive? ==> ReadLoopFree(c) && c.upAt < |c.up| && c.up[c.upAt] == (id, b.msg))
      && d == c.(ends := c.ends[id := At(c, id).(server := r.next)],
                 down := c.down + Tagged(id, r.sent),
                 upAt := if b.Receive? then c.upAt + 1 else c.upAt)
    case Act(id, OnAgent(b)) =>
      var r := AgentNext(b, At(c, id).agent, c.upBroken);
      && r.Moved?
      && (b.Take? ==> HandlerFree(c) && c.downAt < |c.down| && c.down[c.downAt] == (id, b.msg))
      && d == c.(ends := c.ends[id := At(c, id).(agent := r.next)],
                 up := c.up + Tagged(id, r.sent),
                 downAt := if b.Take? then c.downAt + 1 else c.downAt)
    case Act(_, BreakDown) => d == c.(downBroken := true)
    case Act(_, BreakUp) => d == c.(upBroken := true)
  }

  // The part of a connection that belongs to one session

  function Only<M>(wire: seq<(Id, M)>, id: Id): seq<M> {
    if wire == [] then []
    else
      var m := wire[|wire| - 1];
      Only(wire[..|wire| - 1], id) + (if m.0 == id then [m.1] else [])
  }

  ghost predicate InOrder(c: Conn) {
    c.downAt <= |c.down| && c.upAt <= |c.up|
  }

  function View(c: Conn, id: Id): Session
    requires c.downAt <= |c.down| && c.upAt <= |c.up|
  {
    Session(At(c, id).server, At(c, id).agent,
            Only(c.down, id), |Only(c.down[..c.downAt], id)|, c.downBroken,
            Only(c.up, id), |Only(c.up[..c.upAt], id)|, c.upBroken)
  }

  lemma OnlyAppend<M>(wire: seq<(Id, M)>, m: (Id, M), id: Id)
    ensures Only(wire + [m], id) == Only(wire, id) + (if m.0 == id then [m.1] else [])
  {
    assert (wire + [m])[..|wire|] == wire;
  }

  lemma {:induction false} OnlyPrefix<M>(wire: seq<(Id, M)>, k: nat, id: Id)
    requires k <= |wire|
    ensures Only(wire[..k], id) <= Only(wire, id)
    decreases |wire|
  {
    if k == |wire| {
      assert wire[..k] == wire;
    } else {
      OnlyPrefix(wire[..|wire| - 1], k, id);
      assert wire[..|wire| - 1][..k] == wire[..k];
    }
  }

  /** Taking the head of the shared wire takes the head of its session's share, and of no other's. */
  lemma TakeHead<M>(wire: seq<(Id, M)>, k: nat, id: Id)
    requires k < |wire|
    ensures var n := |Only(wire[..k], id)|;
            if wire[k].0 == id
            then n < |Only(wire, id)| && Only(wire, id)[n] == wire[k].1 && |Only(wire[..k + 1], id)| == n + 1
            else |Only(wire[..k + 1], id)| == n
  {
    assert wire[..k + 1] == wire[..k] + [wire[k]];
    OnlyAppend(wire[..k], wire[k], id);
    OnlyPrefix(wire, k + 1, id);
  }

  lemma OnlyTagged<M>(wire: seq<(Id, M)>, k: nat, who: Id, m: Option<M>, id: Id)
    requires k <= |wire|
    ensures Only(wire + Tagged(who, m), id) == Only(wire, id) + (if who == id then Sent(m) else [])
    ensures (wire + Tagged(who, m))[..k] == wire[..k]
  {
    if m.Some? {
      OnlyAppend(wire, (who, m.value), id);
    } else {
      assert wire + Tagged(who, m) == wire;
    }
  }

  /** In each step of a connection, each session takes one step of its own or none. */
  ghost predicate Refines(x: Session, y: Session) {
    x == y || exists a :: Step(a, x, y)
  }

  lemma ServerActRefines(who: Id, b: ServerAct, c: Conn, d: Conn, id: Id)
    requires InOrder(c) && ConnStep(Act(who, OnServer(b)), c, d)
    ensures InOrder(d) && Refines(View(c, id), View(d, id))
  {
    hide ServerNext, Only;
    var r := ServerNext(b, At(c, who).server, c.downBroken);
    OnlyTagged(c.down, c.downAt, who, r.sent, id);
    if b.Receive? {
      TakeHead(c.up, c.upAt, id);
    }
    if who == id {
      assert Step(OnServer(b), View(c, id), View(d, id));
    } else {
      assert View(c, id) == View(d, id);
    }
  }

  lemma AgentActRefines(who: Id, b: AgentAct, c: Conn, d: Conn, id: Id)
    requires InOrder(c) && ConnStep(Act(who, OnAgent(b)), c, d)
    ensures InOrder(d) && Refines(View(c, id), View(d, id))
  {
    hide AgentNext, Only;
    var r := AgentNext(b, At(c, who).agent, c.upBroken);
    OnlyTagged(c.up, c.upAt, who, r.sent, id);
    if b.Take? {
      TakeHead(c.down, c.downAt, id);
    }
    if who == id {
      assert Step(OnAgent(b), View(c, id), View(d, id));
    } else {
      assert View(c, id) == View(d, id);
    }
  }

  lemma CollectAllRefines(c: Conn, d: Conn, id: Id)
    requires InOrder(c) && ConnStep(CollectAll, c, d)
    ensures InOrder(d) && Refines(View(c, id), View(d, id))
  {
    var r := ServerNext(Collect, At(c, id).server, c.downBroken);
    if r.Moved? {
      assert Step(OnServer(Collect), View(c, id), View(d, id));
    }
  }

  lemma ConnStepRefines(a: ConnAct, c: Conn, d: Conn, id: Id)
    requires InOrder(c) && ConnStep(a, c, d)
    ensures InOrder(d) && Refines(View(c, id), View(d, id))
  {
    match a {
      case CollectAll => CollectAllRefines(c, d, id);
      case Act(who, OnServer(b)) => ServerActRefines(who, b, c, d, id);
      case Act(who, OnAgent(b)) => AgentActRefines(who, b, c, d, id);
      case Act(_, BreakDown) => assert Step(BreakDown, View(c, id), View(d, id));
      case Act(_, BreakUp) => assert Step(BreakUp, View(c, id), View(d, id));
    }
  }

  // Whole runs of a connection

  ghost predicate IsConnRun(run: seq<Conn>, acts: seq<ConnAct>) {
    && |run| == |acts| + 1
    && run[0] == NEW_CONN
    && forall i :: 0 <= i < |acts| ==> ConnStep(acts[i], run[i], run[i + 1])
  }

  /**
    In every interleaving of every session of a connection, every session is in a state it can reach
    alone: all that holds of one session's runs holds of each session here.
   */
  lemma {:induction false} EachSessionAlone(run: seq<Conn>, acts: seq<ConnAct>, n: nat, id: Id)
    requires IsConnRun(run, acts) && n <= |acts|
    ensures InOrder(run[n]) && Reachable(View(run[n], id))
    decreases n
  {
    hide ConnStep, Step;
    if n == 0 {
      StartReachable();
    } else {
      EachSessionAlone(run, acts, n - 1, id);
      ConnStepRefines(acts[n - 1], run[n - 1], run[n], id);
      var x, y := View(run[n - 1], id), View(run[n], id);
      if x != y {
        var a :| Step(a, x, y);
        ReachableStep(x, a, y);
      }
    }
  }

  /** On the shared wires, no id is ever closed twice by the same side. */
  lemma NoIdClosedTwice(run: seq<Conn>, acts: seq<ConnAct>, n: nat, id: Id)
    requires IsConnRun(run, acts) && n <= |acts|
    ensures Unique(run[n].down, (id, Close)) && Unique(run[n].up, (id, Closed))
  {
    EachSessionAlone(run, acts, n, id);
    OneCloseEach(View(run[n], id));
    UniqueShare(run[n].down, id, Close);
    UniqueShare(run[n].up, id, Closed);
  }

  lemma {:induction false} UniqueShare<M>(wire: seq<(Id, M)>, id: Id, m: M)
    requires Unique(Only(wire, id), m)
    ensures Unique(wire, (id, m))
  {
    forall i, j | 0 <= i < j < |wire| && wire[i] == (id, m)
      ensures wire[j] != (id, m)
    {
      var p, q := |Only(wire[..i], id)|, |Only(wire[..j], id)|;
      TakeHead(wire, i, id);
      TakeHead(wire, j, id);
      OnlyPrefix(wire[..j], i + 1, id);
      assert wire[..j][..i + 1] == wire[..i + 1];
    }
  }

  /** Each Portal terminal reads a prefix of its own PTY's output, and of no other's. */
  lemma OutputsNeverMix(run: seq<Conn>, acts: seq<ConnAct>, n: nat, id: Id)
    requires IsConnRun(run, acts) && n <= |acts|
    ensures At(run[n], id).server.out <= At(run[n], id).agent.read
  {
    EachSessionAlone(run, acts, n, id);
    OutputIsPrefix(View(run[n], id));
  }

  /** And each PTY is fed a prefix of what was typed at its own terminal. */
  lemma InputsNeverMix(run: seq<Conn>, acts: seq<ConnAct>, n: nat, id: Id)
    requires IsConnRun(run, acts) && n <= |acts|
    ensures At(run[n], id).agent.fed <= At(run[n], id).server.typed
  {
    EachSessionAlone(run, acts, n, id);
    InputIsPrefix(View(run[n], id));
  }

  lemma {:induction false} ViewRun(run: seq<Conn>, acts: seq<ConnAct>, i: nat, j: nat, id: Id)
    requires IsConnRun(run, acts) && i <= j <= |acts|
    requires !At(run[i], id).server.opener.NotStarted? && !At(run[i], id).server.inMap
    ensures !At(run[j], id).server.opener.NotStarted? && !At(run[j], id).server.inMap
    decreases j
  {
    hide ConnStep, Step;
    if i < j {
      ViewRun(run, acts, i, j - 1, id);
      EachSessionAlone(run, acts, j - 1, id);
      ConnStepRefines(acts[j - 1], run[j - 1], run[j], id);
      var x, y := View(run[j - 1], id), View(run[j], id);
      if x != y {
        var a :| Step(a, x, y);
        StaysGone(a, x, y);
      }
    }
  }

  /** On a shared connection too, a session whose `Close` returned or whose `OpenShell` failed stays out of the map. */
  lemma ClosedForGoodShared(run: seq<Conn>, acts: seq<ConnAct>, i: nat, j: nat, id: Id)
    requires IsConnRun(run, acts) && i <= j <= |acts| && Released(At(run[i], id).server)
    ensures !At(run[j], id).server.inMap
  {
    EachSessionAlone(run, acts, i, id);
    ReachableInv(View(run[i], id));
    ViewRun(run, acts, i, j, id);
  }
}
