/**
  The Agent's table of shells, method by method.

  Each method here runs to its end undisturbed; module `ShellSession` cuts the same code into the steps that other
  goroutines can come between.  The lemmas at the end say that the steps, taken without interruption, do what the
  methods do.
 */
module AgentManager {
  import opened Basics
  import opened Base64
  import opened ShellSession
  import opened ShellMux

  class ShellProcess {
    const id: string
    var once: bool
    var closed: bool
    var ptyOpen: bool
    var running: bool
    var typed: seq<byte>  // what the PTY has been fed

    constructor (id: string)
      ensures this.id == id && !once && !closed && ptyOpen && running && typed == []
    {
      this.id := id;
      once, closed, ptyOpen, running, typed := false, false, true, true, [];
    }

    /** The body of the `Once` ran completely or not at all. */
    ghost predicate Consistent()
      reads this
    {
      once == closed && (closed ==> !ptyOpen && !running)
    }

    ghost predicate Ended()
      reads this
    {
      closed && !ptyOpen && !running
    }

    /** Closes the channel and the PTY, kills the process and waits for it; a second call changes nothing. */
    method Close()
      requires Consistent()
      modifies this`once, this`closed, this`ptyOpen, this`running
      ensures Consistent() && once && Ended()
    {
      if !once {
        once := true;
        closed := true;
        ptyOpen := false;
        running := false;
      }
    }
  }

  class ShellManager {
    var shells: map<string, ShellProcess>
    var outbox: seq<(string, AgentMsg)>
    var broken: bool

    constructor ()
      ensures shells == map[] && outbox == [] && !broken
    {
      shells, outbox, broken := map[], [], false;
    }

    /** What there is to see of one id: whether it is in the table, and what was written about it. */
    ghost function Seen(id: string): View
      reads this
    {
      View(id in shells, Only(outbox, id))
    }

    ghost predicate Valid()
      reads this, shells.Values
    {
      forall id :: id in shells ==> shells[id].id == id && shells[id].Consistent() && !shells[id].closed
    }

    method WriteJson(id: string, m: AgentMsg) returns (ok: bool)
      modifies this`outbox
      ensures ok == !broken && outbox == old(outbox) + Tagged(id, Put(broken, m))
      ensures forall other :: Seen(other) ==
                if other == id then Told(old(Seen(id)), Put(broken, m)) else old(Seen(other))
    {
      forall other {
        OnlyTagged(outbox, 0, id, Put(broken, m), other);
      }
      ok := !broken;
      if ok {
        outbox := outbox + [(id, m)];
      }
    }

    method CloseShell(id: string, notify: bool)
      requires Valid()
      modifies this`shells, this`outbox, if id in shells then {shells[id]} else {}
      ensures Valid() && shells == old(shells) - {id}
      ensures id in old(shells) ==> old(shells)[id].Ended() && old(shells)[id].typed == old(shells[id].typed)
      ensures outbox == old(outbox) + Tagged(id, CloseSends(id in old(shells), notify, broken))
      ensures Seen(id) == AfterClose(old(Seen(id)), notify, broken)
      ensures forall other :: other != id ==> Seen(other) == old(Seen(other))
    {
      hide Only;
      if id !in shells {
        return;
      }
      var session := shells[id];
      shells := shells - {id};
      session.Close();
      if notify {
        var _ := WriteJson(id, Closed);
      }
    }

    /** `started` tells whether the PTY could be started. */
    method Open(id: string, started: bool)
      requires Valid()
      modifies this`shells, this`outbox, if id in shells then {shells[id]} else {}
      ensures Valid()
      ensures id == "" || !started ==> shells == old(shells)
      ensures id != "" && started && broken ==> shells == old(shells) - {id}
      ensures id != "" && started && !broken ==>
                id in shells && fresh(shells[id]) && shells[id].typed == [] && shells == old(shells)[id := shells[id]]
      ensures id != "" && started && id in old(shells) ==> old(shells)[id].Ended()
      ensures outbox == old(outbox) + if id == "" then [] else Tagged(id, OpenSends(started, broken))
      ensures id != "" ==> Seen(id) == AfterOpen(old(Seen(id)), started, broken)
      ensures forall other :: other != id || id == "" ==> Seen(other) == old(Seen(other))
    {
      hide Only;
      if id == "" {
        return;
      }
      if !started {
        var _ := WriteJson(id, Error);
        return;
      }
      Insert(id);
      var ok := WriteJson(id, Opened);
      if !ok {
        CloseShell(id, false);
      }
    }

    /** The part of `Open` under the manager's mutex. */
    method Insert(id: string)
      requires Valid()
      modifies this`shells, if id in shells then {shells[id]} else {}
      ensures Valid() && id in shells && fresh(shells[id]) && shells[id].typed == []
      ensures shells == old(shells)[id := shells[id]]
      ensures id in old(shells) ==> old(shells)[id].Ended()
    {
      var session := new ShellProcess(id);
      if id in shells {
        shells[id].Close();
      }
      shells := shells[id := session];
    }

    /** `failsAt` tells after how many bytes the PTY fails, if it does. */
    method Write(id: string, data: string, failsAt: Option<nat>)
      requires Valid()
      requires StdDecode(data).Some? && failsAt.Some? ==> failsAt.value <= |StdDecode(data).value|
      modifies this`shells, this`outbox, if id in shells then {shells[id]} else {}
      ensures Valid()
      ensures id in old(shells) ==>
                old(shells)[id].typed == old(shells[id].typed) + TakenBytes(true, data, failsAt)
      ensures var fails := id in old(shells) && StdDecode(data).Some? && failsAt.Some?;
              && (fails ==> old(shells)[id].Ended())
              && shells == (if fails then old(shells) - {id} else old(shells))
              && outbox == old(outbox) + Tagged(id, CloseSends(fails, true, broken))
              && Seen(id) == AfterWrite(old(Seen(id)), data, failsAt.Some?, broken)
      ensures forall other :: other != id ==> Seen(other) == old(Seen(other))
    {
      hide Only;
      if id !in shells {
        return;
      }
      var raw := StdDecode(data);
      if raw.None? {
        return;
      }
      var session := shells[id];
      if failsAt.None? {
        session.typed := session.typed + raw.value;
      } else {
        session.typed := session.typed + raw.value[..failsAt.value];
        CloseShell(id, true);
      }
    }

    /** On disconnect: every shell is closed, and nobody is told. */
    method CloseAll()
      requires Valid()
      modifies this`shells, this`outbox, shells.Values
      ensures shells == map[] && outbox == old(outbox)
      ensures forall s :: s in old(shells.Values) ==> s.Ended()
    {
      ghost var before := shells;
      var ids := shells.Keys;
      while ids != {}
        invariant Valid() && outbox == old(outbox)
        invariant shells.Keys == ids && ids <= before.Keys
        invariant forall id :: id in ids ==> shells[id] == before[id]
        invariant forall id :: id in before && id !in ids ==> before[id].Ended()
        decreases ids
      {
        var id :| id in ids;
        ids := ids - {id};
        CloseShell(id, false);
      }
    }
  }

  datatype View = View(present: bool, sent: seq<AgentMsg>)

  /** What closing a shell writes: a close, if there was one to close and the Server is to know. */
  function CloseSends(present: bool, notify: bool, broken: bool): Option<AgentMsg> {
    if present && notify then Put(broken, Closed) else None
  }

  function OpenSends(started: bool, broken: bool): Option<AgentMsg> {
    Put(broken, if started then Opened else Error)
  }

  function Told(v: View, m: Option<AgentMsg>): View {
    v.(sent := v.sent + Sent(m))
  }

  function AfterClose(v: View, notify: bool, broken: bool): View {
    View(false, v.sent + Sent(CloseSends(v.present, notify, broken)))
  }

  function AfterOpen(v: View, started: bool, broken: bool): View {
    View(if started then !broken else v.present, v.sent + Sent(OpenSends(started, broken)))
  }

  /** The bytes that reach the PTY. */
  function TakenBytes(present: bool, data: string, failsAt: Option<nat>): seq<byte>
    requires StdDecode(data).Some? && failsAt.Some? ==> failsAt.value <= |StdDecode(data).value|
  {
    if !present then []
    else
      match StdDecode(data)
      case Some(bytes) => if failsAt.Some? then bytes[..failsAt.value] else bytes
      case None => []
  }

  function AfterWrite(v: View, data: string, fails: bool, broken: bool): View {
    if v.present && StdDecode(data).Some? && fails then AfterClose(v, true, broken) else v
  }

  // Steps and methods

  function Moves(acts: seq<AgentAct>, g: Agent, broken: bool): Option<(Agent, seq<AgentMsg>)> {
    if acts == [] then Some((g, []))
    else
      match AgentNext(acts[0], g, broken)
      case Blocked => None
      case Moved(next, sent) =>
        match Moves(acts[1..], next, broken)
        case None => None
        case Some((end, rest)) => Some((end, Sent(sent) + rest))
  }

  lemma {:induction false} MoveFirst(a: AgentAct, rest: seq<AgentAct>, g: Agent, broken: bool)
    ensures Moves([a] + rest, g, broken) ==
            match AgentNext(a, g, broken)
            case Blocked => None
            case Moved(next, sent) =>
              match Moves(rest, next, broken)
              case None => None
              case Some((end, more)) => Some((end, Sent(sent) + more))
  {
    assert ([a] + rest)[1..] == rest;
  }

  lemma NoMoves(g: Agent, broken: bool)
    ensures Moves([], g, broken) == Some((g, []))
  {}

  /** The places that call `closeShell`, and whether the Server is told. */
  predicate CallsClose(a: AgentAct) {
    a.FeedFails? || a.PumpCloses? || a.ProcessExits? || a.Abort? || a.Sweep? || (a.Take? && a.msg.Close?)
  }

  predicate Tells(a: AgentAct) {
    a.FeedFails? || a.PumpCloses? || a.ProcessExits?
  }

  lemma ClosingStep(a: AgentAct, g: Agent, broken: bool)
    requires CallsClose(a) && AgentNext(a, g, broken).Moved?
    ensures var r := AgentNext(a, g, broken);
            r.sent.None? && !r.next.inMap && r.next.winner == if g.inMap then Ending(Tells(a)) else g.winner
  {
  }

  /** Each of these calls, not interrupted, does to the session what the method `CloseShell` does to the object. */
  lemma StepsMatchClose(a: AgentAct, g: Agent, up: seq<AgentMsg>, broken: bool)
    requires CallsClose(a) && AgentNext(a, g, broken).Moved?
    ensures var r := Moves([a] + Closing(g.inMap, Tells(a)), g, broken);
            r.Some? && View(r.value.0.inMap, up + r.value.1) == AfterClose(View(g.inMap, up), Tells(a), broken)
  {
    ClosingStep(a, g, broken);
    var h := AgentNext(a, g, broken).next;
    hide Moves, AgentNext;
    MoveFirst(a, Closing(g.inMap, Tells(a)), g, broken);
    NoMoves(h, broken);
    if g.inMap {
      EndingMoves(h, broken);
    }
  }

  function Closing(present: bool, notify: bool): seq<AgentAct> {
    if !present then [] else if notify then [EndSession, Notify] else [EndSession]
  }

  lemma EndingMoves(h: Agent, broken: bool)
    requires h.winner.Ending?
    ensures Moves(Closing(true, h.winner.notify), h, broken)
            == Some((h.(winner := Ended), Sent(if h.winner.notify then Put(broken, Closed) else None)))
  {
    hide Moves;
    var none: seq<AgentMsg> := [];
    NoMoves(h.(winner := Ended), broken);
    if h.winner.notify {
      var n := h.(winner := Notifying);
      MoveFirst(EndSession, [Notify], h, broken);
      MoveFirst(Notify, [], n, broken);
      assert Closing(true, true) == [EndSession] + [Notify] && [Notify] + [] == [Notify];
      var told := Put(broken, Closed);
      assert AgentNext(EndSession, h, broken) == Moved(n, None);
      assert AgentNext(Notify, n, broken) == Moved(h.(winner := Ended), told);
      assert none + (Sent(told) + none) == Sent(told);
    } else {
      MoveFirst(EndSession, [], h, broken);
      assert [EndSession] + [] == Closing(true, h.winner.notify);
      assert AgentNext(EndSession, h, broken) == Moved(h.(winner := Ended), None);
      assert none + none == none;
    }
  }

  function Writing(present: bool, data: string, failsAt: Option<nat>): seq<AgentAct> {
    if !present || StdDecode(data).None? then []
    else if failsAt.Some? then [FeedFails(failsAt.value)] + Closing(true, true)
    else [FeedOk]
  }

  /** So with input: what the PTY is fed, and what becomes of the session when it fails. */
  lemma StepsMatchWrite(g: Agent, up: seq<AgentMsg>, data: string, failsAt: Option<nat>, broken: bool)
    requires g.handler.Listening?
    requires StdDecode(data).Some? && failsAt.Some? ==> failsAt.value <= |StdDecode(data).value|
    ensures var r := Moves([Take(Input(data), true)] + Writing(g.inMap, data, failsAt), g, broken);
            && r.Some? && r.value.0.fed == g.fed + TakenBytes(g.inMap, data, failsAt)
            && View(r.value.0.inMap, up + r.value.1) == AfterWrite(View(g.inMap, up), data, failsAt.Some?, broken)
  {
    hide StdDecode, Moves;
    MoveFirst(Take(Input(data), true), Writing(g.inMap, data, failsAt), g, broken);
    if g.inMap && StdDecode(data).Some? {
      var bytes := StdDecode(data).value;
      var h := g.(handler := Feeding(bytes));
      if failsAt.Some? {
        var k := failsAt.value;
        MoveFirst(FeedFails(k), Closing(true, true), h, broken);
        EndingMoves(g.(inMap := false, winner := Ending(true), fed := g.fed + bytes[..k]), broken);
      } else {
        MoveFirst(FeedOk, [], h, broken);
        NoMoves(g.(fed := g.fed + bytes), broken);
        assert [FeedOk] + [] == [FeedOk];
      }
    } else {
      NoMoves(g, broken);
    }
  }

  function Opening(started: bool, broken: bool): seq<AgentAct> {
    if !started then [Take(Open, false)]
    else if broken then [Take(Open, true), Insert, Announce, Abort, EndSession]
    else [Take(Open, true), Insert, Announce]
  }

  /**
    So with an open, from any state in which the Agent can be asked for a session it does not have: what the steps
    do to the session, the method `Open` does to the object.
   */
  lemma StepsMatchOpen(g: Agent, up: seq<AgentMsg>, started: bool, broken: bool)
    requires g.handler.Listening? && !g.inMap && g.winner.Nobody?
    ensures var r := Moves(Opening(started, broken), g, broken);
            && r.Some? && View(r.value.0.inMap, up + r.value.1) == AfterOpen(View(g.inMap, up), started, broken)
            && (started && !broken ==> r.value.0.pump.Reading? && r.value.0.waiter.Watching?)
  {
    hide Moves;
    if !started {
      MoveFirst(Take(Open, false), [], g, broken);
      NoMoves(g, broken);
      assert [Take(Open, false)] + [] == [Take(Open, false)];
    } else {
      OpeningMoves(g, broken);
    }
  }

  lemma OpeningMoves(g: Agent, broken: bool)
    requires g.handler.Listening? && !g.inMap && g.winner.Nobody?
    ensures var r := Moves(Opening(true, broken), g, broken);
            && r.Some? && r.value.0.inMap == !broken && r.value.1 == Sent(Put(broken, Opened))
            && (!broken ==> r.value.0.pump.Reading? && r.value.0.waiter.Watching?)
  {
    hide Moves;
    var g1 := g.(handler := Inserting);
    var g2 := g.(handler := Announcing, inMap := true, inserted := true);
    var rest := if broken then [Abort, EndSession] else [];
    MoveFirst(Take(Open, true), [Insert] + ([Announce] + rest), g, broken);
    MoveFirst(Insert, [Announce] + rest, g1, broken);
    MoveFirst(Announce, rest, g2, broken);
    assert [Take(Open, true)] + ([Insert] + ([Announce] + rest)) == Opening(true, broken);
    if broken {
      var g3 := g2.(handler := Aborting);
      var g4 := g2.(handler := Listening, inMap := false, winner := Ending(false));
      MoveFirst(Abort, [EndSession], g3, broken);
      MoveFirst(EndSession, [], g4, broken);
      NoMoves(g4.(winner := Ended), broken);
      assert [Abort] + [EndSession] == [Abort, EndSession] && [EndSession] + [] == [EndSession];
    } else {
      NoMoves(g2.(handler := Listening, pump := Reading, waiter := Watching), broken);
    }
  }
}
