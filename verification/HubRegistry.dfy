/**
  The table of connected Agents, and what replacing or dropping a connection does to its shells.

  The methods are the bodies that run under the hub mutex, one at a time; how the goroutines of a
  shell interleave is the subject of module `ShellSession`.
 */
module HubRegistry {
  import opened Basics
  import opened Base64

  /** What may be sent on `openResult`: success, or why the session failed. */
  datatype Reason = Accepted | Refused | Replaced | Disconnected

  /** What there is to see of one session: `closes` counts the `shell_close` messages written for it. */
  datatype ShellView = ShellView(
    inMap: bool, signalled: bool, result: seq<bool>, tornDown: bool, pipeClosed: bool, closes: nat)

  function Signals(results: seq<Reason>): seq<bool> {
    seq(|results|, i requires 0 <= i < |results| => results[i].Accepted?)
  }

  /** The first signal is sent, later ones are not. */
  function AfterFailOpen(v: ShellView, ok: bool): ShellView {
    if v.signalled then v else v.(signalled := true, result := v.result + [ok])
  }

  /** The first teardown writes a close, if the connection is whole, and ends the session. */
  function AfterTeardown(v: ShellView, broken: bool): ShellView {
    if v.tornDown then v
    else v.(tornDown := true, inMap := false, pipeClosed := true, closes := v.closes + if broken then 0 else 1)
  }

  class AgentShell {
    const id: string
    const conn: AgentConn
    var closed: bool
    var closeOnce: bool
    var openOnce: bool
    var openResult: seq<Reason>
    var pipeClosed: bool
    var stdout: seq<byte>  // what the pipe has taken

    constructor (id: string, conn: AgentConn)
      ensures this.id == id && this.conn == conn
      ensures !closed && !closeOnce && !openOnce && openResult == [] && !pipeClosed && stdout == []
    {
      this.id, this.conn := id, conn;
      closed, closeOnce, openOnce, openResult, pipeClosed, stdout := false, false, false, [], false, [];
    }

    /** The `Once` bodies ran completely or not at all. */
    ghost predicate Consistent()
      reads this
    {
      (closeOnce <==> closed) && (closeOnce ==> pipeClosed) && |openResult| <= 1 && (openResult != [] ==> openOnce)
    }

    ghost function View(): ShellView
      reads this, conn`shells, conn`outbox
    {
      ShellView(id in conn.shells, openOnce, Signals(openResult), closeOnce, pipeClosed, multiset(conn.outbox)[id])
    }

    method FailOpen(reason: Reason)
      requires Consistent()
      modifies this`openOnce, this`openResult
      ensures Consistent() && openOnce
      ensures openResult == if old(openOnce) then old(openResult) else [reason]
      ensures View() == AfterFailOpen(old(View()), reason.Accepted?)
    {
      if !openOnce {
        openOnce := true;
        openResult := openResult + [reason];
      }
    }

    ghost predicate Ended()
      reads this
    {
      openOnce && closeOnce && closed && pipeClosed
    }

    method Teardown()
      requires Consistent()
      modifies this`closed, this`closeOnce, this`pipeClosed, conn`outbox, conn`shells
      ensures Consistent() && closeOnce
      ensures conn.outbox == if old(closeOnce) || conn.broken then old(conn.outbox) else old(conn.outbox) + [id]
      ensures conn.shells == if old(closeOnce) then old(conn.shells) else old(conn.shells) - {id}
      ensures View() == AfterTeardown(old(View()), conn.broken)
    {
      if !closeOnce {
        closeOnce := true;
        closed := true;
        conn.WriteClose(id);
        var _ := conn.RemoveShell(id);
        pipeClosed := true;
      }
    }

    method WriteStdout(p: seq<byte>)
      requires Consistent()
      modifies this`stdout, this`closed, this`closeOnce, this`pipeClosed, conn`outbox, conn`shells
      ensures Consistent() && stdout == if old(pipeClosed) then old(stdout) else old(stdout) + p
      ensures old(!closed && pipeClosed) ==>
                && closeOnce && conn.shells == old(conn.shells) - {id}
                && conn.outbox == if conn.broken then old(conn.outbox) else old(conn.outbox) + [id]
      ensures !old(!closed && pipeClosed) ==>
                closeOnce == old(closeOnce) && conn.shells == old(conn.shells) && conn.outbox == old(conn.outbox)
      ensures View() == if old(!closed && pipeClosed) then AfterTeardown(old(View()), conn.broken) else old(View())
    {
      if closed {
        return;
      }
      if pipeClosed {
        Teardown();
      } else {
        stdout := stdout + p;
      }
    }

    method End(reason: Reason)
      requires Consistent() && conn.shells == map[]
      modifies this, conn`outbox, conn`shells
      ensures Consistent() && Ended() && conn.shells == map[]
      ensures openResult == if old(openOnce) then old(openResult) else [reason]
      ensures conn.outbox == if old(closeOnce) || conn.broken then old(conn.outbox) else old(conn.outbox) + [id]
      ensures View() == AfterTeardown(AfterFailOpen(old(View()), reason.Accepted?), conn.broken)
    {
      FailOpen(reason);
      Teardown();
    }
  }

  class AgentConn {
    var shells: map<string, AgentShell>
    var outbox: seq<string>  // ids of the `shell_close` messages written
    var broken: bool

    constructor ()
      ensures shells == map[] && outbox == [] && !broken
    {
      shells, outbox, broken := map[], [], false;
    }

    ghost predicate Valid()
      reads this, shells.Values
    {
      forall id :: id in shells ==> shells[id].id == id && shells[id].conn == this && shells[id].Consistent()
    }

    method WriteClose(id: string)
      modifies this`outbox
      ensures outbox == if broken then old(outbox) else old(outbox) + [id]
    {
      if !broken {
        outbox := outbox + [id];
      }
    }

    method RemoveShell(id: string) returns (shell: Option<AgentShell>)
      modifies this`shells
      ensures shells == old(shells) - {id}
      ensures shell == if id in old(shells) then Some(old(shells)[id]) else None
    {
      shell := if id in shells then Some(shells[id]) else None;
      shells := shells - {id};
    }

    method HandleShellOpened(id: string)
      requires Valid()
      modifies if id in shells then {shells[id]} else {}
      ensures Valid()
      ensures id in shells ==>
                var s := shells[id];
                && s.openResult == (if old(s.openOnce) then old(s.openResult) else [Accepted])
                && s.closeOnce == old(s.closeOnce)
                && s.View() == AfterFailOpen(old(s.View()), true)
    {
      if id in shells {
        shells[id].FailOpen(Accepted);
      }
    }

    method HandleShellError(id: string)
      requires Valid()
      modifies this`shells, this`outbox, if id in shells then {shells[id]} else {}
      ensures Valid() && shells == old(shells) - {id}
      ensures id !in old(shells) ==> outbox == old(outbox)
      ensures id in old(shells) ==>
                var s := old(shells)[id];
                && s.Ended() && s.openResult == (if old(s.openOnce) then old(s.openResult) else [Refused])
                && s.View() == AfterTeardown(AfterFailOpen(old(s.View()).(inMap := false), false), broken)
                && outbox == if old(s.closeOnce) || broken then old(outbox) else old(outbox) + [id]
    {
      var shell := RemoveShell(id);
      if shell.Some? {
        shell.value.FailOpen(Refused);
        shell.value.Teardown();
        assert old(shells) - {id} - {id} == old(shells) - {id};
      }
    }

    method HandleShellData(id: string, data: string)
      requires Valid()
      modifies this`shells, this`outbox, if id in shells then {shells[id]} else {}
      ensures Valid()
      ensures id in old(shells) ==>
                var s := old(shells)[id];
                s.stdout == if StdDecode(data).Some? && !old(s.pipeClosed)
                            then old(s.stdout) + StdDecode(data).value else old(s.stdout)
      ensures id in old(shells) ==>
                var s := old(shells)[id];
                s.View() == if StdDecode(data).Some? && old(!s.closed && s.pipeClosed)
                            then AfterTeardown(old(s.View()), broken) else old(s.View())
      ensures shells == if id in old(shells) && StdDecode(data).Some?
                           && old(!shells[id].closed && shells[id].pipeClosed)
                        then old(shells) - {id} else old(shells)
      ensures outbox == if id in old(shells) && StdDecode(data).Some? && !broken
                           && old(!shells[id].closed && shells[id].pipeClosed)
                        then old(outbox) + [id] else old(outbox)
    {
      if id !in shells {
        return;
      }
      var raw := StdDecode(data);
      if raw.None? {
        return;
      }
      shells[id].WriteStdout(raw.value);
    }

    method HandleShellClose(id: string)
      requires Valid()
      modifies this`shells, this`outbox, if id in shells then {shells[id]} else {}
      ensures Valid() && shells == old(shells) - {id}
      ensures id !in old(shells) ==> outbox == old(outbox)
      ensures id in old(shells) ==>
                var s := old(shells)[id];
                && s.closeOnce && s.openOnce == old(s.openOnce)
                && s.View() == AfterTeardown(old(s.View()).(inMap := false), broken)
                && outbox == if old(s.closeOnce) || broken then old(outbox) else old(outbox) + [id]
    {
      var shell := RemoveShell(id);
      if shell.Some? {
        shell.value.Teardown();
        assert old(shells) - {id} - {id} == old(shells) - {id};
      }
    }

    /** Empties the map, then fails and tears down every session that was in it, each with one close at most. */
    method Shutdown(reason: Reason)
      requires Valid()
      modifies this`shells, this`outbox, shells.Values
      ensures Valid() && shells == map[]
      ensures forall s :: s in old(shells.Values) ==> s.Ended()
      ensures forall s :: s in old(shells.Values) ==>
                && s.openResult == (if old(s.openOnce) then old(s.openResult) else [reason])
                && s.View() == AfterTeardown(
                     AfterFailOpen(old(s.View()).(inMap := false), reason.Accepted?), broken)
      ensures forall id :: id !in old(shells) ==> multiset(outbox)[id] == old(multiset(outbox)[id])
    {
      hide AfterFailOpen, AfterTeardown, Signals;
      var taken: seq<AgentShell> := TakeAll();
      EndAll(taken, reason);
    }

    method EndAll(taken: seq<AgentShell>, reason: Reason)
      requires shells == map[] && forall i, j :: 0 <= i < j < |taken| ==> taken[i].id != taken[j].id
      requires forall j :: 0 <= j < |taken| ==> taken[j].conn == this && taken[j].Consistent()
      modifies this`shells, this`outbox, taken
      ensures shells == map[]
      ensures forall j :: 0 <= j < |taken| ==> taken[j].Consistent() && taken[j].Ended()
      ensures forall j :: 0 <= j < |taken| ==>
                && taken[j].openResult == (if old(taken[j].openOnce) then old(taken[j].openResult) else [reason])
                && taken[j].View() == AfterTeardown(AfterFailOpen(old(taken[j].View()), reason.Accepted?), broken)
      ensures forall id :: (forall j :: 0 <= j < |taken| ==> taken[j].id != id) ==>
                multiset(outbox)[id] == old(multiset(outbox)[id])
    {
      hide *;
      var i := 0;
      while i < |taken|
        invariant i <= |taken| && shells == map[]
        invariant forall j :: 0 <= j < i ==> taken[j].Consistent() && taken[j].Ended()
        invariant forall j :: 0 <= j < i ==>
                    && taken[j].openResult == (if old(taken[j].openOnce) then old(taken[j].openResult) else [reason])
                    && taken[j].View() == AfterTeardown(AfterFailOpen(old(taken[j].View()), reason.Accepted?), broken)
        invariant forall j :: i <= j < |taken| ==> unchanged(taken[j]) && taken[j].View() == old(taken[j].View())
        invariant forall id :: (forall j :: 0 <= j < i ==> taken[j].id != id) ==>
                    multiset(outbox)[id] == old(multiset(outbox)[id])
      {
        EndOne(taken, i, reason);
        i := i + 1;
      }
    }

    method EndOne(taken: seq<AgentShell>, i: nat, reason: Reason)
      requires i < |taken| && shells == map[]
      requires forall j, k :: 0 <= j < k < |taken| ==> taken[j].id != taken[k].id
      requires forall j :: 0 <= j < |taken| ==> taken[j].conn == this
      requires taken[i].Consistent()
      modifies this`shells, this`outbox, taken[i]
      ensures shells == map[] && taken[i].Consistent() && taken[i].Ended()
      ensures taken[i].openResult == if old(taken[i].openOnce) then old(taken[i].openResult) else [reason]
      ensures taken[i].View() == AfterTeardown(AfterFailOpen(old(taken[i].View()), reason.Accepted?), broken)
      ensures forall j :: 0 <= j < |taken| && j != i ==> taken[j].View() == old(taken[j].View())
      ensures forall id :: id != taken[i].id ==> multiset(outbox)[id] == old(multiset(outbox)[id])
    {
      hide AfterFailOpen, AfterTeardown, Signals;
      taken[i].End(reason);
    }

    /** The loop under the connection's mutex: the order of the map does not matter. */
    method TakeAll() returns (taken: seq<AgentShell>)
      requires Valid()
      modifies this`shells
      ensures shells == map[]
      ensures forall s :: s in taken <==> s in old(shells.Values)
      ensures forall i, j :: 0 <= i < j < |taken| ==> taken[i].id != taken[j].id
      ensures forall j :: 0 <= j < |taken| ==>
                && taken[j] in old(shells.Values) && taken[j].id in old(shells)
                && taken[j].View() == old(taken[j].View()).(inMap := false)
    {
      hide Drained;
      taken := [];
      ghost var before := shells;
      NothingDrained(before);
      while shells != map[]
        invariant Drained(before, shells, taken)
        decreases |shells|
      {
        var id :| id in shells;
        var shell := shells[id];
        Drain(before, shells, taken, id);
        taken := taken + [shell];
        shells := shells - {id};
      }
      AllDrained(before, taken);
      assert forall j :: 0 <= j < |taken| ==> taken[j] in taken;
    }
  }

  /** `taken` holds, once each, the sessions that are in `before` and no longer in `left`. */
  ghost predicate Drained(before: map<string, AgentShell>, left: map<string, AgentShell>, taken: seq<AgentShell>) {
    && (forall id :: id in left ==> id in before && left[id] == before[id] && left[id].id == id)
    && (forall id :: id in before && id !in left ==> before[id] in taken)
    && (forall i :: 0 <= i < |taken| ==>
          taken[i].id in before && before[taken[i].id] == taken[i] && taken[i].id !in left)
    && (forall i, j :: 0 <= i < j < |taken| ==> taken[i].id != taken[j].id)
  }

  lemma NothingDrained(before: map<string, AgentShell>)
    requires forall id :: id in before ==> before[id].id == id
    ensures Drained(before, before, [])
  {
  }

  lemma Drain(before: map<string, AgentShell>, left: map<string, AgentShell>, taken: seq<AgentShell>, id: string)
    requires Drained(before, left, taken) && id in left
    ensures Drained(before, left - {id}, taken + [left[id]])
  {
    var after := taken + [left[id]];
    assert after[|taken|] == left[id];
    assert forall s :: s in taken ==> s in after;
  }

  lemma AllDrained(before: map<string, AgentShell>, taken: seq<AgentShell>)
    requires Drained(before, map[], taken)
    ensures forall s :: s in taken <==> s in before.Values
    ensures forall i, j :: 0 <= i < j < |taken| ==> taken[i].id != taken[j].id
  {
  }

  // The table of Agents

  function Registered<C(==)>(agents: map<string, C>, fp: string, c: C): map<string, C> {
    agents[fp := c]
  }

  function Unregistered<C(==)>(agents: map<string, C>, fp: string, c: C): map<string, C> {
    if fp in agents && agents[fp] == c then agents - {fp} else agents
  }

  class Hub {
    var agents: map<string, AgentConn>

    constructor ()
      ensures agents == map[]
    {
      agents := map[];
    }

    method RegisterAgent(fp: string, conn: AgentConn)
      requires fp in agents ==> agents[fp].Valid()
      modifies this
      modifies if fp in agents && agents[fp] != conn then {agents[fp]} else {}
      modifies if fp in agents && agents[fp] != conn then agents[fp].shells.Values else {}
      ensures agents == Registered(old(agents), fp, conn)
      ensures fp in old(agents) && old(agents)[fp] != conn ==>
                var prev := old(agents)[fp];
                && prev.shells == map[]
                && forall s :: s in old(prev.shells.Values) ==>
                     s.Ended() && s.openResult == if old(s.openOnce) then old(s.openResult) else [Replaced]
    {
      if fp in agents && agents[fp] != conn {
        agents[fp].Shutdown(Replaced);
      }
      agents := agents[fp := conn];
    }

    method UnregisterAgent(fp: string, conn: AgentConn)
      modifies this
      ensures agents == Unregistered(old(agents), fp, conn)
    {
      if fp in agents && agents[fp] == conn {
        agents := agents - {fp};
      }
    }

    /** What the handler of a connection does when its read loop ends. */
    method Disconnect(fp: string, conn: AgentConn)
      requires conn.Valid()
      modifies this, conn`shells, conn`outbox, conn.shells.Values
      ensures agents == Unregistered(old(agents), fp, conn)
      ensures conn.shells == map[]
      ensures forall s :: s in old(conn.shells.Values) ==>
                s.Ended() && s.openResult == if old(s.openOnce) then old(s.openResult) else [Disconnected]
    {
      conn.Shutdown(Disconnected);
      UnregisterAgent(fp, conn);
    }
  }

  // Histories of connects and disconnects

  datatype Event<C> = Connect(fp: string, conn: C) | Drop(fp: string, conn: C)

  function After<C(==)>(history: seq<Event<C>>): map<string, C> {
    if history == [] then map[]
    else
      var before := After(history[..|history| - 1]);
      match history[|history| - 1]
      case Connect(fp, c) => Registered(before, fp, c)
      case Drop(fp, c) => Unregistered(before, fp, c)
  }

  /** `history[i]` connects `c` for `fp`; nobody connects for `fp` later, and `c` is not dropped for it later. */
  ghost predicate LastConnect<C>(history: seq<Event<C>>, i: nat, fp: string, c: C) {
    && i < |history| && history[i] == Connect(fp, c)
    && forall j :: i < j < |history| ==> history[j] != Drop(fp, c) && !(history[j].Connect? && history[j].fp == fp)
  }

  /**
    The hub knows connection `c` for a fingerprint exactly when `c` was the last to connect with it and
    has not been dropped since; a late drop of a connection that was replaced changes nothing.
   */
  lemma {:induction false} HubKnowsLast<C>(history: seq<Event<C>>, fp: string, c: C)
    ensures (fp in After(history) && After(history)[fp] == c) <==> exists i :: LastConnect(history, i, fp, c)
    decreases |history|
  {
    if history != [] {
      var n := |history| - 1;
      var before, last := history[..n], history[n];
      HubKnowsLast(before, fp, c);
      if last == Connect(fp, c) {
        assert LastConnect(history, n, fp, c);
      } else if last != Drop(fp, c) && !(last.Connect? && last.fp == fp) {
        if i: nat :| LastConnect(before, i, fp, c) {
          assert LastConnect(history, i, fp, c);
        }
        if i: nat :| LastConnect(history, i, fp, c) {
          assert i < n && LastConnect(before, i, fp, c);
        }
      }
    }
  }
}
