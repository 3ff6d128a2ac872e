/**
  Host rows under concurrent calls.  A service call reads a row, works on its copy, and later writes the whole row;
  Agent handlers, Portal edits and the probe loop interleave in any order.
 */
module HostRuns {
  import opened Basics
  import opened Outcomes
  import opened TrimText
  import opened Hosts

  datatype Caller = Agent | Leaving | Portal | Boot

  /** A call between its read and its write. */
  datatype Pending = Whole(id: string, row: Host, author: Caller) | Fresh(id: string, row: Host)

  datatype State = State(rows: Rows, pending: map<nat, Pending>, used: set<string>)

  datatype Act =
    | Meet(call: nat, id: string, fingerprint: string, subject: string, remoteAddr: string, hello: Hello, now: Time)
    | Reconnect(call: nat, id: string, subject: string, remoteAddr: string, hello: Hello, now: Time)
    | Beat(call: nat, id: string, hello: Hello, now: Time)
    | Leave(call: nat, id: string, now: Time)
    | Edit(call: nat, id: string, edit: UpdateRequest, now: Time)
    | BootRead(call: nat, id: string, now: Time)
    | Commit(call: nat)
    | Add(id: string, add: CreateRequest, now: Time)
    | Delete(id: string)
    | Probe(id: string, online: bool, at: Time)

  predicate AgentRow(s: State, id: string) {
    id in s.rows && s.rows[id].fingerprint.Some?
  }

  function Begin(s: State, call: nat, p: Pending): State {
    s.(pending := s.pending[call := p])
  }

  function Committed(s: State, p: Pending): Rows {
    match p
    case Whole(id, row, _) => Written(s.rows, id, row)
    case Fresh(id, row) => Inserted(s.rows, id, row)
  }

  ghost predicate Reads(w: World, a: Act, s: State, t: State)
    requires !a.Commit? && !a.Add? && !a.Delete? && !a.Probe?
  {
    && a.call !in s.pending
    && match a
       case Meet(call, id, fingerprint, subject, remoteAddr, hello, now) =>
         // A new identifier is never one used before.
         && !HasFingerprint(s.rows, fingerprint) && id !in s.used
         && t == Begin(s, call, Fresh(id, Met(fingerprint, subject, remoteAddr, hello, now))).(used := s.used + {id})
       case Reconnect(call, id, subject, remoteAddr, hello, now) =>
         AgentRow(s, id) && t == Begin(s, call, Whole(id, MetAgain(s.rows[id], subject, remoteAddr, hello, now), Agent))
       case Beat(call, id, hello, now) =>
         AgentRow(s, id) && t == Begin(s, call, Whole(id, Seen(s.rows[id], hello, now), Agent))
       case Leave(call, id, now) =>
         AgentRow(s, id) && t == Begin(s, call, Whole(id, Gone(w, s.rows[id], now), Leaving))
       case Edit(call, id, req, now) =>
         && id in s.rows && Edited(w, s.rows[id], req, now).Done?
         && t == Begin(s, call, Whole(id, Edited(w, s.rows[id], req, now).value, Portal))
       case BootRead(call, id, now) =>
         && id in s.rows && s.rows[id].online && !HasTarget(w, s.rows[id])
         && t == Begin(s, call, Whole(id, s.rows[id].(online := false, updatedAt := now), Boot))
  }

  ghost predicate Step(w: World, a: Act, s: State, t: State) {
    match a
    case Commit(call) =>
      call in s.pending && t == s.(rows := Committed(s, s.pending[call]), pending := s.pending - {call})
    case Add(id, req, now) =>
      && id !in s.used && Added(w, req, now).Done?
      && t == s.(rows := Inserted(s.rows, id, Added(w, req, now).value), used := s.used + {id})
    case Delete(id) => t == s.(rows := s.rows - {id})
    case Probe(id, online, at) => t == s.(rows := ProbeApplied(s.rows, id, online, at))
    case _ => Reads(w, a, s, t)
  }

  // The invariant

  /** An Agent-connected host is online and has a fingerprint; probe settings stay in range. */
  predicate RowOk(h: Host) {
    && (h.agentOnline ==> h.online && h.fingerprint.Some?)
    && h.probeMethod in {ICMP, TCP} && 1 <= h.probePort <= 65535
  }

  ghost predicate RowsOk(s: State) {
    && (forall id :: id in s.rows ==> RowOk(s.rows[id]))
    && (forall c :: c in s.pending ==> RowOk(s.pending[c].row))
  }

  ghost predicate Identities(s: State) {
    && Unique(s.rows)
    && s.rows.Keys <= s.used
    && (forall c :: c in s.pending ==> s.pending[c].id in s.used)
    && (forall c :: c in s.pending && s.pending[c].Whole? && s.pending[c].id in s.rows ==>
          s.pending[c].row.fingerprint == s.rows[s.pending[c].id].fingerprint)
    && (forall c :: c in s.pending && s.pending[c].Fresh? ==> s.pending[c].id !in s.rows)
    && (forall c, d :: c in s.pending && d in s.pending && s.pending[c].Fresh? && s.pending[d].id == s.pending[c].id ==>
          c == d)
  }

  /** What an Agent writes shows it connected, what its departure writes does not. */
  ghost predicate Purposes(s: State) {
    forall c :: c in s.pending ==>
      match s.pending[c]
      case Whole(_, row, author) => (author == Agent ==> row.agentOnline) && (author == Leaving ==> !row.agentOnline)
      case Fresh(_, row) => row.agentOnline
  }

  ghost predicate Inv(s: State) {
    RowsOk(s) && Identities(s) && Purposes(s)
  }

  /** The boot call lists a connected host that has no probe target. */
  predicate BootSeesAgent(w: World, s: State, a: Act) {
    a.BootRead? && a.id in s.rows && s.rows[a.id].agentOnline && !HasTarget(w, s.rows[a.id])
  }

  lemma NormalizedProbe(how: string, port: Option<int>)
    ensures var p := NormalizeProbe(how, port);
            && (p.Done? <==> Lower(Trim(how)) in {"", ICMP, TCP} && (port.Some? ==> 1 <= port.value <= 65535))
            && (p.Done? ==> p.value.0 in {ICMP, TCP} && 1 <= p.value.1 <= 65535)
  {
    hide Trim, Lower;
  }

  lemma EditedOk(w: World, h: Host, req: UpdateRequest, now: Time)
    requires RowOk(h) && Edited(w, h, req, now).Done?
    ensures var e := Edited(w, h, req, now).value;
            RowOk(e) && e.online == h.online && e.agentOnline == h.agentOnline && e.fingerprint == h.fingerprint
  {
    hide Trim, Lower, NormalizeProbe, Checked, CheckedCredential;
    NormalizedProbe(if req.probeMethod.Some? then req.probeMethod.value else h.probeMethod,
                    Some(if req.probePort.Some? then req.probePort.value else h.probePort));
  }

  lemma AddedOk(w: World, req: CreateRequest, now: Time)
    requires Added(w, req, now).Done?
    ensures var h := Added(w, req, now).value; RowOk(h) && !h.agentOnline && !h.online && h.fingerprint.None?
  {
    hide Trim, Lower, NormalizeProbe, Checked, CheckedCredential;
    NormalizedProbe(req.probeMethod, req.probePort);
  }

  lemma BeginKeeps(s: State, call: nat, p: Pending)
    requires Inv(s) && call !in s.pending && p.Whole? && p.id in s.rows && RowOk(p.row)
    requires p.row.fingerprint == s.rows[p.id].fingerprint
    requires (p.author == Agent ==> p.row.agentOnline) && (p.author == Leaving ==> !p.row.agentOnline)
    ensures Inv(Begin(s, call, p))
  {
    hide RowOk;
  }

  lemma MeetKeeps(w: World, a: Act, s: State, t: State)
    requires Inv(s) && a.Meet? && Step(w, a, s, t)
    ensures Inv(t)
  {
    hide HasFingerprint;
  }

  lemma ReadKeeps(w: World, a: Act, s: State, t: State)
    requires Inv(s) && !a.Meet? && !a.Commit? && !a.Add? && !a.Delete? && !a.Probe?
    requires Reads(w, a, s, t) && !BootSeesAgent(w, s, a)
    ensures Inv(t)
  {
    hide Inv, HasFingerprint, HasTarget, Edited;
    RowsOf(s);
    if a.Edit? {
      EditedOk(w, s.rows[a.id], a.edit, a.now);
    }
    BeginKeeps(s, a.call, t.pending[a.call]);
  }

  lemma RowsOf(s: State)
    requires Inv(s)
    ensures forall id :: id in s.rows ==> RowOk(s.rows[id])
  {
    hide RowOk, Identities, Purposes;
  }

  lemma CommitKeepsIdentities(w: World, s: State, t: State, call: nat)
    requires Identities(s) && Step(w, Commit(call), s, t)
    ensures Identities(t)
  {
  }

  lemma CommitKeeps(w: World, s: State, t: State, call: nat)
    requires Inv(s) && Step(w, Commit(call), s, t)
    ensures Inv(t)
  {
    hide RowOk, Unique, HasFingerprint;
    CommitKeepsIdentities(w, s, t, call);
    hide Identities;
  }

  lemma AddKeeps(w: World, a: Act, s: State, t: State)
    requires Inv(s) && a.Add? && Step(w, a, s, t)
    ensures Inv(t)
  {
    hide RowOk, Added, HasFingerprint;
    AddedOk(w, a.add, a.now);
  }

  lemma ProbeKeeps(w: World, a: Act, s: State, t: State)
    requires Inv(s) && a.Probe? && Step(w, a, s, t)
    ensures Inv(t)
  {
  }

  lemma DeleteKeeps(w: World, a: Act, s: State, t: State)
    requires Inv(s) && a.Delete? && Step(w, a, s, t)
    ensures Inv(t)
  {
    hide RowOk;
  }

  lemma StepKeepsInv(w: World, a: Act, s: State, t: State)
    requires Inv(s) && Step(w, a, s, t) && !BootSeesAgent(w, s, a)
    ensures Inv(t)
  {
    hide Inv, Reads;
    match a {
      case Meet(_, _, _, _, _, _, _) => MeetKeeps(w, a, s, t);
      case Commit(call) => CommitKeeps(w, s, t, call);
      case Add(_, _, _) => AddKeeps(w, a, s, t);
      case Delete(_) => DeleteKeeps(w, a, s, t);
      case Probe(_, _, _) => ProbeKeeps(w, a, s, t);
      case _ => ReadKeeps(w, a, s, t);
    }
  }

  ghost predicate IsRun(w: World, run: seq<State>, acts: seq<Act>) {
    && |run| == |acts| + 1
    && forall i :: 0 <= i < |acts| ==> Step(w, acts[i], run[i], run[i + 1])
  }

  // Start-up

  ghost predicate Stored(rows: Rows) {
    Unique(rows) && forall id :: id in rows ==> rows[id].probeMethod in {ICMP, TCP} && 1 <= rows[id].probePort <= 65535
  }

  function AfterBoot(w: World, rows: Rows, now: Time): State {
    State(BootedRows(w, rows, now), map[], rows.Keys)
  }

  /** The boot call, run alone, leaves no host connected, and online only those the probe loop will look at. */
  lemma BootEstablishes(w: World, rows: Rows, now: Time)
    requires Stored(rows)
    ensures Inv(AfterBoot(w, rows, now))
    ensures forall id :: id in rows ==>
              var h := AfterBoot(w, rows, now).rows[id];
              !h.agentOnline && (h.online <==> rows[id].online && HasTarget(w, h))
  {
    hide HasTarget, Booted, RowOk;
    forall id | id in rows {
      BootedFacts(w, rows[id], now);
    }
  }

  lemma BootedFacts(w: World, h: Host, now: Time)
    requires h.probeMethod in {ICMP, TCP} && 1 <= h.probePort <= 65535
    ensures var b := Booted(w, h, now);
            RowOk(b) && b.fingerprint == h.fingerprint && !b.agentOnline && (b.online <==> h.online && HasTarget(w, b))
  {
    hide Trim, FirstProbeable;
  }

  // Runs

  /**
    Whatever state a run is in when the process dies, the next boot can start from its table, and all that was
    promised holds again.
   */
  lemma RestartHolds(w: World, rows: Rows, now: Time, run: seq<State>, acts: seq<Act>, n: nat, later: Time)
    requires Stored(rows) && IsRun(w, run, acts) && run[0] == AfterBoot(w, rows, now) && n <= |acts|
    requires forall i :: 0 <= i < n ==> !BootSeesAgent(w, run[i], acts[i])
    ensures Stored(run[n].rows) && Inv(AfterBoot(w, run[n].rows, later))
  {
    hide Step, BootSeesAgent, AfterBoot, BootedRows;
    RunKeepsHosts(w, rows, now, run, acts, n);
    BootEstablishes(w, run[n].rows, later);
  }

  /** After a boot that ran alone, every interleaving keeps every row and every copy of a row in order. */
  lemma {:induction false} RunKeepsHosts(w: World, rows: Rows, now: Time, run: seq<State>, acts: seq<Act>, n: nat)
    requires Stored(rows) && IsRun(w, run, acts) && run[0] == AfterBoot(w, rows, now) && n <= |acts|
    requires forall i :: 0 <= i < n ==> !BootSeesAgent(w, run[i], acts[i])
    ensures Inv(run[n])
    decreases n
  {
    hide Inv, Step, Stored, BootSeesAgent, AfterBoot;
    if n == 0 {
      BootEstablishes(w, rows, now);
    } else {
      RunKeepsHosts(w, rows, now, run, acts, n - 1);
      assert Step(w, acts[n - 1], run[n - 1], run[n - 1 + 1]);
      StepKeepsInv(w, acts[n - 1], run[n - 1], run[n]);
    }
  }

  /** Without boot reads in the run: connected hosts are online, whatever was probed, edited or read when. */
  lemma ConnectedIsOnline(w: World, rows: Rows, now: Time, run: seq<State>, acts: seq<Act>, n: nat, id: string)
    requires Stored(rows) && IsRun(w, run, acts) && run[0] == AfterBoot(w, rows, now) && n <= |acts|
    requires forall i :: 0 <= i < |acts| ==> !acts[i].BootRead?
    requires id in run[n].rows && run[n].rows[id].agentOnline
    ensures run[n].rows[id].online && run[n].rows[id].fingerprint.Some?
    ensures n < |acts| && acts[n].Probe? ==> id in run[n + 1].rows && run[n + 1].rows[id] == run[n].rows[id]
  {
    hide Stored, AfterBoot, Reads;
    RunKeepsHosts(w, rows, now, run, acts, n);
    if n < |acts| {
      assert Step(w, acts[n], run[n], run[n + 1]);
    }
  }

  /**
    A connected host stops being connected only when its row is deleted, or when a whole row is written by a departure,
    by a Portal edit that had read it disconnected, or by the boot call.
   */
  lemma PresenceEndsOnlyBy(w: World, a: Act, s: State, t: State, id: string)
    requires Inv(s) && Step(w, a, s, t) && id in s.rows && s.rows[id].agentOnline
    requires !(id in t.rows && t.rows[id].agentOnline && t.rows[id].online)
    ensures a == Delete(id)
            || (a.Commit? && var p := s.pending[a.call];
                p.Whole? && p.id == id && p.author != Agent && (p.author == Portal ==> !p.row.agentOnline))
  {
    hide HasFingerprint, Edited, Added, HasTarget;
  }

  // Where the guarantees stop

  /** A boot read of a connected host without probe target already holds a copy that is not in order. */
  lemma BootReadSpoils(w: World, a: Act, s: State, t: State)
    requires Step(w, a, s, t) && BootSeesAgent(w, s, a)
    ensures !RowsOk(t)
  {
    assert a.call in t.pending && !RowOk(t.pending[a.call].row);
  }

  /** Over a whole run, every row and every copy is always in order if and only if no boot read saw a connected host. */
  lemma {:induction false} RunInOrder(w: World, rows: Rows, now: Time, run: seq<State>, acts: seq<Act>, n: nat)
    requires Stored(rows) && IsRun(w, run, acts) && run[0] == AfterBoot(w, rows, now) && n <= |acts|
    ensures (forall k :: 0 <= k <= n ==> Inv(run[k])) <==>
            (forall k :: 0 <= k < n ==> !BootSeesAgent(w, run[k], acts[k]))
    decreases n
  {
    hide Step, Stored, BootSeesAgent, AfterBoot, RowsOk, Identities, Purposes;
    if n == 0 {
      BootEstablishes(w, rows, now);
    } else {
      RunInOrder(w, rows, now, run, acts, n - 1);
      assert Step(w, acts[n - 1], run[n - 1], run[n - 1 + 1]);
      if BootSeesAgent(w, run[n - 1], acts[n - 1]) {
        BootReadSpoils(w, acts[n - 1], run[n - 1], run[n]);
      } else if Inv(run[n - 1]) {
        StepKeepsInv(w, acts[n - 1], run[n - 1], run[n]);
      }
    }
  }

  // The rows alone: what the Portal shows

  ghost predicate ConnectedOnline(s: State) {
    forall id :: id in s.rows && s.rows[id].agentOnline ==> s.rows[id].online
  }

  /** Copies show a connected host online, except the boot call's, which all show it offline. */
  ghost predicate CopiesAsRead(s: State) {
    forall c :: c in s.pending ==>
      match s.pending[c]
      case Whole(_, row, author) => if author == Boot then !row.online else row.agentOnline ==> row.online
      case Fresh(_, row) => row.agentOnline ==> row.online
  }

  /** The boot call writes a copy that shows a connected host offline. */
  ghost predicate BootWritesConnected(s: State, a: Act) {
    && a.Commit? && a.call in s.pending
    && var p := s.pending[a.call];
       p.Whole? && p.author == Boot && p.row.agentOnline && p.id in s.rows
  }

  lemma EditedPresence(w: World, h: Host, req: UpdateRequest, now: Time)
    requires Edited(w, h, req, now).Done?
    ensures var e := Edited(w, h, req, now).value; e.online == h.online && e.agentOnline == h.agentOnline
  {
    hide Trim, Lower, NormalizeProbe, Checked, CheckedCredential;
  }

  lemma RowsStep(w: World, a: Act, s: State, t: State)
    requires ConnectedOnline(s) && CopiesAsRead(s) && Step(w, a, s, t)
    ensures ConnectedOnline(t) <==> !BootWritesConnected(s, a)
    ensures CopiesAsRead(t)
  {
    if a.Edit? && a.id in s.rows && Edited(w, s.rows[a.id], a.edit, a.now).Done? {
      EditedPresence(w, s.rows[a.id], a.edit, a.now);
    }
    if a.Add? && Added(w, a.add, a.now).Done? {
      AddedOk(w, a.add, a.now);
    }
    if BootWritesConnected(s, a) {
      assert s.pending[a.call].id in t.rows;
    }
    hide Edited, Added, HasTarget, HasFingerprint;
  }

  /**
    Over a whole run from the boot, every host shown connected is always shown online if and only if the boot call
    never writes a copy of a connected row.
   */
  lemma {:induction false} OnlineExactly(w: World, rows: Rows, now: Time, run: seq<State>, acts: seq<Act>, n: nat)
    requires Stored(rows) && IsRun(w, run, acts) && run[0] == AfterBoot(w, rows, now) && n <= |acts|
    ensures (forall k :: 0 <= k <= n ==> ConnectedOnline(run[k])) <==>
            (forall k :: 0 <= k < n ==> !BootWritesConnected(run[k], acts[k]))
    ensures (forall k :: 0 <= k <= n ==> ConnectedOnline(run[k])) ==> CopiesAsRead(run[n])
    decreases n
  {
    hide Step, Stored, AfterBoot, ConnectedOnline, CopiesAsRead, BootWritesConnected;
    if n == 0 {
      BootIsOnline(w, rows, now);
    } else {
      OnlineExactly(w, rows, now, run, acts, n - 1);
      assert Step(w, acts[n - 1], run[n - 1], run[n - 1 + 1]);
      if forall k :: 0 <= k <= n - 1 ==> ConnectedOnline(run[k]) {
        RowsStep(w, acts[n - 1], run[n - 1], run[n]);
      }
    }
  }

  lemma BootIsOnline(w: World, rows: Rows, now: Time)
    ensures ConnectedOnline(AfterBoot(w, rows, now)) && CopiesAsRead(AfterBoot(w, rows, now))
  {
    hide HasTarget;
  }

  /**
    Were the boot call not alone: an Agent that nothing can probe connects after the rows were cleared and before
    they are listed, and is left connected and offline.
   */
  lemma BootSeesAgentBreaks(w: World, rows: Rows, now: Time, id: string, fingerprint: string, hello: Hello)
    returns (run: seq<State>, acts: seq<Act>)
    requires Stored(rows) && id !in rows && !HasFingerprint(rows, fingerprint)
    requires !HasTarget(w, Met(fingerprint, "", "", hello, now))
    ensures IsRun(w, run, acts) && run[0] == AfterBoot(w, rows, now)
    ensures acts == [Meet(0, id, fingerprint, "", "", hello, now), Commit(0), BootRead(0, id, now), Commit(0)]
    ensures BootSeesAgent(w, run[2], acts[2]) && BootWritesConnected(run[3], acts[3])
    ensures id in run[4].rows && run[4].rows[id].agentOnline && !run[4].rows[id].online
  {
    var met := Met(fingerprint, "", "", hello, now);
    var a := AfterBoot(w, rows, now);
    NoneMet(w, rows, now, fingerprint);
    hide HasTarget, HasFingerprint, BootedRows;
    var b := Begin(a, 0, Fresh(id, met)).(used := a.used + {id});
    var c := b.(rows := b.rows[id := met], pending := b.pending - {0});
    var d := Begin(c, 0, Whole(id, met.(online := false, updatedAt := now), Boot));
    var e := d.(rows := Committed(d, d.pending[0]), pending := d.pending - {0});
    run := [a, b, c, d, e];
    acts := [Meet(0, id, fingerprint, "", "", hello, now), Commit(0), BootRead(0, id, now), Commit(0)];
    assert Step(w, acts[0], a, b) && Step(w, acts[1], b, c) && Step(w, acts[2], c, d) && Step(w, acts[3], d, e);
  }

  lemma NoneMet(w: World, rows: Rows, now: Time, fingerprint: string)
    ensures HasFingerprint(BootedRows(w, rows, now), fingerprint) <==> HasFingerprint(rows, fingerprint)
  {
    hide HasTarget;
    forall id | id in rows
      ensures Booted(w, rows[id], now).fingerprint == rows[id].fingerprint
    {
    }
    if HasFingerprint(rows, fingerprint) {
      var id :| id in rows && rows[id].fingerprint == Some(fingerprint);
      assert BootedRows(w, rows, now)[id].fingerprint == Some(fingerprint);
    }
  }

  // When a departure lasts

  /** A call in progress holds a copy of the row that shows the host connected. */
  predicate HoldsConnected(s: State, call: nat, id: string) {
    call in s.pending && s.pending[call].id == id && s.pending[call].row.agentOnline
  }

  predicate Connected(s: State, id: string) {
    id in s.rows && s.rows[id].agentOnline
  }

  /** The Agent of this host, present, reads the row. */
  predicate AgentReads(a: Act, id: string) {
    (a.Reconnect? || a.Beat?) && a.id == id
  }

  /** A host comes to be shown connected only when a connected copy of its row is written, and not by a departure. */
  lemma PresenceBeginsOnlyBy(w: World, a: Act, s: State, t: State, id: string)
    requires Inv(s) && Step(w, a, s, t) && !Connected(s, id) && Connected(t, id)
    ensures a.Commit? && HoldsConnected(s, a.call, id)
    ensures s.pending[a.call].Fresh? || s.pending[a.call].author in {Agent, Portal, Boot}
  {
    hide HasFingerprint, Edited, HasTarget, RowOk;
    if a.Add? && Added(w, a.add, a.now).Done? {
      AddedOk(w, a.add, a.now);
    }
  }

  /** While a host is not connected, no call but its Agent's comes to hold a connected copy of its row. */
  lemma NoNewCopies(w: World, a: Act, s: State, t: State, id: string, call: nat)
    requires Inv(s) && Step(w, a, s, t) && id in s.used && !Connected(s, id) && !AgentReads(a, id)
    requires HoldsConnected(t, call, id)
    ensures HoldsConnected(s, call, id) && t.pending[call] == s.pending[call]
    ensures id in t.used
  {
    hide HasFingerprint, HasTarget, Unique, Purposes;
    if a.Edit? && a.id == id && id in s.rows && Edited(w, s.rows[id], a.edit, a.now).Done? {
      EditedOk(w, s.rows[id], a.edit, a.now);
    }
    hide Edited, Added, RowOk;
  }

  /** No call holds a connected copy of the row, and it is not connected itself. */
  ghost predicate Departed(s: State, id: string) {
    id in s.used && !Connected(s, id) && forall c :: !HoldsConnected(s, c, id)
  }

  /** Then nothing but the Agent of the host can change that. */
  lemma DepartedStays(w: World, a: Act, s: State, t: State, id: string)
    requires Inv(s) && Step(w, a, s, t) && Departed(s, id) && !AgentReads(a, id)
    ensures Departed(t, id)
  {
    hide Inv, Step, HoldsConnected, Connected;
    UsedGrows(w, a, s, t);
    if Connected(t, id) {
      PresenceBeginsOnlyBy(w, a, s, t, id);
    }
    forall c
      ensures !HoldsConnected(t, c, id)
    {
      if HoldsConnected(t, c, id) {
        NoNewCopies(w, a, s, t, id, c);
      }
    }
  }

  lemma UsedGrows(w: World, a: Act, s: State, t: State)
    requires Step(w, a, s, t)
    ensures s.used <= t.used
  {
    hide Edited, Added, HasFingerprint, HasTarget;
  }

  /** A run of a server that booted alone. */
  ghost predicate GoodRun(w: World, rows: Rows, now: Time, run: seq<State>, acts: seq<Act>) {
    && Stored(rows) && IsRun(w, run, acts) && run[0] == AfterBoot(w, rows, now)
    && forall i :: 0 <= i < |acts| ==> !BootSeesAgent(w, run[i], acts[i])
  }

  /** At step `k` a call writes the connected copy that it already held at `i`. */
  ghost predicate Revives(run: seq<State>, acts: seq<Act>, i: nat, k: nat, id: string)
    requires i < |run| && k < |run| && k < |acts|
  {
    && acts[k].Commit? && HoldsConnected(run[k], acts[k].call, id) && id in run[k].rows
    && HoldsConnected(run[i], acts[k].call, id) && run[k].pending[acts[k].call] == run[i].pending[acts[k].call]
  }

  ghost predicate NeverRevived(run: seq<State>, acts: seq<Act>, i: nat, n: nat, id: string)
    requires i < |run| && n < |run| && n <= |acts|
  {
    forall k :: i <= k < n ==> !Revives(run, acts, i, k, id)
  }

  ghost predicate StaysAway(run: seq<State>, i: nat, n: nat, id: string)
    requires n < |run|
  {
    forall k :: i <= k <= n ==> !Connected(run[k], id)
  }

  /** Up to the first moment it is connected again, every connected copy was held from the start. */
  lemma {:induction false} CopiesAreOld(
    w: World, rows: Rows, now: Time, run: seq<State>, acts: seq<Act>, i: nat, n: nat, id: string, call: nat)
    requires GoodRun(w, rows, now, run, acts) && i <= n <= |acts| && id in run[i].used
    requires forall k :: i <= k < n ==> !AgentReads(acts[k], id)
    requires forall k :: i <= k < n ==> !Connected(run[k], id)
    ensures id in run[n].used
    ensures HoldsConnected(run[n], call, id) ==>
              HoldsConnected(run[i], call, id) && run[n].pending[call] == run[i].pending[call]
    decreases n
  {
    hide Step, Inv, Stored, AfterBoot, BootSeesAgent, HoldsConnected, Connected, AgentReads;
    if i < n {
      var m := n - 1;
      CopiesAreOld(w, rows, now, run, acts, i, m, id, call);
      RunKeepsHosts(w, rows, now, run, acts, m);
      assert Step(w, acts[m], run[m], run[m + 1]);
      UsedGrows(w, acts[m], run[m], run[n]);
      if HoldsConnected(run[n], call, id) {
        NoNewCopies(w, acts[m], run[m], run[n], id, call);
      }
    }
  }

  /** The first step that connects the host again writes an old copy. */
  lemma FirstStepBack(
    w: World, rows: Rows, now: Time, run: seq<State>, acts: seq<Act>, i: nat, m: nat, id: string)
    requires GoodRun(w, rows, now, run, acts) && i <= m < |acts| && id in run[i].rows
    requires StaysAway(run, i, m, id) && forall k :: i <= k < m ==> !AgentReads(acts[k], id)
    requires Connected(run[m + 1], id)
    ensures Revives(run, acts, i, m, id)
  {
    hide Step, Inv, Stored, AfterBoot, BootSeesAgent, HoldsConnected, Connected, AgentReads;
    RunKeepsHosts(w, rows, now, run, acts, i);
    RunKeepsHosts(w, rows, now, run, acts, m);
    assert Step(w, acts[m], run[m], run[m + 1]);
    KnownIsUsed(run[i], id);
    PresenceBeginsOnlyBy(w, acts[m], run[m], run[m + 1], id);
    CopiesAreOld(w, rows, now, run, acts, i, m, id, acts[m].call);
    WholeCopy(run[i], acts[m].call, id);
    WrittenIsThere(w, acts[m], run[m], run[m + 1], id);
  }

  lemma {:induction false} NotRevivedStaysAway(
    w: World, rows: Rows, now: Time, run: seq<State>, acts: seq<Act>, i: nat, n: nat, id: string)
    requires GoodRun(w, rows, now, run, acts) && i <= n <= |acts|
    requires id in run[i].rows && !Connected(run[i], id)
    requires forall k :: i <= k < n ==> !AgentReads(acts[k], id)
    requires NeverRevived(run, acts, i, n, id)
    ensures StaysAway(run, i, n, id)
    decreases n
  {
    hide Step, Stored, AfterBoot, BootSeesAgent, Connected, AgentReads, Revives;
    if i < n {
      assert !Revives(run, acts, i, n - 1, id);
      NotRevivedStaysAway(w, rows, now, run, acts, i, n - 1, id);
      if Connected(run[n - 1 + 1], id) {
        FirstStepBack(w, rows, now, run, acts, i, n - 1, id);
      }
    }
  }

  lemma KnownIsUsed(s: State, id: string)
    requires Inv(s) && id in s.rows
    ensures id in s.used
  {
  }

  lemma WholeCopy(s: State, call: nat, id: string)
    requires Inv(s) && id in s.rows && HoldsConnected(s, call, id)
    ensures s.pending[call].Whole?
  {
  }

  lemma WrittenIsThere(w: World, a: Act, s: State, t: State, id: string)
    requires Inv(s) && Step(w, a, s, t) && a.Commit? && HoldsConnected(s, a.call, id) && Connected(t, id)
    ensures s.pending[a.call].Whole? ==> id in s.rows
  {
  }

  lemma RevivesConnects(w: World, s: State, t: State, call: nat, id: string)
    requires Step(w, Commit(call), s, t) && HoldsConnected(s, call, id) && id in s.rows && s.pending[call].Whole?
    ensures Connected(t, id)
  {
  }

  /**
    A host that is not connected, and whose Agent does not come back, stays so exactly until some call writes a
    connected copy of its row that it already held.
   */
  lemma AwayExactly(w: World, rows: Rows, now: Time, run: seq<State>, acts: seq<Act>, i: nat, n: nat, id: string)
    requires GoodRun(w, rows, now, run, acts) && i <= n <= |acts|
    requires id in run[i].rows && !Connected(run[i], id)
    requires forall k :: i <= k < n ==> !AgentReads(acts[k], id)
    ensures StaysAway(run, i, n, id) <==> NeverRevived(run, acts, i, n, id)
  {
    hide Step, Inv, Stored, AfterBoot, BootSeesAgent, HoldsConnected, Connected, AgentReads;
    if k :| i <= k < n && Revives(run, acts, i, k, id) {
      RunKeepsHosts(w, rows, now, run, acts, i);
      assert Step(w, acts[k], run[k], run[k + 1]);
      WholeCopy(run[i], acts[k].call, id);
      RevivesConnects(w, run[k], run[k + 1], acts[k].call, id);
    } else {
      NotRevivedStaysAway(w, rows, now, run, acts, i, n, id);
    }
  }

  /** So with a departure, from the moment it is written. */
  lemma DepartureLasts(w: World, rows: Rows, now: Time, run: seq<State>, acts: seq<Act>, i: nat, n: nat, id: string)
    requires GoodRun(w, rows, now, run, acts) && i < n <= |acts|
    requires acts[i].Commit? && acts[i].call in run[i].pending && id in run[i].rows
    requires run[i].pending[acts[i].call].Whole? && run[i].pending[acts[i].call].id == id
    requires run[i].pending[acts[i].call].author.Leaving?
    requires forall k :: i < k < n ==> !AgentReads(acts[k], id)
    ensures StaysAway(run, i + 1, n, id) <==> NeverRevived(run, acts, i + 1, n, id)
    ensures Departed(run[i + 1], id) ==> StaysAway(run, i + 1, n, id)
  {
    hide Inv, Stored, AfterBoot, BootSeesAgent, AgentReads, Reads;
    RunKeepsHosts(w, rows, now, run, acts, i);
    assert Step(w, acts[i], run[i], run[i + 1]);
    assert !Connected(run[i + 1], id) by {
      PurposesOf(run[i]);
    }
    hide Step, HoldsConnected, Connected;
    AwayExactly(w, rows, now, run, acts, i + 1, n, id);
  }

  lemma PurposesOf(s: State)
    requires Inv(s)
    ensures Purposes(s)
  {
  }

  /**
    And it does happen: a connected copy is held by any successful Portal edit that read the row while the host was
    connected.  Written after the host has left, it shows the host connected again.
   */
  lemma StaleEditRevivesPresence(w: World, s: State, id: string, req: UpdateRequest, now: Time)
    returns (run: seq<State>, acts: seq<Act>)
    requires Inv(s) && AgentRow(s, id) && s.rows[id].agentOnline && 0 !in s.pending && 1 !in s.pending
    requires Edited(w, s.rows[id], req, now).Done?
    ensures IsRun(w, run, acts) && run[0] == s
    ensures acts == [Edit(0, id, req, now), Leave(1, id, now), Commit(1), Commit(0)]
    ensures !Connected(run[3], id) && Connected(run[4], id)
    ensures Revives(run, acts, 3, 3, id)
  {
    RowsOf(s);
    EditedOk(w, s.rows[id], req, now);
    hide HasFingerprint, Edited, HasTarget, Inv, RowOk;
    var edited := Edited(w, s.rows[id], req, now).value;
    var a := Begin(s, 0, Whole(id, edited, Portal));
    var b := Begin(a, 1, Whole(id, Gone(w, a.rows[id], now), Leaving));
    var c := b.(rows := Committed(b, b.pending[1]), pending := b.pending - {1});
    var d := c.(rows := Committed(c, c.pending[0]), pending := c.pending - {0});
    run := [s, a, b, c, d];
    acts := [Edit(0, id, req, now), Leave(1, id, now), Commit(1), Commit(0)];
  }

  // What a departure leaves

  lemma CopyStays(w: World, a: Act, s: State, t: State, call: nat)
    requires Step(w, a, s, t) && call in s.pending && a != Commit(call)
    ensures call in t.pending && t.pending[call] == s.pending[call]
  {
    hide Edited, Added, HasTarget, HasFingerprint;
  }

  lemma {:induction false} CopyKept(w: World, run: seq<State>, acts: seq<Act>, i: nat, j: nat, call: nat)
    requires IsRun(w, run, acts) && i <= j <= |acts| && call in run[i].pending
    requires forall k :: i <= k < j ==> acts[k] != Commit(call)
    ensures call in run[j].pending && run[j].pending[call] == run[i].pending[call]
    decreases j
  {
    hide Step;
    if i < j {
      CopyKept(w, run, acts, i, j - 1, call);
      assert Step(w, acts[j - 1], run[j - 1], run[j - 1 + 1]);
      CopyStays(w, acts[j - 1], run[j - 1], run[j], call);
    }
  }

  /**
    Over every run: a departure that has read a row and writes it back, whatever came in between, leaves the host
    unconnected, and online exactly if the row it had read was online and can be probed.
   */
  lemma DepartureShown(w: World, run: seq<State>, acts: seq<Act>, i: nat, j: nat, id: string)
    requires IsRun(w, run, acts) && i < j < |acts| && acts[i].Leave? && acts[i].id == id
    requires acts[j] == Commit(acts[i].call) && forall k :: i < k < j ==> acts[k] != acts[j]
    requires id in run[i].rows && id in run[j].rows
    ensures id in run[j + 1].rows && !run[j + 1].rows[id].agentOnline
    ensures run[j + 1].rows[id].online <==> run[i].rows[id].online && CanBeProbed(w, run[i].rows[id])
  {
    hide HasTarget, CanBeProbed;
    var call := acts[i].call;
    assert Step(w, acts[i], run[i], run[i + 1]);
    assert Step(w, acts[j], run[j], run[j + 1]);
    TargetExactly(w, run[i].rows[id]);
    hide Step;
    CopyKept(w, run, acts, i + 1, j, call);
  }
}
