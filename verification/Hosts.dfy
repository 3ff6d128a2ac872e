/** Host rows, the table that holds them, and the operations of the inventory service. */
module Hosts {
  import opened Basics
  import opened Outcomes
  import opened TrimText

  type Time = int

  const ICMP := "icmp"
  const TCP := "tcp"
  const DEFAULT_PORT := 22
  const DEFAULT_SITE := "00000000-0000-4000-8000-000000000001"

  datatype Host = Host(
    site: string, name: string, hostname: string, address: string, os: string, ips: seq<string>, remoteAddr: string,
    subject: string, fingerprint: Option<string>, online: bool, agentOnline: bool, connectedAt: Option<Time>,
    lastSeen: Option<Time>, lastProbeAt: Option<Time>, updatedAt: Time, probeMethod: string, probePort: int,
    credential: Option<string>)

  datatype CreateRequest = CreateRequest(
    site: string, name: string, hostname: string, address: string, os: string, credential: string,
    probeMethod: string, probePort: Option<int>)

  datatype UpdateRequest = UpdateRequest(
    site: Option<string>, name: Option<string>, hostname: Option<string>, address: Option<string>, os: Option<string>,
    credential: Option<string>, probeMethod: Option<string>, probePort: Option<int>)

  /** What an Agent says about itself. */
  datatype Hello = Hello(hostname: string, os: string, ips: Option<seq<string>>)

  datatype Error = NotFound | MissingSite | InvalidSite | InvalidCredential | InvalidProbe | Duplicate

  /** `probeable` tells which texts are IP addresses that are not loopback, link-local or unspecified. */
  datatype World = World(probeable: string -> bool, sites: set<string>, credentials: set<string>)

  // Probe targets

  predicate CanProbe(w: World, ip: string) {
    Trim(ip) != "" && w.probeable(Trim(ip))
  }

  /** The first address in the list that can be probed, or "". */
  function FirstProbeable(w: World, ips: seq<string>): string {
    if ips == [] then ""
    else if CanProbe(w, ips[0]) then Trim(ips[0])
    else FirstProbeable(w, ips[1..])
  }

  function ProbeTarget(w: World, h: Host): string {
    if Trim(h.address) != "" then Trim(h.address) else FirstProbeable(w, h.ips)
  }

  predicate HasTarget(w: World, h: Host) {
    ProbeTarget(w, h) != ""
  }

  lemma {:induction false} FirstProbeableFinds(w: World, ips: seq<string>)
    ensures FirstProbeable(w, ips) != "" <==> exists i :: 0 <= i < |ips| && CanProbe(w, ips[i])
  {
    hide Trim;
    if ips != [] {
      FirstProbeableFinds(w, ips[1..]);
      assert forall i :: 0 <= i < |ips| - 1 ==> ips[1..][i] == ips[i + 1];
      if !CanProbe(w, ips[0]) {
        assert forall i :: 0 < i < |ips| ==> ips[i] == ips[1..][i - 1];
      }
    }
  }

  method ProbeAddress(w: World, h: Host) returns (addr: string)
    ensures addr == ProbeTarget(w, h)
    ensures addr != "" <==> CanBeProbed(w, h)
  {
    hide Trim, Blank, CanBeProbed;
    TargetExactly(w, h);
    addr := Trim(h.address);
    if addr != "" {
      return;
    }
    for i := 0 to |h.ips|
      invariant FirstProbeable(w, h.ips) == FirstProbeable(w, h.ips[i..])
    {
      var ip := Trim(h.ips[i]);
      assert h.ips[i..][1..] == h.ips[i + 1..];
      if ip == "" || !w.probeable(ip) {
        continue;
      }
      return ip;
    }
    addr := "";
  }

  /** The host's address is set, or one of the addresses its Agent reported can be probed. */
  ghost predicate CanBeProbed(w: World, h: Host) {
    !Blank(h.address) || exists i :: 0 <= i < |h.ips| && Trim(h.ips[i]) != "" && w.probeable(Trim(h.ips[i]))
  }

  lemma TargetExactly(w: World, h: Host)
    ensures HasTarget(w, h) <==> CanBeProbed(w, h)
  {
    hide Trim, Blank, FirstProbeable;
    TrimBlank(h.address);
    FirstProbeableFinds(w, h.ips);
    assert forall ip :: CanProbe(w, ip) <==> Trim(ip) != "" && w.probeable(Trim(ip));
  }

  method HasProbeTarget(w: World, h: Host) returns (yes: bool)
    ensures yes == HasTarget(w, h)
  {
    var addr := ProbeAddress(w, h);
    yes := addr != "";
  }

  lemma BootedOf(w: World, h: Host, now: Time)
    ensures Cleared(h).online == h.online && HasTarget(w, Cleared(h)) == HasTarget(w, h)
    ensures Booted(w, h, now) ==
            if h.online && !HasTarget(w, h) then Cleared(h).(online := false).(updatedAt := now) else Cleared(h)
  {
    hide Trim, FirstProbeable;
  }

  function NormalizeProbe(how: string, port: Option<int>): Outcome<(string, int), Error> {
    var how := if Lower(Trim(how)) == "" then ICMP else Lower(Trim(how));
    var port := if port.Some? then port.value else DEFAULT_PORT;
    if how != ICMP && how != TCP then Failed(InvalidProbe)
    else if port < 1 || port > 65535 then Failed(InvalidProbe)
    else Done((how, port))
  }

  // What the operations make of a row

  function Met(fingerprint: string, subject: string, remoteAddr: string, hello: Hello, now: Time): Host {
    Host(DEFAULT_SITE, "", hello.hostname, "", hello.os, if hello.ips.Some? then hello.ips.value else [], remoteAddr,
         subject, Some(fingerprint), true, true, Some(now), Some(now), None, now, ICMP, DEFAULT_PORT, None)
  }

  function Seen(h: Host, hello: Hello, now: Time): Host {
    h.(hostname := if hello.hostname != "" then hello.hostname else h.hostname,
       os := if hello.os != "" then hello.os else h.os,
       ips := if hello.ips.Some? then hello.ips.value else h.ips,
       online := true, agentOnline := true, lastSeen := Some(now), updatedAt := now)
  }

  function MetAgain(h: Host, subject: string, remoteAddr: string, hello: Hello, now: Time): Host {
    Seen(h.(subject := subject, remoteAddr := remoteAddr), hello, now)
      .(connectedAt := if h.connectedAt.None? then Some(now) else h.connectedAt)
  }

  function Gone(w: World, h: Host, now: Time): Host {
    h.(agentOnline := false, online := h.online && HasTarget(w, h), lastSeen := Some(now), updatedAt := now)
  }

  function Cleared(h: Host): Host {
    h.(agentOnline := false)
  }

  function Booted(w: World, h: Host, now: Time): Host {
    if h.online && !HasTarget(w, h) then Cleared(h).(online := false, updatedAt := now) else Cleared(h)
  }

  function Probed(h: Host, online: bool, at: Time): Host {
    if h.agentOnline then h else h.(online := online, lastProbeAt := Some(at), updatedAt := at)
  }

  function Checked(w: World, site: string): Outcome<string, Error> {
    if Trim(site) == "" then Failed(MissingSite)
    else if Trim(site) !in w.sites then Failed(InvalidSite)
    else Done(Trim(site))
  }

  function CheckedCredential(w: World, credential: string): Outcome<Option<string>, Error> {
    if Trim(credential) == "" then Done(None)
    else if Trim(credential) !in w.credentials then Failed(InvalidCredential)
    else Done(Some(Trim(credential)))
  }

  function Added(w: World, req: CreateRequest, now: Time): Outcome<Host, Error> {
    var site :- Checked(w, req.site);
    var probe :- NormalizeProbe(req.probeMethod, req.probePort);
    var credential :- CheckedCredential(w, req.credential);
    Done(Host(site, Trim(req.name), Trim(req.hostname), Trim(req.address), Trim(req.os), [], "", "", None, false, false,
              None, None, None, now, probe.0, probe.1, credential))
  }

  function Trimmed(given: Option<string>, current: string): string {
    if given.Some? then Trim(given.value) else current
  }

  function Edited(w: World, h: Host, req: UpdateRequest, now: Time): Outcome<Host, Error> {
    var site :- if req.site.Some? then Checked(w, req.site.value) else Done(h.site);
    var credential :- if req.credential.Some? then CheckedCredential(w, req.credential.value) else Done(h.credential);
    var probe :- if req.probeMethod.Some? || req.probePort.Some?
                 then NormalizeProbe(if req.probeMethod.Some? then req.probeMethod.value else h.probeMethod,
                                     Some(if req.probePort.Some? then req.probePort.value else h.probePort))
                 else Done((h.probeMethod, h.probePort));
    Done(h.(site := site, name := Trimmed(req.name, h.name), hostname := Trimmed(req.hostname, h.hostname),
            address := Trimmed(req.address, h.address), os := Trimmed(req.os, h.os), credential := credential,
            probeMethod := probe.0, probePort := probe.1, updatedAt := now))
  }

  // The table

  type Rows = map<string, Host>

  predicate HasFingerprint(rows: Rows, fingerprint: string) {
    exists id :: id in rows && rows[id].fingerprint == Some(fingerprint)
  }

  /** The unique index over fingerprints. */
  ghost predicate Unique(rows: Rows) {
    forall i, j :: i in rows && j in rows && rows[i].fingerprint.Some? && rows[i].fingerprint == rows[j].fingerprint ==>
      i == j
  }

  predicate Insertable(rows: Rows, id: string, h: Host) {
    id !in rows && (h.fingerprint.Some? ==> !HasFingerprint(rows, h.fingerprint.value))
  }

  function Inserted(rows: Rows, id: string, h: Host): Rows {
    if Insertable(rows, id, h) then rows[id := h] else rows
  }

  /** A write of the whole row; it has no effect if the row is gone. */
  function Written(rows: Rows, id: string, h: Host): Rows {
    if id in rows then rows[id := h] else rows
  }

  function ProbeApplied(rows: Rows, id: string, online: bool, at: Time): Rows {
    if id in rows then rows[id := Probed(rows[id], online, at)] else rows
  }

  function ClearedRows(rows: Rows): (r: Rows)
    ensures r.Keys == rows.Keys
  {
    map id | id in rows :: Cleared(rows[id])
  }

  function BootedRows(w: World, rows: Rows, now: Time): (r: Rows)
    ensures r.Keys == rows.Keys
  {
    map id | id in rows :: Booted(w, rows[id], now)
  }

  /** The rows while the boot call works through them: `todo` is cleared but not yet looked at. */
  function HalfBooted(w: World, rows: Rows, todo: set<string>, now: Time): (r: Rows)
    ensures r.Keys == rows.Keys
  {
    map id | id in rows :: if id in todo then Cleared(rows[id]) else Booted(w, rows[id], now)
  }

  lemma HalfBootedNext(w: World, rows: Rows, todo: set<string>, now: Time, id: string)
    requires id in todo && id in rows
    ensures HalfBooted(w, rows, todo, now)[id] == Cleared(rows[id])
    ensures HalfBooted(w, rows, todo, now)[id := Booted(w, rows[id], now)] == HalfBooted(w, rows, todo - {id}, now)
  {
    hide Cleared, Booted;
  }

  lemma ListedIs(rows: Rows, id: string)
    requires id in rows
    ensures ClearedRows(rows)[id] == Cleared(rows[id])
  {}

  lemma HalfBootedEnds(w: World, rows: Rows, now: Time)
    ensures HalfBooted(w, rows, rows.Keys, now) == ClearedRows(rows)
    ensures HalfBooted(w, rows, {}, now) == BootedRows(w, rows, now)
  {
    hide Cleared, Booted;
  }

  /** The rows the probe loop looks after. */
  predicate IsTarget(w: World, rows: Rows, id: string) {
    id in rows && !rows[id].agentOnline && HasTarget(w, rows[id])
  }

  /** The two rows differ in nothing but whether the Agent is connected. */
  predicate SameButPresence(h: Host, g: Host) {
    && h.site == g.site && h.name == g.name && h.hostname == g.hostname && h.address == g.address && h.os == g.os
    && h.ips == g.ips && h.remoteAddr == g.remoteAddr && h.subject == g.subject && h.fingerprint == g.fingerprint
    && h.online == g.online && h.connectedAt == g.connectedAt && h.lastSeen == g.lastSeen
    && h.lastProbeAt == g.lastProbeAt && h.updatedAt == g.updatedAt && h.probeMethod == g.probeMethod
    && h.probePort == g.probePort && h.credential == g.credential
  }

  lemma ClearedIs(rows: Rows, cleared: Rows)
    requires cleared.Keys == rows.Keys
    requires forall id :: id in cleared ==> !cleared[id].agentOnline && SameButPresence(cleared[id], rows[id])
    ensures cleared == ClearedRows(rows)
  {
  }

  class HostTable {
    var rows: Rows

    constructor (initial: Rows)
      ensures rows == initial
    {
      rows := initial;
    }

    method GetByID(id: string) returns (h: Option<Host>)
      ensures h == if id in rows then Some(rows[id]) else None
    {
      h := if id in rows then Some(rows[id]) else None;
    }

    method GetByFingerprint(fingerprint: string) returns (found: Option<(string, Host)>)
      ensures found.Some? <==> HasFingerprint(rows, fingerprint)
      ensures found.Some? ==> found.value.0 in rows && rows[found.value.0] == found.value.1
      ensures found.Some? ==> found.value.1.fingerprint == Some(fingerprint)
    {
      var todo := rows.Keys;
      while todo != {}
        invariant todo <= rows.Keys
        invariant forall id :: id in rows && id !in todo ==> rows[id].fingerprint != Some(fingerprint)
        decreases |todo|
      {
        var id :| id in todo;
        if rows[id].fingerprint == Some(fingerprint) {
          return Some((id, rows[id]));
        }
        todo := todo - {id};
      }
      found := None;
    }

    method Create(id: string, h: Host) returns (ok: bool)
      modifies this
      ensures ok == Insertable(old(rows), id, h) && rows == Inserted(old(rows), id, h)
    {
      var taken := None;
      if h.fingerprint.Some? {
        taken := GetByFingerprint(h.fingerprint.value);
      }
      ok := id !in rows && taken.None?;
      if ok {
        rows := rows[id := h];
      }
    }

    method Update(id: string, h: Host)
      modifies this
      ensures rows == Written(old(rows), id, h)
    {
      if id in rows {
        rows := rows[id := h];
      }
    }

    method ClearAllAgentOnline()
      modifies this
      ensures rows.Keys == old(rows).Keys
      ensures forall id :: id in rows ==> !rows[id].agentOnline && SameButPresence(rows[id], old(rows)[id])
    {
      rows := map id | id in rows :: if rows[id].agentOnline then rows[id].(agentOnline := false) else rows[id];
    }

    method ListAgentOffline() returns (ids: seq<string>)
      ensures forall id :: id in ids <==> id in rows && !rows[id].agentOnline
      ensures forall i, j :: 0 <= i < j < |ids| ==> ids[i] != ids[j]
    {
      ids := [];
      var todo := rows.Keys;
      while todo != {}
        invariant todo <= rows.Keys
        invariant forall id :: id in ids <==> id in rows && id !in todo && !rows[id].agentOnline
        invariant forall i, j :: 0 <= i < j < |ids| ==> ids[i] != ids[j]
        decreases |todo|
      {
        var id :| id in todo;
        if !rows[id].agentOnline {
          ids := ids + [id];
        }
        todo := todo - {id};
      }
    }

    method ApplyProbeResult(id: string, online: bool, at: Time)
      modifies this
      ensures rows == ProbeApplied(old(rows), id, online, at)
    {
      if id in rows && !rows[id].agentOnline {
        rows := rows[id := rows[id].(online := online, lastProbeAt := Some(at), updatedAt := at)];
      } else if id in rows {
        assert rows[id := rows[id]] == rows;
      }
    }
  }

  // The service

  class Service {
    const world: World
    const hosts: HostTable

    constructor (w: World, table: HostTable)
      ensures world == w && hosts == table
    {
      world, hosts := w, table;
    }

    method MarkAllAgentsOffline(now: Time)
      modifies hosts
      ensures hosts.rows == BootedRows(world, old(hosts.rows), now)
    {
      hide *;
      ghost var before := hosts.rows;
      HalfBootedEnds(world, before, now);
      hosts.ClearAllAgentOnline();
      ClearedIs(before, hosts.rows);
      var listed := hosts.rows;
      var todo := listed.Keys;
      while todo != {}
        invariant todo <= before.Keys && listed == ClearedRows(before)
        invariant hosts.rows == HalfBooted(world, before, todo, now)
        decreases |todo|
      {
        var id :| id in todo;
        HalfBootedNext(world, before, todo, now, id);
        ListedIs(before, id);
        todo := todo - {id};
        BootRow(id, before[id], listed[id], now);
      }
    }

    /** One round of the loop, on the row as it was listed. */
    method BootRow(id: string, ghost before: Host, listed: Host, now: Time)
      requires id in hosts.rows && hosts.rows[id] == listed == Cleared(before)
      modifies hosts
      ensures hosts.rows == old(hosts.rows)[id := Booted(world, before, now)]
    {
      hide HasTarget, Cleared, Booted;
      BootedOf(world, before, now);
      var row := listed;
      var probed := HasProbeTarget(world, row);
      if probed || !row.online {
        assert hosts.rows[id := row] == hosts.rows;
        return;
      }
      row := row.(online := false);
      row := row.(updatedAt := now);
      hosts.Update(id, row);
    }

    /** `newID` is the fresh identifier for a host not met before. */
    method UpsertFromAgent(
      newID: string, fingerprint: string, subject: string, remoteAddr: string, hello: Hello, now: Time)
      returns (r: Outcome<Host, Error>)
      requires Unique(hosts.rows)
      modifies hosts
      ensures !HasFingerprint(old(hosts.rows), fingerprint) ==>
                var met := Met(fingerprint, subject, remoteAddr, hello, now);
                && hosts.rows == Inserted(old(hosts.rows), newID, met)
                && r == if newID in old(hosts.rows) then Failed(Duplicate) else Done(met)
      ensures forall id :: id in old(hosts.rows) && old(hosts.rows)[id].fingerprint == Some(fingerprint) ==>
                && hosts.rows == old(hosts.rows)[id := MetAgain(old(hosts.rows)[id], subject, remoteAddr, hello, now)]
                && r == Done(hosts.rows[id])
    {
      var found := hosts.GetByFingerprint(fingerprint);
      if found.None? {
        var row := Met(fingerprint, subject, remoteAddr, hello, now);
        var ok := hosts.Create(newID, row);
        return if ok then Done(row) else Failed(Duplicate);
      }
      var row := found.value.1;
      row := row.(subject := subject);
      row := row.(remoteAddr := remoteAddr);
      row := Refreshed(row, hello, now);
      if row.connectedAt.None? {
        row := row.(connectedAt := Some(now));
      }
      hosts.Update(found.value.0, row);
      r := Done(row);
    }

    /** The fields that a hello and a heartbeat refresh alike. */
    method Refreshed(h: Host, hello: Hello, now: Time) returns (row: Host)
      ensures row == Seen(h, hello, now)
    {
      row := h;
      if hello.hostname != "" {
        row := row.(hostname := hello.hostname);
      }
      if hello.os != "" {
        row := row.(os := hello.os);
      }
      if hello.ips.Some? {
        row := row.(ips := hello.ips.value);
      }
      row := row.(online := true);
      row := row.(agentOnline := true);
      row := row.(lastSeen := Some(now));
      row := row.(updatedAt := now);
    }

    method Heartbeat(fingerprint: string, hello: Hello, now: Time) returns (known: bool)
      requires Unique(hosts.rows)
      modifies hosts
      ensures known == HasFingerprint(old(hosts.rows), fingerprint)
      ensures !known ==> hosts.rows == old(hosts.rows)
      ensures forall id :: id in old(hosts.rows) && old(hosts.rows)[id].fingerprint == Some(fingerprint) ==>
                hosts.rows == old(hosts.rows)[id := Seen(old(hosts.rows)[id], hello, now)]
    {
      var found := hosts.GetByFingerprint(fingerprint);
      if found.None? {
        return false;
      }
      var row := Refreshed(found.value.1, hello, now);
      hosts.Update(found.value.0, row);
      known := true;
    }

    method MarkAgentOffline(fingerprint: string, now: Time)
      requires Unique(hosts.rows)
      modifies hosts
      ensures !HasFingerprint(old(hosts.rows), fingerprint) ==> hosts.rows == old(hosts.rows)
      ensures forall id :: id in old(hosts.rows) && old(hosts.rows)[id].fingerprint == Some(fingerprint) ==>
                hosts.rows == old(hosts.rows)[id := Gone(world, old(hosts.rows)[id], now)]
      ensures forall id :: id in old(hosts.rows) && old(hosts.rows)[id].fingerprint == Some(fingerprint) ==>
                && id in hosts.rows && !hosts.rows[id].agentOnline
                && (hosts.rows[id].online <==> old(hosts.rows)[id].online && CanBeProbed(world, old(hosts.rows)[id]))
    {
      hide CanBeProbed;
      var found := hosts.GetByFingerprint(fingerprint);
      if found.None? {
        return;
      }
      var row := found.value.1;
      row := row.(agentOnline := false);
      var probed := HasProbeTarget(world, row);
      if !probed {
        row := row.(online := false);
      }
      assert HasTarget(world, row) == HasTarget(world, found.value.1);
      TargetExactly(world, found.value.1);
      row := row.(lastSeen := Some(now));
      row := row.(updatedAt := now);
      hosts.Update(found.value.0, row);
    }

    method Create(newID: string, req: CreateRequest, now: Time) returns (r: Outcome<Host, Error>)
      modifies hosts
      ensures var a := Added(world, req, now);
              && (a.Failed? ==> r == a && hosts.rows == old(hosts.rows))
              && (a.Done? ==> hosts.rows == Inserted(old(hosts.rows), newID, a.value)
                              && r == if newID in old(hosts.rows) then Failed(Duplicate) else a)
    {
      var site :- Checked(world, req.site);
      var probe :- NormalizeProbe(req.probeMethod, req.probePort);
      var row := Host(site, Trim(req.name), Trim(req.hostname), Trim(req.address), Trim(req.os), [], "", "", None,
                      false, false, None, None, None, now, probe.0, probe.1, None);
      if Trim(req.credential) != "" {
        var credential :- CheckedCredential(world, req.credential);
        row := row.(credential := credential);
      }
      var ok := hosts.Create(newID, row);
      r := if ok then Done(row) else Failed(Duplicate);
    }

    method Update(id: string, req: UpdateRequest, now: Time) returns (r: Outcome<Host, Error>)
      modifies hosts
      ensures r == if id in old(hosts.rows) then Edited(world, old(hosts.rows)[id], req, now) else Failed(NotFound)
      ensures hosts.rows == if r.Done? then old(hosts.rows)[id := r.value] else old(hosts.rows)
    {
      var found := hosts.GetByID(id);
      if found.None? {
        return Failed(NotFound);
      }
      var row := found.value;
      if req.site.Some? {
        var site :- Checked(world, req.site.value);
        row := row.(site := site);
      }
      row := Relabelled(row, req);
      if req.credential.Some? {
        var credential :- CheckedCredential(world, req.credential.value);
        row := row.(credential := credential);
      }
      if req.probeMethod.Some? || req.probePort.Some? {
        var how := row.probeMethod;
        if req.probeMethod.Some? {
          how := req.probeMethod.value;
        }
        var port := row.probePort;
        if req.probePort.Some? {
          port := req.probePort.value;
        }
        var probe :- NormalizeProbe(how, Some(port));
        row := row.(probeMethod := probe.0);
        row := row.(probePort := probe.1);
      }
      row := row.(updatedAt := now);
      hosts.Update(id, row);
      r := Done(row);
    }

    method Relabelled(h: Host, req: UpdateRequest) returns (row: Host)
      ensures row == h.(name := Trimmed(req.name, h.name), hostname := Trimmed(req.hostname, h.hostname),
                        address := Trimmed(req.address, h.address), os := Trimmed(req.os, h.os))
    {
      row := h;
      if req.name.Some? {
        row := row.(name := Trim(req.name.value));
      }
      if req.hostname.Some? {
        row := row.(hostname := Trim(req.hostname.value));
      }
      if req.address.Some? {
        row := row.(address := Trim(req.address.value));
      }
      if req.os.Some? {
        row := row.(os := Trim(req.os.value));
      }
    }

    method ListProbeTargets() returns (ids: seq<string>)
      ensures forall id :: id in ids <==> IsTarget(world, hosts.rows, id)
      ensures forall i, j :: 0 <= i < j < |ids| ==> ids[i] != ids[j]
    {
      var offline := hosts.ListAgentOffline();
      ids := [];
      for i := 0 to |offline|
        invariant forall id :: id in ids <==> id in offline[..i] && HasTarget(world, hosts.rows[id])
        invariant forall j, k :: 0 <= j < k < |ids| ==> ids[j] != ids[k]
      {
        assert offline[..i + 1] == offline[..i] + [offline[i]];
        var probed := HasProbeTarget(world, hosts.rows[offline[i]]);
        if probed {
          ids := ids + [offline[i]];
        }
      }
      assert offline[..|offline|] == offline;
    }
  }

  class ProbeLoop {
    const service: Service

    constructor (s: Service)
      ensures service == s
    {
      service := s;
    }

    /**
      One round.  `answer` is what the network says of each host, and the round ends early once `limit`
      targets are done, when its context is cancelled.
     */
    method Tick(answer: string -> bool, limit: nat, now: Time) returns (done: seq<string>)
      modifies service.hosts
      ensures forall id :: id in done ==> IsTarget(service.world, old(service.hosts.rows), id)
      ensures |done| <= limit
      ensures |done| < limit ==> forall id :: IsTarget(service.world, old(service.hosts.rows), id) ==> id in done
      ensures service.hosts.rows == map id | id in old(service.hosts.rows) ::
                if id in done then Probed(old(service.hosts.rows)[id], answer(id), now) else old(service.hosts.rows)[id]
    {
      hide HasTarget;
      ghost var before := service.hosts.rows;
      var targets := service.ListProbeTargets();
      done := [];
      for i := 0 to |targets|
        invariant done == targets[..i] && i <= limit
        invariant service.hosts.rows == map id | id in before ::
                    if id in done then Probed(before[id], answer(id), now) else before[id]
      {
        if i == limit {
          return;
        }
        assert targets[i] in targets && targets[i] !in done;
        service.hosts.ApplyProbeResult(targets[i], answer(targets[i]), now);
        done := done + [targets[i]];
      }
    }
  }
}
