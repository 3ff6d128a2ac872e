/** What each operation on hosts makes of each field, stated on the rows themselves. */
module HostFields {
  import opened Basics
  import opened Outcomes
  import opened TrimText
  import opened Hosts

  /** Where a host is probed: at its address, or else at the first reported address that can be. */
  lemma TargetIsFirst(w: World, h: Host)
    ensures !Blank(h.address) ==> ProbeTarget(w, h) == Trim(h.address)
    ensures Blank(h.address) && ProbeTarget(w, h) != "" ==>
              exists i :: && 0 <= i < |h.ips| && ProbeTarget(w, h) == Trim(h.ips[i]) && w.probeable(Trim(h.ips[i]))
                          && forall j :: 0 <= j < i ==> !CanProbe(w, h.ips[j])
  {
    hide Trim, Blank;
    TrimBlank(h.address);
    FirstIsFirst(w, h.ips);
  }

  lemma {:induction false} FirstIsFirst(w: World, ips: seq<string>)
    ensures FirstProbeable(w, ips) != "" ==>
              exists i :: && 0 <= i < |ips| && FirstProbeable(w, ips) == Trim(ips[i]) && w.probeable(Trim(ips[i]))
                          && forall j :: 0 <= j < i ==> !CanProbe(w, ips[j])
  {
    hide Trim;
    if ips != [] {
      if CanProbe(w, ips[0]) {
        assert ips[0] == ips[0];
      } else {
        var rest := ips[1..];
        FirstIsFirst(w, rest);
        if FirstProbeable(w, rest) != "" {
          var i :| && 0 <= i < |rest| && FirstProbeable(w, rest) == Trim(rest[i]) && w.probeable(Trim(rest[i]))
                   && forall j :: 0 <= j < i ==> !CanProbe(w, rest[j]);
          assert ips[i + 1] == rest[i];
          assert forall j :: 0 < j < i + 1 ==> ips[j] == rest[j - 1];
        }
      }
    }
  }

  /** Everything a Portal or an Agent says about a host, as opposed to whether it is there. */
  predicate SameDescription(h: Host, g: Host) {
    && h.site == g.site && h.name == g.name && h.hostname == g.hostname && h.address == g.address && h.os == g.os
    && h.ips == g.ips && h.fingerprint == g.fingerprint && h.probeMethod == g.probeMethod
    && h.probePort == g.probePort && h.credential == g.credential
  }

  predicate SameOrigin(h: Host, g: Host) {
    h.remoteAddr == g.remoteAddr && h.subject == g.subject && h.connectedAt == g.connectedAt
  }

  /** An Agent leaves: not connected, and online exactly if it was and can be probed; else only the times change. */
  lemma GoneMeans(w: World, h: Host, now: Time)
    ensures var g := Gone(w, h, now);
            && !g.agentOnline && (g.online <==> h.online && CanBeProbed(w, h))
            && g.lastSeen == Some(now) && g.updatedAt == now
            && SameDescription(g, h) && SameOrigin(g, h) && g.lastProbeAt == h.lastProbeAt
  {
    hide HasTarget, CanBeProbed;
    TargetExactly(w, h);
  }

  /** The server restarts: the same, but an unchanged row keeps its time. */
  lemma BootedMeans(w: World, h: Host, now: Time)
    ensures var g := Booted(w, h, now);
            && !g.agentOnline && (g.online <==> h.online && CanBeProbed(w, h))
            && g.updatedAt == (if g.online == h.online then h.updatedAt else now)
            && SameDescription(g, h) && SameOrigin(g, h) && g.lastProbeAt == h.lastProbeAt && g.lastSeen == h.lastSeen
  {
    hide HasTarget, CanBeProbed;
    TargetExactly(w, h);
  }

  /** A probe: an unconnected host is online exactly if it answered; a connected one is left alone. */
  lemma ProbedMeans(h: Host, answered: bool, at: Time)
    ensures var g := Probed(h, answered, at);
            && (h.agentOnline ==> g == h)
            && (!h.agentOnline ==>
                  && g.online == answered && !g.agentOnline && g.lastProbeAt == Some(at) && g.updatedAt == at
                  && SameDescription(g, h) && SameOrigin(g, h) && g.lastSeen == h.lastSeen)
  {
  }

  /** A text an Agent sends replaces the stored one unless it is empty. */
  predicate Told(said: string, before: string, after: string) {
    (said != "" ==> after == said) && (said == "" ==> after == before)
  }

  predicate ToldIps(said: Option<seq<string>>, before: seq<string>, after: seq<string>) {
    match said
    case Some(ips) => after == ips
    case None => after == before
  }

  /** What a hello and a heartbeat have in common. */
  predicate Refreshes(h: Host, g: Host, hello: Hello, now: Time) {
    && g.agentOnline && g.online && g.lastSeen == Some(now) && g.updatedAt == now
    && Told(hello.hostname, h.hostname, g.hostname) && Told(hello.os, h.os, g.os) && ToldIps(hello.ips, h.ips, g.ips)
    && g.site == h.site && g.name == h.name && g.address == h.address && g.fingerprint == h.fingerprint
    && g.probeMethod == h.probeMethod && g.probePort == h.probePort && g.credential == h.credential
    && g.lastProbeAt == h.lastProbeAt
  }

  lemma SeenMeans(h: Host, hello: Hello, now: Time)
    ensures Refreshes(h, Seen(h, hello, now), hello, now) && SameOrigin(Seen(h, hello, now), h)
  {
  }

  lemma MetAgainMeans(h: Host, subject: string, remoteAddr: string, hello: Hello, now: Time)
    ensures var g := MetAgain(h, subject, remoteAddr, hello, now);
            && Refreshes(h, g, hello, now) && g.subject == subject && g.remoteAddr == remoteAddr
            && g.connectedAt == if h.connectedAt.Some? then h.connectedAt else Some(now)
  {
  }

  /** A host met for the first time: connected, in the default site, described by its Agent, probed by ping. */
  lemma MetMeans(fingerprint: string, subject: string, remoteAddr: string, hello: Hello, now: Time)
    ensures var g := Met(fingerprint, subject, remoteAddr, hello, now);
            && g.agentOnline && g.online && g.fingerprint == Some(fingerprint)
            && g.subject == subject && g.remoteAddr == remoteAddr
            && g.hostname == hello.hostname && g.os == hello.os && ToldIps(hello.ips, [], g.ips)
            && g.site == "00000000-0000-4000-8000-000000000001" && g.name == "" && g.address == ""
            && g.probeMethod == "icmp" && g.probePort == 22 && g.credential == None
            && g.connectedAt == g.lastSeen == Some(now) && g.updatedAt == now && g.lastProbeAt == None
  {
  }

  // Portal edits

  predicate EditedText(given: Option<string>, before: string, after: string) {
    match given
    case Some(text) => after == Trim(text)
    case None => after == before
  }

  /** An edit changes the texts it names, trimmed, and nothing of whether the host is there. */
  lemma EditedMeans(w: World, h: Host, req: UpdateRequest, now: Time)
    requires Edited(w, h, req, now).Done?
    ensures var g := Edited(w, h, req, now).value;
            && EditedText(req.site, h.site, g.site) && EditedText(req.name, h.name, g.name)
            && EditedText(req.hostname, h.hostname, g.hostname) && EditedText(req.address, h.address, g.address)
            && EditedText(req.os, h.os, g.os)
            && g.updatedAt == now && g.online == h.online && g.agentOnline == h.agentOnline
            && g.ips == h.ips && g.fingerprint == h.fingerprint && SameOrigin(g, h)
            && g.lastSeen == h.lastSeen && g.lastProbeAt == h.lastProbeAt
  {
    hide Trim, Lower, Blank, NormalizeProbe, CheckedCredential;
  }

  /** How it is probed and with which credential it is reached change only as the edit says. */
  lemma EditedSettings(w: World, h: Host, req: UpdateRequest, now: Time)
    requires Edited(w, h, req, now).Done?
    ensures var g := Edited(w, h, req, now).value;
            && (req.credential.None? ==> g.credential == h.credential)
            && (req.credential.Some? ==>
                  g.credential == if Blank(req.credential.value) then None else Some(Trim(req.credential.value)))
            && (req.probePort.Some? ==> g.probePort == req.probePort.value)
            && (req.probePort.None? ==> g.probePort == h.probePort)
            && (req.probeMethod.None? && req.probePort.None? ==> g.probeMethod == h.probeMethod)
            && (req.probeMethod.Some? ==> ProbeWord(req.probeMethod.value, g.probeMethod))
  {
    hide Trim, Lower, Blank, Checked;
    if req.credential.Some? {
      TrimBlank(req.credential.value);
    }
  }

  /** A blank method means a ping; another is taken in lower case. */
  predicate ProbeWord(given: string, stored: string) {
    stored == if Lower(Trim(given)) == "" then "icmp" else Lower(Trim(given))
  }

  /** How a host may be probed: by ping or by a connection, in any case and spacing, at a port there is. */
  predicate GoodProbe(how: string, port: int) {
    Lower(Trim(how)) in {"", "icmp", "tcp"} && 1 <= port <= 65535
  }

  lemma ProbeAccepted(how: string, port: Option<int>)
    ensures var p := NormalizeProbe(how, port);
            p.Done? <==> GoodProbe(how, if port.Some? then port.value else 22)
    ensures NormalizeProbe(how, port).Failed? ==> NormalizeProbe(how, port) == Failed(InvalidProbe)
  {
    hide Trim, Lower;
  }

  predicate NoSite(site: string) {
    Blank(site)
  }

  predicate UnknownSite(w: World, site: string) {
    !Blank(site) && Trim(site) !in w.sites
  }

  predicate UnknownCredential(w: World, credential: string) {
    !Blank(credential) && Trim(credential) !in w.credentials
  }

  lemma ChecksMean(w: World, site: string, credential: string)
    ensures var r := Checked(w, site);
            && (r == Failed(MissingSite) <==> NoSite(site)) && (r == Failed(InvalidSite) <==> UnknownSite(w, site))
            && (r.Done? <==> !NoSite(site) && !UnknownSite(w, site))
    ensures var r := CheckedCredential(w, credential);
            && (r == Failed(InvalidCredential) <==> UnknownCredential(w, credential))
            && (r.Done? <==> !UnknownCredential(w, credential))
  {
    hide Trim, Blank;
    TrimBlank(site);
    TrimBlank(credential);
  }

  /** The probe settings an edit asks for, if it asks for any. */
  predicate BadProbe(h: Host, req: UpdateRequest) {
    && (req.probeMethod.Some? || req.probePort.Some?)
    && !GoodProbe(if req.probeMethod.Some? then req.probeMethod.value else h.probeMethod,
                  if req.probePort.Some? then req.probePort.value else h.probePort)
  }

  /** Exactly the edits that succeed, and the error of the others, the earlier cause first. */
  lemma EditFails(w: World, h: Host, req: UpdateRequest, now: Time)
    ensures var r := Edited(w, h, req, now);
            var noSite := req.site.Some? && NoSite(req.site.value);
            var badSite := req.site.Some? && UnknownSite(w, req.site.value);
            var badCredential := req.credential.Some? && UnknownCredential(w, req.credential.value);
            && (r == Failed(MissingSite) <==> noSite)
            && (r == Failed(InvalidSite) <==> badSite)
            && (r == Failed(InvalidCredential) <==> !noSite && !badSite && badCredential)
            && (r == Failed(InvalidProbe) <==> !noSite && !badSite && !badCredential && BadProbe(h, req))
            && (r.Done? <==> !noSite && !badSite && !badCredential && !BadProbe(h, req))
  {
    hide Checked, CheckedCredential, NoSite, UnknownSite, UnknownCredential, NormalizeProbe, GoodProbe, Trim;
    ChecksMean(w, Or(req.site, ""), Or(req.credential, ""));
    ProbeAccepted(if req.probeMethod.Some? then req.probeMethod.value else h.probeMethod,
                  Some(if req.probePort.Some? then req.probePort.value else h.probePort));
    CheckErrors(w, Or(req.site, ""), Or(req.credential, ""));
  }

  function Or(given: Option<string>, current: string): string {
    if given.Some? then given.value else current
  }

  lemma CheckErrors(w: World, site: string, credential: string)
    ensures Checked(w, site).Failed? ==> Checked(w, site).error in {MissingSite, InvalidSite}
    ensures CheckedCredential(w, credential).Failed? ==> CheckedCredential(w, credential).error == InvalidCredential
  {
  }

  /** Exactly the hosts that can be added by hand. */
  lemma AddFails(w: World, req: CreateRequest, now: Time)
    ensures var r := Added(w, req, now);
            var badProbe := !GoodProbe(req.probeMethod, if req.probePort.Some? then req.probePort.value else 22);
            var siteOk := !NoSite(req.site) && !UnknownSite(w, req.site);
            && (r == Failed(MissingSite) <==> NoSite(req.site))
            && (r == Failed(InvalidSite) <==> UnknownSite(w, req.site))
            && (r == Failed(InvalidProbe) <==> siteOk && badProbe)
            && (r == Failed(InvalidCredential) <==> siteOk && !badProbe && UnknownCredential(w, req.credential))
            && (r.Done? <==> siteOk && !badProbe && !UnknownCredential(w, req.credential))
  {
    hide Checked, CheckedCredential, NoSite, UnknownSite, UnknownCredential, NormalizeProbe, GoodProbe, Trim;
    ChecksMean(w, req.site, req.credential);
    CheckErrors(w, req.site, req.credential);
    ProbeAccepted(req.probeMethod, req.probePort);
  }

  /** A host added by hand: unconnected and offline, with the texts of the request trimmed. */
  lemma AddedMeans(w: World, req: CreateRequest, now: Time)
    requires Added(w, req, now).Done?
    ensures var g := Added(w, req, now).value;
            && !g.online && !g.agentOnline && g.fingerprint == None
            && g.site == Trim(req.site) && g.site in w.sites && g.name == Trim(req.name)
            && g.hostname == Trim(req.hostname) && g.address == Trim(req.address) && g.os == Trim(req.os)
            && g.ips == [] && ProbeWord(req.probeMethod, g.probeMethod)
            && g.probePort == (if req.probePort.Some? then req.probePort.value else 22)
            && g.credential == (if Blank(req.credential) then None else Some(Trim(req.credential)))
            && g.connectedAt == g.lastSeen == g.lastProbeAt == None && g.updatedAt == now
  {
    hide Trim, Lower, Blank;
    TrimBlank(req.credential);
  }
}
