/**
  The worker pool of a LAN scan: one producer, 64 workers, a bounded channel, and a deadline that may
  pass at any moment.  Any goroutine that can move may move next.
 */
module ScanPool {
  import opened Cidr
  import opened IpText

  const SCAN_WORKERS := 64

  /** `detail` stands for what the network answered: round trip, ports, name. */
  datatype Candidate = Candidate(addr: Addr4, detail: nat, alreadyKnown: bool)

  function Ip(c: Candidate): string {
    Dotted(c.addr)
  }

  /** What is scanned: the addresses, which of them answer, and which texts Inventory knows. */
  datatype Lan = Lan(hosts: seq<Addr4>, live: set<Addr4>, known: set<string>)

  datatype Producer = Sending | Waiting(late: bool) | Returned(late: bool, result: seq<Candidate>)

  datatype Worker = Idle | Checking(ip: Addr4) | Probing(ip: Addr4) | Appending(found: Candidate) | Exited

  /** `sent` is the producer's position; `done` records the addresses that have left their worker. */
  datatype Pool = Pool(
    producer: Producer, sent: nat, jobs: seq<Addr4>, closed: bool, expired: bool,
    workers: seq<Worker>, out: seq<Candidate>, done: seq<Addr4>)

  datatype Act =
    | Expire | Send | SeeExpiry | Finish | Return(result: seq<Candidate>)
    | Take(w: nat) | Leave(w: nat) | Check(w: nat) | Probe(w: nat, ok: bool, detail: nat) | Append(w: nat)

  ghost predicate SortedResult(r: seq<Candidate>, out: seq<Candidate>) {
    && multiset(r) == multiset(out)
    && forall i, j :: 0 <= i < j < |r| ==> !Less(Ip(r[j]), Ip(r[i]))
  }

  ghost predicate ProducerStep(lan: Lan, a: Act, p: Pool, q: Pool) {
    match a
    case Expire => q == p.(expired := true)
    case Send =>
      && p.producer.Sending? && p.sent < |lan.hosts| && |p.jobs| < SCAN_WORKERS
      && q == p.(jobs := p.jobs + [lan.hosts[p.sent]], sent := p.sent + 1)
    case SeeExpiry =>
      && p.producer.Sending? && p.sent < |lan.hosts| && p.expired
      && q == p.(producer := Waiting(true), closed := true)
    case Finish =>
      && p.producer.Sending? && p.sent == |lan.hosts|
      && q == p.(producer := Waiting(false), closed := true)
    case Return(r) =>
      && p.producer.Waiting? && (forall w :: 0 <= w < |p.workers| ==> p.workers[w].Exited?)
      && (if p.producer.late then r == p.out else SortedResult(r, p.out))
      && q == p.(producer := Returned(p.producer.late, r))
    case _ => false
  }

  ghost predicate WorkerStep(lan: Lan, a: Act, p: Pool, q: Pool) {
    match a
    case Take(w) =>
      && w < |p.workers| && p.workers[w].Idle? && p.jobs != []
      && q == p.(jobs := p.jobs[1..], workers := p.workers[w := Checking(p.jobs[0])])
    case Leave(w) =>
      && w < |p.workers| && p.workers[w].Idle? && p.jobs == [] && p.closed
      && q == p.(workers := p.workers[w := Exited])
    case Check(w) =>
      && w < |p.workers| && p.workers[w].Checking?
      && var ip := p.workers[w].ip;
         q == if p.expired then p.(workers := p.workers[w := Exited], done := p.done + [ip])
              else p.(workers := p.workers[w := Probing(ip)])
    case Probe(w, ok, detail) =>
      // A host that answers is live; one that is live answers, unless the deadline cut the probe short.
      && w < |p.workers| && p.workers[w].Probing?
      && var ip := p.workers[w].ip;
         && (ok ==> ip in lan.live) && (ip in lan.live && !p.expired ==> ok)
         && q == if ok then p.(workers := p.workers[w := Appending(Candidate(ip, detail, Dotted(ip) in lan.known))])
                 else p.(workers := p.workers[w := Idle], done := p.done + [ip])
    case Append(w) =>
      && w < |p.workers| && p.workers[w].Appending?
      && var c := p.workers[w].found;
         q == p.(workers := p.workers[w := Idle], out := p.out + [c], done := p.done + [c.addr])
    case _ => false
  }

  ghost predicate Step(lan: Lan, a: Act, p: Pool, q: Pool) {
    ProducerStep(lan, a, p, q) || WorkerStep(lan, a, p, q)
  }

  function Start(): Pool {
    Pool(Sending, 0, [], false, false, seq(SCAN_WORKERS, _ => Idle), [], [])
  }

  // Every address sent is in exactly one place

  function HeldBy(w: Worker): multiset<Addr4> {
    match w
    case Checking(ip) => multiset{ip}
    case Probing(ip) => multiset{ip}
    case Appending(c) => multiset{c.addr}
    case _ => multiset{}
  }

  function InHand(ws: seq<Worker>): multiset<Addr4> {
    if ws == [] then multiset{} else InHand(ws[..|ws| - 1]) + HeldBy(ws[|ws| - 1])
  }

  lemma AddSame(a: multiset<Addr4>, b: multiset<Addr4>, c: multiset<Addr4>, d: multiset<Addr4>, e: multiset<Addr4>)
    requires a + b == c + d
    ensures (a + e) + b == (c + e) + d
  {
    forall x
      ensures ((a + e) + b)[x] == ((c + e) + d)[x]
    {
      assert (a + b)[x] == (c + d)[x];
    }
  }

  lemma {:induction false} InHandUpdate(ws: seq<Worker>, w: nat, v: Worker)
    requires w < |ws|
    ensures InHand(ws[w := v]) + HeldBy(ws[w]) == InHand(ws) + HeldBy(v)
  {
    hide HeldBy;
    var n := |ws| - 1;
    var us := ws[w := v];
    assert InHand(us) == InHand(us[..n]) + HeldBy(us[n]);
    assert InHand(ws) == InHand(ws[..n]) + HeldBy(ws[n]);
    if w == n {
      assert us[..n] == ws[..n];
    } else {
      assert us[..n] == ws[..n][w := v];
      InHandUpdate(ws[..n], w, v);
      AddSame(InHand(us[..n]), HeldBy(ws[w]), InHand(ws[..n]), HeldBy(v), HeldBy(ws[n]));
    }
  }

  function Addrs(cs: seq<Candidate>): (r: seq<Addr4>)
    ensures |r| == |cs|
  {
    seq(|cs|, i requires 0 <= i < |cs| => cs[i].addr)
  }

  ghost predicate Conserved(lan: Lan, p: Pool) {
    && p.sent <= |lan.hosts|
    && multiset(p.jobs) + InHand(p.workers) + multiset(p.done) == multiset(lan.hosts[..p.sent])
  }

  ghost predicate Genuine(lan: Lan, c: Candidate) {
    c.addr in lan.live && (c.alreadyKnown <==> Ip(c) in lan.known)
  }

  ghost predicate Reported(lan: Lan, p: Pool) {
    && multiset(Addrs(p.out)) <= multiset(p.done)
    && (forall c :: c in p.out ==> Genuine(lan, c))
    && (forall w :: 0 <= w < |p.workers| && p.workers[w].Appending? ==> Genuine(lan, p.workers[w].found))
    && (!p.expired ==> forall a :: a in p.done && a in lan.live ==> a in Addrs(p.out))
  }

  ghost predicate Control(lan: Lan, p: Pool) {
    && |p.workers| == SCAN_WORKERS
    && (p.producer.Sending? <==> !p.closed)
    && ((p.producer == Waiting(false) || (p.producer.Returned? && !p.producer.late)) ==> p.sent == |lan.hosts|)
    && (forall w :: 0 <= w < |p.workers| && p.workers[w].Exited? ==> p.expired || (p.closed && p.jobs == []))
    && (p.producer.Returned? ==>
          && (forall w :: 0 <= w < |p.workers| ==> p.workers[w].Exited?)
          && if p.producer.late then p.producer.result == p.out else SortedResult(p.producer.result, p.out))
  }

  ghost predicate Inv(lan: Lan, p: Pool) {
    Conserved(lan, p) && Reported(lan, p) && Control(lan, p)
  }

  /** A worker passes its address on, or gives it up. */
  lemma WorkerConserves(lan: Lan, p: Pool, q: Pool, w: nat, v: Worker, left: seq<Addr4>)
    requires Conserved(lan, p) && w < |p.workers|
    requires q.sent == p.sent && q.jobs == p.jobs && q.workers == p.workers[w := v] && q.done == p.done + left
    requires HeldBy(p.workers[w]) == HeldBy(v) + multiset(left)
    ensures Conserved(lan, q)
  {
    hide InHand, HeldBy;
    InHandUpdate(p.workers, w, v);
    var l := multiset(left);
    assert multiset(q.done) == multiset(p.done) + l;
    forall x
      ensures (InHand(q.workers) + l)[x] == InHand(p.workers)[x]
    {
      assert (InHand(q.workers) + HeldBy(p.workers[w]))[x] == (InHand(p.workers) + HeldBy(v))[x];
    }
  }

  lemma TakeConserves(lan: Lan, p: Pool, q: Pool, w: nat)
    requires Conserved(lan, p) && WorkerStep(lan, Take(w), p, q)
    ensures Conserved(lan, q)
  {
    hide InHand;
    var ip := p.jobs[0];
    InHandUpdate(p.workers, w, Checking(ip));
    assert p.jobs == [ip] + q.jobs;
    assert multiset(p.jobs) == multiset([ip]) + multiset(q.jobs);
    assert multiset([ip]) == multiset{ip};
    assert InHand(q.workers) + multiset{} == InHand(q.workers);
    assert InHand(q.workers) == InHand(p.workers) + multiset{ip};
  }

  lemma LeaveConserves(lan: Lan, a: Act, p: Pool, q: Pool)
    requires Conserved(lan, p) && WorkerStep(lan, a, p, q) && (a.Leave? || a.Append?)
    ensures Conserved(lan, q)
  {
    hide Conserved, InHand, Dotted;
    assert p.done + [] == p.done;
    if a.Leave? {
      WorkerConserves(lan, p, q, a.w, Exited, []);
    } else {
      WorkerConserves(lan, p, q, a.w, Idle, [p.workers[a.w].found.addr]);
    }
  }

  lemma CheckConserves(lan: Lan, p: Pool, q: Pool, w: nat)
    requires Conserved(lan, p) && WorkerStep(lan, Check(w), p, q)
    ensures Conserved(lan, q)
  {
    hide Conserved, InHand, Dotted;
    assert p.done + [] == p.done;
    WorkerConserves(lan, p, q, w, q.workers[w], if p.expired then [p.workers[w].ip] else []);
  }

  lemma ProbeConserves(lan: Lan, a: Act, p: Pool, q: Pool)
    requires Conserved(lan, p) && WorkerStep(lan, a, p, q) && a.Probe?
    ensures Conserved(lan, q)
  {
    hide Conserved, InHand, Dotted;
    assert p.done + [] == p.done;
    WorkerConserves(lan, p, q, a.w, q.workers[a.w], if a.ok then [] else [p.workers[a.w].ip]);
  }

  lemma WorkerStepConserves(lan: Lan, a: Act, p: Pool, q: Pool)
    requires Conserved(lan, p) && WorkerStep(lan, a, p, q)
    ensures Conserved(lan, q)
  {
    hide Conserved, InHand;
    match a {
      case Take(w) => TakeConserves(lan, p, q, w);
      case Check(w) => CheckConserves(lan, p, q, w);
      case Probe(_, _, _) => ProbeConserves(lan, a, p, q);
      case _ => LeaveConserves(lan, a, p, q);
    }
  }

  lemma StepConserves(lan: Lan, a: Act, p: Pool, q: Pool)
    requires Conserved(lan, p) && Step(lan, a, p, q)
    ensures Conserved(lan, q)
  {
    hide InHand, WorkerStep;
    if WorkerStep(lan, a, p, q) {
      WorkerStepConserves(lan, a, p, q);
    } else if a.Send? {
      assert lan.hosts[..q.sent] == lan.hosts[..p.sent] + [lan.hosts[p.sent]];
    }
  }

  lemma AppendReports(lan: Lan, p: Pool, q: Pool, w: nat)
    requires Reported(lan, p) && WorkerStep(lan, Append(w), p, q)
    ensures Reported(lan, q)
  {
    hide Genuine;
    var c := p.workers[w].found;
    assert Addrs(q.out) == Addrs(p.out) + [c.addr];
    assert multiset(Addrs(q.out)) == multiset(Addrs(p.out)) + multiset{c.addr};
    assert multiset(q.done) == multiset(p.done) + multiset{c.addr};
  }

  lemma WorkerReports(lan: Lan, p: Pool, q: Pool, w: nat, left: seq<Addr4>)
    requires Reported(lan, p) && w < |p.workers| && |q.workers| == |p.workers|
    requires forall v :: 0 <= v < |p.workers| && v != w ==> q.workers[v] == p.workers[v]
    requires q.out == p.out && q.expired == p.expired && q.done == p.done + left
    requires q.workers[w].Appending? ==> Genuine(lan, q.workers[w].found)
    requires !p.expired ==> forall a :: a in left ==> a !in lan.live
    ensures Reported(lan, q)
  {
    hide Genuine;
    assert multiset(q.done) == multiset(p.done) + multiset(left);
  }

  lemma StepReports(lan: Lan, a: Act, p: Pool, q: Pool)
    requires Reported(lan, p) && Step(lan, a, p, q)
    ensures Reported(lan, q)
  {
    hide Reported, Dotted, Addrs;
    match a {
      case Append(w) => AppendReports(lan, p, q, w);
      case Take(w) => WorkerReports(lan, p, q, w, []);
      case Leave(w) => WorkerReports(lan, p, q, w, []);
      case Check(w) => WorkerReports(lan, p, q, w, if p.expired then [p.workers[w].ip] else []);
      case Probe(w, ok, _) => WorkerReports(lan, p, q, w, if ok then [] else [p.workers[w].ip]);
      case _ => OthersReport(lan, a, p, q);
    }
  }

  lemma OthersReport(lan: Lan, a: Act, p: Pool, q: Pool)
    requires Reported(lan, p) && ProducerStep(lan, a, p, q)
    ensures Reported(lan, q)
  {
    hide Genuine, Addrs, SortedResult;
  }

  lemma StepControls(lan: Lan, a: Act, p: Pool, q: Pool)
    requires Control(lan, p) && Step(lan, a, p, q)
    ensures Control(lan, q)
  {
    hide SortedResult;
  }

  ghost predicate IsRun(lan: Lan, run: seq<Pool>, acts: seq<Act>) {
    && |run| == |acts| + 1 && run[0] == Start()
    && forall i :: 0 <= i < |acts| ==> Step(lan, acts[i], run[i], run[i + 1])
  }

  lemma {:induction false} NobodyHolds(n: nat)
    ensures InHand(seq(n, _ => Idle)) == multiset{}
  {
    if n > 0 {
      NobodyHolds(n - 1);
      assert seq(n, _ => Idle)[..n - 1] == seq(n - 1, _ => Idle);
    }
  }

  lemma {:induction false} RunKeepsInv(lan: Lan, run: seq<Pool>, acts: seq<Act>, n: nat)
    requires IsRun(lan, run, acts) && n <= |acts|
    ensures Inv(lan, run[n])
    decreases n
  {
    hide Step, Conserved, Reported, Control;
    if n == 0 {
      StartInv(lan);
    } else {
      var k := n - 1;
      RunKeepsInv(lan, run, acts, k);
      StepConserves(lan, acts[k], run[k], run[n]);
      StepReports(lan, acts[k], run[k], run[n]);
      StepControls(lan, acts[k], run[k], run[n]);
    }
  }

  lemma StartInv(lan: Lan)
    ensures Inv(lan, Start())
  {
    NobodyHolds(SCAN_WORKERS);
    assert lan.hosts[..0] == [];
  }
}
