/** What a scan returns under every schedule, and that it always returns. */
module ScanResults {
  import opened Basics
  import opened Cidr
  import opened IpText
  import opened ScanPool

  predicate Distinct(s: seq<Addr4>) {
    forall i, j :: 0 <= i < j < |s| ==> s[i] != s[j]
  }

  function Ips(r: seq<Candidate>): (t: seq<string>)
    ensures |t| == |r|
  {
    seq(|r|, i requires 0 <= i < |r| => Ip(r[i]))
  }

  // Multisets of distinct elements

  lemma {:induction false} DistinctCounts(s: seq<Addr4>)
    ensures Distinct(s) <==> forall x :: multiset(s)[x] <= 1
  {
    if s != [] {
      var t := s[..|s| - 1];
      var last := s[|s| - 1];
      DistinctCounts(t);
      assert s == t + [last];
      assert multiset(s) == multiset(t) + multiset{last};
      if Distinct(t) && last in t {
        assert multiset(s)[last] == 2;
        var i :| 0 <= i < |t| && t[i] == last;
        assert s[i] == s[|t|];
      } else if !Distinct(t) {
        var x :| multiset(t)[x] > 1;
        assert multiset(s)[x] > 1;
      }
    }
  }

  lemma AddrsOfBoth(r: seq<Candidate>, s: seq<Candidate>)
    ensures Addrs(r + s) == Addrs(r) + Addrs(s)
  {}

  /** Taking out one candidate. */
  lemma Without(s: seq<Candidate>, k: nat)
    requires k < |s|
    ensures multiset(s[..k] + s[k + 1..]) == multiset(s) - multiset{s[k]}
    ensures multiset(Addrs(s[..k] + s[k + 1..])) == multiset(Addrs(s)) - multiset{s[k].addr}
  {
    var x, y, c := s[..k], s[k + 1..], [s[k]];
    assert s == x + (c + y);
    AddrsOfBoth(x, y);
    AddrsOfBoth(x, c + y);
    AddrsOfBoth(c, y);
    assert Addrs(c) == [s[k].addr];
    hide Addrs;
    assert multiset(s) == multiset(x) + (multiset(c) + multiset(y));
    assert multiset(Addrs(s)) == multiset(Addrs(x)) + (multiset{s[k].addr} + multiset(Addrs(y)));
  }

  lemma PutBack(a: multiset<Addr4>, b: multiset<Addr4>, x: Addr4)
    requires x in a && x in b && a - multiset{x} == b - multiset{x}
    ensures a == b
  {
    assert a == (a - multiset{x}) + multiset{x};
    assert b == (b - multiset{x}) + multiset{x};
  }

  lemma {:induction false} SameAddrs(r: seq<Candidate>, out: seq<Candidate>)
    requires multiset(r) == multiset(out)
    ensures multiset(Addrs(r)) == multiset(Addrs(out))
    decreases |r|
  {
    hide Addrs;
    if r == [] {
      SomethingIn(out);
    } else {
      var k := Position(out, r, 0);
      HasAddr(r, 0);
      HasAddr(out, k);
      Without(r, 0);
      Without(out, k);
      SameAddrs(r[..0] + r[1..], out[..k] + out[k + 1..]);
      PutBack(multiset(Addrs(r)), multiset(Addrs(out)), r[0].addr);
    }
  }

  lemma SomethingIn(s: seq<Candidate>)
    ensures s != [] ==> multiset(s) != multiset{}
  {
    if s != [] {
      assert s[0] in multiset(s);
    }
  }

  lemma Position(s: seq<Candidate>, r: seq<Candidate>, i: nat) returns (k: nat)
    requires i < |r| && multiset(r) == multiset(s)
    ensures k < |s| && s[k] == r[i]
  {
    assert r[i] in multiset(r);
    k :| 0 <= k < |s| && s[k] == r[i];
  }

  lemma HasAddr(s: seq<Candidate>, k: nat)
    requires k < |s|
    ensures s[k].addr in multiset(Addrs(s))
  {
    assert Addrs(s)[k] in Addrs(s);
  }

  lemma {:induction false} AllExitedHoldNothing(ws: seq<Worker>)
    requires forall w :: 0 <= w < |ws| ==> ws[w].Exited?
    ensures InHand(ws) == multiset{}
  {
    if ws != [] {
      AllExitedHoldNothing(ws[..|ws| - 1]);
    }
  }

  // Safety: what is returned

  lemma ReturnedFromOut(lan: Lan, p: Pool)
    requires Inv(lan, p) && p.producer.Returned?
    ensures multiset(p.producer.result) == multiset(p.out)
    ensures multiset(Addrs(p.producer.result)) <= multiset(lan.hosts)
  {
    hide InHand, Genuine, Addrs;
    SameAddrs(p.producer.result, p.out);
    var sent := lan.hosts[..p.sent];
    assert lan.hosts == sent + lan.hosts[p.sent..];
    forall x
      ensures multiset(Addrs(p.producer.result))[x] <= multiset(lan.hosts)[x]
    {
      assert multiset(p.done)[x] <= multiset(sent)[x] by {
        assert (multiset(p.jobs) + InHand(p.workers) + multiset(p.done))[x] == multiset(sent)[x];
      }
    }
  }

  /** At any moment of any schedule: each reported address once, scanned, live, and marked as Inventory has it. */
  lemma ResultIsSound(lan: Lan, run: seq<Pool>, acts: seq<Act>, n: nat)
    requires IsRun(lan, run, acts) && n <= |acts| && Distinct(lan.hosts)
    requires run[n].producer.Returned?
    ensures var r := run[n].producer.result;
            && Distinct(Addrs(r))
            && forall c :: c in r ==>
                 c.addr in lan.hosts && c.addr in lan.live && (c.alreadyKnown <==> Ip(c) in lan.known)
  {
    hide Step, Conserved, Control, Ip, SortedResult;
    RunKeepsInv(lan, run, acts, n);
    var p := run[n];
    var r := p.producer.result;
    ReturnedFromOut(lan, p);
    DistinctCounts(lan.hosts);
    DistinctCounts(Addrs(r));
    forall x
      ensures multiset(Addrs(r))[x] <= 1
    {
      assert multiset(Addrs(r))[x] <= multiset(lan.hosts)[x];
    }
    forall c | c in r
      ensures c.addr in lan.hosts && Genuine(lan, c)
    {
      assert c in multiset(r);
      assert c in p.out;
      var i :| 0 <= i < |r| && r[i] == c;
      assert Addrs(r)[i] in multiset(Addrs(r));
      assert c.addr in multiset(lan.hosts);
    }
  }

  // Completeness when the deadline never passes

  lemma AllDone(lan: Lan, p: Pool)
    requires Inv(lan, p) && p.producer.Returned? && !p.expired && !p.producer.late
    ensures multiset(p.done) == multiset(lan.hosts)
  {
    hide Reported, SortedResult, InHand;
    assert p.workers[0].Exited?;
    AllExitedHoldNothing(p.workers);
    assert lan.hosts[..p.sent] == lan.hosts;
  }

  lemma EveryLiveHostReported(lan: Lan, p: Pool, a: Addr4)
    requires Inv(lan, p) && p.producer.Returned? && !p.expired && !p.producer.late
    requires a in lan.hosts && a in lan.live
    ensures a in Addrs(p.producer.result)
  {
    hide Conserved, Control, SortedResult, InHand, Addrs, Genuine;
    AllDone(lan, p);
    ReturnedFromOut(lan, p);
    SameAddrs(p.producer.result, p.out);
    assert a in multiset(lan.hosts);
    assert a in p.done;
    assert a in multiset(Addrs(p.out));
    assert a in multiset(Addrs(p.producer.result));
  }

  lemma SortedIsAscending(r: seq<Candidate>, out: seq<Candidate>)
    requires SortedResult(r, out) && Distinct(Addrs(r))
    ensures Ascending(Ips(r))
  {
    hide Dotted;
    forall i, j | 0 <= i < j < |r|
      ensures Less(Ips(r)[i], Ips(r)[j])
    {
      assert Addrs(r)[i] != Addrs(r)[j];
      DottedInjective(r[i].addr, r[j].addr);
      LessTotal(Ip(r[i]), Ip(r[j]));
    }
  }

  /** A scan that returns before its deadline reports exactly the live hosts, in ascending order of their text. */
  lemma ResultIsComplete(lan: Lan, run: seq<Pool>, acts: seq<Act>, n: nat)
    requires IsRun(lan, run, acts) && n <= |acts| && Distinct(lan.hosts)
    requires run[n].producer.Returned? && !run[n].expired
    ensures !run[n].producer.late
    ensures forall a :: a in Addrs(run[n].producer.result) <==> a in lan.hosts && a in lan.live
    ensures Ascending(Ips(run[n].producer.result))
  {
    hide Step, Conserved, Reported, Ip, SortedResult, InHand;
    RunKeepsInv(lan, run, acts, n);
    var p := run[n];
    var r := p.producer.result;
    LateMeansExpired(lan, run, acts, n);
    ResultIsSound(lan, run, acts, n);
    forall a
      ensures a in Addrs(r) <==> a in lan.hosts && a in lan.live
    {
      if a in Addrs(r) {
        var i :| 0 <= i < |r| && Addrs(r)[i] == a;
        assert r[i] in r;
      } else if a in lan.hosts && a in lan.live {
        EveryLiveHostReported(lan, p, a);
      }
    }
    SortedIsAscending(r, p.out);
  }

  lemma {:induction false} LateMeansExpired(lan: Lan, run: seq<Pool>, acts: seq<Act>, n: nat)
    requires IsRun(lan, run, acts) && n <= |acts|
    ensures !run[n].producer.Sending? && run[n].producer.late ==> run[n].expired
    decreases n
  {
    hide SortedResult, Dotted;
    if n > 0 {
      LateMeansExpired(lan, run, acts, n - 1);
      assert Step(lan, acts[n - 1], run[n - 1], run[n - 1 + 1]);
    }
  }

  /** What the caller sees of a candidate, apart from what the network measured. */
  function Shown(r: seq<Candidate>): (t: seq<(string, bool)>)
    ensures |t| == |r|
  {
    seq(|r|, i requires 0 <= i < |r| => (Ip(r[i]), r[i].alreadyKnown))
  }

  lemma SameIpSet(lan: Lan, r: seq<Candidate>, s: seq<Candidate>, x: string)
    requires forall a :: a in Addrs(r) ==> a in Addrs(s)
    requires x in Ips(r)
    ensures x in Ips(s)
  {
    hide Dotted;
    var i :| 0 <= i < |r| && Ips(r)[i] == x;
    assert Addrs(r)[i] in Addrs(r);
    var j :| 0 <= j < |s| && Addrs(s)[j] == Addrs(r)[i];
    assert Ips(s)[j] == x;
  }

  /** Two scans of the same network that return before their deadlines agree, whatever the scheduling. */
  lemma ScheduleIndependent(lan: Lan, run: seq<Pool>, acts: seq<Act>, n: nat, run': seq<Pool>, acts': seq<Act>, m: nat)
    requires Distinct(lan.hosts)
    requires IsRun(lan, run, acts) && n <= |acts| && run[n].producer.Returned? && !run[n].expired
    requires IsRun(lan, run', acts') && m <= |acts'| && run'[m].producer.Returned? && !run'[m].expired
    ensures Shown(run[n].producer.result) == Shown(run'[m].producer.result)
  {
    hide Step, Dotted, Ascending, Distinct;
    var r, s := run[n].producer.result, run'[m].producer.result;
    ResultIsComplete(lan, run, acts, n);
    ResultIsComplete(lan, run', acts', m);
    ResultIsSound(lan, run, acts, n);
    ResultIsSound(lan, run', acts', m);
    forall x
      ensures x in Ips(r) <==> x in Ips(s)
    {
      if x in Ips(r) { SameIpSet(lan, r, s, x); }
      if x in Ips(s) { SameIpSet(lan, s, r, x); }
    }
    AscendingUnique(Ips(r), Ips(s));
    forall i | 0 <= i < |r|
      ensures Shown(r)[i] == Shown(s)[i]
    {
      assert Ips(r)[i] == Ips(s)[i];
      assert r[i] in r && s[i] in s;
    }
  }

  // Progress

  /** The candidate list in the order `sort.Slice` leaves it. */
  ghost function Sorted(out: seq<Candidate>): (r: seq<Candidate>)
    ensures SortedResult(r, out)
  {
    if out == [] then []
    else
      assert out == [out[0]] + out[1..];
      Inserted(out[0], Sorted(out[1..]))
  }

  ghost predicate InOrder(s: seq<Candidate>) {
    forall i, j :: 0 <= i < j < |s| ==> !Less(Ip(s[j]), Ip(s[i]))
  }

  ghost function Inserted(c: Candidate, s: seq<Candidate>): (r: seq<Candidate>)
    requires InOrder(s)
    ensures InOrder(r) && multiset(r) == multiset([c]) + multiset(s)
  {
    if s == [] then [c]
    else if !Less(Ip(s[0]), Ip(c)) then
      FrontStaysInOrder(c, s);
      [c] + s
    else
      assert s == [s[0]] + s[1..];
      var rest := Inserted(c, s[1..]);
      NextStaysInOrder(c, s, rest);
      SplitCounts(c, s, rest);
      [s[0]] + rest
  }

  lemma SplitCounts(c: Candidate, s: seq<Candidate>, rest: seq<Candidate>)
    requires s != [] && multiset(rest) == multiset([c]) + multiset(s[1..])
    ensures multiset([s[0]] + rest) == multiset([c]) + multiset(s)
  {
    assert s == [s[0]] + s[1..];
  }

  lemma FrontStaysInOrder(c: Candidate, s: seq<Candidate>)
    requires s != [] && InOrder(s) && !Less(Ip(s[0]), Ip(c))
    ensures InOrder([c] + s)
  {
    hide Ip, Less;
    forall j | 0 <= j < |s|
      ensures !Less(Ip(s[j]), Ip(c))
    {
      NotLessTransitive(Ip(c), Ip(s[0]), Ip(s[j]));
    }
  }

  lemma NextStaysInOrder(c: Candidate, s: seq<Candidate>, rest: seq<Candidate>)
    requires s != [] && InOrder(s) && Less(Ip(s[0]), Ip(c))
    requires InOrder(rest) && multiset(rest) == multiset([c]) + multiset(s[1..])
    ensures InOrder([s[0]] + rest)
  {
    hide Ip, Less;
    LessTotal(Ip(c), Ip(s[0]));
    forall j | 0 <= j < |rest|
      ensures !Less(Ip(rest[j]), Ip(s[0]))
    {
      assert rest[j] in multiset(rest);
      assert rest[j] == c || rest[j] in s[1..];
    }
  }

  lemma NotLessTransitive(s: string, t: string, u: string)
    requires !Less(t, s) && (u == t || !Less(u, t))
    ensures !Less(u, s)
  {
    LessTotal(s, t);
    LessTotal(t, u);
    if Less(u, s) && s != t && t != u {
      LessTransitive(u, s, t);
    }
  }

  /** Until the scan returns, some goroutine can move without the deadline's help. */
  lemma NeverStuck(lan: Lan, p: Pool) returns (a: Act, q: Pool)
    requires Inv(lan, p) && !p.producer.Returned?
    ensures !a.Expire? && Step(lan, a, p, q)
  {
    hide InHand, Reported, SortedResult, Dotted;
    if p.producer.Sending? && p.sent == |lan.hosts| {
      a, q := Finish, p.(producer := Waiting(false), closed := true);
    } else if p.producer.Sending? && p.expired {
      a, q := SeeExpiry, p.(producer := Waiting(true), closed := true);
    } else if p.producer.Sending? && |p.jobs| < SCAN_WORKERS {
      a, q := Send, p.(jobs := p.jobs + [lan.hosts[p.sent]], sent := p.sent + 1);
    } else if p.producer.Sending? {
      assert !p.workers[0].Exited?;
      a, q := WorkerMoves(lan, p, 0);
    } else if w: nat :| w < |p.workers| && !p.workers[w].Exited? {
      a, q := WorkerMoves(lan, p, w);
    } else {
      var r := if p.producer.late then p.out else Sorted(p.out);
      a, q := Return(r), p.(producer := Returned(p.producer.late, r));
    }
  }

  lemma WorkerMoves(lan: Lan, p: Pool, w: nat) returns (a: Act, q: Pool)
    requires w < |p.workers| && !p.workers[w].Exited? && (p.closed || p.jobs != [])
    ensures WorkerStep(lan, a, p, q) && !a.Expire?
  {
    hide Dotted;
    match p.workers[w] {
      case Idle =>
        if p.jobs == [] {
          a, q := Leave(w), p.(workers := p.workers[w := Exited]);
        } else {
          a, q := Take(w), p.(jobs := p.jobs[1..], workers := p.workers[w := Checking(p.jobs[0])]);
        }
      case Checking(ip) =>
        a, q := Check(w), if p.expired then p.(workers := p.workers[w := Exited], done := p.done + [ip])
                          else p.(workers := p.workers[w := Probing(ip)]);
      case Probing(ip) =>
        a := Probe(w, ip in lan.live, 0);
        q := if ip in lan.live
             then p.(workers := p.workers[w := Appending(Candidate(ip, 0, Dotted(ip) in lan.known))])
             else p.(workers := p.workers[w := Idle], done := p.done + [ip]);
      case Appending(c) =>
        a, q := Append(w), p.(workers := p.workers[w := Idle], out := p.out + [c], done := p.done + [c.addr]);
    }
  }

  // Termination

  function Weight(w: Worker): nat {
    match w
    case Exited => 0
    case Idle => 1
    case Appending(_) => 2
    case Probing(_) => 3
    case Checking(_) => 4
  }

  function Weights(ws: seq<Worker>): nat {
    if ws == [] then 0 else Weights(ws[..|ws| - 1]) + Weight(ws[|ws| - 1])
  }

  lemma {:induction false} WeightsUpdate(ws: seq<Worker>, w: nat, v: Worker)
    requires w < |ws|
    ensures Weights(ws[w := v]) == Weights(ws) - Weight(ws[w]) + Weight(v)
  {
    var n := |ws| - 1;
    var us := ws[w := v];
    if w == n {
      assert us[..n] == ws[..n];
    } else {
      assert us[..n] == ws[..n][w := v];
      WeightsUpdate(ws[..n], w, v);
    }
  }

  lemma {:induction false} IdleWeights(n: nat)
    ensures Weights(seq(n, _ => Idle)) == n
  {
    if n > 0 {
      IdleWeights(n - 1);
      assert seq(n, _ => Idle)[..n - 1] == seq(n - 1, _ => Idle);
    }
  }

  /** Moves left in the scan. */
  function Fuel(lan: Lan, p: Pool): int {
    6 * (|lan.hosts| - p.sent) + 5 * |p.jobs| + Weights(p.workers)
    + (match p.producer case Sending => 2 case Waiting(_) => 1 case Returned(_, _) => 0)
  }

  lemma StepBurns(lan: Lan, a: Act, p: Pool, q: Pool)
    requires Step(lan, a, p, q)
    ensures a.Expire? ==> Fuel(lan, q) == Fuel(lan, p)
    ensures !a.Expire? ==> Fuel(lan, q) < Fuel(lan, p)
  {
    hide Weights, SortedResult, Dotted;
    match a {
      case Take(w) => WeightsUpdate(p.workers, w, q.workers[w]);
      case Leave(w) => WeightsUpdate(p.workers, w, q.workers[w]);
      case Check(w) => WeightsUpdate(p.workers, w, q.workers[w]);
      case Probe(w, _, _) => WeightsUpdate(p.workers, w, q.workers[w]);
      case Append(w) => WeightsUpdate(p.workers, w, q.workers[w]);
      case _ =>
    }
  }

  function Moves(acts: seq<Act>): nat {
    if acts == [] then 0
    else Moves(acts[..|acts| - 1]) + (if acts[|acts| - 1].Expire? then 0 else 1)
  }

  /** No schedule makes more than six moves for each address and one for each worker, besides two at the end. */
  lemma AlwaysTerminates(lan: Lan, run: seq<Pool>, acts: seq<Act>)
    requires IsRun(lan, run, acts)
    ensures Moves(acts) <= 6 * |lan.hosts| + SCAN_WORKERS + 2
  {
    hide IsRun, Weights, Moves;
    RunBurns(lan, run, acts, |acts|);
    assert acts[..|acts|] == acts;
    RunKeepsInv(lan, run, acts, |acts|);
  }

  lemma {:induction false} RunBurns(lan: Lan, run: seq<Pool>, acts: seq<Act>, n: nat)
    requires IsRun(lan, run, acts) && n <= |acts|
    ensures Moves(acts[..n]) + Fuel(lan, run[n]) <= 6 * |lan.hosts| + SCAN_WORKERS + 2
    decreases n
  {
    hide Step, Fuel;
    if n == 0 {
      hide *;
      assert Fuel(lan, Start()) == 6 * |lan.hosts| + SCAN_WORKERS + 2 by {
        StartFuel(lan);
      }
      FirstState(lan, run, acts);
    } else {
      var k := n - 1;
      RunBurns(lan, run, acts, k);
      StepBurns(lan, acts[k], run[k], run[n]);
      assert acts[..n][..k] == acts[..k];
    }
  }

  lemma StartFuel(lan: Lan)
    ensures Fuel(lan, Start()) == 6 * |lan.hosts| + SCAN_WORKERS + 2
  {
    hide Weights;
    IdleWeights(SCAN_WORKERS);
  }

  lemma FirstState(lan: Lan, run: seq<Pool>, acts: seq<Act>)
    requires IsRun(lan, run, acts)
    ensures run[0] == Start() && Moves(acts[..0]) == 0
  {
    hide Step;
  }

  // What a scan misses

  /** The addresses a worker gives up in this step: after the deadline, or because nothing answered. */
  function GaveUp(a: Act, p: Pool): multiset<Addr4> {
    match a
    case Check(w) =>
      if w < |p.workers| && p.workers[w].Checking? && p.expired then multiset{p.workers[w].ip} else multiset{}
    case Probe(w, ok, _) =>
      if w < |p.workers| && p.workers[w].Probing? && !ok then multiset{p.workers[w].ip} else multiset{}
    case _ => multiset{}
  }

  ghost function GivenUp(run: seq<Pool>, acts: seq<Act>, n: nat): multiset<Addr4>
    requires |run| > |acts| && n <= |acts|
  {
    if n == 0 then multiset{} else GivenUp(run, acts, n - 1) + GaveUp(acts[n - 1], run[n - 1])
  }

  /** The address that leaves a worker in this step without having been given up. */
  function Appended(a: Act, p: Pool): seq<Candidate> {
    if a.Append? && a.w < |p.workers| && p.workers[a.w].Appending? then [p.workers[a.w].found] else []
  }

  lemma AppendSplits(lan: Lan, p: Pool, q: Pool, w: nat)
    requires WorkerStep(lan, Append(w), p, q)
    ensures q.out == p.out + Appended(Append(w), p)
    ensures multiset(q.done) == multiset(p.done) + multiset(Addrs(Appended(Append(w), p)))
  {
    var c := p.workers[w].found;
    assert Addrs([c]) == [c.addr];
  }

  lemma WorkerSplits(lan: Lan, a: Act, p: Pool, q: Pool)
    requires WorkerStep(lan, a, p, q) && !a.Append?
    ensures q.out == p.out && Appended(a, p) == []
    ensures multiset(q.done) == multiset(p.done) + GaveUp(a, p)
  {
    hide Dotted;
    assert p.done + [] == p.done;
  }

  lemma StepSplits(lan: Lan, a: Act, p: Pool, q: Pool)
    requires Step(lan, a, p, q)
    ensures q.out == p.out + Appended(a, p)
    ensures multiset(q.done) == multiset(p.done) + multiset(Addrs(Appended(a, p))) + GaveUp(a, p)
  {
    hide WorkerStep, SortedResult;
    assert p.out + [] == p.out && Addrs([]) == [];
    if WorkerStep(lan, a, p, q) {
      if a.Append? {
        AppendSplits(lan, p, q, a.w);
      } else {
        WorkerSplits(lan, a, p, q);
      }
    }
  }

  lemma {:induction false} DoneSplits(lan: Lan, run: seq<Pool>, acts: seq<Act>, n: nat)
    requires IsRun(lan, run, acts) && n <= |acts|
    ensures multiset(run[n].done) == multiset(Addrs(run[n].out)) + GivenUp(run, acts, n)
    decreases n
  {
    hide Step, GaveUp, Appended, Addrs;
    if n == 0 {
      NothingOut();
    } else {
      var p, q, a := run[n - 1], run[n], acts[n - 1];
      DoneSplits(lan, run, acts, n - 1);
      assert Step(lan, a, p, run[n - 1 + 1]);
      StepSplits(lan, a, p, q);
      AddrsOfBoth(p.out, Appended(a, p));
    }
  }

  lemma NothingOut()
    ensures multiset(Start().done) == multiset{} && multiset(Addrs(Start().out)) == multiset{}
  {
  }

  /**
    What a scan of distinct addresses leaves out, under any schedule and any deadline: exactly what was never
    sent, what stayed in the channel, and what a worker gave up.
   */
  lemma MissingExactly(lan: Lan, run: seq<Pool>, acts: seq<Act>, n: nat, a: Addr4)
    requires IsRun(lan, run, acts) && n <= |acts| && Distinct(lan.hosts) && a in lan.hosts
    requires run[n].producer.Returned?
    ensures var p := run[n];
            && p.sent <= |lan.hosts|
            && (a !in Addrs(p.producer.result) <==>
                  a in lan.hosts[p.sent..] || a in p.jobs || a in GivenUp(run, acts, n))
  {
    hide Step, Reported, Addrs, InHand, SortedResult;
    RunKeepsInv(lan, run, acts, n);
    var p := run[n];
    DoneSplits(lan, run, acts, n);
    ReturnedFromOut(lan, p);
    SameAddrs(p.producer.result, p.out);
    AllExitedHoldNothing(p.workers);
    DistinctCounts(lan.hosts);
    var sent: seq<Addr4>, rest: seq<Addr4> := lan.hosts[..p.sent], lan.hosts[p.sent..];
    assert lan.hosts == sent + rest;
    assert a in multiset(lan.hosts);
    assert multiset(lan.hosts)[a] == 1;
    assert (multiset(p.jobs) + InHand(p.workers) + multiset(p.done))[a] == multiset(sent)[a];
    hide Conserved, Control;
    var found := multiset(Addrs(p.producer.result));
    assert found[a] + multiset(p.jobs)[a] + GivenUp(run, acts, n)[a] + multiset(rest)[a] == 1;
    assert a in Addrs(p.producer.result) <==> a in multiset(Addrs(p.producer.result));
  }

  lemma LiveNotGivenUp(lan: Lan, a: Act, p: Pool, q: Pool, h: Addr4)
    requires WorkerStep(lan, a, p, q) && h in lan.live && h in GaveUp(a, p)
    ensures p.expired
  {
    hide Dotted;
  }

  lemma ExpiredStays(lan: Lan, a: Act, p: Pool, q: Pool)
    requires Step(lan, a, p, q)
    ensures p.expired ==> q.expired
    ensures WorkerStep(lan, a, p, q) || GaveUp(a, p) == multiset{}
  {
    hide Dotted, SortedResult;
  }

  /** A live address is given up only after the deadline. */
  lemma {:induction false} LiveGivenUpLate(lan: Lan, run: seq<Pool>, acts: seq<Act>, n: nat, a: Addr4)
    requires IsRun(lan, run, acts) && n <= |acts| && a in lan.live && a in GivenUp(run, acts, n)
    ensures run[n].expired
    decreases n
  {
    hide Step, WorkerStep, GaveUp;
    if n > 0 {
      var p, q := run[n - 1], run[n];
      assert Step(lan, acts[n - 1], p, run[n - 1 + 1]);
      ExpiredStays(lan, acts[n - 1], p, q);
      if a in GivenUp(run, acts, n - 1) {
        LiveGivenUpLate(lan, run, acts, n - 1, a);
      } else {
        LiveNotGivenUp(lan, acts[n - 1], p, q, a);
      }
    }
  }

  /**
    A scan that returns without an error misses a live host exactly if the host was left in the channel or given
    up by a worker, and then the deadline has passed.
   */
  lemma MissesLiveExactly(lan: Lan, run: seq<Pool>, acts: seq<Act>, n: nat, a: Addr4)
    requires IsRun(lan, run, acts) && n <= |acts| && Distinct(lan.hosts) && a in lan.hosts && a in lan.live
    requires run[n].producer.Returned? && !run[n].producer.late
    ensures a !in Addrs(run[n].producer.result) <==> a in run[n].jobs || a in GivenUp(run, acts, n)
    ensures a !in Addrs(run[n].producer.result) ==> run[n].expired
  {
    hide Step, Conserved, Reported, Addrs, SortedResult, GivenUp;
    RunKeepsInv(lan, run, acts, n);
    MissingExactly(lan, run, acts, n, a);
    assert lan.hosts[run[n].sent..] == [];
    if a !in Addrs(run[n].producer.result) && !run[n].expired {
      ResultIsComplete(lan, run, acts, n);
    }
  }

  // A deadline that passes after the last address was queued

  ghost predicate Reachable(lan: Lan, p: Pool) {
    exists run: seq<Pool>, acts: seq<Act> :: IsRun(lan, run, acts) && run[|acts|] == p
  }

  lemma ReachStep(lan: Lan, p: Pool, a: Act, q: Pool)
    requires Reachable(lan, p) && Step(lan, a, p, q)
    ensures Reachable(lan, q)
  {
    hide Step;
    var run, acts :| IsRun(lan, run, acts) && run[|acts|] == p;
    var run', acts' := run + [q], acts + [a];
    forall i | 0 <= i < |acts'|
      ensures Step(lan, acts'[i], run'[i], run'[i + 1])
    {
      assert i < |acts| ==> Step(lan, acts[i], run[i], run[i + 1]);
    }
    assert IsRun(lan, run', acts');
  }

  lemma StartIsReachable(lan: Lan)
    ensures Reachable(lan, Start())
  {
    var run, acts: seq<Act> := [Start()], [];
    assert IsRun(lan, run, acts) && run[|acts|] == Start();
  }

  /** All workers wait, but worker 1, which may be about to probe `slow`. */
  function Crew(slow: Addr4, held: bool): seq<Worker> {
    seq(SCAN_WORKERS, w => if held && w == 1 then Checking(slow) else Idle)
  }

  /** The first `k` addresses are sent; all of them are done but `slow`, if it is among them. */
  function Underway(lan: Lan, slow: Addr4, k: nat, out: seq<Candidate>, done: seq<Addr4>): Pool
    requires k <= |lan.hosts|
  {
    Pool(Sending, k, [], false, false, Crew(slow, slow in lan.hosts[..k]), out, done)
  }

  /** One more address is sent, taken and probed by worker 0. */
  lemma ProbeNext(lan: Lan, slow: Addr4, k: nat, out: seq<Candidate>, done: seq<Addr4>)
    returns (out': seq<Candidate>, done': seq<Addr4>)
    requires k < |lan.hosts| && lan.hosts[k] != slow && Reachable(lan, Underway(lan, slow, k, out, done))
    ensures Reachable(lan, Underway(lan, slow, k + 1, out', done'))
    ensures out' == out || (exists c: Candidate :: c.addr == lan.hosts[k] && out' == out + [c])
  {
    hide Reachable, Dotted;
    var h := lan.hosts[k];
    var p := Underway(lan, slow, k, out, done);
    assert lan.hosts[..k + 1] == lan.hosts[..k] + [h];
    var q := p.(jobs := [h], sent := k + 1);
    ReachStep(lan, p, Send, q);
    var r := q.(jobs := [], workers := q.workers[0 := Checking(h)]);
    ReachStep(lan, q, Take(0), r);
    var s := r.(workers := r.workers[0 := Probing(h)]);
    ReachStep(lan, r, Check(0), s);
    if h in lan.live {
      var c := Candidate(h, 0, Dotted(h) in lan.known);
      var t := s.(workers := s.workers[0 := Appending(c)]);
      ReachStep(lan, s, Probe(0, true, 0), t);
      out', done' := out + [c], done + [h];
      var u := t.(workers := t.workers[0 := Idle], out := out', done := done');
      ReachStep(lan, t, Append(0), u);
      assert u.workers == p.workers;
    } else {
      out', done' := out, done + [h];
      var u := s.(workers := s.workers[0 := Idle], done := done');
      ReachStep(lan, s, Probe(0, false, 0), u);
      assert u.workers == p.workers;
    }
  }

  /** The slow address is sent, and worker 1 takes it. */
  lemma TakeSlow(lan: Lan, slow: Addr4, k: nat, out: seq<Candidate>, done: seq<Addr4>)
    requires k < |lan.hosts| && lan.hosts[k] == slow && slow !in lan.hosts[..k]
    requires Reachable(lan, Underway(lan, slow, k, out, done))
    ensures Reachable(lan, Underway(lan, slow, k + 1, out, done))
  {
    hide Reachable;
    var p := Underway(lan, slow, k, out, done);
    assert lan.hosts[..k + 1] == lan.hosts[..k] + [slow];
    var q := p.(jobs := [slow], sent := k + 1);
    ReachStep(lan, p, Send, q);
    var r := q.(jobs := [], workers := q.workers[1 := Checking(slow)]);
    ReachStep(lan, q, Take(1), r);
    assert r.workers == Crew(slow, true);
  }

  lemma {:induction false} AllSent(lan: Lan, slow: Addr4, k: nat) returns (out: seq<Candidate>, done: seq<Addr4>)
    requires Distinct(lan.hosts) && k <= |lan.hosts|
    ensures Reachable(lan, Underway(lan, slow, k, out, done)) && slow !in Addrs(out)
  {
    hide Reachable, Underway;
    if k == 0 {
      out, done := [], [];
      StartIsReachable(lan);
      assert Underway(lan, slow, 0, [], []) == Start() by {
        StartIsUnderway(lan, slow);
      }
    } else {
      out, done := AllSent(lan, slow, k - 1);
      if lan.hosts[k - 1] == slow {
        TakeSlow(lan, slow, k - 1, out, done);
      } else {
        var before := out;
        out, done := ProbeNext(lan, slow, k - 1, out, done);
        if out != before {
          var c: Candidate :| c.addr == lan.hosts[k - 1] && out == before + [c];
          assert Addrs(out) == Addrs(before) + [c.addr];
        }
      }
    }
  }

  lemma StartIsUnderway(lan: Lan, slow: Addr4)
    ensures Underway(lan, slow, 0, [], []) == Start()
  {
    assert Crew(slow, false) == Start().workers;
  }

  /** The deadline has passed, worker 1 has given up, and so have the workers below `k`. */
  function Leaving(lan: Lan, k: nat, out: seq<Candidate>, done: seq<Addr4>): Pool {
    Pool(Waiting(false), |lan.hosts|, [], true, true,
         seq(SCAN_WORKERS, w => if w == 1 || w < k then Exited else Idle), out, done)
  }

  lemma SlowGivesUp(lan: Lan, slow: Addr4, out: seq<Candidate>, done: seq<Addr4>)
    requires slow in lan.hosts && Reachable(lan, Underway(lan, slow, |lan.hosts|, out, done))
    ensures Reachable(lan, Leaving(lan, 0, out, done + [slow]))
  {
    hide Reachable;
    var p := Underway(lan, slow, |lan.hosts|, out, done);
    assert lan.hosts[..|lan.hosts|] == lan.hosts;
    var q := p.(producer := Waiting(false), closed := true);
    ReachStep(lan, p, Finish, q);
    var r := q.(expired := true);
    ReachStep(lan, q, Expire, r);
    var s := r.(workers := r.workers[1 := Exited], done := r.done + [slow]);
    ReachStep(lan, r, Check(1), s);
    assert s.workers == Leaving(lan, 0, out, done).workers;
  }

  lemma {:induction false} OthersLeave(lan: Lan, k: nat, out: seq<Candidate>, done: seq<Addr4>)
    requires k <= SCAN_WORKERS && Reachable(lan, Leaving(lan, 0, out, done))
    ensures Reachable(lan, Leaving(lan, k, out, done))
  {
    hide Reachable;
    if k > 0 {
      OthersLeave(lan, k - 1, out, done);
      var p, q := Leaving(lan, k - 1, out, done), Leaving(lan, k, out, done);
      if k - 1 == 1 {
        assert p.workers == q.workers;
      } else {
        assert q.workers == p.workers[k - 1 := Exited];
        ReachStep(lan, p, Leave(k - 1), q);
      }
    }
  }

  /**
    Before the deadline is a needed condition, on every network: any live host can be missing from a scan that
    returns without the error, because the deadline passed after the last address was queued.
   */
  lemma LateDeadlineGoesUnreported(lan: Lan, a: Addr4) returns (p: Pool)
    requires Distinct(lan.hosts) && a in lan.hosts && a in lan.live
    ensures Reachable(lan, p) && p.producer.Returned? && !p.producer.late && a !in Addrs(p.producer.result)
  {
    hide Reachable, Addrs, Underway;
    var out, done := AllSent(lan, a, |lan.hosts|);
    SlowGivesUp(lan, a, out, done);
    OthersLeave(lan, SCAN_WORKERS, out, done + [a]);
    var q := Leaving(lan, SCAN_WORKERS, out, done + [a]);
    var r := Sorted(out);
    p := q.(producer := Returned(false, r));
    SameAddrs(r, out);
    assert a in Addrs(r) ==> a in multiset(Addrs(r));
    ReachStep(lan, q, Return(r), p);
  }

  // Together with the expansion of the prefix

  /**
    A scan of an accepted network: at most 510 candidates, all in private blocks; before the deadline, exactly
    the usable addresses of the network that are live.
   */
  lemma ScanOfAccepted(parsed: Option<Parsed>, lan: Lan, run: seq<Pool>, acts: seq<Act>, n: nat, a: Addr4)
    requires parsed.Some? ==> WellFormed(parsed.value)
    requires ValidateScanCIDR(parsed).Ok? && lan.hosts == HostsOf(ValidateScanCIDR(parsed).prefix)
    requires IsRun(lan, run, acts) && n <= |acts| && run[n].producer.Returned?
    ensures |run[n].producer.result| <= 510
    ensures a in Addrs(run[n].producer.result) ==> InPrivateBlock(a)
    ensures var p := ValidateScanCIDR(parsed).prefix;
            !run[n].expired ==>
              (a in Addrs(run[n].producer.result) <==>
                 a in lan.live && Contains(p, a) && (p.bits <= 30 ==> a != p.base && a != p.base + Size(p.bits) - 1))
  {
    hide Step, HostsOf, ValidateScanCIDR, Inv, InHand, Ascending, InPrivateBlock, Contains, Size, Ip;
    AcceptedHosts(parsed, a);
    RunKeepsInv(lan, run, acts, n);
    var r := run[n].producer.result;
    ReturnedFromOut(lan, run[n]);
    assert multiset(lan.hosts) == multiset(Addrs(r)) + (multiset(lan.hosts) - multiset(Addrs(r)));
    assert |multiset(lan.hosts)| == |lan.hosts| && |multiset(Addrs(r))| == |Addrs(r)|;
    ResultIsSound(lan, run, acts, n);
    if a in Addrs(r) {
      var i :| 0 <= i < |r| && Addrs(r)[i] == a;
      assert r[i] in r;
    }
    if !run[n].expired {
      ResultIsComplete(lan, run, acts, n);
    }
  }
}
