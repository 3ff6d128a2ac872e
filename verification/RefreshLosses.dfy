/** How a session, a fresh one included, can be lost to calls and refreshes that began before. */
module RefreshLosses {
  import opened Basics
  import opened Refresh
  import opened RefreshRuns

  /**
    A session ends exactly by signing out, a refused refresh, or a call that gives up or has nothing to refresh with;
    and it changes otherwise only by a login or a refresh that was read.
   */
  lemma SessionEndsOnlyBy(a: Act, p: Page, q: Page)
    requires Step(a, p, q) && p.session.Some?
    ensures q.session.None? <==> a.Logout? || a.GiveUp? || (a.Answered? && a.answer.Refused?)
                                 || (a.Ensure? && !a.unexpired && p.session.value.refresh.None?)
    ensures q.session.Some? && q.session != p.session ==> a.Login? || (a.Parsed? && a.ok)
  {
  }

  /** An act of what is already under way: no login, no signing out, no new call. */
  predicate UnderWay(a: Act) {
    !a.Login? && !a.Logout? && !a.Arrive?
  }

  /** What is under way can end the session. */
  ghost predicate CanLose(p: Page) {
    exists run, acts :: Loses(p, run, acts)
  }

  ghost predicate Loses(p: Page, run: seq<Page>, acts: seq<Act>) {
    IsPath(p, run, acts) && (forall k :: 0 <= k < |acts| ==> UnderWay(acts[k])) && run[|acts|].session.None?
  }

  lemma Lost(p: Page)
    requires p.session.None?
    ensures CanLose(p)
  {
    var acts: seq<Act> := [];
    assert Loses(p, [p], acts);
  }

  lemma CanLoseAfter(p: Page, a: Act, q: Page)
    requires Step(a, p, q) && UnderWay(a) && CanLose(q)
    ensures CanLose(p)
  {
    hide Step;
    var run, acts :| Loses(q, run, acts);
    var run', acts' := [p] + run, [a] + acts;
    forall i | 0 <= i < |acts'|
      ensures Step(acts'[i], run'[i], run'[i + 1]) && UnderWay(acts'[i])
    {
      assert i > 0 ==> Step(acts[i - 1], run[i - 1], run[i - 1 + 1]);
    }
    assert Loses(p, run', acts');
  }

  // Who is harmless

  /** The refresh `f` is over, or as good as over, with an error that does not end sessions. */
  predicate EndsBroken(p: Page, f: nat) {
    (f in p.landed && p.landed[f].Broken?) || (f in p.flights && p.flights[f] == Settled(Broken))
  }

  /** The call has ended, or is about to without touching the session. */
  predicate Harmless(p: Page, caller: Caller) {
    caller.Finished? || (caller.AwaitEnsure? && EndsBroken(p, caller.flight))
  }

  /** No refresh can still be refused, and no call is left that could end the session. */
  ghost predicate Calm(p: Page) {
    && (forall f :: f in p.flights ==> p.flights[f].Settled? || p.flights[f].Reading?)
    && (forall c :: c in p.callers ==> Harmless(p, p.callers[c]))
  }

  lemma StepKeepsCalm(a: Act, p: Page, q: Page)
    requires FlightsInv(p) && Calm(p) && p.session.Some? && Step(a, p, q) && UnderWay(a)
    ensures Calm(q) && q.session.Some?
  {
    hide Tries, Posts, Waits;
    if a.Land? || a.Parsed? {
      FlightKeepsCalm(a, p, q);
    } else {
      assert a.Resume?;
    }
  }

  lemma FlightKeepsCalm(a: Act, p: Page, q: Page)
    requires Single(p) && Calm(p) && p.session.Some? && Step(a, p, q) && (a.Land? || a.Parsed?)
    ensures Calm(q) && q.session.Some?
  {
    assert forall g :: EndsBroken(p, g) ==> EndsBroken(q, g);
  }

  lemma {:induction false} CalmStays(p: Page, run: seq<Page>, acts: seq<Act>, n: nat)
    requires FlightsInv(p) && Calm(p) && p.session.Some? && IsPath(p, run, acts) && n <= |acts|
    requires forall k :: 0 <= k < |acts| ==> UnderWay(acts[k])
    ensures FlightsInv(run[n]) && Calm(run[n]) && run[n].session.Some?
    decreases n
  {
    hide Step, FlightsInv, Calm;
    if n > 0 {
      CalmStays(p, run, acts, n - 1);
      assert Step(acts[n - 1], run[n - 1], run[n - 1 + 1]);
      StepKeepsFlights(acts[n - 1], run[n - 1], run[n]);
      StepKeepsCalm(acts[n - 1], run[n - 1], run[n]);
    }
  }

  // Who is not

  /** A refresh under way can be refused. */
  lemma FlightLoses(p: Page, f: nat)
    requires f in p.flights && !p.flights[f].Settled? && !p.flights[f].Reading?
    ensures CanLose(p)
    decreases p.flights[f].Discovering?
  {
    hide CanLose;
    var d := p.flights[f];
    if d.Discovering? {
      var q := Become(p, f, Posting(d.base, d.token)).(posted := p.posted + [(f, d.token)]);
      FlightLoses(q, f);
      assert FlightStep(Discovered(f, true), p, q);
      CanLoseAfter(p, Discovered(f, true), q);
    } else {
      var q := Become(p, f, Settled(Expired)).(session := None, closed := p.closed + {d.token});
      Lost(q);
      assert FlightStep(Answered(f, Refused), p, q);
      CanLoseAfter(p, Answered(f, Refused), q);
    }
  }

  /** How far a call is from giving up. */
  function Distance(p: Page, caller: Caller): nat {
    match caller
    case Finished => 0
    case Expiring => 1
    case Calling(_, retried) => if retried then 2 else 7
    case Ensuring(retried) => if retried then 3 else 8
    case AwaitRetry(f) => 4 + ToLand(p, f)
    case AwaitEnsure(f, _) => 9 + ToLand(p, f)
  }

  function ToLand(p: Page, f: nat): nat {
    if f in p.landed then 0 else if f in p.flights && p.flights[f].Settled? then 1 else 2
  }

  /** Its request is refused again and again, its refreshes fail: the call gives up, and clears the session. */
  lemma CallerLoses(p: Page, c: nat)
    requires FlightsInv(p) && c in p.callers && !Harmless(p, p.callers[c])
    ensures CanLose(p)
    decreases Distance(p, p.callers[c])
  {
    hide CanLose, FlightsInv;
    if p.session.None? {
      Lost(p);
    } else {
      match p.callers[c] {
        case Expiring =>
          var q := Put(p, c, Finished).(session := None);
          Lost(q);
          assert CallerStep(GiveUp(c), p, q);
          CanLoseAfter(p, GiveUp(c), q);
        case Ensuring(retried) =>
          var q := Send(p, c, p.session.value.access, retried);
          assert CallerStep(Ensure(c, true), p, q);
          CallerGoesOn(p, Ensure(c, true), q, c);
        case Calling(_, true) =>
          var q := Put(p, c, Expiring);
          assert CallerStep(Respond(c, true), p, q);
          CallerGoesOn(p, Respond(c, true), q, c);
        case Calling(_, false) =>
          var q := Put(Joined(p), c, AwaitRetry(Awaited(p)));
          assert CallerStep(Respond(c, true), p, q);
          CallerGoesOn(p, Respond(c, true), q, c);
        case AwaitRetry(f) =>
          WaiterLoses(p, c, f);
        case AwaitEnsure(f, _) =>
          WaiterLoses(p, c, f);
      }
    }
  }

  lemma CallerGoesOn(p: Page, a: Act, q: Page, c: nat)
    requires FlightsInv(p) && Step(a, p, q) && UnderWay(a) && c in p.callers && c in q.callers
    requires !Harmless(q, q.callers[c]) && Distance(q, q.callers[c]) < Distance(p, p.callers[c])
    ensures CanLose(p)
    decreases Distance(p, p.callers[c]), 0
  {
    hide CanLose, FlightsInv, Step;
    StepKeepsFlights(a, p, q);
    CallerLoses(q, c);
    CanLoseAfter(p, a, q);
  }

  /** A call that waits for a refresh: until it is over, and then. */
  lemma WaiterLoses(p: Page, c: nat, f: nat)
    requires FlightsInv(p) && c in p.callers && !Harmless(p, p.callers[c]) && WaitsOn(p, c, f)
    ensures CanLose(p)
    decreases Distance(p, p.callers[c]), 1
  {
    hide CanLose, FlightsInv;
    WaitedFor(p, c, f);
    if f in p.landed {
      var q := match p.callers[c]
        case AwaitRetry(_) => Put(p, c, if p.landed[f].Renewed? then Ensuring(true) else Expiring)
        case AwaitEnsure(_, retried) =>
          if p.landed[f].Renewed? then Send(p, c, p.landed[f].tokens.access, retried) else Put(p, c, Expiring)
        case _ => p;
      assert CallerStep(Resume(c), p, q);
      CallerGoesOn(p, Resume(c), q, c);
    } else {
      var d := p.flights[f];
      if d.Settled? {
        var q := p.(current := None, flights := p.flights - {f}, landed := p.landed[f := d.outcome]);
        assert FlightStep(Land(f), p, q);
        CallerGoesOn(p, Land(f), q, c);
      } else if d.Reading? {
        var kept := Kept(d.base, d.answer);
        var q := Become(p, f, Settled(Renewed(kept))).(session := Some(kept), closed := p.closed + {d.token});
        assert FlightStep(Parsed(f, true), p, q);
        CallerGoesOn(p, Parsed(f, true), q, c);
      } else {
        FlightLoses(p, f);
      }
    }
  }

  lemma WaitedFor(p: Page, c: nat, f: nat)
    requires FlightsInv(p) && WaitsOn(p, c, f)
    ensures f in p.landed || f in p.flights
    ensures !(f in p.landed && f in p.flights)
  {
    hide Tries, Posts;
  }

  /**
    What is under way at any moment can end the session, without anybody signing out and without new calls, if and
    only if a refresh can still be refused, or a call is left that has not ended and is not about to fail harmlessly.
   */
  lemma LosesExactly(p: Page)
    requires FlightsInv(p) && p.session.Some?
    ensures CanLose(p) <==> !Calm(p)
  {
    hide FlightsInv;
    if Calm(p) {
      if CanLose(p) {
        var run, acts :| Loses(p, run, acts);
        CalmStays(p, run, acts, |acts|);
      }
    } else if f: nat :| f in p.flights && !p.flights[f].Settled? && !p.flights[f].Reading? {
      FlightLoses(p, f);
    } else {
      var c: nat :| c in p.callers && !Harmless(p, p.callers[c]);
      CallerLoses(p, c);
    }
  }

  /** So with a login, in any run: what began before it can clear the new session exactly if the page was not calm. */
  lemma LoginLostExactly(run: seq<Page>, acts: seq<Act>, n: nat)
    requires IsRun(run, acts) && n < |acts| && acts[n].Login?
    ensures run[n + 1].session == Some(acts[n].tokens)
    ensures CanLose(run[n + 1]) <==> !Calm(run[n])
  {
    hide FlightsInv, CanLose;
    RunKeepsFlights(run, acts, n + 1);
    assert Step(acts[n], run[n], run[n + 1]);
    assert Calm(run[n]) <==> Calm(run[n + 1]) by {
      LoginIsNoThreat(acts[n], run[n], run[n + 1]);
    }
    LosesExactly(run[n + 1]);
  }

  lemma LoginIsNoThreat(a: Act, p: Page, q: Page)
    requires Step(a, p, q) && a.Login?
    ensures q.session == Some(a.tokens) && (Calm(p) <==> Calm(q))
  {
    assert q.flights == p.flights && q.callers == p.callers && q.landed == p.landed;
    assert forall c :: c in p.callers ==> Harmless(p, p.callers[c]) == Harmless(q, q.callers[c]);
  }
}
