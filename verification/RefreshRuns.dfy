/** Whole-page guarantees of the silent refresh. */
module RefreshRuns {
  import opened Basics
  import opened Refresh

  // One request at a time

  /** At most one refresh is under way; each refresh posts at most once; each API call sends at most two requests. */
  lemma OneRefreshAtATime(run: seq<Page>, acts: seq<Act>, n: nat, f: nat, g: nat, c: nat)
    requires IsRun(run, acts) && n <= |acts|
    ensures f in run[n].flights && g in run[n].flights ==> f == g && run[n].current == Some(f)
    ensures forall i, j :: 0 <= i < j < |run[n].posted| ==> run[n].posted[i].0 != run[n].posted[j].0
    ensures run[n].requests[c] <= 2
  {
    hide Step;
    RunKeepsFlights(run, acts, n);
    TriesAt(run[n], c);
  }

  lemma StepKeepsLanded(a: Act, p: Page, q: Page, f: nat)
    requires Single(p) && Step(a, p, q) && f in p.landed
    ensures f in q.landed && q.landed[f] == p.landed[f]
  {
  }

  lemma {:induction false} LandedForGood(run: seq<Page>, acts: seq<Act>, i: nat, j: nat, f: nat)
    requires IsRun(run, acts) && i <= j <= |acts| && f in run[i].landed
    ensures f in run[j].landed && run[j].landed[f] == run[i].landed[f]
    decreases j
  {
    hide Step;
    if i < j {
      LandedForGood(run, acts, i, j - 1, f);
      RunKeepsFlights(run, acts, j - 1);
      assert Step(acts[j - 1], run[j - 1], run[j - 1 + 1]);
      StepKeepsLanded(acts[j - 1], run[j - 1], run[j], f);
    }
  }

  predicate WaitsOn(p: Page, c: nat, f: nat) {
    c in p.callers && (p.callers[c] == AwaitRetry(f) || (p.callers[c].AwaitEnsure? && p.callers[c].flight == f))
  }

  /**
    A caller that asks for a refresh while one is under way starts none and waits for that one; and all who wait
    for the same refresh are told the same, whenever they resume.
   */
  lemma JoinersShare(run: seq<Page>, acts: seq<Act>, n: nat, c: nat, f: nat, g: nat, i: nat, j: nat)
    requires IsRun(run, acts) && n < |acts| && i <= |acts| && j <= |acts|
    requires f in run[n].flights && (acts[n].Ensure? || acts[n].Respond?) && acts[n].c == c
    ensures WaitsOn(run[n + 1], c, g) ==> g == f
    ensures run[n + 1].flights == run[n].flights && run[n + 1].posted == run[n].posted
    ensures f in run[i].landed && f in run[j].landed ==> run[i].landed[f] == run[j].landed[f]
  {
    RunKeepsFlights(run, acts, n);
    assert Step(acts[n], run[n], run[n + 1]);
    hide Step;
    if f in run[i].landed && f in run[j].landed {
      if i <= j { LandedForGood(run, acts, i, j, f); } else { LandedForGood(run, acts, j, i, f); }
    }
  }

  // Rotated tokens

  /** The provider hands out a new refresh token at every login and at every accepted refresh. */
  predicate Rotates(a: Act, p: Page) {
    match a
    case Login(t) => t.refresh.Some? ==> t.refresh.value !in p.issued
    case Answered(_, Accepted(t)) => t.refresh.Some? && t.refresh.value !in p.issued
    case _ => true
  }

  predicate Usable(p: Page, t: Token) {
    t in p.issued && t !in p.closed
  }

  predicate FlightToken(p: Page, f: Flight) {
    match f
    case Discovering(base, t) => base.refresh == Some(t) && Usable(p, t)
    case Posting(base, t) => base.refresh == Some(t) && Usable(p, t)
    case Reading(base, t, answer) =>
      && base.refresh == Some(t) && Usable(p, t)
      && answer.refresh.Some? && answer.refresh.value != t && Usable(p, answer.refresh.value)
    case Settled(_) => true
  }

  predicate SessionToken(p: Page) {
    p.session.Some? && p.session.value.refresh.Some? ==> Usable(p, p.session.value.refresh.value)
  }

  /** No closed token is in the session or on its way. */
  ghost predicate TokensInv(p: Page) {
    && p.closed <= p.issued
    && SessionToken(p)
    && (forall f :: f in p.flights ==> FlightToken(p, p.flights[f]))
  }

  lemma CallersKeepTokens(a: Act, p: Page, q: Page)
    requires TokensInv(p) && CallerStep(a, p, q)
    ensures TokensInv(q)
  {
  }

  lemma SessionKeepsTokens(a: Act, p: Page, q: Page)
    requires TokensInv(p) && SessionStep(a, p, q) && Rotates(a, p)
    ensures TokensInv(q)
  {
  }

  lemma FlightsKeepTokens(a: Act, p: Page, q: Page)
    requires TokensInv(p) && Single(p) && FlightStep(a, p, q) && Rotates(a, p)
    ensures TokensInv(q)
  {
  }

  lemma {:induction false} RunKeepsTokens(run: seq<Page>, acts: seq<Act>, n: nat)
    requires IsRun(run, acts) && n <= |acts| && forall i :: 0 <= i < n ==> Rotates(acts[i], run[i])
    ensures TokensInv(run[n])
    decreases n
  {
    hide CallerStep, FlightStep, SessionStep, Rotates, FlightToken;
    if n > 0 {
      var k := n - 1;
      RunKeepsTokens(run, acts, k);
      RunKeepsFlights(run, acts, k);
      assert Step(acts[k], run[k], run[k + 1]);
      if CallerStep(acts[k], run[k], run[n]) {
        CallersKeepTokens(acts[k], run[k], run[n]);
      } else if FlightStep(acts[k], run[k], run[n]) {
        FlightsKeepTokens(acts[k], run[k], run[n]);
      } else {
        SessionKeepsTokens(acts[k], run[k], run[n]);
      }
    }
  }

  lemma {:induction false} ClosedForGood(run: seq<Page>, acts: seq<Act>, i: nat, j: nat)
    requires IsRun(run, acts) && i <= j <= |acts|
    ensures run[i].closed <= run[j].closed
    decreases j
  {
    if i < j {
      ClosedForGood(run, acts, i, j - 1);
      assert Step(acts[j - 1], run[j - 1], run[j - 1 + 1]);
    }
  }

  // Exactly which answers keep closed tokens out

  /** What the page holds can be posted: the session's token, and that of every refresh that has yet to be stored. */
  ghost predicate HoldsUsable(p: Page) {
    && p.closed <= p.issued
    && SessionToken(p)
    && forall f :: f in p.flights ==> Postable(p, p.flights[f])
  }

  predicate Postable(p: Page, f: Flight) {
    || f.Settled?
    || (f.base.refresh == Some(f.token) && Usable(p, f.token) && (f.Reading? ==> Handed(f.answer) <= p.issued))
  }

  /**
    The step stores no closed token: an answer that is stored carries a refresh token, other than the one posted
    and not closed; a login brings none that is closed.
   */
  predicate StoresWell(p: Page, a: Act) {
    match a
    case Parsed(f, true) =>
      && f in p.flights && p.flights[f].Reading?
      && var d := p.flights[f];
         d.answer.refresh.Some? && d.answer.refresh.value != d.token && d.answer.refresh.value !in p.closed
    case Login(t) => t.refresh.Some? ==> t.refresh.value !in p.closed
    case _ => true
  }

  lemma ParsedHolds(p: Page, q: Page, f: nat, ok: bool)
    requires HoldsUsable(p) && Single(p) && FlightStep(Parsed(f, ok), p, q)
    ensures HoldsUsable(q) <==> StoresWell(p, Parsed(f, ok))
    ensures SessionToken(q) <==> StoresWell(p, Parsed(f, ok))
  {
    OnlyFlight(p, f);
  }

  lemma OnlyFlight(p: Page, f: nat)
    requires Single(p) && f in p.flights
    ensures forall g :: g in p.flights ==> g == f
  {
  }

  lemma OtherFlightsHold(a: Act, p: Page, q: Page)
    requires HoldsUsable(p) && Single(p) && FlightStep(a, p, q) && !a.Parsed?
    ensures HoldsUsable(q)
  {
    if !a.Land? {
      OnlyFlight(p, a.f);
    }
  }

  lemma CallersHold(a: Act, p: Page, q: Page)
    requires HoldsUsable(p) && CallerStep(a, p, q)
    ensures HoldsUsable(q)
  {
  }

  lemma SessionHolds(a: Act, p: Page, q: Page)
    requires HoldsUsable(p) && SessionStep(a, p, q)
    ensures HoldsUsable(q) <==> StoresWell(p, a)
  {
  }

  /** A step keeps closed tokens out if and only if it stores none. */
  lemma StepHolds(a: Act, p: Page, q: Page)
    requires HoldsUsable(p) && Single(p) && Step(a, p, q)
    ensures HoldsUsable(q) <==> StoresWell(p, a)
  {
    hide HoldsUsable, CallerStep, FlightStep, SessionStep, StoresWell;
    if CallerStep(a, p, q) {
      CallersHold(a, p, q);
      CallerStoresNothing(a, p, q);
    } else if FlightStep(a, p, q) {
      if a.Parsed? {
        ParsedHolds(p, q, a.f, a.ok);
      } else {
        OtherFlightsHold(a, p, q);
        FlightStoresNothing(a, p, q);
      }
    } else {
      SessionHolds(a, p, q);
    }
  }

  lemma CallerStoresNothing(a: Act, p: Page, q: Page)
    requires CallerStep(a, p, q)
    ensures StoresWell(p, a)
  {
  }

  lemma FlightStoresNothing(a: Act, p: Page, q: Page)
    requires FlightStep(a, p, q) && !a.Parsed?
    ensures StoresWell(p, a)
  {
  }

  /** Over a whole run, what the page holds can always be posted if and only if no step stored a closed token. */
  lemma {:induction false} RunHolds(run: seq<Page>, acts: seq<Act>, n: nat)
    requires IsRun(run, acts) && n <= |acts|
    ensures (forall k :: 0 <= k <= n ==> HoldsUsable(run[k])) <==>
            (forall k :: 0 <= k < n ==> StoresWell(run[k], acts[k]))
    decreases n
  {
    hide HoldsUsable, Step, StoresWell;
    if n == 0 {
      OpenedHolds();
    } else {
      RunHolds(run, acts, n - 1);
      RunKeepsFlights(run, acts, n - 1);
      assert Step(acts[n - 1], run[n - 1], run[n - 1 + 1]);
      if HoldsUsable(run[n - 1]) {
        StepHolds(acts[n - 1], run[n - 1], run[n]);
      }
    }
  }

  lemma OpenedHolds()
    ensures HoldsUsable(Opened())
  {
  }

  /** A provider that rotates never makes a page store a closed token. */
  lemma RotationStoresWell(p: Page, a: Act)
    requires TokensInv(p) && Rotates(a, p) && (a.Parsed? ==> a.f in p.flights && p.flights[a.f].Reading?)
    ensures StoresWell(p, a)
  {
  }

  /** With any provider: as long as no step stores a closed token, none is posted. */
  lemma StoredWellNeverReposted(run: seq<Page>, acts: seq<Act>, i: nat, j: nat, f: nat, t: Token)
    requires IsRun(run, acts) && i <= j < |acts| && forall k :: 0 <= k < j ==> StoresWell(run[k], acts[k])
    requires t in run[i].closed
    ensures run[j + 1].posted != run[j].posted + [(f, t)]
  {
    hide StoresWell, HoldsUsable, Step;
    ClosedForGood(run, acts, i, j);
    RunHolds(run, acts, j);
    if run[j + 1].posted == run[j].posted + [(f, t)] {
      assert Step(acts[j], run[j], run[j + 1]);
      PostedToken(acts[j], run[j], run[j + 1], f, t);
      FlightsHeld(run[j], f);
    }
  }

  lemma FlightsHeld(p: Page, f: nat)
    requires HoldsUsable(p) && f in p.flights && !p.flights[f].Settled?
    ensures Usable(p, p.flights[f].token)
  {
  }

  lemma PostedToken(a: Act, p: Page, q: Page, f: nat, t: Token)
    requires Step(a, p, q) && q.posted == p.posted + [(f, t)]
    ensures f in p.flights && p.flights[f].Discovering? && p.flights[f].token == t
  {
    assert |q.posted| == |p.posted| + 1;
    assert q.posted[|p.posted|] == (f, t);
  }

  /** With a provider that rotates: a refresh token whose exchange was stored or refused is never posted again. */
  lemma ClosedTokenNeverPosted(run: seq<Page>, acts: seq<Act>, i: nat, j: nat, f: nat, t: Token)
    requires IsRun(run, acts) && i <= j < |acts| && forall k :: 0 <= k < |acts| ==> Rotates(acts[k], run[k])
    requires t in run[i].closed
    ensures run[j + 1].posted != run[j].posted + [(f, t)]
  {
    hide Step, Rotates, StoresWell, TokensInv;
    forall k | 0 <= k < j
      ensures StoresWell(run[k], acts[k])
    {
      RunKeepsTokens(run, acts, k);
      assert Step(acts[k], run[k], run[k + 1]);
      ParsedWasReading(acts[k], run[k], run[k + 1]);
      RotationStoresWell(run[k], acts[k]);
    }
    StoredWellNeverReposted(run, acts, i, j, f, t);
  }

  lemma ParsedWasReading(a: Act, p: Page, q: Page)
    requires Step(a, p, q)
    ensures a.Parsed? ==> a.f in p.flights && p.flights[a.f].Reading?
  {
    hide CallerStep, SessionStep;
    if a.Parsed? {
      assert !CallerStep(a, p, q) && !SessionStep(a, p, q) by {
        ParsedIsFlight(a, p, q);
      }
    }
  }

  lemma ParsedIsFlight(a: Act, p: Page, q: Page)
    requires a.Parsed?
    ensures !CallerStep(a, p, q) && !SessionStep(a, p, q)
  {
  }

  lemma {:induction false} UnusedCaller(callers: set<nat>) returns (c: nat)
    ensures forall d :: d in callers ==> d < c
  {
    c := 0;
    if callers != {} {
      var d :| d in callers;
      var e := UnusedCaller(callers - {d});
      c := if d < e then e else d + 1;
      assert forall x :: x in callers ==> x == d || x in callers - {d};
    }
  }

  ghost predicate IsPath(p: Page, run: seq<Page>, acts: seq<Act>) {
    && |run| == |acts| + 1 && run[0] == p
    && forall i :: 0 <= i < |acts| ==> Step(acts[i], run[i], run[i + 1])
  }

  /** Some continuation that stores nothing posts the token, and nothing else. */
  ghost predicate CanPost(p: Page, t: Token) {
    exists run, acts, f :: Posting1(p, run, acts, f, t)
  }

  ghost predicate Posting1(p: Page, run: seq<Page>, acts: seq<Act>, f: nat, t: Token) {
    && IsPath(p, run, acts) && (forall k :: 0 <= k < |acts| ==> StoresNothing(acts[k]))
    && run[|acts|].posted == p.posted + [(f, t)]
  }

  predicate StoresNothing(a: Act) {
    !a.Login? && !(a.Parsed? && a.ok)
  }

  lemma CanPostAfter(p: Page, a: Act, q: Page, t: Token)
    requires Step(a, p, q) && StoresNothing(a) && q.posted == p.posted && CanPost(q, t)
    ensures CanPost(p, t)
  {
    hide Step;
    var run, acts, f :| Posting1(q, run, acts, f, t);
    var run', acts' := [p] + run, [a] + acts;
    forall i | 0 <= i < |acts'|
      ensures Step(acts'[i], run'[i], run'[i + 1]) && StoresNothing(acts'[i])
    {
      assert i > 0 ==> Step(acts[i - 1], run[i - 1], run[i - 1 + 1]);
    }
    assert Posting1(p, run', acts', f, t);
  }

  /** With no refresh under way, another call arrives, finds its access token near expiry, and posts the token. */
  lemma FreePagePosts(p: Page, t: Token)
    requires p.current.None? && p.session.Some? && p.session.value.refresh == Some(t)
    ensures CanPost(p, t)
  {
    var c := UnusedCaller(p.callers.Keys);
    var g := p.launched;
    var b := Put(p, c, Ensuring(false));
    var d := Put(Joined(b), c, AwaitEnsure(Awaited(b), false));
    var e := Become(d, g, Posting(p.session.value, t)).(posted := d.posted + [(g, t)]);
    assert CallerStep(Arrive(c), p, b);
    assert CallerStep(Ensure(c, false), b, d);
    assert FlightStep(Discovered(g, true), d, e);
    var run, acts := [p, b, d, e], [Arrive(c), Ensure(c, false), Discovered(g, true)];
    assert Posting1(p, run, acts, g, t);
  }

  /** A refresh under way fails, for want of an answer, and makes room. */
  lemma PagePosts(p: Page, t: Token)
    requires Single(p) && p.session.Some? && p.session.value.refresh == Some(t)
    ensures CanPost(p, t)
  {
    hide CanPost;
    if p.current.None? {
      FreePagePosts(p, t);
    } else {
      var f := p.current.value;
      var d := p.flights[f];
      var q := Become(p, f, Settled(if d.Settled? then d.outcome else Broken));
      var r := q.(current := None, flights := q.flights - {f}, landed := q.landed[f := q.flights[f].outcome]);
      assert FlightStep(Land(f), q, r);
      FreePagePosts(r, t);
      CanPostAfter(q, Land(f), r, t);
      if d.Settled? {
        assert q.flights == p.flights;
      } else {
        var a := if d.Discovering? then Discovered(f, false)
                 else if d.Posting? then Answered(f, Unreachable) else Parsed(f, false);
        assert FlightStep(a, p, q);
        CanPostAfter(p, a, q, t);
      }
    }
  }

  /** And once a step stores a closed token, from an answer or at a login, the page can post it without storing more. */
  lemma StoredClosedIsPosted(p: Page, a: Act, q: Page) returns (t: Token)
    requires HoldsUsable(p) && Single(p) && Step(a, p, q) && !StoresWell(p, a)
    ensures t in q.closed && CanPost(q, t)
  {
    hide CanPost;
    StoredClosed(p, a, q);
    t := q.session.value.refresh.value;
    PagePosts(q, t);
  }

  lemma StoredClosed(p: Page, a: Act, q: Page)
    requires HoldsUsable(p) && Single(p) && Step(a, p, q) && !StoresWell(p, a)
    ensures Single(q) && q.session.Some? && q.session.value.refresh.Some? && q.session.value.refresh.value in q.closed
  {
    if a.Parsed? {
      ParsedWasReading(a, p, q);
    }
  }

  // A run in which a token is posted twice

  ghost predicate Reachable(p: Page) {
    exists run, acts :: IsRun(run, acts) && run[|acts|] == p
  }

  lemma ReachStep(p: Page, a: Act, q: Page)
    requires Reachable(p) && Step(a, p, q)
    ensures Reachable(q)
  {
    hide Step;
    var run, acts :| IsRun(run, acts) && run[|acts|] == p;
    var run', acts' := run + [q], acts + [a];
    forall i | 0 <= i < |acts'|
      ensures Step(acts'[i], run'[i], run'[i + 1])
    {
      assert i < |acts| ==> Step(acts[i], run[i], run[i + 1]);
    }
    assert IsRun(run', acts');
  }

  lemma OpenedReachable()
    ensures Reachable(Opened())
  {
    var acts: seq<Act> := [];
    assert IsRun([Opened()], acts);
  }

  /** A login with refresh token 1, and a first call that posts it. */
  lemma FirstPosting() returns (p: Page)
    ensures Reachable(p)
    ensures p == Page(Some(Tokens(0, Some(1))), Some(0), map[0 := Posting(Tokens(0, Some(1)), 1)], 1, map[],
                      map[0 := AwaitEnsure(0, false)], [(0, 1)], {}, {1}, multiset{})
  {
    hide Reachable;
    var tokens := Tokens(0, Some(1));
    OpenedReachable();
    var a := Opened().(session := Some(tokens), issued := {1});
    assert {} + Handed(tokens) == {1};
    ReachStep(Opened(), Login(tokens), a);
    var b := Put(a, 0, Ensuring(false));
    ReachStep(a, Arrive(0), b);
    var c := Put(Joined(b), 0, AwaitEnsure(0, false));
    ReachStep(b, Ensure(0, false), c);
    p := Become(c, 0, Posting(tokens, 1)).(posted := [(0, 1)]);
    assert c.posted + [(0, 1)] == [(0, 1)];
    ReachStep(c, Discovered(0, true), p);
  }

  /** The provider accepts and omits a new refresh token, and the refresh ends. */
  lemma FirstStored() returns (p: Page)
    ensures Reachable(p)
    ensures p == Page(Some(Tokens(2, Some(1))), None, map[], 1, map[0 := Renewed(Tokens(2, Some(1)))],
                      map[0 := AwaitEnsure(0, false)], [(0, 1)], {1}, {1}, multiset{})
  {
    hide Reachable;
    var first := FirstPosting();
    var kept, base := Tokens(2, Some(1)), Tokens(0, Some(1));
    var a := Become(first, 0, Reading(base, 1, Tokens(2, None)));
    assert first.issued + Handed(Tokens(2, None)) == first.issued;
    ReachStep(first, Answered(0, Accepted(Tokens(2, None))), a);
    var b := Become(a, 0, Settled(Renewed(kept))).(session := Some(kept), closed := {1});
    assert {} + {1 as Token} == {1 as Token};
    ReachStep(a, Parsed(0, true), b);
    p := b.(current := None, flights := b.flights - {0}, landed := map[0 := Renewed(kept)]);
    ReachStep(b, Land(0), p);
  }

  /**
    Rotation is needed.  A provider that accepts a refresh and omits a new refresh token makes the page keep the
    old one, and the next refresh posts it again: the same token, once closed, once more.
   */
  lemma OmittedTokenComesBack() returns (p: Page)
    ensures Reachable(p) && 1 in p.closed && p.posted == [(0, 1), (1, 1)]
  {
    hide Reachable;
    var c := FirstStored();
    var d := Put(c, 1, Ensuring(false));
    ReachStep(c, Arrive(1), d);
    var e := Put(Joined(d), 1, AwaitEnsure(1, false));
    ReachStep(d, Ensure(1, false), e);
    p := Become(e, 1, Posting(Tokens(2, Some(1)), 1)).(posted := e.posted + [(1, 1)]);
    ReachStep(e, Discovered(1, true), p);
  }

  // Signing out

  /** No refresh can still store a session. */
  ghost predicate Quiet(p: Page) {
    p.session.None? && forall f :: f in p.flights ==> p.flights[f].Settled?
  }

  lemma StepKeepsQuiet(a: Act, p: Page, q: Page)
    requires Quiet(p) && Step(a, p, q) && !a.Login?
    ensures Quiet(q) && q.posted == p.posted
  {
  }

  /** Signed out with no refresh under way, the page stays signed out and posts no refresh until the next login. */
  lemma {:induction false} SignedOutStays(p: Page, run: seq<Page>, acts: seq<Act>, n: nat)
    requires IsPath(p, run, acts) && n <= |acts| && Quiet(p)
    requires forall k :: 0 <= k < n ==> !acts[k].Login?
    ensures Quiet(run[n]) && run[n].posted == p.posted
    decreases n
  {
    hide Step, Quiet;
    if n > 0 {
      SignedOutStays(p, run, acts, n - 1);
      assert Step(acts[n - 1], run[n - 1], run[n - 1 + 1]);
      StepKeepsQuiet(acts[n - 1], run[n - 1], run[n]);
    }
  }

  /** Some continuation without a login has a session again. */
  ghost predicate ComesBack(p: Page) {
    exists run, acts :: BringsBack(p, run, acts)
  }

  ghost predicate BringsBack(p: Page, run: seq<Page>, acts: seq<Act>) {
    IsPath(p, run, acts) && (forall k :: 0 <= k < |acts| ==> !acts[k].Login?) && run[|acts|].session.Some?
  }

  lemma ComesBackFrom(p: Page, a: Act, q: Page)
    requires Step(a, p, q) && !a.Login? && ComesBack(q)
    ensures ComesBack(p)
  {
    hide Step;
    var run, acts :| BringsBack(q, run, acts);
    var run', acts' := [p] + run, [a] + acts;
    forall i | 0 <= i < |acts'|
      ensures Step(acts'[i], run'[i], run'[i + 1]) && !acts'[i].Login?
    {
      assert i > 0 ==> Step(acts[i - 1], run[i - 1], run[i - 1 + 1]);
    }
    assert BringsBack(p, run', acts');
  }

  lemma SignedIn(p: Page)
    requires p.session.Some?
    ensures ComesBack(p)
  {
    var acts: seq<Act> := [];
    assert BringsBack(p, [p], acts);
  }

  /** A refresh under way signs the page in again, whether it is looking up the provider, waiting, or reading. */
  lemma FlightComesBack(p: Page, f: nat)
    requires f in p.flights && !p.flights[f].Settled?
    ensures ComesBack(p)
    decreases match p.flights[f] case Discovering(_, _) => 2 case Posting(_, _) => 1 case _ => 0
  {
    hide ComesBack;
    var d := p.flights[f];
    match d {
      case Discovering(base, t) =>
        var q := Become(p, f, Posting(base, t)).(posted := p.posted + [(f, t)]);
        FlightComesBack(q, f);
        assert FlightStep(Discovered(f, true), p, q);
        ComesBackFrom(p, Discovered(f, true), q);
      case Posting(base, t) =>
        var answer := Tokens(0, None);
        var q := Become(p, f, Reading(base, t, answer)).(issued := p.issued + Handed(answer));
        FlightComesBack(q, f);
        assert FlightStep(Answered(f, Accepted(answer)), p, q);
        ComesBackFrom(p, Answered(f, Accepted(answer)), q);
      case Reading(base, t, answer) =>
        var kept := Kept(base, answer);
        var q := Become(p, f, Settled(Renewed(kept))).(session := Some(kept), closed := p.closed + {t});
        SignedIn(q);
        assert FlightStep(Parsed(f, true), p, q);
        ComesBackFrom(p, Parsed(f, true), q);
    }
  }

  /** A page without a session can have one again without a login if and only if a refresh is under way. */
  lemma ComesBackExactly(p: Page)
    requires p.session.None?
    ensures ComesBack(p) <==> !Quiet(p)
  {
    if Quiet(p) {
      if ComesBack(p) {
        var run, acts :| BringsBack(p, run, acts);
        SignedOutStays(p, run, acts, |acts|);
      }
    } else {
      var f :| f in p.flights && !p.flights[f].Settled?;
      FlightComesBack(p, f);
    }
  }

  /** So signing out is final if and only if no refresh was under way. */
  lemma LogoutUndone(p: Page, q: Page)
    requires Step(Logout, p, q)
    ensures q.session.None?
    ensures ComesBack(q) <==> exists f :: f in p.flights && !p.flights[f].Settled?
  {
    hide ComesBack;
    assert SessionStep(Logout, p, q);
    ComesBackExactly(q);
  }
}
