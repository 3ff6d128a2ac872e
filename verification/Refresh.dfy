/**
  Silent refresh in the Portal.  One page runs many API calls; code between two awaits is one step, and steps of
  different calls come in any order.  The identity provider, the network and the clock answer as they like.
 */
module Refresh {
  import opened Basics

  type Token = nat

  datatype Tokens = Tokens(access: Token, refresh: Option<Token>)

  datatype Outcome = Renewed(tokens: Tokens) | Expired | Broken

  datatype Answer = Accepted(tokens: Tokens) | Refused | Unreachable

  /** The promise of one refresh, up to the clean-up that ends it. */
  datatype Flight =
    | Discovering(base: Tokens, token: Token)
    | Posting(base: Tokens, token: Token)
    | Reading(base: Tokens, token: Token, answer: Tokens)
    | Settled(outcome: Outcome)

  /** An API call, as far as tokens matter to it. */
  datatype Caller =
    | Ensuring(retried: bool) | AwaitEnsure(flight: nat, retried: bool) | Calling(access: Token, retried: bool)
    | AwaitRetry(flight: nat) | Expiring | Finished

  /**
    `current` is the variable `refreshInFlight`; `flights` are the refreshes that have not cleaned up.  `posted`
    logs the requests, `closed` the refresh tokens whose exchange was stored or refused, `issued` every refresh
    token the provider has given out, and `requests` the API requests of each call.
   */
  datatype Page = Page(
    session: Option<Tokens>, current: Option<nat>, flights: map<nat, Flight>, launched: nat, landed: map<nat, Outcome>,
    callers: map<nat, Caller>, posted: seq<(nat, Token)>, closed: set<Token>, issued: set<Token>,
    requests: multiset<nat>)

  datatype Act =
    | Arrive(c: nat) | Ensure(c: nat, unexpired: bool) | Respond(c: nat, unauthorized: bool)
    | Resume(c: nat) | GiveUp(c: nat)
    | Discovered(f: nat, ok: bool) | Answered(f: nat, answer: Answer) | Parsed(f: nat, ok: bool) | Land(f: nat)
    | Login(tokens: Tokens) | Logout

  function Handed(t: Tokens): set<Token> {
    if t.refresh.Some? then {t.refresh.value} else {}
  }

  // refreshAccessToken

  /** What `doRefreshAccessToken` does before its first await. */
  function Started(session: Option<Tokens>): Flight {
    if session.Some? && session.value.refresh.Some? then Discovering(session.value, session.value.refresh.value)
    else Settled(Expired)
  }

  /** The flight that a caller of `refreshAccessToken` waits for. */
  function Awaited(p: Page): nat {
    if p.current.Some? then p.current.value else p.launched
  }

  function Joined(p: Page): Page {
    if p.current.Some? then p
    else
      p.(current := Some(p.launched), launched := p.launched + 1,
         flights := p.flights[p.launched := Started(p.session)])
  }

  function Kept(base: Tokens, next: Tokens): Tokens {
    Tokens(next.access, if next.refresh.Some? then next.refresh else base.refresh)
  }

  // Steps of the calls

  function Put(p: Page, c: nat, caller: Caller): Page {
    p.(callers := p.callers[c := caller])
  }

  function Send(p: Page, c: nat, access: Token, retried: bool): Page {
    Put(p, c, Calling(access, retried)).(requests := p.requests + multiset{c})
  }

  ghost predicate CallerStep(a: Act, p: Page, q: Page) {
    match a
    case Arrive(c) => c !in p.callers && q == Put(p, c, Ensuring(false))
    case Ensure(c, unexpired) =>
      && c in p.callers && p.callers[c].Ensuring?
      && var retried := p.callers[c].retried;
         q == if p.session.None? then Put(p, c, Expiring)
              else if unexpired then Send(p, c, p.session.value.access, retried)
              else if p.session.value.refresh.None? then Put(p, c, Expiring).(session := None)
              else Put(Joined(p), c, AwaitEnsure(Awaited(p), retried))
    case Respond(c, unauthorized) =>
      && c in p.callers && p.callers[c].Calling?
      && q == if !unauthorized then Put(p, c, Finished)
              else if p.callers[c].retried then Put(p, c, Expiring)
              else Put(Joined(p), c, AwaitRetry(Awaited(p)))
    case Resume(c) =>
      && c in p.callers
      && (match p.callers[c]
         case AwaitEnsure(f, retried) =>
           && f in p.landed
           && (match p.landed[f]
               case Renewed(t) => q == Send(p, c, t.access, retried)
               case Expired => q == Put(p, c, Expiring)
               case Broken => q == Put(p, c, Finished))
         case AwaitRetry(f) =>
           f in p.landed && q == Put(p, c, if p.landed[f].Renewed? then Ensuring(true) else Expiring)
         case _ => false)
    case GiveUp(c) =>
      c in p.callers && p.callers[c].Expiring? && q == Put(p, c, Finished).(session := None)
    case _ => false
  }

  // Steps of the refreshes

  function Become(p: Page, f: nat, flight: Flight): Page {
    p.(flights := p.flights[f := flight])
  }

  ghost predicate FlightStep(a: Act, p: Page, q: Page) {
    match a
    case Discovered(f, ok) =>
      && f in p.flights && p.flights[f].Discovering?
      && var d := p.flights[f];
         q == if ok then Become(p, f, Posting(d.base, d.token)).(posted := p.posted + [(f, d.token)])
              else Become(p, f, Settled(Broken))
    case Answered(f, answer) =>
      && f in p.flights && p.flights[f].Posting?
      && var d := p.flights[f];
         (match answer
          case Unreachable => q == Become(p, f, Settled(Broken))
          case Refused => q == Become(p, f, Settled(Expired)).(session := None, closed := p.closed + {d.token})
          case Accepted(t) => q == Become(p, f, Reading(d.base, d.token, t)).(issued := p.issued + Handed(t)))
    case Parsed(f, ok) =>
      && f in p.flights && p.flights[f].Reading?
      && var d := p.flights[f];
         q == if ok then
                Become(p, f, Settled(Renewed(Kept(d.base, d.answer))))
                  .(session := Some(Kept(d.base, d.answer)), closed := p.closed + {d.token})
              else Become(p, f, Settled(Broken))
    case Land(f) =>
      && f in p.flights && p.flights[f].Settled?
      && q == p.(current := None, flights := p.flights - {f}, landed := p.landed[f := p.flights[f].outcome])
    case _ => false
  }

  ghost predicate SessionStep(a: Act, p: Page, q: Page) {
    match a
    case Login(t) => q == p.(session := Some(t), issued := p.issued + Handed(t))
    case Logout => q == p.(session := None)
    case _ => false
  }

  ghost predicate Step(a: Act, p: Page, q: Page) {
    CallerStep(a, p, q) || FlightStep(a, p, q) || SessionStep(a, p, q)
  }

  function Opened(): Page {
    Page(None, None, map[], 0, map[], map[], [], {}, {}, multiset{})
  }

  ghost predicate IsRun(run: seq<Page>, acts: seq<Act>) {
    && |run| == |acts| + 1 && run[0] == Opened()
    && forall i :: 0 <= i < |acts| ==> Step(acts[i], run[i], run[i + 1])
  }

  // One flight at a time

  ghost predicate Single(p: Page) {
    && p.flights.Keys == (if p.current.Some? then {p.current.value} else {})
    && (forall f :: f in p.flights || f in p.landed ==> f < p.launched)
    && (forall f :: f in p.flights ==> f !in p.landed)
  }

  /** Who waits, waits for a flight that is under way or over. */
  ghost predicate Waits(p: Page) {
    forall c :: c in p.callers ==> WaitsFor(p, p.callers[c])
  }

  /** A flight has posted if and only if it got that far, and then once. */
  ghost predicate Posts(p: Page) {
    && (forall i :: 0 <= i < |p.posted| ==> p.posted[i].0 < p.launched)
    && (forall i, j :: 0 <= i < j < |p.posted| ==> p.posted[i].0 != p.posted[j].0)
    && (forall f :: f in p.flights && p.flights[f].Discovering? ==>
          forall i :: 0 <= i < |p.posted| ==> p.posted[i].0 != f)
  }

  /** An API call sends at most two requests. */
  ghost predicate Tries(p: Page) {
    && (forall c :: c !in p.callers ==> p.requests[c] == 0)
    && (forall c :: c in p.callers ==> TriesOf(p.requests[c], p.callers[c]))
  }

  ghost predicate FlightsInv(p: Page) {
    Single(p) && Waits(p) && Posts(p) && Tries(p)
  }

  ghost predicate WaitsFor(p: Page, caller: Caller) {
    match caller
    case AwaitEnsure(f, _) => f in p.flights || f in p.landed
    case AwaitRetry(f) => f in p.flights || f in p.landed
    case _ => true
  }

  lemma JoinedKeeps(p: Page)
    requires Single(p) && Posts(p) && Waits(p)
    ensures Single(Joined(p)) && Posts(Joined(p)) && Waits(Joined(p))
    ensures Awaited(p) in Joined(p).flights
  {
  }

  /** A caller moves on: nothing about the flights changes. */
  lemma CallerMoves(p: Page, q: Page, c: nat)
    requires Single(p) && Posts(p) && Waits(p) && c in q.callers && WaitsFor(p, q.callers[c])
    requires q.current == p.current && q.flights == p.flights && q.launched == p.launched
    requires q.landed == p.landed && q.posted == p.posted
    requires q.callers == p.callers[c := q.callers[c]]
    ensures Single(q) && Posts(q) && Waits(q)
  {
  }

  /** The caller's step either starts or joins a refresh, or leaves all refreshes alone. */
  ghost predicate Asks(a: Act, p: Page, q: Page) {
    && (a.Ensure? || a.Respond?) && a.c in q.callers
    && (q.callers[a.c].AwaitEnsure? || q.callers[a.c].AwaitRetry?)
  }

  lemma AskingKeepsFlights(a: Act, p: Page, q: Page)
    requires Single(p) && Posts(p) && Waits(p) && CallerStep(a, p, q) && Asks(a, p, q)
    ensures Single(q) && Waits(q) && Posts(q)
  {
    hide Single, Posts, Waits;
    JoinedKeeps(p);
    hide Joined, Awaited;
    CallerMoves(Joined(p), q, a.c);
  }

  lemma OthersKeepFlights(a: Act, p: Page, q: Page)
    requires Single(p) && Posts(p) && Waits(p) && CallerStep(a, p, q) && !Asks(a, p, q)
    ensures Single(q) && Waits(q) && Posts(q)
  {
    hide Single, Posts, Waits, Joined, Awaited;
    CallerMoves(p, q, a.c);
  }

  lemma CallersKeepFlights(a: Act, p: Page, q: Page)
    requires Single(p) && Posts(p) && Waits(p) && CallerStep(a, p, q)
    ensures Single(q) && Waits(q) && Posts(q)
  {
    hide Single, Posts, Waits, CallerStep, Asks;
    if Asks(a, p, q) {
      AskingKeepsFlights(a, p, q);
    } else {
      OthersKeepFlights(a, p, q);
    }
  }

  predicate TriesOf(n: nat, caller: Caller) {
    match caller
    case Ensuring(retried) => n == if retried then 1 else 0
    case AwaitEnsure(_, retried) => n == if retried then 1 else 0
    case Calling(_, retried) => n == if retried then 2 else 1
    case AwaitRetry(_) => n == 1
    case _ => n <= 2
  }

  /** A request is sent exactly when the caller comes to be waiting for the API. */
  ghost predicate Counts(p: Page, q: Page, c: nat) {
    && c in q.callers && q.callers == p.callers[c := q.callers[c]]
    && q.requests == if q.callers[c].Calling? then p.requests + multiset{c} else p.requests
  }

  lemma EnsureCounts(a: Act, p: Page, q: Page)
    requires a.Ensure? && CallerStep(a, p, q)
    ensures Counts(p, q, a.c)
  {
    JoinedFrame(p);
    hide Joined, Awaited;
  }

  lemma ResumeCounts(a: Act, p: Page, q: Page)
    requires a.Resume? && CallerStep(a, p, q)
    ensures Counts(p, q, a.c)
  {
  }

  lemma CallerCounts(a: Act, p: Page, q: Page)
    requires CallerStep(a, p, q)
    ensures a.Arrive? || a.Ensure? || a.Respond? || a.Resume? || a.GiveUp?
    ensures Counts(p, q, a.c)
  {
    JoinedFrame(p);
    hide Joined, Awaited;
    if a.Ensure? {
      EnsureCounts(a, p, q);
    } else if a.Resume? {
      ResumeCounts(a, p, q);
    }
  }

  lemma CallerRetries(a: Act, p: Page, q: Page)
    requires CallerStep(a, p, q)
    requires if a.c in p.callers then TriesOf(p.requests[a.c], p.callers[a.c]) else p.requests[a.c] == 0
    ensures TriesOf(p.requests[a.c] + if q.callers[a.c].Calling? then 1 else 0, q.callers[a.c])
  {
    hide Joined, Awaited;
  }

  lemma CallersKeepTries(a: Act, p: Page, q: Page)
    requires Tries(p) && CallerStep(a, p, q)
    ensures Tries(q)
  {
    hide Tries, CallerStep, TriesOf;
    CallerCounts(a, p, q);
    TriesAt(p, a.c);
    CallerRetries(a, p, q);
    TriesMove(p, q, a.c);
  }

  lemma JoinedFrame(p: Page)
    ensures Joined(p).callers == p.callers && Joined(p).requests == p.requests
  {}

  lemma TriesAt(p: Page, c: nat)
    requires Tries(p)
    ensures c in p.callers ==> TriesOf(p.requests[c], p.callers[c])
    ensures c !in p.callers ==> p.requests[c] == 0
  {
  }

  lemma TriesMove(p: Page, q: Page, c: nat)
    requires Tries(p) && c in q.callers && q.callers == p.callers[c := q.callers[c]]
    requires q.requests == p.requests || q.requests == p.requests + multiset{c}
    requires TriesOf(q.requests[c], q.callers[c])
    ensures Tries(q)
  {
    assert forall d :: d != c ==> q.requests[d] == p.requests[d];
  }

  /** A flight moves on without landing. */
  lemma FlightMoves(p: Page, q: Page, f: nat)
    requires FlightsInv(p) && f in p.flights && f in q.flights && q.flights == p.flights[f := q.flights[f]]
    requires q.current == p.current && q.launched == p.launched && q.landed == p.landed
    requires q.callers == p.callers && q.requests == p.requests
    requires !q.flights[f].Discovering?
    requires q.posted == p.posted || (p.flights[f].Discovering? && exists t :: q.posted == p.posted + [(f, t)])
    ensures FlightsInv(q)
  {
    hide Tries, Single;
    assert Single(q) by {
      FlightMovesSingle(p, q, f);
    }
    assert Tries(q) by {
      TriesSame(p, q);
    }
    assert f < p.launched by {
      FlightLaunched(p, f);
    }
  }

  lemma FlightMovesSingle(p: Page, q: Page, f: nat)
    requires Single(p) && f in p.flights && f in q.flights && q.flights == p.flights[f := q.flights[f]]
    requires q.current == p.current && q.launched == p.launched && q.landed == p.landed
    ensures Single(q)
  {
  }

  lemma FlightLaunched(p: Page, f: nat)
    requires Single(p) && f in p.flights
    ensures f < p.launched
  {}

  lemma TriesSame(p: Page, q: Page)
    requires Tries(p) && q.callers == p.callers && q.requests == p.requests
    ensures Tries(q)
  {
  }

  lemma LandKeeps(p: Page, q: Page, f: nat)
    requires FlightsInv(p) && FlightStep(Land(f), p, q)
    ensures FlightsInv(q)
  {
    hide Tries;
    assert Tries(q) by {
      TriesSame(p, q);
    }
  }

  lemma SessionKeepsFlights(a: Act, p: Page, q: Page)
    requires FlightsInv(p) && SessionStep(a, p, q)
    ensures FlightsInv(q)
  {
    hide Tries;
    assert Tries(q) by {
      TriesSame(p, q);
    }
  }

  lemma FlightsKeepFlights(a: Act, p: Page, q: Page)
    requires FlightsInv(p) && FlightStep(a, p, q)
    ensures FlightsInv(q)
  {
    hide FlightsInv;
    if a.Land? {
      LandKeeps(p, q, a.f);
    } else if a.Discovered? || a.Answered? || a.Parsed? {
      FlightMoves(p, q, a.f);
    }
  }

  lemma StepKeepsFlights(a: Act, p: Page, q: Page)
    requires FlightsInv(p) && Step(a, p, q)
    ensures FlightsInv(q)
  {
    hide CallerStep, FlightStep, SessionStep;
    if CallerStep(a, p, q) {
      CallersKeepFlights(a, p, q);
      CallersKeepTries(a, p, q);
    } else if FlightStep(a, p, q) {
      FlightsKeepFlights(a, p, q);
    } else {
      SessionKeepsFlights(a, p, q);
    }
  }

  /** In every state of a run: one refresh at a time, known to all who wait, and at most two requests a call. */
  lemma {:induction false} RunKeepsFlights(run: seq<Page>, acts: seq<Act>, n: nat)
    requires IsRun(run, acts) && n <= |acts|
    ensures FlightsInv(run[n])
    decreases n
  {
    hide Step, FlightsInv;
    if n > 0 {
      RunKeepsFlights(run, acts, n - 1);
      assert Step(acts[n - 1], run[n - 1], run[n - 1 + 1]);
      StepKeepsFlights(acts[n - 1], run[n - 1], run[n]);
    } else {
      assert FlightsInv(Opened()) by {
        OpenedFlights();
      }
    }
  }

  lemma OpenedFlights()
    ensures FlightsInv(Opened())
  {
  }
}
