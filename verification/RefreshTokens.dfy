/** Where tokens come from: which one a request carries, which one a refresh posts, and what a refresh makes of it. */
module RefreshTokens {
  import opened Basics
  import opened Refresh
  import opened RefreshRuns

  // What is behind a refresh.  Each predicate names steps before step `n`.

  /** An API call started refresh `f` in a session with tokens `base`, whose refresh token is `t`. */
  ghost predicate Launched(run: seq<Page>, acts: seq<Act>, n: nat, f: nat, base: Tokens, t: Token)
    requires |run| > |acts|
  {
    exists k: nat :: k < n <= |acts| && LaunchStep(run[k], acts[k], f) &&
      run[k].session == Some(base) && base.refresh == Some(t)
  }

  predicate LaunchStep(p: Page, a: Act, f: nat) {
    (a.Ensure? || (a.Respond? && a.unauthorized)) && p.current.None? && p.launched == f
  }

  /** The provider was found, and `t` posted. */
  ghost predicate Posted(run: seq<Page>, acts: seq<Act>, n: nat, f: nat, base: Tokens, t: Token)
    requires |run| > |acts|
  {
    exists k: nat :: k < n <= |acts| && acts[k] == Discovered(f, true) && Launched(run, acts, k, f, base, t) &&
      run[k + 1].posted == run[k].posted + [(f, t)]
  }

  /** The provider accepted it, and answered with other tokens. */
  ghost predicate Granted(
    run: seq<Page>, acts: seq<Act>, n: nat, f: nat, base: Tokens, t: Token, answer: Tokens)
    requires |run| > |acts|
  {
    exists k: nat :: k < n <= |acts| && acts[k] == Answered(f, Accepted(answer)) && Posted(run, acts, k, f, base, t)
  }

  /** The refresh token of the answer replaces the one posted, if there is one. */
  predicate Follows(tokens: Tokens, t: Token, answer: Tokens) {
    && tokens.access == answer.access
    && tokens.refresh == (if answer.refresh.Some? then answer.refresh else Some(t))
  }

  /** The answer was read, and stored. */
  ghost predicate Stored(run: seq<Page>, acts: seq<Act>, n: nat, f: nat, tokens: Tokens)
    requires |run| > |acts|
  {
    exists k: nat, base, t, answer :: k < n <= |acts| && acts[k] == Parsed(f, true) &&
      Granted(run, acts, k, f, base, t, answer) && Follows(tokens, t, answer) && run[k + 1].session == Some(tokens)
  }

  /** There was nothing to post, or the provider refused it, which ended the session. */
  ghost predicate Denied(run: seq<Page>, acts: seq<Act>, n: nat, f: nat)
    requires |run| > |acts|
  {
    || (exists k: nat :: k < n <= |acts| && LaunchStep(run[k], acts[k], f) && !HasRefresh(run[k]))
    || (exists k: nat, base, t :: k < n <= |acts| && acts[k] == Answered(f, Refused) &&
          Posted(run, acts, k, f, base, t) && run[k + 1].session.None?)
  }

  predicate HasRefresh(p: Page) {
    p.session.Some? && p.session.value.refresh.Some?
  }

  /** The provider could not be found or reached, or its answer not be read. */
  ghost predicate Failed(acts: seq<Act>, n: nat, f: nat) {
    exists k: nat :: k < n <= |acts| && acts[k] in [Discovered(f, false), Answered(f, Unreachable), Parsed(f, false)]
  }

  ghost predicate Came(run: seq<Page>, acts: seq<Act>, n: nat, f: nat, outcome: Outcome)
    requires |run| > |acts|
  {
    match outcome
    case Renewed(tokens) => Stored(run, acts, n, f, tokens)
    case Expired => Denied(run, acts, n, f)
    case Broken => Failed(acts, n, f)
  }

  ghost predicate Past(run: seq<Page>, acts: seq<Act>, n: nat, f: nat, flight: Flight)
    requires |run| > |acts|
  {
    match flight
    case Discovering(base, t) => Launched(run, acts, n, f, base, t)
    case Posting(base, t) => Posted(run, acts, n, f, base, t)
    case Reading(base, t, answer) => Granted(run, acts, n, f, base, t, answer)
    case Settled(outcome) => Came(run, acts, n, f, outcome)
  }

  lemma PastStays(run: seq<Page>, acts: seq<Act>, n: nat, f: nat, flight: Flight)
    requires |run| > |acts| && n < |acts| && Past(run, acts, n, f, flight)
    ensures Past(run, acts, n + 1, f, flight)
  {
  }

  lemma LaunchPast(run: seq<Page>, acts: seq<Act>, n: nat, f: nat)
    requires |run| > |acts| && n < |acts| && LaunchStep(run[n], acts[n], f)
    ensures Past(run, acts, n + 1, f, Started(run[n].session))
  {
  }

  lemma FoundPast(run: seq<Page>, acts: seq<Act>, n: nat, f: nat, ok: bool)
    requires |run| == |acts| + 1 && n < |acts| && acts[n] == Discovered(f, ok)
    requires FlightStep(acts[n], run[n], run[n + 1]) && Past(run, acts, n, f, run[n].flights[f])
    ensures f in run[n + 1].flights && Past(run, acts, n + 1, f, run[n + 1].flights[f])
  {
    hide Launched;
    if ok {
      var d := run[n].flights[f];
      assert Posted(run, acts, n + 1, f, d.base, d.token);
    } else {
      assert Failed(acts, n + 1, f);
    }
  }

  lemma AnsweredPast(run: seq<Page>, acts: seq<Act>, n: nat, f: nat, answer: Answer)
    requires |run| == |acts| + 1 && n < |acts| && acts[n] == Answered(f, answer)
    requires FlightStep(acts[n], run[n], run[n + 1]) && Past(run, acts, n, f, run[n].flights[f])
    ensures f in run[n + 1].flights && Past(run, acts, n + 1, f, run[n + 1].flights[f])
  {
    hide Posted;
    var d := run[n].flights[f];
    match answer {
      case Accepted(t) => assert Granted(run, acts, n + 1, f, d.base, d.token, t);
      case Refused => assert Denied(run, acts, n + 1, f);
      case Unreachable => assert Failed(acts, n + 1, f);
    }
  }

  lemma GrantedBase(run: seq<Page>, acts: seq<Act>, n: nat, f: nat, base: Tokens, t: Token, answer: Tokens)
    requires |run| > |acts| && Granted(run, acts, n, f, base, t, answer)
    ensures base.refresh == Some(t)
  {
  }

  lemma ParsedPast(run: seq<Page>, acts: seq<Act>, n: nat, f: nat, ok: bool)
    requires |run| == |acts| + 1 && n < |acts| && acts[n] == Parsed(f, ok)
    requires FlightStep(acts[n], run[n], run[n + 1]) && Past(run, acts, n, f, run[n].flights[f])
    ensures f in run[n + 1].flights && Past(run, acts, n + 1, f, run[n + 1].flights[f])
  {
    hide Granted;
    if ok {
      var d := run[n].flights[f];
      GrantedBase(run, acts, n, f, d.base, d.token, d.answer);
      assert Stored(run, acts, n + 1, f, Kept(d.base, d.answer));
    } else {
      assert Failed(acts, n + 1, f);
    }
  }

  /** Refresh `f` has come as far as the page says, in the way it says. */
  ghost predicate PastOf(run: seq<Page>, acts: seq<Act>, n: nat, f: nat)
    requires |run| > |acts| && n < |run|
  {
    && (f in run[n].flights ==> Past(run, acts, n, f, run[n].flights[f]))
    && (f in run[n].landed ==> Came(run, acts, n, f, run[n].landed[f]))
  }

  lemma OutcomeStays(run: seq<Page>, acts: seq<Act>, n: nat, f: nat, outcome: Outcome)
    requires |run| > |acts| && n < |acts| && Came(run, acts, n, f, outcome)
    ensures Came(run, acts, n + 1, f, outcome)
  {
    PastStays(run, acts, n, f, Settled(outcome));
  }

  /** A step does to refresh `f` one of four things: nothing, launching it, carrying it on, or landing it. */
  lemma FlightChanges(a: Act, p: Page, q: Page, f: nat)
    requires Step(a, p, q)
    ensures f in q.flights ==>
              || (f in p.flights && q.flights[f] == p.flights[f])
              || (LaunchStep(p, a, f) && q.flights[f] == Started(p.session))
              || ((a == Discovered(f, true) || a == Discovered(f, false) || a.Answered? || a.Parsed?) && a.f == f &&
                  f in p.flights && FlightStep(a, p, q))
    ensures f in q.landed ==>
              || (f in p.landed && q.landed[f] == p.landed[f])
              || (f in p.flights && p.flights[f] == Settled(q.landed[f]))
  {
    hide CallerStep, FlightStep;
    if CallerStep(a, p, q) {
      CallerLaunches(a, p, q);
    } else if FlightStep(a, p, q) {
      FlightGoesOn(a, p, q);
    }
  }

  lemma CallerLaunches(a: Act, p: Page, q: Page)
    requires CallerStep(a, p, q)
    ensures q.landed == p.landed
    ensures q.flights == p.flights ||
            (LaunchStep(p, a, p.launched) && q.flights == p.flights[p.launched := Started(p.session)])
  {
    hide Started;
  }

  lemma FlightGoesOn(a: Act, p: Page, q: Page)
    requires FlightStep(a, p, q)
    ensures a.Discovered? || a.Answered? || a.Parsed? || a.Land?
    ensures a.f in p.flights
    ensures if a.Land? then
              q.flights == p.flights - {a.f} && p.flights[a.f].Settled? &&
              q.landed == p.landed[a.f := p.flights[a.f].outcome]
            else
              a.f in q.flights && q.flights == p.flights[a.f := q.flights[a.f]] && q.landed == p.landed
  {
  }

  /**
    In every run a refresh posts the refresh token that the session had when the refresh started, and nothing else.
    When it is over: either its answer was stored, with the new access token and the refresh token that follows; or
    there was no token to post, or it was refused; or something failed on the way.
   */
  lemma {:induction false} PastHolds(run: seq<Page>, acts: seq<Act>, n: nat, f: nat)
    requires IsRun(run, acts) && n <= |acts|
    ensures PastOf(run, acts, n, f)
    decreases n
  {
    hide Past, Came, Step, FlightStep;
    if n > 0 {
      var m := n - 1;
      var p, q := run[m], run[m + 1];
      PastHolds(run, acts, m, f);
      assert Step(acts[m], p, q);
      FlightChanges(acts[m], p, q, f);
      if f in q.flights {
        if f in p.flights && q.flights[f] == p.flights[f] {
          PastStays(run, acts, m, f, p.flights[f]);
        } else if LaunchStep(p, acts[m], f) {
          LaunchPast(run, acts, m, f);
        } else {
          match acts[m] {
            case Discovered(_, ok) => FoundPast(run, acts, m, f, ok);
            case Answered(_, answer) => AnsweredPast(run, acts, m, f, answer);
            case Parsed(_, ok) => ParsedPast(run, acts, m, f, ok);
            case _ =>
          }
        }
      }
      if f in q.landed {
        if f in p.landed && q.landed[f] == p.landed[f] {
          OutcomeStays(run, acts, m, f, p.landed[f]);
        } else {
          assert Came(run, acts, m, f, q.landed[f]) by {
            SettledCame(run, acts, m, f, q.landed[f]);
          }
          OutcomeStays(run, acts, m, f, q.landed[f]);
        }
      }
    }
  }

  lemma SettledCame(run: seq<Page>, acts: seq<Act>, n: nat, f: nat, outcome: Outcome)
    requires |run| > |acts| && Past(run, acts, n, f, Settled(outcome))
    ensures Came(run, acts, n, f, outcome)
  {
  }

  /** Every request to the provider posts the token of the session in which its refresh started. */
  lemma {:induction false} PostsOwnToken(run: seq<Page>, acts: seq<Act>, n: nat, i: nat) returns (base: Tokens)
    requires IsRun(run, acts) && n <= |acts| && i < |run[n].posted|
    ensures Posted(run, acts, n, run[n].posted[i].0, base, run[n].posted[i].1)
    decreases n
  {
    hide Launched, Step;
    if n == 0 {
      assert false;
    } else {
      var m := n - 1;
      var p, q := run[m], run[m + 1];
      assert Step(acts[m], p, q);
      PostedGrows(acts[m], p, q);
      if q.posted == p.posted {
        base := PostsOwnToken(run, acts, m, i);
      } else if i < |p.posted| {
        base := PostsOwnToken(run, acts, m, i);
      } else {
        var f := acts[m].f;
        base := p.flights[f].base;
        PastHolds(run, acts, m, f);
      }
    }
  }

  lemma PostedGrows(a: Act, p: Page, q: Page)
    requires Step(a, p, q)
    ensures q.posted == p.posted ||
            (a.Discovered? && a.ok && a.f in p.flights && p.flights[a.f].Discovering? &&
             q.posted == p.posted + [(a.f, p.flights[a.f].token)])
  {
  }

  // What is behind the state of a call

  predicate Renews(p: Page, f: nat) {
    f in p.landed && p.landed[f].Renewed?
  }

  /** Step `a` on page `p` is what brings call `c` to `caller`. */
  predicate Cause(p: Page, a: Act, c: nat, caller: Caller) {
    match caller
    case Ensuring(false) => a == Arrive(c)
    case Ensuring(true) => a == Resume(c) && IsAwaitRetry(p, c) && Renews(p, p.callers[c].flight)
    case Calling(t, _) =>
      || (a == Ensure(c, true) && p.session.Some? && p.session.value.access == t)
      || (a == Resume(c) && IsAwaitEnsure(p, c) && Renews(p, p.callers[c].flight) &&
          p.landed[p.callers[c].flight].tokens.access == t)
    case AwaitEnsure(_, _) => a == Ensure(c, false) && HasRefresh(p)
    case AwaitRetry(_) => a == Respond(c, true) && IsCalling(p, c, false)
    case Expiring =>
      || (a.Ensure? && a.c == c && (p.session.None? || (!a.unexpired && !HasRefresh(p))))
      || (a == Respond(c, true) && IsCalling(p, c, true))
      || (a == Resume(c) && IsAwaitRetry(p, c) && p.callers[c].flight in p.landed && !Renews(p, p.callers[c].flight))
      || (a == Resume(c) && IsAwaitEnsure(p, c) && p.callers[c].flight in p.landed &&
          p.landed[p.callers[c].flight].Expired?)
    case Finished =>
      || (a == Respond(c, false) && c in p.callers && p.callers[c].Calling?)
      || (a == Resume(c) && IsAwaitEnsure(p, c) && p.callers[c].flight in p.landed &&
          p.landed[p.callers[c].flight].Broken?)
      || (a == GiveUp(c) && c in p.callers && p.callers[c].Expiring?)
  }

  predicate IsAwaitEnsure(p: Page, c: nat) {
    c in p.callers && p.callers[c].AwaitEnsure?
  }

  predicate IsAwaitRetry(p: Page, c: nat) {
    c in p.callers && p.callers[c].AwaitRetry?
  }

  predicate IsCalling(p: Page, c: nat, retried: bool) {
    c in p.callers && p.callers[c].Calling? && p.callers[c].retried == retried
  }

  predicate InState(p: Page, c: nat, caller: Caller) {
    c in p.callers && p.callers[c] == caller
  }

  /** Step `k` brought call `c` to where it is, and nothing has moved it since. */
  ghost predicate CausedAt(run: seq<Page>, acts: seq<Act>, n: nat, c: nat, caller: Caller, k: nat)
    requires |run| > |acts| && n < |run|
  {
    && k < n <= |acts| && Cause(run[k], acts[k], c, caller)
    && forall j :: k < j <= n ==> InState(run[j], c, caller)
  }

  lemma CallerChanges(a: Act, p: Page, q: Page, c: nat)
    requires Step(a, p, q) && c in q.callers
    ensures InState(p, c, q.callers[c]) || Cause(p, a, c, q.callers[c])
  {
    hide CallerStep, FlightStep, Cause;
    if CallerStep(a, p, q) {
      CallerCounts(a, p, q);
      if a.c == c {
        if a.Resume? {
          ResumeCause(a, p, q);
        } else {
          OtherCause(a, p, q);
        }
      }
    } else if FlightStep(a, p, q) {
      FlightLeavesCallers(a, p, q);
    }
  }

  lemma FlightLeavesCallers(a: Act, p: Page, q: Page)
    requires FlightStep(a, p, q)
    ensures q.callers == p.callers
  {
  }

  lemma ResumeCause(a: Act, p: Page, q: Page)
    requires CallerStep(a, p, q) && a.Resume? && a.c in q.callers
    ensures Cause(p, a, a.c, q.callers[a.c])
  {
  }

  lemma OtherCause(a: Act, p: Page, q: Page)
    requires CallerStep(a, p, q) && !a.Resume? && a.c in q.callers
    ensures Cause(p, a, a.c, q.callers[a.c])
  {
    JoinedFrame(p);
    hide Joined, Awaited;
  }

  /**
    In every run the state of a call has a cause.  So a request carries the access token that the session had when it
    was sent, or that of the refresh it waited for; a call starts over only after an unauthorized answer to its first
    request and a refresh that succeeded; and it gives up only when it has no session, no way to refresh it, a
    refresh that ended it, or a second unauthorized answer.
   */
  lemma {:induction false} EveryStateHasCause(run: seq<Page>, acts: seq<Act>, n: nat, c: nat) returns (k: nat)
    requires IsRun(run, acts) && n <= |acts| && c in run[n].callers
    ensures CausedAt(run, acts, n, c, run[n].callers[c], k)
    decreases n
  {
    hide Cause, Step;
    if n == 0 {
      assert false;
    } else {
      var m := n - 1;
      assert Step(acts[m], run[m], run[m + 1]);
      CallerChanges(acts[m], run[m], run[m + 1], c);
      if InState(run[m], c, run[n].callers[c]) {
        k := EveryStateHasCause(run, acts, m, c);
      } else {
        k := m;
      }
    }
  }

  /** The token of a request that followed a refresh is the one the provider answered with to that refresh. */
  lemma RenewedWasStored(run: seq<Page>, acts: seq<Act>, n: nat, f: nat)
    requires IsRun(run, acts) && n <= |acts| && f in run[n].landed && run[n].landed[f].Renewed?
    ensures Stored(run, acts, n, f, run[n].landed[f].tokens)
  {
    hide Stored, Step;
    PastHolds(run, acts, n, f);
  }
}
