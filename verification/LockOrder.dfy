/**
  The locks of the hub, and why its goroutines never wait for each other in a circle.

  A routine is the list of acquisitions and releases it performs, in order.  `sync.Once` holds its own
  mutex while its body runs, so a `Do` is an acquisition too.  The body of `openOnce` sends on a channel
  that has room for it, so it never waits while it holds that lock.
 */
module LockOrder {

  type ConnId = nat
  type ShellId = nat

  datatype Lock = HubMutex | OpenOnce(shell: ShellId) | CloseOnce(shell: ShellId) | ConnMutex(conn: ConnId)

  function Rank(l: Lock): nat {
    match l
    case HubMutex => 1
    case OpenOnce(_) => 2
    case CloseOnce(_) => 3
    case ConnMutex(_) => 4
  }

  datatype Op = Acquire(l: Lock) | Release(l: Lock)

  type Routine = seq<Op>

  // The routines of hub.go

  /** `writeJSON`, `getShell`, `removeShell` and the insertion in `OpenShell`. */
  function OnConn(c: ConnId): Routine {
    [Acquire(ConnMutex(c)), Release(ConnMutex(c))]
  }

  function FailOpen(s: ShellId): Routine {
    [Acquire(OpenOnce(s)), Release(OpenOnce(s))]
  }

  /** `first` says whether this call is the one that runs the body: it writes a message and leaves the map. */
  function Teardown(s: ShellId, c: ConnId, first: bool): Routine {
    Locked(CloseOnce(s), if first then OnConn(c) + OnConn(c) else [])
  }

  function Locked(l: Lock, body: Routine): Routine {
    [Acquire(l)] + body + [Release(l)]
  }

  /** The loop of `shutdown` over the sessions it took out of the map. */
  function EndAll(c: ConnId, shells: seq<(ShellId, bool)>): Routine {
    if shells == [] then []
    else FailOpen(shells[0].0) + Teardown(shells[0].0, c, shells[0].1) + EndAll(c, shells[1..])
  }

  function Shutdown(c: ConnId, shells: seq<(ShellId, bool)>): Routine {
    OnConn(c) + EndAll(c, shells)
  }

  /** How `OpenShell` ends: with a failed write, with a session, or by closing the session again. */
  datatype Opening = Unsent | Kept | Closed(first: bool)

  function EndOfOpening(c: ConnId, s: ShellId, end: Opening): Routine {
    match end
    case Unsent => OnConn(c)
    case Kept => []
    case Closed(first) => Teardown(s, c, first)
  }

  datatype Call =
    | OpenShell(conn: ConnId, shell: ShellId, end: Opening)
    | RegisterFresh
    | RegisterReplacing(prev: ConnId, shells: seq<(ShellId, bool)>)
    | Disconnect(conn: ConnId, shells: seq<(ShellId, bool)>)
    | HandleOpened(conn: ConnId, shell: ShellId)
    | HandleError(conn: ConnId, shell: ShellId, first: bool)
    | HandleData(conn: ConnId, shell: ShellId, fails: bool, first: bool)
    | HandleClose(conn: ConnId, shell: ShellId, first: bool)
    | Write(conn: ConnId)
    | Close(conn: ConnId, shell: ShellId, first: bool)

  function Code(call: Call): Routine {
    match call
    case OpenShell(c, s, end) => Locked(HubMutex, []) + OnConn(c) + OnConn(c) + EndOfOpening(c, s, end)
    case RegisterFresh => Locked(HubMutex, [])
    case RegisterReplacing(prev, shells) => Locked(HubMutex, Shutdown(prev, shells))
    case Disconnect(c, shells) => Shutdown(c, shells) + Locked(HubMutex, [])
    case HandleOpened(c, s) => OnConn(c) + FailOpen(s)
    case HandleError(c, s, first) => OnConn(c) + FailOpen(s) + Teardown(s, c, first)
    case HandleData(c, s, fails, first) => OnConn(c) + (if fails then Teardown(s, c, first) else [])
    case HandleClose(c, s, first) => OnConn(c) + Teardown(s, c, first)
    case Write(c) => OnConn(c)
    case Close(c, s, first) => Teardown(s, c, first)
  }

  /** A goroutine makes any number of calls, one after the other. */
  function Goroutine(calls: seq<Call>): Routine {
    if calls == [] then [] else Code(calls[0]) + Goroutine(calls[1..])
  }

  // The discipline: locks are taken in rising rank above a floor, and all of them are given back

  function Held(p: Routine): set<Lock> {
    if p == [] then {}
    else
      var op := p[|p| - 1];
      match op
      case Acquire(l) => Held(p[..|p| - 1]) + {l}
      case Release(l) => Held(p[..|p| - 1]) - {l}
  }

  ghost predicate Rising(p: Routine, floor: nat) {
    && Held(p) == {}
    && forall k :: 0 <= k < |p| ==>
        match p[k]
        case Acquire(l) => floor < Rank(l) && forall h :: h in Held(p[..k]) ==> Rank(h) < Rank(l)
        case Release(l) => l in Held(p[..k])
  }

  lemma {:induction false} HeldAcross(p: Routine, q: Routine)
    requires Held(p) == {}
    ensures Held(p + q) == Held(q)
    decreases |q|
  {
    if q == [] {
      assert p + q == p;
    } else {
      var n := |q| - 1;
      assert (p + q)[..|p + q| - 1] == p + q[..n];
      HeldAcross(p, q[..n]);
    }
  }

  lemma InSequence(p: Routine, q: Routine, floor: nat)
    requires Rising(p, floor) && Rising(q, floor)
    ensures Rising(p + q, floor)
  {
    var t := p + q;
    HeldAcross(p, q);
    forall k | 0 <= k < |t|
      ensures if k < |p| then t[..k] == p[..k] else Held(t[..k]) == Held(q[..k - |p|])
    {
      if k >= |p| {
        assert t[..k] == p + q[..k - |p|];
        HeldAcross(p, q[..k - |p|]);
      }
    }
  }

  lemma {:induction false} HeldInside(l: Lock, p: Routine, k: nat)
    requires Rising(p, Rank(l)) && k <= |p|
    ensures Held([Acquire(l)] + p[..k]) == {l} + Held(p[..k]) && l !in Held(p[..k])
  {
    var t := [Acquire(l)] + p[..k];
    if k == 0 {
      assert t == [Acquire(l)] && t[..0] == [];
    } else {
      HeldInside(l, p, k - 1);
      assert t[..k] == [Acquire(l)] + p[..k - 1];
      assert p[..k][..k - 1] == p[..k - 1];
    }
  }

  lemma Nested(l: Lock, p: Routine, floor: nat)
    requires Rising(p, Rank(l)) && floor < Rank(l)
    ensures Rising(Locked(l, p), floor)
  {
    var t := Locked(l, p);
    var n := |p|;
    assert t[..n + 1] == [Acquire(l)] + p[..n];
    assert t[..|t| - 1] == t[..n + 1] && p[..n] == p;
    HeldInside(l, p, n);
    forall k | 0 <= k < |t|
      ensures match t[k]
              case Acquire(m) => floor < Rank(m) && forall h :: h in Held(t[..k]) ==> Rank(h) < Rank(m)
              case Release(m) => m in Held(t[..k])
    {
      if 0 < k <= n {
        assert t[..k] == [Acquire(l)] + p[..k - 1] && t[k] == p[k - 1];
        HeldInside(l, p, k - 1);
      }
    }
  }

  lemma Nothing(floor: nat)
    ensures Rising([], floor)
  {
  }

  lemma OnConnRises(c: ConnId, floor: nat)
    requires floor < 4
    ensures Rising(OnConn(c), floor)
  {
    Nothing(4);
    Nested(ConnMutex(c), [], floor);
    assert OnConn(c) == Locked(ConnMutex(c), []);
  }

  lemma FailOpenRises(s: ShellId, floor: nat)
    requires floor < 2
    ensures Rising(FailOpen(s), floor)
  {
    Nothing(2);
    Nested(OpenOnce(s), [], floor);
    assert FailOpen(s) == Locked(OpenOnce(s), []);
  }

  lemma TeardownRises(s: ShellId, c: ConnId, first: bool, floor: nat)
    requires floor < 3
    ensures Rising(Teardown(s, c, first), floor)
  {
    OnConnRises(c, 3);
    InSequence(OnConn(c), OnConn(c), 3);
    Nothing(3);
    Nested(CloseOnce(s), if first then OnConn(c) + OnConn(c) else [], floor);
  }

  lemma {:induction false} EndAllRises(c: ConnId, shells: seq<(ShellId, bool)>, floor: nat)
    requires floor < 2
    ensures Rising(EndAll(c, shells), floor)
  {
    if shells == [] {
      Nothing(floor);
    } else {
      FailOpenRises(shells[0].0, floor);
      TeardownRises(shells[0].0, c, shells[0].1, floor);
      EndAllRises(c, shells[1..], floor);
      InSequence(FailOpen(shells[0].0), Teardown(shells[0].0, c, shells[0].1), floor);
      InSequence(FailOpen(shells[0].0) + Teardown(shells[0].0, c, shells[0].1), EndAll(c, shells[1..]), floor);
    }
  }

  lemma ShutdownRises(c: ConnId, shells: seq<(ShellId, bool)>, floor: nat)
    requires floor < 2
    ensures Rising(Shutdown(c, shells), floor)
  {
    OnConnRises(c, floor);
    EndAllRises(c, shells, floor);
    InSequence(OnConn(c), EndAll(c, shells), floor);
  }

  /** Every entry point takes its locks in rising rank and gives them all back. */
  lemma CodeRises(call: Call)
    ensures Rising(Code(call), 0)
  {
    hide Rising, OnConn, FailOpen, Teardown, Shutdown, Locked;
    Nothing(0);
    Nothing(1);
    Nested(HubMutex, [], 0);
    match call {
      case OpenShell(c, s, end) =>
        OnConnRises(c, 0);
        TeardownRises(s, c, end.Closed? && end.first, 0);
        InSequence(Locked(HubMutex, []), OnConn(c), 0);
        InSequence(Locked(HubMutex, []) + OnConn(c), OnConn(c), 0);
        InSequence(Locked(HubMutex, []) + OnConn(c) + OnConn(c), EndOfOpening(c, s, end), 0);
      case RegisterFresh =>
      case RegisterReplacing(prev, shells) =>
        ShutdownRises(prev, shells, 1);
        Nested(HubMutex, Shutdown(prev, shells), 0);
      case Disconnect(c, shells) =>
        ShutdownRises(c, shells, 0);
        InSequence(Shutdown(c, shells), Locked(HubMutex, []), 0);
      case HandleOpened(c, s) =>
        OnConnRises(c, 0);
        FailOpenRises(s, 0);
        InSequence(OnConn(c), FailOpen(s), 0);
      case HandleError(c, s, first) =>
        OnConnRises(c, 0);
        FailOpenRises(s, 0);
        TeardownRises(s, c, first, 0);
        InSequence(OnConn(c), FailOpen(s), 0);
        InSequence(OnConn(c) + FailOpen(s), Teardown(s, c, first), 0);
      case HandleData(c, s, fails, first) =>
        OnConnRises(c, 0);
        TeardownRises(s, c, first, 0);
        InSequence(OnConn(c), if fails then Teardown(s, c, first) else [], 0);
      case HandleClose(c, s, first) =>
        OnConnRises(c, 0);
        TeardownRises(s, c, first, 0);
        InSequence(OnConn(c), Teardown(s, c, first), 0);
      case Write(c) => OnConnRises(c, 0);
      case Close(c, s, first) => TeardownRises(s, c, first, 0);
    }
  }

  // Which locks are taken, and which while another is held

  ghost predicate Takes(p: Routine, l: Lock) {
    exists k :: 0 <= k < |p| && p[k] == Acquire(l)
  }

  ghost predicate Nests(p: Routine, h: Lock, l: Lock) {
    exists k :: 0 <= k < |p| && p[k] == Acquire(l) && h in Held(p[..k])
  }

  lemma TakesInSequence(p: Routine, q: Routine, l: Lock)
    ensures Takes(p + q, l) <==> Takes(p, l) || Takes(q, l)
  {
    var t := p + q;
    if k :| 0 <= k < |q| && q[k] == Acquire(l) {
      assert t[|p| + k] == Acquire(l);
    }
    if k :| 0 <= k < |p| && p[k] == Acquire(l) {
      assert t[k] == Acquire(l);
    }
  }

  lemma NestsInSequence(p: Routine, q: Routine, h: Lock, l: Lock)
    requires Held(p) == {}
    ensures Nests(p + q, h, l) <==> Nests(p, h, l) || Nests(q, h, l)
  {
    var t := p + q;
    forall k | 0 <= k < |t|
      ensures if k < |p| then t[..k] == p[..k] else Held(t[..k]) == Held(q[..k - |p|])
    {
      if k >= |p| {
        assert t[..k] == p + q[..k - |p|];
        HeldAcross(p, q[..k - |p|]);
      }
    }
    if k :| 0 <= k < |q| && q[k] == Acquire(l) && h in Held(q[..k]) {
      assert t[|p| + k] == Acquire(l) && h in Held(t[..|p| + k]);
    }
    if k :| 0 <= k < |p| && p[k] == Acquire(l) && h in Held(p[..k]) {
      assert t[k] == Acquire(l) && h in Held(t[..k]);
    }
  }

  lemma TakesLocked(m: Lock, p: Routine, l: Lock)
    ensures Takes(Locked(m, p), l) <==> l == m || Takes(p, l)
  {
    TakesInSequence([Acquire(m)], p, l);
    TakesInSequence([Acquire(m)] + p, [Release(m)], l);
    assert [Acquire(m)][0] == Acquire(m);
  }

  lemma NestsLocked(m: Lock, p: Routine, h: Lock, l: Lock)
    requires Rising(p, Rank(m))
    ensures Nests(Locked(m, p), h, l) <==> Nests(p, h, l) || (h == m && Takes(p, l))
  {
    var t := Locked(m, p);
    assert t[..0] == [];
    forall k | 0 <= k < |p|
      ensures t[k + 1] == p[k] && Held(t[..k + 1]) == {m} + Held(p[..k])
    {
      assert t[..k + 1] == [Acquire(m)] + p[..k];
      HeldInside(m, p, k);
    }
    if k :| 0 <= k < |p| && p[k] == Acquire(l) && (h == m || h in Held(p[..k])) {
      assert t[k + 1] == Acquire(l) && h in Held(t[..k + 1]);
    }
    if k :| 0 <= k < |t| && t[k] == Acquire(l) && h in Held(t[..k]) {
      assert p[k - 1] == Acquire(l);
    }
  }

  lemma EmptyLocks(h: Lock, l: Lock)
    ensures !Takes([], l) && !Nests([], h, l)
  {
  }

  lemma OnConnLocks(c: ConnId, h: Lock, l: Lock)
    ensures Takes(OnConn(c), l) <==> l == ConnMutex(c)
    ensures !Nests(OnConn(c), h, l)
  {
    hide Takes, Nests;
    assert OnConn(c) == Locked(ConnMutex(c), []);
    Nothing(4);
    EmptyLocks(h, l);
    TakesLocked(ConnMutex(c), [], l);
    NestsLocked(ConnMutex(c), [], h, l);
  }

  lemma FailOpenLocks(s: ShellId, h: Lock, l: Lock)
    ensures Takes(FailOpen(s), l) <==> l == OpenOnce(s)
    ensures !Nests(FailOpen(s), h, l)
  {
    hide Takes, Nests;
    assert FailOpen(s) == Locked(OpenOnce(s), []);
    Nothing(2);
    EmptyLocks(h, l);
    TakesLocked(OpenOnce(s), [], l);
    NestsLocked(OpenOnce(s), [], h, l);
  }

  lemma TeardownLocks(s: ShellId, c: ConnId, first: bool, h: Lock, l: Lock)
    ensures Takes(Teardown(s, c, first), l) <==> l == CloseOnce(s) || (first && l == ConnMutex(c))
    ensures Nests(Teardown(s, c, first), h, l) <==> first && h == CloseOnce(s) && l == ConnMutex(c)
  {
    var body := if first then OnConn(c) + OnConn(c) else [];
    OnConnRises(c, 3);
    InSequence(OnConn(c), OnConn(c), 3);
    Nothing(3);
    OnConnLocks(c, h, l);
    EmptyLocks(h, l);
    hide Takes, Nests;
    TakesInSequence(OnConn(c), OnConn(c), l);
    NestsInSequence(OnConn(c), OnConn(c), h, l);
    TakesLocked(CloseOnce(s), body, l);
    NestsLocked(CloseOnce(s), body, h, l);
  }

  /** The shell of a once-lock is one of those to end. */
  predicate OneOf(shells: seq<(ShellId, bool)>, l: Lock) {
    (l.OpenOnce? || l.CloseOnce?) && ((l.shell, true) in shells || (l.shell, false) in shells)
  }

  predicate AnyFirst(shells: seq<(ShellId, bool)>) {
    exists i :: 0 <= i < |shells| && shells[i].1
  }

  lemma {:induction false} EndAllLocks(c: ConnId, shells: seq<(ShellId, bool)>, h: Lock, l: Lock)
    ensures Takes(EndAll(c, shells), l) <==> OneOf(shells, l) || (l == ConnMutex(c) && AnyFirst(shells))
    ensures Nests(EndAll(c, shells), h, l) <==> h.CloseOnce? && l == ConnMutex(c) && (h.shell, true) in shells
  {
    hide Takes, Nests, FailOpen, Teardown, Held;
    if shells == [] {
      EmptyLocks(h, l);
    } else {
      var s, first, rest := shells[0].0, shells[0].1, shells[1..];
      assert shells == [(s, first)] + rest;
      FailOpenRises(s, 0);
      TeardownRises(s, c, first, 0);
      InSequence(FailOpen(s), Teardown(s, c, first), 0);
      FailOpenLocks(s, h, l);
      TeardownLocks(s, c, first, h, l);
      EndAllLocks(c, rest, h, l);
      TakesInSequence(FailOpen(s), Teardown(s, c, first), l);
      NestsInSequence(FailOpen(s), Teardown(s, c, first), h, l);
      TakesInSequence(FailOpen(s) + Teardown(s, c, first), EndAll(c, rest), l);
      NestsInSequence(FailOpen(s) + Teardown(s, c, first), EndAll(c, rest), h, l);
      FirstOrRest(shells, s, first, rest);
    }
  }

  lemma FirstOrRest(shells: seq<(ShellId, bool)>, s: ShellId, first: bool, rest: seq<(ShellId, bool)>)
    requires shells == [(s, first)] + rest
    ensures AnyFirst(shells) <==> first || AnyFirst(rest)
    ensures forall x :: x in shells <==> x == (s, first) || x in rest
  {
    if i :| 0 <= i < |rest| && rest[i].1 {
      assert shells[i + 1].1;
    }
    if first {
      assert shells[0].1;
    }
    if i :| 0 <= i < |shells| && shells[i].1 && i > 0 {
      assert rest[i - 1].1;
    }
  }

  lemma ShutdownLocks(c: ConnId, shells: seq<(ShellId, bool)>, h: Lock, l: Lock)
    ensures Takes(Shutdown(c, shells), l) <==> l == ConnMutex(c) || OneOf(shells, l)
    ensures Nests(Shutdown(c, shells), h, l) <==> h.CloseOnce? && l == ConnMutex(c) && (h.shell, true) in shells
  {
    hide Takes, Nests;
    OnConnRises(c, 0);
    OnConnLocks(c, h, l);
    EndAllLocks(c, shells, h, l);
    TakesInSequence(OnConn(c), EndAll(c, shells), l);
    NestsInSequence(OnConn(c), EndAll(c, shells), h, l);
  }

  /** The calls that look at the hub's table of connections. */
  predicate UsesHub(call: Call) {
    call.OpenShell? || call.RegisterFresh? || call.RegisterReplacing? || call.Disconnect?
  }

  /** The call runs the teardown of the shell, as the first to do so or not. */
  predicate TearsDown(call: Call, s: ShellId, first: bool) {
    match call
    case OpenShell(_, x, end) => x == s && end == Closed(first)
    case RegisterReplacing(_, shells) => (s, first) in shells
    case Disconnect(_, shells) => (s, first) in shells
    case HandleError(_, x, once) => x == s && once == first
    case HandleData(_, x, fails, once) => fails && x == s && once == first
    case HandleClose(_, x, once) => x == s && once == first
    case Close(_, x, once) => x == s && once == first
    case _ => false
  }

  /** The call signals the opener of the shell. */
  predicate Signals(call: Call, s: ShellId) {
    match call
    case HandleOpened(_, x) => x == s
    case HandleError(_, x, _) => x == s
    case RegisterReplacing(_, shells) => OneOf(shells, OpenOnce(s))
    case Disconnect(_, shells) => OneOf(shells, OpenOnce(s))
    case _ => false
  }

  /** The call uses the connection: all but the registration of a fresh one and a close that is not the first. */
  predicate UsesConn(call: Call, c: ConnId) {
    match call
    case RegisterFresh => false
    case RegisterReplacing(prev, _) => prev == c
    case Close(conn, _, first) => first && conn == c
    case _ => call.conn == c
  }

  /**
    Which locks a call takes: the mutex of the hub to look at its table, the once-locks of the shells it signals and
    tears down, and the mutex of its connection.
   */
  predicate Needs(call: Call, l: Lock) {
    match l
    case HubMutex => UsesHub(call)
    case OpenOnce(s) => Signals(call, s)
    case CloseOnce(s) => TearsDown(call, s, true) || TearsDown(call, s, false)
    case ConnMutex(c) => UsesConn(call, c)
  }

  /**
    And which of them inside one another: the mutex of the connection inside the first teardown of a shell, and all
    that a replaced connection needs inside the mutex of the hub.
   */
  predicate NeedsInside(call: Call, h: Lock, l: Lock) {
    || (h.CloseOnce? && l.ConnMutex? && TearsDown(call, h.shell, true) && UsesConn(call, l.conn))
    || (h.HubMutex? && call.RegisterReplacing? && !l.HubMutex? && Needs(call, l))
  }

  lemma GivesAllBack(p: Routine, floor: nat)
    requires Rising(p, floor)
    ensures Held(p) == {}
  {
  }

  lemma HubLocks(h: Lock, l: Lock)
    ensures Takes(Locked(HubMutex, []), l) <==> l == HubMutex
    ensures !Nests(Locked(HubMutex, []), h, l)
    ensures Held(Locked(HubMutex, [])) == {}
  {
    hide Takes, Nests;
    EmptyLocks(h, l);
    Nothing(1);
    Nested(HubMutex, [], 0);
    TakesLocked(HubMutex, [], l);
    NestsLocked(HubMutex, [], h, l);
  }

  lemma OpenShellLocks(c: ConnId, s: ShellId, end: Opening, h: Lock, l: Lock)
    ensures Takes(Code(OpenShell(c, s, end)), l) <==> Needs(OpenShell(c, s, end), l)
    ensures Nests(Code(OpenShell(c, s, end)), h, l) <==> NeedsInside(OpenShell(c, s, end), h, l)
  {
    hide Takes, Nests, Held, Locked, OnConn, Teardown;
    var hub := Locked(HubMutex, []);
    HubLocks(h, l);
    OnConnRises(c, 0);
    OnConnLocks(c, h, l);
    EmptyLocks(h, l);
    TeardownLocks(s, c, end.Closed? && end.first, h, l);
    HeldAcross(hub, OnConn(c));
    HeldAcross(hub + OnConn(c), OnConn(c));
    TakesInSequence(hub, OnConn(c), l);
    NestsInSequence(hub, OnConn(c), h, l);
    TakesInSequence(hub + OnConn(c), OnConn(c), l);
    NestsInSequence(hub + OnConn(c), OnConn(c), h, l);
    TakesInSequence(hub + OnConn(c) + OnConn(c), EndOfOpening(c, s, end), l);
    NestsInSequence(hub + OnConn(c) + OnConn(c), EndOfOpening(c, s, end), h, l);
  }

  lemma RegistryLocks(call: Call, h: Lock, l: Lock)
    requires call.RegisterFresh? || call.RegisterReplacing? || call.Disconnect?
    ensures Takes(Code(call), l) <==> Needs(call, l)
    ensures Nests(Code(call), h, l) <==> NeedsInside(call, h, l)
  {
    hide Takes, Nests, Held, Locked, Shutdown, Rising;
    HubLocks(h, l);
    match call {
      case RegisterFresh =>
      case RegisterReplacing(c, shells) =>
        ShutdownLocks(c, shells, h, l);
        ShutdownRises(c, shells, 1);
        TakesLocked(HubMutex, Shutdown(c, shells), l);
        NestsLocked(HubMutex, Shutdown(c, shells), h, l);
      case Disconnect(c, shells) =>
        ShutdownLocks(c, shells, h, l);
        ShutdownRises(c, shells, 0);
        GivesAllBack(Shutdown(c, shells), 0);
        TakesInSequence(Shutdown(c, shells), Locked(HubMutex, []), l);
        NestsInSequence(Shutdown(c, shells), Locked(HubMutex, []), h, l);
    }
  }

  lemma ShellLocks(call: Call, h: Lock, l: Lock)
    requires call.HandleOpened? || call.HandleError? || call.HandleData? || call.HandleClose?
    ensures Takes(Code(call), l) <==> Needs(call, l)
    ensures Nests(Code(call), h, l) <==> NeedsInside(call, h, l)
  {
    hide Takes, Nests, OnConn, FailOpen, Teardown;
    var c, s := call.conn, call.shell;
    OnConnRises(c, 0);
    FailOpenRises(s, 0);
    InSequence(OnConn(c), FailOpen(s), 0);
    hide Held;
    OnConnLocks(c, h, l);
    FailOpenLocks(s, h, l);
    EmptyLocks(h, l);
    TakesInSequence(OnConn(c), FailOpen(s), l);
    NestsInSequence(OnConn(c), FailOpen(s), h, l);
    match call {
      case HandleError(_, _, first) =>
        TeardownLocks(s, c, first, h, l);
        TakesInSequence(OnConn(c) + FailOpen(s), Teardown(s, c, first), l);
        NestsInSequence(OnConn(c) + FailOpen(s), Teardown(s, c, first), h, l);
      case HandleData(_, _, fails, first) =>
        TeardownLocks(s, c, first, h, l);
        TakesInSequence(OnConn(c), if fails then Teardown(s, c, first) else [], l);
        NestsInSequence(OnConn(c), if fails then Teardown(s, c, first) else [], h, l);
      case HandleClose(_, _, first) =>
        TeardownLocks(s, c, first, h, l);
        TakesInSequence(OnConn(c), Teardown(s, c, first), l);
        NestsInSequence(OnConn(c), Teardown(s, c, first), h, l);
      case _ =>
    }
  }

  /** Exactly which locks every routine of the hub takes, and exactly which while it holds another. */
  lemma CodeLocks(call: Call, h: Lock, l: Lock)
    ensures Takes(Code(call), l) <==> Needs(call, l)
    ensures Nests(Code(call), h, l) <==> NeedsInside(call, h, l)
  {
    hide Takes, Nests;
    match call {
      case OpenShell(c, s, end) => OpenShellLocks(c, s, end, h, l);
      case RegisterFresh | RegisterReplacing(_, _) | Disconnect(_, _) => RegistryLocks(call, h, l);
      case Write(c) => OnConnLocks(c, h, l);
      case Close(c, s, first) => TeardownLocks(s, c, first, h, l);
      case _ => ShellLocks(call, h, l);
    }
  }

  lemma {:induction false} GoroutineRises(calls: seq<Call>)
    ensures Rising(Goroutine(calls), 0)
  {
    if calls == [] {
      Nothing(0);
    } else {
      CodeRises(calls[0]);
      GoroutineRises(calls[1..]);
      InSequence(Code(calls[0]), Goroutine(calls[1..]), 0);
    }
  }

  // Goroutines running together

  /** How far each goroutine has come. */
  type Progress = seq<nat>

  predicate WithinBounds(code: seq<Routine>, at: Progress) {
    |at| == |code| && forall i :: 0 <= i < |code| ==> at[i] <= |code[i]|
  }

  ghost function HeldBy(code: seq<Routine>, at: Progress, i: nat): set<Lock>
    requires WithinBounds(code, at) && i < |code|
  {
    Held(code[i][..at[i]])
  }

  ghost predicate CanMove(code: seq<Routine>, at: Progress, i: nat)
    requires WithinBounds(code, at)
  {
    && i < |code| && at[i] < |code[i]|
    && match code[i][at[i]]
       case Release(_) => true
       case Acquire(l) => forall j: nat :: j < |code| ==> l !in HeldBy(code, at, j)
  }

  ghost predicate Moves(code: seq<Routine>, at: Progress, to: Progress, i: nat)
    requires WithinBounds(code, at)
  {
    CanMove(code, at, i) && to == at[i := at[i] + 1]
  }

  /** `who[k]` is the goroutine that takes step k. */
  ghost predicate IsSchedule(code: seq<Routine>, run: seq<Progress>, who: seq<nat>) {
    && |run| == |who| + 1
    && run[0] == seq(|code|, _ => 0)
    && (forall k :: 0 <= k < |run| ==> WithinBounds(code, run[k]))
    && forall k :: 0 <= k < |who| ==> Moves(code, run[k], run[k + 1], who[k])
  }

  ghost predicate Exclusive(code: seq<Routine>, at: Progress)
    requires WithinBounds(code, at)
  {
    forall i: nat, j: nat :: i < j < |code| ==> HeldBy(code, at, i) !! HeldBy(code, at, j)
  }

  lemma MoveKeepsExclusive(code: seq<Routine>, at: Progress, to: Progress, i: nat)
    requires WithinBounds(code, at) && WithinBounds(code, to)
    requires Exclusive(code, at) && Moves(code, at, to, i)
    ensures Exclusive(code, to)
  {
    var p := code[i][..at[i] + 1];
    assert p[..|p| - 1] == code[i][..at[i]];
    forall j: nat | j < |code| && j != i
      ensures HeldBy(code, to, j) == HeldBy(code, at, j) && HeldBy(code, to, j) !! HeldBy(code, to, i)
    {
      if i < j {
        assert HeldBy(code, at, i) !! HeldBy(code, at, j);
      } else {
        assert HeldBy(code, at, j) !! HeldBy(code, at, i);
      }
    }
  }

  lemma StartsExclusive(code: seq<Routine>, at: Progress)
    requires WithinBounds(code, at) && at == seq(|code|, _ => 0)
    ensures Exclusive(code, at)
  {
    forall i: nat | i < |code|
      ensures HeldBy(code, at, i) == {}
    {
      assert code[i][..0] == [];
    }
  }

  /** No lock is ever held by two goroutines. */
  lemma {:induction false} AlwaysExclusive(code: seq<Routine>, run: seq<Progress>, who: seq<nat>, k: nat)
    requires IsSchedule(code, run, who) && k < |run|
    ensures Exclusive(code, run[k])
    decreases k
  {
    hide Moves, Exclusive;
    if k == 0 {
      StartsExclusive(code, run[0]);
    } else {
      var n := k - 1;
      AlwaysExclusive(code, run, who, n);
      MoveKeepsExclusive(code, run[n], run[k], who[n]);
    }
  }

  ghost function WaitRank(code: seq<Routine>, at: Progress, i: nat): nat
    requires WithinBounds(code, at) && i < |code|
  {
    if at[i] < |code[i]| then Rank(code[i][at[i]].l) else 0
  }

  /**
    Following the wait-for relation from a goroutine that cannot move leads to one that waits for a
    lock of higher rank; so it ends at one that can move.
   */
  lemma {:induction false} SomeoneMoves(code: seq<Routine>, at: Progress, i: nat) returns (j: nat)
    requires WithinBounds(code, at) && i < |code| && at[i] < |code[i]|
    requires forall n :: 0 <= n < |code| ==> Rising(code[n], 0)
    ensures CanMove(code, at, j)
    decreases 5 - WaitRank(code, at, i)
  {
    if CanMove(code, at, i) {
      j := i;
    } else {
      var l := code[i][at[i]].l;
      var owner: nat :| owner < |code| && l in HeldBy(code, at, owner);
      assert code[owner][..|code[owner]|] == code[owner];
      if !CanMove(code, at, owner) {
        assert Rank(l) < WaitRank(code, at, owner);
        j := SomeoneMoves(code, at, owner);
      } else {
        j := owner;
      }
    }
  }

  /**
    Whatever the goroutines of the hub call, in whatever interleaving, as long as one of them has
    something left to do one of them can do it: no circle of waiting goroutines ever forms.
   */
  lemma HubNeverDeadlocks(calls: seq<seq<Call>>, code: seq<Routine>, run: seq<Progress>, who: seq<nat>, i: nat)
    returns (j: nat)
    requires |code| == |calls| && forall n :: 0 <= n < |calls| ==> code[n] == Goroutine(calls[n])
    requires IsSchedule(code, run, who)
    requires i < |code| && run[|run| - 1][i] < |code[i]|
    ensures CanMove(code, run[|run| - 1], j)
    ensures Exclusive(code, run[|run| - 1])
  {
    forall n | 0 <= n < |code|
      ensures Rising(code[n], 0)
    {
      GoroutineRises(calls[n]);
    }
    AlwaysExclusive(code, run, who, |run| - 1);
    j := SomeoneMoves(code, run[|run| - 1], i);
  }
}
