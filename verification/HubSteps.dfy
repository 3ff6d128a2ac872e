/**
  The classes of module `HubRegistry` and the steps of module `ShellSession` are the same code: taken without
  interruption, the steps do to a session what the methods do to its object.
 */
module HubSteps {
  import opened Basics
  import opened Base64
  import opened ShellSession
  import opened ShellInvariants
  import Hub = HubRegistry

  function Closes(m: Option<ServerMsg>): nat {
    if m == Some(Close) then 1 else 0
  }

  /** The state after the steps, and how many closes they wrote. */
  function Moves(acts: seq<ServerAct>, s: Server, broken: bool): Option<(Server, nat)> {
    if acts == [] then Some((s, 0))
    else
      match ServerNext(acts[0], s, broken)
      case Blocked => None
      case Moved(next, sent) =>
        match Moves(acts[1..], next, broken)
        case None => None
        case Some((end, n)) => Some((end, Closes(sent) + n))
  }

  function ViewOf(s: Server, closes: nat): Hub.ShellView {
    Hub.ShellView(s.inMap, s.openOnce.Used?, s.result, s.closeOnce.Done?, s.pipeClosed, closes)
  }

  lemma {:induction false} MovesTwice(a: seq<ServerAct>, b: seq<ServerAct>, s: Server, broken: bool)
    ensures Moves(a + b, s, broken) ==
            match Moves(a, s, broken)
            case None => None
            case Some((mid, n)) =>
              match Moves(b, mid, broken)
              case None => None
              case Some((end, m)) => Some((end, n + m))
    decreases |a|
  {
    hide ServerNext;
    if a == [] {
      assert a + b == b;
    } else {
      assert (a + b)[0] == a[0] && (a + b)[1..] == a[1..] + b;
      match ServerNext(a[0], s, broken) {
        case Blocked =>
        case Moved(next, _) => MovesTwice(a[1..], b, next, broken);
      }
    }
  }

  lemma OneMove(a: ServerAct, s: Server, broken: bool)
    requires ServerNext(a, s, broken).Moved?
    ensures var r := ServerNext(a, s, broken); Moves([a], s, broken) == Some((r.next, Closes(r.sent)))
  {
    hide ServerNext;
    assert [a][1..] == [];
  }

  // failOpen

  function Signalling(s: Server): seq<ServerAct> {
    if s.openOnce.Used? then [] else if s.reader.Signal? then [ClaimReader, SendResult] else [ClaimKiller, SendResult]
  }

  lemma StepsMatchFailOpen(s: Server, broken: bool, closes: nat)
    requires ServerInv(s) && (s.reader.Signal? || s.killer.Signalling?) && !s.openOnce.Sending?
    ensures var r := Moves(Signalling(s), s, broken);
            var ok := s.reader.Signal? && s.reader.ok;
            && r.Some? && ViewOf(r.value.0, closes + r.value.1) == Hub.AfterFailOpen(ViewOf(s, closes), ok)
            && r.value.0 == s.(openOnce := Used, result := r.value.0.result, sends := r.value.0.sends)
  {
    if !s.openOnce.Used? {
      var claim := if s.reader.Signal? then ClaimReader else ClaimKiller;
      var ok := s.reader.Signal? && s.reader.ok;
      var s1 := s.(openOnce := Sending(ok));
      assert ServerNext(claim, s, broken) == Moved(s1, None);
      assert ServerNext(SendResult, s1, broken).Moved?;
      OneMove(claim, s, broken);
      OneMove(SendResult, s1, broken);
      MovesTwice([claim], [SendResult], s, broken);
      assert [claim] + [SendResult] == Signalling(s);
    }
  }

  // teardown

  function TearingDown(s: Server): seq<ServerAct> {
    if s.closeOnce.Done? then [] else [BeginTeardown, TeardownNext, TeardownNext, TeardownNext, TeardownNext]
  }

  lemma StepsMatchTeardown(s: Server, broken: bool, closes: nat)
    requires WantsTeardown(s) && (s.closeOnce.Idle? || s.closeOnce.Done?)
    ensures var r := Moves(TearingDown(s), s, broken);
            && r.Some? && ViewOf(r.value.0, closes + r.value.1) == Hub.AfterTeardown(ViewOf(s, closes), broken)
            && r.value.0.closeOnce.Done? && r.value.0.openOnce == s.openOnce && r.value.0.reader == s.reader
            && r.value.0.killer == s.killer
  {
    if s.closeOnce.Idle? {
      var s1 := s.(closeOnce := AtChan, runs := s.runs + 1);
      var s2 := s1.(closeOnce := AtWrite);
      var s3 := s2.(closeOnce := AtRemove);
      var s4 := s3.(closeOnce := AtPipe, inMap := false);
      var s5 := s4.(closeOnce := CloseOnce.Done, pipeClosed := true);
      assert ServerNext(BeginTeardown, s, broken) == Moved(s1, None);
      assert ServerNext(TeardownNext, s1, broken) == Moved(s2, None);
      assert ServerNext(TeardownNext, s2, broken) == Moved(s3, Put(broken, Close));
      assert ServerNext(TeardownNext, s3, broken) == Moved(s4, None);
      assert ServerNext(TeardownNext, s4, broken) == Moved(s5, None);
      hide ServerNext, Moves;
      OneMove(BeginTeardown, s, broken);
      OneMove(TeardownNext, s1, broken);
      OneMove(TeardownNext, s2, broken);
      OneMove(TeardownNext, s3, broken);
      OneMove(TeardownNext, s4, broken);
      var next := [TeardownNext];
      MovesTwice(next, next, s3, broken);
      MovesTwice(next, next + next, s2, broken);
      MovesTwice(next, next + (next + next), s1, broken);
      MovesTwice([BeginTeardown], next + (next + (next + next)), s, broken);
      assert [BeginTeardown] + (next + (next + (next + next))) == TearingDown(s);
    }
  }

  // The handlers of the read loop

  lemma StepsMatchOpened(s: Server, broken: bool, closes: nat)
    requires ServerInv(s) && s.inMap && s.reader.Free? && !s.openOnce.Sending?
    ensures var mid := s.(reader := Signal(true));
            var r := Moves([Receive(Opened)] + Signalling(mid), s, broken);
            r.Some? && ViewOf(r.value.0, closes + r.value.1) == Hub.AfterFailOpen(ViewOf(s, closes), true)
  {
    var mid := s.(reader := Signal(true));
    assert ServerNext(Receive(Opened), s, broken) == Moved(mid, None);
    hide ServerNext, Moves, Hub.AfterFailOpen;
    OneMove(Receive(Opened), s, broken);
    MovesTwice([Receive(Opened)], Signalling(mid), s, broken);
    StepsMatchFailOpen(mid, broken, closes);
  }

  lemma StepsMatchClosed(s: Server, broken: bool, closes: nat)
    requires s.inMap && s.reader.Free? && (s.closeOnce.Idle? || s.closeOnce.Done?)
    ensures var mid := s.(reader := Teardown, inMap := false);
            var r := Moves([Receive(Closed)] + TearingDown(mid), s, broken);
            && r.Some?
            && ViewOf(r.value.0, closes + r.value.1) == Hub.AfterTeardown(ViewOf(s, closes).(inMap := false), broken)
  {
    var mid := s.(reader := Teardown, inMap := false);
    assert ServerNext(Receive(Closed), s, broken) == Moved(mid, None);
    hide ServerNext, Moves, Hub.AfterTeardown;
    OneMove(Receive(Closed), s, broken);
    MovesTwice([Receive(Closed)], TearingDown(mid), s, broken);
    StepsMatchTeardown(mid, broken, closes);
  }

  lemma StepsMatchError(s: Server, broken: bool, closes: nat)
    requires ServerInv(s) && s.inMap && s.reader.Free? && !s.openOnce.Sending?
    requires s.closeOnce.Idle? || s.closeOnce.Done?
    ensures var mid := s.(reader := Signal(false), inMap := false);
            var r := Moves([Receive(Error)] + (Signalling(mid) + ([ReaderSignalled] + TearingDown(s))), s, broken);
            && r.Some?
            && ViewOf(r.value.0, closes + r.value.1)
               == Hub.AfterTeardown(Hub.AfterFailOpen(ViewOf(s, closes).(inMap := false), false), broken)
  {
    hide ServerNext, Moves, ServerInv, Hub.AfterTeardown, Hub.AfterFailOpen;
    var mid := s.(reader := Signal(false), inMap := false);
    ReceiveError(s, broken);
    OneMove(Receive(Error), s, broken);
    StepsMatchFailOpen(mid, broken, closes);
    var (told, n) := Moves(Signalling(mid), mid, broken).value;
    var torn := told.(reader := Teardown);
    AfterRefusal(told, broken);
    OneMove(ReaderSignalled, told, broken);
    StepsMatchTeardown(torn, broken, closes + n);
    MovesTwice([ReaderSignalled], TearingDown(s), told, broken);
    MovesTwice(Signalling(mid), [ReaderSignalled] + TearingDown(s), mid, broken);
    MovesTwice([Receive(Error)], Signalling(mid) + ([ReaderSignalled] + TearingDown(s)), s, broken);
  }

  lemma ReceiveError(s: Server, broken: bool)
    requires ServerInv(s) && s.inMap && s.reader.Free?
    ensures var mid := s.(reader := Signal(false), inMap := false);
            ServerNext(Receive(Error), s, broken) == Moved(mid, None) && ServerInv(mid)
  {
  }

  lemma AfterRefusal(s: Server, broken: bool)
    requires s.reader == Signal(false) && s.openOnce.Used?
    ensures ServerNext(ReaderSignalled, s, broken) == Moved(s.(reader := Teardown), None)
  {
  }

  function Delivering(s: Server, n: nat): seq<ServerAct> {
    if s.closeOnce.Done? then [] else if s.pipeClosed then [DeliverFails] + TearingDown(s) else [DeliverSome(n)]
  }

  /** On output: dropped after a close, the end of the session on a broken pipe, otherwise handed on whole. */
  lemma StepsMatchData(s: Server, broken: bool, closes: nat, text: string)
    requires s.inMap && s.reader.Free? && (s.closeOnce.Idle? || s.closeOnce.Done?)
    requires s.closeOnce.Done? ==> s.pipeClosed
    ensures var raw := StdDecode(text);
            var acts := [Receive(Data(text))] + if raw.None? then [] else [CheckClosed] + Delivering(s, |raw.value|);
            var r := Moves(acts, s, broken);
            && r.Some?
            && r.value.0.out == (if raw.Some? && !s.pipeClosed then s.out + raw.value else s.out)
            && ViewOf(r.value.0, closes + r.value.1)
               == if raw.Some? && s.closeOnce.Idle? && s.pipeClosed then Hub.AfterTeardown(ViewOf(s, closes), broken)
                  else ViewOf(s, closes)
  {
    hide StdDecode, Moves;
    var raw := StdDecode(text);
    if raw.None? {
      assert ServerNext(Receive(Data(text)), s, broken) == Moved(s, None);
      OneMove(Receive(Data(text)), s, broken);
      assert [Receive(Data(text))] + [] == [Receive(Data(text))];
    } else {
      var checked := s.(reader := Check(raw.value));
      assert ServerNext(Receive(Data(text)), s, broken) == Moved(checked, None);
      OneMove(Receive(Data(text)), s, broken);
      Delivery(s, raw.value, broken, closes);
      MovesTwice([Receive(Data(text))], [CheckClosed] + Delivering(s, |raw.value|), s, broken);
    }
  }

  lemma Delivery(s: Server, raw: seq<byte>, broken: bool, closes: nat)
    requires s.reader.Free? && (s.closeOnce.Idle? || s.closeOnce.Done?) && (s.closeOnce.Done? ==> s.pipeClosed)
    ensures var r := Moves([CheckClosed] + Delivering(s, |raw|), s.(reader := Check(raw)), broken);
            && r.Some?
            && r.value.0.out == (if s.pipeClosed then s.out else s.out + raw)
            && ViewOf(r.value.0, closes + r.value.1)
               == if s.closeOnce.Idle? && s.pipeClosed then Hub.AfterTeardown(ViewOf(s, closes), broken)
                  else ViewOf(s, closes)
  {
    hide Moves;
    var checked := s.(reader := Check(raw));
    var ready := if s.closeOnce.Done? then s else s.(reader := Deliver(raw));
    assert ServerNext(CheckClosed, checked, broken) == Moved(ready, None);
    OneMove(CheckClosed, checked, broken);
    MovesTwice([CheckClosed], Delivering(s, |raw|), checked, broken);
    if s.closeOnce.Done? {
      NoMoves(s, broken);
    } else if s.pipeClosed {
      var failed := s.(reader := Teardown);
      assert ServerNext(DeliverFails, ready, broken) == Moved(failed, None);
      OneMove(DeliverFails, ready, broken);
      StepsMatchTeardown(failed, broken, closes);
      TeardownKeepsOutput(failed, broken);
      MovesTwice([DeliverFails], TearingDown(s), ready, broken);
    } else {
      assert raw[..|raw|] == raw;
      assert ServerNext(DeliverSome(|raw|), ready, broken) == Moved(s.(out := s.out + raw), None);
      OneMove(DeliverSome(|raw|), ready, broken);
    }
  }

  lemma NoMoves(s: Server, broken: bool)
    ensures Moves([], s, broken) == Some((s, 0))
  {
  }

  lemma {:induction false} OutputKept(acts: seq<ServerAct>, s: Server, broken: bool)
    requires Moves(acts, s, broken).Some?
    requires forall i :: 0 <= i < |acts| ==> acts[i].BeginTeardown? || acts[i].TeardownNext?
    ensures Moves(acts, s, broken).value.0.out == s.out
    decreases |acts|
  {
    if acts != [] {
      OutputKept(acts[1..], ServerNext(acts[0], s, broken).next, broken);
    }
  }

  lemma TeardownKeepsOutput(s: Server, broken: bool)
    requires Moves(TearingDown(s), s, broken).Some?
    ensures Moves(TearingDown(s), s, broken).value.0.out == s.out
  {
    hide Moves;
    OutputKept(TearingDown(s), s, broken);
  }

  /** One session's share of a shutdown: out of the map, told, torn down. */
  lemma StepsMatchShutdown(s: Server, broken: bool, closes: nat)
    requires ServerInv(s) && s.inMap && s.killer.Away? && s.reader.Free? && !s.openOnce.Sending?
    requires s.closeOnce.Idle? || s.closeOnce.Done?
    ensures var mid := s.(killer := Killer.Signalling, inMap := false);
            var acts := [Collect] + (Signalling(mid) + ([KillerSignalled] + (TearingDown(s) + [KillerDone])));
            var r := Moves(acts, s, broken);
            && r.Some? && r.value.0.killer.Gone?
            && ViewOf(r.value.0, closes + r.value.1)
               == Hub.AfterTeardown(Hub.AfterFailOpen(ViewOf(s, closes).(inMap := false), false), broken)
  {
    hide ServerNext, Moves, ServerInv, Hub.AfterTeardown, Hub.AfterFailOpen;
    var mid := s.(killer := Killer.Signalling, inMap := false);
    Collected(s, broken);
    OneMove(Collect, s, broken);
    StepsMatchFailOpen(mid, broken, closes);
    var (told, n) := Moves(Signalling(mid), mid, broken).value;
    var killing := told.(killer := Killing);
    AfterSignal(told, broken);
    OneMove(KillerSignalled, told, broken);
    StepsMatchTeardown(killing, broken, closes + n);
    var (torn, m) := Moves(TearingDown(s), killing, broken).value;
    AfterKill(torn, broken);
    OneMove(KillerDone, torn, broken);
    MovesTwice(TearingDown(s), [KillerDone], killing, broken);
    MovesTwice([KillerSignalled], TearingDown(s) + [KillerDone], told, broken);
    MovesTwice(Signalling(mid), [KillerSignalled] + (TearingDown(s) + [KillerDone]), mid, broken);
    MovesTwice([Collect], Signalling(mid) + ([KillerSignalled] + (TearingDown(s) + [KillerDone])), s, broken);
  }

  lemma Collected(s: Server, broken: bool)
    requires ServerInv(s) && s.inMap && s.killer.Away?
    ensures var mid := s.(killer := Killer.Signalling, inMap := false);
            ServerNext(Collect, s, broken) == Moved(mid, None) && ServerInv(mid)
  {
  }

  lemma AfterSignal(s: Server, broken: bool)
    requires s.killer.Signalling? && s.openOnce.Used?
    ensures ServerNext(KillerSignalled, s, broken) == Moved(s.(killer := Killing), None)
  {
  }

  lemma AfterKill(s: Server, broken: bool)
    requires s.killer.Killing? && s.closeOnce.Done?
    ensures ServerNext(KillerDone, s, broken) == Moved(s.(killer := Gone), None)
  {
  }
}
