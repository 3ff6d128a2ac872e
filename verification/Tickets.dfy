/**
  Console tickets: minted once, consumed at most once, gone after a minute.

  Times are nanoseconds on a clock that never runs backwards; each call reads it twice.
 */
module Tickets {
  import opened Basics

  type Time = int

  const TICKET_TTL: Time := 60 * 1_000_000_000

  datatype Path = AgentPath | SshPath

  datatype Request = Request(hostID: string, path: Path, cols: int, rows: int)

  datatype Ticket = Ticket(request: Request, expiry: Time)

  predicate Expired(t: Ticket, now: Time) {
    now > t.expiry
  }

  function Purged(tickets: map<string, Ticket>, now: Time): map<string, Ticket> {
    map id | id in tickets && !Expired(tickets[id], now) :: tickets[id]
  }

  class TicketStore {
    var tickets: map<string, Ticket>

    constructor ()
      ensures tickets == map[]
    {
      tickets := map[];
    }

    method PurgeLocked(now: Time)
      modifies this
      ensures tickets == Purged(old(tickets), now)
    {
      ghost var before := tickets;
      var todo := tickets.Keys;
      while todo != {}
        invariant todo <= before.Keys
        invariant tickets == map id | id in before && (id in todo || !Expired(before[id], now)) :: before[id]
        decreases |todo|
      {
        var id :| id in todo;
        if Expired(tickets[id], now) {
          tickets := tickets - {id};
        }
        todo := todo - {id};
      }
    }

    /** `random` is the identifier drawn, if the random source answered. */
    method Mint(random: Option<string>, request: Request, purgeAt: Time, now: Time) returns (id: Option<string>)
      modifies this
      ensures id == random
      ensures tickets == if random.Some? then Minted(old(tickets), random.value, request, purgeAt, now)
                         else old(tickets)
    {
      if random.None? {
        return None;
      }
      PurgeLocked(purgeAt);
      tickets := tickets[random.value := Ticket(request, now + TICKET_TTL)];
      id := random;
    }

    method Consume(id: string, purgeAt: Time, now: Time) returns (t: Option<Ticket>)
      modifies this
      ensures (tickets, t) == Consumed(old(tickets), id, purgeAt, now)
    {
      PurgeLocked(purgeAt);
      if id !in tickets {
        return None;
      }
      var found := tickets[id];
      tickets := tickets - {id};
      if Expired(found, now) {
        return None;
      }
      t := Some(found);
    }
  }

  function Minted(
    tickets: map<string, Ticket>, id: string, request: Request, purgeAt: Time, now: Time): map<string, Ticket>
  {
    Purged(tickets, purgeAt)[id := Ticket(request, now + TICKET_TTL)]
  }

  function Consumed(
    tickets: map<string, Ticket>, id: string, purgeAt: Time, now: Time): (map<string, Ticket>, Option<Ticket>)
  {
    var left := Purged(tickets, purgeAt);
    if id !in left then (left, None)
    else (left - {id}, if Expired(left[id], now) then None else Some(left[id]))
  }

  // Histories

  datatype Event =
    | Mint(id: string, request: Request, purgeAt: Time, now: Time)
    | Consume(id: string, purgeAt: Time, now: Time)

  function StoreAfter(history: seq<Event>): map<string, Ticket> {
    if history == [] then map[]
    else
      var before := StoreAfter(history[..|history| - 1]);
      match history[|history| - 1]
      case Mint(id, request, purgeAt, now) => Minted(before, id, request, purgeAt, now)
      case Consume(id, purgeAt, now) => Consumed(before, id, purgeAt, now).0
  }

  /** The clock never runs backwards, neither within a call nor between calls. */
  ghost predicate Timed(history: seq<Event>) {
    && (forall i :: 0 <= i < |history| ==> history[i].purgeAt <= history[i].now)
    && (forall i, j :: 0 <= i < j < |history| ==> history[i].now <= history[j].purgeAt)
  }

  /** A call that starts no earlier than the last one ended. */
  ghost predicate After(history: seq<Event>, purgeAt: Time, now: Time) {
    purgeAt <= now && forall i :: 0 <= i < |history| ==> history[i].now <= purgeAt
  }

  /** `history[i]` minted `id`, and nothing has been done with that id since. */
  ghost predicate Unused(history: seq<Event>, i: nat, id: string) {
    && i < |history| && history[i].Mint? && history[i].id == id
    && forall j :: i < j < |history| ==> history[j].id != id
  }

  function TicketOf(mint: Event): Ticket
    requires mint.Mint?
  {
    Ticket(mint.request, mint.now + TICKET_TTL)
  }

  /** What is stored was minted and not used since; what was minted, not used and is not stored has expired. */
  lemma {:induction false} StoreIsUnused(history: seq<Event>, id: string, now: Time)
    requires Timed(history) && forall i :: 0 <= i < |history| ==> history[i].now <= now
    ensures id in StoreAfter(history) ==>
              exists i: nat :: Unused(history, i, id) && StoreAfter(history)[id] == TicketOf(history[i])
    ensures forall i: nat :: Unused(history, i, id) && id !in StoreAfter(history) ==> Expired(TicketOf(history[i]), now)
    decreases |history|
  {
    if history != [] {
      var n := |history| - 1;
      var before, last := history[..n], history[n];
      StoreIsUnused(before, id, last.purgeAt);
      if last.id == id {
        if last.Mint? {
          assert Unused(history, n, id);
        }
      } else {
        if id in StoreAfter(history) {
          var i: nat :| Unused(before, i, id) && StoreAfter(before)[id] == TicketOf(before[i]);
          assert Unused(history, i, id);
        }
        forall i: nat | Unused(history, i, id) && id !in StoreAfter(history)
          ensures Expired(TicketOf(history[i]), now)
        {
          assert Unused(before, i, id);
          if id in StoreAfter(before) {
            var k: nat :| Unused(before, k, id) && StoreAfter(before)[id] == TicketOf(before[k]);
            assert k == i;
          }
        }
      }
    }
  }

  /** Every call clears out: no ticket is stored that had expired when the last call began. */
  lemma StoreIsFresh(history: seq<Event>, id: string)
    requires Timed(history) && history != [] && id in StoreAfter(history)
    ensures StoreAfter(history)[id].expiry >= history[|history| - 1].purgeAt
  {
    var before := StoreAfter(history[..|history| - 1]);
    assert forall t, now :: !Expired(t, now) ==> t.expiry >= now;
  }

  /**
    Over every history, a consume succeeds exactly when its ticket was minted, nothing was done with
    the id since, and the last clock read is at most a minute after the mint; it then returns what was
    minted.  Purging is invisible.
   */
  lemma ConsumeExactly(history: seq<Event>, id: string, purgeAt: Time, now: Time)
    requires Timed(history) && After(history, purgeAt, now)
    ensures var t := Consumed(StoreAfter(history), id, purgeAt, now).1;
            && (t.Some? <==> exists i: nat :: Unused(history, i, id) && now <= history[i].now + 60_000_000_000)
            && (forall i: nat :: Unused(history, i, id) && t.Some? ==>
                  t.value.request == history[i].request && t.value.expiry == history[i].now + 60_000_000_000)
  {
    var store := StoreAfter(history);
    StoreIsUnused(history, id, purgeAt);
    forall i: nat | Unused(history, i, id)
      ensures Consumed(store, id, purgeAt, now).1.Some? <==> now <= history[i].now + TICKET_TTL
      ensures id in store ==> store[id] == TicketOf(history[i])
    {
      if id in store {
        var k: nat :| Unused(history, k, id) && store[id] == TicketOf(history[k]);
        assert k == i;
      }
    }
  }

  /** Two consumes of one id never both succeed unless it was minted again in between. */
  lemma SingleUse(history: seq<Event>, i: nat, id: string, purgeAt: Time, now: Time)
    requires Timed(history) && After(history, purgeAt, now)
    requires i < |history| && history[i].Consume? && history[i].id == id
    requires forall j :: i < j < |history| ==> !(history[j].Mint? && history[j].id == id)
    ensures Consumed(StoreAfter(history), id, purgeAt, now).1 == None
  {
    ConsumeExactly(history, id, purgeAt, now);
    assert forall k: nat :: k < i ==> !Unused(history, k, id);
  }
}
