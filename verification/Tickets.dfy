/** Login tickets (internal/bridge/ticket.go): single use, twenty seconds, hashed at rest. */
module Tickets {
  import opened Basics

  const TTL := 20 * SECOND

  /** Thirty-two random bytes in unpadded base64. */
  const TICKET_CHARS := 43

  datatype Entry = Entry(token: string, expires: Instant)

  /** What happened to the table, in the order its lock was taken. */
  datatype Event =
    | Issued(ticket: string, token: string, at: Instant)
    | Presented(ticket: string, at: Instant)

  // ----- What a history says about a ticket -----

  /** The entry a history leaves for a ticket: its last event decides. */
  function Live(log: seq<Event>, ticket: string): Option<Entry> {
    if log == [] then None
    else
      var e := log[|log| - 1];
      if e.ticket != ticket then Live(log[..|log| - 1], ticket)
      else if e.Issued? then Some(Entry(e.token, e.at + TTL)) else None
  }

  /** The session token that presenting a ticket yields. */
  function Answer(log: seq<Event>, ticket: string, now: Instant): Option<string> {
    match Live(log, ticket)
    case Some(e) => if ticket != "" && now < e.expires then Some(e.token) else None
    case None => None
  }

  ghost predicate TokensNamed(log: seq<Event>) {
    forall e | e in log :: e.Issued? ==> e.token != ""
  }

  /** Random tickets: the value issued at `i` was never seen before. */
  ghost predicate Fresh(log: seq<Event>) {
    forall i, j | 0 <= j < i < |log| :: log[i].Issued? ==> log[j].ticket != log[i].ticket
  }

  ghost predicate IssuedFor(log: seq<Event>, ticket: string, token: string, at: Instant) {
    Issued(ticket, token, at) in log
  }

  ghost predicate EverPresented(log: seq<Event>, ticket: string) {
    exists e | e in log :: e.Presented? && e.ticket == ticket
  }

  /** The table. `log` is the history of its critical sections. */
  class TicketStore {
    const hash: string -> string
    var m: map<string, Entry>
    ghost var log: seq<Event>

    ghost predicate Valid()
      reads this
    {
      (forall a, b :: hash(a) == hash(b) ==> a == b) &&
      (forall t :: hash(t) in m <==> Live(log, t).Some?) &&
      (forall t | hash(t) in m :: Some(m[hash(t)]) == Live(log, t)) &&
      TokensNamed(log)
    }

    constructor (hash: string -> string)
      requires forall a, b :: hash(a) == hash(b) ==> a == b
      ensures Valid() && log == [] && this.hash == hash
    {
      this.hash := hash;
      m := map[];
      log := [];
    }

    /** `random` is the fresh ticket, or None when the random source fails. */
    method Issue(now: Instant, token: string, random: Option<string>) returns (r: Option<(string, Instant)>)
      requires Valid() && (random.Some? ==> |random.value| == TICKET_CHARS)
      modifies this
      ensures Valid()
      ensures r.Some? <==> token != "" && random.Some?
      ensures r.Some? ==> r.value == (random.value, now + 20_000_000_000) && log == old(log) + [Issued(random.value, token, now)]
      ensures r.None? ==> log == old(log) && m == old(m)
    {
      if token == "" || random.None? {
        return None;
      }
      var expires := now + TTL;
      m := m[hash(random.value) := Entry(token, expires)];
      log := log + [Issued(random.value, token, now)];
      assert log[..|log| - 1] == old(log);
      return Some((random.value, expires));
    }

    /** Looks the ticket up and deletes it in one critical section. */
    method Redeem(now: Instant, ticket: string) returns (token: Option<string>)
      requires Valid()
      modifies this
      ensures Valid()
      ensures token == Answer(old(log), ticket, now)
      ensures log == old(log) + if ticket == "" then [] else [Presented(ticket, now)]
    {
      if ticket == "" {
        return None;
      }
      var key := hash(ticket);
      var found := if key in m then Some(m[key]) else None;
      if found.Some? {
        m := m - {key};
      }
      log := log + [Presented(ticket, now)];
      assert log[..|log| - 1] == old(log);
      if found.None? || !(now < found.value.expires) {
        return None;
      }
      return Some(found.value.token);
    }
  }

  // ----- Whole histories -----

  lemma {:induction false} LiveIsIssued(log: seq<Event>, ticket: string)
    ensures Live(log, ticket).Some? ==>
              var e := Live(log, ticket).value; IssuedFor(log, ticket, e.token, e.expires - TTL)
  {
    if log != [] {
      LiveIsIssued(log[..|log| - 1], ticket);
    }
  }

  lemma {:induction false} FreshLive(log: seq<Event>, ticket: string, token: string, at: Instant)
    requires Fresh(log) && IssuedFor(log, ticket, token, at)
    ensures Live(log, ticket) == if EverPresented(log, ticket) then None else Some(Entry(token, at + TTL))
  {
    var before, e := log[..|log| - 1], log[|log| - 1];
    assert log == before + [e];
    if e.ticket != ticket {
      FreshLive(before, ticket, token, at);
    } else if e.Issued? {
      assert Issued(ticket, token, at) !in before;
    }
  }

  /**
   * With fresh tickets, presenting one succeeds exactly when it was issued less than twenty seconds ago and
   * was never presented before, and it yields the session token it was issued for.
   */
  lemma RedeemExactly(log: seq<Event>, ticket: string, now: Instant, token: string)
    requires Fresh(log)
    ensures Answer(log, ticket, now) == Some(token) <==>
            ticket != "" && !EverPresented(log, ticket) &&
            exists at :: IssuedFor(log, ticket, token, at) && now < at + 20_000_000_000
  {
    if Live(log, ticket).Some? {
      var e := Live(log, ticket).value;
      LiveIsIssued(log, ticket);
      FreshLive(log, ticket, e.token, e.expires - TTL);
    }
    forall at | IssuedFor(log, ticket, token, at)
      ensures Live(log, ticket) == if EverPresented(log, ticket) then None else Some(Entry(token, at + TTL))
    {
      FreshLive(log, ticket, token, at);
    }
  }

  lemma AnswerNamed(log: seq<Event>, ticket: string, now: Instant)
    requires TokensNamed(log)
    ensures Answer(log, ticket, now) != Some("")
  {
    LiveIsIssued(log, ticket);
  }

  function Issues(log: seq<Event>, ticket: string): nat {
    if log == [] then 0
    else Issues(log[..|log| - 1], ticket)
           + if log[|log| - 1].Issued? && log[|log| - 1].ticket == ticket then 1 else 0
  }

  /** How many presentations of the ticket succeeded. */
  function Redemptions(log: seq<Event>, ticket: string): nat {
    if log == [] then 0
    else
      var before, e := log[..|log| - 1], log[|log| - 1];
      Redemptions(before, ticket)
        + if e.Presented? && e.ticket == ticket && Answer(before, ticket, e.at).Some? then 1 else 0
  }

  /** Every redemption uses up an issue, whatever the values drawn. */
  lemma {:induction false} RedemptionsUseIssues(log: seq<Event>, ticket: string)
    ensures Redemptions(log, ticket) + (if Live(log, ticket).Some? then 1 else 0) <= Issues(log, ticket)
  {
    if log != [] {
      RedemptionsUseIssues(log[..|log| - 1], ticket);
    }
  }

  lemma {:induction false} FreshIssuedOnce(log: seq<Event>, ticket: string)
    requires Fresh(log)
    ensures Issues(log, ticket) <= 1
    ensures (forall e | e in log :: e.ticket != ticket) ==> Issues(log, ticket) == 0
  {
    if log != [] {
      var before, e := log[..|log| - 1], log[|log| - 1];
      assert e in log && forall x | x in before :: x in log;
      FreshIssuedOnce(before, ticket);
    }
  }

  lemma RedeemedAtMostOnce(log: seq<Event>, ticket: string)
    requires Fresh(log)
    ensures Redemptions(log, ticket) <= 1
  {
    RedemptionsUseIssues(log, ticket);
    FreshIssuedOnce(log, ticket);
  }
}
