/**
 * Who a WebSocket upgrade is (ServeHTTP in internal/bridge/server.go): a login ticket first, then the session
 * cookie, then nobody.
 */
module Upgrade {
  import opened Basics
  import opened Tickets

  datatype Session = Session(user: string, expires: Instant, token: string, clientIP: string)

  const NOBODY := Session("", 0, "", "")

  /** `ticket` is the query value ("" when absent); a cookie may be present with an empty value. */
  datatype Request = Request(ticket: string, cookie: Option<string>, clientIP: string)

  datatype Cookie = Cookie(value: string, expires: Instant)

  /** `watched` says whether a revalidation loop is started for the socket. */
  datatype Outcome =
    | Unauthorized
    | Upgraded(session: Session, setCookie: Option<Cookie>, watched: bool)

  /** What the session store says of a token at an instant; it may differ from request to request. */
  type Validator = (string, Instant) -> Option<Session>

  function Enter(s: Session, rawToken: string, req: Request, setCookie: Option<Cookie>): Outcome {
    Upgraded(s.(token := rawToken, clientIP := req.clientIP), setCookie, rawToken != "")
  }

  /** The whole decision, given the ticket table's history. */
  function Serve(enabled: bool, log: seq<Event>, req: Request, now: Instant, validate: Validator): Outcome {
    if enabled && req.ticket != "" then
      match Answer(log, req.ticket, now)
      case None => Unauthorized
      case Some(raw) =>
        match validate(raw, now)
        case None => Unauthorized
        case Some(s) => Enter(s, raw, req, Some(Cookie(raw, s.expires)))
    else if req.cookie.Some? && req.cookie.value != "" then
      match validate(req.cookie.value, now)
      case None => Enter(NOBODY, "", req, None)
      case Some(s) => Enter(s, req.cookie.value, req, None)
    else Enter(NOBODY, "", req, None)
  }

  class Server {
    const tickets: TicketStore?

    constructor (tickets: TicketStore?)
      ensures this.tickets == tickets
    {
      this.tickets := tickets;
    }

    method ServeHTTP(req: Request, now: Instant, validate: Validator) returns (out: Outcome)
      requires tickets != null ==> tickets.Valid()
      modifies if tickets == null then {} else {tickets}
      ensures tickets != null ==> tickets.Valid()
      ensures out == Serve(tickets != null, if tickets == null then [] else old(tickets.log), req, now, validate)
      ensures tickets != null ==>
                tickets.log == old(tickets.log) + if req.ticket == "" then [] else [Presented(req.ticket, now)]
    {
      var session, rawToken, header := NOBODY, "", None;
      if tickets != null && req.ticket != "" {
        var raw := tickets.Redeem(now, req.ticket);
        if raw.None? {
          return Unauthorized;
        }
        var sess := validate(raw.value, now);
        if sess.None? {
          return Unauthorized;
        }
        session, rawToken := sess.value, raw.value;
        header := Some(Cookie(raw.value, sess.value.expires));
      } else if req.cookie.Some? && req.cookie.value != "" {
        var sess := validate(req.cookie.value, now);
        if sess.Some? {
          session, rawToken := sess.value, req.cookie.value;
        }
      }
      session := session.(token := rawToken, clientIP := req.clientIP);
      out := Upgraded(session, header, rawToken != "");
    }
  }

  // ----- What an identity rests on -----

  ghost predicate Authenticated(out: Outcome) { out.Upgraded? && out.session.token != "" }

  /** The token a request puts forward: the one its ticket was issued for, or its cookie. */
  function Claim(enabled: bool, log: seq<Event>, req: Request, now: Instant): Option<string> {
    if enabled && req.ticket != "" then Answer(log, req.ticket, now)
    else if req.cookie == Some("") then None else req.cookie
  }

  /**
   * A socket carries a token exactly when the validator accepted that very token at that instant, and it is
   * then that session; without a token it is nobody. It is watched exactly when it carries one.
   */
  lemma IdentityIsValidated(enabled: bool, log: seq<Event>, req: Request, now: Instant, validate: Validator)
    requires TokensNamed(log)
    ensures
      var out, claim := Serve(enabled, log, req, now, validate), Claim(enabled, log, req, now);
      (Authenticated(out) <==> claim.Some? && validate(claim.value, now).Some?) &&
      (Authenticated(out) ==>
        out.session == validate(claim.value, now).value.(token := claim.value, clientIP := req.clientIP)) &&
      (out.Upgraded? && !Authenticated(out) ==> out.session == NOBODY.(clientIP := req.clientIP)) &&
      (out.Upgraded? ==> (out.watched <==> Authenticated(out)))
  {
    AnswerNamed(log, req.ticket, now);
  }

  /**
   * A cookie is set exactly on an upgrade that redeemed a ticket and was validated, for that session's token;
   * a request is turned away exactly when it brought a ticket and did not get that far.
   */
  lemma CookieOnlyFromTicket(enabled: bool, log: seq<Event>, req: Request, now: Instant, validate: Validator)
    requires TokensNamed(log)
    ensures
      var out := Serve(enabled, log, req, now, validate);
      (out.Upgraded? && out.setCookie.Some? <==> (enabled && req.ticket != "") && Authenticated(out)) &&
      (out.Upgraded? && out.setCookie.Some? ==>
        Answer(log, req.ticket, now) == Some(out.session.token) &&
        out.setCookie == Some(Cookie(out.session.token, out.session.expires))) &&
      (out.Unauthorized? <==> (enabled && req.ticket != "") && !Authenticated(out))
  {
    AnswerNamed(log, req.ticket, now);
  }

  // ----- Any number of upgrades -----

  /** Logins that issued a ticket, and upgrades, in the order the ticket table saw them. */
  datatype Act =
    | Login(ticket: string, token: string, at: Instant)
    | Visit(req: Request, at: Instant, validate: Validator)

  function Table(acts: seq<Act>): seq<Event> {
    if acts == [] then []
    else
      Table(acts[..|acts| - 1]) +
      match acts[|acts| - 1]
      case Login(ticket, token, at) => [Issued(ticket, token, at)]
      case Visit(req, at, _) => if req.ticket == "" then [] else [Presented(req.ticket, at)]
  }

  /** How many upgrades got in by this ticket. */
  ghost function Entries(acts: seq<Act>, ticket: string): nat {
    if acts == [] then 0
    else
      var before, a := acts[..|acts| - 1], acts[|acts| - 1];
      Entries(before, ticket)
        + if a.Visit? && a.req.ticket == ticket && Authenticated(Serve(true, Table(before), a.req, a.at, a.validate))
          then 1 else 0
  }

  lemma {:induction false} EntriesAreRedemptions(acts: seq<Act>, ticket: string)
    requires ticket != ""
    ensures Entries(acts, ticket) <= Redemptions(Table(acts), ticket)
  {
    if acts != [] {
      var before, a := acts[..|acts| - 1], acts[|acts| - 1];
      EntriesAreRedemptions(before, ticket);
      var log := Table(before);
      match a {
        case Login(t, token, at) =>
          assert (log + [Issued(t, token, at)])[..|log|] == log;
        case Visit(req, at, _) =>
          assert log + [] == log;
          assert (log + [Presented(req.ticket, at)])[..|log|] == log;
      }
    }
  }

  /** However many upgrades present one ticket, at most one of them authenticates through it. */
  lemma OneEntryPerTicket(acts: seq<Act>, ticket: string)
    requires ticket != "" && Fresh(Table(acts))
    ensures Entries(acts, ticket) <= 1
  {
    EntriesAreRedemptions(acts, ticket);
    RedeemedAtMostOnce(Table(acts), ticket);
  }
}
