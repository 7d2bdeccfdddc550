/**
 * Spending limits (internal/budget/budget.go): the check made before every model call, and what it
 * guarantees over whole runs of many feeds, many days and many months.
 */
module Budget {
  datatype Limits = Limits(
    feedTokens: int, feedRuns: int, globalTokens: int, globalUSD: real, monthUSD: real, warnPct: real)

  datatype Spend = Spend(tokensIn: int, tokensOut: int, runs: int, usd: real) {
    function Tokens(): int { tokensIn + tokensOut }
  }

  const NOTHING := Spend(0, 0, 0, 0.0)

  datatype Kind = Scheduled | Sample
  datatype Request = Request(kind: Kind, projected: int, usd: real, monthly: Spend)
  datatype Refusal = FeedRunCap | FeedTokenCap | GlobalTokenCap | GlobalUSDCap | MonthlyUSDCap
  datatype Decision = Allow(warn: bool) | Deny(reason: Refusal)

  function Threshold(l: Limits): real { l.warnPct * l.monthUSD }

  predicate Warns(l: Limits) { l.monthUSD > 0.0 && l.warnPct > 0.0 }

  /** Zero disables a cap; the kind of the request is never looked at. */
  function CheckRequest(l: Limits, feed: Spend, global: Spend, req: Request): Decision {
    if l.feedRuns > 0 && feed.runs + 1 > l.feedRuns then Deny(FeedRunCap)
    else if l.feedTokens > 0 && feed.Tokens() + req.projected > l.feedTokens then Deny(FeedTokenCap)
    else if l.globalTokens > 0 && global.Tokens() + req.projected > l.globalTokens then Deny(GlobalTokenCap)
    else if l.globalUSD > 0.0 && global.usd + req.usd > l.globalUSD then Deny(GlobalUSDCap)
    else if l.monthUSD > 0.0 && req.monthly.usd + req.usd > l.monthUSD then Deny(MonthlyUSDCap)
    else Allow(Warns(l) && req.monthly.usd < Threshold(l) <= req.monthly.usd + req.usd)
  }

  /** Whether a call would go over the cap that this refusal names. */
  ghost predicate Over(l: Limits, feed: Spend, global: Spend, req: Request, why: Refusal) {
    match why
    case FeedRunCap => l.feedRuns > 0 && feed.runs >= l.feedRuns
    case FeedTokenCap => l.feedTokens > 0 && feed.tokensIn + feed.tokensOut + req.projected > l.feedTokens
    case GlobalTokenCap => l.globalTokens > 0 && global.tokensIn + global.tokensOut + req.projected > l.globalTokens
    case GlobalUSDCap => l.globalUSD > 0.0 && global.usd + req.usd > l.globalUSD
    case MonthlyUSDCap => l.monthUSD > 0.0 && req.monthly.usd + req.usd > l.monthUSD
  }

  const TIGHTEST_FIRST := [FeedRunCap, FeedTokenCap, GlobalTokenCap, GlobalUSDCap, MonthlyUSDCap]

  /**
   * A call is refused exactly when it would go over some cap, and the refusal names the first such cap in the order
   * feed runs, feed tokens, global tokens, global dollars, monthly dollars.
   */
  lemma RefusalNamesFirst(l: Limits, feed: Spend, global: Spend, req: Request)
    ensures
      var d := CheckRequest(l, feed, global, req);
      && (d.Allow? <==> forall i | 0 <= i < 5 :: !Over(l, feed, global, req, TIGHTEST_FIRST[i]))
      && (d.Deny? ==> exists i | 0 <= i < 5 ::
            && d.reason == TIGHTEST_FIRST[i] && Over(l, feed, global, req, TIGHTEST_FIRST[i])
            && forall j | 0 <= j < i :: !Over(l, feed, global, req, TIGHTEST_FIRST[j]))
  {
    var d := CheckRequest(l, feed, global, req);
    if d.Deny? {
      var i := match d.reason
        case FeedRunCap => 0
        case FeedTokenCap => 1
        case GlobalTokenCap => 2
        case GlobalUSDCap => 3
        case MonthlyUSDCap => 4;
      assert d.reason == TIGHTEST_FIRST[i] && Over(l, feed, global, req, TIGHTEST_FIRST[i]);
    }
  }
}

/** The record of allowed calls, and the totals the check is given. */
module SpendLog {
  import opened Budget

  /** One recorded call: the feed that made it and the UTC day and month it is booked in. */
  datatype Entry = Entry(feed: int, day: int, month: int, tokensIn: nat, tokensOut: nat, usd: real)

  /** `From` scopes are what the store sums (everything since a boundary); `On` scopes are one window exactly. */
  datatype Scope =
    | FeedFrom(feed: int, day: int) | AllFrom(day: int) | MonthFrom(month: int)
    | FeedOn(feed: int, day: int) | AllOn(day: int) | MonthOn(month: int)

  predicate Covers(s: Scope, e: Entry) {
    match s
    case FeedFrom(f, d) => e.feed == f && e.day >= d
    case AllFrom(d) => e.day >= d
    case MonthFrom(m) => e.month >= m
    case FeedOn(f, d) => e.feed == f && e.day == d
    case AllOn(d) => e.day == d
    case MonthOn(m) => e.month == m
  }

  function Add(t: Spend, e: Entry): Spend {
    Spend(t.tokensIn + e.tokensIn, t.tokensOut + e.tokensOut, t.runs + 1, t.usd + e.usd)
  }

  function Total(log: seq<Entry>, s: Scope): Spend {
    if log == [] then NOTHING
    else
      var t := Total(log[..|log| - 1], s);
      var e := log[|log| - 1];
      if Covers(s, e) then Add(t, e) else t
  }

  ghost predicate Sound(log: seq<Entry>) { forall e | e in log :: e.usd >= 0.0 }

  predicate AtMost(a: Spend, b: Spend) {
    a.Tokens() <= b.Tokens() && a.runs <= b.runs && a.usd <= b.usd
  }

  /** What one more entry adds to each total the checks are given. */
  lemma TotalCounts(log: seq<Entry>, e: Entry, feed: int, day: int, month: int)
    ensures forall s :: Total([], s) == Spend(0, 0, 0, 0.0)
    ensures
      var all, one, mon := Total(log, AllFrom(day)), Total(log, FeedFrom(feed, day)), Total(log, MonthFrom(month));
      var all', one', mon' := Total(log + [e], AllFrom(day)), Total(log + [e], FeedFrom(feed, day)), Total(log + [e], MonthFrom(month));
      && all'.usd == all.usd + (if e.day >= day then e.usd else 0.0)
      && all'.Tokens() == all.Tokens() + (if e.day >= day then e.tokensIn + e.tokensOut else 0)
      && one'.Tokens() == one.Tokens() + (if e.feed == feed && e.day >= day then e.tokensIn + e.tokensOut else 0)
      && one'.runs == one.runs + (if e.feed == feed && e.day >= day then 1 else 0)
      && mon'.usd == mon.usd + (if e.month >= month then e.usd else 0.0)
    ensures
      var all, one, mon := Total(log, AllOn(day)), Total(log, FeedOn(feed, day)), Total(log, MonthOn(month));
      var all', one', mon' := Total(log + [e], AllOn(day)), Total(log + [e], FeedOn(feed, day)), Total(log + [e], MonthOn(month));
      && all'.usd == all.usd + (if e.day == day then e.usd else 0.0)
      && all'.Tokens() == all.Tokens() + (if e.day == day then e.tokensIn + e.tokensOut else 0)
      && one'.Tokens() == one.Tokens() + (if e.feed == feed && e.day == day then e.tokensIn + e.tokensOut else 0)
      && one'.runs == one.runs + (if e.feed == feed && e.day == day then 1 else 0)
      && mon'.usd == mon.usd + (if e.month == month then e.usd else 0.0)
  {
    assert (log + [e])[..|log|] == log;
  }

  lemma {:induction false} WindowAtMostSince(log: seq<Entry>, feed: int, day: int, month: int)
    requires Sound(log)
    ensures AtMost(Total(log, FeedOn(feed, day)), Total(log, FeedFrom(feed, day)))
    ensures AtMost(Total(log, AllOn(day)), Total(log, AllFrom(day)))
    ensures AtMost(Total(log, MonthOn(month)), Total(log, MonthFrom(month)))
  {
    if log != [] {
      var e := log[|log| - 1];
      assert e in log;
      WindowAtMostSince(log[..|log| - 1], feed, day, month);
    }
  }

  /** With a clock that has not gone past `month`, the two month totals are the same. */
  lemma {:induction false} MonthSinceIsMonth(log: seq<Entry>, month: int)
    requires forall e | e in log :: e.month <= month
    ensures Total(log, MonthFrom(month)) == Total(log, MonthOn(month))
  {
    if log != [] {
      var e := log[|log| - 1];
      assert e in log;
      MonthSinceIsMonth(log[..|log| - 1], month);
    }
  }

  lemma {:induction false} DaySinceIsDay(log: seq<Entry>, feed: int, day: int)
    requires forall e | e in log :: e.day <= day
    ensures Total(log, FeedFrom(feed, day)) == Total(log, FeedOn(feed, day))
    ensures Total(log, AllFrom(day)) == Total(log, AllOn(day))
  {
    if log != [] {
      var e := log[|log| - 1];
      assert e in log;
      DaySinceIsDay(log[..|log| - 1], feed, day);
    }
  }
}

/** Whole runs of checked calls. */
module Caps {
  import opened Budget
  import opened SpendLog

  /** One configuration: caps per feed, and the caps over every feed. */
  datatype Policy = Policy(
    feedTokens: int -> int, feedRuns: int -> int, globalTokens: int, globalUSD: real, monthUSD: real, warnPct: real)
  {
    function For(feed: int): Limits {
      Limits(feedTokens(feed), feedRuns(feed), globalTokens, globalUSD, monthUSD, warnPct)
    }
  }

  /** A prospective call, with what it would record if allowed. */
  datatype Call = Call(kind: Kind, projected: int, estimate: real, books: Entry)

  function Ask(p: Policy, log: seq<Entry>, c: Call): Decision {
    CheckRequest(p.For(c.books.feed),
                 Total(log, FeedFrom(c.books.feed, c.books.day)),
                 Total(log, AllFrom(c.books.day)),
                 Request(c.kind, c.projected, c.estimate, Total(log, MonthFrom(c.books.month))))
  }

  function Log(p: Policy, calls: seq<Call>): seq<Entry> {
    if calls == [] then []
    else
      var log := Log(p, calls[..|calls| - 1]);
      var c := calls[|calls| - 1];
      if Ask(p, log, c).Allow? then log + [c.books] else log
  }

  /** The call records no more than it projected. */
  predicate Honest(c: Call) {
    c.books.tokensIn + c.books.tokensOut <= c.projected && 0.0 <= c.books.usd <= c.estimate
  }

  ghost predicate FeedCapKept(p: Policy, log: seq<Entry>, feed: int, day: int) {
    var t := Total(log, FeedOn(feed, day));
    (p.feedRuns(feed) > 0 ==> t.runs <= p.feedRuns(feed)) &&
    (p.feedTokens(feed) > 0 ==> t.Tokens() <= p.feedTokens(feed))
  }

  ghost predicate DayCapKept(p: Policy, log: seq<Entry>, day: int) {
    var t := Total(log, AllOn(day));
    (p.globalTokens > 0 ==> t.Tokens() <= p.globalTokens) &&
    (p.globalUSD > 0.0 ==> t.usd <= p.globalUSD)
  }

  ghost predicate MonthCapKept(p: Policy, log: seq<Entry>, month: int) {
    p.monthUSD > 0.0 ==> Total(log, MonthOn(month)).usd <= p.monthUSD
  }

  lemma {:induction false} LogSound(p: Policy, calls: seq<Call>)
    requires forall c | c in calls :: Honest(c)
    ensures Sound(Log(p, calls))
  {
    hide Ask;
    if calls != [] {
      assert calls[|calls| - 1] in calls;
      LogSound(p, calls[..|calls| - 1]);
    }
  }

  lemma TotalSnoc(log: seq<Entry>, e: Entry, s: Scope)
    ensures Total(log + [e], s) == if Covers(s, e) then Add(Total(log, s), e) else Total(log, s)
  {
    assert (log + [e])[..|log|] == log;
  }

  lemma NothingKept(p: Policy, feed: int, day: int, month: int)
    ensures FeedCapKept(p, [], feed, day) && DayCapKept(p, [], day) && MonthCapKept(p, [], month)
  {
  }

  lemma CallKeepsFeedCap(p: Policy, log: seq<Entry>, c: Call, feed: int, day: int)
    requires FeedCapKept(p, log, feed, day) && Sound(log) && Honest(c) && Ask(p, log, c).Allow?
    ensures FeedCapKept(p, log + [c.books], feed, day)
  {
    hide Total;
    WindowAtMostSince(log, feed, day, c.books.month);
    TotalSnoc(log, c.books, FeedOn(feed, day));
  }

  lemma CallKeepsDayCap(p: Policy, log: seq<Entry>, c: Call, day: int)
    requires DayCapKept(p, log, day) && Sound(log) && Honest(c) && Ask(p, log, c).Allow?
    ensures DayCapKept(p, log + [c.books], day)
  {
    hide Total;
    WindowAtMostSince(log, c.books.feed, day, c.books.month);
    TotalSnoc(log, c.books, AllOn(day));
  }

  lemma CallKeepsMonthCap(p: Policy, log: seq<Entry>, c: Call, month: int)
    requires MonthCapKept(p, log, month) && Sound(log) && Honest(c) && Ask(p, log, c).Allow?
    ensures MonthCapKept(p, log + [c.books], month)
  {
    hide Total;
    WindowAtMostSince(log, c.books.feed, c.books.day, month);
    TotalSnoc(log, c.books, MonthOn(month));
  }

  /**
   * Every non-zero cap holds over any run: whatever the number of feeds, the mix of kinds, and the days
   * and months the calls are booked in (the clock may even go back), for every feed, day and month.
   */
  lemma {:induction false} CapsHold(p: Policy, calls: seq<Call>, feed: int, day: int, month: int)
    requires forall c | c in calls :: Honest(c)
    ensures FeedCapKept(p, Log(p, calls), feed, day)
    ensures DayCapKept(p, Log(p, calls), day)
    ensures MonthCapKept(p, Log(p, calls), month)
  {
    hide FeedCapKept, DayCapKept, MonthCapKept, Ask;
    if calls == [] {
      NothingKept(p, feed, day, month);
    } else {
      var c, log := calls[|calls| - 1], Log(p, calls[..|calls| - 1]);
      assert c in calls;
      CapsHold(p, calls[..|calls| - 1], feed, day, month);
      LogSound(p, calls[..|calls| - 1]);
      if Ask(p, log, c).Allow? {
        CallKeepsFeedCap(p, log, c, feed, day);
        CallKeepsDayCap(p, log, c, day);
        CallKeepsMonthCap(p, log, c, month);
      }
    }
  }

  /**
   * No call is refused needlessly: while the clock runs forward, a call that would book exactly its
   * projection is allowed if and only if every cap still holds with it on the books.
   */
  lemma AllowedIffCapsStillHold(p: Policy, log: seq<Entry>, c: Call)
    requires c.books.tokensIn + c.books.tokensOut == c.projected && c.books.usd == c.estimate
    requires forall e | e in log :: e.day <= c.books.day && e.month <= c.books.month
    ensures
      var after := log + [c.books];
      Ask(p, log, c).Allow? <==>
        FeedCapKept(p, after, c.books.feed, c.books.day) && DayCapKept(p, after, c.books.day) &&
        MonthCapKept(p, after, c.books.month)
  {
    hide Total;
    DaySinceIsDay(log, c.books.feed, c.books.day);
    MonthSinceIsMonth(log, c.books.month);
    TotalSnoc(log, c.books, FeedOn(c.books.feed, c.books.day));
    TotalSnoc(log, c.books, AllOn(c.books.day));
    TotalSnoc(log, c.books, MonthOn(c.books.month));
  }

  // ----- The warning -----

  /** How many calls booked in `month` were allowed with a warning. */
  function Warnings(p: Policy, calls: seq<Call>, month: int): nat {
    if calls == [] then 0
    else
      var c := calls[|calls| - 1];
      Warnings(p, calls[..|calls| - 1], month)
        + if c.books.month == month && Ask(p, Log(p, calls[..|calls| - 1]), c) == Allow(true) then 1 else 0
  }

  /** Whether the warning is configured and the month's recorded spend has reached it. */
  ghost predicate Reached(p: Policy, log: seq<Entry>, month: int) {
    p.monthUSD > 0.0 && p.warnPct > 0.0 && Total(log, MonthOn(month)).usd >= p.warnPct * p.monthUSD
  }

  ghost predicate ForwardMonths(calls: seq<Call>) {
    forall i, j | 0 <= i < j < |calls| :: calls[i].books.month <= calls[j].books.month
  }

  lemma {:induction false} LogMonths(p: Policy, calls: seq<Call>, month: int)
    requires forall c | c in calls :: c.books.month <= month
    ensures forall e | e in Log(p, calls) :: e.month <= month
  {
    hide Ask;
    if calls != [] {
      assert calls[|calls| - 1] in calls;
      LogMonths(p, calls[..|calls| - 1], month);
    }
  }

  lemma PositiveThreshold(l: Limits)
    requires Warns(l)
    ensures Threshold(l) > 0.0
  {
  }

  lemma NotReachedYet(p: Policy, month: int)
    ensures !Reached(p, [], month)
  {
    if Warns(p.For(0)) { PositiveThreshold(p.For(0)); }
  }

  /** A call that books its estimate warns exactly when it carries its own month over the threshold. */
  lemma CallCrosses(p: Policy, log: seq<Entry>, c: Call, month: int)
    requires c.books.usd == c.estimate >= 0.0
    requires forall e | e in log :: e.month <= c.books.month
    ensures
      var ok, warned := Ask(p, log, c).Allow?, c.books.month == month && Ask(p, log, c) == Allow(true);
      var after := if ok then log + [c.books] else log;
      (Reached(p, log, month) ==> Reached(p, after, month) && !warned) &&
      (!Reached(p, log, month) ==> (Reached(p, after, month) <==> warned))
  {
    hide Total;
    TotalSnoc(log, c.books, MonthOn(month));
    MonthSinceIsMonth(log, c.books.month);
  }

  /** A month warns exactly once if its spend reaches the threshold, and never otherwise. */
  lemma {:induction false} WarnsExactlyOnce(p: Policy, calls: seq<Call>, month: int)
    requires ForwardMonths(calls)
    requires forall c | c in calls :: c.books.usd == c.estimate >= 0.0
    ensures Warnings(p, calls, month) == if Reached(p, Log(p, calls), month) then 1 else 0
  {
    hide Ask, Reached;
    if calls == [] {
      NotReachedYet(p, month);
    } else {
      var before, c := calls[..|calls| - 1], calls[|calls| - 1];
      assert c in calls;
      WarnsExactlyOnce(p, before, month);
      LogMonths(p, before, c.books.month);
      CallCrosses(p, Log(p, before), c, month);
    }
  }

  /**
   * After a warning, an allowed call of the same month warns again exactly when the month's recorded spend is still
   * below the threshold, because less was booked than estimated, and its own estimate reaches it.
   */
  lemma WarnsAgainIff(p: Policy, log: seq<Entry>, first: Call, next: Call)
    requires Ask(p, log, first) == Allow(true) && next.books.month == first.books.month
    requires forall e | e in log :: e.month <= first.books.month
    requires Ask(p, log + [first.books], next).Allow?
    ensures
      var booked, line := Total(log + [first.books], MonthOn(first.books.month)).usd, p.warnPct * p.monthUSD;
      Ask(p, log + [first.books], next) == Allow(true) <==> booked < line <= booked + next.estimate
  {
    hide Total;
    MonthSinceIsMonth(log + [first.books], first.books.month);
  }

  /** It does happen, to calls that keep every cap: one that books less than its estimate warns a second time. */
  lemma EstimateGapWarnsAgain()
    ensures
      var p := Policy(_ => 0, _ => 0, 0, 0.0, 10.0, 0.5);
      var c := Call(Scheduled, 0, 6.0, Entry(1, 1, 1, 0, 0, 1.0));
      Honest(c) && Warnings(p, [c, c], 1) == 2
  {
    var p := Policy(_ => 0, _ => 0, 0, 0.0, 10.0, 0.5);
    var c := Call(Scheduled, 0, 6.0, Entry(1, 1, 1, 0, 0, 1.0));
    assert [c, c][..1] == [c] && [c][..0] == [];
    assert Log(p, []) == [] && Ask(p, [], c) == Allow(true);
    assert Log(p, [c]) == [c.books];
    TotalSnoc([], c.books, MonthFrom(1));
    assert [] + [c.books] == [c.books];
    assert Warnings(p, [c], 1) == 1;
  }
}
