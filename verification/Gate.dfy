/**
 * The production gate (genGate.Allowed in cmd/animefeedflux/wire.go) and the scheduler around it
 * (internal/schedule/runner.go): many feeds admitted, started and settled in any order, while manual runs and
 * previews, which never ask this gate, book into the same totals.
 *
 * The gate asks about a call of zero tokens and zero cost, so it refuses only once recorded spend is
 * above a ceiling, and a run is recorded when it settles. What that guarantees is a bounded overshoot.
 */
module Gate {
  import opened Basics
  import opened Budget
  import opened SpendLog

  /** The ceilings over every feed; per-feed budgets are read from each feed's recipe. */
  datatype Ceilings = Ceilings(dailyTokens: int, dailyUSD: real, monthlyUSD: real)
  datatype FeedBudget = FeedBudget(dailyTokens: int, dailyRuns: int)

  /**
   * What the gate looks up besides spend: the generation switch, the feed's row with its own switch, its recipe
   * with its budgets, and today's run count. None is a lookup that failed.
   */
  datatype Lookups = Lookups(
    generation: Option<bool>, feedEnabled: Option<bool>, budget: Option<FeedBudget>, runsToday: Option<int>,
    spendReads: bool)

  /** The UTC day and month a run row was started in. */
  datatype Stamp = Stamp(day: int, month: int)

  /**
   * `queued` runs passed the gate and wait for a worker. The gate reads the totals without a lock, and the feed is
   * marked running after that; a run counts as queued from that read on, which only the scheduler's one goroutine
   * makes. `running` ones have a row stamped with their
   * start; `log` holds everything the spend totals sum. `aside` is the part of it that never asked the gate.
   */
  datatype State = State(now: Stamp, queued: set<int>, running: map<int, Stamp>, log: seq<Entry>, aside: seq<Entry>)

  datatype Step =
    | Admit(feed: int, lookups: Lookups)
    | Start(feed: int)
    | Drop(feed: int)  // a queued run that never starts
    | Settle(feed: int, tokensIn: nat, tokensOut: nat, usd: real)
    | Outside(feed: int, at: Stamp, tokensIn: nat, tokensOut: nat, usd: real)  // a manual run or a preview
    | Midnight(newMonth: bool)

  const BOOT := State(Stamp(0, 0), {}, map[], [], [])

  function Allowed(c: Ceilings, s: State, feed: int, look: Lookups): bool {
    match look
    case Lookups(Some(true), Some(true), Some(budget), Some(runsToday), true) =>
      var month := if c.monthlyUSD > 0.0 then Total(s.log, MonthFrom(s.now.month)) else NOTHING;
      CheckRequest(Limits(budget.dailyTokens, budget.dailyRuns, c.dailyTokens, c.dailyUSD, c.monthlyUSD, 0.0),
                   Total(s.log, FeedFrom(feed, s.now.day)).(runs := runsToday),
                   Total(s.log, AllFrom(s.now.day)),
                   Request(Scheduled, 0, 0.0, month)).Allow?
    case _ => false
  }

  predicate NotAfter(at: Stamp, now: Stamp) { at.day <= now.day && at.month <= now.month }

  /** One step. A refused admission, and a step that cannot happen now, change nothing. */
  function Apply(jobs: set<int>, c: Ceilings, s: State, step: Step): State {
    match step
    case Admit(f, look) =>
      if f in jobs && f !in s.queued && f !in s.running && Allowed(c, s, f, look)
      then s.(queued := s.queued + {f}) else s
    case Start(f) =>
      if f in s.queued && f !in s.running
      then s.(queued := s.queued - {f}, running := s.running[f := s.now]) else s
    case Drop(f) => s.(queued := s.queued - {f})
    case Settle(f, tin, tout, usd) =>
      if f in s.running
      then s.(running := s.running - {f},
              log := s.log + [Entry(f, s.running[f].day, s.running[f].month, tin, tout, usd)])
      else s
    case Outside(f, at, tin, tout, usd) =>
      if NotAfter(at, s.now)
      then
        var e := Entry(f, at.day, at.month, tin, tout, usd);
        s.(log := s.log + [e], aside := s.aside + [e])
      else s
    case Midnight(newMonth) =>
      s.(now := Stamp(s.now.day + 1, s.now.month + if newMonth then 1 else 0))
  }

  function After(jobs: set<int>, c: Ceilings, steps: seq<Step>): State {
    if steps == [] then BOOT else Apply(jobs, c, After(jobs, c, steps[..|steps| - 1]), steps[|steps| - 1])
  }

  // ----- The three ceilings, as one -----

  datatype Ceiling = DailyTokens | DailyUSD | MonthlyUSD

  function Cap(c: Ceilings, k: Ceiling): real {
    match k
    case DailyTokens => c.dailyTokens as real
    case DailyUSD => c.dailyUSD
    case MonthlyUSD => c.monthlyUSD
  }

  /** The window of `k` that a stamp falls in. */
  function Slot(k: Ceiling, at: Stamp): int { if k.MonthlyUSD? then at.month else at.day }

  function Recorded(k: Ceiling, log: seq<Entry>, slot: int): real {
    match k
    case DailyTokens => Total(log, AllOn(slot)).Tokens() as real
    case DailyUSD => Total(log, AllOn(slot)).usd
    case MonthlyUSD => Total(log, MonthOn(slot)).usd
  }

  /** What one run costs against `k`. */
  function Weight(k: Ceiling, tokensIn: nat, tokensOut: nat, usd: real): real {
    if k.DailyTokens? then (tokensIn + tokensOut) as real else usd
  }

  function RunningIn(k: Ceiling, s: State, slot: int): set<int> {
    set f | f in s.running && Slot(k, s.running[f]) == slot
  }

  /** The admitted runs that may still be booked in `slot`: those started in it, and while it is current the queue. */
  function InFlight(k: Ceiling, s: State, slot: int): set<int> {
    RunningIn(k, s, slot) + if slot == Slot(k, s.now) then s.queued else {}
  }

  // ----- What every step keeps -----

  /** Single flight, and no row from the future. */
  ghost predicate Orderly(jobs: set<int>, s: State) {
    s.queued <= jobs && s.running.Keys <= jobs && s.queued !! s.running.Keys &&
    (forall f | f in s.running :: NotAfter(s.running[f], s.now)) &&
    (forall e | e in s.log :: NotAfter(Stamp(e.day, e.month), s.now))
  }

  /** All runs in the air. */
  function InAir(s: State): set<int> { s.queued + s.running.Keys }

  ghost predicate Bounded(c: Ceilings, k: Ceiling, room: nat, each: real, s: State, slot: int) {
    Recorded(k, s.log, slot) + |InFlight(k, s, slot)| as real * each
      <= Cap(c, k) + room as real * each + Recorded(k, s.aside, slot)
  }

  /** One gated run costs at most `each`, and nothing that is booked outside is negative. */
  ghost predicate Affordable(k: Ceiling, each: real, step: Step) {
    (step.Settle? ==> 0.0 <= Weight(k, step.tokensIn, step.tokensOut, step.usd) <= each) &&
    (step.Outside? ==> 0.0 <= Weight(k, step.tokensIn, step.tokensOut, step.usd))
  }

  lemma StepOrderly(jobs: set<int>, c: Ceilings, s: State, step: Step)
    requires Orderly(jobs, s)
    ensures Orderly(jobs, Apply(jobs, c, s, step))
  {
    hide Allowed;
  }

  lemma SubsetSize(a: set<int>, b: set<int>)
    requires a <= b
    ensures |a| <= |b|
  {
    assert b == a + (b - a) && a * (b - a) == {};
  }

  lemma Scale(a: nat, b: nat, each: real)
    requires a <= b && each >= 0.0
    ensures a as real * each <= b as real * each
  {
  }

  /** More recorded is allowed only where fewer are in flight. */
  lemma Shrinks(c: Ceilings, k: Ceiling, room: nat, each: real, s: State, t: State, slot: int)
    requires Bounded(c, k, room, each, s, slot) && each >= 0.0
    requires t.log == s.log && t.aside == s.aside && InFlight(k, t, slot) <= InFlight(k, s, slot)
    ensures Bounded(c, k, room, each, t, slot)
  {
    hide Recorded, InFlight, Cap;
    SubsetSize(InFlight(k, t, slot), InFlight(k, s, slot));
    Scale(|InFlight(k, t, slot)|, |InFlight(k, s, slot)|, each);
  }

  /**
   * The gate's decision: a feed is admitted exactly when every lookup succeeds, both switches are on, its own
   * budgets allow another run, and recorded spend is not above any ceiling that is set.
   */
  lemma AllowedExactly(c: Ceilings, s: State, feed: int, look: Lookups)
    requires forall e | e in s.log :: NotAfter(Stamp(e.day, e.month), s.now)
    ensures Allowed(c, s, feed, look) <==>
            && look.generation == Some(true) && look.feedEnabled == Some(true) && look.spendReads
            && look.budget.Some? && look.runsToday.Some?
            && (look.budget.value.dailyRuns > 0 ==> look.runsToday.value < look.budget.value.dailyRuns)
            && (look.budget.value.dailyTokens > 0 ==>
                  Total(s.log, FeedOn(feed, s.now.day)).Tokens() <= look.budget.value.dailyTokens)
            && forall k: Ceiling | Cap(c, k) > 0.0 :: Recorded(k, s.log, Slot(k, s.now)) <= Cap(c, k)
  {
    hide Total;
    DaySinceIsDay(s.log, feed, s.now.day);
    MonthSinceIsMonth(s.log, s.now.month);
    assert Cap(c, DailyTokens) == c.dailyTokens as real && Cap(c, DailyUSD) == c.dailyUSD && Cap(c, MonthlyUSD) == c.monthlyUSD;
  }

  lemma InFlightInAir(k: Ceiling, s: State, slot: int)
    ensures |InFlight(k, s, slot)| <= |InAir(s)|
  {
    SubsetSize(InFlight(k, s, slot), InAir(s));
  }

  lemma InAirAreJobs(jobs: set<int>, s: State)
    requires Orderly(jobs, s)
    ensures |InAir(s)| <= |jobs|
  {
    SubsetSize(InAir(s), jobs);
  }

  /** Nothing booked outside is negative. */
  ghost predicate AsideSound(k: Ceiling, s: State) {
    forall e | e in s.aside :: Weight(k, e.tokensIn, e.tokensOut, e.usd) >= 0.0
  }

  lemma {:induction false} SoundIsPositive(k: Ceiling, log: seq<Entry>, slot: int)
    requires forall e | e in log :: Weight(k, e.tokensIn, e.tokensOut, e.usd) >= 0.0
    ensures Recorded(k, log, slot) >= 0.0
  {
    hide Recorded, Weight;
    if log == [] {
      NothingRecorded(k, log, slot);
    } else {
      var init, e := log[..|log| - 1], log[|log| - 1];
      assert log == init + [e] && e in log;
      SoundIsPositive(k, init, slot);
      Books(k, init, e, slot);
    }
  }

  lemma FullHouse(c: Ceilings, k: Ceiling, room: nat, each: real, s: State, slot: int)
    requires |InAir(s)| <= room && each >= 0.0 && Recorded(k, s.log, slot) <= Cap(c, k) && AsideSound(k, s)
    ensures Bounded(c, k, room, each, s, slot)
  {
    hide Recorded, InFlight, Cap, InAir;
    InFlightInAir(k, s, slot);
    Scale(|InFlight(k, s, slot)|, room, each);
    SoundIsPositive(k, s.aside, slot);
    AddUp(Recorded(k, s.log, slot), Cap(c, k), |InFlight(k, s, slot)| as real * each, room as real * each,
          Recorded(k, s.aside, slot));
  }

  lemma AddUp(a: real, b: real, x: real, y: real, z: real)
    requires a <= b && x <= y && z >= 0.0
    ensures a + x <= b + y + z
  {
  }

  lemma {:induction false} NothingRecorded(k: Ceiling, log: seq<Entry>, slot: int)
    requires forall e | e in log :: Slot(k, Stamp(e.day, e.month)) < slot
    ensures Recorded(k, log, slot) == 0.0
  {
    if log != [] {
      assert log[|log| - 1] in log;
      NothingRecorded(k, log[..|log| - 1], slot);
    }
  }

  lemma Books(k: Ceiling, log: seq<Entry>, e: Entry, slot: int)
    ensures Recorded(k, log + [e], slot) ==
            Recorded(k, log, slot) + if Slot(k, Stamp(e.day, e.month)) == slot then Weight(k, e.tokensIn, e.tokensOut, e.usd) else 0.0
  {
    assert (log + [e])[..|log|] == log;
  }

  // ----- Each step -----

  lemma AdmitBounded(jobs: set<int>, c: Ceilings, k: Ceiling, room: nat, each: real, s: State, step: Step, slot: int)
    requires step.Admit? && Orderly(jobs, s) && AsideSound(k, s) && Bounded(c, k, room, each, s, slot)
    requires each >= 0.0 && Cap(c, k) > 0.0 && |InAir(Apply(jobs, c, s, step))| <= room
    ensures Bounded(c, k, room, each, Apply(jobs, c, s, step), slot)
  {
    hide Allowed, Bounded, Recorded, Cap;
    var t := Apply(jobs, c, s, step);
    if t != s && slot == Slot(k, s.now) {
      AllowedExactly(c, s, step.feed, step.lookups);
      FullHouse(c, k, room, each, t, slot);
    } else {
      Shrinks(c, k, room, each, s, t, slot);
    }
  }

  lemma StartBounded(jobs: set<int>, c: Ceilings, k: Ceiling, room: nat, each: real, s: State, step: Step, slot: int)
    requires step.Start? || step.Drop?
    requires Orderly(jobs, s) && Bounded(c, k, room, each, s, slot) && each >= 0.0
    ensures Bounded(c, k, room, each, Apply(jobs, c, s, step), slot)
  {
    hide Bounded, Recorded;
    Shrinks(c, k, room, each, s, Apply(jobs, c, s, step), slot);
  }

  /** A settled run leaves the air and lands on the books. */
  lemma Lands(jobs: set<int>, c: Ceilings, k: Ceiling, s: State, step: Step, slot: int)
    requires step.Settle? && Orderly(jobs, s) && step.feed in s.running && Slot(k, s.running[step.feed]) == slot
    ensures InFlight(k, Apply(jobs, c, s, step), slot) == InFlight(k, s, slot) - {step.feed}
    ensures step.feed in InFlight(k, s, slot)
  {
  }

  lemma SettleBounded(jobs: set<int>, c: Ceilings, k: Ceiling, room: nat, each: real, s: State, step: Step, slot: int)
    requires step.Settle? && Orderly(jobs, s) && Bounded(c, k, room, each, s, slot) && Affordable(k, each, step)
    ensures Bounded(c, k, room, each, Apply(jobs, c, s, step), slot)
  {
    hide Recorded, InFlight, Cap;
    if step.feed in s.running {
      var at := s.running[step.feed];
      Books(k, s.log, Entry(step.feed, at.day, at.month, step.tokensIn, step.tokensOut, step.usd), slot);
      if Slot(k, at) == slot {
        Lands(jobs, c, k, s, step, slot);
        OneLess(|InFlight(k, s, slot)|, each);
      } else {
        Elsewhere(jobs, c, k, s, step, slot);
      }
    }
  }

  lemma Elsewhere(jobs: set<int>, c: Ceilings, k: Ceiling, s: State, step: Step, slot: int)
    requires step.Settle? && step.feed in s.running && Slot(k, s.running[step.feed]) != slot
    ensures InFlight(k, Apply(jobs, c, s, step), slot) == InFlight(k, s, slot)
  {
  }

  lemma OneLess(n: nat, each: real)
    requires n > 0
    ensures (n - 1) as real * each == n as real * each - each
  {
  }

  /** What is booked outside adds the same to both sides. */
  lemma OutsideBounded(jobs: set<int>, c: Ceilings, k: Ceiling, room: nat, each: real, s: State, step: Step, slot: int)
    requires step.Outside? && Bounded(c, k, room, each, s, slot)
    ensures Bounded(c, k, room, each, Apply(jobs, c, s, step), slot)
  {
    hide Recorded, Cap, InFlight;
    var e := Entry(step.feed, step.at.day, step.at.month, step.tokensIn, step.tokensOut, step.usd);
    Books(k, s.log, e, slot);
    Books(k, s.aside, e, slot);
    SameFlight(k, s, Apply(jobs, c, s, step), slot);
  }

  lemma SameFlight(k: Ceiling, s: State, t: State, slot: int)
    requires t.queued == s.queued && t.running == s.running && t.now == s.now
    ensures InFlight(k, t, slot) == InFlight(k, s, slot)
  {
  }

  lemma MidnightBounded(jobs: set<int>, c: Ceilings, k: Ceiling, room: nat, each: real, s: State, step: Step, slot: int)
    requires step.Midnight? && Orderly(jobs, s) && AsideSound(k, s) && Bounded(c, k, room, each, s, slot)
    requires each >= 0.0 && Cap(c, k) > 0.0 && |InAir(s)| <= room
    ensures Bounded(c, k, room, each, Apply(jobs, c, s, step), slot)
  {
    hide Bounded, Recorded, Cap;
    var t := Apply(jobs, c, s, step);
    if slot > Slot(k, s.now) {
      NothingRecorded(k, s.log, slot);
      FullHouse(c, k, room, each, t, slot);
    } else {
      Shrinks(c, k, room, each, s, t, slot);
    }
  }

  lemma StepAsideSound(jobs: set<int>, c: Ceilings, k: Ceiling, each: real, s: State, step: Step)
    requires AsideSound(k, s) && Affordable(k, each, step)
    ensures AsideSound(k, Apply(jobs, c, s, step))
  {
    hide Allowed;
  }

  lemma StepBounded(jobs: set<int>, c: Ceilings, k: Ceiling, room: nat, each: real, s: State, step: Step, slot: int)
    requires Orderly(jobs, s) && AsideSound(k, s) && Bounded(c, k, room, each, s, slot) && Affordable(k, each, step)
    requires each >= 0.0 && Cap(c, k) > 0.0 && |InAir(s)| <= room && |InAir(Apply(jobs, c, s, step))| <= room
    ensures Bounded(c, k, room, each, Apply(jobs, c, s, step), slot)
  {
    hide *;
    match step
    case Admit(_, _) => AdmitBounded(jobs, c, k, room, each, s, step, slot);
    case Start(_) => StartBounded(jobs, c, k, room, each, s, step, slot);
    case Drop(_) => StartBounded(jobs, c, k, room, each, s, step, slot);
    case Settle(_, _, _, _) => SettleBounded(jobs, c, k, room, each, s, step, slot);
    case Outside(_, _, _, _, _) => OutsideBounded(jobs, c, k, room, each, s, step, slot);
    case Midnight(_) => MidnightBounded(jobs, c, k, room, each, s, step, slot);
  }

  /** At no point are more than `room` admitted runs in the air. */
  ghost predicate Roomy(jobs: set<int>, c: Ceilings, room: nat, steps: seq<Step>) {
    |InAir(After(jobs, c, steps))| <= room && (steps == [] || Roomy(jobs, c, room, steps[..|steps| - 1]))
  }

  /**
   * Over every interleaving of admissions, starts, settlements and midnights with spending outside the gate: if
   * one gated run costs at most `each` and at most `room` are ever in the air, then recorded spend plus `each`
   * for every run still in the air is never above the ceiling plus `room` runs plus what was booked outside,
   * in every day or month.
   */
  lemma {:induction false} OvershootWithin(jobs: set<int>, c: Ceilings, k: Ceiling, room: nat, each: real, steps: seq<Step>, slot: int)
    requires Cap(c, k) > 0.0 && each >= 0.0 && Roomy(jobs, c, room, steps)
    requires forall step | step in steps :: Affordable(k, each, step)
    ensures Orderly(jobs, After(jobs, c, steps)) && AsideSound(k, After(jobs, c, steps))
    ensures Bounded(c, k, room, each, After(jobs, c, steps), slot)
  {
    hide Orderly, AsideSound, Bounded, Recorded, Apply, Cap, InAir, Affordable;
    if steps == [] {
      BootOrderly(jobs, k);
      NothingRecorded(k, [], slot);
      FullHouse(c, k, room, each, BOOT, slot);
    } else {
      var s, step := After(jobs, c, steps[..|steps| - 1]), steps[|steps| - 1];
      assert step in steps;
      OvershootWithin(jobs, c, k, room, each, steps[..|steps| - 1], slot);
      StepOrderly(jobs, c, s, step);
      StepAsideSound(jobs, c, k, each, s, step);
      StepBounded(jobs, c, k, room, each, s, step, slot);
    }
  }

  lemma BootOrderly(jobs: set<int>, k: Ceiling)
    ensures Orderly(jobs, BOOT) && AsideSound(k, BOOT)
  {
  }

  /** Single flight keeps the runs in the air among the scheduled feeds. */
  lemma {:induction false} RoomForJobs(jobs: set<int>, c: Ceilings, steps: seq<Step>)
    ensures Orderly(jobs, After(jobs, c, steps)) && Roomy(jobs, c, |jobs|, steps)
  {
    hide Orderly, Apply, InAir;
    if steps == [] {
      BootOrderly(jobs, DailyUSD);
    } else {
      RoomForJobs(jobs, c, steps[..|steps| - 1]);
      StepOrderly(jobs, c, After(jobs, c, steps[..|steps| - 1]), steps[|steps| - 1]);
    }
    InAirAreJobs(jobs, After(jobs, c, steps));
  }

  /**
   * So of every interleaving, whatever is spent outside the gate: the overshoot is at most one run for each
   * scheduled feed, beyond what was booked outside.
   */
  lemma BoundedOvershoot(jobs: set<int>, c: Ceilings, k: Ceiling, each: real, steps: seq<Step>, slot: int)
    requires Cap(c, k) > 0.0 && each >= 0.0
    requires forall step | step in steps :: Affordable(k, each, step)
    ensures var s := After(jobs, c, steps);
            && Recorded(k, s.log, slot) + |InFlight(k, s, slot)| as real * each
                 <= Cap(c, k) + |jobs| as real * each + Recorded(k, s.aside, slot)
            && Recorded(k, s.log, slot) <= Cap(c, k) + |jobs| as real * each + Recorded(k, s.aside, slot)
  {
    hide After, Orderly, AsideSound, Recorded, Cap, InFlight, Affordable, Roomy;
    RoomForJobs(jobs, c, steps);
    OvershootWithin(jobs, c, k, |jobs|, each, steps, slot);
    Scale(0, |InFlight(k, After(jobs, c, steps), slot)|, each);
  }

  function Onward(jobs: set<int>, c: Ceilings, s: State, steps: seq<Step>): State
    decreases |steps|
  {
    if steps == [] then s else Onward(jobs, c, Apply(jobs, c, s, steps[0]), steps[1..])
  }

  lemma {:induction false} AfterOnward(jobs: set<int>, c: Ceilings, done: seq<Step>, rest: seq<Step>)
    ensures After(jobs, c, done + rest) == Onward(jobs, c, After(jobs, c, done), rest)
    decreases |rest|
  {
    if rest == [] {
      assert done + rest == done;
    } else {
      var d := done + [rest[0]];
      assert d[..|d| - 1] == done && d + rest[1..] == done + rest;
      AfterOnward(jobs, c, d, rest[1..]);
    }
  }

  lemma Unroll(jobs: set<int>, c: Ceilings, s: State, step: Step, rest: seq<Step>)
    ensures Onward(jobs, c, s, [step] + rest) == Onward(jobs, c, Apply(jobs, c, s, step), rest)
  {
    assert ([step] + rest)[1..] == rest;
  }

  lemma NoFurther(jobs: set<int>, c: Ceilings, s: State)
    ensures Onward(jobs, c, s, []) == s
  {
  }

  /** Every lookup succeeds, both switches are on, and the recipe sets no budget. */
  const CLEAR := Lookups(Some(true), Some(true), Some(FeedBudget(0, 0)), Some(0), true)

  /** A daily ceiling in dollars and nothing else. */
  function Only(cap: real): Ceilings { Ceilings(0, cap, 0.0) }

  lemma OpenDoor(cap: real, s: State, feed: int)
    requires cap > 0.0 && Total(s.log, AllFrom(s.now.day)).usd <= cap
    ensures Allowed(Only(cap), s, feed, CLEAR)
  {
  }

  ghost predicate Distinct(fs: seq<int>) {
    forall i, j | 0 <= i < j < |fs| :: fs[i] != fs[j]
  }

  function SetOf(fs: seq<int>): set<int> { set f | f in fs }

  lemma {:induction false} Listing(jobs: set<int>) returns (fs: seq<int>)
    ensures Distinct(fs) && SetOf(fs) == jobs && |fs| == |jobs|
    decreases |jobs|
  {
    if exists x :: x in jobs {
      var x :| x in jobs;
      var rest := Listing(jobs - {x});
      assert x !in SetOf(rest);
      fs := [x] + rest;
      assert SetOf(fs) == {x} + SetOf(rest);
    } else {
      fs := [];
      assert jobs == {};
    }
  }

  function AdmitAll(fs: seq<int>): seq<Step> {
    if fs == [] then [] else [Admit(fs[0], CLEAR)] + AdmitAll(fs[1..])
  }

  /** Each queued run starts and settles at the same cost. */
  function LandAll(fs: seq<int>, each: real): seq<Step> {
    if fs == [] then [] else [Start(fs[0])] + ([Settle(fs[0], 0, 0, each)] + LandAll(fs[1..], each))
  }

  /** While spend is not above the ceiling every feed is admitted, one after the other. */
  lemma {:induction false} AdmitPhase(jobs: set<int>, cap: real, s: State, fs: seq<int>)
    requires cap > 0.0 && Distinct(fs) && SetOf(fs) <= jobs && SetOf(fs) !! s.queued && s.running == map[]
    requires Total(s.log, AllFrom(s.now.day)).usd <= cap
    ensures Onward(jobs, Only(cap), s, AdmitAll(fs)) == s.(queued := s.queued + SetOf(fs))
    decreases |fs|
  {
    hide Allowed, Total;
    if fs == [] {
      assert s.queued + SetOf(fs) == s.queued;
    } else {
      var f, rest := fs[0], fs[1..];
      assert f in SetOf(fs) && f !in SetOf(rest) && SetOf(fs) == {f} + SetOf(rest);
      OpenDoor(cap, s, f);
      var t := s.(queued := s.queued + {f});
      assert Apply(jobs, Only(cap), s, Admit(f, CLEAR)) == t;
      Unroll(jobs, Only(cap), s, Admit(f, CLEAR), AdmitAll(rest));
      AdmitPhase(jobs, cap, t, rest);
      assert t.queued + SetOf(rest) == s.queued + SetOf(fs);
    }
  }

  /** Once they are queued nothing stops them: every one lands on the books. */
  lemma {:induction false} LandPhase(jobs: set<int>, c: Ceilings, s: State, fs: seq<int>, each: real)
    requires Distinct(fs) && SetOf(fs) <= s.queued && s.running == map[]
    ensures var t := Onward(jobs, c, s, LandAll(fs, each));
            && Recorded(DailyUSD, t.log, s.now.day) == Recorded(DailyUSD, s.log, s.now.day) + |fs| as real * each
            && t.now == s.now && t.running == map[] && t.aside == s.aside && t.queued == s.queued - SetOf(fs)
            && Total(t.log, AllFrom(s.now.day)).usd == Total(s.log, AllFrom(s.now.day)).usd + |fs| as real * each
    decreases |fs|
  {
    hide Allowed, Total, Recorded;
    if fs == [] {
      assert s.queued - SetOf(fs) == s.queued;
      NoFurther(jobs, c, s);
    } else {
      var f, rest := fs[0], fs[1..];
      assert f in SetOf(fs) && f !in SetOf(rest) && SetOf(fs) == {f} + SetOf(rest);
      var s1 := s.(queued := s.queued - {f}, running := map[f := s.now]);
      var e := Entry(f, s.now.day, s.now.month, 0, 0, each);
      var s2 := s1.(running := map[], log := s.log + [e]);
      assert s.running[f := s.now] == map[f := s.now];
      assert Apply(jobs, c, s, Start(f)) == s1;
      assert s1.running - {f} == map[];
      assert Apply(jobs, c, s1, Settle(f, 0, 0, each)) == s2;
      Unroll(jobs, c, s, Start(f), [Settle(f, 0, 0, each)] + LandAll(rest, each));
      Unroll(jobs, c, s1, Settle(f, 0, 0, each), LandAll(rest, each));
      Books(DailyUSD, s.log, e, s.now.day);
      SinceBooks(s.log, e);
      LandPhase(jobs, c, s2, rest, each);
      OneMoreRun(|rest|, each);
      assert s2.queued - SetOf(rest) == s.queued - SetOf(fs);
    }
  }

  lemma SinceBooks(log: seq<Entry>, e: Entry)
    ensures Total(log + [e], AllFrom(e.day)).usd == Total(log, AllFrom(e.day)).usd + e.usd
  {
    assert (log + [e])[..|log|] == log;
  }

  lemma OneMoreRun(n: nat, each: real)
    ensures (n + 1) as real * each == n as real * each + each
  {
  }

  lemma NothingYet()
    ensures Total([], AllFrom(0)).usd == 0.0 && Recorded(DailyUSD, [], 0) == 0.0
  {
  }

  lemma {:induction false} PhaseSteps(fs: seq<int>, cost: real, each: real)
    requires 0.0 <= cost <= each
    ensures forall step | step in AdmitAll(fs) + LandAll(fs, cost) :: Affordable(DailyUSD, each, step) && !step.Outside?
  {
    if fs != [] { PhaseSteps(fs[1..], cost, each); }
  }

  /** One round: all these feeds are admitted, and then all of them land. */
  lemma Round(jobs: set<int>, cap: real, s: State, fs: seq<int>, cost: real)
    requires cap > 0.0 && Distinct(fs) && SetOf(fs) <= jobs && s.queued == {} && s.running == map[]
    requires Total(s.log, AllFrom(s.now.day)).usd <= cap
    ensures var t := Onward(jobs, Only(cap), s, AdmitAll(fs) + LandAll(fs, cost));
            && t.now == s.now && t.queued == {} && t.running == map[]
            && Recorded(DailyUSD, t.log, s.now.day) == Recorded(DailyUSD, s.log, s.now.day) + |fs| as real * cost
            && Total(t.log, AllFrom(s.now.day)).usd == Total(s.log, AllFrom(s.now.day)).usd + |fs| as real * cost
  {
    hide Onward, Total, Recorded, AdmitAll, LandAll, Distinct;
    AdmitPhase(jobs, cap, s, fs);
    var mid := s.(queued := SetOf(fs));
    assert s.queued + SetOf(fs) == SetOf(fs);
    OnwardAppend(jobs, Only(cap), s, AdmitAll(fs), LandAll(fs, cost));
    LandPhase(jobs, Only(cap), mid, fs, cost);
    assert mid.queued - SetOf(fs) == {};
  }

  lemma {:induction false} OnwardAppend(jobs: set<int>, c: Ceilings, s: State, a: seq<Step>, b: seq<Step>)
    ensures Onward(jobs, c, s, a + b) == Onward(jobs, c, Onward(jobs, c, s, a), b)
    decreases |a|
  {
    hide Apply;
    if a == [] {
      assert a + b == b;
    } else {
      assert (a + b)[1..] == a[1..] + b;
      OnwardAppend(jobs, c, Apply(jobs, c, s, a[0]), a[1..], b);
    }
  }

  /** One feed alone spends any amount the ceiling still allows, in runs of at most `each`. */
  lemma {:induction false} SpendUp(jobs: set<int>, cap: real, s: State, f: int, amount: real, each: real, n: nat)
    returns (steps: seq<Step>)
    requires f in jobs && s.queued == {} && s.running == map[] && 0.0 <= amount <= n as real * each && each > 0.0
    requires cap > 0.0 && Total(s.log, AllFrom(s.now.day)).usd + amount <= cap
    ensures forall step | step in steps :: Affordable(DailyUSD, each, step) && !step.Outside?
    ensures var t := Onward(jobs, Only(cap), s, steps);
            && t.now == s.now && t.queued == {} && t.running == map[]
            && Recorded(DailyUSD, t.log, s.now.day) == Recorded(DailyUSD, s.log, s.now.day) + amount
            && Total(t.log, AllFrom(s.now.day)).usd == Total(s.log, AllFrom(s.now.day)).usd + amount
    decreases n
  {
    hide Onward, Total, Recorded, Apply, Allowed, AdmitAll, LandAll, Affordable;
    if n == 0 {
      steps := [];
      NoFurther(jobs, Only(cap), s);
    } else {
      var fs, cost := [f], if amount <= each then amount else each;
      assert SetOf(fs) == {f};
      var first := AdmitAll(fs) + LandAll(fs, cost);
      PhaseSteps(fs, cost, each);
      Round(jobs, cap, s, fs, cost);
      assert |fs| as real * cost == cost;
      OneLess(n, each);
      Scale(0, n - 1, each);
      var rest := SpendUp(jobs, cap, Onward(jobs, Only(cap), s, first), f, amount - cost, each, n - 1);
      steps := first + rest;
      OnwardAppend(jobs, Only(cap), s, first, rest);
    }
  }

  lemma EnoughRuns(amount: real, each: real) returns (n: nat)
    requires amount >= 0.0 && each > 0.0
    ensures amount <= n as real * each
  {
    var q := (amount / each).Floor + 1;
    assert amount / each >= 0.0;
    n := q;
    assert n as real >= amount / each;
    assert amount == amount / each * each;
  }

  /**
   * The bound is met, for every set of feeds, every ceiling and every cost of a run: one feed's runs spend exactly
   * the ceiling, which still admits every feed, and the day ends at the ceiling plus one run for each of them.
   */
  lemma OvershootIsReached(jobs: set<int>, cap: real, each: real) returns (steps: seq<Step>)
    requires jobs != {} && cap > 0.0 && each > 0.0
    ensures forall step | step in steps :: Affordable(DailyUSD, each, step) && !step.Outside?
    ensures Recorded(DailyUSD, After(jobs, Only(cap), steps).log, 0) == cap + |jobs| as real * each
  {
    hide After, Onward, Total, Recorded, Apply, Allowed, AdmitAll, LandAll, Affordable;
    var fs := Listing(jobs);
    assert |jobs| != 0;
    assert fs[0] in SetOf(fs);
    NothingYet();
    var n := EnoughRuns(cap, each);
    var first := SpendUp(jobs, cap, BOOT, fs[0], cap, each, n);
    var second := AdmitAll(fs) + LandAll(fs, each);
    steps := first + second;
    PhaseSteps(fs, each, each);
    Round(jobs, cap, Onward(jobs, Only(cap), BOOT, first), fs, each);
    OnwardAppend(jobs, Only(cap), BOOT, first, second);
    AfterOnward(jobs, Only(cap), [], steps);
    assert [] + steps == steps;
    AfterNothing(jobs, Only(cap));
  }

  lemma AfterNothing(jobs: set<int>, c: Ceilings)
    ensures After(jobs, c, []) == BOOT
  {
  }
}
