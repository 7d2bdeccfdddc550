/**
 * The books of a run, read off its history alone, and the theorem that the committed run
 * row agrees with them against any outside world.
 */
module Ledger {
  import opened Basics
  import opened Contract
  import FormatRules
  import opened World
  import opened Pipeline
  import opened History

  /**
   * Totals over a history: estimated tokens, rejection reasons, drafts the model returned,
   * drafts validation rejected, items the novelty gate rejected, and calls of each sort.
   */
  datatype Tally = Tally(
    tokensIn: int, tokensOut: int, reasons: multiset<Reason>,
    returned: int, invalid: int, stale: int, calls: int, formats: int, commits: int)

  const ZERO := Tally(0, 0, multiset{}, 0, 0, 0, 0, 0, 0)

  function Plus(a: Tally, b: Tally): Tally {
    Tally(a.tokensIn + b.tokensIn, a.tokensOut + b.tokensOut, a.reasons + b.reasons,
          a.returned + b.returned, a.invalid + b.invalid, a.stale + b.stale,
          a.calls + b.calls, a.formats + b.formats, a.commits + b.commits)
  }

  function InvalidCount(r: Rules, ds: seq<Draft>, opts: Options): nat {
    if ds == [] then 0
    else InvalidCount(r, ds[..|ds| - 1], opts) + if Judge(r, ds[|ds| - 1], opts).Rejected? then 1 else 0
  }

  function Entry(e: Event, r: Rules, opts: Options): Tally {
    match e
    case Generated(req, reply) =>
      var asked := ZERO.(tokensIn := Tokens(req.system) + Tokens(req.prompt), calls := 1);
      if reply.Err? then asked
      else asked.(tokensOut := Tokens(reply.value.raw), returned := |reply.value.items|,
                  invalid := InvalidCount(r, reply.value.items, opts),
                  reasons := BatchReasons(r, reply.value.items, opts))
    case NoveltyChecked(_, Duplicate) => ZERO.(stale := 1, reasons := multiset{NoveltyDuplicate})
    case NoveltyChecked(_, CheckBroke) => ZERO.(stale := 1, reasons := multiset{NoveltyCheckFailed})
    case Formatted(req, reply) =>
      ZERO.(tokensIn := Tokens(req.system) + Tokens(req.prompt), formats := 1,
            tokensOut := if reply.Ok? then Tokens(reply.value.raw) else 0)
    case Committed(_, _, _) => ZERO.(commits := 1)
    case _ => ZERO
  }

  function Sum(tr: Trace, r: Rules, opts: Options): Tally {
    match tr
    case Start => ZERO
    case Then(past, e) => Plus(Sum(past, r, opts), Entry(e, r, opts))
  }

  /** Drafts that passed both validation and the novelty gate. */
  function Survivors(t: Tally): int {
    t.returned - t.invalid - t.stale
  }

  /** The candidate URLs a run showed the model: those of the capped fetch in its history. */
  function Shown(tr: Trace, spec: Spec): seq<string> {
    match tr
    case Start => []
    case Then(_, CandidatesRead(Ok(cs))) => URLs(Take(cs, CandidateCap(spec)))
    case Then(past, _) => Shown(past, spec)
  }

  /** The books of a finished run. */
  function Books(env: Env, feed: Feed, spec: Spec, tr: Trace): Tally {
    Sum(tr, env.rules, Options(feed.kind, Shown(tr, spec)))
  }

  /** A change in the totals that agrees with the figures a step reports. */
  ghost predicate Matches(d: Tally, tokensIn: int, tokensOut: int, reasons: multiset<Reason>, survivors: int) {
    && d.tokensIn == tokensIn && d.tokensOut == tokensOut && d.reasons == reasons
    && Survivors(d) == survivors && d.commits == 0
  }

  lemma NothingMatches()
    ensures Matches(ZERO, 0, 0, multiset{}, 0)
  {
  }

  lemma PlusAssoc(a: Tally, b: Tally, c: Tally)
    ensures Plus(Plus(a, b), c) == Plus(a, Plus(b, c))
  {
    assert (a.reasons + b.reasons) + c.reasons == a.reasons + (b.reasons + c.reasons);
  }

  lemma PlusZero(a: Tally)
    ensures Plus(a, ZERO) == a
  {
    assert a.reasons + multiset{} == a.reasons;
  }

  /** Reads and keys are neither calls nor verdicts: they leave the totals alone. */
  predicate Quiet(e: Event) {
    e.ClockRead? || e.TitlesRead? || e.CandidatesRead? || e.NewestRead? || e.KeyMinted?
  }

  lemma QuietBooks(tr: Trace, e: Event, r: Rules, opts: Options)
    requires Quiet(e)
    ensures Sum(Then(tr, e), r, opts) == Sum(tr, r, opts)
  {
    hide Plus;
    PlusZero(Sum(tr, r, opts));
  }

  // ----- One step at a time -----

  lemma {:induction false} BatchSplits(r: Rules, ds: seq<Draft>, opts: Options)
    requires !opts.kind.OtherKind?
    ensures |AcceptedItems(r, ds, opts)| + InvalidCount(r, ds, opts) == |ds|
    ensures InvalidCount(r, ds, opts) <= |BatchReasons(r, ds, opts)|
  {
    hide Violations;
    if ds != [] {
      BatchSplits(r, ds[..|ds| - 1], opts);
    }
  }

  function CallDelta(c: CallResult): Tally {
    Tally(c.tokensIn, c.tokensOut, c.reasons, c.returned, c.returned - |c.valid|, 0, 1, 0, 0)
  }

  lemma CallExtends(job: Job, tr: Trace, prompt: string)
    ensures var req := Request(job, prompt);
            Call(job, tr, prompt).tr == Then(tr, Generated(req, job.env.generate(tr, req)))
  {
    hide AcceptedItems, BatchReasons, EffectiveSystem, Tokens;
  }

  lemma CallEntry(job: Job, tr: Trace, prompt: string)
    requires !job.opts.kind.OtherKind?
    ensures var req := Request(job, prompt);
            Entry(Generated(req, job.env.generate(tr, req)), job.env.rules, job.opts) == CallDelta(Call(job, tr, prompt))
  {
    hide AcceptedItems, BatchReasons, EffectiveSystem, InvalidCount, Tokens;
    var reply := job.env.generate(tr, Request(job, prompt));
    if reply.Ok? { BatchSplits(job.env.rules, reply.value.items, job.opts); }
  }

  lemma CallBooks(job: Job, tr: Trace, prompt: string)
    requires !job.opts.kind.OtherKind?
    ensures var c := Call(job, tr, prompt);
            Sum(c.tr, job.env.rules, job.opts) == Plus(Sum(tr, job.env.rules, job.opts), CallDelta(c))
  {
    hide Call, Request, Entry, CallDelta, Plus;
    CallExtends(job, tr, prompt);
    CallEntry(job, tr, prompt);
  }

  lemma CallFailureEmpty(job: Job, tr: Trace, prompt: string)
    ensures var c := Call(job, tr, prompt);
            c.failure.Some? ==> c.valid == []
  {
    hide AcceptedItems, BatchReasons, EffectiveSystem;
  }

  /** The totals one attempt adds: one call, or a wholly rejected call and its repair. */
  function AttemptDelta(job: Job, tr: Trace): Tally {
    var a := Call(job, tr, job.prompt);
    if a.failure.Some? || a.valid != [] || (job.spec.watchMode && a.returned == 0) then CallDelta(a)
    else Plus(CallDelta(a), CallDelta(Call(job, a.tr, RepairPrompt(job, a.reasons))))
  }

  lemma AttemptBooks(job: Job, tr: Trace)
    requires !job.opts.kind.OtherKind?
    ensures Sum(TryOnce(job, tr).tr, job.env.rules, job.opts)
            == Plus(Sum(tr, job.env.rules, job.opts), AttemptDelta(job, tr))
  {
    hide Sum, Call, Plus, RepairPrompt;
    CallBooks(job, tr, job.prompt);
    var a := Call(job, tr, job.prompt);
    var repair := RepairPrompt(job, a.reasons);
    CallBooks(job, a.tr, repair);
    PlusAssoc(Sum(tr, job.env.rules, job.opts), CallDelta(a), CallDelta(Call(job, a.tr, repair)));
  }

  lemma AttemptFigures(job: Job, tr: Trace)
    ensures var t, d := TryOnce(job, tr), AttemptDelta(job, tr);
            && Matches(d, t.tokensIn, t.tokensOut, t.reasons, |t.valid|)
            && 1 <= d.calls <= 2 && d.formats == 0
            && (t.valid != [] ==> t.failure.None? && !t.watchEmpty)
  {
    hide Call, RepairPrompt;
    CallFailureEmpty(job, tr, job.prompt);
    var a := Call(job, tr, job.prompt);
    CallFailureEmpty(job, a.tr, RepairPrompt(job, a.reasons));
  }

  function SiftDelta(s: Sifted, n: nat): Tally {
    ZERO.(stale := n - |s.items|, reasons := s.reasons)
  }

  lemma SiftOneBooks(gate: Gate, s: Sifted, it: Item, r: Rules, opts: Options)
    requires gate.Gate?
    ensures Sum(SiftOne(gate, s, it).tr, r, opts)
            == Plus(Sum(s.tr, r, opts), Entry(NoveltyChecked(NoveltyText(it), gate.check(s.tr, NoveltyText(it))), r, opts))
  {
    hide Entry, Plus, NoveltyText;
  }

  lemma SiftOneFigures(gate: Gate, s: Sifted, it: Item, n: nat, r: Rules, opts: Options)
    requires gate.Gate?
    ensures Plus(SiftDelta(s, n), Entry(NoveltyChecked(NoveltyText(it), gate.check(s.tr, NoveltyText(it))), r, opts))
            == SiftDelta(SiftOne(gate, s, it), n + 1)
  {
    hide NoveltyText;
    assert s.reasons + multiset{} == s.reasons;
  }

  lemma {:induction false} SiftBooks(gate: Gate, tr: Trace, items: seq<Item>, r: Rules, opts: Options)
    ensures var s := Sift(gate, tr, items);
            Sum(s.tr, r, opts) == Plus(Sum(tr, r, opts), SiftDelta(s, |items|))
  {
    hide Sum, Plus, Entry, SiftOne, NoveltyText;
    PlusZero(Sum(tr, r, opts));
    if gate.Gate? && items != [] {
      var s, it, n := Sift(gate, tr, items[..|items| - 1]), items[|items| - 1], |items| - 1;
      SiftBooks(gate, tr, items[..n], r, opts);
      SiftOneBooks(gate, s, it, r, opts);
      SiftOneFigures(gate, s, it, n, r, opts);
      PlusAssoc(Sum(tr, r, opts), SiftDelta(s, n),
                Entry(NoveltyChecked(NoveltyText(it), gate.check(s.tr, NoveltyText(it))), r, opts));
    }
  }

  lemma SiftingBooks(job: Job, tr: Trace, items: seq<Item>)
    ensures var s := Sifting(job, tr, items);
            Sum(s.tr, job.env.rules, job.opts) == Plus(Sum(tr, job.env.rules, job.opts), SiftDelta(s, |items|))
  {
    hide Sum, Plus, Sift;
    SiftBooks(job.env.novelty, tr, items, job.env.rules, job.opts);
    PlusZero(Sum(tr, job.env.rules, job.opts));
  }

  /** The totals one more attempt adds, novelty checks included. */
  function RoundDelta(job: Job, tr: Trace): Tally {
    var t := TryOnce(job, tr);
    if t.failure.Some? || t.watchEmpty then AttemptDelta(job, tr)
    else Plus(AttemptDelta(job, tr), SiftDelta(Sifting(job, t.tr, t.valid), |t.valid|))
  }

  lemma RoundBooks(job: Job, p: Progress)
    requires !job.opts.kind.OtherKind?
    ensures Sum(OneMore(job, p).tr, job.env.rules, job.opts)
            == Plus(Sum(p.tr, job.env.rules, job.opts), RoundDelta(job, p.tr))
  {
    hide Sum, Plus, TryOnce, Sifting, AttemptDelta, SiftDelta;
    AttemptBooks(job, p.tr);
    var t := TryOnce(job, p.tr);
    SiftingBooks(job, t.tr, t.valid);
    PlusAssoc(Sum(p.tr, job.env.rules, job.opts), AttemptDelta(job, p.tr), SiftDelta(Sifting(job, t.tr, t.valid), |t.valid|));
  }

  /** How one more attempt may leave the loop. */
  lemma RoundFlags(job: Job, p: Progress)
    requires !p.done && p.items == [] && p.failure.None?
    ensures var q := OneMore(job, p);
            (q.items != [] ==> q.done && q.failure.None?) && (!q.done ==> q.failure.None?)
  {
    hide TryOnce, Sifting;
  }

  lemma RoundFigures(job: Job, p: Progress, d: Tally)
    requires Matches(d, p.tokensIn, p.tokensOut, p.reasons, |p.items|)
    requires !p.done && p.items == [] && p.failure.None?
    ensures var q, e := OneMore(job, p), Plus(d, RoundDelta(job, p.tr));
            && Matches(e, q.tokensIn, q.tokensOut, q.reasons, |q.items|)
            && e.calls <= d.calls + 2 && e.formats == d.formats
  {
    hide TryOnce, Sifting, AttemptDelta;
    AttemptFigures(job, p.tr);
    var t := TryOnce(job, p.tr);
    var s := Sifting(job, t.tr, t.valid);
    assert p.reasons + (t.reasons + s.reasons) == (p.reasons + t.reasons) + s.reasons;
  }

  lemma {:induction false} AttemptsBooks(job: Job, tr: Trace, n: nat) returns (d: Tally)
    requires !job.opts.kind.OtherKind?
    ensures var p := Attempts(job, tr, n);
            && Sum(p.tr, job.env.rules, job.opts) == Plus(Sum(tr, job.env.rules, job.opts), d)
            && Matches(d, p.tokensIn, p.tokensOut, p.reasons, |p.items|)
            && d.calls <= 2 * n && d.formats == 0
            && (p.items != [] ==> p.done && p.failure.None?)
            && (!p.done ==> p.failure.None?)
  {
    hide Sum, Plus, OneMore, RoundDelta, Matches;
    if n == 0 {
      d := ZERO;
      NothingMatches();
      PlusZero(Sum(tr, job.env.rules, job.opts));
    } else {
      d := AttemptsBooks(job, tr, n - 1);
      var p := Attempts(job, tr, n - 1);
      if !p.done {
        RoundBooks(job, p);
        RoundFlags(job, p);
        RoundFigures(job, p, d);
        PlusAssoc(Sum(tr, job.env.rules, job.opts), d, RoundDelta(job, p.tr));
        d := Plus(d, RoundDelta(job, p.tr));
      }
    }
  }

  lemma StampOneBooks(env: Env, feed: Feed, s: Step<seq<Item>>, it: Item, base: Instant, now: Instant, opts: Options)
    ensures Sum(StampOne(env, feed, s, it, base, now).tr, env.rules, opts) == Sum(s.tr, env.rules, opts)
  {
    hide ContentHash, Sum;
    var ts := base + |s.value| * SECOND;
    QuietBooks(s.tr, KeyMinted(ts, env.newKey(s.tr, ts)), env.rules, opts);
  }

  lemma {:induction false} StampBooks(env: Env, tr: Trace, feed: Feed, items: seq<Item>, base: Instant, now: Instant, opts: Options)
    ensures Sum(Stamp(env, tr, feed, items, base, now).tr, env.rules, opts) == Sum(tr, env.rules, opts)
  {
    hide Sum, StampOne;
    if items != [] {
      StampBooks(env, tr, feed, items[..|items| - 1], base, now, opts);
      StampOneBooks(env, feed, Stamp(env, tr, feed, items[..|items| - 1], base, now), items[|items| - 1], base, now, opts);
    }
  }

  function StyleDelta(s: Styled, n: nat): Tally {
    ZERO.(tokensIn := s.tokensIn, tokensOut := s.tokensOut, formats := n)
  }

  lemma StyleOneExtends(env: Env, spec: Spec, id: RequestID, s: Styled, it: Item)
    requires env.formatter.Formatter?
    ensures var e := StyleEvent(env, spec, id, s, it);
            StyleOne(env, spec, id, s, it).tr == Then(s.tr, e)
  {
    hide FormatPrompt, FormatRules.Vetted, FormatRules.SlotsFit, FormatRules.FormatsOk, Tokens;
  }

  function StyleEvent(env: Env, spec: Spec, id: RequestID, s: Styled, it: Item): Event
    requires env.formatter.Formatter?
  {
    var req := FormatRequest(FormatPrompt(env, it), env.words.formatSystem, spec.model, spec.effort, FormatID(id, |s.items|));
    Formatted(req, env.formatter.format(s.tr, req))
  }

  lemma StyleOneFigures(env: Env, spec: Spec, id: RequestID, s: Styled, it: Item, n: nat, opts: Options)
    requires env.formatter.Formatter?
    ensures Plus(StyleDelta(s, n), Entry(StyleEvent(env, spec, id, s, it), env.rules, opts))
            == StyleDelta(StyleOne(env, spec, id, s, it), n + 1)
  {
    hide FormatPrompt, FormatRules.Vetted, FormatRules.SlotsFit, FormatRules.FormatsOk, Tokens;
    var none: multiset<Reason> := multiset{};
    assert none + none == none;
  }

  lemma StyleOneBooks(env: Env, spec: Spec, id: RequestID, s: Styled, it: Item, n: nat, a: Tally, opts: Options)
    requires env.formatter.Formatter?
    requires Sum(s.tr, env.rules, opts) == Plus(a, StyleDelta(s, n))
    ensures var s' := StyleOne(env, spec, id, s, it);
            Sum(s'.tr, env.rules, opts) == Plus(a, StyleDelta(s', n + 1))
  {
    hide StyleOne, StyleEvent, StyleDelta, Entry, Plus;
    StyleOneExtends(env, spec, id, s, it);
    StyleOneFigures(env, spec, id, s, it, n, opts);
    PlusAssoc(a, StyleDelta(s, n), Entry(StyleEvent(env, spec, id, s, it), env.rules, opts));
  }

  lemma {:induction false} StyleBooks(env: Env, tr: Trace, spec: Spec, items: seq<Item>, id: RequestID, opts: Options)
    ensures var s := Style(env, tr, spec, items, id);
            Sum(s.tr, env.rules, opts)
            == Plus(Sum(tr, env.rules, opts), StyleDelta(s, if env.formatter.Formatter? then |items| else 0))
  {
    hide Sum, Plus, StyleOne;
    PlusZero(Sum(tr, env.rules, opts));
    if items != [] && env.formatter.Formatter? {
      StyleBooks(env, tr, spec, items[..|items| - 1], id, opts);
      StyleOneBooks(env, spec, id, Style(env, tr, spec, items[..|items| - 1], id), items[|items| - 1], |items| - 1,
                    Sum(tr, env.rules, opts), opts);
    }
  }

  // ----- The candidate set never changes after it was fetched -----

  lemma QuietShown(tr: Trace, e: Event, spec: Spec)
    requires !e.CandidatesRead?
    ensures Shown(Then(tr, e), spec) == Shown(tr, spec)
  {
  }

  lemma {:induction false} ShownKept(a: Trace, b: Trace, sorts: set<Sort>, spec: Spec)
    requires Adds(a, b, sorts) && Candidates !in sorts
    ensures Shown(b, spec) == Shown(a, spec)
  {
    if a != b { ShownKept(a, b.past, sorts, spec); }
  }

  lemma OpenShown(env: Env, feed: Feed, spec: Spec)
    ensures var o := Open(env, feed, spec);
            o.value.Ready? ==> !feed.kind.OtherKind? && o.value.opts == Options(feed.kind, Shown(o.tr, spec))
  {
    hide Articles, URLs, Take;
    var read := ClockRead(env.clock(Start));
    QuietShown(Start, read, spec);
    var end := Acquire(env, Then(Start, read), feed, spec, env.clock(Start)).tr;
    if end.last.TitlesRead? { QuietShown(Then(Start, read), end.last, spec); }
  }

  lemma AcquireBooks(env: Env, feed: Feed, spec: Spec, tr: Trace, now: Instant, opts: Options)
    ensures Sum(Acquire(env, tr, feed, spec, now).tr, env.rules, opts) == Sum(tr, env.rules, opts)
  {
    hide Sum, Articles, URLs, Take;
    var end := Acquire(env, tr, feed, spec, now).tr;
    if end != tr { QuietBooks(tr, end.last, env.rules, opts); }
  }

  lemma OpenBooks(env: Env, feed: Feed, spec: Spec, opts: Options)
    ensures Sum(Open(env, feed, spec).tr, env.rules, opts) == ZERO
  {
    hide Acquire, Plus, Entry;
    var read := ClockRead(env.clock(Start));
    QuietBooks(Start, read, env.rules, opts);
    AcquireBooks(env, feed, spec, Then(Start, read), env.clock(Start), opts);
  }

  // ----- The whole run -----

  /** What the committed row says, next to the totals of its history. */
  ghost predicate Balanced(t: Tally, feed: Feed, spec: Spec, o: RunOutcome) {
    && o.run.tokensIn == t.tokensIn && o.run.tokensOut == t.tokensOut
    && o.run.cost == Cost(t.tokensIn, t.tokensOut, spec)
    && o.run.rejectReasons == t.reasons && o.run.itemsRejected == |t.reasons|
    && o.run.itemsAdded == |o.committed|
    && o.run.feedID == feed.id && o.run.trigger == spec.trigger
  }

  /** The commit is the one and last act, and what it carried decides what the caller receives. */
  ghost predicate CommittedOnce(t: Tally, o: RunOutcome) {
    && t.commits == 1 && o.tr.Then? && o.tr.last.Committed?
    && o.tr.last.run == o.run && o.tr.last.items == o.committed
    && o.returned == (if o.tr.last.fault.None? then o.committed else [])
    && (o.error.None? <==> o.tr.last.fault.None? && !o.run.status.Failed?)
  }

  /** How the status, the items and the error hang together. */
  ghost predicate StatusFits(o: RunOutcome) {
    && (o.run.status.Completed? <==> o.committed != [])
    && (!o.run.status.Completed? ==> o.run.embeddings == [])
    && (o.run.status.Failed? <==> o.run.error.Some?)
  }

  /** The figures `Close` is given agree with the totals so far. */
  ghost predicate BillMatches(bill: Bill, d: Tally) {
    d.tokensIn == bill.tokensIn && d.tokensOut == bill.tokensOut && d.reasons == bill.reasons && d.commits == 0
  }

  lemma CommitBooks(tr: Trace, at: Instant, run: RunRecord, items: seq<Item>, fault: Option<string>, r: Rules, opts: Options)
    ensures var d := Sum(tr, r, opts);
            Sum(Then(Then(tr, ClockRead(at)), Committed(run, items, fault)), r, opts) == d.(commits := d.commits + 1)
  {
    hide Plus;
    QuietBooks(tr, ClockRead(at), r, opts);
    PlusCommit(Sum(tr, r, opts));
  }

  lemma PlusCommit(d: Tally)
    ensures Plus(d, ZERO.(commits := 1)) == d.(commits := d.commits + 1)
  {
    assert d.reasons + multiset{} == d.reasons;
  }

  lemma CloseBooks(env: Env, feed: Feed, spec: Spec, started: Instant, tr: Trace, bill: Bill, status: Status,
                   kind: string, failure: Option<Failure>, items: seq<Item>, embeddings: seq<Embedding>, d: Tally, opts: Options)
    requires status.Failed? <==> failure.Some?
    requires Sum(tr, env.rules, opts) == d && BillMatches(bill, d)
    ensures var o := Close(env, feed, spec, started, tr, bill, status, kind, failure, items, embeddings);
            var t := d.(commits := 1);
            && Sum(o.tr, env.rules, opts) == t
            && Balanced(t, feed, spec, o) && CommittedOnce(t, o)
            && o.run.status == status && o.committed == items && o.run.embeddings == embeddings && o.run.error == failure
  {
    hide Cost, Sum;
    var o := Close(env, feed, spec, started, tr, bill, status, kind, failure, items, embeddings);
    CommitBooks(tr, env.clock(tr), o.run, items, o.tr.last.fault, env.rules, opts);
  }

  /** The totals of a run that went through Finish. */
  ghost predicate Finished(job: Job, p: Progress, d: Tally, o: RunOutcome) {
    var t := Sum(o.tr, job.env.rules, job.opts);
    && Balanced(t, job.feed, job.spec, o) && CommittedOnce(t, o) && StatusFits(o)
    && t.calls == d.calls && Survivors(t) == |p.items|
    && (!o.run.status.Failed? ==> |o.committed| == |Capped(p.items, job.spec)|)
    && t.formats == (if job.env.formatter.Formatter? then |o.committed| else 0)
  }

  lemma {:induction false} StampLength(env: Env, tr: Trace, feed: Feed, items: seq<Item>, base: Instant, now: Instant)
    ensures |Stamp(env, tr, feed, items, base, now).value| == |items|
  {
    hide ContentHash;
    if items != [] { StampLength(env, tr, feed, items[..|items| - 1], base, now); }
  }

  lemma PublishBooks(job: Job, started: Instant, p: Progress, d: Tally)
    requires p.items != [] && p.failure.None? && job.env.newest(p.tr).Ok?
    requires Sum(p.tr, job.env.rules, job.opts) == d && d.formats == 0
    requires Matches(d, p.tokensIn, p.tokensOut, p.reasons, |p.items|)
    ensures Finished(job, p, d, Finish(job, started, p))
  {
    hide Sum, Shown, Stamp, Style, Zip, Close, Balanced, CommittedOnce, Base;
    var env, feed, spec, opts := job.env, job.feed, job.spec, job.opts;
    var newest := env.newest(p.tr);
    var tr := Then(p.tr, NewestRead(newest));
    var now := env.clock(tr);
    var tr' := Then(tr, ClockRead(now));
    QuietBooks(p.tr, NewestRead(newest), env.rules, opts);
    QuietBooks(tr, ClockRead(now), env.rules, opts);
    var capped, base := Capped(p.items, spec), Base(newest.value, now);
    StampBooks(env, tr', feed, capped, base, now, opts);
    StampLength(env, tr', feed, capped, base, now);
    var stamped := Stamp(env, tr', feed, capped, base, now);
    StyleBooks(env, stamped.tr, spec, stamped.value, job.id, opts);
    StyleLength(env, stamped.tr, spec, stamped.value, job.id);
    var styled := Style(env, stamped.tr, spec, stamped.value, job.id);
    var e := StyleDelta(styled, if env.formatter.Formatter? then |stamped.value| else 0);
    CloseBooks(env, feed, spec, started, styled.tr,
               Bill(p.tokensIn + styled.tokensIn, p.tokensOut + styled.tokensOut, p.reasons),
               Completed, "", None, styled.items, Zip(styled.items, Capped(p.vecs, spec)), Plus(d, e), opts);
  }

  lemma FinishBooks(job: Job, started: Instant, p: Progress, d: Tally)
    requires p.items != [] ==> p.failure.None?
    requires Sum(p.tr, job.env.rules, job.opts) == d && d.formats == 0
    requires Matches(d, p.tokensIn, p.tokensOut, p.reasons, |p.items|)
    ensures Finished(job, p, d, Finish(job, started, p))
  {
    hide Sum, Shown, Stamp, Style, Zip, Close, Balanced, CommittedOnce, Base, EmptyKind, ErrorKind;
    var env, feed, spec, opts := job.env, job.feed, job.spec, job.opts;
    if p.failure.Some? {
      CloseBooks(env, feed, spec, started, p.tr, Spent(p), Failed, ErrorKind(p.failure.value), p.failure, [], [], d, opts);
    } else if p.items == [] {
      CloseBooks(env, feed, spec, started, p.tr, Spent(p), Skipped, EmptyKind(feed, p.quiet), None, [], [], d, opts);
    } else if env.newest(p.tr).Err? {
      var e := StoreFailed(env.newest(p.tr).error);
      var tr := Then(p.tr, NewestRead(env.newest(p.tr)));
      QuietBooks(p.tr, NewestRead(env.newest(p.tr)), env.rules, opts);
      CloseBooks(env, feed, spec, started, tr, Spent(p), Failed, ErrorKind(e), Some(e), [], [], d, opts);
    } else {
      PublishBooks(job, started, p, d);
    }
  }

  /** Everything the totals of a finished run satisfy. */
  ghost predicate Settled(env: Env, feed: Feed, spec: Spec, o: RunOutcome) {
    var t := Books(env, feed, spec, o.tr);
    && Balanced(t, feed, spec, o) && CommittedOnce(t, o) && StatusFits(o)
    && t.calls <= 2 * MaxAttempts(feed, spec) && Survivors(t) >= 0
    && (!o.run.status.Failed? ==>
          |o.committed| == if 0 < spec.itemsPerRun < Survivors(t) then spec.itemsPerRun else Survivors(t))
    && (spec.itemsPerRun > 0 ==> |o.committed| <= spec.itemsPerRun)
    && t.formats == (if env.formatter.Formatter? then |o.committed| else 0)
  }

  /** Nothing has been called, judged or spent yet. */
  ghost predicate Idle(bill: Bill, d: Tally) {
    BillMatches(bill, d) && d.calls == d.formats == Survivors(d) == 0
  }

  lemma OpenIdle(env: Env, feed: Feed, spec: Spec, opts: Options)
    ensures Idle(NOTHING_SPENT, Sum(Open(env, feed, spec).tr, env.rules, opts))
  {
    hide Open, Sum;
    OpenBooks(env, feed, spec, opts);
  }

  lemma EarlyExit(env: Env, feed: Feed, spec: Spec, started: Instant, tr: Trace, bill: Bill,
                  status: Status, kind: string, failure: Option<Failure>)
    requires status.Failed? <==> failure.Some?
    requires !status.Completed?
    requires Idle(bill, Sum(tr, env.rules, Options(feed.kind, Shown(tr, spec))))
    ensures Settled(env, feed, spec, Close(env, feed, spec, started, tr, bill, status, kind, failure, [], []))
  {
    hide Sum, Shown, Close, Balanced, CommittedOnce, BillMatches;
    var opts := Options(feed.kind, Shown(tr, spec));
    CloseBooks(env, feed, spec, started, tr, bill, status, kind, failure, [], [], Sum(tr, env.rules, opts), opts);
    CloseAdds(env, feed, spec, started, tr, bill, status, kind, failure, [], []);
    ShownKept(tr, Close(env, feed, spec, started, tr, bill, status, kind, failure, [], []).tr, {Clock, Commit}, spec);
  }

  /** The rules a run was held to are those of the candidate set its history shows. */
  lemma RunShown(env: Env, feed: Feed, spec: Spec)
    requires Open(env, feed, spec).value.Ready?
    ensures !feed.kind.OtherKind?
    ensures Open(env, feed, spec).value.opts == Options(feed.kind, Shown(RunAll(env, feed, spec).tr, spec))
  {
    hide Shown, Open, Attempts, Finish, Adds;
    var start := Open(env, feed, spec);
    var job, n := RunJob(env, feed, spec, start.value), MaxAttempts(feed, spec);
    var p := Attempts(job, start.tr, n);
    OpenShown(env, feed, spec);
    AttemptsAdds(job, start.tr, n);
    ShownKept(start.tr, p.tr, {Generate, Novelty}, spec);
    FinishAdds(job, env.clock(Start), p);
    ShownKept(p.tr, Finish(job, env.clock(Start), p).tr, CLOSING, spec);
  }

  lemma AttemptedTotals(env: Env, feed: Feed, spec: Spec)
    requires Open(env, feed, spec).value.Ready?
    ensures Settled(env, feed, spec, RunAll(env, feed, spec))
  {
    hide Sum, Shown, Open, Attempts, Finish, Balanced, CommittedOnce, Plus, Matches;
    RunShown(env, feed, spec);
    var start := Open(env, feed, spec);
    var job, n := RunJob(env, feed, spec, start.value), MaxAttempts(feed, spec);
    OpenBooks(env, feed, spec, job.opts);
    var d := AttemptsBooks(job, start.tr, n);
    ZeroPlus(d);
    FinishBooks(job, env.clock(Start), Attempts(job, start.tr, n), d);
  }

  lemma RunTotals(env: Env, feed: Feed, spec: Spec)
    ensures Settled(env, feed, spec, RunAll(env, feed, spec))
  {
    hide Sum, Shown, Close, Open, Attempts, Finish, Settled, ErrorKind, Idle;
    var started, start := env.clock(Start), Open(env, feed, spec);
    OpenIdle(env, feed, spec, Options(feed.kind, Shown(start.tr, spec)));
    match start.value
    case Stopped(f) =>
      EarlyExit(env, feed, spec, started, start.tr, NOTHING_SPENT, Failed, ErrorKind(f), Some(f));
    case NothingToJudge =>
      EarlyExit(env, feed, spec, started, start.tr, NOTHING_SPENT, Skipped, "nothing_noteworthy", None);
    case Ready(_, _) =>
      AttemptedTotals(env, feed, spec);
  }

  lemma ZeroPlus(a: Tally)
    ensures Plus(ZERO, a) == a
  {
    assert multiset{} + a.reasons == a.reasons;
  }

  /**
   * Against any outside world, a run calls CommitRun exactly once, as its last act; the row's tokens,
   * cost and reasons are the exact sums over every Generate and Format call and novelty check in the
   * history, failed, repaired and retried ones included; the row is completed exactly when items were
   * published, and a skipped or failed row carries neither items nor embeddings.
   */
  lemma RunLedger(env: Env, feed: Feed, spec: Spec)
    ensures var o := RunAll(env, feed, spec);
            var t := Books(env, feed, spec, o.tr);
            Balanced(t, feed, spec, o) && CommittedOnce(t, o) && StatusFits(o)
  {
    hide RunAll, Books, Balanced, CommittedOnce, StatusFits;
    RunTotals(env, feed, spec);
  }

  /**
   * Candidate conservation: in a completed or skipped run every draft the model returned is committed,
   * cut by the per-run cap, rejected by validation or rejected by the novelty gate, and each rejected
   * one is covered by at least one counted reason.
   */
  lemma Conservation(env: Env, feed: Feed, spec: Spec)
    requires !feed.kind.OtherKind?
    ensures var o := RunAll(env, feed, spec);
            var t := Books(env, feed, spec, o.tr);
            && t.invalid + t.stale <= o.run.itemsRejected
            && (!o.run.status.Failed? ==>
                  var cut := if 0 < spec.itemsPerRun < Survivors(t) then Survivors(t) - spec.itemsPerRun else 0;
                  t.returned == |o.committed| + cut + t.invalid + t.stale)
  {
    hide RunAll, Sum, Shown, CommittedOnce, StatusFits;
    RunTotals(env, feed, spec);
    var o := RunAll(env, feed, spec);
    ReasonsCoverRejects(o.tr, env.rules, Options(feed.kind, Shown(o.tr, spec)));
  }

  lemma {:induction false} ReasonsCoverRejects(tr: Trace, r: Rules, opts: Options)
    requires !opts.kind.OtherKind?
    ensures var t := Sum(tr, r, opts);
            t.invalid + t.stale <= |t.reasons|
  {
    hide BatchReasons, InvalidCount, Tokens, AcceptedItems;
    if tr.Then? {
      ReasonsCoverRejects(tr.past, r, opts);
      if tr.last.Generated? && tr.last.reply.Ok? { BatchSplits(r, tr.last.reply.value.items, opts); }
    }
  }

  /** Model calls are bounded: two per attempt, and one Format call per published item at most. */
  lemma CallsBounded(env: Env, feed: Feed, spec: Spec)
    ensures var o := RunAll(env, feed, spec);
            var t := Books(env, feed, spec, o.tr);
            && (feed.kind.Generative? ==> t.calls <= 2 * (1 + if spec.maxNoveltyRetries > 0 then spec.maxNoveltyRetries else 0))
            && (!feed.kind.Generative? ==> t.calls <= 2)
            && t.formats <= |o.committed|
            && (spec.itemsPerRun > 0 ==> t.formats <= spec.itemsPerRun)
  {
    hide RunAll, Books, Balanced, CommittedOnce, StatusFits;
    RunTotals(env, feed, spec);
  }

  /** The ranges internal/feedspec accepts for the two numbers that multiply provider calls. */
  predicate RecipeInRange(spec: Spec) {
    1 <= spec.itemsPerRun <= 50 && 0 <= spec.maxNoveltyRetries <= 10
  }

  /** A recipe that passes validation spends at most 22 generation and 50 formatting calls a run. */
  lemma ValidRecipeCallBudget(env: Env, feed: Feed, spec: Spec)
    requires RecipeInRange(spec)
    ensures var t := Books(env, feed, spec, RunAll(env, feed, spec).tr);
            t.calls <= 22 && t.formats <= 50
  {
    hide RunAll, Books;
    CallsBounded(env, feed, spec);
  }
}
