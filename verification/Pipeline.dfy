/**
 * What each step of the pipeline computes, as functions that thread the history. The
 * methods of module Runner are proved equal to these; the theorems are about these.
 */
module Pipeline {
  import opened Basics
  import opened Contract
  import opened FormatRules
  import opened World

  datatype Step<+T> = Step(tr: Trace, value: T)

  // ----- Step 1: acquire context -----

  function ToArticle(c: SourceCandidate): Article {
    Article(c.title, c.url, c.date, c.excerpt)
  }

  function Articles(cs: seq<SourceCandidate>): seq<Article> {
    seq(|cs|, i requires 0 <= i < |cs| => ToArticle(cs[i]))
  }

  function URLs(cs: seq<SourceCandidate>): seq<string> {
    seq(|cs|, i requires 0 <= i < |cs| => cs[i].url)
  }

  datatype Context = Context(data: PromptData, opts: Options)

  function Acquire(env: Env, tr: Trace, feed: Feed, spec: Spec, now: Instant): Step<Result<Context, Failure>> {
    var data := PromptData(env.words.calendar(now, feed.timezone), feed.title, spec.itemsPerRun, [], []);
    match feed.kind
    case Generative =>
      var n := if spec.recentTitlesN <= 0 then DEFAULT_RECENT_TITLES else spec.recentTitlesN;
      var titles := env.recentTitles(tr, n);
      var tr := Then(tr, TitlesRead(n, titles));
      if titles.Err? then Step(tr, Err(ContextFailed(titles.error)))
      else Step(tr, Ok(Context(data.(recentTitles := titles.value), Options(feed.kind, []))))
    case Grounded =>
      var cands := env.candidates(tr);
      var tr := Then(tr, CandidatesRead(cands));
      if cands.Err? then Step(tr, Err(ContextFailed(cands.error)))
      else
        var shown := Take(cands.value, CandidateCap(spec));
        Step(tr, Ok(Context(data.(candidates := Articles(shown)), Options(feed.kind, URLs(shown)))))
    case _ => Step(tr, Err(ContextFailed("unsupported feed kind")))
  }

  // ----- Steps 2-4 and 6: call, validate, repair once -----

  /** Everything fixed for the duration of one run. */
  datatype Job = Job(env: Env, feed: Feed, spec: Spec, opts: Options, prompt: string, id: RequestID)

  function EffectiveSystem(env: Env, spec: Spec): string {
    if !spec.watchMode then spec.systemPrompt
    else if spec.systemPrompt == "" then env.words.watchNote
    else spec.systemPrompt + "\n\n" + env.words.watchNote
  }

  function AcceptedItems(r: Rules, ds: seq<Draft>, opts: Options): seq<Item> {
    if ds == [] then []
    else
      var v := Judge(r, ds[|ds| - 1], opts);
      AcceptedItems(r, ds[..|ds| - 1], opts) + if v.Accepted? then [v.item] else []
  }

  function ReasonCounts(faults: seq<Rejection>): multiset<Reason> {
    if faults == [] then multiset{}
    else ReasonCounts(faults[..|faults| - 1]) + multiset{faults[|faults| - 1].reason}
  }

  function DraftReasons(r: Rules, d: Draft, opts: Options): multiset<Reason> {
    var v := Judge(r, d, opts);
    if v.Rejected? then ReasonCounts(v.faults) else multiset{}
  }

  function BatchReasons(r: Rules, ds: seq<Draft>, opts: Options): multiset<Reason> {
    if ds == [] then multiset{}
    else BatchReasons(r, ds[..|ds| - 1], opts) + DraftReasons(r, ds[|ds| - 1], opts)
  }

  /** One model call: what validated, what was rejected and why, and its token estimate. */
  datatype CallResult = CallResult(
    tr: Trace, valid: seq<Item>, reasons: multiset<Reason>, tokensIn: nat, tokensOut: nat,
    returned: nat, failure: Option<Failure>)

  function Request(job: Job, prompt: string): GenRequest {
    GenRequest(prompt, EffectiveSystem(job.env, job.spec), job.spec.model, job.spec.effort,
               job.spec.itemsPerRun, job.id, job.spec.webSearch)
  }

  function Call(job: Job, tr: Trace, prompt: string): CallResult {
    var req := Request(job, prompt);
    var reply := job.env.generate(tr, req);
    var tr' := Then(tr, Generated(req, reply));
    var tokensIn := Tokens(req.system) + Tokens(prompt);
    if reply.Err? then
      CallResult(tr', [], multiset{}, tokensIn, 0, 0, Some(ProviderFailed(reply.error)))
    else
      var drafts, tokensOut := reply.value.items, Tokens(reply.value.raw);
      if job.opts.kind.OtherKind? && drafts != [] then
        CallResult(tr', [], multiset{}, tokensIn, tokensOut, |drafts|, Some(KindUnknown))
      else
        CallResult(tr', AcceptedItems(job.env.rules, drafts, job.opts),
                   BatchReasons(job.env.rules, drafts, job.opts), tokensIn, tokensOut, |drafts|, None)
  }

  datatype Attempt = Attempt(
    tr: Trace, valid: seq<Item>, reasons: multiset<Reason>, tokensIn: nat, tokensOut: nat,
    watchEmpty: bool, failure: Option<Failure>)

  function ReasonSet(m: multiset<Reason>): set<Reason> {
    set r | r in m
  }

  function RepairPrompt(job: Job, reasons: multiset<Reason>): string {
    job.prompt + "\n\n" + job.env.words.repairNote(ReasonSet(reasons))
  }

  /** `runAttempt`: one call, and one repair call only when nothing at all validated. */
  function TryOnce(job: Job, tr: Trace): Attempt {
    var a := Call(job, tr, job.prompt);
    if a.failure.Some? then Attempt(a.tr, [], a.reasons, a.tokensIn, a.tokensOut, false, a.failure)
    else if a.valid != [] then Attempt(a.tr, a.valid, a.reasons, a.tokensIn, a.tokensOut, false, None)
    else if job.spec.watchMode && a.returned == 0 then
      Attempt(a.tr, [], a.reasons, a.tokensIn, a.tokensOut, true, None)
    else
      var b := Call(job, a.tr, RepairPrompt(job, a.reasons));
      Attempt(b.tr, b.valid, a.reasons + b.reasons, a.tokensIn + b.tokensIn, a.tokensOut + b.tokensOut, false,
              if b.failure.Some? then b.failure else if b.valid == [] then Some(MalformedOutput) else None)
  }

  // ----- Step 5: novelty -----

  function NoveltyText(it: Item): string {
    it.title + " " + it.summary
  }

  datatype Sifted = Sifted(tr: Trace, items: seq<Item>, vecs: seq<Vector>, reasons: multiset<Reason>)

  function SiftOne(gate: Gate, s: Sifted, it: Item): Sifted
    requires gate.Gate?
  {
    var verdict := gate.check(s.tr, NoveltyText(it));
    var tr := Then(s.tr, NoveltyChecked(NoveltyText(it), verdict));
    match verdict
    case CheckBroke => s.(tr := tr, reasons := s.reasons + multiset{NoveltyCheckFailed})
    case Duplicate => s.(tr := tr, reasons := s.reasons + multiset{NoveltyDuplicate})
    case Novel(vec) => s.(tr := tr, items := s.items + [it], vecs := s.vecs + if gate.vectors then [vec] else [])
  }

  /** `filterNovel`: the items the gate calls novel, in order, with their vectors when it returns them. */
  function Sift(gate: Gate, tr: Trace, items: seq<Item>): Sifted {
    if gate.NoGate? then Sifted(tr, items, [], multiset{})
    else if items == [] then Sifted(tr, [], [], multiset{})
    else SiftOne(gate, Sift(gate, tr, items[..|items| - 1]), items[|items| - 1])
  }

  // ----- The attempt loop -----

  datatype Progress = Progress(
    tr: Trace, tokensIn: nat, tokensOut: nat, reasons: multiset<Reason>,
    items: seq<Item>, vecs: seq<Vector>, quiet: bool, failure: Option<Failure>, done: bool)

  function Sifting(job: Job, tr: Trace, items: seq<Item>): Sifted {
    if job.feed.kind.Generative? then Sift(job.env.novelty, tr, items) else Sifted(tr, items, [], multiset{})
  }

  function OneMore(job: Job, p: Progress): Progress {
    var a := TryOnce(job, p.tr);
    var p := p.(tr := a.tr, tokensIn := p.tokensIn + a.tokensIn, tokensOut := p.tokensOut + a.tokensOut,
                reasons := p.reasons + a.reasons);
    if a.failure.Some? then p.(failure := a.failure, done := true)
    else if a.watchEmpty then p.(quiet := true, done := true)
    else
      var s := Sifting(job, p.tr, a.valid);
      var p := p.(tr := s.tr, items := p.items + s.items, vecs := p.vecs + s.vecs, reasons := p.reasons + s.reasons);
      p.(done := p.items != [] || !job.feed.kind.Generative?)
  }

  function Fresh(tr: Trace): Progress {
    Progress(tr, 0, 0, multiset{}, [], [], false, None, false)
  }

  /** The state after at most `n` attempts. */
  function Attempts(job: Job, tr: Trace, n: nat): Progress {
    if n == 0 then Fresh(tr)
    else
      var p := Attempts(job, tr, n - 1);
      if p.done then p else OneMore(job, p)
  }

  // ----- Step 7: stamping -----

  /** Where this run's timestamps start: now, or one second past a newest item that now has not passed. */
  function Base(newest: Instant, now: Instant): Instant {
    if newest != 0 && now <= newest then newest + SECOND else now
  }

  function ContentHash(env: Env, slug: string, title: string, ts: Instant, zone: Zone): string {
    env.words.sha256(slug + "|" + env.rules.lower(TrimSpace(title)) + "|" + env.words.day(ts, zone))
  }

  function StampOne(env: Env, feed: Feed, s: Step<seq<Item>>, it: Item, base: Instant, now: Instant): Step<seq<Item>> {
    var ts := base + |s.value| * SECOND;
    var key := env.newKey(s.tr, ts);
    Step(Then(s.tr, KeyMinted(ts, key)),
         s.value + [it.(feedID := feed.id, publishedAt := ts, itemKey := key,
                        contentHash := ContentHash(env, feed.slug, it.title, ts, if base == now then OfClock else OfRow),
                        origin := "generated", createdAt := now, updatedAt := now)])
  }

  function Stamp(env: Env, tr: Trace, feed: Feed, items: seq<Item>, base: Instant, now: Instant): Step<seq<Item>> {
    if items == [] then Step(tr, [])
    else StampOne(env, feed, Stamp(env, tr, feed, items[..|items| - 1], base, now), items[|items| - 1], base, now)
  }

  // ----- Stage 2: formatting -----

  datatype Styled = Styled(tr: Trace, items: seq<Item>, tokensIn: nat, tokensOut: nat)

  function FormatPrompt(env: Env, it: Item): string {
    env.words.formatPrompt(it.title, it.summary, it.body, it.answer, it.link)
  }

  function StyleOne(env: Env, spec: Spec, id: RequestID, s: Styled, it: Item): Styled
    requires env.formatter.Formatter?
  {
    var req := FormatRequest(FormatPrompt(env, it), env.words.formatSystem, spec.model, spec.effort,
                             FormatID(id, |s.items|));
    var reply := env.formatter.format(s.tr, req);
    var tr := Then(s.tr, Formatted(req, reply));
    var tokensIn := s.tokensIn + Tokens(req.system) + Tokens(req.prompt);
    if reply.Err? then Styled(tr, s.items + [it], tokensIn, s.tokensOut)
    else Styled(tr, s.items + [it.(formats := Vetted(env.rules, reply.value.formats, it))], tokensIn,
                s.tokensOut + Tokens(reply.value.raw))
  }

  function Style(env: Env, tr: Trace, spec: Spec, items: seq<Item>, id: RequestID): Styled {
    if env.formatter.NoFormatter? then Styled(tr, items, 0, 0)
    else if items == [] then Styled(tr, [], 0, 0)
    else StyleOne(env, spec, id, Style(env, tr, spec, items[..|items| - 1], id), items[|items| - 1])
  }

  function Zip(items: seq<Item>, vecs: seq<Vector>): seq<Embedding> {
    if vecs == [] || |vecs| != |items| then []
    else seq(|items|, i requires 0 <= i < |items| => Embedding(items[i].itemKey, vecs[i]))
  }

  // ----- The whole run -----

  datatype RunError = RunFailed(failure: Failure) | CommitFailed(cause: string, also: Option<Failure>)

  /** `committed` is what was handed to the store; `returned` is what the caller got back. */
  datatype RunOutcome = RunOutcome(
    tr: Trace, run: RunRecord, committed: seq<Item>, returned: seq<Item>, error: Option<RunError>)

  function ErrorKind(f: Failure): string {
    match f
    case ContextFailed(_) => "context_acquire_failed"
    case RenderFailed(_) => "prompt_render_failed"
    case MalformedOutput => "malformed_output"
    case ProviderFailed(e) => if e.kind.Some? then e.kind.value else "provider_error"
    case KindUnknown => "provider_error"
    case StoreFailed(_) => "store_error"
  }

  datatype Bill = Bill(tokensIn: nat, tokensOut: nat, reasons: multiset<Reason>)

  const NOTHING_SPENT := Bill(0, 0, multiset{})

  /** The commit closure: the single exit, which hands the store one closed run row. */
  function Close(env: Env, feed: Feed, spec: Spec, started: Instant, tr: Trace, bill: Bill,
                 status: Status, kind: string, failure: Option<Failure>,
                 items: seq<Item>, embeddings: seq<Embedding>): RunOutcome
  {
    var finished := env.clock(tr);
    var tr := Then(tr, ClockRead(finished));
    var run := RunRecord(feed.id, started, finished, status, kind, failure,
                         failure.Some? && failure.value.ProviderFailed? && failure.value.cause.accountScoped,
                         |items|, |bill.reasons|, bill.reasons, embeddings,
                         bill.tokensIn, bill.tokensOut, Cost(bill.tokensIn, bill.tokensOut, spec), spec.trigger);
    var fault := env.commit(tr, run, items);
    var tr := Then(tr, Committed(run, items, fault));
    if fault.Some? then RunOutcome(tr, run, items, [], Some(CommitFailed(fault.value, failure)))
    else RunOutcome(tr, run, items, items, if failure.Some? then Some(RunFailed(failure.value)) else None)
  }

  function Fail(env: Env, feed: Feed, spec: Spec, started: Instant, tr: Trace, bill: Bill, f: Failure): RunOutcome {
    Close(env, feed, spec, started, tr, bill, Failed, ErrorKind(f), Some(f), [], [])
  }

  function Skip(env: Env, feed: Feed, spec: Spec, started: Instant, tr: Trace, bill: Bill, kind: string): RunOutcome {
    Close(env, feed, spec, started, tr, bill, Skipped, kind, None, [], [])
  }

  function Spent(p: Progress): Bill {
    Bill(p.tokensIn, p.tokensOut, p.reasons)
  }

  function EmptyKind(feed: Feed, quiet: bool): string {
    if quiet then "nothing_noteworthy" else if feed.kind.Generative? then "novelty_exhausted" else "no_valid_items"
  }

  /** Cap, stamp, format and commit what the attempts produced. */
  function Finish(job: Job, started: Instant, p: Progress): RunOutcome {
    var env, feed, spec := job.env, job.feed, job.spec;
    if p.failure.Some? then Fail(env, feed, spec, started, p.tr, Spent(p), p.failure.value)
    else if p.items == [] then Skip(env, feed, spec, started, p.tr, Spent(p), EmptyKind(feed, p.quiet))
    else
      var newest := env.newest(p.tr);
      var tr := Then(p.tr, NewestRead(newest));
      if newest.Err? then Fail(env, feed, spec, started, tr, Spent(p), StoreFailed(newest.error))
      else
        var now := env.clock(tr);
        var stamped := Stamp(env, Then(tr, ClockRead(now)), feed, Capped(p.items, spec), Base(newest.value, now), now);
        var styled := Style(env, stamped.tr, spec, stamped.value, job.id);
        Close(env, feed, spec, started, styled.tr,
              Bill(p.tokensIn + styled.tokensIn, p.tokensOut + styled.tokensOut, p.reasons),
              Completed, "", None, styled.items, Zip(styled.items, Capped(p.vecs, spec)))
  }

  /** Steps shared by a run and a sample up to the first model call. */
  datatype Opening =
    | Stopped(failure: Failure)
    | NothingToJudge
    | Ready(prompt: string, opts: Options)

  function Open(env: Env, feed: Feed, spec: Spec): Step<Opening> {
    var now := env.clock(Start);
    var ctx := Acquire(env, Then(Start, ClockRead(now)), feed, spec, now);
    if ctx.value.Err? then Step(ctx.tr, Stopped(ctx.value.error))
    else if spec.watchMode && feed.kind.Grounded? && ctx.value.value.opts.candidateURLs == [] then
      Step(ctx.tr, NothingToJudge)
    else
      var prompt := env.words.render(spec.userTemplate, ctx.value.value.data);
      if prompt.Err? then Step(ctx.tr, Stopped(RenderFailed(prompt.error)))
      else Step(ctx.tr, Ready(prompt.value, ctx.value.value.opts))
  }

  function RunJob(env: Env, feed: Feed, spec: Spec, ready: Opening): Job
    requires ready.Ready?
  {
    Job(env, feed, spec, ready.opts, ready.prompt, RunID(feed.slug, env.clock(Start)))
  }

  function RunAll(env: Env, feed: Feed, spec: Spec): RunOutcome {
    var started := env.clock(Start);
    var o := Open(env, feed, spec);
    match o.value
    case Stopped(f) => Fail(env, feed, spec, started, o.tr, NOTHING_SPENT, f)
    case NothingToJudge => Skip(env, feed, spec, started, o.tr, NOTHING_SPENT, "nothing_noteworthy")
    case Ready(_, _) =>
      var job := RunJob(env, feed, spec, o.value);
      Finish(job, started, Attempts(job, o.tr, MaxAttempts(feed, spec)))
  }

  // ----- The dry run -----

  datatype SampleOutcome = Sampled(
    tr: Trace, items: seq<Item>, reasons: multiset<Reason>, tokensIn: nat, tokensOut: nat,
    cost: real, failure: Option<Failure>)

  function SampleJob(env: Env, feed: Feed, spec: Spec, ready: Opening): Job
    requires ready.Ready?
  {
    Job(env, feed, spec, ready.opts, ready.prompt, SampleID(feed.slug, env.clock(Start)))
  }

  function SampleOnce(job: Job, tr: Trace): SampleOutcome {
    var a := TryOnce(job, tr);
    var cost := Cost(a.tokensIn, a.tokensOut, job.spec);
    if a.failure.Some? then Sampled(a.tr, [], a.reasons, a.tokensIn, a.tokensOut, cost, a.failure)
    else
      var s := Sifting(job, a.tr, a.valid);
      var styled := Style(job.env, s.tr, job.spec, Capped(s.items, job.spec), job.id);
      Sampled(styled.tr, styled.items, a.reasons + s.reasons, a.tokensIn + styled.tokensIn,
              a.tokensOut + styled.tokensOut, cost + Cost(styled.tokensIn, styled.tokensOut, job.spec), None)
  }

  function SampleAll(env: Env, feed: Feed, spec: Spec): SampleOutcome {
    var o := Open(env, feed, spec);
    match o.value
    case Stopped(f) => Sampled(o.tr, [], multiset{}, 0, 0, 0.0, Some(f))
    case NothingToJudge => Sampled(o.tr, [], multiset{}, 0, 0, 0.0, None)
    case Ready(_, _) => SampleOnce(SampleJob(env, feed, spec, o.value), o.tr)
  }
}
