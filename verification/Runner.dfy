/**
 * The generation pipeline as the program runs it (internal/generate/runner.go and formats.go):
 * loops over batches, counters, parallel slices and early exits, each proved to compute the
 * function of module Pipeline.
 */
module Runner {
  import opened Basics
  import opened Contract
  import opened FormatRules
  import opened World
  import opened Pipeline
  import History

  /** `acquireContext`: the prompt's articles and the link gate's URLs come from one capped fetch. */
  method AcquireContext(env: Env, tr: Trace, feed: Feed, spec: Spec, now: Instant)
    returns (out: Step<Result<Context, Failure>>)
    ensures out == Acquire(env, tr, feed, spec, now)
    ensures feed.kind.Grounded? && out.value.Ok? ==>
              var ctx := out.value.value;
              && |ctx.opts.candidateURLs| == |ctx.data.candidates| <= CandidateCap(spec)
              && forall i | 0 <= i < |ctx.data.candidates| :: ctx.data.candidates[i].url == ctx.opts.candidateURLs[i]
  {
    var data := PromptData(env.words.calendar(now, feed.timezone), feed.title, spec.itemsPerRun, [], []);
    match feed.kind
    case Generative =>
      var n := spec.recentTitlesN;
      if n <= 0 { n := DEFAULT_RECENT_TITLES; }
      var titles := env.recentTitles(tr, n);
      var tr' := Then(tr, TitlesRead(n, titles));
      if titles.Err? { return Step(tr', Err(ContextFailed(titles.error))); }
      return Step(tr', Ok(Context(data.(recentTitles := titles.value), Options(feed.kind, []))));
    case Grounded =>
      var fetched := env.candidates(tr);
      var tr' := Then(tr, CandidatesRead(fetched));
      if fetched.Err? { return Step(tr', Err(ContextFailed(fetched.error))); }
      var cands, max := fetched.value, CandidateCap(spec);
      if |cands| > max { cands := cands[..max]; }
      var articles, urls := [], [];
      for i := 0 to |cands|
        invariant |articles| == |urls| == i
        invariant forall k | 0 <= k < i :: articles[k] == ToArticle(cands[k]) && urls[k] == cands[k].url
      {
        articles := articles + [ToArticle(cands[i])];
        urls := urls + [cands[i].url];
      }
      assert articles == Articles(cands) && urls == URLs(cands);
      return Step(tr', Ok(Context(data.(candidates := articles), Options(feed.kind, urls))));
    case _ =>
      return Step(tr, Err(ContextFailed("unsupported feed kind")));
  }

  method CountReasons(faults: seq<Rejection>, before: multiset<Reason>) returns (reasons: multiset<Reason>)
    ensures reasons == before + ReasonCounts(faults)
  {
    reasons := before;
    for i := 0 to |faults|
      invariant reasons == before + ReasonCounts(faults[..i])
    {
      assert faults[..i + 1][..i] == faults[..i];
      reasons := reasons + multiset{faults[i].reason};
    }
    assert faults[..|faults|] == faults;
  }

  /** The validation loop of one call; `known` is false when the feed kind is not one Validate knows. */
  method ValidateBatch(r: Rules, ds: seq<Draft>, opts: Options)
    returns (valid: seq<Item>, reasons: multiset<Reason>, known: bool)
    ensures known <==> !opts.kind.OtherKind? || ds == []
    ensures known ==> valid == AcceptedItems(r, ds, opts) && reasons == BatchReasons(r, ds, opts)
  {
    hide Judge, Publishable;
    valid, reasons, known := [], multiset{}, true;
    for i := 0 to |ds|
      invariant known && (i > 0 ==> !opts.kind.OtherKind?)
      invariant valid == AcceptedItems(r, ds[..i], opts) && reasons == BatchReasons(r, ds[..i], opts)
    {
      assert ds[..i + 1][..i] == ds[..i];
      var verdict := Validate(r, ds[i], opts);
      KnownKind(r, ds[i], opts);
      match verdict
      case UnknownKind => return [], multiset{}, false;
      case Rejected(faults) => reasons := CountReasons(faults, reasons);
      case Accepted(item) => valid := valid + [item];
    }
    assert ds[..|ds|] == ds;
  }

  lemma KnownKind(r: Rules, d: Draft, opts: Options)
    ensures Judge(r, d, opts).UnknownKind? <==> opts.kind.OtherKind?
  {
    hide Violations;
  }

  method CallModel(job: Job, tr: Trace, prompt: string) returns (c: CallResult)
    ensures c == Call(job, tr, prompt)
  {
    hide AcceptedItems, BatchReasons, EffectiveSystem, Tokens;
    var req := Request(job, prompt);
    var reply := job.env.generate(tr, req);
    var tr' := Then(tr, Generated(req, reply));
    var tokensIn := Tokens(req.system) + Tokens(prompt);
    if reply.Err? { return CallResult(tr', [], multiset{}, tokensIn, 0, 0, Some(ProviderFailed(reply.error))); }
    var drafts, tokensOut := reply.value.items, Tokens(reply.value.raw);
    var valid, reasons, known := ValidateBatch(job.env.rules, drafts, job.opts);
    if !known { return CallResult(tr', [], multiset{}, tokensIn, tokensOut, |drafts|, Some(KindUnknown)); }
    return CallResult(tr', valid, reasons, tokensIn, tokensOut, |drafts|, None);
  }

  lemma FailedCallEmpty(job: Job, tr: Trace, prompt: string)
    ensures Call(job, tr, prompt).failure.Some? ==> Call(job, tr, prompt).valid == []
  {
    hide AcceptedItems, BatchReasons, EffectiveSystem, Tokens;
  }

  lemma OneCall(job: Job, tr: Trace, prompt: string)
    ensures History.Calls(Call(job, tr, prompt).tr) == History.Calls(tr) + 1
  {
    hide AcceptedItems, BatchReasons, EffectiveSystem, Tokens;
  }

  /**
   * `runAttempt`: it ends in a failure, a quiet watch or something valid, after one model call, or after two
   * exactly when the first neither failed nor left anything valid, and was not the quiet answer of a watch.
   */
  method RunAttempt(job: Job, tr: Trace) returns (t: Attempt)
    ensures t == TryOnce(job, tr)
    ensures var first := Call(job, tr, job.prompt);
            var repair := first.failure.None? && first.valid == [] && !(job.spec.watchMode && first.returned == 0);
            History.Calls(t.tr) == History.Calls(tr) + if repair then 2 else 1
    ensures t.failure.None? <==> t.valid != [] || t.watchEmpty
    ensures t.watchEmpty ==> job.spec.watchMode
  {
    hide Call, RepairPrompt, History.Calls;
    OneCall(job, tr, job.prompt);
    var first := Call(job, tr, job.prompt);
    OneCall(job, first.tr, RepairPrompt(job, first.reasons));
    FailedCallEmpty(job, tr, job.prompt);
    FailedCallEmpty(job, first.tr, RepairPrompt(job, first.reasons));
    var a := CallModel(job, tr, job.prompt);
    if a.failure.Some? { return Attempt(a.tr, [], a.reasons, a.tokensIn, a.tokensOut, false, a.failure); }
    if a.valid != [] { return Attempt(a.tr, a.valid, a.reasons, a.tokensIn, a.tokensOut, false, None); }
    if job.spec.watchMode && a.returned == 0 {
      return Attempt(a.tr, [], a.reasons, a.tokensIn, a.tokensOut, true, None);
    }
    var b := CallModel(job, a.tr, RepairPrompt(job, a.reasons));
    var failure := b.failure;
    if failure.None? && b.valid == [] { failure := Some(MalformedOutput); }
    return Attempt(b.tr, b.valid, a.reasons + b.reasons, a.tokensIn + b.tokensIn, a.tokensOut + b.tokensOut, false, failure);
  }

  /** `filterNovel`: a broken check is a rejection, never a pass. */
  method FilterNovel(gate: Gate, tr: Trace, items: seq<Item>) returns (s: Sifted)
    ensures s == Sift(gate, tr, items)
    ensures gate.Gate? && gate.vectors ==> |s.vecs| == |s.items|
    ensures gate.NoGate? || !gate.vectors ==> s.vecs == []
  {
    hide NoveltyText;
    if gate.NoGate? { return Sifted(tr, items, [], multiset{}); }
    var t, out, vecs, reasons := tr, [], [], multiset{};
    for i := 0 to |items|
      invariant Sifted(t, out, vecs, reasons) == Sift(gate, tr, items[..i])
      invariant |vecs| == if gate.vectors then |out| else 0
    {
      assert items[..i + 1][..i] == items[..i];
      var text := NoveltyText(items[i]);
      var verdict := gate.check(t, text);
      t := Then(t, NoveltyChecked(text, verdict));
      if verdict.CheckBroke? {
        reasons := reasons + multiset{NoveltyCheckFailed};
      } else if verdict.Duplicate? {
        reasons := reasons + multiset{NoveltyDuplicate};
      } else {
        out := out + [items[i]];
        vecs := vecs + if gate.vectors then [verdict.vec] else [];
      }
    }
    assert items[..|items|] == items;
    return Sifted(t, out, vecs, reasons);
  }

  /** `stampItems`: keys, hashes and timestamps one second apart, from the anchor Base chooses. */
  method StampItems(env: Env, tr: Trace, feed: Feed, items: seq<Item>, newest: Instant, now: Instant)
    returns (s: Step<seq<Item>>)
    ensures s == Stamp(env, tr, feed, items, Base(newest, now), now)
    ensures |s.value| == |items|
    ensures var anchor := if newest == 0 || now > newest then now else newest + 1_000_000_000;
            forall i | 0 <= i < |items| :: s.value[i].publishedAt == anchor + i * 1_000_000_000
  {
    hide ContentHash;
    var base, zone := now, OfClock;
    if newest != 0 && base <= newest { base, zone := newest + SECOND, OfRow; }
    s := Step(tr, []);
    for i := 0 to |items|
      invariant s == Stamp(env, tr, feed, items[..i], base, now) && |s.value| == i
      invariant forall k | 0 <= k < i :: s.value[k].publishedAt == base + k * SECOND
    {
      assert items[..i + 1][..i] == items[..i];
      var ts := base + i * SECOND;
      var key := env.newKey(s.tr, ts);
      s := Step(Then(s.tr, KeyMinted(ts, key)),
                s.value + [items[i].(feedID := feed.id, publishedAt := ts, itemKey := key,
                                     contentHash := ContentHash(env, feed.slug, items[i].title, ts, zone),
                                     origin := "generated", createdAt := now, updatedAt := now)]);
    }
    assert items[..|items|] == items;
  }

  /** `formatItems`: a failed call or a bad variant leaves the raw item as it was. */
  method FormatItems(env: Env, tr: Trace, spec: Spec, items: seq<Item>, id: RequestID) returns (s: Styled)
    ensures s == Style(env, tr, spec, items, id)
    ensures |s.items| == |items|
  {
    hide Style, Vetted, FormatsOk, SlotsFit, FormatPrompt, Tokens;
    StyleNothing(env, tr, spec, items, id);
    if env.formatter.NoFormatter? || items == [] { return Styled(tr, items, 0, 0); }
    var t, out := tr, items;
    var tokensIn: nat, tokensOut: nat := 0, 0;
    for i := 0 to |items|
      invariant |out| == |items| && out[i..] == items[i..]
      invariant Styled(t, out[..i], tokensIn, tokensOut) == Style(env, tr, spec, items[..i], id)
    {
      ghost var done := out[..i];
      StyleNext(env, tr, spec, items, id, i);
      assert out[i] == out[i..][0] == items[i];
      var prompt := FormatPrompt(env, out[i]);
      tokensIn := tokensIn + (Tokens(env.words.formatSystem) + Tokens(prompt));
      var req := FormatRequest(prompt, env.words.formatSystem, spec.model, spec.effort, FormatID(id, i));
      var reply := env.formatter.format(t, req);
      t := Then(t, Formatted(req, reply));
      if reply.Ok? {
        tokensOut := tokensOut + Tokens(reply.value.raw);
        var formats := ValidateFormats(env.rules, reply.value.formats, out[i]);
        out := out[i := out[i].(formats := formats)];
      }
      assert out[..i + 1] == done + [out[i]];
    }
    assert items[..|items|] == items && out[..|items|] == out;
    return Styled(t, out, tokensIn, tokensOut);
  }

  lemma StyleNothing(env: Env, tr: Trace, spec: Spec, items: seq<Item>, id: RequestID)
    ensures env.formatter.NoFormatter? || items == [] ==> Style(env, tr, spec, items, id) == Styled(tr, items, 0, 0)
    ensures Style(env, tr, spec, items[..0], id) == Styled(tr, [], 0, 0)
  {
  }

  lemma StyleNext(env: Env, tr: Trace, spec: Spec, items: seq<Item>, id: RequestID, i: nat)
    requires env.formatter.Formatter? && i < |items|
    ensures Style(env, tr, spec, items[..i + 1], id) == StyleOne(env, spec, id, Style(env, tr, spec, items[..i], id), items[i])
  {
    hide StyleOne;
    assert items[..i + 1][..i] == items[..i];
  }

  /** `zipEmbeddings`. */
  method ZipEmbeddings(items: seq<Item>, vecs: seq<Vector>) returns (out: seq<Embedding>)
    ensures out == Zip(items, vecs)
  {
    if |vecs| == 0 || |vecs| != |items| { return []; }
    out := [];
    for i := 0 to |items|
      invariant |out| == i
      invariant forall k | 0 <= k < i :: out[k] == Embedding(items[k].itemKey, vecs[k])
    {
      out := out + [Embedding(items[i].itemKey, vecs[i])];
    }
  }

  /** Steps 2-6 for one attempt, folded into the run's totals. */
  method Advance(job: Job, p: Progress) returns (q: Progress)
    ensures q == OneMore(job, p)
    ensures |p.vecs| <= |p.items| ==> |q.vecs| <= |q.items|
  {
    hide TryOnce, Sift, Call, History.Calls;
    var a := RunAttempt(job, p.tr);
    q := p.(tr := a.tr, tokensIn := p.tokensIn + a.tokensIn, tokensOut := p.tokensOut + a.tokensOut,
            reasons := p.reasons + a.reasons);
    if a.failure.Some? { return q.(failure := a.failure, done := true); }
    if a.watchEmpty { return q.(quiet := true, done := true); }
    var s := Sifted(a.tr, a.valid, [], multiset{});
    if job.feed.kind.Generative? { s := FilterNovel(job.env.novelty, a.tr, a.valid); }
    q := q.(tr := s.tr, items := q.items + s.items, vecs := q.vecs + s.vecs, reasons := q.reasons + s.reasons);
    q := q.(done := q.items != [] || !job.feed.kind.Generative?);
  }

  method AttemptLoop(job: Job, tr: Trace, max: nat) returns (p: Progress)
    ensures p == Attempts(job, tr, max)
    ensures |p.vecs| <= |p.items|
  {
    hide OneMore;
    p := Fresh(tr);
    for attempt := 0 to max
      invariant p == Attempts(job, tr, attempt) && !p.done && |p.vecs| <= |p.items|
    {
      p := Advance(job, p);
      if p.done {
        History.AttemptsStable(job, tr, attempt + 1, max);
        break;
      }
    }
  }

  /** Cap, stamp, format and commit. */
  method Publish(job: Job, started: Instant, p: Progress) returns (o: RunOutcome)
    requires |p.vecs| <= |p.items|
    ensures o == Finish(job, started, p)
  {
    hide Close, Stamp, Style, Zip, ErrorKind, EmptyKind, Base;
    var env, feed, spec := job.env, job.feed, job.spec;
    if p.failure.Some? { return Fail(env, feed, spec, started, p.tr, Spent(p), p.failure.value); }
    if p.items == [] { return Skip(env, feed, spec, started, p.tr, Spent(p), EmptyKind(feed, p.quiet)); }
    var items, vecs := p.items, p.vecs;
    if spec.itemsPerRun > 0 && |items| > spec.itemsPerRun {
      items := items[..spec.itemsPerRun];
      if |vecs| > spec.itemsPerRun { vecs := vecs[..spec.itemsPerRun]; }
    }
    var newest := env.newest(p.tr);
    var tr := Then(p.tr, NewestRead(newest));
    if newest.Err? { return Fail(env, feed, spec, started, tr, Spent(p), StoreFailed(newest.error)); }
    var now := env.clock(tr);
    var stamped := StampItems(env, Then(tr, ClockRead(now)), feed, items, newest.value, now);
    var styled := FormatItems(env, stamped.tr, spec, stamped.value, job.id);
    var embeddings := ZipEmbeddings(styled.items, vecs);
    return Close(env, feed, spec, started, styled.tr,
                 Bill(p.tokensIn + styled.tokensIn, p.tokensOut + styled.tokensOut, p.reasons),
                 Completed, "", None, styled.items, embeddings);
  }

  method Begin(env: Env, feed: Feed, spec: Spec) returns (o: Step<Opening>)
    ensures o == Open(env, feed, spec)
  {
    hide Acquire;
    var now := env.clock(Start);
    var ctx := AcquireContext(env, Then(Start, ClockRead(now)), feed, spec, now);
    if ctx.value.Err? { return Step(ctx.tr, Stopped(ctx.value.error)); }
    if spec.watchMode && feed.kind.Grounded? && |ctx.value.value.opts.candidateURLs| == 0 {
      return Step(ctx.tr, NothingToJudge);
    }
    var prompt := env.words.render(spec.userTemplate, ctx.value.value.data);
    if prompt.Err? { return Step(ctx.tr, Stopped(RenderFailed(prompt.error))); }
    return Step(ctx.tr, Ready(prompt.value, ctx.value.value.opts));
  }

  /** `Run`. An aggregate feed has no generator: it is refused before anything is read or written. */
  method Run(env: Env, feed: Feed, spec: Spec) returns (o: Option<RunOutcome>)
    ensures o == if feed.kind.Aggregate? then None else Some(RunAll(env, feed, spec))
  {
    hide Open, Attempts, Finish, Fail, Skip;
    if feed.kind.Aggregate? { return None; }
    var start := Begin(env, feed, spec);
    var started := env.clock(Start);
    match start.value
    case Stopped(f) => return Some(Fail(env, feed, spec, started, start.tr, NOTHING_SPENT, f));
    case NothingToJudge => return Some(Skip(env, feed, spec, started, start.tr, NOTHING_SPENT, "nothing_noteworthy"));
    case Ready(prompt, opts) =>
      var job := Job(env, feed, spec, opts, prompt, RunID(feed.slug, started));
      var max := 1;
      if feed.kind.Generative? && spec.maxNoveltyRetries > 0 { max := 1 + spec.maxNoveltyRetries; }
      var p := AttemptLoop(job, start.tr, max);
      var done := Publish(job, started, p);
      return Some(done);
  }

  /** `Sample`: the same steps with one attempt, no stamps and no store write. */
  method Sample(env: Env, feed: Feed, spec: Spec) returns (o: Option<SampleOutcome>)
    ensures o == if feed.kind.Aggregate? then None else Some(SampleAll(env, feed, spec))
  {
    hide Open, TryOnce, Sift, Style, Cost, Call, History.Calls;
    if feed.kind.Aggregate? { return None; }
    var start := Begin(env, feed, spec);
    match start.value
    case Stopped(f) => return Some(Sampled(start.tr, [], multiset{}, 0, 0, 0.0, Some(f)));
    case NothingToJudge => return Some(Sampled(start.tr, [], multiset{}, 0, 0, 0.0, None));
    case Ready(prompt, opts) =>
      var job := Job(env, feed, spec, opts, prompt, SampleID(feed.slug, env.clock(Start)));
      var a := RunAttempt(job, start.tr);
      var cost := Cost(a.tokensIn, a.tokensOut, spec);
      if a.failure.Some? { return Some(Sampled(a.tr, [], a.reasons, a.tokensIn, a.tokensOut, cost, a.failure)); }
      var s := Sifted(a.tr, a.valid, [], multiset{});
      if feed.kind.Generative? { s := FilterNovel(env.novelty, a.tr, a.valid); }
      var items := s.items;
      if spec.itemsPerRun > 0 && |items| > spec.itemsPerRun { items := items[..spec.itemsPerRun]; }
      var styled := FormatItems(env, s.tr, spec, items, job.id);
      return Some(Sampled(styled.tr, styled.items, a.reasons + s.reasons, a.tokensIn + styled.tokensIn,
                          a.tokensOut + styled.tokensOut, cost + Cost(styled.tokensIn, styled.tokensOut, spec), None));
  }
}
