/**
 * The dry run previews the real run. Sample and Run share no state and use different request
 * identifiers; against any world that does not look at those identifiers they agree.
 */
module Preview {
  import opened Basics
  import opened Contract
  import opened FormatRules
  import opened World
  import opened Pipeline
  import opened History

  // ----- Worlds that do not look at request identifiers -----

  function AnonRequest(r: GenRequest): GenRequest {
    r.(id := Anonymous)
  }

  function AnonFormat(r: FormatRequest): FormatRequest {
    r.(id := Anonymous)
  }

  function Anon(e: Event): Event {
    match e
    case Generated(req, reply) => Generated(AnonRequest(req), reply)
    case Formatted(req, reply) => Formatted(AnonFormat(req), reply)
    case _ => e
  }

  /** The history as the model, the formatter and the gate see it: their own exchanges, without identifiers. */
  function View(tr: Trace): Trace {
    match tr
    case Start => Start
    case Then(past, e) => if SortOf(e) in {Generate, Novelty, Format} then Then(View(past), Anon(e)) else View(past)
  }

  /** With `memory` the collaborators may use all they have seen; without it they answer each question afresh. */
  function Seen(memory: bool, tr: Trace): Trace {
    if memory then View(tr) else Start
  }

  /** Equal histories and equal requests, identifiers aside, get equal answers. */
  ghost predicate Blind(env: Env, memory: bool) {
    && (forall a, b, q, r :: Seen(memory, a) == Seen(memory, b) && AnonRequest(q) == AnonRequest(r) ==>
          env.generate(a, q) == env.generate(b, r))
    && (env.novelty.Gate? ==> forall a, b, text :: Seen(memory, a) == Seen(memory, b) ==>
          env.novelty.check(a, text) == env.novelty.check(b, text))
    && (env.formatter.Formatter? ==>
          forall a, b, q, r :: Seen(memory, a) == Seen(memory, b) && AnonFormat(q) == AnonFormat(r) ==>
            env.formatter.format(a, q) == env.formatter.format(b, r))
  }

  lemma SeenThen(m: bool, a: Trace, b: Trace, e: Event, f: Event)
    requires Seen(m, a) == Seen(m, b) && Anon(e) == Anon(f)
    ensures Seen(m, Then(a, e)) == Seen(m, Then(b, f))
  {
  }

  lemma {:induction false} SeenKept(m: bool, a: Trace, b: Trace, sorts: set<Sort>)
    requires Adds(a, b, sorts) && sorts !! {Generate, Novelty, Format}
    ensures Seen(m, a) == Seen(m, b)
  {
    if a != b { SeenKept(m, a, b.past, sorts); }
  }

  // ----- Step by step -----

  /** The same job under another request identifier. */
  ghost predicate Twins(j: Job, k: Job) {
    j.(id := Anonymous) == k.(id := Anonymous)
  }

  lemma CallTwins(j: Job, k: Job, a: Trace, b: Trace, prompt: string, m: bool)
    requires Twins(j, k) && Blind(j.env, m) && Seen(m, a) == Seen(m, b)
    ensures var c, d := Call(j, a, prompt), Call(k, b, prompt);
            c.(tr := Start) == d.(tr := Start) && Seen(m, c.tr) == Seen(m, d.tr)
  {
    hide AcceptedItems, BatchReasons, EffectiveSystem, Seen, Tokens;
    var q, r := Request(j, prompt), Request(k, prompt);
    assert AnonRequest(q) == AnonRequest(r);
    SeenThen(m, a, b, Generated(q, j.env.generate(a, q)), Generated(r, k.env.generate(b, r)));
  }

  lemma TryTwins(j: Job, k: Job, a: Trace, b: Trace, m: bool)
    requires Twins(j, k) && Blind(j.env, m) && Seen(m, a) == Seen(m, b)
    ensures var c, d := TryOnce(j, a), TryOnce(k, b);
            c.(tr := Start) == d.(tr := Start) && Seen(m, c.tr) == Seen(m, d.tr)
  {
    hide Call, Seen, Blind;
    CallTwins(j, k, a, b, j.prompt, m);
    var c, d := Call(j, a, j.prompt), Call(k, b, j.prompt);
    CallTwins(j, k, c.tr, d.tr, RepairPrompt(j, c.reasons), m);
  }

  lemma {:induction false} SiftTwins(env: Env, a: Trace, b: Trace, items: seq<Item>, m: bool)
    requires Blind(env, m) && Seen(m, a) == Seen(m, b)
    ensures var s, t := Sift(env.novelty, a, items), Sift(env.novelty, b, items);
            s.(tr := Start) == t.(tr := Start) && Seen(m, s.tr) == Seen(m, t.tr)
  {
    hide Seen, NoveltyText;
    if env.novelty.Gate? && items != [] {
      SiftTwins(env, a, b, items[..|items| - 1], m);
      var s, t := Sift(env.novelty, a, items[..|items| - 1]), Sift(env.novelty, b, items[..|items| - 1]);
      var text := NoveltyText(items[|items| - 1]);
      SeenThen(m, s.tr, t.tr, NoveltyChecked(text, env.novelty.check(s.tr, text)), NoveltyChecked(text, env.novelty.check(t.tr, text)));
    }
  }

  /** Equal in every content field and every variant; only the stamps may differ. */
  ghost predicate SamePublished(a: seq<Item>, b: seq<Item>) {
    |a| == |b| && forall i | 0 <= i < |a| :: Content(a[i]) == Content(b[i]) && a[i].formats == b[i].formats
  }

  lemma StyleOneTwins(env: Env, spec: Spec, i: RequestID, j: RequestID, s: Styled, t: Styled, x: Item, y: Item, m: bool)
    requires env.formatter.Formatter? && Blind(env, m) && Seen(m, s.tr) == Seen(m, t.tr)
    requires s.tokensIn == t.tokensIn && s.tokensOut == t.tokensOut && SamePublished(s.items, t.items)
    requires Content(x) == Content(y) && x.formats == y.formats
    ensures var s', t' := StyleOne(env, spec, i, s, x), StyleOne(env, spec, j, t, y);
            && Seen(m, s'.tr) == Seen(m, t'.tr) && SamePublished(s'.items, t'.items)
            && s'.tokensIn == t'.tokensIn && s'.tokensOut == t'.tokensOut
  {
    hide Seen, Vetted, SlotsFit, FormatsOk, Tokens;
    SameFields(x, y);
    var prompt := FormatPrompt(env, x);
    var q := FormatRequest(prompt, env.words.formatSystem, spec.model, spec.effort, FormatID(i, |s.items|));
    var r := FormatRequest(prompt, env.words.formatSystem, spec.model, spec.effort, FormatID(j, |t.items|));
    assert AnonFormat(q) == AnonFormat(r);
    var reply := env.formatter.format(s.tr, q);
    assert reply == env.formatter.format(t.tr, r);
    SeenThen(m, s.tr, t.tr, Formatted(q, reply), Formatted(r, reply));
    if reply.Ok? { VettedSame(env.rules, reply.value.formats, x, y); }
  }

  lemma SameFields(x: Item, y: Item)
    requires Content(x) == Content(y)
    ensures x.title == y.title && x.summary == y.summary && x.body == y.body && x.answer == y.answer && x.link == y.link
  {
  }

  lemma VettedSame(r: Rules, f: Formats, x: Item, y: Item)
    requires Content(x) == Content(y)
    ensures Vetted(r, f, x) == Vetted(r, f, y)
  {
    hide Contains, LinksAbsolute, EncodingOk, TrimSpace, ByteLen, FormatsOk;
    SameFields(x, y);
    assert AnswerText(r, x) == AnswerText(r, y);
  }

  lemma {:induction false} StyleTwins(env: Env, spec: Spec, i: RequestID, j: RequestID, a: Trace, b: Trace, xs: seq<Item>, ys: seq<Item>, m: bool)
    requires Blind(env, m) && Seen(m, a) == Seen(m, b) && SamePublished(xs, ys)
    ensures var s, t := Style(env, a, spec, xs, i), Style(env, b, spec, ys, j);
            && SamePublished(s.items, t.items) && s.tokensIn == t.tokensIn && s.tokensOut == t.tokensOut
            && Seen(m, s.tr) == Seen(m, t.tr)
  {
    hide Seen, StyleOne, Blind;
    if env.formatter.Formatter? && xs != [] {
      var n := |xs| - 1;
      StyleTwins(env, spec, i, j, a, b, xs[..n], ys[..n], m);
      StyleOneTwins(env, spec, i, j, Style(env, a, spec, xs[..n], i), Style(env, b, spec, ys[..n], j), xs[n], ys[n], m);
    }
  }

  // ----- A run whose first attempt decides it -----

  lemma FirstAttemptDecides(job: Job, tr: Trace, n: nat)
    requires n >= 1 && OneMore(job, Fresh(tr)).done
    ensures Attempts(job, tr, n) == OneMore(job, Fresh(tr))
  {
    hide OneMore;
    assert Attempts(job, tr, 0) == Fresh(tr);
    assert Attempts(job, tr, 1) == OneMore(job, Fresh(tr));
    AttemptsStable(job, tr, 1, n);
  }

  /** What one attempt of the run and the sampler's attempt have in common. */
  lemma RoundTwins(j: Job, k: Job, tr: Trace, m: bool)
    requires Twins(j, k) && Blind(j.env, m)
    ensures var p, t := OneMore(j, Fresh(tr)), TryOnce(k, tr);
            && p.failure == t.failure && p.tokensIn == t.tokensIn && p.tokensOut == t.tokensOut
            && (t.failure.Some? ==> p.done && p.reasons == t.reasons)
            && (t.failure.None? && !t.watchEmpty ==>
                  var s := Sifting(k, t.tr, t.valid);
                  && p.items == s.items && p.reasons == t.reasons + s.reasons && Seen(m, p.tr) == Seen(m, s.tr)
                  && (p.items != [] ==> p.done))
            && (t.watchEmpty ==> p.items == [] && p.done)
  {
    hide TryOnce, Sift, Seen, Blind;
    TryTwins(j, k, tr, tr, m);
    var a, t := TryOnce(j, tr), TryOnce(k, tr);
    SiftTwins(j.env, a.tr, t.tr, t.valid, m);
    assert multiset{} + t.reasons == t.reasons;
  }

  lemma WatchEmptyHasNothing(job: Job, tr: Trace)
    ensures var t := TryOnce(job, tr);
            t.watchEmpty ==> t.valid == [] && t.failure.None?
  {
    hide Call, RepairPrompt;
  }

  lemma CostAdds(a: int, b: int, c: int, d: int, spec: Spec)
    ensures Cost(a, b, spec) + Cost(c, d, spec) == Cost(a + c, b + d, spec)
  {
    var x, y := spec.priceIn, spec.priceOut;
    assert (a as real / 1_000_000.0 + c as real / 1_000_000.0) * x == a as real / 1_000_000.0 * x + c as real / 1_000_000.0 * x;
    assert (b as real / 1_000_000.0 + d as real / 1_000_000.0) * y == b as real / 1_000_000.0 * y + d as real / 1_000_000.0 * y;
    assert (a + c) as real / 1_000_000.0 == a as real / 1_000_000.0 + c as real / 1_000_000.0;
    assert (b + d) as real / 1_000_000.0 == b as real / 1_000_000.0 + d as real / 1_000_000.0;
  }

  /** The row and the preview carry the same totals. */
  ghost predicate SameTotals(s: SampleOutcome, o: RunOutcome) {
    && o.run.tokensIn == s.tokensIn && o.run.tokensOut == s.tokensOut
    && o.run.rejectReasons == s.reasons && o.run.cost == s.cost
  }

  lemma PublishTwins(job: Job, started: Instant, p: Progress, id: RequestID, b: Trace, m: bool)
    requires Blind(job.env, m) && Seen(m, p.tr) == Seen(m, b)
    requires p.failure.None? && p.items != [] && job.env.newest(p.tr).Ok?
    ensures var o := Finish(job, started, p);
            var styled := Style(job.env, b, job.spec, Capped(p.items, job.spec), id);
            && o.run.status.Completed? && SamePublished(styled.items, o.committed)
            && o.run.tokensIn == p.tokensIn + styled.tokensIn && o.run.tokensOut == p.tokensOut + styled.tokensOut
            && o.run.rejectReasons == p.reasons
            && o.run.cost == Cost(p.tokensIn + styled.tokensIn, p.tokensOut + styled.tokensOut, job.spec)
  {
    hide Stamp, Style, Zip, Base, Cost, Seen, Blind;
    var env, feed, spec := job.env, job.feed, job.spec;
    var tr := Then(p.tr, NewestRead(env.newest(p.tr)));
    var now := env.clock(tr);
    var capped, base, read := Capped(p.items, spec), Base(env.newest(p.tr).value, now), Then(tr, ClockRead(now));
    StampContent(env, read, feed, capped, base, now);
    StampAdds(env, read, feed, capped, base, now);
    var stamped := Stamp(env, read, feed, capped, base, now);
    SeenKept(m, read, stamped.tr, {Key});
    AddsOne(p.tr, NewestRead(env.newest(p.tr)));
    SeenKept(m, p.tr, tr, {Newest});
    AddsOne(tr, ClockRead(now));
    SeenKept(m, tr, read, {Clock});
    StyleTwins(env, spec, job.id, id, stamped.tr, b, stamped.value, capped, m);
  }

  lemma SampleEmptyStyle(job: Job, tr: Trace)
    ensures Style(job.env, tr, job.spec, [], job.id) == Styled(tr, [], 0, 0)
  {
  }

  /** The whole comparison after the shared opening. */
  lemma DecidedTwins(env: Env, feed: Feed, spec: Spec, m: bool)
    requires Blind(env, m) && Open(env, feed, spec).value.Ready?
    requires forall tr :: env.newest(tr).Ok?
    ensures Agrees(SampleAll(env, feed, spec), RunAll(env, feed, spec))
  {
    hide Open, TryOnce, Sift, Style, Finish, Attempts, OneMore, Seen, Blind, Cost, Agrees;
    var start, started := Open(env, feed, spec), env.clock(Start);
    var j, k, n := RunJob(env, feed, spec, start.value), SampleJob(env, feed, spec, start.value), MaxAttempts(feed, spec);
    var p, t := OneMore(j, Fresh(start.tr)), TryOnce(k, start.tr);
    RoundTwins(j, k, start.tr, m);
    WatchEmptyHasNothing(k, start.tr);
    var s := Sifting(k, t.tr, t.valid);
    var styled := Style(env, s.tr, spec, Capped(s.items, spec), k.id);
    if t.failure.Some? {
      FirstAttemptDecides(j, start.tr, n);
      FailedTwins(j, started, p, SampleAll(env, feed, spec));
    } else if t.watchEmpty {
      QuietSample(k, start.tr);
      NothingToAgree(SampleAll(env, feed, spec), RunAll(env, feed, spec));
    } else if s.items != [] {
      FirstAttemptDecides(j, start.tr, n);
      PublishTwins(j, started, p, k.id, s.tr, m);
      CostAdds(t.tokensIn, t.tokensOut, styled.tokensIn, styled.tokensOut, spec);
      CompletedTwins(SampleAll(env, feed, spec), RunAll(env, feed, spec));
    } else {
      SampleEmptyStyle(k, s.tr);
      NothingToAgree(SampleAll(env, feed, spec), RunAll(env, feed, spec));
    }
  }

  /** An error of the sample is the failure of the run; a non-empty sample is what the run publishes. */
  ghost predicate Agrees(s: SampleOutcome, o: RunOutcome) {
    && (s.failure.Some? ==> o.run.status.Failed? && o.run.error == s.failure && SameTotals(s, o))
    && (s.failure.None? && s.items != [] ==>
          o.run.status.Completed? && SamePublished(s.items, o.committed) && SameTotals(s, o))
  }

  lemma CompletedTwins(s: SampleOutcome, o: RunOutcome)
    requires s.failure.None? && o.run.status.Completed? && SamePublished(s.items, o.committed) && SameTotals(s, o)
    ensures Agrees(s, o)
  {
  }

  lemma NothingToAgree(s: SampleOutcome, o: RunOutcome)
    requires s.failure.None? && s.items == []
    ensures Agrees(s, o)
  {
  }

  lemma FailedTwins(j: Job, started: Instant, p: Progress, s: SampleOutcome)
    requires p.failure.Some? && s.failure == p.failure
    requires s.tokensIn == p.tokensIn && s.tokensOut == p.tokensOut && s.reasons == p.reasons
    requires s.cost == Cost(p.tokensIn, p.tokensOut, j.spec)
    ensures Agrees(s, Finish(j, started, p))
  {
    hide Cost, ErrorKind;
  }

  lemma QuietSample(k: Job, tr: Trace)
    requires TryOnce(k, tr).watchEmpty && TryOnce(k, tr).valid == [] && TryOnce(k, tr).failure.None?
    ensures SampleOnce(k, tr).failure.None? && SampleOnce(k, tr).items == []
  {
    hide TryOnce, Cost;
  }

  /**
   * The dry run previews the real run. For every world that ignores request identifiers, however it
   * otherwise uses what it has seen, with the feed's newest timestamp readable: if Sample returns items,
   * Run completes with the same items in every content field and variant and the same reasons, tokens
   * and cost; if Sample errors, Run fails with that very error and the same totals.
   */
  lemma SamplePreviewsRun(env: Env, feed: Feed, spec: Spec)
    requires Blind(env, true)
    requires forall tr :: env.newest(tr).Ok?
    ensures Agrees(SampleAll(env, feed, spec), RunAll(env, feed, spec))
  {
    PreviewAnyMemory(env, feed, spec, true);
  }

  lemma PreviewAnyMemory(env: Env, feed: Feed, spec: Spec, m: bool)
    requires Blind(env, m)
    requires forall tr :: env.newest(tr).Ok?
    ensures Agrees(SampleAll(env, feed, spec), RunAll(env, feed, spec))
  {
    hide Open, Attempts, Finish, SampleOnce, Blind, Cost, ErrorKind;
    var start := Open(env, feed, spec);
    if start.value.Ready? {
      DecidedTwins(env, feed, spec, m);
    } else if start.value.Stopped? {
      assert Cost(0, 0, spec) == 0.0 by { FreeOfCharge(spec); }
    }
  }

  lemma FreeOfCharge(spec: Spec)
    ensures Cost(0, 0, spec) == 0.0
  {
  }

  // ----- The sampler never writes -----

  lemma SampleOnceAdds(k: Job, tr: Trace)
    ensures Adds(tr, SampleOnce(k, tr).tr, {Generate, Novelty, Format})
  {
    hide TryOnce, Sift, Style, Adds, Take, Cost;
    var t := TryOnce(k, tr);
    TryAdds(k, tr);
    AddsWiden(tr, t.tr, {Generate}, {Generate, Novelty, Format});
    var s := Sifting(k, t.tr, t.valid);
    AddsNothing(t.tr, {Novelty});
    SiftAdds(k.env.novelty, t.tr, t.valid);
    AddsTrans(tr, t.tr, s.tr, {Generate}, {Novelty});
    var styled := Style(k.env, s.tr, k.spec, Capped(s.items, k.spec), k.id);
    StyleAdds(k.env, s.tr, k.spec, Capped(s.items, k.spec), k.id);
    AddsTrans(tr, s.tr, styled.tr, {Generate} + {Novelty}, {Format});
    assert {Generate} + {Novelty} + {Format} == {Generate, Novelty, Format};
  }

  /** Whatever happens, a sample only reads and asks: it never commits, stamps a key or reads the newest item. */
  lemma SampleNeverWrites(env: Env, feed: Feed, spec: Spec)
    ensures Adds(Start, SampleAll(env, feed, spec).tr, {Clock, Titles, Candidates, Generate, Novelty, Format})
  {
    hide Open, SampleOnce, Adds;
    var start := Open(env, feed, spec);
    OpenAdds(env, feed, spec);
    AddsWiden(Start, start.tr, {Clock, Titles, Candidates}, {Clock, Titles, Candidates, Generate, Novelty, Format});
    if start.value.Ready? {
      var k := SampleJob(env, feed, spec, start.value);
      SampleOnceAdds(k, start.tr);
      AddsTrans(Start, start.tr, SampleOnce(k, start.tr).tr, {Clock, Titles, Candidates}, {Generate, Novelty, Format});
      assert {Clock, Titles, Candidates} + {Generate, Novelty, Format} == {Clock, Titles, Candidates, Generate, Novelty, Format};
    }
  }

  // ----- Worlds without memory: the sample decides the run's status -----

  /** In such a world every attempt repeats the first, so an empty one stays empty. */
  lemma {:induction false} BarrenAttempts(j: Job, k: Job, tr: Trace, n: nat)
    requires Twins(j, k) && Blind(j.env, false)
    requires var t := TryOnce(k, tr);
             t.failure.None? && (t.watchEmpty || Sifting(k, t.tr, t.valid).items == [])
    ensures var p, t := Attempts(j, tr, n), TryOnce(k, tr);
            && p.failure.None? && p.items == []
            && (!p.done ==> p.tokensIn == n * t.tokensIn && p.tokensOut == n * t.tokensOut)
            && (n > 0 && (t.watchEmpty || !j.feed.kind.Generative?) ==>
                  p.done && p.tokensIn == t.tokensIn && p.tokensOut == t.tokensOut)
            && (j.feed.kind.Generative? && !t.watchEmpty ==> !p.done)
  {
    hide TryOnce, Sift, Blind;
    if n > 0 {
      BarrenAttempts(j, k, tr, n - 1);
      var p, t := Attempts(j, tr, n - 1), TryOnce(k, tr);
      TryTwins(j, k, p.tr, tr, false);
      var a := TryOnce(j, p.tr);
      SiftTwins(j.env, a.tr, t.tr, t.valid, false);
      assert n * t.tokensIn == (n - 1) * t.tokensIn + t.tokensIn;
      assert n * t.tokensOut == (n - 1) * t.tokensOut + t.tokensOut;
    }
  }

  /** How the outcome of a sample fixes the status of the run. */
  ghost predicate StatusFollows(s: SampleOutcome, o: RunOutcome) {
    && (o.run.status.Failed? <==> s.failure.Some?)
    && (o.run.status.Completed? <==> s.failure.None? && s.items != [])
    && (o.run.status.Skipped? <==> s.failure.None? && s.items == [])
  }

  lemma EmptySampleSkips(env: Env, feed: Feed, spec: Spec)
    requires Blind(env, false) && Open(env, feed, spec).value.Ready?
    requires var s := SampleAll(env, feed, spec); s.failure.None? && s.items == []
    ensures var s, o := SampleAll(env, feed, spec), RunAll(env, feed, spec);
            && o.run.status.Skipped?
            && exists k | 1 <= k <= MaxAttempts(feed, spec) ::
                 o.run.tokensIn == k * s.tokensIn && o.run.tokensOut == k * s.tokensOut
  {
    hide Open, TryOnce, Sift, Attempts, Blind, Cost, EmptyKind, ErrorKind, Style;
    var start := Open(env, feed, spec);
    var j, k, n := RunJob(env, feed, spec, start.value), SampleJob(env, feed, spec, start.value), MaxAttempts(feed, spec);
    var t := TryOnce(k, start.tr);
    WatchEmptyHasNothing(k, start.tr);
    var s := Sifting(k, t.tr, t.valid);
    StyleLength(env, s.tr, spec, Capped(s.items, spec), k.id);
    SampleEmptyStyle(k, s.tr);
    BarrenAttempts(j, k, start.tr, n);
    var p, o := Attempts(j, start.tr, n), RunAll(env, feed, spec);
    assert o.run.tokensIn == p.tokensIn && o.run.tokensOut == p.tokensOut;
    if p.done {
      assert o.run.tokensIn == 1 * t.tokensIn && o.run.tokensOut == 1 * t.tokensOut;
    } else {
      assert o.run.tokensIn == n * t.tokensIn && o.run.tokensOut == n * t.tokensOut;
    }
  }

  /** Against a world without memory the preview is exact: the sample's outcome decides the run's status. */
  lemma SampleDecidesStatus(env: Env, feed: Feed, spec: Spec)
    requires Blind(env, false)
    requires forall tr :: env.newest(tr).Ok?
    ensures StatusFollows(SampleAll(env, feed, spec), RunAll(env, feed, spec))
  {
    hide Open, Attempts, Finish, SampleOnce, Blind, Cost, ErrorKind, SameTotals, SamePublished;
    PreviewAnyMemory(env, feed, spec, false);
    var s := SampleAll(env, feed, spec);
    if Open(env, feed, spec).value.Ready? && s.failure.None? && s.items == [] {
      EmptySampleSkips(env, feed, spec);
    }
  }
}
