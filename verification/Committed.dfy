/**
 * What a run leaves behind, field by field: the stamps and variants of its items, and the row that closes it.
 */
module Committed {
  import opened Basics
  import opened Contract
  import opened FormatRules
  import opened World
  import opened Pipeline
  import opened History
  import opened Ledger
  import opened Published

  // ----- Stamps -----

  /** The keys minted in a history, in order, with the instants they were minted for. */
  function Minted(tr: Trace): seq<(Instant, string)> {
    match tr
    case Start => []
    case Then(past, KeyMinted(at, key)) => Minted(past) + [(at, key)]
    case Then(past, _) => Minted(past)
  }

  lemma {:induction false} MintedKept(a: Trace, b: Trace, sorts: set<Sort>)
    requires Adds(a, b, sorts) && Key !in sorts
    ensures Minted(b) == Minted(a)
  {
    if a != b { MintedKept(a, b.past, sorts); }
  }

  /** The item belongs to the feed, is hashed by its own title and day, and was created now. */
  ghost predicate Bears(env: Env, feed: Feed, it: Item, zone: Zone, now: Instant) {
    && it.feedID == feed.id && it.origin == "generated" && it.createdAt == it.updatedAt == now
    && it.contentHash == env.words.sha256(
         feed.slug + "|" + env.rules.lower(TrimSpace(it.title)) + "|" + env.words.day(it.publishedAt, zone))
  }

  /** Item `i` of a batch carries the `i`-th key of these. */
  ghost predicate KeysMatch(keys: seq<(Instant, string)>, items: seq<Item>) {
    |keys| == |items| && forall i | 0 <= i < |items| :: keys[i] == (items[i].publishedAt, items[i].itemKey)
  }

  lemma StampOneBears(env: Env, feed: Feed, s: Step<seq<Item>>, it: Item, base: Instant, now: Instant)
    ensures var t := StampOne(env, feed, s, it, base, now);
            && |t.value| == |s.value| + 1 && t.value[..|s.value|] == s.value
            && Bears(env, feed, t.value[|s.value|], if base == now then OfClock else OfRow, now)
            && Minted(t.tr) == Minted(s.tr) + [(t.value[|s.value|].publishedAt, t.value[|s.value|].itemKey)]
  {
    hide TrimSpace;
  }

  lemma {:induction false} StampBears(env: Env, tr: Trace, feed: Feed, items: seq<Item>, base: Instant, now: Instant)
    requires Minted(tr) == []
    ensures var s := Stamp(env, tr, feed, items, base, now);
            && KeysMatch(Minted(s.tr), s.value)
            && forall i | 0 <= i < |s.value| :: Bears(env, feed, s.value[i], if base == now then OfClock else OfRow, now)
  {
    hide StampOne, Bears, Minted;
    if items != [] {
      var init, it := items[..|items| - 1], items[|items| - 1];
      StampBears(env, tr, feed, init, base, now);
      var s, t := Stamp(env, tr, feed, init, base, now), Stamp(env, tr, feed, items, base, now);
      StampOneBears(env, feed, s, it, base, now);
      forall i | 0 <= i < |s.value| ensures t.value[i] == s.value[i] { assert t.value[i] == t.value[..|s.value|][i]; }
    }
  }

  lemma StyledBears(env: Env, feed: Feed, a: seq<Item>, b: seq<Item>, keys: seq<(Instant, string)>, zone: Zone, now: Instant)
    requires |a| == |b| && forall i | 0 <= i < |a| :: OnlyFormats(a[i], b[i])
    requires KeysMatch(keys, a) && forall i | 0 <= i < |a| :: Bears(env, feed, a[i], zone, now)
    ensures KeysMatch(keys, b) && forall i | 0 <= i < |b| :: Bears(env, feed, b[i], zone, now)
  {
    hide TrimSpace;
    forall i | 0 <= i < |b| ensures Bears(env, feed, b[i], zone, now) && keys[i] == (b[i].publishedAt, b[i].itemKey) {
      assert OnlyFormats(a[i], b[i]) && Bears(env, feed, a[i], zone, now);
    }
  }

  // ----- Variants -----

  /** The formatter's exchanges in a history, in order. */
  function Formattings(tr: Trace): seq<(FormatRequest, Result<FormatReply, ProviderError>)> {
    match tr
    case Start => []
    case Then(past, Formatted(req, reply)) => Formattings(past) + [(req, reply)]
    case Then(past, _) => Formattings(past)
  }

  lemma {:induction false} FormattingsKept(a: Trace, b: Trace, sorts: set<Sort>)
    requires Adds(a, b, sorts) && Format !in sorts
    ensures Formattings(b) == Formattings(a)
  {
    if a != b { FormattingsKept(a, b.past, sorts); }
  }

  /**
   * The item was sent out for formatting with its own text, and what came back for each surface is what that surface
   * shows, if it meets the surface's rules; a failed call leaves the item without variants.
   */
  ghost predicate StyledBy(env: Env, spec: Spec, id: RequestID, i: nat, it: Item,
                           call: (FormatRequest, Result<FormatReply, ProviderError>)) {
    && call.0 == FormatRequest(env.words.formatPrompt(it.title, it.summary, it.body, it.answer, it.link),
                               env.words.formatSystem, spec.model, spec.effort, FormatID(id, i))
    && (call.1.Ok? ==> SlotsFit(env.rules, call.1.value.formats, it, it.formats))
    && (call.1.Err? ==> it.formats == NO_FORMATS)
  }

  lemma StyleOneBy(env: Env, spec: Spec, id: RequestID, s: Styled, it: Item)
    requires env.formatter.Formatter? && it.formats == NO_FORMATS
    ensures var t := StyleOne(env, spec, id, s, it);
            && |t.items| == |s.items| + 1 && t.items[..|s.items|] == s.items
            && t.tr.Then? && t.tr.past == s.tr && t.tr.last.Formatted?
            && StyledBy(env, spec, id, |s.items|, t.items[|s.items|], (t.tr.last.formatRequest, t.tr.last.formatReply))
  {
    hide Vetted, FormatsOk, Tokens, TextSlot, HTMLSlot;
    var t := StyleOne(env, spec, id, s, it);
    if t.tr.last.formatReply.Ok? {
      SlotsIgnoreFormats(env.rules, t.tr.last.formatReply.value.formats, it, t.items[|s.items|]);
    }
  }

  lemma SlotsIgnoreFormats(r: Rules, f: Formats, a: Item, b: Item)
    requires OnlyFormats(a, b) && SlotsFit(r, f, a, b.formats)
    ensures SlotsFit(r, f, b, b.formats)
  {
    hide TrimSpace, Contains, LinksAbsolute, EncodingOk;
  }

  lemma {:induction false} StyleBy(env: Env, tr: Trace, spec: Spec, items: seq<Item>, id: RequestID)
    requires env.formatter.Formatter? && Formattings(tr) == [] && forall it | it in items :: it.formats == NO_FORMATS
    ensures var s := Style(env, tr, spec, items, id);
            && |Formattings(s.tr)| == |s.items| == |items|
            && forall i | 0 <= i < |items| :: StyledBy(env, spec, id, i, s.items[i], Formattings(s.tr)[i])
  {
    hide StyleOne, StyledBy;
    if items != [] {
      var init, it := items[..|items| - 1], items[|items| - 1];
      assert it in items && forall x | x in init :: x in items;
      StyleBy(env, tr, spec, init, id);
      var s, t := Style(env, tr, spec, init, id), Style(env, tr, spec, items, id);
      StyleOneBy(env, spec, id, s, it);
      forall i | 0 <= i < |items| ensures StyledBy(env, spec, id, i, t.items[i], Formattings(t.tr)[i]) {
        if i < |s.items| { assert t.items[i] == t.items[..|s.items|][i] == s.items[i]; }
      }
    }
  }

  // ----- The run -----

  /** What a completed run publishes, in terms of its own history. */
  ghost predicate Dressed(env: Env, feed: Feed, spec: Spec, o: RunOutcome, newest: Instant, now: Instant) {
    && KeysMatch(Minted(o.tr), o.committed)
    && (forall i | 0 <= i < |o.committed| ::
          Bears(env, feed, o.committed[i], if newest == 0 || now > newest then OfClock else OfRow, now))
    && (env.formatter.Formatter? ==>
          && |Formattings(o.tr)| == |o.committed|
          && forall i | 0 <= i < |o.committed| ::
               StyledBy(env, spec, RunID(feed.slug, env.clock(Start)), i, o.committed[i], Formattings(o.tr)[i]))
    && (env.formatter.NoFormatter? ==> forall i | 0 <= i < |o.committed| :: o.committed[i].formats == NO_FORMATS)
  }

  lemma FinishDressed(job: Job, p: Progress, newest: Instant, now: Instant)
    requires p.failure.None? && p.items != [] && Minted(p.tr) == [] && Formattings(p.tr) == []
    requires job.env.newest(p.tr) == Ok(newest) && now == job.env.clock(Then(p.tr, NewestRead(Ok(newest))))
    requires forall it | it in p.items :: it.formats == NO_FORMATS
    requires job.id == RunID(job.feed.slug, job.env.clock(Start))
    ensures Dressed(job.env, job.feed, job.spec, Finish(job, job.env.clock(Start), p), newest, now)
  {
    hide Stamp, Style, Zip, Close, Adds, Cost, Minted, Formattings, Bears, StyledBy, KeysMatch;
    var env, feed, spec := job.env, job.feed, job.spec;
    var o := Finish(job, env.clock(Start), p);
    var read := Then(Then(p.tr, NewestRead(Ok(newest))), ClockRead(now));
    ReadsMintNothing(p.tr, newest, now);
    var items, base := Capped(p.items, spec), Base(newest, now);
    var stamped := Stamp(env, read, feed, items, base, now);
    StampBears(env, read, feed, items, base, now);
    StampAdds(env, read, feed, items, base, now);
    FormattingsKept(read, stamped.tr, {Key});
    StampContent(env, read, feed, items, base, now);
    var styled := Style(env, stamped.tr, spec, stamped.value, job.id);
    StyleContent(env, stamped.tr, spec, stamped.value, job.id);
    StyleAdds(env, stamped.tr, spec, stamped.value, job.id);
    MintedKept(stamped.tr, styled.tr, {Format});
    var zone := if base == now then OfClock else OfRow;
    StyledBears(env, feed, stamped.value, styled.items, Minted(stamped.tr), zone, now);
    if env.formatter.Formatter? {
      StyleBy(env, stamped.tr, spec, stamped.value, job.id);
    } else {
      Unstyled(env, stamped.tr, spec, stamped.value, job.id);
    }
    var bill := Bill(p.tokensIn + styled.tokensIn, p.tokensOut + styled.tokensOut, p.reasons);
    var embeddings := Zip(styled.items, Capped(p.vecs, spec));
    CloseAdds(env, feed, spec, env.clock(Start), styled.tr, bill, World.Status.Completed, "", None, styled.items, embeddings);
    ClosedItems(env, feed, spec, env.clock(Start), styled.tr, bill, styled.items, embeddings);
    MintedKept(styled.tr, o.tr, {Clock, Commit});
    FormattingsKept(styled.tr, o.tr, {Clock, Commit});
  }

  lemma ReadsMintNothing(tr: Trace, newest: Instant, now: Instant)
    ensures var read := Then(Then(tr, NewestRead(Ok(newest))), ClockRead(now));
            Minted(read) == Minted(tr) && Formattings(read) == Formattings(tr)
  {
  }

  lemma Unstyled(env: Env, tr: Trace, spec: Spec, items: seq<Item>, id: RequestID)
    requires env.formatter.NoFormatter?
    ensures Style(env, tr, spec, items, id).items == items
  {
  }

  lemma ClosedItems(env: Env, feed: Feed, spec: Spec, started: Instant, tr: Trace, bill: Bill,
                    items: seq<Item>, embeddings: seq<Embedding>)
    ensures Close(env, feed, spec, started, tr, bill, World.Status.Completed, "", None, items, embeddings).committed == items
  {
    hide Cost;
  }

  lemma {:induction false} NothingMinted(a: Trace, b: Trace, sorts: set<Sort>)
    requires Adds(a, b, sorts) && Key !in sorts && Format !in sorts && Minted(a) == [] && Formattings(a) == []
    ensures Minted(b) == [] && Formattings(b) == []
  {
    if a != b { NothingMinted(a, b.past, sorts); }
  }

  /**
   * Every item a completed run publishes carries, in order, the key minted for its own timestamp, the feed it is for,
   * the hash of its own title and day, and the variants the formatter returned for it, surface by surface.
   */
  lemma RunDressesItems(env: Env, feed: Feed, spec: Spec)
    requires RunAll(env, feed, spec).run.status.Completed?
    ensures var o := RunAll(env, feed, spec);
            && StampReading(o.tr).Some?
            && Dressed(env, feed, spec, o, StampReading(o.tr).value.0, StampReading(o.tr).value.1)
  {
    hide Open, Attempts, Stamp, Style, Zip, ErrorKind, EmptyKind, Cost, FormatsOk, Judge, StampReading, Dressed, Adds, Base;
    var start := Open(env, feed, spec);
    var job, n := RunJob(env, feed, spec, start.value), MaxAttempts(feed, spec);
    var p := Attempts(job, start.tr, n);
    OpenAdds(env, feed, spec);
    NothingMinted(Start, start.tr, {Clock, Titles, Candidates});
    AttemptsAdds(job, start.tr, n);
    NothingMinted(start.tr, p.tr, {Generate, Novelty});
    AttemptsVouched(job, start.tr, n);
    forall it | it in p.items ensures it.formats == NO_FORMATS {
      var d :| Offered(p.tr, d) && Judge(env.rules, d, job.opts) == Accepted(it);
      AcceptedIsRaw(env.rules, d, job.opts, it);
    }
    var newest, now := PublishedContent(job, env.clock(Start), p);
    FinishReading(job, env.clock(Start), p, newest, now);
    FinishDressed(job, p, newest, now);
  }

  // ----- The row -----

  /** The first clock reading of a history. */
  function FirstClock(tr: Trace): Option<Instant> {
    match tr
    case Start => None
    case Then(Start, ClockRead(at)) => Some(at)
    case Then(past, _) => FirstClock(past)
  }

  lemma {:induction false} FirstClockKept(a: Trace, b: Trace, sorts: set<Sort>)
    requires Adds(a, b, sorts) && FirstClock(a).Some?
    ensures FirstClock(b) == FirstClock(a)
  {
    if a != b { FirstClockKept(a, b.past, sorts); }
  }

  /** The stable token for a failure. */
  ghost predicate KindFits(f: Failure, kind: string) {
    match f
    case ContextFailed(_) => kind == "context_acquire_failed"
    case RenderFailed(_) => kind == "prompt_render_failed"
    case MalformedOutput => kind == "malformed_output"
    case ProviderFailed(e) => kind == if e.kind.Some? then e.kind.value else "provider_error"
    case KindUnknown => kind == "provider_error"
    case StoreFailed(_) => kind == "store_error"
  }

  /** The row's times and tokens, next to its history. */
  ghost predicate RowFits(o: RunOutcome) {
    && FirstClock(o.tr) == Some(o.run.startedAt)
    && o.tr.Then? && o.tr.past.Then? && o.tr.past.last == ClockRead(o.run.finishedAt)
    && (o.run.status.Completed? ==> o.run.errorKind == "")
    && (o.run.error.Some? ==> KindFits(o.run.error.value, o.run.errorKind))
    && o.error == (if o.tr.last.Committed? && o.tr.last.fault.Some? then Some(CommitFailed(o.tr.last.fault.value, o.run.error))
                   else if o.run.error.Some? then Some(RunFailed(o.run.error.value)) else None)
    && (o.run.accountScoped <==> o.run.error.Some? && o.run.error.value.ProviderFailed? && o.run.error.value.cause.accountScoped)
  }

  lemma CloseFits(env: Env, feed: Feed, spec: Spec, tr: Trace, bill: Bill, status: World.Status, kind: string,
                  failure: Option<Failure>, items: seq<Item>, embeddings: seq<Embedding>)
    requires FirstClock(tr) == Some(env.clock(Start))
    requires (status.Completed? ==> kind == "") && (failure.Some? ==> KindFits(failure.value, kind))
    ensures var o := Close(env, feed, spec, env.clock(Start), tr, bill, status, kind, failure, items, embeddings);
            RowFits(o) && o.run.status == status && o.run.errorKind == kind
  {
    hide Cost, KindFits;
    var read := Then(tr, ClockRead(env.clock(tr)));
    assert FirstClock(read) == FirstClock(tr);
  }

  lemma KindOfFits(f: Failure)
    ensures KindFits(f, ErrorKind(f))
  {
  }

  lemma FinishFits(job: Job, p: Progress)
    requires FirstClock(p.tr) == Some(job.env.clock(Start))
    ensures var o := Finish(job, job.env.clock(Start), p);
            && RowFits(o)
            && (o.run.status.Skipped? ==> o.run.errorKind == EmptyKind(job.feed, p.quiet))
  {
    hide Stamp, Style, Zip, Close, ErrorKind, EmptyKind, KindFits, Adds, Base, RowFits, FirstClock;
    var env, feed, spec := job.env, job.feed, job.spec;
    if p.failure.Some? {
      KindOfFits(p.failure.value);
      CloseFits(env, feed, spec, p.tr, Spent(p), Failed, ErrorKind(p.failure.value), p.failure, [], []);
    } else if p.items == [] {
      CloseFits(env, feed, spec, p.tr, Spent(p), Skipped, EmptyKind(feed, p.quiet), None, [], []);
    } else {
      var newest := env.newest(p.tr);
      var tr := Then(p.tr, NewestRead(newest));
      AddsOne(p.tr, NewestRead(newest));
      FirstClockKept(p.tr, tr, {Newest});
      if newest.Err? {
        KindOfFits(StoreFailed(newest.error));
        CloseFits(env, feed, spec, tr, Spent(p), Failed, ErrorKind(StoreFailed(newest.error)), Some(StoreFailed(newest.error)), [], []);
      } else {
        var now := env.clock(tr);
        var items, base := Capped(p.items, spec), Base(newest.value, now);
        PublishAdds(job, p.tr, newest.value, now, items, base);
        var stamped := Stamp(env, Then(tr, ClockRead(now)), feed, items, base, now);
        var styled := Style(env, stamped.tr, spec, stamped.value, job.id);
        FirstClockKept(p.tr, styled.tr, {Newest, Clock, Key, Format});
        CloseFits(env, feed, spec, styled.tr, Bill(p.tokensIn + styled.tokensIn, p.tokensOut + styled.tokensOut, p.reasons),
                  World.Status.Completed, "", None, styled.items, Zip(styled.items, Capped(p.vecs, spec)));
      }
    }
  }

  lemma OpenClock(env: Env, feed: Feed, spec: Spec)
    ensures FirstClock(Open(env, feed, spec).tr) == Some(env.clock(Start))
  {
    hide Acquire, Adds;
    var now := env.clock(Start);
    AcquireAdds(env, Then(Start, ClockRead(now)), feed, spec, now);
    FirstClockKept(Then(Start, ClockRead(now)), Acquire(env, Then(Start, ClockRead(now)), feed, spec, now).tr, {Titles, Candidates});
  }

  /** In watch mode an attempt that was answered with nothing ends quietly or fails. */
  lemma TryQuiet(job: Job, tr: Trace)
    requires job.spec.watchMode && !AnsweredEmpty(tr)
    ensures var t := TryOnce(job, tr);
            AnsweredEmpty(t.tr) && t.failure.None? ==> t.watchEmpty
  {
    hide Call, RepairPrompt, AnsweredEmpty;
    var a := Call(job, tr, job.prompt);
    CallAnswered(job, tr, job.prompt);
    CallAnswered(job, a.tr, RepairPrompt(job, a.reasons));
  }

  /** Whether a call is answered with nothing; then nothing is valid and nothing was returned. */
  lemma CallAnswered(job: Job, tr: Trace, prompt: string)
    ensures var c := Call(job, tr, prompt);
            AnsweredEmpty(c.tr) ==> AnsweredEmpty(tr) || (c.failure.None? && c.valid == [] && c.returned == 0)
  {
    hide BatchReasons, Request, Tokens, Judge;
  }

  lemma {:induction false} EmptyUnkept(a: Trace, b: Trace, sorts: set<Sort>)
    requires Adds(a, b, sorts) && Generate !in sorts
    ensures AnsweredEmpty(b) <==> AnsweredEmpty(a)
  {
    if a != b { EmptyUnkept(a, b.past, sorts); }
  }

  lemma {:induction false} AttemptsQuiet(job: Job, tr: Trace, n: nat)
    requires job.spec.watchMode && !AnsweredEmpty(tr)
    ensures var p := Attempts(job, tr, n);
            && (!p.done ==> !AnsweredEmpty(p.tr))
            && (AnsweredEmpty(p.tr) && p.failure.None? ==> p.quiet)
  {
    hide TryOnce, Sift, Adds, AnsweredEmpty;
    if n > 0 {
      AttemptsQuiet(job, tr, n - 1);
      var p := Attempts(job, tr, n - 1);
      if !p.done {
        var t := TryOnce(job, p.tr);
        TryQuiet(job, p.tr);
        SiftAdds(job.env.novelty, t.tr, t.valid);
        EmptyUnkept(t.tr, Sift(job.env.novelty, t.tr, t.valid).tr, {Novelty});
      }
    }
  }

  lemma {:induction false} NoneAnswered(a: Trace, b: Trace, sorts: set<Sort>)
    requires Adds(a, b, sorts) && Generate !in sorts && !AnsweredEmpty(a)
    ensures !AnsweredEmpty(b)
  {
    if a != b { NoneAnswered(a, b.past, sorts); }
  }

  /** Nothing was worth posting: a watch with nothing to look at, or one that was told there is nothing. */
  ghost predicate NothingNoteworthy(feed: Feed, spec: Spec, tr: Trace) {
    spec.watchMode && (AnsweredEmpty(tr) || (feed.kind.Grounded? && Shown(tr, spec) == []))
  }

  /** A grounded run that got as far as the model is skipped only quietly. */
  lemma {:induction false} GroundedSkipsQuietly(job: Job, tr: Trace, n: nat)
    requires n > 0 && !job.feed.kind.Generative?
    ensures var p := Attempts(job, tr, n);
            p.failure.None? && p.items == [] ==> p.quiet
  {
    hide TryOnce;
    if n > 1 {
      GroundedSkipsQuietly(job, tr, n - 1);
      GroundedOnce(job, tr, n - 1);
    } else {
      TryYields(job, tr);
      assert Attempts(job, tr, 0) == Fresh(tr);
    }
  }

  lemma {:induction false} GroundedOnce(job: Job, tr: Trace, n: nat)
    requires n > 0 && !job.feed.kind.Generative?
    ensures Attempts(job, tr, n).done
  {
    hide TryOnce;
    if n > 1 { GroundedOnce(job, tr, n - 1); }
  }

  lemma TryYields(job: Job, tr: Trace)
    ensures var t := TryOnce(job, tr); t.failure.None? && !t.watchEmpty ==> t.valid != []
  {
    hide Call, RepairPrompt;
  }

  /**
   * The row of every run: it starts at the run's first clock reading and ends at the last, names its failure by the
   * stable token for it, and, when skipped, says whether there was nothing noteworthy or novelty was exhausted.
   */
  lemma RunRow(env: Env, feed: Feed, spec: Spec)
    ensures var o := RunAll(env, feed, spec);
            && RowFits(o)
            && (o.run.status.Skipped? ==>
                  o.run.errorKind == if NothingNoteworthy(feed, spec, o.tr) then "nothing_noteworthy" else "novelty_exhausted")
  {
    hide Open, Attempts, Finish, Close, ErrorKind, KindFits, RowFits, FirstClock, Shown, AnsweredEmpty;
    var start := Open(env, feed, spec);
    OpenClock(env, feed, spec);
    match start.value
    case Stopped(f) =>
      KindOfFits(f);
      CloseFits(env, feed, spec, start.tr, NOTHING_SPENT, Failed, ErrorKind(f), Some(f), [], []);
    case NothingToJudge =>
      CloseFits(env, feed, spec, start.tr, NOTHING_SPENT, Skipped, "nothing_noteworthy", None, [], []);
      NothingShown(env, feed, spec);
    case Ready(_, _) =>
      RowOfAttempts(env, feed, spec);
  }

  lemma NothingShown(env: Env, feed: Feed, spec: Spec)
    requires Open(env, feed, spec).value.NothingToJudge?
    ensures spec.watchMode && feed.kind.Grounded? && Shown(RunAll(env, feed, spec).tr, spec) == []
  {
    hide Open, Shown, Close, Adds;
    var start := Open(env, feed, spec);
    NothingFetched(env, feed, spec);
    CloseAdds(env, feed, spec, env.clock(Start), start.tr, NOTHING_SPENT, Skipped, "nothing_noteworthy", None, [], []);
    ShownKept(start.tr, RunAll(env, feed, spec).tr, {Clock, Commit}, spec);
  }

  lemma NothingFetched(env: Env, feed: Feed, spec: Spec)
    requires Open(env, feed, spec).value.NothingToJudge?
    ensures spec.watchMode && feed.kind.Grounded? && Shown(Open(env, feed, spec).tr, spec) == []
  {
    hide Articles, Take;
  }

  lemma RowOfAttempts(env: Env, feed: Feed, spec: Spec)
    requires Open(env, feed, spec).value.Ready?
    ensures var o := RunAll(env, feed, spec);
            && RowFits(o)
            && (o.run.status.Skipped? ==>
                  o.run.errorKind == if NothingNoteworthy(feed, spec, o.tr) then "nothing_noteworthy" else "novelty_exhausted")
  {
    hide Open, Attempts, Finish, RowFits, FirstClock, Shown, AnsweredEmpty, Adds;
    var start, o := Open(env, feed, spec), RunAll(env, feed, spec);
    var job, n := RunJob(env, feed, spec, start.value), MaxAttempts(feed, spec);
    var p := Attempts(job, start.tr, n);
    OpenClock(env, feed, spec);
    AttemptsAdds(job, start.tr, n);
    FirstClockKept(start.tr, p.tr, {Generate, Novelty});
    FinishFits(job, p);
    SkippedMeans(job, env.clock(Start), p);
    FinishAdds(job, env.clock(Start), p);
    EmptyUnkept(p.tr, o.tr, CLOSING);
    AttemptsCalls(job, start.tr, n);
    if !feed.kind.Generative? { GroundedSkipsQuietly(job, start.tr, n); }
    if spec.watchMode {
      OpenAdds(env, feed, spec);
      NothingAnswered();
      NoneAnswered(Start, start.tr, {Clock, Titles, Candidates});
      AttemptsQuiet(job, start.tr, n);
    }
  }

  lemma NothingAnswered()
    ensures !AnsweredEmpty(Start)
  {
  }

  /** A watch with nothing to look at asks the model nothing. */
  lemma QuietDayAsksNothing(env: Env, feed: Feed, spec: Spec)
    requires spec.watchMode && feed.kind.Grounded?
    ensures var o := RunAll(env, feed, spec);
            Shown(o.tr, spec) == [] ==> Calls(o.tr) == 0 && !o.run.status.Completed?
  {
    hide Open, Attempts, Finish, Close, Shown, Adds, ErrorKind, Calls;
    var start, o := Open(env, feed, spec), RunAll(env, feed, spec);
    OpenAdds(env, feed, spec);
    CallsKept(Start, start.tr, {Clock, Titles, Candidates});
    NoCallsYet();
    match start.value
    case Stopped(f) =>
      CloseAdds(env, feed, spec, env.clock(Start), start.tr, NOTHING_SPENT, Failed, ErrorKind(f), Some(f), [], []);
      CallsKept(start.tr, o.tr, {Clock, Commit});
      ClosedStatus(env, feed, spec, env.clock(Start), start.tr, NOTHING_SPENT, Failed, ErrorKind(f), Some(f));
    case NothingToJudge =>
      CloseAdds(env, feed, spec, env.clock(Start), start.tr, NOTHING_SPENT, Skipped, "nothing_noteworthy", None, [], []);
      CallsKept(start.tr, o.tr, {Clock, Commit});
      ClosedStatus(env, feed, spec, env.clock(Start), start.tr, NOTHING_SPENT, Skipped, "nothing_noteworthy", None);
    case Ready(_, _) =>
      RunShown(env, feed, spec);
      WatchHasCandidates(env, feed, spec);
  }

  lemma NoCallsYet()
    ensures Calls(Start) == 0
  {
  }

  lemma ClosedStatus(env: Env, feed: Feed, spec: Spec, started: Instant, tr: Trace, bill: Bill, status: World.Status,
                     kind: string, failure: Option<Failure>)
    ensures Close(env, feed, spec, started, tr, bill, status, kind, failure, [], []).run.status == status
  {
    hide Cost;
  }

  lemma WatchHasCandidates(env: Env, feed: Feed, spec: Spec)
    requires spec.watchMode && feed.kind.Grounded? && Open(env, feed, spec).value.Ready?
    ensures Open(env, feed, spec).value.opts.candidateURLs != []
  {
    hide Acquire;
  }
}
