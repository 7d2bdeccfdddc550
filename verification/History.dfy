/**
 * Which exchanges each step of the pipeline adds to the history, and what it does to the
 * content of the items it passes on.
 */
module History {
  import opened Basics
  import opened Contract
  import FormatRules
  import opened World
  import opened Pipeline

  datatype Sort = Clock | Titles | Candidates | Generate | Novelty | Newest | Key | Format | Commit

  function SortOf(e: Event): Sort {
    match e
    case ClockRead(_) => Clock
    case TitlesRead(_, _) => Titles
    case CandidatesRead(_) => Candidates
    case Generated(_, _) => Generate
    case NoveltyChecked(_, _) => Novelty
    case NewestRead(_) => Newest
    case KeyMinted(_, _) => Key
    case Formatted(_, _) => Format
    case Committed(_, _, _) => Commit
  }

  /** How many model calls a history holds. */
  function Calls(tr: Trace): nat {
    match tr
    case Start => 0
    case Then(past, e) => Calls(past) + if e.Generated? then 1 else 0
  }

  /** `b` continues `a` with exchanges of the given sorts only. */
  ghost predicate Adds(a: Trace, b: Trace, sorts: set<Sort>) {
    a == b || (b.Then? && SortOf(b.last) in sorts && Adds(a, b.past, sorts))
  }

  lemma {:induction false} AddsTrans(a: Trace, b: Trace, c: Trace, s: set<Sort>, t: set<Sort>)
    requires Adds(a, b, s) && Adds(b, c, t)
    ensures Adds(a, c, s + t)
    decreases c, b
  {
    if b != c { AddsTrans(a, b, c.past, s, t); }
    else if a != b { AddsTrans(a, b.past, b.past, s, t); }
  }

  lemma TryAdds(job: Job, tr: Trace)
    ensures Adds(tr, TryOnce(job, tr).tr, {Generate})
  {
    hide AcceptedItems, BatchReasons, Request, RepairPrompt, Tokens;
    var a := Call(job, tr, job.prompt);
    assert Adds(tr, a.tr, {Generate});
    var b := Call(job, a.tr, RepairPrompt(job, a.reasons));
    assert Adds(a.tr, b.tr, {Generate});
    AddsTrans(tr, a.tr, b.tr, {Generate}, {Generate});
    assert {Generate} + {Generate} == {Generate};
  }

  lemma {:induction false} SiftAdds(gate: Gate, tr: Trace, items: seq<Item>)
    ensures Adds(tr, Sift(gate, tr, items).tr, {Novelty})
  {
    hide NoveltyText;
    if gate.Gate? && items != [] { SiftAdds(gate, tr, items[..|items| - 1]); }
  }

  lemma {:induction false} AttemptsAdds(job: Job, tr: Trace, n: nat)
    ensures Adds(tr, Attempts(job, tr, n).tr, {Generate, Novelty})
  {
    hide TryOnce, Sift, Adds;
    if n == 0 {
      AddsNothing(tr, {Generate, Novelty});
    } else {
      AttemptsAdds(job, tr, n - 1);
      var p := Attempts(job, tr, n - 1);
      if !p.done { RoundAdds(job, tr, p); }
    }
  }

  /** Once an attempt settles the matter, allowing more attempts changes nothing. */
  lemma {:induction false} AttemptsStable(job: Job, tr: Trace, k: nat, n: nat)
    requires k <= n && Attempts(job, tr, k).done
    ensures Attempts(job, tr, n) == Attempts(job, tr, k)
  {
    hide OneMore;
    if k < n { AttemptsStable(job, tr, k, n - 1); }
  }

  lemma AddsNothing(tr: Trace, s: set<Sort>)
    ensures Adds(tr, tr, s)
  {
  }

  lemma RoundAdds(job: Job, tr: Trace, p: Progress)
    requires Adds(tr, p.tr, {Generate, Novelty})
    ensures Adds(tr, OneMore(job, p).tr, {Generate, Novelty})
  {
    hide TryOnce, Sift, Adds;
    var t := TryOnce(job, p.tr);
    TryAdds(job, p.tr);
    AddsTrans(tr, p.tr, t.tr, {Generate, Novelty}, {Generate});
    assert {Generate, Novelty} + {Generate} == {Generate, Novelty};
    SiftAdds(job.env.novelty, t.tr, t.valid);
    AddsTrans(tr, t.tr, Sift(job.env.novelty, t.tr, t.valid).tr, {Generate, Novelty}, {Novelty});
    assert {Generate, Novelty} + {Novelty} == {Generate, Novelty};
  }

  lemma {:induction false} StampAdds(env: Env, tr: Trace, feed: Feed, items: seq<Item>, base: Instant, now: Instant)
    ensures Adds(tr, Stamp(env, tr, feed, items, base, now).tr, {Key})
  {
    hide ContentHash;
    if items != [] { StampAdds(env, tr, feed, items[..|items| - 1], base, now); }
  }

  lemma {:induction false} StyleAdds(env: Env, tr: Trace, spec: Spec, items: seq<Item>, id: RequestID)
    ensures Adds(tr, Style(env, tr, spec, items, id).tr, {Format})
  {
    hide FormatRules.Vetted, FormatRules.SlotsFit, FormatPrompt, Tokens;
    if items != [] && env.formatter.Formatter? { StyleAdds(env, tr, spec, items[..|items| - 1], id); }
  }

  /** What follows the attempts: reads, keys, formatting and the commit. */
  const CLOSING := {Newest, Clock, Key, Format, Commit}

  lemma CloseAdds(env: Env, feed: Feed, spec: Spec, started: Instant, tr: Trace, bill: Bill, status: Status,
                  kind: string, failure: Option<Failure>, items: seq<Item>, embeddings: seq<Embedding>)
    ensures Adds(tr, Close(env, feed, spec, started, tr, bill, status, kind, failure, items, embeddings).tr, {Clock, Commit})
  {
    hide Cost;
    var read := Then(tr, ClockRead(env.clock(tr)));
    assert Adds(tr, read, {Clock, Commit});
  }

  lemma StampedAdds(job: Job, read: Trace, items: seq<Item>, base: Instant, now: Instant)
    ensures var stamped := Stamp(job.env, read, job.feed, items, base, now);
            Adds(read, Style(job.env, stamped.tr, job.spec, stamped.value, job.id).tr, {Key, Format})
  {
    hide Stamp, Style, Adds;
    StampAdds(job.env, read, job.feed, items, base, now);
    var stamped := Stamp(job.env, read, job.feed, items, base, now);
    StyleAdds(job.env, stamped.tr, job.spec, stamped.value, job.id);
    AddsTrans(read, stamped.tr, Style(job.env, stamped.tr, job.spec, stamped.value, job.id).tr, {Key}, {Format});
    assert {Key} + {Format} == {Key, Format};
  }

  lemma PublishAdds(job: Job, tr: Trace, newest: Instant, now: Instant, items: seq<Item>, base: Instant)
    ensures var read := Then(Then(tr, NewestRead(Ok(newest))), ClockRead(now));
            var stamped := Stamp(job.env, read, job.feed, items, base, now);
            Adds(tr, Style(job.env, stamped.tr, job.spec, stamped.value, job.id).tr, {Newest, Clock, Key, Format})
  {
    hide Stamp, Style;
    var read := Then(Then(tr, NewestRead(Ok(newest))), ClockRead(now));
    assert Adds(tr, Then(tr, NewestRead(Ok(newest))), {Newest, Clock});
    assert Adds(tr, read, {Newest, Clock});
    StampedAdds(job, read, items, base, now);
    var stamped := Stamp(job.env, read, job.feed, items, base, now);
    AddsTrans(tr, read, Style(job.env, stamped.tr, job.spec, stamped.value, job.id).tr, {Newest, Clock}, {Key, Format});
    assert {Newest, Clock} + {Key, Format} == {Newest, Clock, Key, Format};
  }

  /** The two readings a run stamps from: the newest row, and the clock right after it. */
  function StampReading(tr: Trace): Option<(Instant, Instant)> {
    match tr
    case Start => None
    case Then(Then(_, NewestRead(Ok(newest))), ClockRead(now)) => Some((newest, now))
    case Then(past, _) => StampReading(past)
  }

  lemma {:induction false} StampReadingKept(a: Trace, b: Trace, sorts: set<Sort>)
    requires Adds(a, b, sorts) && Newest !in sorts && a.Then? && !a.last.NewestRead?
    ensures StampReading(b) == StampReading(a) && b.Then? && !b.last.NewestRead?
  {
    if a != b { StampReadingKept(a, b.past, sorts); }
  }

  lemma {:induction false} AddsWiden(a: Trace, b: Trace, s: set<Sort>, t: set<Sort>)
    requires Adds(a, b, s) && s <= t
    ensures Adds(a, b, t)
  {
    if a != b { AddsWiden(a, b.past, s, t); }
  }

  lemma FinishAdds(job: Job, started: Instant, p: Progress)
    ensures Adds(p.tr, Finish(job, started, p).tr, CLOSING)
  {
    hide Stamp, Style, Close, Adds, Zip, Take, ErrorKind, EmptyKind, Base;
    var env, feed, spec := job.env, job.feed, job.spec;
    var newest := env.newest(p.tr);
    if p.failure.Some? {
      CloseAdds(env, feed, spec, started, p.tr, Spent(p), Failed, ErrorKind(p.failure.value), p.failure, [], []);
      AddsWiden(p.tr, Finish(job, started, p).tr, {Clock, Commit}, CLOSING);
    } else if p.items == [] {
      CloseAdds(env, feed, spec, started, p.tr, Spent(p), Skipped, EmptyKind(feed, p.quiet), None, [], []);
      AddsWiden(p.tr, Finish(job, started, p).tr, {Clock, Commit}, CLOSING);
    } else if newest.Err? {
      var tr := Then(p.tr, NewestRead(newest));
      AddsOne(p.tr, NewestRead(newest));
      CloseAdds(env, feed, spec, started, tr, Spent(p), Failed, ErrorKind(StoreFailed(newest.error)), Some(StoreFailed(newest.error)), [], []);
      AddsTrans(p.tr, tr, Finish(job, started, p).tr, {Newest}, {Clock, Commit});
      AddsWiden(p.tr, Finish(job, started, p).tr, {Newest} + {Clock, Commit}, CLOSING);
    } else {
      var now := env.clock(Then(p.tr, NewestRead(newest)));
      var items, base := Capped(p.items, spec), Base(newest.value, now);
      PublishAdds(job, p.tr, newest.value, now, items, base);
      var read := Then(Then(p.tr, NewestRead(newest)), ClockRead(now));
      var stamped := Stamp(env, read, feed, items, base, now);
      var styled := Style(env, stamped.tr, spec, stamped.value, job.id);
      CloseAdds(env, feed, spec, started, styled.tr,
                Bill(p.tokensIn + styled.tokensIn, p.tokensOut + styled.tokensOut, p.reasons),
                Completed, "", None, styled.items, Zip(styled.items, Capped(p.vecs, spec)));
      AddsTrans(p.tr, styled.tr, Finish(job, started, p).tr, {Newest, Clock, Key, Format}, {Clock, Commit});
      AddsWiden(p.tr, Finish(job, started, p).tr, {Newest, Clock, Key, Format} + {Clock, Commit}, CLOSING);
    }
  }

  lemma AddsOne(tr: Trace, e: Event)
    ensures Adds(tr, Then(tr, e), {SortOf(e)})
  {
  }

  lemma AcquireAdds(env: Env, tr: Trace, feed: Feed, spec: Spec, now: Instant)
    ensures Adds(tr, Acquire(env, tr, feed, spec, now).tr, {Titles, Candidates})
  {
    hide Articles, URLs, Take;
  }

  lemma OpenAdds(env: Env, feed: Feed, spec: Spec)
    ensures Adds(Start, Open(env, feed, spec).tr, {Clock, Titles, Candidates})
  {
    hide Acquire;
    var now := env.clock(Start);
    AddsOne(Start, ClockRead(now));
    AcquireAdds(env, Then(Start, ClockRead(now)), feed, spec, now);
    AddsTrans(Start, Then(Start, ClockRead(now)), Open(env, feed, spec).tr, {Clock}, {Titles, Candidates});
    assert {Clock} + {Titles, Candidates} == {Clock, Titles, Candidates};
  }

  // ----- Content -----

  /** The fields validation produced, without stamps and without presentation variants. */
  function Content(it: Item): Item {
    it.(feedID := 0, itemKey := "", contentHash := "", publishedAt := 0, createdAt := 0, updatedAt := 0,
        origin := "", formats := NO_FORMATS)
  }

  /** Two batches carry the same content, item by item. */
  ghost predicate SameContent(a: seq<Item>, b: seq<Item>) {
    |a| == |b| && forall i | 0 <= i < |a| :: Content(a[i]) == Content(b[i])
  }

  lemma {:induction false} StampContent(env: Env, tr: Trace, feed: Feed, items: seq<Item>, base: Instant, now: Instant)
    ensures var s := Stamp(env, tr, feed, items, base, now).value;
            && SameContent(items, s)
            && forall i | 0 <= i < |s| :: s[i].formats == items[i].formats && s[i].publishedAt == base + i * SECOND
  {
    hide ContentHash;
    if items != [] { StampContent(env, tr, feed, items[..|items| - 1], base, now); }
  }

  /** Formatting changes nothing but the variants. */
  ghost predicate OnlyFormats(a: Item, b: Item) {
    a.(formats := b.formats) == b
  }

  lemma {:induction false} StyleContent(env: Env, tr: Trace, spec: Spec, items: seq<Item>, id: RequestID)
    ensures var s := Style(env, tr, spec, items, id).items;
            && |s| == |items|
            && forall i | 0 <= i < |s| ::
                 && OnlyFormats(items[i], s[i])
                 && (FormatRules.FormatsOk(env.rules, items[i].formats, items[i]) ==>
                       FormatRules.FormatsOk(env.rules, s[i].formats, s[i]))
  {
    hide FormatRules.Vetted, FormatRules.SlotsFit, FormatPrompt, Tokens, FormatRules.HTMLVariantOk, FormatRules.TextVariantOk;
    if items != [] && env.formatter.Formatter? {
      StyleContent(env, tr, spec, items[..|items| - 1], id);
      var it := items[|items| - 1];
      var s := Style(env, tr, spec, items, id).items;
      FormatsAgree(env.rules, it, s[|s| - 1]);
    }
  }

  /** The variant rules read only the raw fields, so they judge the item before and after formatting alike. */
  lemma FormatsAgree(r: Rules, a: Item, b: Item)
    requires OnlyFormats(a, b)
    ensures FormatRules.FormatsOk(r, b.formats, a) <==> FormatRules.FormatsOk(r, b.formats, b)
  {
    assert FormatRules.AnswerText(r, a) == FormatRules.AnswerText(r, b);
  }

  lemma {:induction false} StyleLength(env: Env, tr: Trace, spec: Spec, items: seq<Item>, id: RequestID)
    ensures |Style(env, tr, spec, items, id).items| == |items|
  {
    hide FormatRules.Vetted, FormatRules.SlotsFit, FormatRules.FormatsOk, FormatPrompt, Tokens;
    if items != [] && env.formatter.Formatter? { StyleLength(env, tr, spec, items[..|items| - 1], id); }
  }
}
