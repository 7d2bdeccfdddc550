/**
 * What every published item carries, for any outside world: a draft the model really returned
 * and the contract accepted, variants that keep to their rules, and the vector the novelty gate
 * computed for that very item. Also, watch mode takes silence for an answer.
 */
module Published {
  import opened Basics
  import opened Contract
  import opened FormatRules
  import opened World
  import opened Pipeline
  import opened History
  import opened Ledger

  // ----- Provenance -----

  /** The model returned this draft at some point of the history. */
  ghost predicate Offered(tr: Trace, d: Draft) {
    match tr
    case Start => false
    case Then(past, Generated(_, Ok(reply))) => d in reply.items || Offered(past, d)
    case Then(past, _) => Offered(past, d)
  }

  lemma {:induction false} OfferedKept(a: Trace, b: Trace, sorts: set<Sort>, d: Draft)
    requires Adds(a, b, sorts) && Offered(a, d)
    ensures Offered(b, d)
  {
    if a != b { OfferedKept(a, b.past, sorts, d); }
  }

  /** The item is what the contract makes of a draft the model returned. */
  ghost predicate Vouched(tr: Trace, r: Rules, opts: Options, it: Item) {
    exists d :: Offered(tr, d) && Judge(r, d, opts) == Accepted(it)
  }

  ghost predicate AllVouched(tr: Trace, r: Rules, opts: Options, items: seq<Item>) {
    forall it | it in items :: Vouched(tr, r, opts, it)
  }

  lemma VouchedKept(a: Trace, b: Trace, sorts: set<Sort>, r: Rules, opts: Options, items: seq<Item>)
    requires Adds(a, b, sorts) && AllVouched(a, r, opts, items)
    ensures AllVouched(b, r, opts, items)
  {
    hide Judge, Adds, Offered;
    forall it | it in items ensures Vouched(b, r, opts, it) {
      var d :| Offered(a, d) && Judge(r, d, opts) == Accepted(it);
      OfferedKept(a, b, sorts, d);
    }
  }

  lemma {:induction false} AcceptedFrom(r: Rules, ds: seq<Draft>, opts: Options, it: Item)
    requires it in AcceptedItems(r, ds, opts)
    ensures exists d :: d in ds && Judge(r, d, opts) == Accepted(it)
  {
    hide Judge;
    if it in AcceptedItems(r, ds[..|ds| - 1], opts) {
      AcceptedFrom(r, ds[..|ds| - 1], opts, it);
    } else {
      assert ds[|ds| - 1] in ds;
    }
  }

  lemma CallVouched(job: Job, tr: Trace, prompt: string)
    ensures var c := Call(job, tr, prompt);
            AllVouched(c.tr, job.env.rules, job.opts, c.valid)
  {
    hide Judge, AcceptedItems, BatchReasons, Request, Tokens;
    var c, reply := Call(job, tr, prompt), job.env.generate(tr, Request(job, prompt));
    forall it | it in c.valid ensures Vouched(c.tr, job.env.rules, job.opts, it) {
      AcceptedFrom(job.env.rules, reply.value.items, job.opts, it);
      var d :| d in reply.value.items && Judge(job.env.rules, d, job.opts) == Accepted(it);
      assert Offered(c.tr, d);
    }
  }

  lemma TryVouched(job: Job, tr: Trace)
    ensures var t := TryOnce(job, tr);
            AllVouched(t.tr, job.env.rules, job.opts, t.valid)
  {
    hide Call, RepairPrompt, Vouched;
    CallVouched(job, tr, job.prompt);
    var a := Call(job, tr, job.prompt);
    CallVouched(job, a.tr, RepairPrompt(job, a.reasons));
  }

  lemma {:induction false} SiftSelects(gate: Gate, tr: Trace, items: seq<Item>)
    ensures forall it | it in Sift(gate, tr, items).items :: it in items
  {
    hide NoveltyText;
    if gate.Gate? && items != [] { SiftSelects(gate, tr, items[..|items| - 1]); }
  }

  lemma {:induction false} AttemptsVouched(job: Job, tr: Trace, n: nat)
    ensures var p := Attempts(job, tr, n);
            AllVouched(p.tr, job.env.rules, job.opts, p.items) && (!p.done ==> p.items == [])
  {
    hide TryOnce, Sift, Vouched;
    if n > 0 {
      AttemptsVouched(job, tr, n - 1);
      var p := Attempts(job, tr, n - 1);
      if !p.done {
        var t := TryOnce(job, p.tr);
        TryVouched(job, p.tr);
        SiftSelects(job.env.novelty, t.tr, t.valid);
        SiftAdds(job.env.novelty, t.tr, t.valid);
        VouchedKept(t.tr, Sift(job.env.novelty, t.tr, t.valid).tr, {Novelty}, job.env.rules, job.opts, t.valid);
      }
    }
  }

  // ----- The contract, end to end -----

  /** What holds of one committed item, given the history and the rules in force. */
  ghost predicate Lawful(tr: Trace, r: Rules, opts: Options, it: Item) {
    && FormatsOk(r, it.formats, it)
    && exists d :: Offered(tr, d) && Publishable(r, d, opts) && Carries(r, d, it)
  }

  /** From the attempts' items, through the cap, stamping and formatting, to the committed ones. */
  lemma PublishedContent(job: Job, started: Instant, p: Progress) returns (newest: Instant, now: Instant)
    requires p.failure.None? && p.items != [] && job.env.newest(p.tr).Ok?
    requires forall it | it in p.items :: it.formats == NO_FORMATS
    ensures job.env.newest(p.tr) == Ok(newest) && now == job.env.clock(Then(p.tr, NewestRead(Ok(newest))))
    ensures var out := Finish(job, started, p).committed;
            && SameContent(Capped(p.items, job.spec), out)
            && (forall i | 0 <= i < |out| :: FormatsOk(job.env.rules, out[i].formats, out[i]))
            && (forall i | 0 <= i < |out| :: out[i].publishedAt == Base(newest, now) + i * SECOND)
  {
    hide Stamp, Style, Zip, Base, FormatsOk, Cost;
    var env, feed, spec := job.env, job.feed, job.spec;
    newest := env.newest(p.tr).value;
    var tr := Then(p.tr, NewestRead(Ok(newest)));
    now := env.clock(tr);
    var capped, base, read := Capped(p.items, spec), Base(newest, now), Then(tr, ClockRead(now));
    StampContent(env, read, feed, capped, base, now);
    var stamped := Stamp(env, read, feed, capped, base, now);
    forall i | 0 <= i < |stamped.value| ensures FormatsOk(env.rules, stamped.value[i].formats, stamped.value[i]) {
      NoFormatsOk(env.rules, stamped.value[i]);
    }
    StyleContent(env, stamped.tr, spec, stamped.value, job.id);
  }

  lemma NoFormatsOk(r: Rules, it: Item)
    requires it.formats == NO_FORMATS
    ensures FormatsOk(r, it.formats, it)
  {
  }

  lemma VouchedLawful(tr: Trace, r: Rules, opts: Options, it: Item, out: Item)
    requires !opts.kind.OtherKind?
    requires Vouched(tr, r, opts, it) && Content(it) == Content(out) && FormatsOk(r, out.formats, out)
    ensures Lawful(tr, r, opts, out)
  {
    hide Violations, Publishable, FormatsOk, TrimSpace;
    var d :| Offered(tr, d) && Judge(r, d, opts) == Accepted(it);
    AcceptedIffPublishable(r, d, opts);
    ItemCarries(r, d);
    SameCarries(r, d, it, out);
  }

  lemma SameCarries(r: Rules, d: Draft, a: Item, b: Item)
    requires Carries(r, d, a) && Content(a) == Content(b)
    ensures Carries(r, d, b)
  {
    hide TrimSpace;
    assert Content(a).title == a.title && Content(b).title == b.title;
  }

  lemma AcceptedIsRaw(r: Rules, d: Draft, opts: Options, it: Item)
    requires Judge(r, d, opts) == Accepted(it)
    ensures it.formats == NO_FORMATS
  {
    hide Violations;
  }

  lemma FinishLawful(job: Job, started: Instant, p: Progress)
    requires !job.opts.kind.OtherKind?
    requires AllVouched(p.tr, job.env.rules, job.opts, p.items)
    ensures var o := Finish(job, started, p);
            forall i | 0 <= i < |o.committed| :: Lawful(o.tr, job.env.rules, job.opts, o.committed[i])
  {
    hide Stamp, Style, Lawful, Judge, Base, Adds, Zip, Cost, ErrorKind, EmptyKind;
    var o, r := Finish(job, started, p), job.env.rules;
    if p.failure.None? && p.items != [] && job.env.newest(p.tr).Ok? {
      forall it | it in p.items ensures it.formats == NO_FORMATS {
        var d :| Offered(p.tr, d) && Judge(r, d, job.opts) == Accepted(it);
        AcceptedIsRaw(r, d, job.opts, it);
      }
      var _, _ := PublishedContent(job, started, p);
      FinishAdds(job, started, p);
      VouchedKept(p.tr, o.tr, CLOSING, r, job.opts, p.items);
      forall i | 0 <= i < |o.committed| ensures Lawful(o.tr, r, job.opts, o.committed[i]) {
        VouchedLawful(o.tr, r, job.opts, Capped(p.items, job.spec)[i], o.committed[i]);
      }
    }
  }

  /**
   * Every item a run commits is, content for content, what the contract makes of a draft the model
   * returned during that run; that draft met every rule for the candidate set the run showed; and its
   * stored variants meet theirs, whatever the formatter returned.
   */
  lemma EveryItemLawful(env: Env, feed: Feed, spec: Spec)
    ensures var o := RunAll(env, feed, spec);
            forall i | 0 <= i < |o.committed| ::
              Lawful(o.tr, env.rules, Options(feed.kind, Shown(o.tr, spec)), o.committed[i])
  {
    hide Open, Attempts, Finish, Lawful, Shown, AllVouched, ErrorKind, Cost;
    var start := Open(env, feed, spec);
    if start.value.Ready? {
      var job, n := RunJob(env, feed, spec, start.value), MaxAttempts(feed, spec);
      RunShown(env, feed, spec);
      AttemptsVouched(job, start.tr, n);
      FinishLawful(job, env.clock(Start), Attempts(job, start.tr, n));
    }
  }

  /** A grounded run publishes only links that normalise to a candidate it showed the model. */
  lemma GroundedLinksAreCandidates(env: Env, feed: Feed, spec: Spec, i: nat)
    requires feed.kind.Grounded?
    requires i < |RunAll(env, feed, spec).committed|
    ensures var o := RunAll(env, feed, spec);
            o.committed[i].link != "" && IsCandidate(env.rules, o.committed[i].link, Shown(o.tr, spec))
  {
    hide RunAll, FormatsOk, Shown, Offered;
    EveryItemLawful(env, feed, spec);
    var o := RunAll(env, feed, spec);
    assert Lawful(o.tr, env.rules, Options(feed.kind, Shown(o.tr, spec)), o.committed[i]);
  }

  /**
   * With candidates in normal form, which is how they are fetched, a link that passes the check is byte-equal
   * to a candidate exactly when it is itself in normal form.
   */
  lemma ByteEqualIffNormal(r: Rules, link: string, candidates: seq<string>)
    requires IsCandidate(r, link, candidates) && forall c | c in candidates :: r.normalize(c) == Some(c)
    ensures link in candidates <==> r.normalize(link) == Some(link)
  {
  }

  /** The same of every link a grounded run commits. */
  lemma GroundedLinkBytes(env: Env, feed: Feed, spec: Spec, i: nat)
    requires feed.kind.Grounded? && i < |RunAll(env, feed, spec).committed|
    requires forall c | c in Shown(RunAll(env, feed, spec).tr, spec) :: env.rules.normalize(c) == Some(c)
    ensures var o := RunAll(env, feed, spec);
            o.committed[i].link in Shown(o.tr, spec) <==>
              env.rules.normalize(o.committed[i].link) == Some(o.committed[i].link)
  {
    hide RunAll, Shown;
    GroundedLinksAreCandidates(env, feed, spec, i);
    var o := RunAll(env, feed, spec);
    ByteEqualIffNormal(env.rules, o.committed[i].link, Shown(o.tr, spec));
  }

  const CASE_RULES := Rules(
    _ => true, _ => false, _ => [], _ => true, s => s, s => s, s => s,
    s => if s == "HTTP://a" then Some("http://a") else Some(s))

  /** A published link need not be a fetched URL byte for byte: another spelling of one is accepted and stored. */
  lemma OtherSpellingIsPublished()
    ensures var d := Draft(seq(TITLE_MIN, _ => 'a'), "bc", "b", "", "HTTP://a", "", []);
            var v := Judge(CASE_RULES, d, Options(Grounded, ["http://a"]));
            v.Accepted? && v.item.link == "HTTP://a" && v.item.link !in ["http://a"]
  {
    Unspaced(seq(TITLE_MIN, _ => 'a'));
    Unspaced("bc");
    Unspaced("b");
    Unspaced("HTTP://a");
    assert TrimSpace("") == "";
    var d := Draft(seq(TITLE_MIN, _ => 'a'), "bc", "b", "", "HTTP://a", "", []);
    assert "http://a" in ["http://a"];
    AcceptedIffPublishable(CASE_RULES, d, Options(Grounded, ["http://a"]));
    hide TrimSpace, Violations;
  }

  // ----- The answer stays hidden -----

  /** The card a reader sees: the variant when there is one, the summary otherwise. */
  function RenderedCard(it: Item): string {
    if it.formats.cardText != "" then it.formats.cardText else it.summary
  }

  /** The line of the embedded widget, likewise. */
  function RenderedEmbed(it: Item): string {
    if it.formats.embedText != "" then it.formats.embedText else it.summary
  }

  /** The text gives the stored answer away. */
  predicate Spoils(r: Rules, text: string, it: Item) {
    AnswerText(r, it) != "" && Reveals(r, text, it.answer)
  }

  /** The stored answer still contains the raw one, both as plain text and ignoring case. */
  predicate KeepsRawText(r: Rules, raw: string, stored: string) {
    PlainText(r, stored) == "" ||
    (PlainText(r, raw) != "" && Contains(r.lower(PlainText(r, stored)), r.lower(PlainText(r, raw))))
  }

  /**
   * The leak check looks at the raw answer. It protects the stored one, whatever the summary says, exactly
   * when the sanitizer left the raw plain text inside the stored one.
   */
  lemma RawCheckProtectsIff(r: Rules, raw: string, stored: string)
    ensures (forall text :: Reveals(r, text, stored) ==> Reveals(r, text, raw)) <==> KeepsRawText(r, raw, stored)
  {
    hide Contains;
    var secret := PlainText(r, stored);
    if KeepsRawText(r, raw, stored) {
      forall text | Reveals(r, text, stored) ensures Reveals(r, text, raw) {
        ContainsTransitive(r.lower(text), r.lower(secret), r.lower(PlainText(r, raw)));
      }
    } else {
      ContainsSelf(r.lower(secret));
      assert Reveals(r, secret, stored) && !Reveals(r, secret, raw);
    }
  }

  /**
   * Of every committed item: its card and its embed line give the stored answer away exactly when the variant
   * is missing and the summary in its place does; and a summary does so only if the draft's own answer lost
   * plain text on its way to storage.
   */
  lemma TeasersKeepTheSecret(env: Env, feed: Feed, spec: Spec, i: nat) returns (d: Draft)
    requires i < |RunAll(env, feed, spec).committed|
    ensures var o, r := RunAll(env, feed, spec), env.rules;
            var it := o.committed[i];
            && Offered(o.tr, d) && it.answer == r.sanitize(d.answer) && it.summary == TrimSpace(d.summary)
            && (Spoils(r, RenderedCard(it), it) <==> it.formats.cardText == "" && Spoils(r, it.summary, it))
            && (Spoils(r, RenderedEmbed(it), it) <==> it.formats.embedText == "" && Spoils(r, it.summary, it))
            && (Spoils(r, it.summary, it) ==> !KeepsRawText(r, d.answer, it.answer))
  {
    hide RunAll, Offered, Contains, TrimSpace, Shown, LinkOk, EncodingOk, KeepsRawText, HTMLVariantOk, PlainText, TextOk, LinksAbsolute;
    EveryItemLawful(env, feed, spec);
    var o, r := RunAll(env, feed, spec), env.rules;
    var it, opts := o.committed[i], Options(feed.kind, Shown(o.tr, spec));
    assert Lawful(o.tr, r, opts, it);
    d :| Offered(o.tr, d) && Publishable(r, d, opts) && Carries(r, d, it);
    TextFaultsExact(r, d);
    RawCheckProtectsIff(r, d.answer, it.answer);
  }

  const PLAIN_RULES := Rules(
    _ => true, _ => false, _ => [], _ => true,
    s => if s == "<style>a</style>bc" then "abc" else s, s => s,
    s => if s == "<style>a</style>bc" then "bc" else s, s => Some(s))

  /**
   * It does happen: when the sanitizer drops text that tag stripping keeps, as it does for a style element, the
   * leak check on the raw answer passes a summary that contains the stored one.
   */
  lemma RawCheckCanMissStoredAnswer()
    ensures var d := Draft(seq(TITLE_MIN, _ => 'a'), "bc", "b", "<style>a</style>bc", "", "", []);
            var it := ToItem(PLAIN_RULES, d);
            && Publishable(PLAIN_RULES, d, Options(Generative, []))
            && !KeepsRawText(PLAIN_RULES, d.answer, it.answer)
            && Spoils(PLAIN_RULES, RenderedCard(it), it) && Spoils(PLAIN_RULES, RenderedEmbed(it), it)
  {
    Unspaced(seq(TITLE_MIN, _ => 'a'));
    Unspaced("bc");
    Unspaced("b");
    Unspaced("abc");
    assert TrimSpace("") == "";
    assert OccursAt("bc", "bc", 0);
    RawAnswerClean();
    hide TrimSpace;
  }

  lemma RawAnswerClean()
    ensures EncodingOk(PLAIN_RULES, "<style>a</style>bc")
  {
  }

  lemma Unspaced(s: string)
    requires s != "" && !IsSpace(s[0]) && !IsSpace(s[|s| - 1])
    ensures TrimSpace(s) == s
  {
  }

  // ----- Vectors -----

  /** The texts the gate called novel, with the vectors it returned, in order. */
  function Novels(tr: Trace): seq<(string, Vector)> {
    match tr
    case Start => []
    case Then(past, NoveltyChecked(text, Novel(vec))) => Novels(past) + [(text, vec)]
    case Then(past, _) => Novels(past)
  }

  lemma {:induction false} NovelsKept(a: Trace, b: Trace, sorts: set<Sort>)
    requires Adds(a, b, sorts) && Novelty !in sorts
    ensures Novels(b) == Novels(a)
  {
    if a != b { NovelsKept(a, b.past, sorts); }
  }

  /** Item `i`'s text next to vector `i`. */
  ghost predicate Paired(pairs: seq<(string, Vector)>, items: seq<Item>, vecs: seq<Vector>) {
    && |pairs| == |items| == |vecs|
    && forall i | 0 <= i < |items| :: pairs[i] == (NoveltyText(items[i]), vecs[i])
  }

  lemma {:induction false} SiftPairs(gate: Gate, tr: Trace, items: seq<Item>)
    requires gate.Gate? && gate.vectors && Novels(tr) == []
    ensures var s := Sift(gate, tr, items);
            Paired(Novels(s.tr), s.items, s.vecs)
  {
    hide NoveltyText;
    if items != [] { SiftPairs(gate, tr, items[..|items| - 1]); }
  }

  lemma {:induction false} AttemptsPairs(job: Job, tr: Trace, n: nat)
    requires job.feed.kind.Generative? && job.env.novelty.Gate? && job.env.novelty.vectors && Novels(tr) == []
    ensures var p := Attempts(job, tr, n);
            Paired(Novels(p.tr), p.items, p.vecs) && (!p.done ==> p.items == [])
  {
    hide OneMore, Novels;
    if n > 0 {
      AttemptsPairs(job, tr, n - 1);
      var p := Attempts(job, tr, n - 1);
      if !p.done { RoundPairs(job, p); }
    }
  }

  lemma RoundPairs(job: Job, p: Progress)
    requires job.feed.kind.Generative? && job.env.novelty.Gate? && job.env.novelty.vectors
    requires p.items == [] && Paired(Novels(p.tr), p.items, p.vecs)
    ensures var q := OneMore(job, p);
            Paired(Novels(q.tr), q.items, q.vecs) && (q.items != [] ==> q.done)
  {
    hide TryOnce, Sift, Novels, Paired, Adds;
    var t := TryOnce(job, p.tr);
    var s := Sift(job.env.novelty, t.tr, t.valid);
    TryAdds(job, p.tr);
    NovelsKept(p.tr, t.tr, {Generate});
    EmptyPaired(Novels(p.tr), p.items, p.vecs);
    SiftPairs(job.env.novelty, t.tr, t.valid);
    assert p.items + s.items == s.items && p.vecs + s.vecs == s.vecs;
  }

  lemma EmptyPaired(pairs: seq<(string, Vector)>, items: seq<Item>, vecs: seq<Vector>)
    requires items == [] && Paired(pairs, items, vecs)
    ensures pairs == [] && vecs == []
  {
  }

  /** Embedding `i` holds item `i`'s key and the vector the gate returned for item `i`'s own text. */
  ghost predicate EmbeddingsFit(tr: Trace, items: seq<Item>, embeddings: seq<Embedding>) {
    && |embeddings| == |items| <= |Novels(tr)|
    && forall i | 0 <= i < |items| ::
         && embeddings[i].itemKey == items[i].itemKey
         && (items[i].title + " " + items[i].summary, embeddings[i].vec) == Novels(tr)[i]
  }

  lemma FinishPairs(job: Job, started: Instant, p: Progress)
    requires AllVouched(p.tr, job.env.rules, job.opts, p.items)
    requires Paired(Novels(p.tr), p.items, p.vecs)
    ensures var o := Finish(job, started, p);
            o.run.status.Completed? ==> EmbeddingsFit(o.tr, o.committed, o.run.embeddings)
  {
    hide Stamp, Style, Judge, Base, Adds, Novels, NoveltyText, Cost, ErrorKind, EmptyKind, FormatsOk;
    if p.failure.None? && p.items != [] && job.env.newest(p.tr).Ok? {
      var o, r := Finish(job, started, p), job.env.rules;
      forall it | it in p.items ensures it.formats == NO_FORMATS {
        var d :| Offered(p.tr, d) && Judge(r, d, job.opts) == Accepted(it);
        AcceptedIsRaw(r, d, job.opts, it);
      }
      var _, _ := PublishedContent(job, started, p);
      FinishAdds(job, started, p);
      NovelsKept(p.tr, o.tr, CLOSING);
      forall i | 0 <= i < |o.committed| ensures o.committed[i].title + " " + o.committed[i].summary == NoveltyText(p.items[i]) {
        SameText(Capped(p.items, job.spec)[i], o.committed[i]);
      }
    }
  }

  lemma SameText(a: Item, b: Item)
    requires Content(a) == Content(b)
    ensures b.title + " " + b.summary == NoveltyText(a)
  {
  }

  lemma OpenSilent(env: Env, feed: Feed, spec: Spec)
    ensures Novels(Open(env, feed, spec).tr) == []
  {
    hide Open, Adds;
    OpenAdds(env, feed, spec);
    NovelsKept(Start, Open(env, feed, spec).tr, {Clock, Titles, Candidates});
  }

  /**
   * With a gate that returns vectors, a completed run of a generative feed commits one embedding per
   * item, in order: item i's key with exactly the vector of the i-th novel verdict, which was the
   * verdict on item i's own title and summary. Retries, the cap, stamping and formatting keep the pairs.
   */
  lemma VectorsStayPaired(env: Env, feed: Feed, spec: Spec)
    requires feed.kind.Generative? && env.novelty.Gate? && env.novelty.vectors
    ensures var o := RunAll(env, feed, spec);
            o.run.status.Completed? ==> EmbeddingsFit(o.tr, o.committed, o.run.embeddings)
  {
    hide Open, Attempts, Finish, EmbeddingsFit, AllVouched, Paired, Novels, ErrorKind, Cost;
    var start := Open(env, feed, spec);
    if start.value.Ready? {
      var job, n := RunJob(env, feed, spec, start.value), MaxAttempts(feed, spec);
      OpenSilent(env, feed, spec);
      AttemptsPairs(job, start.tr, n);
      AttemptsVouched(job, start.tr, n);
      FinishPairs(job, env.clock(Start), Attempts(job, start.tr, n));
    }
  }

  // ----- Timestamps -----

  lemma FinishReading(job: Job, started: Instant, p: Progress, newest: Instant, now: Instant)
    requires p.failure.None? && p.items != []
    requires job.env.newest(p.tr) == Ok(newest) && now == job.env.clock(Then(p.tr, NewestRead(Ok(newest))))
    ensures StampReading(Finish(job, started, p).tr) == Some((newest, now))
  {
    hide Stamp, Style, Zip, Base, Close, Adds, Cost;
    var env, spec, tr := job.env, job.spec, Finish(job, started, p).tr;
    var read := Then(Then(p.tr, NewestRead(Ok(newest))), ClockRead(now));
    var items, base := Capped(p.items, spec), Base(newest, now);
    var stamped := Stamp(env, read, job.feed, items, base, now);
    var styled := Style(env, stamped.tr, spec, stamped.value, job.id);
    StampedAdds(job, read, items, base, now);
    CloseAdds(env, job.feed, spec, started, styled.tr,
              Bill(p.tokensIn + styled.tokensIn, p.tokensOut + styled.tokensOut, p.reasons),
              Completed, "", None, styled.items, Zip(styled.items, Capped(p.vecs, spec)));
    AddsTrans(read, styled.tr, tr, {Key, Format}, {Clock, Commit});
    StampReadingKept(read, tr, {Key, Format} + {Clock, Commit});
  }

  /**
   * A completed run stamps its items one second apart, from the anchor of the newest row and the clock as its
   * own history shows it read them.
   */
  lemma RunStamps(env: Env, feed: Feed, spec: Spec)
    requires RunAll(env, feed, spec).run.status.Completed?
    ensures var o := RunAll(env, feed, spec);
            && StampReading(o.tr).Some?
            && var (newest, now) := StampReading(o.tr).value;
               var anchor := if newest == 0 || now > newest then now else newest + 1_000_000_000;
               forall i | 0 <= i < |o.committed| :: o.committed[i].publishedAt == anchor + i * 1_000_000_000
  {
    hide Open, Attempts, Stamp, Style, Zip, ErrorKind, EmptyKind, Cost, FormatsOk, Judge, StampReading;
    var start := Open(env, feed, spec);
    var job, n := RunJob(env, feed, spec, start.value), MaxAttempts(feed, spec);
    var p := Attempts(job, start.tr, n);
    AttemptsVouched(job, start.tr, n);
    forall it | it in p.items ensures it.formats == NO_FORMATS {
      var d :| Offered(p.tr, d) && Judge(env.rules, d, job.opts) == Accepted(it);
      AcceptedIsRaw(env.rules, d, job.opts, it);
    }
    var newest, now := PublishedContent(job, env.clock(Start), p);
    FinishReading(job, env.clock(Start), p, newest, now);
  }

  // ----- Watch mode -----

  /** Some model call of this history answered with no items at all. */
  ghost predicate AnsweredEmpty(tr: Trace) {
    tr.Then? && ((tr.last.Generated? && tr.last.reply.Ok? && tr.last.reply.value.items == []) || AnsweredEmpty(tr.past))
  }

  /** No model call was made after an empty answer. */
  ghost predicate Polite(tr: Trace) {
    tr.Then? ==> Polite(tr.past) && (tr.last.Generated? ==> !AnsweredEmpty(tr.past))
  }

  lemma {:induction false} PoliteKept(a: Trace, b: Trace, sorts: set<Sort>)
    requires Adds(a, b, sorts) && Generate !in sorts
    ensures AnsweredEmpty(b) <==> AnsweredEmpty(a)
    ensures Polite(a) ==> Polite(b)
  {
    if a != b { PoliteKept(a, b.past, sorts); }
  }

  /** An empty answer yields nothing valid. */
  lemma CallPolite(job: Job, tr: Trace, prompt: string)
    requires !AnsweredEmpty(tr) && Polite(tr)
    ensures var c := Call(job, tr, prompt);
            Polite(c.tr) && (AnsweredEmpty(c.tr) ==> c.valid == [] && c.returned == 0)
  {
    hide BatchReasons, Request, Judge, Tokens;
  }

  lemma TryPolite(job: Job, tr: Trace)
    requires job.spec.watchMode && !AnsweredEmpty(tr) && Polite(tr)
    ensures var t := TryOnce(job, tr);
            Polite(t.tr) && (t.failure.None? && !t.watchEmpty ==> !AnsweredEmpty(t.tr))
  {
    hide Call, RepairPrompt, AnsweredEmpty, Polite;
    CallPolite(job, tr, job.prompt);
    var a := Call(job, tr, job.prompt);
    if !AnsweredEmpty(a.tr) { CallPolite(job, a.tr, RepairPrompt(job, a.reasons)); }
  }

  lemma {:induction false} AttemptsPolite(job: Job, tr: Trace, n: nat)
    requires job.spec.watchMode && !AnsweredEmpty(tr) && Polite(tr)
    ensures var p := Attempts(job, tr, n);
            Polite(p.tr) && (!p.done ==> !AnsweredEmpty(p.tr))
  {
    hide TryOnce, Sift, AnsweredEmpty, Polite, Adds;
    if n > 0 {
      AttemptsPolite(job, tr, n - 1);
      var p := Attempts(job, tr, n - 1);
      if !p.done {
        TryPolite(job, p.tr);
        var t := TryOnce(job, p.tr);
        SiftAdds(job.env.novelty, t.tr, t.valid);
        PoliteKept(t.tr, Sift(job.env.novelty, t.tr, t.valid).tr, {Novelty});
      }
    }
  }

  lemma OpenPolite(env: Env, feed: Feed, spec: Spec)
    ensures var tr := Open(env, feed, spec).tr;
            !AnsweredEmpty(tr) && Polite(tr)
  {
    hide Open, Adds;
    OpenAdds(env, feed, spec);
    PoliteKept(Start, Open(env, feed, spec).tr, {Clock, Titles, Candidates});
  }

  lemma ClosePolite(env: Env, feed: Feed, spec: Spec, tr: Trace, status: Status, kind: string, failure: Option<Failure>)
    requires Polite(tr)
    ensures Polite(Close(env, feed, spec, env.clock(Start), tr, NOTHING_SPENT, status, kind, failure, [], []).tr)
  {
    hide Close, Polite, Adds;
    CloseAdds(env, feed, spec, env.clock(Start), tr, NOTHING_SPENT, status, kind, failure, [], []);
    PoliteKept(tr, Close(env, feed, spec, env.clock(Start), tr, NOTHING_SPENT, status, kind, failure, [], []).tr, {Clock, Commit});
  }

  /** In watch mode an empty answer is the answer: no model call of the run ever follows one. */
  lemma WatchNeverBadgers(env: Env, feed: Feed, spec: Spec)
    requires spec.watchMode
    ensures Polite(RunAll(env, feed, spec).tr)
  {
    hide Open, Attempts, Finish, Close, Polite, AnsweredEmpty, Adds, ErrorKind;
    var start := Open(env, feed, spec);
    OpenPolite(env, feed, spec);
    match start.value
    case Stopped(f) => ClosePolite(env, feed, spec, start.tr, Failed, ErrorKind(f), Some(f));
    case NothingToJudge => ClosePolite(env, feed, spec, start.tr, Skipped, "nothing_noteworthy", None);
    case Ready(_, _) =>
      var job, n := RunJob(env, feed, spec, start.value), MaxAttempts(feed, spec);
      var p := Attempts(job, start.tr, n);
      AttemptsPolite(job, start.tr, n);
      FinishAdds(job, env.clock(Start), p);
      PoliteKept(p.tr, Finish(job, env.clock(Start), p).tr, CLOSING);
  }

  // ----- Retries -----

  lemma {:induction false} CallsKept(a: Trace, b: Trace, sorts: set<Sort>)
    requires Adds(a, b, sorts) && Generate !in sorts
    ensures Calls(b) == Calls(a)
  {
    if a != b { CallsKept(a, b.past, sorts); }
  }

  lemma {:induction false} CallsAreBooked(tr: Trace, r: Rules, opts: Options)
    ensures Sum(tr, r, opts).calls == Calls(tr)
  {
    hide BatchReasons, InvalidCount, Tokens;
    if tr.Then? { CallsAreBooked(tr.past, r, opts); }
  }

  /** An attempt calls the model at least once, and ends quietly only on an empty answer in watch mode. */
  lemma TryCalls(job: Job, tr: Trace)
    ensures var t := TryOnce(job, tr);
            && Calls(t.tr) >= Calls(tr) + 1
            && (t.watchEmpty ==> job.spec.watchMode && AnsweredEmpty(t.tr))
  {
    hide AcceptedItems, BatchReasons, Request, RepairPrompt, Tokens;
  }

  lemma RoundCalls(job: Job, p: Progress)
    requires !p.quiet && p.failure.None? && p.items == []
    ensures var q := OneMore(job, p);
            && Calls(q.tr) >= Calls(p.tr) + 1
            && (q.quiet ==> q.done && job.spec.watchMode && AnsweredEmpty(q.tr))
            && (!q.done ==> q.failure.None? && q.items == [])
            && (q.done && q.failure.None? && !q.quiet && job.feed.kind.Generative? ==> q.items != [])
  {
    hide TryOnce, Sift, Adds, AnsweredEmpty, Calls;
    TryCalls(job, p.tr);
    var t := TryOnce(job, p.tr);
    SiftAdds(job.env.novelty, t.tr, t.valid);
    CallsKept(t.tr, Sift(job.env.novelty, t.tr, t.valid).tr, {Novelty});
  }

  lemma {:induction false} AttemptsCalls(job: Job, tr: Trace, n: nat)
    ensures var p := Attempts(job, tr, n);
            && (!p.done ==> Calls(p.tr) >= Calls(tr) + n && p.failure.None? && p.items == [])
            && (p.quiet ==> p.done && job.spec.watchMode && AnsweredEmpty(p.tr))
            && (p.done && p.failure.None? && !p.quiet && job.feed.kind.Generative? ==> p.items != [])
  {
    hide OneMore, AnsweredEmpty, Calls;
    if n > 0 {
      AttemptsCalls(job, tr, n - 1);
      var p := Attempts(job, tr, n - 1);
      if !p.done { RoundCalls(job, p); }
    }
  }

  lemma {:induction false} EmptyKept(a: Trace, b: Trace, sorts: set<Sort>)
    requires Adds(a, b, sorts) && AnsweredEmpty(a)
    ensures AnsweredEmpty(b)
  {
    if a != b { EmptyKept(a, b.past, sorts); }
  }

  /**
   * A generative run is not given up early: unless a watch was told there is nothing, a skipped run made a model call
   * for the first attempt and for each retry its recipe allows.
   */
  lemma SkippedRunUsedItsRetries(env: Env, feed: Feed, spec: Spec)
    requires feed.kind.Generative?
    ensures var o := RunAll(env, feed, spec);
            o.run.status.Skipped? && !(spec.watchMode && AnsweredEmpty(o.tr)) ==>
              Books(env, feed, spec, o.tr).calls >= 1 + if spec.maxNoveltyRetries > 0 then spec.maxNoveltyRetries else 0
  {
    hide Open, Attempts, Finish, AnsweredEmpty, Adds, ErrorKind, Sum, Cost, Shown;
    var start, o := Open(env, feed, spec), RunAll(env, feed, spec);
    CallsAreBooked(o.tr, env.rules, Options(feed.kind, Shown(o.tr, spec)));
    OpenNeverIdles(env, feed, spec);
    if start.value.Ready? {
      var job, n := RunJob(env, feed, spec, start.value), MaxAttempts(feed, spec);
      var p := Attempts(job, start.tr, n);
      AttemptsCalls(job, start.tr, n);
      FinishAdds(job, env.clock(Start), p);
      CallsKept(p.tr, o.tr, CLOSING);
      SkippedMeans(job, env.clock(Start), p);
      if p.quiet { EmptyKept(p.tr, o.tr, CLOSING); }
    }
  }

  lemma OpenNeverIdles(env: Env, feed: Feed, spec: Spec)
    requires feed.kind.Generative?
    ensures !Open(env, feed, spec).value.NothingToJudge?
  {
  }

  lemma SkippedMeans(job: Job, started: Instant, p: Progress)
    ensures Finish(job, started, p).run.status.Skipped? ==> p.failure.None? && p.items == []
  {
    hide Stamp, Style, Zip, Base, ErrorKind, EmptyKind, Cost;
  }
}
