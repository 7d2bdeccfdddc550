/**
 * What a run tells the model: every request it ever makes, explained by what it had read and been told by then.
 */
module Requests {
  import opened Basics
  import opened Contract
  import opened World
  import opened Pipeline
  import opened History
  import opened Ledger
  import opened Committed

  /** The recent titles a history has read. */
  function Heard(tr: Trace): seq<string> {
    match tr
    case Start => []
    case Then(_, TitlesRead(_, Ok(titles))) => titles
    case Then(past, _) => Heard(past)
  }

  /** The candidates a history has fetched. */
  function Fetched(tr: Trace): seq<SourceCandidate> {
    match tr
    case Start => []
    case Then(_, CandidatesRead(Ok(cs))) => cs
    case Then(past, _) => Fetched(past)
  }

  /** The articles of a prompt: the first forty candidates, or as many as the recipe allows. */
  ghost predicate ArticlesOf(cs: seq<SourceCandidate>, spec: Spec, articles: seq<Article>) {
    var cap := if spec.maxCandidates <= 0 then 40 else spec.maxCandidates;
    && |articles| == (if |cs| <= cap then |cs| else cap)
    && forall i | 0 <= i < |articles| :: articles[i] == Article(cs[i].title, cs[i].url, cs[i].date, cs[i].excerpt)
  }

  /** The data a prompt is rendered from is what the run started with and has read since. */
  ghost predicate DataOf(env: Env, feed: Feed, spec: Spec, tr: Trace, data: PromptData) {
    && FirstClock(tr).Some? && data.calendar == env.words.calendar(FirstClock(tr).value, feed.timezone)
    && data.feedTitle == feed.title && data.itemsPerRun == spec.itemsPerRun
    && data.recentTitles == (if feed.kind.Generative? then Heard(tr) else [])
    && ArticlesOf(if feed.kind.Grounded? then Fetched(tr) else [], spec, data.candidates)
  }

  /** The model's last answer, when a request follows it directly. */
  function Reproach(env: Env, feed: Feed, spec: Spec, tr: Trace): string {
    match tr
    case Then(_, Generated(_, Ok(reply))) =>
      "\n\n" + env.words.repairNote(set x | x in BatchReasons(env.rules, reply.items, Options(feed.kind, Shown(tr, spec))))
    case _ => ""
  }

  /** One request: the recipe's own settings, and a prompt rendered from what was read, with a repair note if it repairs. */
  ghost predicate Explained(env: Env, feed: Feed, spec: Spec, past: Trace, req: GenRequest) {
    && req.system == (if !spec.watchMode then spec.systemPrompt
                      else if spec.systemPrompt == "" then env.words.watchNote
                      else spec.systemPrompt + "\n\n" + env.words.watchNote)
    && req.model == spec.model && req.effort == spec.effort && req.maxItems == spec.itemsPerRun
    && req.webSearch == spec.webSearch && req.id == RunID(feed.slug, env.clock(Start))
    && exists data :: DataOf(env, feed, spec, past, data) && Prompted(env, spec, data, req.prompt, Reproach(env, feed, spec, past))
  }

  ghost predicate Prompted(env: Env, spec: Spec, data: PromptData, prompt: string, note: string) {
    var base := env.words.render(spec.userTemplate, data);
    base.Ok? && prompt == base.value + note
  }

  /** Every request of a history is explained, and titles were asked for fifty at a time unless the recipe says otherwise. */
  ghost predicate AllExplained(env: Env, feed: Feed, spec: Spec, tr: Trace) {
    match tr
    case Start => true
    case Then(past, e) =>
      && AllExplained(env, feed, spec, past)
      && (e.Generated? ==> Explained(env, feed, spec, past, e.request))
      && (e.TitlesRead? ==> e.count == if spec.recentTitlesN <= 0 then 50 else spec.recentTitlesN)
  }

  lemma {:induction false} ExplainedKept(env: Env, feed: Feed, spec: Spec, a: Trace, b: Trace, sorts: set<Sort>)
    requires Adds(a, b, sorts) && Generate !in sorts && Titles !in sorts && AllExplained(env, feed, spec, a)
    ensures AllExplained(env, feed, spec, b)
  {
    hide Explained;
    if a != b { ExplainedKept(env, feed, spec, a, b.past, sorts); }
  }

  lemma {:induction false} ReadsKept(a: Trace, b: Trace, sorts: set<Sort>)
    requires Adds(a, b, sorts) && Titles !in sorts && Candidates !in sorts
    ensures Heard(b) == Heard(a) && Fetched(b) == Fetched(a)
  {
    if a != b { ReadsKept(a, b.past, sorts); }
  }

  lemma DataKept(env: Env, feed: Feed, spec: Spec, a: Trace, b: Trace, sorts: set<Sort>, data: PromptData)
    requires Adds(a, b, sorts) && Titles !in sorts && Candidates !in sorts && DataOf(env, feed, spec, a, data)
    ensures DataOf(env, feed, spec, b, data)
  {
    hide Adds, FirstClock, Heard, Fetched;
    ReadsKept(a, b, sorts);
    FirstClockKept(a, b, sorts);
  }

  /** The job's prompt and rules are those the history accounts for. */
  ghost predicate JobFits(job: Job, tr: Trace, data: PromptData) {
    && DataOf(job.env, job.feed, job.spec, tr, data) && job.env.words.render(job.spec.userTemplate, data) == Ok(job.prompt)
    && job.opts == Options(job.feed.kind, Shown(tr, job.spec)) && job.id == RunID(job.feed.slug, job.env.clock(Start))
  }

  lemma JobKept(job: Job, a: Trace, b: Trace, sorts: set<Sort>, data: PromptData)
    requires JobFits(job, a, data) && Adds(a, b, sorts) && Titles !in sorts && Candidates !in sorts
    ensures JobFits(job, b, data)
  {
    hide Adds, DataOf, Shown;
    DataKept(job.env, job.feed, job.spec, a, b, sorts, data);
    ShownKept(a, b, sorts, job.spec);
  }

  lemma CallExplained(job: Job, tr: Trace, prompt: string, data: PromptData)
    requires JobFits(job, tr, data) && AllExplained(job.env, job.feed, job.spec, tr)
    requires prompt == job.prompt + Reproach(job.env, job.feed, job.spec, tr)
    ensures AllExplained(job.env, job.feed, job.spec, Call(job, tr, prompt).tr)
  {
    hide DataOf, Reproach, Shown, Call;
    CallExtends(job, tr, prompt);
    var req := Request(job, prompt);
    assert Prompted(job.env, job.spec, data, prompt, Reproach(job.env, job.feed, job.spec, tr));
    assert Explained(job.env, job.feed, job.spec, tr, req);
  }

  /** A repair follows its answer directly, and reproaches it with the reasons that answer earned. */
  lemma RepairReproaches(job: Job, tr: Trace, data: PromptData)
    requires JobFits(job, tr, data)
    ensures var a := Call(job, tr, job.prompt);
            a.failure.None? ==> RepairPrompt(job, a.reasons) == job.prompt + Reproach(job.env, job.feed, job.spec, a.tr)
  {
    hide DataOf, Shown, BatchReasons, AcceptedItems, Request, Tokens;
    var a := Call(job, tr, job.prompt);
    AddsOne(tr, Generated(Request(job, job.prompt), job.env.generate(tr, Request(job, job.prompt))));
    ShownKept(tr, a.tr, {Generate}, job.spec);
  }

  lemma TryExplained(job: Job, tr: Trace, data: PromptData)
    requires JobFits(job, tr, data) && AllExplained(job.env, job.feed, job.spec, tr)
    requires Reproach(job.env, job.feed, job.spec, tr) == ""
    ensures AllExplained(job.env, job.feed, job.spec, TryOnce(job, tr).tr)
  {
    hide Call, RepairPrompt, Reproach, AllExplained, JobFits, Adds;
    var a := Call(job, tr, job.prompt);
    assert job.prompt + "" == job.prompt;
    CallExplained(job, tr, job.prompt, data);
    CallAdds(job, tr, job.prompt);
    JobKept(job, tr, a.tr, {Generate}, data);
    if a.failure.None? {
      RepairReproaches(job, tr, data);
      CallExplained(job, a.tr, RepairPrompt(job, a.reasons), data);
    }
  }

  lemma CallAdds(job: Job, tr: Trace, prompt: string)
    ensures Adds(tr, Call(job, tr, prompt).tr, {Generate})
  {
    hide Call;
    CallExtends(job, tr, prompt);
    var req := Request(job, prompt);
    AddsOne(tr, Generated(req, job.env.generate(tr, req)));
  }

  /** The last exchange was not with the model. */
  ghost predicate Fresh(tr: Trace) { tr.Then? && !tr.last.Generated? }

  lemma FreshIsPlain(env: Env, feed: Feed, spec: Spec, tr: Trace)
    requires Fresh(tr)
    ensures Reproach(env, feed, spec, tr) == ""
  {
    hide BatchReasons, Shown;
  }

  lemma {:induction false} SiftFresh(gate: Gate, tr: Trace, items: seq<Item>)
    requires gate.Gate? && items != []
    ensures Fresh(Sift(gate, tr, items).tr)
  {
    hide NoveltyText;
  }

  lemma RoundExplained(job: Job, p: Progress, data: PromptData)
    requires JobFits(job, p.tr, data) && AllExplained(job.env, job.feed, job.spec, p.tr) && Fresh(p.tr)
    ensures var q := OneMore(job, p);
            && JobFits(job, q.tr, data) && AllExplained(job.env, job.feed, job.spec, q.tr)
            && (!q.done ==> Fresh(q.tr))
  {
    hide TryOnce, Sift, JobFits, AllExplained, Adds, Reproach, Fresh;
    FreshIsPlain(job.env, job.feed, job.spec, p.tr);
    TryExplained(job, p.tr, data);
    TryAdds(job, p.tr);
    var t := TryOnce(job, p.tr);
    JobKept(job, p.tr, t.tr, {Generate}, data);
    SiftAdds(job.env.novelty, t.tr, t.valid);
    var s := Sift(job.env.novelty, t.tr, t.valid);
    JobKept(job, t.tr, s.tr, {Novelty}, data);
    ExplainedKept(job.env, job.feed, job.spec, t.tr, s.tr, {Novelty});
    TryYields(job, p.tr);
    if t.valid != [] {
      if job.env.novelty.Gate? { SiftFresh(job.env.novelty, t.tr, t.valid); } else { Ungated(job.env.novelty, t.tr, t.valid); }
    }
  }

  lemma Ungated(gate: Gate, tr: Trace, items: seq<Item>)
    requires gate.NoGate?
    ensures Sift(gate, tr, items).items == items
  {
  }

  lemma {:induction false} AttemptsExplained(job: Job, tr: Trace, n: nat, data: PromptData)
    requires JobFits(job, tr, data) && AllExplained(job.env, job.feed, job.spec, tr) && Fresh(tr)
    ensures var p := Attempts(job, tr, n);
            && JobFits(job, p.tr, data) && AllExplained(job.env, job.feed, job.spec, p.tr)
            && (!p.done ==> Fresh(p.tr))
  {
    hide OneMore, JobFits, AllExplained, Fresh;
    if n > 0 {
      AttemptsExplained(job, tr, n - 1, data);
      var p := Attempts(job, tr, n - 1);
      if !p.done { RoundExplained(job, p, data); }
    }
  }

  lemma OpenExplained(env: Env, feed: Feed, spec: Spec)
    ensures AllExplained(env, feed, spec, Open(env, feed, spec).tr)
    ensures Open(env, feed, spec).value.Ready? ==> Fresh(Open(env, feed, spec).tr)
  {
    hide Explained, Articles, URLs, Take;
    assert AllExplained(env, feed, spec, Then(Start, ClockRead(env.clock(Start))));
  }

  lemma OpenFits(env: Env, feed: Feed, spec: Spec) returns (data: PromptData)
    requires Open(env, feed, spec).value.Ready?
    ensures JobFits(RunJob(env, feed, spec, Open(env, feed, spec).value), Open(env, feed, spec).tr, data)
  {
    hide Shown, DataOf;
    var now := env.clock(Start);
    var read := Then(Start, ClockRead(now));
    data := Acquire(env, read, feed, spec, now).value.value.data;
    OpenShown(env, feed, spec);
    AcquiredData(env, feed, spec);
  }

  lemma AcquiredData(env: Env, feed: Feed, spec: Spec)
    ensures var now := env.clock(Start);
            var a := Acquire(env, Then(Start, ClockRead(now)), feed, spec, now);
            a.value.Ok? ==> DataOf(env, feed, spec, a.tr, a.value.value.data)
  {
    var now := env.clock(Start);
    assert FirstClock(Then(Start, ClockRead(now))) == Some(now);
  }

  /**
   * Every request a run makes carries the recipe's settings and the watch note in watch mode, and a prompt rendered
   * from the run's first clock reading and the titles or capped candidates it read; a request that directly follows an
   * answer adds the repair note for exactly the reasons that answer was rejected for, and no other request does.
   */
  lemma EveryRequestExplained(env: Env, feed: Feed, spec: Spec)
    ensures AllExplained(env, feed, spec, RunAll(env, feed, spec).tr)
  {
    hide Open, Attempts, Finish, Close, AllExplained, Adds, JobFits, Fresh, ErrorKind;
    var start := Open(env, feed, spec);
    OpenExplained(env, feed, spec);
    match start.value
    case Stopped(f) =>
      CloseAdds(env, feed, spec, env.clock(Start), start.tr, NOTHING_SPENT, Failed, ErrorKind(f), Some(f), [], []);
      ExplainedKept(env, feed, spec, start.tr, RunAll(env, feed, spec).tr, {Clock, Commit});
    case NothingToJudge =>
      CloseAdds(env, feed, spec, env.clock(Start), start.tr, NOTHING_SPENT, Skipped, "nothing_noteworthy", None, [], []);
      ExplainedKept(env, feed, spec, start.tr, RunAll(env, feed, spec).tr, {Clock, Commit});
    case Ready(_, _) =>
      var job, n := RunJob(env, feed, spec, start.value), MaxAttempts(feed, spec);
      var data := OpenFits(env, feed, spec);
      AttemptsExplained(job, start.tr, n, data);
      var p := Attempts(job, start.tr, n);
      FinishAdds(job, env.clock(Start), p);
      ExplainedKept(env, feed, spec, p.tr, RunAll(env, feed, spec).tr, CLOSING);
  }
}
