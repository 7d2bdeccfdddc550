/**
 * The vocabulary of the generation pipeline (internal/generate/runner.go): what a run is
 * given, what it records, and the outside world it talks to. Every collaborator is a
 * function of the whole history of the run so far, so it may answer the same question
 * differently each time; nothing is assumed about it.
 */
module World {
  import opened Basics
  import opened Contract

  datatype Feed = Feed(id: int, slug: string, title: string, kind: FeedKind, timezone: string)

  datatype Spec = Spec(
    systemPrompt: string, userTemplate: string, model: string, effort: string,
    itemsPerRun: int, recentTitlesN: int, maxCandidates: int, maxNoveltyRetries: int,
    priceIn: real, priceOut: real, trigger: string, watchMode: bool, webSearch: bool)

  datatype RequestID =
    | RunID(slug: string, at: Instant)
    | SampleID(slug: string, at: Instant)
    | FormatID(base: RequestID, index: nat)
    | Anonymous

  datatype GenRequest = GenRequest(
    prompt: string, system: string, model: string, effort: string,
    maxItems: int, id: RequestID, webSearch: bool)

  datatype GenReply = GenReply(items: seq<Draft>, raw: string)

  datatype FormatRequest = FormatRequest(
    prompt: string, system: string, model: string, effort: string, id: RequestID)

  datatype FormatReply = FormatReply(formats: Formats, raw: string)

  /** A classified provider error: its kind when it is an `llm.Error`, and whether it is account-scoped. */
  datatype ProviderError = ProviderError(kind: Option<string>, message: string, accountScoped: bool)

  type Vector = seq<real>

  datatype NoveltyVerdict = Novel(vec: Vector) | Duplicate | CheckBroke

  /** `date` is the day of `published` as printed in the offset the source gave it in. */
  datatype SourceCandidate = SourceCandidate(title: string, url: string, published: Instant, date: string, excerpt: string)

  datatype Article = Article(title: string, url: string, published: string, excerpt: string)

  datatype PromptData = PromptData(
    calendar: (string, string, string), feedTitle: string, itemsPerRun: int,
    recentTitles: seq<string>, candidates: seq<Article>)

  datatype Failure =
    | ContextFailed(message: string)
    | RenderFailed(message: string)
    | MalformedOutput
    | ProviderFailed(cause: ProviderError)
    | KindUnknown
    | StoreFailed(message: string)

  datatype Status = Completed | Skipped | Failed

  datatype Embedding = Embedding(itemKey: string, vec: Vector)

  /** The closed run row. Rejection counts are a multiset of reason tokens. */
  datatype RunRecord = RunRecord(
    feedID: int, startedAt: Instant, finishedAt: Instant,
    status: Status, errorKind: string, error: Option<Failure>, accountScoped: bool,
    itemsAdded: nat, itemsRejected: nat, rejectReasons: multiset<Reason>,
    embeddings: seq<Embedding>, tokensIn: nat, tokensOut: nat, cost: real, trigger: string)

  /** One exchange with the outside world. */
  datatype Event =
    | ClockRead(at: Instant)
    | TitlesRead(count: int, titles: Result<seq<string>, string>)
    | CandidatesRead(candidates: Result<seq<SourceCandidate>, string>)
    | Generated(request: GenRequest, reply: Result<GenReply, ProviderError>)
    | NoveltyChecked(text: string, verdict: NoveltyVerdict)
    | NewestRead(newest: Result<Instant, string>)
    | KeyMinted(stamp: Instant, key: string)
    | Formatted(formatRequest: FormatRequest, formatReply: Result<FormatReply, ProviderError>)
    | Committed(run: RunRecord, items: seq<Item>, fault: Option<string>)

  /** The history of a run, newest exchange outermost. */
  datatype Trace = Start | Then(past: Trace, last: Event)

  datatype Gate = NoGate | Gate(vectors: bool, check: (Trace, string) -> NoveltyVerdict)

  datatype Formatter = NoFormatter | Formatter(format: (Trace, FormatRequest) -> Result<FormatReply, ProviderError>)

  /** Where an instant's printed day is reckoned: in the clock's own zone, or in UTC as rows are read back. */
  datatype Zone = OfClock | OfRow

  /** Fixed text: calendar words, dates, template rendering, prompts and the content hash. */
  datatype Phrasebook = Phrasebook(
    calendar: (Instant, string) -> (string, string, string),
    day: (Instant, Zone) -> string,
    render: (string, PromptData) -> Result<string, string>,
    repairNote: set<Reason> -> string,
    watchNote: string,
    formatSystem: string,
    formatPrompt: (string, string, string, string, string) -> string,
    sha256: string -> string)

  datatype Env = Env(
    rules: Rules, words: Phrasebook,
    clock: Trace -> Instant,
    recentTitles: (Trace, int) -> Result<seq<string>, string>,
    candidates: Trace -> Result<seq<SourceCandidate>, string>,
    generate: (Trace, GenRequest) -> Result<GenReply, ProviderError>,
    novelty: Gate,
    newest: Trace -> Result<Instant, string>,
    newKey: (Trace, Instant) -> string,
    formatter: Formatter,
    commit: (Trace, RunRecord, seq<Item>) -> Option<string>)

  const DEFAULT_RECENT_TITLES := 50
  const DEFAULT_MAX_CANDIDATES := 40

  /** `estimateTokens`: four characters a token, rounded up. */
  function Tokens(s: string): nat {
    (|s| + 3) / 4
  }

  /** `estimateCostUSD`, over the reals. */
  function Cost(tokensIn: int, tokensOut: int, spec: Spec): real {
    tokensIn as real / 1_000_000.0 * spec.priceIn + tokensOut as real / 1_000_000.0 * spec.priceOut
  }

  /** Four characters to a token, the last token possibly short. */
  lemma TokensMeans(s: string)
    ensures 4 * (Tokens(s) - 1) < |s| <= 4 * Tokens(s)
  {
  }

  /** Prices are per million tokens, input and output apart. */
  lemma CostMeans(tokensIn: int, tokensOut: int, spec: Spec)
    ensures Cost(tokensIn, tokensOut, spec) * 1_000_000.0
            == tokensIn as real * spec.priceIn + tokensOut as real * spec.priceOut
  {
    var a, b := tokensIn as real, tokensOut as real;
    assert a / 1_000_000.0 * spec.priceIn * 1_000_000.0 == a * spec.priceIn;
    assert b / 1_000_000.0 * spec.priceOut * 1_000_000.0 == b * spec.priceOut;
  }

  function CandidateCap(spec: Spec): nat {
    if spec.maxCandidates <= 0 then DEFAULT_MAX_CANDIDATES else spec.maxCandidates
  }

  /** The per-run cap on published items; a non-positive setting is no cap. */
  function Capped<T>(s: seq<T>, spec: Spec): seq<T> {
    if spec.itemsPerRun > 0 then Take(s, spec.itemsPerRun) else s
  }

  /** Attempts a run may make: one, plus the novelty retries of a generative feed. */
  function MaxAttempts(feed: Feed, spec: Spec): nat {
    if feed.kind.Generative? && spec.maxNoveltyRetries > 0 then 1 + spec.maxNoveltyRetries else 1
  }
}
