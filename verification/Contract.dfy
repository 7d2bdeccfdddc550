/**
 * The Go-side re-validation of model output (internal/generate/contract.go): every
 * rule a draft must meet before it may become an item, and the grounded link gate.
 */
module Contract {
  import opened Basics

  datatype FeedKind = Generative | Grounded | Aggregate | OtherKind(name: string)

  /** What the model returned for one item. */
  datatype Draft = Draft(
    title: string, summary: string, body: string, answer: string,
    link: string, sourceName: string, tags: seq<string>)

  /** Stage-2 presentation variants; "" means "render the raw field". */
  datatype Formats = Formats(feedHTML: string, cardText: string, embedText: string, pageHTML: string)

  const NO_FORMATS := Formats("", "", "", "")

  datatype Item = Item(
    feedID: int, itemKey: string, contentHash: string,
    title: string, summary: string, body: string, answer: string, formats: Formats,
    link: string, sourceName: string, tags: seq<string>,
    publishedAt: Instant, createdAt: Instant, updatedAt: Instant, origin: string)

  /** Stable rejection tokens: those of contract.go, then the two of runner.go. */
  datatype Reason =
    | InvalidUTF8 | ControlChars
    | TitleRequired | TitleTooShort | TitleTooLong | TitleTrailingPunct
    | SummaryRequired | SummaryHardCap | SummaryContainsHTML
    | BodyRequired | BodyRelativeLink | AnswerLeaked
    | TagsTooMany | TagsNotLowercase
    | LinkRequired | LinkInvalid | LinkNotCandidate
    | NoveltyDuplicate | NoveltyCheckFailed

  datatype Rejection = Rejection(field: string, reason: Reason)

  datatype Options = Options(kind: FeedKind, candidateURLs: seq<string>)

  /**
   * The text functions the rules are written over and this model does not open: UTF-8
   * validity of the bytes behind a string, the two regular expressions, URL parsing and
   * normalisation, tag stripping, case folding and the HTML sanitizer.
   */
  datatype Rules = Rules(
    validUTF8: string -> bool, hasTag: string -> bool, hrefs: string -> seq<string>,
    absolute: string -> bool, stripTags: string -> string, lower: string -> string,
    sanitize: string -> string, normalize: string -> Option<string>)

  const TITLE_MIN := 10
  const TITLE_MAX := 200
  const SUMMARY_HARD_CAP := 500
  const MAX_TAGS := 6

  predicate ForbiddenControl(c: char) {
    var n := c as int;
    n != 0x09 && n != 0x0A && n != 0x0D
    && (n < 0x20 || 0x7F <= n <= 0x9F || n == 0xFFFE || n == 0xFFFF)
  }

  predicate HasControl(s: string) {
    exists c | c in s :: ForbiddenControl(c)
  }

  function PlainText(r: Rules, html: string): string {
    TrimSpace(r.stripTags(html))
  }

  predicate LinksAbsolute(r: Rules, html: string) {
    forall h | h in r.hrefs(html) :: r.absolute(h)
  }

  /** A text gives an answer away when it contains the answer's plain text, ignoring case. */
  predicate Reveals(r: Rules, text: string, answerHTML: string) {
    PlainText(r, answerHTML) != "" && Contains(r.lower(text), r.lower(PlainText(r, answerHTML)))
  }

  predicate IsCandidate(r: Rules, link: string, candidates: seq<string>) {
    && r.normalize(link).Some?
    && exists c | c in candidates :: r.normalize(c) == r.normalize(link)
  }

  datatype LinkFault = Fine | Empty | Invalid | NotInCandidates

  function LinkVerdict(r: Rules, link: string, candidates: seq<string>): LinkFault {
    if link == "" then Empty
    else if r.normalize(link).None? then Invalid
    else if IsCandidate(r, link, candidates) then Fine
    else NotInCandidates
  }

  /** The grounded link gate: a scan that skips candidates which do not normalise. */
  method CheckLink(r: Rules, link: string, candidates: seq<string>) returns (fault: LinkFault)
    ensures fault == LinkVerdict(r, link, candidates)
    ensures fault.Fine? <==> link != "" && IsCandidate(r, link, candidates)
  {
    if link == "" { return Empty; }
    var norm := r.normalize(link);
    if norm.None? { return Invalid; }
    for i := 0 to |candidates|
      invariant forall c | c in candidates[..i] :: r.normalize(c) != norm
    {
      var c := r.normalize(candidates[i]);
      if c.None? { continue; }
      if c == norm { return Fine; }
    }
    assert candidates[..|candidates|] == candidates;
    return NotInCandidates;
  }

  /** True when every href of the raw markup is an absolute URL. */
  method CheckLinks(r: Rules, html: string) returns (ok: bool)
    ensures ok <==> LinksAbsolute(r, html)
    ensures ok <==> forall h | h in r.hrefs(html) :: r.absolute(h)
  {
    var hrefs := r.hrefs(html);
    for i := 0 to |hrefs|
      invariant forall h | h in hrefs[..i] :: r.absolute(h)
    {
      if !r.absolute(hrefs[i]) { return false; }
    }
    assert hrefs[..|hrefs|] == hrefs;
    return true;
  }

  // ----- The rule book -----

  predicate EncodingOk(r: Rules, s: string) {
    r.validUTF8(s) && !HasControl(s)
  }

  predicate TrailingPunct(s: string) {
    s != "" && s[|s| - 1] in {'.', ',', '!', '?', ';', ':'}
  }

  predicate LinkOk(r: Rules, link: string, opts: Options) {
    if opts.kind.Grounded? then link != "" && IsCandidate(r, link, opts.candidateURLs)
    else link == "" || r.absolute(link)
  }

  /** The rules on encoding, title and summary. */
  ghost predicate TextOk(r: Rules, d: Draft) {
    var title, summary := TrimSpace(d.title), TrimSpace(d.summary);
    && EncodingOk(r, d.title) && EncodingOk(r, d.summary) && EncodingOk(r, d.body) && EncodingOk(r, d.answer)
    && 10 <= |title| <= 200 && title[|title| - 1] !in ".,!?;:"
    && 0 < |summary| <= 500 && !r.hasTag(summary)
  }

  /** The rules on the body, the answer and their links. */
  ghost predicate MarkupOk(r: Rules, d: Draft) {
    var summary := TrimSpace(d.summary);
    && TrimSpace(d.body) != "" && LinksAbsolute(r, d.body) && LinksAbsolute(r, d.answer)
    && (summary != "" ==> !Reveals(r, summary, d.answer))
  }

  /** The contract an item must meet, stated as one conjunction of rules over the draft. */
  ghost predicate Publishable(r: Rules, d: Draft, opts: Options) {
    && TextOk(r, d) && MarkupOk(r, d)
    && |d.tags| <= 6 && (forall t | t in d.tags :: r.lower(t) == t)
    && LinkOk(r, TrimSpace(d.link), opts)
  }

  function Note(v: seq<Rejection>, broken: bool, field: string, reason: Reason): seq<Rejection> {
    if broken then v + [Rejection(field, reason)] else v
  }

  function EncodedFields(d: Draft): seq<(string, string)> {
    [("title", d.title), ("summary_text", d.summary), ("body_html", d.body), ("answer_html", d.answer)]
  }

  function EncodingFaults(r: Rules, fields: seq<(string, string)>): (v: seq<Rejection>)
    ensures v == [] <==> forall f | f in fields :: EncodingOk(r, f.1)
  {
    if fields == [] then []
    else
      var (field, text) := fields[|fields| - 1];
      var v := EncodingFaults(r, fields[..|fields| - 1]);
      if !r.validUTF8(text) then v + [Rejection(field, InvalidUTF8)]
      else Note(v, HasControl(text), field, ControlChars)
  }

  function LinkReason(f: LinkFault): Reason {
    match f
    case Empty => LinkRequired
    case NotInCandidates => LinkNotCandidate
    case _ => LinkInvalid
  }

  /** Every rule the title, summary and encodings break, in the order they are reported. */
  function TextFaults(r: Rules, d: Draft): seq<Rejection> {
    var title, summary := TrimSpace(d.title), TrimSpace(d.summary);
    var v := EncodingFaults(r, EncodedFields(d));
    var v := Note(v, title == "", "title", TitleRequired);
    var v := Note(v, title != "" && |title| < TITLE_MIN, "title", TitleTooShort);
    var v := Note(v, |title| > TITLE_MAX, "title", TitleTooLong);
    var v := Note(v, TrailingPunct(title), "title", TitleTrailingPunct);
    var v := Note(v, summary == "", "summary_text", SummaryRequired);
    var v := Note(v, |summary| > SUMMARY_HARD_CAP, "summary_text", SummaryHardCap);
    Note(v, summary != "" && r.hasTag(summary), "summary_text", SummaryContainsHTML)
  }

  function NoteMarkup(r: Rules, d: Draft, v: seq<Rejection>): seq<Rejection> {
    var summary := TrimSpace(d.summary);
    var v := Note(v, TrimSpace(d.body) == "", "body_html", BodyRequired);
    var v := Note(v, TrimSpace(d.body) != "" && !LinksAbsolute(r, d.body), "body_html", BodyRelativeLink);
    var v := Note(v, summary != "" && Reveals(r, summary, d.answer), "summary_text", AnswerLeaked);
    Note(v, !LinksAbsolute(r, d.answer), "answer_html", BodyRelativeLink)
  }

  function NoteTags(r: Rules, tags: seq<string>, v: seq<Rejection>): seq<Rejection> {
    var v := Note(v, |tags| > MAX_TAGS, "tags", TagsTooMany);
    Note(v, exists t | t in tags :: r.lower(t) != t, "tags", TagsNotLowercase)
  }

  /** Every rule the draft breaks, in the order they are reported. */
  function Violations(r: Rules, d: Draft, opts: Options): seq<Rejection> {
    var link := TrimSpace(d.link);
    var v := NoteTags(r, d.tags, NoteMarkup(r, d, TextFaults(r, d)));
    if opts.kind.Grounded? then
      var f := LinkVerdict(r, link, opts.candidateURLs);
      Note(v, !f.Fine?, "link", LinkReason(f))
    else
      Note(v, link != "" && !r.absolute(link), "link", LinkInvalid)
  }

  function ToItem(r: Rules, d: Draft): Item {
    Item(0, "", "", TrimSpace(d.title), TrimSpace(d.summary), r.sanitize(d.body), r.sanitize(d.answer),
         NO_FORMATS, TrimSpace(d.link), TrimSpace(d.sourceName), d.tags, 0, 0, 0, "")
  }

  /** What an accepted item takes from its draft, field by field. */
  ghost predicate Carries(r: Rules, d: Draft, it: Item) {
    && it.title == TrimSpace(d.title) && it.summary == TrimSpace(d.summary)
    && it.body == r.sanitize(d.body) && it.answer == r.sanitize(d.answer)
    && it.link == TrimSpace(d.link) && it.sourceName == TrimSpace(d.sourceName) && it.tags == d.tags
  }

  datatype Verdict = Accepted(item: Item) | Rejected(faults: seq<Rejection>) | UnknownKind

  function Judge(r: Rules, d: Draft, opts: Options): Verdict {
    if opts.kind.OtherKind? then UnknownKind
    else
      var v := Violations(r, d, opts);
      if v == [] then Accepted(ToItem(r, d)) else Rejected(v)
  }

  lemma ItemCarries(r: Rules, d: Draft)
    ensures Carries(r, d, ToItem(r, d)) && ToItem(r, d).formats == NO_FORMATS
  {
    hide TrimSpace;
  }

  /** A draft is accepted exactly when it is publishable, and then carries the trimmed, sanitized fields. */
  lemma AcceptedIffPublishable(r: Rules, d: Draft, opts: Options)
    requires !opts.kind.OtherKind?
    ensures Judge(r, d, opts).Accepted? <==> Publishable(r, d, opts)
    ensures Judge(r, d, opts).Rejected? ==> Judge(r, d, opts).faults != []
  {
    hide TextFaults, TextOk, LinksAbsolute, Reveals, ToItem;
    TextFaultsExact(r, d);
  }

  lemma TextFaultsExact(r: Rules, d: Draft)
    ensures TextFaults(r, d) == [] <==> TextOk(r, d)
    ensures TextOk(r, d) ==> TrimSpace(d.summary) != ""
  {
    var fields := EncodedFields(d);
    assert fields[0] in fields && fields[1] in fields && fields[2] in fields && fields[3] in fields;
  }

  method CheckEncoding(r: Rules, fields: seq<(string, string)>) returns (v: seq<Rejection>)
    ensures v == EncodingFaults(r, fields)
  {
    v := [];
    for i := 0 to |fields|
      invariant v == EncodingFaults(r, fields[..i])
    {
      assert fields[..i + 1][..i] == fields[..i];
      if !r.validUTF8(fields[i].1) {
        v := v + [Rejection(fields[i].0, InvalidUTF8)];
      } else if HasControl(fields[i].1) {
        v := v + [Rejection(fields[i].0, ControlChars)];
      }
    }
    assert fields[..|fields|] == fields;
  }

  /** `Validate`: accumulates one rejection per broken rule and publishes only an unblemished draft. */
  method Validate(r: Rules, d: Draft, opts: Options) returns (verdict: Verdict)
    ensures verdict == Judge(r, d, opts)
    ensures verdict.Accepted? ==> Publishable(r, d, opts) && Carries(r, d, verdict.item) && verdict.item.formats == NO_FORMATS
    ensures verdict.Rejected? ==> !Publishable(r, d, opts) && verdict.faults != [] && Report(r, d, opts, verdict.faults, 18)
  {
    if opts.kind.OtherKind? { return UnknownKind; }
    hide Publishable, TextFaults, NoteMarkup, NoteTags, ToItem, Carries, TrimSpace, Report;
    AcceptedIffPublishable(r, d, opts);
    ViolationsExact(r, d, opts);
    ItemCarries(r, d);

    var v := CheckText(r, d);
    v := CheckMarkup(r, d, v);
    v := CheckTags(r, d.tags, v);
    var link := TrimSpace(d.link);
    if opts.kind.Grounded? {
      var f := CheckLink(r, link, opts.candidateURLs);
      if !f.Fine? { v := v + [Rejection("link", LinkReason(f))]; }
    } else if link != "" && !r.absolute(link) {
      v := v + [Rejection("link", LinkInvalid)];
    }
    assert v == Violations(r, d, opts);
    if v != [] { return Rejected(v); }
    return Accepted(ToItem(r, d));
  }

  method CheckText(r: Rules, d: Draft) returns (v: seq<Rejection>)
    ensures v == TextFaults(r, d)
    ensures v == [] <==> TextOk(r, d)
  {
    hide TextOk;
    TextFaultsExact(r, d);
    v := CheckEncoding(r, EncodedFields(d));
    var title := TrimSpace(d.title);
    if title == "" {
      v := v + [Rejection("title", TitleRequired)];
    } else {
      if |title| < TITLE_MIN { v := v + [Rejection("title", TitleTooShort)]; }
      if |title| > TITLE_MAX { v := v + [Rejection("title", TitleTooLong)]; }
      if TrailingPunct(title) { v := v + [Rejection("title", TitleTrailingPunct)]; }
    }
    var summary := TrimSpace(d.summary);
    if summary == "" {
      v := v + [Rejection("summary_text", SummaryRequired)];
    } else {
      if |summary| > SUMMARY_HARD_CAP { v := v + [Rejection("summary_text", SummaryHardCap)]; }
      if r.hasTag(summary) { v := v + [Rejection("summary_text", SummaryContainsHTML)]; }
    }
  }

  method CheckMarkup(r: Rules, d: Draft, v0: seq<Rejection>) returns (v: seq<Rejection>)
    ensures v == NoteMarkup(r, d, v0)
    ensures v0 <= v && (v == v0 <==> MarkupOk(r, d))
  {
    hide LinksAbsolute;
    v := v0;
    if TrimSpace(d.body) == "" {
      v := v + [Rejection("body_html", BodyRequired)];
    } else {
      var ok := CheckLinks(r, d.body);
      if !ok { v := v + [Rejection("body_html", BodyRelativeLink)]; }
    }
    var summary, answerText := TrimSpace(d.summary), PlainText(r, d.answer);
    if answerText != "" && summary != "" {
      if Contains(r.lower(summary), r.lower(answerText)) {
        v := v + [Rejection("summary_text", AnswerLeaked)];
      }
    }
    var ok := CheckLinks(r, d.answer);
    if !ok { v := v + [Rejection("answer_html", BodyRelativeLink)]; }
  }

  method CheckTags(r: Rules, tags: seq<string>, v0: seq<Rejection>) returns (v: seq<Rejection>)
    ensures v == NoteTags(r, tags, v0)
  {
    v := v0;
    if |tags| > MAX_TAGS { v := v + [Rejection("tags", TagsTooMany)]; }
    ghost var v1 := v;
    for i := 0 to |tags|
      invariant v == v1
      invariant forall t | t in tags[..i] :: r.lower(t) == t
    {
      if r.lower(tags[i]) != tags[i] {
        v := v + [Rejection("tags", TagsNotLowercase)];
        return;
      }
    }
    assert tags[..|tags|] == tags;
  }

  // ----- Which rejections, and in what order -----

  /** The characters an item may hold: tab, line feed, carriage return, and the printable ranges. */
  lemma AllowedCharacters(c: char)
    ensures var n := c as int;
            !ForbiddenControl(c) <==>
              n == 9 || n == 10 || n == 13 || 0x20 <= n <= 0x7E || 0xA0 <= n <= 0xFFFD || n >= 0x10000
  {
  }

  function FieldText(d: Draft, field: string): Option<string> {
    if field == "title" then Some(d.title)
    else if field == "summary_text" then Some(d.summary)
    else if field == "body_html" then Some(d.body)
    else if field == "answer_html" then Some(d.answer) else None
  }

  /** Whether the draft breaks the rule that this rejection names. */
  ghost predicate Breaks(r: Rules, d: Draft, opts: Options, x: Rejection) {
    var title, summary, link := TrimSpace(d.title), TrimSpace(d.summary), TrimSpace(d.link);
    match x.reason
    case InvalidUTF8 => FieldText(d, x.field).Some? && !r.validUTF8(FieldText(d, x.field).value)
    case ControlChars =>
      && FieldText(d, x.field).Some? && r.validUTF8(FieldText(d, x.field).value)
      && exists c | c in FieldText(d, x.field).value :: ForbiddenControl(c)
    case TitleRequired => x.field == "title" && title == ""
    case TitleTooShort => x.field == "title" && 0 < |title| < 10
    case TitleTooLong => x.field == "title" && |title| > 200
    case TitleTrailingPunct => x.field == "title" && title != "" && title[|title| - 1] in ".,!?;:"
    case SummaryRequired => x.field == "summary_text" && summary == ""
    case SummaryHardCap => x.field == "summary_text" && |summary| > 500
    case SummaryContainsHTML => x.field == "summary_text" && summary != "" && r.hasTag(summary)
    case BodyRequired => x.field == "body_html" && TrimSpace(d.body) == ""
    case BodyRelativeLink =>
      || (x.field == "body_html" && TrimSpace(d.body) != "" && exists h | h in r.hrefs(d.body) :: !r.absolute(h))
      || (x.field == "answer_html" && exists h | h in r.hrefs(d.answer) :: !r.absolute(h))
    case AnswerLeaked =>
      && x.field == "summary_text" && summary != "" && TrimSpace(r.stripTags(d.answer)) != ""
      && Contains(r.lower(summary), r.lower(TrimSpace(r.stripTags(d.answer))))
    case TagsTooMany => x.field == "tags" && |d.tags| > 6
    case TagsNotLowercase => x.field == "tags" && exists t | t in d.tags :: r.lower(t) != t
    case LinkRequired => x.field == "link" && opts.kind.Grounded? && link == ""
    case LinkInvalid =>
      && x.field == "link" && link != ""
      && (if opts.kind.Grounded? then r.normalize(link).None? else !r.absolute(link))
    case LinkNotCandidate =>
      && x.field == "link" && opts.kind.Grounded? && link != "" && r.normalize(link).Some?
      && forall c | c in opts.candidateURLs :: r.normalize(c) != r.normalize(link)
    case _ => false
  }

  /** The place of a rejection in the report. */
  function Place(x: Rejection): nat {
    match x.reason
    case InvalidUTF8 => FieldPlace(x.field)
    case ControlChars => FieldPlace(x.field)
    case TitleRequired => 4
    case TitleTooShort => 5
    case TitleTooLong => 6
    case TitleTrailingPunct => 7
    case SummaryRequired => 8
    case SummaryHardCap => 9
    case SummaryContainsHTML => 10
    case BodyRequired => 11
    case BodyRelativeLink => if x.field == "body_html" then 12 else 14
    case AnswerLeaked => 13
    case TagsTooMany => 15
    case TagsNotLowercase => 16
    case _ => 17
  }

  function FieldPlace(field: string): nat {
    if field == "title" then 0 else if field == "summary_text" then 1 else if field == "body_html" then 2 else 3
  }

  /** The rejections of `v` stand in order, all before place `n`, and are exactly those that hold before it. */
  ghost predicate Report(r: Rules, d: Draft, opts: Options, v: seq<Rejection>, n: nat) {
    && (forall i, j | 0 <= i < j < |v| :: Place(v[i]) < Place(v[j]))
    && (forall x :: x in v <==> Place(x) < n && Breaks(r, d, opts, x))
  }

  /** One rule, one place: noting it keeps the report. */
  lemma NoteReports(r: Rules, d: Draft, opts: Options, v: seq<Rejection>, n: nat, broken: bool, x: Rejection)
    requires Report(r, d, opts, v, n) && Place(x) == n
    requires broken <==> Breaks(r, d, opts, x)
    requires forall y | Place(y) == n && Breaks(r, d, opts, y) :: y == x
    ensures Report(r, d, opts, Note(v, broken, x.field, x.reason), n + 1)
  {
    hide Breaks, Place;
    var w := Note(v, broken, x.field, x.reason);
    assert x == Rejection(x.field, x.reason);
    forall y ensures y in w <==> Place(y) < n + 1 && Breaks(r, d, opts, y) {
      assert y in v <==> Place(y) < n && Breaks(r, d, opts, y);
      assert y in w <==> y in v || (broken && y == x);
    }
    forall i, j | 0 <= i < j < |w| ensures Place(w[i]) < Place(w[j]) {
      if j == |v| { assert w[i] in v; }
    }
  }

  lemma NothingReported(r: Rules, d: Draft, opts: Options)
    ensures Report(r, d, opts, [], 0)
  {
    hide Breaks;
  }

  /** One field's encoding: at most one of its two rejections. */
  lemma EncodingStep(r: Rules, d: Draft, opts: Options, v: seq<Rejection>, i: nat)
    requires i < 4 && Report(r, d, opts, v, i)
    ensures var (field, text) := EncodedFields(d)[i];
            Report(r, d, opts,
                   if !r.validUTF8(text) then v + [Rejection(field, InvalidUTF8)]
                   else Note(v, HasControl(text), field, ControlChars), i + 1)
  {
    hide Report;
    var (field, text) := EncodedFields(d)[i];
    var x := Rejection(field, if r.validUTF8(text) then ControlChars else InvalidUTF8);
    OneEncoding(r, d, opts, i, x);
    NoteReports(r, d, opts, v, i, !r.validUTF8(text) || HasControl(text), x);
  }

  lemma OneEncoding(r: Rules, d: Draft, opts: Options, i: nat, x: Rejection)
    requires i < 4 && x.field == EncodedFields(d)[i].0
    requires x.reason == if r.validUTF8(EncodedFields(d)[i].1) then ControlChars else InvalidUTF8
    ensures var text := EncodedFields(d)[i].1;
            && Place(x) == i && (Breaks(r, d, opts, x) <==> !r.validUTF8(text) || HasControl(text))
            && forall y | Place(y) == i && Breaks(r, d, opts, y) :: y == x
  {
    hide TrimSpace;
    var text := EncodedFields(d)[i].1;
    assert FieldText(d, x.field) == Some(text);
    forall y | Place(y) == i && Breaks(r, d, opts, y) ensures y == x {
      assert y.reason.InvalidUTF8? || y.reason.ControlChars?;
      assert y.field == x.field;
    }
  }

  lemma EncodingReports(r: Rules, d: Draft, opts: Options)
    ensures Report(r, d, opts, EncodingFaults(r, EncodedFields(d)), 4)
  {
    hide Report, HasControl, EncodingOk;
    var f := EncodedFields(d);
    assert f[..4] == f && f[..4][..3] == f[..3] && f[..3][..2] == f[..2] && f[..2][..1] == f[..1] && f[..1][..0] == [];
    NothingReported(r, d, opts);
    var v1, v2, v3 := EncodingFaults(r, f[..1]), EncodingFaults(r, f[..2]), EncodingFaults(r, f[..3]);
    EncodingStep(r, d, opts, [], 0);
    EncodingStep(r, d, opts, v1, 1);
    EncodingStep(r, d, opts, v2, 2);
    EncodingStep(r, d, opts, v3, 3);
  }

  /** At each later place there is one rejection, except for the link's three. */
  lemma OnePlace(x: Rejection, y: Rejection)
    requires 4 <= Place(x) == Place(y) < 17
    ensures x.reason == y.reason
  {
  }

  /** The rejection of a rule stands alone at its place. */
  lemma Alone(r: Rules, d: Draft, opts: Options, x: Rejection, y: Rejection)
    requires 4 <= Place(x) == Place(y) < 17 && Breaks(r, d, opts, y)
    requires x.field == FieldAt(Place(x))
    ensures y == x
  {
    hide TrimSpace, Contains;
    OnePlace(x, y);
    assert y.field == FieldAt(Place(y));
  }

  function FieldAt(place: nat): string {
    if place < 8 then "title"
    else if place < 11 || place == 13 then "summary_text"
    else if place < 13 then "body_html"
    else if place == 14 then "answer_html" else "tags"
  }

  lemma RuleStep(r: Rules, d: Draft, opts: Options, v: seq<Rejection>, broken: bool, x: Rejection)
    requires 4 <= Place(x) < 17 && x.field == FieldAt(Place(x))
    requires Report(r, d, opts, v, Place(x)) && (broken <==> Breaks(r, d, opts, x))
    ensures Report(r, d, opts, Note(v, broken, x.field, x.reason), Place(x) + 1)
  {
    hide Report, Breaks, Place, FieldAt;
    forall y | Place(y) == Place(x) && Breaks(r, d, opts, y) ensures y == x { Alone(r, d, opts, x, y); }
    NoteReports(r, d, opts, v, Place(x), broken, x);
  }

  lemma TitleReports(r: Rules, d: Draft, opts: Options, v: seq<Rejection>)
    requires Report(r, d, opts, v, 4)
    ensures var title := TrimSpace(d.title);
            var a := Note(v, title == "", "title", TitleRequired);
            var b := Note(a, title != "" && |title| < TITLE_MIN, "title", TitleTooShort);
            var c := Note(b, |title| > TITLE_MAX, "title", TitleTooLong);
            Report(r, d, opts, Note(c, TrailingPunct(title), "title", TitleTrailingPunct), 8)
  {
    hide Report, TrimSpace, Note;
    var title := TrimSpace(d.title);
    var a := Note(v, title == "", "title", TitleRequired);
    var b := Note(a, title != "" && |title| < TITLE_MIN, "title", TitleTooShort);
    var c := Note(b, |title| > TITLE_MAX, "title", TitleTooLong);
    RuleStep(r, d, opts, v, title == "", Rejection("title", TitleRequired));
    RuleStep(r, d, opts, a, title != "" && |title| < TITLE_MIN, Rejection("title", TitleTooShort));
    RuleStep(r, d, opts, b, |title| > TITLE_MAX, Rejection("title", TitleTooLong));
    RuleStep(r, d, opts, c, TrailingPunct(title), Rejection("title", TitleTrailingPunct));
  }

  lemma TextReports(r: Rules, d: Draft, opts: Options)
    ensures Report(r, d, opts, TextFaults(r, d), 11)
  {
    hide Report, TrimSpace, Note, EncodingFaults, TrailingPunct;
    var title, summary := TrimSpace(d.title), TrimSpace(d.summary);
    EncodingReports(r, d, opts);
    var v := EncodingFaults(r, EncodedFields(d));
    TitleReports(r, d, opts, v);
    v := Note(v, title == "", "title", TitleRequired);
    v := Note(v, title != "" && |title| < TITLE_MIN, "title", TitleTooShort);
    v := Note(v, |title| > TITLE_MAX, "title", TitleTooLong);
    v := Note(v, TrailingPunct(title), "title", TitleTrailingPunct);
    RuleStep(r, d, opts, v, summary == "", Rejection("summary_text", SummaryRequired));
    v := Note(v, summary == "", "summary_text", SummaryRequired);
    RuleStep(r, d, opts, v, |summary| > SUMMARY_HARD_CAP, Rejection("summary_text", SummaryHardCap));
    v := Note(v, |summary| > SUMMARY_HARD_CAP, "summary_text", SummaryHardCap);
    RuleStep(r, d, opts, v, summary != "" && r.hasTag(summary), Rejection("summary_text", SummaryContainsHTML));
  }

  lemma MarkupReports(r: Rules, d: Draft, opts: Options, v: seq<Rejection>)
    requires Report(r, d, opts, v, 11)
    ensures Report(r, d, opts, NoteMarkup(r, d, v), 15)
  {
    hide Report, TrimSpace, Note, Contains;
    var w := v;
    var summary := TrimSpace(d.summary);
    RuleStep(r, d, opts, w, TrimSpace(d.body) == "", Rejection("body_html", BodyRequired));
    w := Note(w, TrimSpace(d.body) == "", "body_html", BodyRequired);
    var relative := TrimSpace(d.body) != "" && !LinksAbsolute(r, d.body);
    RuleStep(r, d, opts, w, relative, Rejection("body_html", BodyRelativeLink));
    w := Note(w, relative, "body_html", BodyRelativeLink);
    var leaked := summary != "" && Reveals(r, summary, d.answer);
    RuleStep(r, d, opts, w, leaked, Rejection("summary_text", AnswerLeaked));
    w := Note(w, leaked, "summary_text", AnswerLeaked);
    RuleStep(r, d, opts, w, !LinksAbsolute(r, d.answer), Rejection("answer_html", BodyRelativeLink));
  }

  lemma TagsReport(r: Rules, d: Draft, opts: Options, v: seq<Rejection>)
    requires Report(r, d, opts, v, 15)
    ensures Report(r, d, opts, NoteTags(r, d.tags, v), 17)
  {
    hide Report, TrimSpace, Note;
    var w := v;
    RuleStep(r, d, opts, w, |d.tags| > MAX_TAGS, Rejection("tags", TagsTooMany));
    w := Note(w, |d.tags| > MAX_TAGS, "tags", TagsTooMany);
    RuleStep(r, d, opts, w, exists t | t in d.tags :: r.lower(t) != t, Rejection("tags", TagsNotLowercase));
  }

  /** At the last place the link's fault, if any, is the only one. */
  lemma LinkPlace(r: Rules, d: Draft, opts: Options, x: Rejection, y: Rejection)
    requires Place(x) == Place(y) == 17 && Breaks(r, d, opts, x) && Breaks(r, d, opts, y)
    ensures x == y
  {
    hide TrimSpace;
  }

  /** The rejection that a link deserves, and whether it does. */
  lemma LinkBreaks(r: Rules, d: Draft, opts: Options)
    requires !opts.kind.OtherKind?
    ensures var link, x := TrimSpace(d.link), LinkRejection(r, d, opts);
            && (forall y | Place(y) == 17 && Breaks(r, d, opts, y) :: y == x)
            && (Breaks(r, d, opts, x) <==>
                  if opts.kind.Grounded? then !LinkVerdict(r, link, opts.candidateURLs).Fine?
                  else link != "" && !r.absolute(link))
  {
    hide TrimSpace;
    var x := LinkRejection(r, d, opts);
    forall y | Place(y) == 17 && Breaks(r, d, opts, y) ensures y == x {
      assert Breaks(r, d, opts, x);
      LinkPlace(r, d, opts, x, y);
    }
  }

  function LinkRejection(r: Rules, d: Draft, opts: Options): Rejection {
    Rejection("link", if opts.kind.Grounded? then LinkReason(LinkVerdict(r, TrimSpace(d.link), opts.candidateURLs)) else LinkInvalid)
  }

  /**
   * What is reported of a draft: exactly the rules it breaks, each once, in the fixed order of the fields and rules.
   */
  lemma ViolationsExact(r: Rules, d: Draft, opts: Options)
    requires !opts.kind.OtherKind?
    ensures Report(r, d, opts, Violations(r, d, opts), 18)
  {
    hide Report, Breaks, TextFaults, NoteMarkup, NoteTags, TrimSpace, Note, LinkVerdict;
    TextReports(r, d, opts);
    MarkupReports(r, d, opts, TextFaults(r, d));
    TagsReport(r, d, opts, NoteMarkup(r, d, TextFaults(r, d)));
    var v := NoteTags(r, d.tags, NoteMarkup(r, d, TextFaults(r, d)));
    var x := LinkRejection(r, d, opts);
    LinkBreaks(r, d, opts);
    LastPlace(x);
    NoteReports(r, d, opts, v, 17, Breaks(r, d, opts, x), x);
  }

  lemma LastPlace(x: Rejection)
    requires x.reason in {LinkRequired, LinkInvalid, LinkNotCandidate}
    ensures Place(x) == 17
  {
  }
}
