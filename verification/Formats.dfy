/** Validation of the stage-2 presentation variants (internal/generate/formats.go). */
module FormatRules {
  import opened Basics
  import opened Contract

  const CARD_MAX := 280
  const EMBED_MAX := 180

  /** Bytes of the UTF-8 encoding, which is what Go's `len` measures. */
  function ByteLen(s: string): nat {
    if s == "" then 0
    else
      var n := s[0] as int;
      (if n < 0x80 then 1 else if n < 0x800 then 2 else if n < 0x10000 then 3 else 4) + ByteLen(s[1..])
  }

  /** The lower-cased plain text of the stored answer, "" when there is none. */
  function AnswerText(r: Rules, it: Item): string {
    r.lower(PlainText(r, it.answer))
  }

  /** What a stored text variant guarantees: plain, clean, short, not the raw summary, and no spoiler. */
  ghost predicate TextVariantOk(r: Rules, v: string, max: nat, it: Item) {
    v == "" || (
      && !r.hasTag(v) && EncodingOk(r, v) && (max > 0 ==> ByteLen(v) <= max * 3 / 2) && v != it.summary
      && (AnswerText(r, it) != "" ==> !Contains(r.lower(v), AnswerText(r, it))))
  }

  /** What a stored HTML variant guarantees: sanitizer output of markup whose links were all absolute. */
  ghost predicate HTMLVariantOk(r: Rules, v: string, it: Item) {
    v == "" || (
      && EncodingOk(r, v) && v != it.body
      && exists raw :: LinksAbsolute(r, raw) && v == r.sanitize(raw))
  }

  ghost predicate FormatsOk(r: Rules, f: Formats, it: Item) {
    && HTMLVariantOk(r, f.feedHTML, it) && HTMLVariantOk(r, f.pageHTML, it)
    && TextVariantOk(r, f.cardText, 280, it) && TextVariantOk(r, f.embedText, 180, it)
  }

  /** The formatter's text for a surface is kept exactly when it meets that surface's rules. */
  ghost predicate TextSlot(r: Rules, raw: string, max: nat, it: Item, v: string) {
    v == if TextVariantOk(r, TrimSpace(raw), max, it) then TrimSpace(raw) else ""
  }

  /** Its markup is kept, sanitized, exactly when its links are absolute and the result is clean and not the body. */
  ghost predicate HTMLSlot(r: Rules, raw: string, it: Item, v: string) {
    var t := TrimSpace(raw);
    v == if t != "" && LinksAbsolute(r, t) && EncodingOk(r, r.sanitize(t)) && r.sanitize(t) != it.body
         then r.sanitize(t) else ""
  }

  /** Each stored variant comes from the formatter's variant for the same surface. */
  ghost predicate SlotsFit(r: Rules, f: Formats, it: Item, v: Formats) {
    && HTMLSlot(r, f.feedHTML, it, v.feedHTML) && HTMLSlot(r, f.pageHTML, it, v.pageHTML)
    && TextSlot(r, f.cardText, 280, it, v.cardText) && TextSlot(r, f.embedText, 180, it, v.embedText)
  }

  function DropIf(v: string, drop: bool): string {
    if drop then "" else v
  }

  function CleanHTML(r: Rules, raw: string, it: Item): (v: string)
    ensures HTMLVariantOk(r, v, it) && HTMLSlot(r, raw, it, v)
  {
    var t := TrimSpace(raw);
    if t == "" || !LinksAbsolute(r, t) then ""
    else
      var v := r.sanitize(t);
      DropIf(v, !EncodingOk(r, v) || v == it.body)
  }

  function CleanText(r: Rules, raw: string, max: nat, it: Item): (v: string)
    ensures TextVariantOk(r, v, max, it) && TextSlot(r, raw, max, it, v)
  {
    var v := TrimSpace(raw);
    var answer := AnswerText(r, it);
    DropIf(v, || r.hasTag(v) || !EncodingOk(r, v) || (max > 0 && ByteLen(v) > max * 3 / 2)
              || (answer != "" && Contains(r.lower(v), answer)) || v == it.summary)
  }

  function Vetted(r: Rules, f: Formats, it: Item): (v: Formats)
    ensures FormatsOk(r, v, it) && SlotsFit(r, f, it, v)
  {
    Formats(CleanHTML(r, f.feedHTML, it), CleanText(r, f.cardText, CARD_MAX, it),
            CleanText(r, f.embedText, EMBED_MAX, it), CleanHTML(r, f.pageHTML, it))
  }

  method CheckControls(r: Rules, v: string) returns (ok: bool)
    ensures ok <==> EncodingOk(r, v)
  {
    if !r.validUTF8(v) { return false; }
    for i := 0 to |v|
      invariant forall c | c in v[..i] :: !ForbiddenControl(c)
    {
      if ForbiddenControl(v[i]) { return false; }
    }
    assert v[..|v|] == v;
    return true;
  }

  method VetHTML(r: Rules, raw: string, it: Item) returns (v: string)
    ensures v == CleanHTML(r, raw, it)
  {
    v := TrimSpace(raw);
    if v != "" {
      var absolute := CheckLinks(r, v);
      v := if absolute then r.sanitize(v) else "";
    }
    var clean := CheckControls(r, v);
    if !clean || v == it.body { v := ""; }
  }

  method VetText(r: Rules, raw: string, max: nat, it: Item) returns (v: string)
    ensures v == CleanText(r, raw, max, it)
  {
    v := TrimSpace(raw);
    var clean := CheckControls(r, v);
    if v == "" || r.hasTag(v) || !clean { return ""; }
    if max > 0 && ByteLen(v) > max * 3 / 2 { return ""; }
    var answer := AnswerText(r, it);
    if answer != "" && Contains(r.lower(v), answer) { return ""; }
    if v == it.summary { return ""; }
  }

  /** `validateFormats`: every variant meets its surface's rules or is dropped, never repaired. */
  method ValidateFormats(r: Rules, f: Formats, it: Item) returns (v: Formats)
    ensures v == Vetted(r, f, it)
    ensures FormatsOk(r, v, it) && SlotsFit(r, f, it, v)
  {
    var feed := VetHTML(r, f.feedHTML, it);
    var page := VetHTML(r, f.pageHTML, it);
    var card := VetText(r, f.cardText, CARD_MAX, it);
    var embed := VetText(r, f.embedText, EMBED_MAX, it);
    return Formats(feed, card, embed, page);
  }

  /** Bytes add up over a text, and each character takes the one to four that UTF-8 gives it. */
  lemma {:induction false} ByteLenAdds(a: string, b: string)
    ensures ByteLen(a + b) == ByteLen(a) + ByteLen(b)
  {
    if a == "" {
      assert a + b == b;
    } else {
      ByteLenAdds(a[1..], b);
      assert (a + b)[1..] == a[1..] + b;
    }
  }

  lemma ByteLenOne(c: char)
    ensures var n := c as int;
            ByteLen([c]) == if n <= 0x7F then 1 else if n <= 0x7FF then 2 else if n <= 0xFFFF then 3 else 4
  {
    assert [c][1..] == "";
  }
}
