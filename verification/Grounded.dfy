/**
 * Prompt text for grounded feeds (internal/generate/grounded.go): the candidate block, whose
 * text should not depend on fetch order, and the excerpt cutter, which must not split a word.
 */
module CandidateBlock {
  import opened Basics
  import opened Order
  import opened World
  import Decimal

  /** What candidates are sorted by. */
  datatype Key = Key(published: Instant, url: string)

  function KeyOf(c: SourceCandidate): Key { Key(c.published, c.url) }

  /** Newest first, then URL ascending. */
  predicate Before(a: Key, b: Key) {
    a.published > b.published || (a.published == b.published && Less(a.url, b.url))
  }

  predicate Precedes(a: SourceCandidate, b: SourceCandidate) { Before(KeyOf(a), KeyOf(b)) }

  ghost predicate Sorted(s: seq<SourceCandidate>) {
    forall i, j | 0 <= i < j < |s| :: !Precedes(s[j], s[i])
  }

  lemma BeforeStrict(a: Key, b: Key)
    ensures !(Before(a, b) && Before(b, a))
    ensures a == b <==> !Before(a, b) && !Before(b, a)
  {
    if a.url == b.url { LessIrreflexive(a.url); } else { LessTotal(a.url, b.url); }
    if Less(a.url, b.url) { LessAsymmetric(a.url, b.url); }
    if Less(b.url, a.url) { LessAsymmetric(b.url, a.url); }
  }

  lemma BeforeTrans(a: Key, b: Key, c: Key)
    requires Before(a, b) && !Before(c, b)
    ensures Before(a, c) && !Before(c, a)
  {
    BeforeStrict(b, c);
    if Before(b, c) && a.published == b.published && b.published == c.published { LessTransitive(a.url, b.url, c.url); }
    BeforeStrict(a, c);
  }

  /** Inserts before the first element that does not precede `x`, so equal keys keep their order. */
  function Insert(x: SourceCandidate, s: seq<SourceCandidate>): seq<SourceCandidate> {
    if s == [] || !Precedes(s[0], x) then [x] + s else [s[0]] + Insert(x, s[1..])
  }

  /** `sort.SliceStable` under Precedes. */
  function StableSort(s: seq<SourceCandidate>): seq<SourceCandidate> {
    if s == [] then [] else Insert(s[0], StableSort(s[1..]))
  }

  lemma {:induction false} InsertPermutes(x: SourceCandidate, s: seq<SourceCandidate>)
    ensures multiset(Insert(x, s)) == multiset{x} + multiset(s)
  {
    hide Precedes;
    if s == [] {
      assert [x] + s == [x];
    } else {
      assert s == [s[0]] + s[1..];
      if Precedes(s[0], x) { InsertPermutes(x, s[1..]); }
    }
  }

  lemma {:induction false} InsertSorts(x: SourceCandidate, s: seq<SourceCandidate>)
    requires Sorted(s)
    ensures Sorted(Insert(x, s))
  {
    hide Before;
    if s != [] {
      if Precedes(s[0], x) {
        InsertSorts(x, s[1..]);
        BeforeStrict(KeyOf(s[0]), KeyOf(x));
        InsertBehind(s[0], x, s[1..]);
      } else {
        forall j | 0 <= j < |s| ensures !Precedes(s[j], x) {
          if Precedes(s[j], x) && j > 0 { BeforeTrans(KeyOf(s[j]), KeyOf(x), KeyOf(s[0])); }
        }
      }
    }
  }

  /** What did not come before `y` still does not after the insertion. */
  lemma InsertBehind(y: SourceCandidate, x: SourceCandidate, s: seq<SourceCandidate>)
    requires !Precedes(x, y) && forall j | 0 <= j < |s| :: !Precedes(s[j], y)
    ensures var t := Insert(x, s); forall j | 0 <= j < |t| :: !Precedes(t[j], y)
  {
    hide Precedes, Insert;
    var t := Insert(x, s);
    InsertPermutes(x, s);
    forall j | 0 <= j < |t| ensures !Precedes(t[j], y) {
      assert t[j] in multiset(t);
      assert t[j] == x || t[j] in s;
    }
  }

  /** The candidates with one key, in their order. */
  function Keyed(s: seq<SourceCandidate>, k: Key): seq<SourceCandidate> {
    if s == [] then [] else (if KeyOf(s[0]) == k then [s[0]] else []) + Keyed(s[1..], k)
  }

  lemma {:induction false} InsertKeyed(x: SourceCandidate, s: seq<SourceCandidate>, k: Key)
    ensures Keyed(Insert(x, s), k) == (if KeyOf(x) == k then [x] else []) + Keyed(s, k)
  {
    hide Before;
    var t := Insert(x, s);
    if s != [] && Precedes(s[0], x) {
      InsertKeyed(x, s[1..], k);
      assert t[0] == s[0] && t[1..] == Insert(x, s[1..]);
      BeforeStrict(KeyOf(s[0]), KeyOf(x));
    } else {
      assert t[0] == x && t[1..] == s;
    }
  }

  /** The sort gives a sorted permutation, in which the candidates of each key keep the order they came in. */
  lemma {:induction false} StableSortSorts(s: seq<SourceCandidate>)
    ensures Sorted(StableSort(s)) && multiset(StableSort(s)) == multiset(s)
    ensures forall k :: Keyed(StableSort(s), k) == Keyed(s, k)
  {
    hide Sorted, Precedes, Insert;
    if s == [] {
      EmptySorted();
    } else {
      StableSortSorts(s[1..]);
      InsertSorts(s[0], StableSort(s[1..]));
      InsertPermutes(s[0], StableSort(s[1..]));
      assert s == [s[0]] + s[1..];
      forall k ensures Keyed(StableSort(s), k) == Keyed(s, k) { InsertKeyed(s[0], StableSort(s[1..]), k); }
    }
  }

  lemma EmptySorted()
    ensures Sorted([])
  {
  }

  // ----- What the block shows -----

  /** The texts printed from a candidate, besides its URL. */
  datatype Printed = Printed(title: string, date: string, excerpt: string)

  /** How the block prints a candidate: the date in the candidate's own offset, unless it has none. */
  function Print(excerpt: string -> string, c: SourceCandidate): Printed {
    Printed(TrimSpace(c.title), if c.published == 0 then "(undated)" else c.date, excerpt(c.excerpt))
  }

  function Prints(excerpt: string -> string): SourceCandidate -> Printed { c => Print(excerpt, c) }

  /** One rendered candidate: its key and what is printed from it. */
  datatype Entry = Entry(key: Key, text: Printed)

  function ToEntry(show: SourceCandidate -> Printed, c: SourceCandidate): Entry { Entry(KeyOf(c), show(c)) }

  function ToEntries(show: SourceCandidate -> Printed, s: seq<SourceCandidate>): (es: seq<Entry>)
    ensures |es| == |s| && forall i | 0 <= i < |s| :: es[i] == ToEntry(show, s[i])
  {
    if s == [] then [] else ToEntries(show, s[..|s| - 1]) + [ToEntry(show, s[|s| - 1])]
  }

  function Line(n: nat, e: Entry): string {
    Decimal.Print(n) + ". Title: " + e.text.title + "\n   URL: " + TrimSpace(e.key.url)
    + "\n   Published: " + e.text.date + "\n   Excerpt: " + e.text.excerpt + "\n"
  }

  function Lines(es: seq<Entry>): string {
    if es == [] then ""
    else Lines(es[..|es| - 1]) + (if |es| > 1 then "\n" else "") + Line(|es|, es[|es| - 1])
  }

  function DropNewlines(s: string): string {
    if s != "" && s[|s| - 1] == '\n' then DropNewlines(s[..|s| - 1]) else s
  }

  /** The `max` first of the sorted candidates; a non-positive `max` is no cap. */
  function Top(cands: seq<SourceCandidate>, max: int): seq<SourceCandidate> {
    var s := StableSort(cands);
    if max > 0 && |s| > max then s[..max] else s
  }

  function Block(show: SourceCandidate -> Printed, cands: seq<SourceCandidate>, max: int): string {
    if cands == [] then "(no candidate articles available)"
    else DropNewlines(Lines(ToEntries(show, Top(cands, max))))
  }

  /** `BuildCandidateBlock`: sorts a copy, cuts it, and appends one entry at a time. */
  method BuildCandidateBlock(excerpt: string -> string, cands: seq<SourceCandidate>, max: int)
    returns (text: string)
    ensures text == Block(Prints(excerpt), cands, max)
  {
    hide Line, StableSort, ToEntries, DropNewlines, Print;
    var show := Prints(excerpt);
    if |cands| == 0 { return "(no candidate articles available)"; }
    var ordered := StableSort(cands);
    if max > 0 && |ordered| > max { ordered := ordered[..max]; }
    text := "";
    for i := 0 to |ordered|
      invariant text == Lines(ToEntries(show, ordered[..i]))
    {
      LinesGrow(show, ordered, i);
      text := text + if i > 0 then "\n" else "";
      text := text + Line(i + 1, ToEntry(show, ordered[i]));
    }
    assert ordered[..|ordered|] == ordered;
    text := DropNewlines(text);
  }

  lemma LinesGrow(show: SourceCandidate -> Printed, s: seq<SourceCandidate>, i: nat)
    requires i < |s|
    ensures Lines(ToEntries(show, s[..i + 1]))
            == Lines(ToEntries(show, s[..i])) + (if i > 0 then "\n" else "") + Line(i + 1, ToEntry(show, s[i]))
  {
    hide Line, ToEntries, ToEntry;
    var es := ToEntries(show, s[..i + 1]);
    assert es[..i] == ToEntries(show, s[..i]);
  }

  /** The block lists its candidates in order, and nothing it leaves out precedes anything it lists. */
  lemma TopIsNewest(cands: seq<SourceCandidate>, max: int) returns (rest: seq<SourceCandidate>)
    ensures var t := Top(cands, max);
            && Sorted(t) && |t| == (if 0 < max < |cands| then max else |cands|)
            && multiset(t) + multiset(rest) == multiset(cands)
            && (forall x, y | x in t && y in rest :: !Precedes(y, x))
            && (forall i, j | 0 <= i < j < |t| ::
                  t[i].published > t[j].published || (t[i].published == t[j].published && !Less(t[j].url, t[i].url)))
            && (forall x, y | x in t && y in rest ::
                  x.published > y.published || (x.published == y.published && !Less(y.url, x.url)))
  {
    hide StableSort, Less;
    StableSortSorts(cands);
    var s, t := StableSort(cands), Top(cands, max);
    SameSize(s, cands);
    rest := s[|t|..];
    assert s == t + rest;
    assert multiset(t) + multiset(rest) == multiset(cands);
  }

  lemma SameSize<T>(a: seq<T>, b: seq<T>)
    requires multiset(a) == multiset(b)
    ensures |a| == |b|
  {
    assert |multiset(a)| == |a| && |multiset(b)| == |b|;
  }

  // ----- When the order of the fetch shows -----

  function KeyedEntries(es: seq<Entry>, k: Key): seq<Entry> {
    if es == [] then [] else KeyedEntries(es[..|es| - 1], k) + if es[|es| - 1].key == k then [es[|es| - 1]] else []
  }

  lemma {:induction false} EntriesKeyed(show: SourceCandidate -> Printed, s: seq<SourceCandidate>, k: Key)
    ensures KeyedEntries(ToEntries(show, s), k) == ToEntries(show, Keyed(s, k))
  {
    hide ToEntries, ToEntry, Keyed;
    if s == [] {
      NoneKeyed(k);
    } else {
      var init, x := s[..|s| - 1], s[|s| - 1];
      assert s == init + [x];
      EntriesKeyed(show, init, k);
      KeyedSnoc(init, x, k);
      EntriesSnoc(show, init, x);
      EntriesSnoc(show, Keyed(init, k), x);
      EntrySnocKeyed(ToEntries(show, init), ToEntry(show, x), k);
      EntryKey(show, x);
    }
  }

  lemma NoneKeyed(k: Key)
    ensures Keyed([], k) == []
  {
  }

  lemma EntryKey(show: SourceCandidate -> Printed, x: SourceCandidate)
    ensures ToEntry(show, x).key == KeyOf(x)
  {
  }

  lemma EntriesSnoc(show: SourceCandidate -> Printed, s: seq<SourceCandidate>, x: SourceCandidate)
    ensures ToEntries(show, s + [x]) == ToEntries(show, s) + [ToEntry(show, x)]
  {
    hide ToEntry;
    assert (s + [x])[..|s|] == s;
  }

  lemma EntrySnocKeyed(es: seq<Entry>, e: Entry, k: Key)
    ensures KeyedEntries(es + [e], k) == if e.key == k then KeyedEntries(es, k) + [e] else KeyedEntries(es, k)
  {
    assert (es + [e])[..|es|] == es;
    assert KeyedEntries(es, k) + [] == KeyedEntries(es, k);
  }

  lemma {:induction false} KeyedSnoc(s: seq<SourceCandidate>, x: SourceCandidate, k: Key)
    ensures Keyed(s + [x], k) == Keyed(s, k) + if KeyOf(x) == k then [x] else []
  {
    if s == [] {
      assert s + [x] == [x] && [x][1..] == [];
    } else {
      KeyedSnoc(s[1..], x, k);
      assert (s + [x])[1..] == s[1..] + [x];
    }
  }

  ghost predicate SortedEntries(es: seq<Entry>) {
    forall i, j | 0 <= i < j < |es| :: !Before(es[j].key, es[i].key)
  }

  /** An entry of a key that occurs is never after the last one. */
  lemma {:induction false} KeyedBehind(es: seq<Entry>, k: Key)
    requires SortedEntries(es) && KeyedEntries(es, k) != []
    ensures es != [] && !Before(es[|es| - 1].key, k)
  {
    hide Before;
    var n := |es| - 1;
    if es[n].key == k {
      BeforeStrict(k, k);
    } else {
      var i := KeyOccurs(es[..n], k);
      assert es[i] == es[..n][i];
    }
  }

  lemma {:induction false} KeyOccurs(es: seq<Entry>, k: Key) returns (i: nat)
    requires KeyedEntries(es, k) != []
    ensures i < |es| && es[i].key == k
  {
    if es[|es| - 1].key == k { i := |es| - 1; } else { i := KeyOccurs(es[..|es| - 1], k); }
  }

  ghost predicate SameByKey(a: seq<Entry>, b: seq<Entry>) {
    forall k :: KeyedEntries(a, k) == KeyedEntries(b, k)
  }

  /** A sorted list is decided by the order inside each key. */
  lemma {:induction false} KeysDecide(a: seq<Entry>, b: seq<Entry>)
    requires SortedEntries(a) && SortedEntries(b) && SameByKey(a, b)
    ensures a == b
    decreases |a|
  {
    hide Before, KeyedEntries, SameByKey;
    if a == [] {
      if b != [] { EmptyByKey(b); }
    } else {
      LastByKey(a, b);
      InitByKey(a, b);
      KeysDecide(a[..|a| - 1], b[..|b| - 1]);
      assert a == a[..|a| - 1] + [a[|a| - 1]] && b == b[..|b| - 1] + [b[|b| - 1]];
    }
  }

  lemma EmptyByKey(b: seq<Entry>)
    requires b != []
    ensures !SameByKey([], b)
  {
    var k := b[|b| - 1].key;
    assert KeyedEntries([], k) != KeyedEntries(b, k);
  }

  lemma LastByKey(a: seq<Entry>, b: seq<Entry>)
    requires a != [] && SortedEntries(a) && SortedEntries(b) && SameByKey(a, b)
    ensures b != [] && a[|a| - 1] == b[|b| - 1]
  {
    hide Before, SortedEntries;
    var x := a[|a| - 1];
    assert KeyedEntries(a, x.key) == KeyedEntries(b, x.key);
    KeyedBehind(b, x.key);
    var y := b[|b| - 1];
    assert KeyedEntries(a, y.key) == KeyedEntries(b, y.key);
    KeyedBehind(a, y.key);
    BeforeStrict(x.key, y.key);
    SnocEqual(KeyedEntries(a[..|a| - 1], x.key), x, KeyedEntries(b[..|b| - 1], x.key), y);
  }

  lemma InitByKey(a: seq<Entry>, b: seq<Entry>)
    requires a != [] && b != [] && a[|a| - 1] == b[|b| - 1] && SameByKey(a, b)
    ensures SameByKey(a[..|a| - 1], b[..|b| - 1])
  {
    var x, a', b' := a[|a| - 1], a[..|a| - 1], b[..|b| - 1];
    forall k ensures KeyedEntries(a', k) == KeyedEntries(b', k) {
      assert KeyedEntries(a, k) == KeyedEntries(b, k);
      if k == x.key {
        SnocEqual(KeyedEntries(a', k), x, KeyedEntries(b', k), x);
      } else {
        KeyedInit(a, k);
        KeyedInit(b, k);
      }
    }
  }

  lemma KeyedInit(es: seq<Entry>, k: Key)
    requires es != [] && es[|es| - 1].key != k
    ensures KeyedEntries(es, k) == KeyedEntries(es[..|es| - 1], k)
  {
    assert KeyedEntries(es, k) == KeyedEntries(es[..|es| - 1], k) + [];
  }

  lemma SnocEqual<T>(a: seq<T>, x: T, b: seq<T>, y: T)
    requires a + [x] == b + [y]
    ensures a == b && x == y
  {
    assert (a + [x])[|a|] == x && (b + [y])[|b|] == y;
    assert a == (a + [x])[..|a|] && b == (b + [y])[..|b|];
  }

  lemma SortedRendered(show: SourceCandidate -> Printed, s: seq<SourceCandidate>)
    requires Sorted(s)
    ensures SortedEntries(ToEntries(show, s))
  {
    hide Before, ToEntries;
    var es := ToEntries(show, s);
    forall i, j | 0 <= i < j < |es| ensures !Before(es[j].key, es[i].key) {
      assert !Precedes(s[j], s[i]);
    }
  }

  /** Key by key, two fetches bring the same entries in the same order. */
  ghost predicate SameTies(show: SourceCandidate -> Printed, a: seq<SourceCandidate>, b: seq<SourceCandidate>) {
    forall k :: ToEntries(show, Keyed(a, k)) == ToEntries(show, Keyed(b, k))
  }

  lemma TiesAreSortedTies(show: SourceCandidate -> Printed, a: seq<SourceCandidate>, b: seq<SourceCandidate>)
    ensures SameTies(show, a, b) <==>
            SameByKey(ToEntries(show, StableSort(a)), ToEntries(show, StableSort(b)))
  {
    hide StableSort, Sorted, ToEntries, Keyed, KeyedEntries;
    var s, t := StableSort(a), StableSort(b);
    StableSortSorts(a);
    StableSortSorts(b);
    forall k
      ensures ToEntries(show, Keyed(a, k)) == ToEntries(show, Keyed(b, k)) <==>
              KeyedEntries(ToEntries(show, s), k) == KeyedEntries(ToEntries(show, t), k)
    {
      assert Keyed(s, k) == Keyed(a, k) && Keyed(t, k) == Keyed(b, k);
      EntriesKeyed(show, s, k);
      EntriesKeyed(show, t, k);
    }
  }

  /** Two fetches list the same entries exactly when, key by key, they bring the same entries in the same order. */
  lemma SameListIff(show: SourceCandidate -> Printed, a: seq<SourceCandidate>, b: seq<SourceCandidate>)
    ensures ToEntries(show, StableSort(a)) == ToEntries(show, StableSort(b)) <==> SameTies(show, a, b)
  {
    hide StableSort, Sorted, SortedEntries, ToEntries, SameTies, KeyedEntries;
    StableSortSorts(a);
    StableSortSorts(b);
    SortedRendered(show, StableSort(a));
    SortedRendered(show, StableSort(b));
    TiesAreSortedTies(show, a, b);
    if SameTies(show, a, b) {
      KeysDecide(ToEntries(show, StableSort(a)), ToEntries(show, StableSort(b)));
    }
  }

  /** Candidates that share an instant and a URL print the same. */
  ghost predicate KeysDetermine(show: SourceCandidate -> Printed, cands: seq<SourceCandidate>) {
    forall x, y | x in cands && y in cands && KeyOf(x) == KeyOf(y) :: ToEntry(show, x) == ToEntry(show, y)
  }

  lemma {:induction false} KeyedCount(s: seq<SourceCandidate>, k: Key, x: SourceCandidate)
    ensures multiset(Keyed(s, k))[x] == if KeyOf(x) == k then multiset(s)[x] else 0
  {
    if s != [] {
      KeyedCount(s[1..], k, x);
      assert s == [s[0]] + s[1..];
    }
  }

  lemma KeyedPermutes(a: seq<SourceCandidate>, b: seq<SourceCandidate>, k: Key)
    requires multiset(a) == multiset(b)
    ensures multiset(Keyed(a, k)) == multiset(Keyed(b, k))
  {
    hide Keyed;
    forall x ensures multiset(Keyed(a, k))[x] == multiset(Keyed(b, k))[x] {
      KeyedCount(a, k, x);
      KeyedCount(b, k, x);
    }
  }

  /** In a permutation whose keys determine what is printed, each key brings the same entries. */
  lemma KeyedSame(show: SourceCandidate -> Printed, a: seq<SourceCandidate>, b: seq<SourceCandidate>, k: Key)
    requires multiset(a) == multiset(b) && KeysDetermine(show, a)
    ensures ToEntries(show, Keyed(a, k)) == ToEntries(show, Keyed(b, k))
  {
    hide Keyed, ToEntries, ToEntry;
    var s, t := Keyed(a, k), Keyed(b, k);
    KeyedPermutes(a, b, k);
    SameSize(s, t);
    forall i | 0 <= i < |s| ensures ToEntry(show, s[i]) == ToEntry(show, t[i]) {
      assert s[i] in multiset(s) && t[i] in multiset(s);
      KeyedCount(a, k, s[i]);
      KeyedCount(a, k, t[i]);
      assert s[i] in multiset(a) && t[i] in multiset(a);
    }
  }

  lemma OrderHidden(show: SourceCandidate -> Printed, a: seq<SourceCandidate>, b: seq<SourceCandidate>)
    requires multiset(a) == multiset(b) && KeysDetermine(show, a)
    ensures ToEntries(show, StableSort(a)) == ToEntries(show, StableSort(b))
  {
    hide StableSort, ToEntries, ToEntry, Keyed, KeysDetermine;
    forall k ensures ToEntries(show, Keyed(a, k)) == ToEntries(show, Keyed(b, k)) { KeyedSame(show, a, b, k); }
    SameListIff(show, a, b);
  }

  lemma PullOut(a: seq<SourceCandidate>, x: SourceCandidate, y: SourceCandidate) returns (rest: seq<SourceCandidate>)
    requires x in a && y in a && x != y
    ensures multiset([x, y] + rest) == multiset(a) && multiset([y, x] + rest) == multiset(a)
  {
    var some := PullOne(a, x);
    StillIn(a, some, x, y);
    rest := PullOne(some, y);
    InFront(x, y, rest);
    InFront(y, x, rest);
  }

  lemma PullOne(a: seq<SourceCandidate>, x: SourceCandidate) returns (rest: seq<SourceCandidate>)
    requires x in a
    ensures multiset(a) == multiset(rest) + multiset{x}
  {
    var i :| 0 <= i < |a| && a[i] == x;
    var l, r := a[..i], a[i + 1..];
    assert a == (l + [x]) + r;
    rest := l + r;
  }

  lemma StillIn(a: seq<SourceCandidate>, rest: seq<SourceCandidate>, x: SourceCandidate, y: SourceCandidate)
    requires multiset(a) == multiset(rest) + multiset{x} && y in a && y != x
    ensures y in rest
  {
    assert y in multiset(a);
    assert y in multiset(rest);
  }

  lemma InFront(x: SourceCandidate, y: SourceCandidate, rest: seq<SourceCandidate>)
    ensures multiset([x, y] + rest) == multiset(rest) + multiset{y} + multiset{x}
  {
    assert [x, y] == [x] + [y];
  }

  // ----- Under a cap -----

  /** How many candidates come before a key. */
  function Ahead(s: seq<SourceCandidate>, k: Key): nat {
    if s == [] then 0 else (if Before(KeyOf(s[0]), k) then 1 else 0) + Ahead(s[1..], k)
  }

  lemma {:induction false} InsertAhead(x: SourceCandidate, s: seq<SourceCandidate>, k: Key)
    ensures Ahead(Insert(x, s), k) == (if Before(KeyOf(x), k) then 1 else 0) + Ahead(s, k)
  {
    hide Before;
    var t := Insert(x, s);
    if s != [] && Precedes(s[0], x) {
      InsertAhead(x, s[1..], k);
      assert t[0] == s[0] && t[1..] == Insert(x, s[1..]);
    } else {
      assert t[0] == x && t[1..] == s;
    }
  }

  lemma {:induction false} SortAhead(s: seq<SourceCandidate>, k: Key)
    ensures Ahead(StableSort(s), k) == Ahead(s, k)
  {
    hide Before, Insert;
    if s != [] {
      SortAhead(s[1..], k);
      InsertAhead(s[0], StableSort(s[1..]), k);
    }
  }

  /** Nothing in a sorted list comes before its first key. */
  lemma {:induction false} NoneAhead(s: seq<SourceCandidate>, k: Key)
    requires forall j | 0 <= j < |s| :: !Before(KeyOf(s[j]), k)
    ensures Ahead(s, k) == 0
  {
    hide Before;
    if s != [] {
      assert forall j | 0 <= j < |s[1..]| :: s[1..][j] == s[j + 1];
      NoneAhead(s[1..], k);
    }
  }

  lemma {:induction false} AheadAtMost(s: seq<SourceCandidate>, i: nat)
    requires Sorted(s) && i < |s|
    ensures Ahead(s, KeyOf(s[i])) <= i
  {
    hide Before;
    if i == 0 {
      BeforeStrict(KeyOf(s[0]), KeyOf(s[0]));
      forall j | 0 <= j < |s| ensures !Before(KeyOf(s[j]), KeyOf(s[0])) {
        if j > 0 { assert !Precedes(s[j], s[0]); }
      }
      NoneAhead(s, KeyOf(s[0]));
    } else {
      AheadAtMost(s[1..], i - 1);
    }
  }

  /** In a sorted list the first candidate of a key stands right after those ahead of it. */
  lemma {:induction false} FirstOfKey(s: seq<SourceCandidate>, k: Key)
    requires Sorted(s) && Keyed(s, k) != []
    ensures Ahead(s, k) < |s| && s[Ahead(s, k)] == Keyed(s, k)[0]
  {
    hide Before;
    if KeyOf(s[0]) == k {
      AheadAtMost(s, 0);
    } else {
      var i := KeyedAt(s[1..], k);
      assert !Precedes(s[i + 1], s[0]);
      BeforeStrict(KeyOf(s[0]), k);
      FirstOfKey(s[1..], k);
    }
  }

  lemma {:induction false} KeyedAt(s: seq<SourceCandidate>, k: Key) returns (i: nat)
    requires Keyed(s, k) != []
    ensures i < |s| && KeyOf(s[i]) == k
  {
    if KeyOf(s[0]) == k { i := 0; } else { i := KeyedAt(s[1..], k); i := i + 1; }
  }

  /** Whatever the order of the fetch, the same key stands at each place of the sorted list. */
  lemma SameKeys(a: seq<SourceCandidate>, b: seq<SourceCandidate>)
    requires multiset(a) == multiset(b)
    ensures |StableSort(a)| == |StableSort(b)|
    ensures forall i | 0 <= i < |StableSort(a)| :: KeyOf(StableSort(a)[i]) == KeyOf(StableSort(b)[i])
  {
    hide StableSort, ToEntries;
    var blank := (_: SourceCandidate) => Printed("", "", "");
    OrderHidden(blank, a, b);
    var s, t := StableSort(a), StableSort(b);
    assert |ToEntries(blank, s)| == |s| && |ToEntries(blank, t)| == |t|;
    forall i | 0 <= i < |s| ensures KeyOf(s[i]) == KeyOf(t[i]) {
      assert ToEntries(blank, s)[i] == ToEntries(blank, t)[i];
    }
  }

  /** Candidates of one key that print differently all fall behind the cap. */
  ghost predicate TiesBehind(show: SourceCandidate -> Printed, a: seq<SourceCandidate>, max: int) {
    forall x, y | x in a && y in a && KeyOf(x) == KeyOf(y) && show(x) != show(y) :: max > 0 && Ahead(a, KeyOf(x)) >= max
  }

  /** At each listed place two fetches of the same candidates show the same. */
  lemma PlaceSame(show: SourceCandidate -> Printed, a: seq<SourceCandidate>, b: seq<SourceCandidate>, max: int, i: nat)
    requires multiset(a) == multiset(b) && TiesBehind(show, a, max) && (max > 0 ==> i < max)
    requires i < |StableSort(a)| == |StableSort(b)|
    ensures ToEntry(show, StableSort(a)[i]) == ToEntry(show, StableSort(b)[i])
  {
    hide StableSort, Before;
    SameKeys(a, b);
    StableSortSorts(a);
    StableSortSorts(b);
    var s, t := StableSort(a), StableSort(b);
    AheadAtMost(s, i);
    SortAhead(a, KeyOf(s[i]));
    assert s[i] in multiset(s) && t[i] in multiset(t);
    assert s[i] in multiset(a) && t[i] in multiset(a);
  }

  lemma ListSame(show: SourceCandidate -> Printed, a: seq<SourceCandidate>, b: seq<SourceCandidate>, max: int)
    requires multiset(a) == multiset(b) && TiesBehind(show, a, max)
    ensures ToEntries(show, Top(a, max)) == ToEntries(show, Top(b, max))
  {
    hide StableSort, ToEntries, TiesBehind, ToEntry;
    SameKeys(a, b);
    var s, t := Top(a, max), Top(b, max);
    forall i | 0 <= i < |s| ensures ToEntry(show, s[i]) == ToEntry(show, t[i]) {
      PlaceSame(show, a, b, max, i);
    }
  }

  lemma {:induction false} AheadSame(a: seq<SourceCandidate>, b: seq<SourceCandidate>, k: Key)
    requires |a| == |b| && forall i | 0 <= i < |a| :: KeyOf(a[i]) == KeyOf(b[i])
    ensures Ahead(a, k) == Ahead(b, k)
  {
    hide Before;
    if a != [] {
      assert forall i | 0 <= i < |a[1..]| :: a[1..][i] == a[i + 1] && b[1..][i] == b[i + 1];
      AheadSame(a[1..], b[1..], k);
    }
  }

  lemma AheadPermutes(a: seq<SourceCandidate>, b: seq<SourceCandidate>, k: Key)
    requires multiset(a) == multiset(b)
    ensures Ahead(a, k) == Ahead(b, k)
  {
    hide StableSort, Ahead, KeyOf;
    SameKeys(a, b);
    AheadSame(StableSort(a), StableSort(b), k);
    SortAhead(a, k);
    SortAhead(b, k);
  }

  /** With `x` in front of its key, the list shows `x` at the place the key begins. */
  lemma FrontShown(x: SourceCandidate, rest: seq<SourceCandidate>, max: int)
    requires max > 0 ==> Ahead([x] + rest, KeyOf(x)) < max
    ensures var a := [x] + rest;
            Ahead(a, KeyOf(x)) < |Top(a, max)| && Top(a, max)[Ahead(a, KeyOf(x))] == x
  {
    hide StableSort, Before, Sorted;
    var a, k := [x] + rest, KeyOf(x);
    StableSortSorts(a);
    SortAhead(a, k);
    assert Keyed(a, k)[0] == x;
    FirstOfKey(StableSort(a), k);
  }

  lemma FrontDiffers(show: SourceCandidate -> Printed, x: SourceCandidate, y: SourceCandidate, rest: seq<SourceCandidate>, max: int)
    requires KeyOf(x) == KeyOf(y) && show(x) != show(y)
    requires max > 0 ==> Ahead([x, y] + rest, KeyOf(x)) < max
    ensures ToEntries(show, Top([x, y] + rest, max)) != ToEntries(show, Top([y, x] + rest, max))
  {
    hide Top, ToEntries, Ahead;
    var a, b, k := [x, y] + rest, [y, x] + rest, KeyOf(x);
    assert a == [x] + ([y] + rest) && b == [y] + ([x] + rest);
    InFront(x, y, rest);
    InFront(y, x, rest);
    AheadPermutes(a, b, k);
    FrontShown(x, [y] + rest, max);
    FrontShown(y, [x] + rest, max);
    var n := Ahead(a, k);
    assert ToEntries(show, Top(a, max))[n] != ToEntries(show, Top(b, max))[n];
  }

  /**
   * The list does not depend on the order of the fetch exactly when candidates that share an instant and a URL
   * print the same or fall behind the cap; without a cap, exactly when all of them print the same.
   */
  lemma OrderHiddenIff(show: SourceCandidate -> Printed, a: seq<SourceCandidate>, max: int)
    ensures (forall b | multiset(b) == multiset(a) :: ToEntries(show, Top(b, max)) == ToEntries(show, Top(a, max)))
            <==> TiesBehind(show, a, max)
  {
    hide Top, ToEntries, Ahead;
    if TiesBehind(show, a, max) {
      forall b | multiset(b) == multiset(a) ensures ToEntries(show, Top(b, max)) == ToEntries(show, Top(a, max)) {
        ListSame(show, a, b, max);
      }
    } else {
      var x, y :| x in a && y in a && KeyOf(x) == KeyOf(y) && show(x) != show(y) && !(max > 0 && Ahead(a, KeyOf(x)) >= max);
      var rest := PullOut(a, x, y);
      AheadPermutes(a, [x, y] + rest, KeyOf(x));
      FrontDiffers(show, x, y, rest, max);
    }
  }

  /** Any permutation of the candidates renders the same text, unless two with one key print differently before the cap. */
  lemma BlockIsCanonical(show: SourceCandidate -> Printed, a: seq<SourceCandidate>, b: seq<SourceCandidate>, max: int)
    requires multiset(a) == multiset(b) && TiesBehind(show, a, max)
    ensures Block(show, a, max) == Block(show, b, max)
  {
    hide Top, Lines, ToEntries, TiesBehind;
    SameSize(a, b);
    ListSame(show, a, b, max);
  }

  lemma {:induction false} NewlinesAtEnd(s: string, p: nat)
    requires p < |s| && s[p] != '\n'
    ensures p < |DropNewlines(s)| && DropNewlines(s)[p] == s[p]
  {
    if s[|s| - 1] == '\n' { NewlinesAtEnd(s[..|s| - 1], p); }
  }

  /** The text shows it: two candidates with one key and different titles render by their fetch order. */
  lemma TiesShowFetchOrder(excerpt: string -> string)
    ensures var a, b := SourceCandidate("a", "u", 0, "", ""), SourceCandidate("b", "u", 0, "", "");
            Block(Prints(excerpt), [a, b], 0) != Block(Prints(excerpt), [b, a], 0)
  {
    var a, b := SourceCandidate("a", "u", 0, "", ""), SourceCandidate("b", "u", 0, "", "");
    FirstTitleShows(excerpt, a, b);
    FirstTitleShows(excerpt, b, a);
  }

  /**
   * And so it does for one article fetched with two offsets: half past eleven in the evening at -01:00 is half past
   * midnight UTC, which ties as an instant and prints as another day.
   */
  lemma OffsetsShowFetchOrder(excerpt: string -> string, title: string, url: string, text: string, at: Instant)
    requires at != 0
    ensures var a, b := SourceCandidate(title, url, at, "2006-01-02", text), SourceCandidate(title, url, at, "2006-01-03", text);
            Block(Prints(excerpt), [a, b], 0) != Block(Prints(excerpt), [b, a], 0)
  {
    hide Block, UpToDate;
    var a, b := SourceCandidate(title, url, at, "2006-01-02", text), SourceCandidate(title, url, at, "2006-01-03", text);
    FirstDateShows(excerpt, a, b, 9);
    FirstDateShows(excerpt, b, a, 9);
  }

  /** The text before the first date. */
  function UpToDate(title: string, url: string): string {
    Decimal.Print(1) + ". Title: " + TrimSpace(title) + "\n   URL: " + TrimSpace(url) + "\n   Published: "
  }

  lemma FirstDateShows(excerpt: string -> string, a: SourceCandidate, b: SourceCandidate, i: nat)
    requires KeyOf(a) == KeyOf(b) && a.published != 0 && i < |a.date| && a.date[i] != '\n'
    ensures var text, p := Block(Prints(excerpt), [a, b], 0), |UpToDate(a.title, a.url)| + i;
            p < |text| && text[p] == a.date[i]
  {
    hide Block, Line, UpToDate, TrimSpace;
    var x := ToEntry(Prints(excerpt), a);
    var rest := TiedBlock(excerpt, a, b);
    LineShowsDate(x, a.title, i);
    NewlinesAtEnd(Line(1, x) + rest, |UpToDate(a.title, a.url)| + i);
  }

  /** Two candidates with one key are rendered in the order they came in. */
  lemma TiedBlock(excerpt: string -> string, a: SourceCandidate, b: SourceCandidate) returns (rest: string)
    requires KeyOf(a) == KeyOf(b)
    ensures Block(Prints(excerpt), [a, b], 0) == DropNewlines(Line(1, ToEntry(Prints(excerpt), a)) + rest)
  {
    hide StableSort, Line, Print, DropNewlines;
    TieKept(a, b);
    var x, y := ToEntry(Prints(excerpt), a), ToEntry(Prints(excerpt), b);
    assert ToEntries(Prints(excerpt), [a, b]) == [x, y];
    assert [x, y][..1] == [x] && [x][..0] == [];
    assert Lines([x]) == Line(1, x);
    rest := "\n" + Line(2, y);
    assert Lines([x, y]) == Lines([x]) + "\n" + Line(2, y) == Line(1, x) + rest;
  }

  lemma LineShowsDate(e: Entry, title: string, i: nat)
    requires e.text.title == TrimSpace(title) && i < |e.text.date|
    ensures var p := |UpToDate(title, e.key.url)| + i; p < |Line(1, e)| && Line(1, e)[p] == e.text.date[i]
  {
    hide TrimSpace, Decimal.Print;
    assert Line(1, e) == UpToDate(title, e.key.url) + (e.text.date + "\n   Excerpt: " + e.text.excerpt + "\n");
  }

  /** Where the first title begins in the text. */
  const TITLE_AT := |Decimal.Print(1) + ". Title: "|

  lemma FirstTitleShows(excerpt: string -> string, a: SourceCandidate, b: SourceCandidate)
    requires KeyOf(a) == KeyOf(b) && |a.title| == 1 && !IsSpace(a.title[0])
    ensures var text := Block(Prints(excerpt), [a, b], 0); TITLE_AT < |text| && text[TITLE_AT] == a.title[0]
  {
    hide Block, Line, TrimSpace, IsSpace;
    var x := ToEntry(Prints(excerpt), a);
    var rest := TiedBlock(excerpt, a, b);
    OneLetter(a.title);
    LineShowsTitle(1, x);
    NewlinesAtEnd(Line(1, x) + rest, TITLE_AT);
  }

  /** One candidate, spelled out. */
  lemma OneCandidateText(excerpt: string -> string, c: SourceCandidate)
    requires excerpt(c.excerpt) != "" && excerpt(c.excerpt)[|excerpt(c.excerpt)| - 1] != '\n'
    ensures Block(Prints(excerpt), [c], 0) ==
            "1. Title: " + TrimSpace(c.title) + "\n   URL: " + TrimSpace(c.url)
            + "\n   Published: " + (if c.published == 0 then "(undated)" else c.date)
            + "\n   Excerpt: " + excerpt(c.excerpt)
  {
    hide TrimSpace, Line, DropNewlines;
    var e := ToEntry(Prints(excerpt), c);
    OneSorted(c);
    assert ToEntries(Prints(excerpt), [c]) == [e];
    LinesSnoc([], e);
    assert [] + [e] == [e];
    assert Lines([e]) == "" + Line(1, e) == Line(1, e);
    assert Block(Prints(excerpt), [c], 0) == DropNewlines(Line(1, e));
    var text := "1. Title: " + TrimSpace(c.title) + "\n   URL: " + TrimSpace(c.url)
                + "\n   Published: " + (if c.published == 0 then "(undated)" else c.date)
                + "\n   Excerpt: " + excerpt(c.excerpt);
    FirstLine(e);
    assert Line(1, e) == text + "\n";
    OneNewline(text);
  }

  lemma OneSorted(c: SourceCandidate)
    ensures StableSort([c]) == [c]
  {
    assert [c][1..] == [];
  }

  lemma FirstLine(e: Entry)
    ensures Line(1, e) == "1. Title: " + e.text.title + "\n   URL: " + TrimSpace(e.key.url)
                          + "\n   Published: " + e.text.date + "\n   Excerpt: " + e.text.excerpt + "\n"
  {
    hide TrimSpace;
    assert Decimal.Print(1) == "1";
    assert "1" + ". Title: " == "1. Title: ";
  }

  lemma OneNewline(text: string)
    requires text != "" && text[|text| - 1] != '\n'
    ensures DropNewlines(text + "\n") == text
  {
    assert (text + "\n")[..|text|] == text;
  }

  /** Entries follow one another, numbered from one, with an empty line between. */
  lemma LinesSnoc(es: seq<Entry>, e: Entry)
    ensures Lines(es + [e]) == (if es == [] then "" else Lines(es) + "\n") + Line(|es| + 1, e)
  {
    hide Line;
    assert (es + [e])[..|es|] == es;
  }

  lemma OneLetter(s: string)
    requires |s| == 1 && !IsSpace(s[0])
    ensures TrimSpace(s) == s && s[0] != '\n'
  {
  }

  lemma LineShowsTitle(n: nat, e: Entry)
    requires e.text.title != ""
    ensures var p := |Decimal.Print(n) + ". Title: "|;
            p < |Line(n, e)| && Line(n, e)[p] == e.text.title[0]
  {
  }

  lemma TieKept(a: SourceCandidate, b: SourceCandidate)
    requires KeyOf(a) == KeyOf(b)
    ensures StableSort([a, b]) == [a, b]
  {
    BeforeStrict(KeyOf(a), KeyOf(b));
    assert [a, b][1..] == [b] && [b][1..] == [];
    assert StableSort([b]) == [b];
  }
}

module Excerpt {
  import opened Basics
  import opened Contract

  /** Length of the run of non-space characters at the front. */
  function WordLen(s: string): (n: nat)
    ensures n <= |s|
    ensures forall i | 0 <= i < n :: !IsSpace(s[i])
    ensures n < |s| ==> IsSpace(s[n])
  {
    if s == "" || IsSpace(s[0]) then 0 else 1 + WordLen(s[1..])
  }

  predicate IsWord(w: string) {
    w != "" && forall i | 0 <= i < |w| :: !IsSpace(w[i])
  }

  /** `strings.Fields`. */
  function Words(s: string): (ws: seq<string>)
    ensures forall i | 0 <= i < |ws| :: IsWord(ws[i])
    decreases |s|
  {
    if s == "" then []
    else if IsSpace(s[0]) then Words(s[1..])
    else
      var n := WordLen(s);
      [s[..n]] + Words(s[n..])
  }

  lemma {:induction false} WordLenWord(w: string, rest: string)
    requires IsWord(w) && (rest == "" || IsSpace(rest[0]))
    ensures WordLen(w + rest) == |w|
  {
    var s := w + rest;
    if |w| == 1 {
      assert s[1..] == rest;
    } else {
      assert s[1..] == w[1..] + rest;
      assert forall i | 0 <= i < |w[1..]| :: w[1..][i] == w[i + 1];
      WordLenWord(w[1..], rest);
    }
  }

  /** Splitting at a space splits the words. */
  lemma {:induction false} WordsSplit(a: string, c: char, b: string)
    requires IsSpace(c)
    ensures Words(a + [c] + b) == Words(a) + Words(b)
    decreases |a|
  {
    hide IsSpace;
    var s := a + [c] + b;
    if a == "" {
      assert s[0] == c && s[1..] == b;
    } else if IsSpace(a[0]) {
      assert s[1..] == a[1..] + [c] + b;
      WordsSplit(a[1..], c, b);
    } else {
      var n := WordLen(a);
      assert IsWord(a[..n]);
      assert s == a[..n] + (a[n..] + [c] + b);
      WordLenWord(a[..n], a[n..] + [c] + b);
      assert s[..n] == a[..n] && s[n..] == a[n..] + [c] + b;
      WordsSplit(a[n..], c, b);
      assert Words(s) == [a[..n]] + Words(s[n..]) && Words(a) == [a[..n]] + Words(a[n..]);
    }
  }

  lemma WordsOfWord(w: string)
    requires IsWord(w)
    ensures Words(w) == [w]
  {
    hide IsSpace;
    WordLenWord(w, "");
    assert w + "" == w && w[..|w|] == w && w[|w|..] == "";
  }

  /** Words joined by single spaces are found again, all of them and in order. */
  lemma {:induction false} WordsOfJoin(ws: seq<string>)
    requires forall i | 0 <= i < |ws| :: IsWord(ws[i])
    ensures Words(Join(ws)) == ws
  {
    hide IsSpace, IsWord;
    if |ws| == 1 {
      WordsOfWord(ws[0]);
    } else if |ws| > 1 {
      var init, w := ws[..|ws| - 1], ws[|ws| - 1];
      WordsOfJoin(init);
      WordsOfWord(w);
      BlankIsSpace();
      WordsSplit(Join(init), ' ', w);
      assert Join(ws) == Join(init) + [' '] + w && ws == init + [w];
    }
  }

  lemma BlankIsSpace()
    ensures IsSpace(' ')
  {
  }

  /** One blank between words, and nothing else. */
  lemma JoinSnoc(ws: seq<string>, w: string)
    ensures Join(ws + [w]) == if ws == [] then w else Join(ws) + " " + w
  {
    assert (ws + [w])[..|ws|] == ws;
  }

  /** `strings.Join(words, " ")`. */
  function Join(ws: seq<string>): string {
    if ws == [] then "" else if |ws| == 1 then ws[0] else Join(ws[..|ws| - 1]) + " " + ws[|ws| - 1]
  }

  /** How many words an excerpt of at most `max` characters keeps: the most that fit, but never none. */
  ghost predicate Keeps(ws: seq<string>, max: int, k: nat) {
    && k <= |ws| && (ws != [] ==> k > 0)
    && (|Join(ws[..k])| <= max || k == 1)
    && (k < |ws| ==> |Join(ws[..k + 1])| > max)
  }

  lemma {:induction false} JoinGrows(ws: seq<string>, i: nat, j: nat)
    requires 0 < i < j <= |ws|
    ensures |Join(ws[..i])| < |Join(ws[..j])| && Join(ws[..i]) + " " <= Join(ws[..j])
    decreases j
  {
    assert ws[..j][..j - 1] == ws[..j - 1];
    if i < j - 1 { JoinGrows(ws, i, j - 1); }
  }

  /** At most one number of words qualifies. */
  lemma KeepsUnique(ws: seq<string>, max: int, j: nat, k: nat)
    requires Keeps(ws, max, j) && Keeps(ws, max, k)
    ensures j == k
  {
    if j < k { KeepsFits(ws, max, j, k); } else if k < j { KeepsFits(ws, max, k, j); }
  }

  lemma KeepsFits(ws: seq<string>, max: int, j: nat, k: nat)
    requires Keeps(ws, max, j) && j < k <= |ws|
    ensures !Keeps(ws, max, k)
  {
    if j + 1 < k { JoinGrows(ws, j + 1, k); }
  }

  /** Spaces of the joined text are exactly the ends of its proper word prefixes. */
  lemma {:induction false} SpacesAreEnds(ws: seq<string>, p: nat)
    requires forall i | 0 <= i < |ws| :: IsWord(ws[i])
    requires p < |Join(ws)|
    ensures IsSpace(Join(ws)[p]) <==> exists k | 0 < k < |ws| :: p == |Join(ws[..k])|
  {
    if |ws| > 1 {
      var init, last := ws[..|ws| - 1], ws[|ws| - 1];
      var n := |Join(init)|;
      forall k | 0 < k < |ws| ensures ws[..k] == if k < |ws| - 1 then init[..k] else init {}
      if p < n {
        SpacesAreEnds(init, p);
      } else if p > n {
        assert Join(ws)[p] == last[p - n - 1];
        forall k | 0 < k < |ws| - 1 ensures |Join(ws[..k])| < n { JoinGrows(init, k, |init|); assert init[..|init|] == init; }
      } else {
        assert ws[..|ws| - 1] == init;
      }
    } else if |ws| == 1 {
      assert Join(ws) == ws[0];
    }
  }

  lemma {:induction false} JoinPrefix(ws: seq<string>, k: nat)
    requires 0 < k <= |ws|
    ensures Join(ws[..k]) <= Join(ws)
  {
    assert ws[..|ws|] == ws;
    if k < |ws| { JoinGrows(ws, k, |ws|); }
  }

  lemma {:induction false} JoinEndsInWord(ws: seq<string>)
    requires ws != [] && forall i | 0 <= i < |ws| :: IsWord(ws[i])
    ensures var j := Join(ws); j != "" && !IsSpace(j[|j| - 1])
  {
  }

  /** Cutting at the end of `k` words keeps exactly those words. */
  lemma CutAtWord(ws: seq<string>, k: nat)
    requires 0 < k <= |ws| && forall i | 0 <= i < |ws| :: IsWord(ws[i])
    ensures var end := |Join(ws[..k])|;
            end <= |Join(ws)| && TrimRight(Join(ws)[..end]) == Join(ws[..k])
            && (end < |Join(ws)| <==> k < |ws|)
  {
    JoinPrefix(ws, k);
    JoinEndsInWord(ws[..k]);
    assert ws[..|ws|] == ws;
    if k < |ws| { JoinGrows(ws, k, |ws|); }
  }

  /** Nothing up to `max` but the last space found: that space ends the most words that fit. */
  lemma LastSpace(ws: seq<string>, max: nat, end: nat) returns (k: nat)
    requires forall i | 0 <= i < |ws| :: IsWord(ws[i])
    requires 0 < end <= max < |Join(ws)| && IsSpace(Join(ws)[end])
    requires forall p | end < p <= max :: !IsSpace(Join(ws)[p])
    ensures 0 < k < |ws| && end == |Join(ws[..k])| && Keeps(ws, max, k)
  {
    SpacesAreEnds(ws, end);
    k :| 0 < k < |ws| && end == |Join(ws[..k])|;
    JoinGrows(ws, k, k + 1);
    var next := |Join(ws[..k + 1])|;
    if next <= max {
      if k + 1 < |ws| {
        SpacesAreEnds(ws, next);
      } else {
        assert ws[..k + 1] == ws;
      }
    }
  }

  /** No space up to `max`: the first word alone is longer, and the next space, if any, ends it. */
  lemma LongFirstWord(ws: seq<string>, max: nat, end: nat)
    requires forall i | 0 <= i < |ws| :: IsWord(ws[i])
    requires 0 < max <= end <= |Join(ws)| && max < |Join(ws)|
    requires forall p | 0 < p < end :: !IsSpace(Join(ws)[p])
    requires !IsSpace(Join(ws)[max])
    requires end < |Join(ws)| ==> IsSpace(Join(ws)[end])
    ensures ws != [] && end == |Join(ws[..1])| && Keeps(ws, max, 1)
  {
    assert ws[..1] == [ws[0]];
    JoinPrefix(ws, 1);
    if |ws| > 1 {
      var first := |ws[0]|;
      JoinGrows(ws, 1, |ws|);
      assert ws[..|ws|] == ws;
      SpacesAreEnds(ws, first);
      JoinGrows(ws, 1, 2);
      if end < |Join(ws)| {
        SpacesAreEnds(ws, end);
        var k :| 0 < k < |ws| && end == |Join(ws[..k])|;
        if k > 1 { JoinGrows(ws, 1, k); }
      }
    }
  }

  /**
   * `ExcerptOf`: a prefix of the words left when the markup is stripped, the most that fit in `max` characters
   * or the first word alone, then an ellipsis exactly when words were dropped.
   */
  method ExcerptOf(r: Rules, s: string, max: int) returns (out: string, ghost kept: nat)
    ensures max <= 0 ==> out == ""
    ensures max > 0 ==>
              var ws := Words(PlainText(r, s));
              && Keeps(ws, max, kept)
              && out == Join(ws[..kept]) + if kept < |ws| then "…" else ""
  {
    var ws := Words(PlainText(r, s));
    var clean := Join(ws);
    kept := |ws|;
    if max <= 0 { return "", 0; }
    assert ws[..|ws|] == ws;
    if |clean| <= max { return clean, |ws|; }
    var end := max;
    while end > 0 && !IsSpace(clean[end])
      invariant 0 <= end <= max
      invariant forall p | end < p <= max :: !IsSpace(clean[p])
    {
      end := end - 1;
    }
    if end == 0 {
      end := max;
      while end < |clean| && !IsSpace(clean[end])
        invariant max <= end <= |clean|
        invariant forall p | 0 < p < end :: !IsSpace(clean[p])
      {
        end := end + 1;
      }
      LongFirstWord(ws, max, end);
      kept := 1;
    } else {
      kept := LastSpace(ws, max, end);
    }
    CutAtWord(ws, kept);
    var truncated := end < |clean|;
    out := TrimRight(clean[..end]);
    if truncated { out := out + "…"; }
  }
}
