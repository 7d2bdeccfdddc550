/**
 * A feed's timestamps over its whole life: every generation run stamps its items from the
 * newest row it reads and its own clock, items may be soft-deleted in between, and no row is
 * ever removed. Proved for the true newest row under any clock, and exactly for the newest row
 * as the store really finds it (the maximum of the timestamp TEXT); then for histories of the
 * pipeline's own runs, also where others place and move rows.
 */
module FeedClock {
  import opened Basics
  import opened Order
  import opened StoredTime
  import opened World
  import opened Contract
  import opened History
  import opened Pipeline
  import Ledger
  import Published

  datatype Row = Row(at: Instant, deleted: bool)

  datatype FeedStep = Publish(now: Instant, count: nat) | Retract(index: nat)

  /** The timestamps one run gives its items. */
  function StampTimes(newest: Instant, now: Instant, count: nat): seq<Instant> {
    seq(count, i requires 0 <= i < count => Base(newest, now) + i * SECOND)
  }

  function Live(times: seq<Instant>): seq<Row> {
    seq(|times|, i requires 0 <= i < |times| => Row(times[i], false))
  }

  /** The greatest timestamp, deleted rows included; the zero time when there are none. */
  function TrueNewest(rows: seq<Row>): Instant {
    if rows == [] then 0
    else if |rows| == 1 then rows[0].at
    else
      var rest := TrueNewest(rows[..|rows| - 1]);
      if rest < rows[|rows| - 1].at then rows[|rows| - 1].at else rest
  }

  /** `SELECT MAX(published_at)`: the row whose text is greatest. */
  function TextNewest(rows: seq<Row>): Instant
    requires forall r | r in rows :: r.at >= 0
    ensures rows != [] ==> exists r | r in rows :: r.at == TextNewest(rows)
  {
    if rows == [] then 0
    else if |rows| == 1 then (assert rows[0] in rows; rows[0].at)
    else
      var last := rows[|rows| - 1];
      assert last in rows && forall r | r in rows[..|rows| - 1] :: r in rows;
      var rest := TextNewest(rows[..|rows| - 1]);
      if Less(Text(rest), Text(last.at)) then last.at else rest
  }

  function Apply(rows: seq<Row>, step: FeedStep, newest: Instant): seq<Row> {
    match step
    case Publish(now, count) => rows + Live(StampTimes(newest, now, count))
    case Retract(i) => if i < |rows| then rows[i := rows[i].(deleted := true)] else rows
  }

  ghost predicate Increasing(rows: seq<Row>) {
    forall i, j | 0 <= i < j < |rows| :: rows[i].at < rows[j].at
  }

  ghost predicate Positive(rows: seq<Row>) {
    forall i | 0 <= i < |rows| :: rows[i].at > 0
  }

  // ----- One run -----

  /** Items of one run fall in consecutive whole seconds. */
  lemma DistinctSeconds(newest: Instant, now: Instant, count: nat, i: nat)
    requires i < count
    ensures StampTimes(newest, now, count)[i] / SECOND == Base(newest, now) / SECOND + i
  {
  }

  /** The anchor is past the newest row, exactly unless that row holds the zero time and the clock is not past it. */
  lemma AnchorPastNewest(newest: Instant, now: Instant)
    ensures Base(newest, now) > newest <==> newest != 0 || now > 0
  {
  }

  lemma {:induction false} NewestIsLast(rows: seq<Row>)
    requires rows != [] && Increasing(rows)
    ensures TrueNewest(rows) == rows[|rows| - 1].at
  {
    if |rows| > 1 { NewestIsLast(rows[..|rows| - 1]); }
  }

  /** Appending stamps whose anchor lies past every row keeps the rows increasing. */
  lemma AppendKeepsOrder(rows: seq<Row>, newest: Instant, now: Instant, count: nat)
    requires Increasing(rows) && Positive(rows) && Base(newest, now) > 0
    requires rows != [] ==> Base(newest, now) > rows[|rows| - 1].at
    ensures var out := rows + Live(StampTimes(newest, now, count));
            Increasing(out) && Positive(out)
  {
  }

  // ----- The true newest row, any clock -----

  /** The feed's rows after a history, when every run reads the true newest row. */
  function Replay(steps: seq<FeedStep>): seq<Row> {
    if steps == [] then []
    else
      var rows := Replay(steps[..|steps| - 1]);
      Apply(rows, steps[|steps| - 1], TrueNewest(rows))
  }

  /**
   * Over any history of runs, with clock readings in any order (only after the zero time), and any soft
   * deletes, all timestamps ever given to the feed are distinct and strictly increasing in commit order.
   */
  lemma {:induction false} LifetimeIncreasing(steps: seq<FeedStep>)
    requires forall s | s in steps :: s.Publish? ==> s.now > 0
    ensures Increasing(Replay(steps)) && Positive(Replay(steps))
  {
    hide Increasing, Positive, Apply, TrueNewest;
    if steps == [] {
      NoRowsInOrder();
    } else {
      var before, last := steps[..|steps| - 1], steps[|steps| - 1];
      assert last in steps && forall s | s in before :: s in steps;
      LifetimeIncreasing(before);
      StepKeepsOrder(Replay(before), last);
    }
  }

  lemma NoRowsInOrder()
    ensures Increasing([]) && Positive([])
  {
  }

  lemma StepKeepsOrder(rows: seq<Row>, s: FeedStep)
    requires Increasing(rows) && Positive(rows) && (s.Publish? ==> s.now > 0)
    ensures var out := Apply(rows, s, TrueNewest(rows)); Increasing(out) && Positive(out)
  {
    hide Increasing, Positive, TrueNewest;
    if s.Publish? {
      AnchorPastTrueNewest(rows, s.now);
      AppendKeepsOrder(rows, TrueNewest(rows), s.now, s.count);
    } else if s.index < |rows| {
      RetractKeepsOrder(rows, s.index);
    }
  }

  lemma AnchorPastTrueNewest(rows: seq<Row>, now: Instant)
    requires Increasing(rows) && Positive(rows) && now > 0
    ensures Base(TrueNewest(rows), now) > 0
    ensures rows != [] ==> Base(TrueNewest(rows), now) > rows[|rows| - 1].at
  {
    if rows != [] { NewestIsLast(rows); }
  }

  lemma RetractKeepsOrder(rows: seq<Row>, i: nat)
    requires Increasing(rows) && Positive(rows) && i < |rows|
    ensures var out := rows[i := rows[i].(deleted := true)]; Increasing(out) && Positive(out)
  {
    var out := rows[i := rows[i].(deleted := true)];
    assert forall k | 0 <= k < |out| :: out[k].at == rows[k].at;
  }

  // ----- The newest row by text -----

  ghost predicate AllInRange(rows: seq<Row>) {
    forall r | r in rows :: r.at >= 0 && InRange(r.at)
  }

  lemma {:induction false} TextNewestSecond(rows: seq<Row>, r: Row)
    requires AllInRange(rows) && r in rows
    ensures TextNewest(rows) / SECOND >= r.at / SECOND
  {
    hide Text, Less, InRange;
    if |rows| > 1 {
      var init, last := rows[..|rows| - 1], rows[|rows| - 1];
      assert last in rows && forall x | x in init :: x in rows;
      if r in init { TextNewestSecond(init, r); }
      var rest := TextNewest(init);
      var m :| m in init && m.at == rest;
      if rest / SECOND < last.at / SECOND {
        LaterSecond(rest, last.at);
      } else if last.at / SECOND < rest / SECOND {
        LaterSecond(last.at, rest);
        LessAsymmetric(Text(last.at), Text(rest));
      }
    }
  }

  lemma LaterSecond(a: Instant, b: Instant)
    requires a >= 0 && b >= 0 && InRange(b) && a / SECOND < b / SECOND
    ensures Less(Text(a), Text(b))
  {
    hide Text, Less, InRange;
    TextOrder(a, b);
  }

  /** The true newest instant is a row's, and no row is past it. */
  lemma {:induction false} TrueNewestIsMax(rows: seq<Row>)
    requires rows != []
    ensures (exists r | r in rows :: r.at == TrueNewest(rows)) && forall r | r in rows :: r.at <= TrueNewest(rows)
  {
    var init, last := rows[..|rows| - 1], rows[|rows| - 1];
    assert rows == init + [last] && last in rows;
    if |rows| > 1 {
      TrueNewestIsMax(init);
      var r :| r in init && r.at == TrueNewest(init);
      assert r in rows;
    }
  }

  /** The text maximum is a row, and it lies in the same second as the true newest row, whatever the order of rows. */
  lemma TextNewestNear(rows: seq<Row>)
    requires rows != [] && AllInRange(rows)
    ensures var m, t := TextNewest(rows), TrueNewest(rows);
            m <= t && m / SECOND == t / SECOND && exists r | r in rows :: r.at == m
  {
    hide InRange, TextNewest, TrueNewest;
    TrueNewestIsMax(rows);
    var newest :| newest in rows && newest.at == TrueNewest(rows);
    TextNewestSecond(rows, newest);
    var found := RowFound(rows);
  }

  lemma RowFound(rows: seq<Row>) returns (r: Row)
    requires rows != [] && forall x | x in rows :: x.at >= 0
    ensures r in rows && r.at == TextNewest(rows)
  {
    var found := TextNewest(rows);
    r :| r in rows && r.at == found;
  }

  /**
   * One run that reads the text maximum, over rows in any order: its first stamp is past every row exactly unless
   * its clock reading falls after the text maximum and not after the true newest row.
   */
  lemma TextAnchorExact(rows: seq<Row>, now: Instant)
    requires rows != [] && AllInRange(rows) && Positive(rows)
    ensures var m, t := TextNewest(rows), TrueNewest(rows);
            Base(m, now) > t <==> !(m < now <= t)
  {
    hide InRange, TextNewest, TrueNewest;
    TextNewestNear(rows);
  }

  /** The newest row is the only one in its second. */
  ghost predicate Alone(rows: seq<Row>) {
    rows != [] && forall i | 0 <= i < |rows| - 1 :: rows[i].at / SECOND < rows[|rows| - 1].at / SECOND
  }

  lemma AloneIsFound(rows: seq<Row>)
    requires rows != [] && AllInRange(rows) && Increasing(rows) && Alone(rows)
    ensures TextNewest(rows) == rows[|rows| - 1].at
  {
    hide InRange, TextNewest;
    TextNewestNear(rows);
    NewestIsLast(rows);
    var r :| r in rows && r.at == TextNewest(rows);
    var i :| 0 <= i < |rows| && rows[i] == r;
  }

  /** After the stamps: the new newest row is either the reading itself or alone in its second. */
  lemma AppendLeavesAlone(rows: seq<Row>, newest: Instant, now: Instant, count: nat)
    requires Increasing(rows) && count > 0
    requires rows != [] ==> Base(newest, now) > rows[|rows| - 1].at
    requires Base(newest, now) == now || (rows != [] && Base(newest, now) == rows[|rows| - 1].at + SECOND)
    ensures var out := rows + Live(StampTimes(newest, now, count));
            out[|out| - 1].at <= now || Alone(out)
  {
    var out, base := rows + Live(StampTimes(newest, now, count)), Base(newest, now);
    var t := base + (count - 1) * SECOND;
    assert out[|out| - 1].at == t;
    if t > now {
      forall i | 0 <= i < |out| - 1 ensures out[i].at / SECOND < t / SECOND {
        assert out[i].at <= t - SECOND;
      }
    }
  }

  /** The feed's rows after a history, when every run reads the maximum of the stored text. */
  function ReplayText(steps: seq<FeedStep>): seq<Row> {
    if steps == [] then []
    else
      var rows := ReplayText(steps[..|steps| - 1]);
      if forall r | r in rows :: r.at >= 0 then Apply(rows, steps[|steps| - 1], TextNewest(rows)) else rows
  }

  /** Clock readings of successive runs, each later than all before it. */
  ghost predicate Forward(steps: seq<FeedStep>) {
    && (forall i | 0 <= i < |steps| :: steps[i].Publish? ==> steps[i].now > 0)
    && (forall i, j | 0 <= i < j < |steps| :: steps[i].Publish? && steps[j].Publish? ==> steps[i].now < steps[j].now)
  }

  /** The latest reading among runs that published something. */
  ghost predicate Behind(steps: seq<FeedStep>, t: Instant) {
    exists i | 0 <= i < |steps| :: steps[i].Publish? && t <= steps[i].now
  }

  ghost predicate Healthy(steps: seq<FeedStep>, rows: seq<Row>) {
    Increasing(rows) && Positive(rows) && (rows != [] ==> Behind(steps, rows[|rows| - 1].at) || Alone(rows))
  }

  /** A forward clock anchors a run past every row: at its own reading, or a second past the newest row. */
  lemma ForwardAnchor(steps: seq<FeedStep>, rows: seq<Row>, s: FeedStep)
    requires s.Publish? && Forward(steps + [s]) && Healthy(steps, rows) && AllInRange(rows)
    ensures var base := Base(TextNewest(rows), s.now);
            && base > 0
            && (rows != [] ==> base > rows[|rows| - 1].at)
            && (base == s.now || (rows != [] && base == rows[|rows| - 1].at + SECOND))
  {
    hide InRange, TextNewest, TrueNewest, Behind, Alone, Increasing;
    assert (steps + [s])[|steps|] == s;
    if rows == [] {
      EmptyTextNewest(rows);
    } else {
      var t := rows[|rows| - 1].at;
      TextNewestNear(rows);
      NewestIsLast(rows);
      if s.now <= t {
        NotBehind(steps, s, t);
        AloneIsFound(rows);
      }
    }
  }

  lemma PublishStaysHealthy(steps: seq<FeedStep>, rows: seq<Row>, s: FeedStep)
    requires s.Publish? && Forward(steps + [s]) && Healthy(steps, rows) && AllInRange(rows)
    ensures Healthy(steps + [s], Apply(rows, s, TextNewest(rows)))
  {
    hide InRange, TextNewest, Behind, Alone, Increasing, Positive, Forward, StampTimes;
    var m := TextNewest(rows);
    ForwardAnchor(steps, rows, s);
    AppendKeepsOrder(rows, m, s.now, s.count);
    if s.count > 0 {
      AppendLeavesAlone(rows, m, s.now, s.count);
      BehindSelf(steps, s);
    } else {
      NoStamps(rows, m, s.now);
      if rows != [] && Behind(steps, rows[|rows| - 1].at) { BehindGrows(steps, s, rows[|rows| - 1].at); }
    }
  }

  lemma NoStamps(rows: seq<Row>, newest: Instant, now: Instant)
    ensures rows + Live(StampTimes(newest, now, 0)) == rows
  {
  }

  lemma BehindSelf(steps: seq<FeedStep>, s: FeedStep)
    requires s.Publish?
    ensures forall t: Instant | t <= s.now :: Behind(steps + [s], t)
  {
    assert (steps + [s])[|steps|] == s;
  }

  lemma NotBehind(steps: seq<FeedStep>, s: FeedStep, t: Instant)
    requires s.Publish? && Forward(steps + [s]) && s.now <= t
    ensures !Behind(steps, t)
  {
    var all := steps + [s];
    forall i | 0 <= i < |steps| && steps[i].Publish? ensures steps[i].now < t {
      assert all[i] == steps[i] && all[|steps|] == s;
    }
  }

  lemma BehindGrows(steps: seq<FeedStep>, s: FeedStep, t: Instant)
    requires Behind(steps, t)
    ensures Behind(steps + [s], t)
  {
    var i :| 0 <= i < |steps| && steps[i].Publish? && t <= steps[i].now;
    assert (steps + [s])[i] == steps[i];
  }

  lemma EmptyTextNewest(rows: seq<Row>)
    requires rows == []
    ensures TextNewest(rows) == 0
  {
  }

  lemma RetractStaysHealthy(steps: seq<FeedStep>, rows: seq<Row>, s: FeedStep, newest: Instant)
    requires s.Retract? && Healthy(steps, rows)
    ensures Healthy(steps + [s], Apply(rows, s, newest))
  {
    if rows != [] && Behind(steps, rows[|rows| - 1].at) { BehindGrows(steps, s, rows[|rows| - 1].at); }
  }

  lemma {:induction false} RowsOnlyGrow(steps: seq<FeedStep>)
    requires steps != [] && AllInRange(ReplayText(steps))
    ensures AllInRange(ReplayText(steps[..|steps| - 1]))
  {
    hide InRange, TextNewest, StampTimes;
    var rows, out := ReplayText(steps[..|steps| - 1]), ReplayText(steps);
    forall r | r in rows ensures r.at >= 0 && InRange(r.at) {
      var i :| 0 <= i < |rows| && rows[i] == r;
      assert out[i] in out && out[i].at == r.at;
    }
  }

  /**
   * With the newest row found by text, as the store finds it, the same holds of every history whose clock
   * readings move forward, as long as all timestamps have four-digit years.
   */
  lemma {:induction false} LifetimeIncreasingByText(steps: seq<FeedStep>)
    requires Forward(steps) && AllInRange(ReplayText(steps))
    ensures Healthy(steps, ReplayText(steps))
  {
    hide InRange, TextNewest, Healthy, Apply;
    if steps == [] {
      NoStepsHealthy();
    } else {
      var before, last := steps[..|steps| - 1], steps[|steps| - 1];
      assert steps == before + [last];
      RowsOnlyGrow(steps);
      LifetimeIncreasingByText(before);
      var rows := ReplayText(before);
      if last.Publish? {
        PublishStaysHealthy(before, rows, last);
      } else {
        RetractStaysHealthy(before, rows, last, TextNewest(rows));
      }
    }
  }

  lemma NoStepsHealthy()
    ensures Healthy([], [])
  {
  }

  // ----- The text maximum, any clock: exactly when -----

  /** No publishing run read its clock after the text maximum of the rows before it and not after the newest of them. */
  ghost predicate NoGap(steps: seq<FeedStep>) {
    steps == [] ||
    (NoGap(steps[..|steps| - 1]) &&
     !Gap(ReplayText(steps[..|steps| - 1]), steps[|steps| - 1]))
  }

  ghost predicate Gap(rows: seq<Row>, s: FeedStep) {
    s.Publish? && s.count > 0 && (forall r | r in rows :: r.at >= 0) && TextNewest(rows) < s.now <= TrueNewest(rows)
  }

  lemma {:induction false} ReplayPositive(steps: seq<FeedStep>)
    requires forall s | s in steps :: s.Publish? ==> s.now > 0
    ensures Positive(ReplayText(steps))
  {
    hide TextNewest, Positive, Apply;
    if steps == [] {
      NoRowsInOrder();
    } else {
      var before, last := steps[..|steps| - 1], steps[|steps| - 1];
      assert last in steps && forall s | s in before :: s in steps;
      ReplayPositive(before);
      PositiveKept(ReplayText(before), last);
    }
  }

  lemma PositiveKept(rows: seq<Row>, s: FeedStep)
    requires Positive(rows) && (s.Publish? ==> s.now > 0)
    ensures (forall r | r in rows :: r.at >= 0) && Positive(Apply(rows, s, TextNewest(rows)))
  {
    hide TextNewest;
    var found := TextNewest(rows);
    if rows != [] { FoundPositive(rows); } else { EmptyTextNewest(rows); }
    if s.Publish? {
      var out := Apply(rows, s, found);
      forall i | 0 <= i < |out| ensures out[i].at > 0 {
        if i >= |rows| { assert out[i].at == Base(found, s.now) + (i - |rows|) * SECOND; }
      }
    }
  }

  lemma FoundPositive(rows: seq<Row>)
    requires Positive(rows) && rows != []
    ensures TextNewest(rows) > 0
  {
    hide TextNewest;
    var r := RowFound(rows);
  }

  /** Increasing rows stay so exactly when the step is no gap; disordered rows stay disordered. */
  lemma StepOrderIff(rows: seq<Row>, s: FeedStep)
    requires AllInRange(rows) && Positive(rows) && (s.Publish? ==> s.now > 0)
    ensures Increasing(Apply(rows, s, TextNewest(rows))) <==> Increasing(rows) && !Gap(rows, s)
  {
    hide InRange, TextNewest, TrueNewest, Increasing, Positive, StampTimes;
    match s
    case Retract(i) =>
      if i < |rows| { RetractSameOrder(rows, i); }
    case Publish(now, count) =>
      var found := TextNewest(rows);
      if count == 0 {
        NoStamps(rows, found, now);
      } else {
        AnchorIff(rows, now);
        AppendOrderIff(rows, found, now, count);
      }
  }

  lemma RetractSameOrder(rows: seq<Row>, i: nat)
    requires i < |rows|
    ensures Increasing(rows[i := rows[i].(deleted := true)]) <==> Increasing(rows)
  {
    var out := rows[i := rows[i].(deleted := true)];
    assert forall k | 0 <= k < |out| :: out[k].at == rows[k].at;
    if Increasing(rows) {
      forall x, y | 0 <= x < y < |out| ensures out[x].at < out[y].at { assert rows[x].at < rows[y].at; }
    }
    if Increasing(out) {
      forall x, y | 0 <= x < y < |rows| ensures rows[x].at < rows[y].at { assert out[x].at < out[y].at; }
    }
  }

  lemma AnchorIff(rows: seq<Row>, now: Instant)
    requires AllInRange(rows) && Positive(rows) && now > 0
    ensures var m, t := TextNewest(rows), TrueNewest(rows);
            && Base(m, now) > 0
            && (Base(m, now) > t <==> !(m < now <= t))
  {
    hide InRange, TextNewest;
    if rows == [] {
      EmptyTextNewest(rows);
    } else {
      FoundPositive(rows);
      TextAnchorExact(rows, now);
    }
  }

  lemma AppendOrderIff(rows: seq<Row>, newest: Instant, now: Instant, count: nat)
    requires count > 0 && Positive(rows) && Base(newest, now) > 0
    ensures Increasing(rows + Live(StampTimes(newest, now, count))) <==>
            Increasing(rows) && Base(newest, now) > TrueNewest(rows)
  {
    hide Positive, TrueNewest, Base;
    var times := StampTimes(newest, now, count);
    var out := rows + Live(times);
    assert out[|rows|].at == times[0] == Base(newest, now) + 0 * SECOND;
    if Increasing(out) {
      PrefixInOrder(rows, Live(times));
      if rows == [] {
        NoNewest(rows);
      } else {
        NewestIsLast(rows);
        assert out[|rows| - 1].at < out[|rows|].at;
      }
    }
    if Increasing(rows) && Base(newest, now) > TrueNewest(rows) {
      if rows != [] { NewestIsLast(rows); }
      AppendKeepsOrder(rows, newest, now, count);
    }
  }

  lemma NoNewest(rows: seq<Row>)
    requires rows == []
    ensures TrueNewest(rows) == 0
  {
  }

  lemma PrefixInOrder(rows: seq<Row>, more: seq<Row>)
    requires Increasing(rows + more)
    ensures Increasing(rows)
  {
    var out := rows + more;
    forall x, y | 0 <= x < y < |rows| ensures rows[x].at < rows[y].at { assert out[x].at < out[y].at; }
  }

  /**
   * With the newest row found by text and clocks in any order: the feed's timestamps increase in commit order if and
   * only if no publishing run's reading fell between the text maximum and the true newest row.
   */
  lemma {:induction false} LifetimeByTextIff(steps: seq<FeedStep>)
    requires (forall s | s in steps :: s.Publish? ==> s.now > 0) && AllInRange(ReplayText(steps))
    ensures Increasing(ReplayText(steps)) <==> NoGap(steps)
  {
    hide InRange, TextNewest, Increasing, Positive, Apply, Gap, AllInRange;
    if steps == [] {
      NoRowsInOrder();
    } else {
      var before, last := steps[..|steps| - 1], steps[|steps| - 1];
      assert last in steps && (forall s | s in before :: s in steps) && steps == before + [last];
      RowsOnlyGrow(steps);
      ReplayPositive(before);
      LifetimeByTextIff(before);
      var rows := ReplayText(before);
      NotBeforeZero(rows);
      StepOrderIff(rows, last);
    }
  }

  lemma NotBeforeZero(rows: seq<Row>)
    requires Positive(rows)
    ensures forall r | r in rows :: r.at >= 0
  {
  }

  /**
   * A clock that steps back inside a second breaks the order: two runs publish at the start and in the middle of
   * any second, and a third, read in between, lands before the second.
   */
  lemma BackwardClockBreaksOrder(t: Instant)
    requires t > 0 && t % SECOND == 0 && InRange(t + SECOND)
    ensures var early, late, back := Publish(t, 1), Publish(t + SECOND / 2, 1), Publish(t + SECOND / 4, 1);
            && Increasing(ReplayText([early, late])) && !Increasing(ReplayText([early, late, back]))
  {
    hide Text, Less, InRange, TextNewest, Apply, ReplayText, Increasing;
    var early, late, back := Publish(t, 1), Publish(t + SECOND / 2, 1), Publish(t + SECOND / 4, 1);
    var a, b, c := Row(t, false), Row(t + SECOND / 2, false), Row(t + SECOND / 4, false);
    TextNewestSmall(a, b);
    NothingReplayed();
    Replayed([], early, []);
    OneStamp([], 0, t);
    assert [] + [early] == [early] && [] + [a] == [a];
    Replayed([early], late, [a]);
    OneStamp([a], t, late.now);
    assert [early] + [late] == [early, late] && [a] + [b] == [a, b];
    Replayed([early, late], back, [a, b]);
    OneStamp([a, b], t, back.now);
    assert [early, late] + [back] == [early, late, back];
    Disordered(a, b, c);
  }

  lemma NothingReplayed()
    ensures ReplayText([]) == []
  {
  }

  lemma Disordered(a: Row, b: Row, c: Row)
    requires a.at < b.at && c.at < b.at
    ensures Increasing([a, b]) && !Increasing([a, b] + [c])
  {
    var out := [a, b] + [c];
    assert out[1] == b && out[2] == c;
  }

  lemma Replayed(steps: seq<FeedStep>, s: FeedStep, rows: seq<Row>)
    requires ReplayText(steps) == rows && forall r | r in rows :: r.at >= 0
    ensures ReplayText(steps + [s]) == Apply(rows, s, TextNewest(rows))
  {
    hide Apply, TextNewest;
    assert (steps + [s])[..|steps|] == steps;
  }

  lemma OneStamp(rows: seq<Row>, newest: Instant, now: Instant)
    requires now > 0 && (newest != 0 ==> now > newest)
    ensures Apply(rows, Publish(now, 1), newest) == rows + [Row(now, false)]
  {
    var times := StampTimes(newest, now, 1);
    assert times[0] == Base(newest, now) + 0 * SECOND;
    assert times == [now] && Live([now]) == [Row(now, false)];
  }

  /** The start of a second is the greatest text of it. */
  lemma TextNewestSmall(a: Row, b: Row)
    requires a.at > 0 && a.at % SECOND == 0 && a.at < b.at < a.at + SECOND && InRange(a.at + SECOND)
    ensures TextNewest([]) == 0 && TextNewest([a]) == a.at && TextNewest([a, b]) == a.at
  {
    hide Text, Less, InRange;
    EarlierInRange(a.at, a.at + SECOND);
    EarlierInRange(b.at, a.at + SECOND);
    BoundaryAsText(b.at, a.at);
    LessAsymmetric(Text(b.at), Text(a.at));
    assert [a, b][..1] == [a];
  }

  lemma EarlierInRange(a: Instant, b: Instant)
    requires 0 <= a <= b && InRange(b)
    ensures InRange(a)
  {
    hide YearOf;
    YearsOrdered(a / SECOND / DAY, b / SECOND / DAY);
  }

  lemma YearsOrdered(a: nat, b: nat)
    requires a <= b
    ensures YearOf(a, 1) <= YearOf(b, 1)
  {
    hide YearOf;
    var x, y := YearOf(a, 1), YearOf(b, 1);
    if y < x { YearsAscend(y + 1, x); }
  }

  // ----- The pipeline's own runs -----

  /**
   * What happens to a feed: a run of the pipeline, the soft delete of a row, a row placed at some instant (a promoted
   * sample or a manual item), or a row moved to one (an edit).
   */
  datatype Chapter =
    | Ran(env: Env, feed: Feed, spec: Spec)
    | Withdrawn(index: nat)
    | Placed(at: Instant)
    | Moved(row: nat, to: Instant)

  /** No one but the pipeline gave a row its timestamp. */
  ghost predicate RunsOnly(cs: seq<Chapter>) {
    forall i | 0 <= i < |cs| :: cs[i].Ran? || cs[i].Withdrawn?
  }

  function Times(items: seq<Item>): seq<Instant> {
    seq(|items|, i requires 0 <= i < |items| => items[i].publishedAt)
  }

  /** The feed's rows after these chapters: a run adds what its commit stored. */
  function Stored(cs: seq<Chapter>): seq<Row> {
    if cs == [] then []
    else
      var rows := Stored(cs[..|cs| - 1]);
      match cs[|cs| - 1]
      case Ran(env, feed, spec) => rows + Live(Times(RunAll(env, feed, spec).returned))
      case Withdrawn(i) => Apply(rows, Retract(i), 0)
      case Placed(at) => rows + [Row(at, false)]
      case Moved(i, at) => if i < |rows| then rows[i := rows[i].(at := at)] else rows
  }

  /** The same chapters as steps of the clock model; a run that stored nothing is none. */
  function StepsOf(cs: seq<Chapter>): seq<FeedStep> {
    if cs == [] then []
    else
      var steps := StepsOf(cs[..|cs| - 1]);
      match cs[|cs| - 1]
      case Withdrawn(i) => steps + [Retract(i)]
      case Placed(_) => steps
      case Moved(_, _) => steps
      case Ran(env, feed, spec) =>
        var o := RunAll(env, feed, spec);
        match StampReading(o.tr)
        case Some((_, now)) => if o.returned == [] then steps else steps + [Publish(now, |o.returned|)]
        case None => steps
  }

  /** Every run that stored items had read this `newest` of the rows before it. */
  ghost predicate Reads(cs: seq<Chapter>, newest: seq<Row> -> Instant) {
    cs == [] ||
    (Reads(cs[..|cs| - 1], newest) &&
     (cs[|cs| - 1].Ran? ==>
        var c := cs[|cs| - 1];
        var o := RunAll(c.env, c.feed, c.spec);
        o.returned != [] && StampReading(o.tr).Some? ==> StampReading(o.tr).value.0 == newest(Stored(cs[..|cs| - 1]))))
  }

  /** What a run stores is one Publish step from its own two readings. */
  lemma RunIsPublishStep(env: Env, feed: Feed, spec: Spec, rows: seq<Row>)
    requires RunAll(env, feed, spec).returned != []
    ensures var o := RunAll(env, feed, spec);
            && StampReading(o.tr).Some?
            && var (newest, now) := StampReading(o.tr).value;
               rows + Live(Times(o.returned)) == Apply(rows, Publish(now, |o.returned|), newest)
  {
    hide RunAll, StampReading, StampTimes;
    var newest, now := RunTimes(env, feed, spec);
  }

  lemma NothingStored(env: Env, feed: Feed, spec: Spec, rows: seq<Row>)
    ensures var o := RunAll(env, feed, spec);
            o.returned == [] ==> rows + Live(Times(o.returned)) == rows
  {
    hide RunAll;
  }

  /** When every run reads the true newest row, the stored rows are the replay of the feed's steps. */
  lemma {:induction false} StoredIsReplay(cs: seq<Chapter>)
    requires Reads(cs, TrueNewest) && RunsOnly(cs)
    ensures Stored(cs) == Replay(StepsOf(cs))
  {
    hide RunAll, Apply, Live, Times, TrueNewest, StampReading;
    if cs != [] {
      var before, c := cs[..|cs| - 1], cs[|cs| - 1];
      StoredIsReplay(before);
      var rows, steps := Stored(before), StepsOf(before);
      match c
      case Withdrawn(i) =>
        ReplayStep(steps, Retract(i));
        RetractIgnoresNewest(rows, i, TrueNewest(rows));
      case Ran(env, feed, spec) =>
        var o := RunAll(env, feed, spec);
        if o.returned == [] {
          NothingStored(env, feed, spec, rows);
        } else {
          RunIsPublishStep(env, feed, spec, rows);
          ReplayStep(steps, Publish(StampReading(o.tr).value.1, |o.returned|));
        }
    }
  }

  lemma ReplayStep(steps: seq<FeedStep>, s: FeedStep)
    ensures Replay(steps + [s]) == Apply(Replay(steps), s, TrueNewest(Replay(steps)))
  {
    hide Apply, TrueNewest;
    assert (steps + [s])[..|steps|] == steps;
  }

  lemma RetractIgnoresNewest(rows: seq<Row>, i: nat, newest: Instant)
    ensures Apply(rows, Retract(i), 0) == Apply(rows, Retract(i), newest)
  {
  }

  /** Every run that stored items read its clock after the zero time. */
  ghost predicate ClocksPositive(cs: seq<Chapter>) {
    forall s | s in StepsOf(cs) :: s.Publish? ==> s.now > 0
  }

  /**
   * End to end: over any history of pipeline runs, each against its own arbitrary world and with clocks in any
   * order, and any soft deletes, the rows of the feed are distinct and increase in commit order, as long as every
   * run read the true newest row.
   */
  lemma LifetimeOfRuns(cs: seq<Chapter>)
    requires Reads(cs, TrueNewest) && RunsOnly(cs) && ClocksPositive(cs)
    ensures Increasing(Stored(cs))
  {
    hide Stored, StepsOf, Replay, Reads, Increasing, RunsOnly;
    StoredIsReplay(cs);
    LifetimeIncreasing(StepsOf(cs));
  }

  // ----- Feeds others write to -----

  ghost predicate AllPast(times: seq<Instant>, rows: seq<Row>) {
    forall t, r | t in times && r in rows :: r.at < t
  }

  /** All stamps of a run are past every row exactly when the first is past the newest. */
  lemma PastIffAnchor(times: seq<Instant>, newest: Instant, now: Instant, rows: seq<Row>)
    requires times == StampTimes(newest, now, |times|) && times != [] && rows != []
    ensures AllPast(times, rows) <==> Base(newest, now) > TrueNewest(rows)
  {
    hide TrueNewest, Base;
    TrueNewestIsMax(rows);
    var r :| r in rows && r.at == TrueNewest(rows);
    assert times[0] == Base(newest, now) + 0 * SECOND && times[0] in times;
  }

  /** Whatever rows a feed has, and whoever wrote them: a run that read the true newest lands past all of them. */
  lemma RunLandsLast(env: Env, feed: Feed, spec: Spec, rows: seq<Row>)
    requires var o := RunAll(env, feed, spec);
             o.returned != [] && (StampReading(o.tr).Some? ==>
               StampReading(o.tr).value.0 == TrueNewest(rows) && StampReading(o.tr).value.1 > 0)
    ensures AllPast(Times(RunAll(env, feed, spec).returned), rows)
  {
    hide RunAll, StampReading, TrueNewest, AllPast, Times;
    var o := RunAll(env, feed, spec);
    var newest, now := RunTimes(env, feed, spec);
    if rows == [] { NothingPast(Times(o.returned)); } else { PastIffAnchor(Times(o.returned), newest, now, rows); }
  }

  lemma NothingPast(times: seq<Instant>)
    ensures AllPast(times, [])
  {
  }

  lemma RunTimes(env: Env, feed: Feed, spec: Spec) returns (newest: Instant, now: Instant)
    requires RunAll(env, feed, spec).returned != []
    ensures var o := RunAll(env, feed, spec);
            && StampReading(o.tr) == Some((newest, now))
            && Times(o.returned) != [] && Times(o.returned) == StampTimes(newest, now, |Times(o.returned)|)
  {
    hide RunAll, StampReading, Ledger.Books, Ledger.Balanced;
    Ledger.RunLedger(env, feed, spec);
    var o := RunAll(env, feed, spec);
    assert o.returned == o.committed;
    Published.RunStamps(env, feed, spec);
    newest, now := StampReading(o.tr).value.0, StampReading(o.tr).value.1;
    var times := StampTimes(newest, now, |o.returned|);
    forall i | 0 <= i < |o.returned| ensures Times(o.returned)[i] == times[i] {
      assert times[i] == Base(newest, now) + i * SECOND;
      assert i * SECOND == i * 1_000_000_000;
    }
    assert Times(o.returned) == times;
  }

  /** One that read the text maximum does so exactly unless its clock fell between that and the true newest row. */
  lemma RunLandsLastByTextIff(env: Env, feed: Feed, spec: Spec, rows: seq<Row>)
    requires AllInRange(rows) && Positive(rows) && rows != []
    requires var o := RunAll(env, feed, spec);
             o.returned != [] && (StampReading(o.tr).Some? ==> StampReading(o.tr).value.0 == TextNewest(rows))
    ensures var o := RunAll(env, feed, spec);
            && StampReading(o.tr).Some?
            && (AllPast(Times(o.returned), rows) <==>
                  !(TextNewest(rows) < StampReading(o.tr).value.1 <= TrueNewest(rows)))
  {
    hide RunAll, StampReading, TrueNewest, TextNewest, AllPast, Times, InRange;
    var newest, now := RunTimes(env, feed, spec);
    PastIffAnchor(Times(RunAll(env, feed, spec).returned), newest, now, rows);
    TextAnchorExact(rows, now);
  }

  /** All the timestamps the pipeline ever gave, in commit order, whatever became of the rows. */
  function Given(cs: seq<Chapter>): seq<Instant> {
    if cs == [] then []
    else
      var times := Given(cs[..|cs| - 1]);
      match cs[|cs| - 1]
      case Ran(env, feed, spec) => times + Times(RunAll(env, feed, spec).returned)
      case _ => times
  }

  ghost predicate Ascending(times: seq<Instant>) {
    forall i, j | 0 <= i < j < |times| :: times[i] < times[j]
  }

  /** No edit brings the feed's newest timestamp down. */
  ghost predicate NewestKept(cs: seq<Chapter>) {
    cs == [] ||
    (NewestKept(cs[..|cs| - 1]) &&
     (cs[|cs| - 1].Moved? ==> TrueNewest(Stored(cs[..|cs| - 1])) <= TrueNewest(Stored(cs))))
  }

  /** Nothing given so far is past the newest row. */
  ghost predicate Covered(times: seq<Instant>, rows: seq<Row>) {
    (times != [] ==> rows != []) && forall t | t in times :: t <= TrueNewest(rows)
  }

  lemma CoverGrows(times: seq<Instant>, rows: seq<Row>, more: seq<Row>)
    requires Covered(times, rows)
    ensures Covered(times, rows + more)
  {
    hide TrueNewest;
    if rows != [] {
      TrueNewestIsMax(rows);
      TrueNewestIsMax(rows + more);
      var r :| r in rows && r.at == TrueNewest(rows);
      assert r in rows + more;
    }
  }

  lemma {:induction false} SameInstants(a: seq<Row>, b: seq<Row>)
    requires |a| == |b| && forall i | 0 <= i < |a| :: a[i].at == b[i].at
    ensures TrueNewest(a) == TrueNewest(b)
  {
    if |a| > 1 { SameInstants(a[..|a| - 1], b[..|b| - 1]); }
  }

  lemma NewCovered(rows: seq<Row>, times: seq<Instant>)
    ensures Covered(times, rows + Live(times))
  {
    hide TrueNewest;
    var out := rows + Live(times);
    if out != [] {
      TrueNewestIsMax(out);
      forall t | t in times ensures t <= TrueNewest(out) {
        var i :| 0 <= i < |times| && times[i] == t;
        assert out[|rows| + i] in out && out[|rows| + i].at == t;
      }
    }
  }

  lemma GivenAppend(given: seq<Instant>, rows: seq<Row>, times: seq<Instant>)
    requires Ascending(given) && Covered(given, rows) && Ascending(times) && AllPast(times, rows)
    ensures Ascending(given + times) && Covered(given + times, rows + Live(times))
  {
    hide TrueNewest;
    CoverGrows(given, rows, Live(times));
    NewCovered(rows, times);
    if rows != [] {
      TrueNewestIsMax(rows);
      var r :| r in rows && r.at == TrueNewest(rows);
      assert forall t, u | t in given && u in times :: t <= r.at < u;
    }
    var all := given + times;
    forall i, j | 0 <= i < j < |all| ensures all[i] < all[j] {
      if i < |given| <= j { assert all[i] in given && all[j] in times; }
    }
  }

  lemma TimesAscend(env: Env, feed: Feed, spec: Spec)
    ensures Ascending(Times(RunAll(env, feed, spec).returned))
  {
    hide RunAll, Base, StampReading;
    var o := RunAll(env, feed, spec);
    if o.returned != [] {
      var newest, now := RunTimes(env, feed, spec);
      var times := Times(o.returned);
      forall i, j | 0 <= i < j < |times| ensures times[i] < times[j] {
        assert times[i] == Base(newest, now) + i * SECOND && times[j] == Base(newest, now) + j * SECOND;
      }
    }
  }

  /**
   * On feeds that others write to as well: over any history of runs, placed rows, deletes, and edits that do not
   * bring the newest timestamp down, the timestamps the pipeline gives increase in commit order, as long as every
   * run read the true newest row.
   */
  lemma {:induction false} LifetimeOfStamps(cs: seq<Chapter>)
    requires Reads(cs, TrueNewest) && ClocksPositive(cs) && NewestKept(cs)
    ensures Ascending(Given(cs)) && Covered(Given(cs), Stored(cs))
  {
    hide RunAll, TrueNewest, StampReading, Live, Times, Ascending, Covered, Apply, StepsOf, ClocksPositive;
    if cs == [] {
      NothingGiven();
    } else {
      var before, c := cs[..|cs| - 1], cs[|cs| - 1];
      ClocksBefore(cs);
      LifetimeOfStamps(before);
      var rows, given := Stored(before), Given(before);
      match c
      case Ran(env, feed, spec) =>
        var o := RunAll(env, feed, spec);
        TimesAscend(env, feed, spec);
        if o.returned == [] { NoTimesPast(o.returned, rows); } else { RunLandsLast(env, feed, spec, rows); }
        GivenAppend(given, rows, Times(o.returned));
      case Placed(at) => CoverGrows(given, rows, [Row(at, false)]);
      case Withdrawn(i) => WithdrawnCovers(given, rows, i);
      case Moved(i, at) => CoveredBy(given, rows, Stored(cs));
    }
  }

  lemma NothingGiven()
    ensures Ascending([]) && Covered([], [])
  {
  }

  lemma NoTimesPast(items: seq<Item>, rows: seq<Row>)
    requires items == []
    ensures AllPast(Times(items), rows)
  {
  }

  lemma CoveredBy(times: seq<Instant>, rows: seq<Row>, out: seq<Row>)
    requires Covered(times, rows) && |out| == |rows| && TrueNewest(rows) <= TrueNewest(out)
    ensures Covered(times, out)
  {
    hide TrueNewest;
  }

  lemma WithdrawnCovers(times: seq<Instant>, rows: seq<Row>, i: nat)
    requires Covered(times, rows)
    ensures Covered(times, Apply(rows, Retract(i), 0))
  {
    hide TrueNewest;
    SameInstants(rows, Apply(rows, Retract(i), 0));
  }

  /** The clock of a run that stored items, and of all before it. */
  lemma ClocksBefore(cs: seq<Chapter>)
    requires cs != [] && ClocksPositive(cs)
    ensures ClocksPositive(cs[..|cs| - 1])
    ensures var c := cs[|cs| - 1];
            c.Ran? && RunAll(c.env, c.feed, c.spec).returned != [] && StampReading(RunAll(c.env, c.feed, c.spec).tr).Some? ==>
              StampReading(RunAll(c.env, c.feed, c.spec).tr).value.1 > 0
  {
    hide RunAll, StampReading;
    var before, c := cs[..|cs| - 1], cs[|cs| - 1];
    assert forall s | s in StepsOf(before) :: s in StepsOf(cs);
    if c.Ran? {
      var o := RunAll(c.env, c.feed, c.spec);
      if o.returned != [] && StampReading(o.tr).Some? {
        assert Publish(StampReading(o.tr).value.1, |o.returned|) in StepsOf(cs);
      }
    }
  }

  /** The maximum of the text, as the store finds it; rows before the zero time do not occur. */
  function TextNewestOf(rows: seq<Row>): Instant {
    if forall r | r in rows :: r.at >= 0 then TextNewest(rows) else 0
  }

  lemma {:induction false} StoredIsReplayText(cs: seq<Chapter>)
    requires Reads(cs, TextNewestOf) && RunsOnly(cs) && AllInRange(Stored(cs))
    ensures Stored(cs) == ReplayText(StepsOf(cs))
  {
    hide RunAll, Apply, Live, Times, TextNewest, StampReading, InRange;
    if cs != [] {
      var before, c := cs[..|cs| - 1], cs[|cs| - 1];
      var rows, steps := Stored(before), StepsOf(before);
      StoredOnlyGrows(cs);
      StoredIsReplayText(before);
      match c
      case Withdrawn(i) =>
        Replayed(steps, Retract(i), rows);
        RetractIgnoresNewest(rows, i, TextNewest(rows));
      case Ran(env, feed, spec) =>
        var o := RunAll(env, feed, spec);
        if o.returned == [] {
          NothingStored(env, feed, spec, rows);
        } else {
          RunIsPublishStep(env, feed, spec, rows);
          Replayed(steps, Publish(StampReading(o.tr).value.1, |o.returned|), rows);
        }
    }
  }

  lemma StoredOnlyGrows(cs: seq<Chapter>)
    requires cs != [] && RunsOnly(cs) && AllInRange(Stored(cs))
    ensures AllInRange(Stored(cs[..|cs| - 1]))
  {
    hide RunAll, AllInRange, Live, Times, Apply;
    var rows, c := Stored(cs[..|cs| - 1]), cs[|cs| - 1];
    match c
    case Ran(env, feed, spec) => PrefixInRange(rows, Live(Times(RunAll(env, feed, spec).returned)));
    case Withdrawn(i) => UnretractInRange(rows, i);
  }

  lemma PrefixInRange(rows: seq<Row>, more: seq<Row>)
    requires AllInRange(rows + more)
    ensures AllInRange(rows)
  {
    hide InRange;
    assert forall r | r in rows :: r in rows + more;
  }

  lemma UnretractInRange(rows: seq<Row>, k: nat)
    requires AllInRange(Apply(rows, Retract(k), 0))
    ensures AllInRange(rows)
  {
    hide InRange;
    var out := Apply(rows, Retract(k), 0);
    forall r | r in rows ensures r.at >= 0 && InRange(r.at) {
      var i :| 0 <= i < |rows| && rows[i] == r;
      assert out[i] in out && out[i].at == r.at;
    }
  }

  /** With the newest row found by text, the rows of such a feed are in order if and only if no reading was a gap. */
  lemma LifetimeOfRunsByTextIff(cs: seq<Chapter>)
    requires Reads(cs, TextNewestOf) && RunsOnly(cs) && ClocksPositive(cs) && AllInRange(Stored(cs))
    ensures Increasing(Stored(cs)) <==> NoGap(StepsOf(cs))
  {
    hide Stored, StepsOf, ReplayText, Reads, Increasing, NoGap, AllInRange, RunsOnly;
    StoredIsReplayText(cs);
    LifetimeByTextIff(StepsOf(cs));
  }

  /** So they are whenever the clock of each storing run is later than all before. */
  lemma LifetimeOfRunsByText(cs: seq<Chapter>)
    requires Reads(cs, TextNewestOf) && RunsOnly(cs) && AllInRange(Stored(cs)) && Forward(StepsOf(cs))
    ensures Increasing(Stored(cs))
  {
    hide Stored, StepsOf, ReplayText, Reads, Increasing, Forward, AllInRange, RunsOnly;
    StoredIsReplayText(cs);
    LifetimeIncreasingByText(StepsOf(cs));
  }
}
