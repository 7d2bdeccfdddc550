/**
 * The race between an upgrade and its revalidation loop (ServeHTTP and revalidate in internal/bridge/server.go,
 * hijackCapture in internal/bridge/hijack.go), as a machine over the steps of its two goroutines.
 */
module Revalidate {

  /** Where the handler is. Only at `Before` and `Serving` is it outside Hijack, where it may also return. */
  datatype Handler = Before | Hijacked | Recorded | Serving | Returned

  /** Where the loop is. `Closing(conn)` has read the recorded connection; 0 is none. */
  datatype Loop = Waiting | Validating | CloseWhenReady | Announced | Closing(conn: nat) | Exited

  /**
   * Connections are numbered as the writer underneath hands them out, `taken` of them so far; `conn` is the
   * recorded one, 0 for none. `readyCloses` counts closings of the `ready` channel, which `once` guards.
   * `closed` holds the connections the loop closed, and `verdicts` the validator's answers.
   */
  datatype State = State(
    handler: Handler, loop: Loop, taken: nat, conn: nat, once: bool, readyCloses: nat, stop: bool,
    closed: set<nat>, verdicts: seq<bool>)
  {
    predicate Ready() { readyCloses > 0 }
  }

  const UPGRADE := State(Before, Waiting, 0, 0, false, 0, false, {}, [])

  datatype Step =
    | Hijack        // the writer underneath hands out a connection
    | HijackFails
    | Record        // the connection is stored under the lock
    | Announce      // ready is closed, once
    | Return        // the bridge handler ends, which closes stop
    | Tick          // the clock fires in the loop's select
    | Verdict(ok: bool)
    | SeeStop       // a select of the loop takes its stop case
    | SeeReady      // the select of CloseWhenReady takes its ready case
    | ReadConn      // Close reads the recorded connection under the lock
    | CloseConn

  predicate Enabled(s: State, step: Step) {
    match step
    case Hijack => s.handler.Before? || s.handler.Serving?
    case HijackFails => s.handler.Before? || s.handler.Serving?
    case Record => s.handler.Hijacked?
    case Announce => s.handler.Recorded?
    case Return => s.handler.Before? || s.handler.Serving?
    case Tick => s.loop.Waiting?
    case Verdict(_) => s.loop.Validating?
    case SeeStop => s.stop && (s.loop.Waiting? || s.loop.CloseWhenReady?)
    case SeeReady => s.Ready() && s.loop.CloseWhenReady?
    case ReadConn => s.loop.Announced?
    case CloseConn => s.loop.Closing?
  }

  function Apply(s: State, step: Step): State
    requires Enabled(s, step)
  {
    match step
    case Hijack => s.(handler := Hijacked, taken := s.taken + 1)
    case HijackFails => s
    case Record => s.(handler := Recorded, conn := s.taken)
    case Announce =>
      s.(handler := Serving, once := true, readyCloses := if s.once then s.readyCloses else s.readyCloses + 1)
    case Return => s.(handler := Returned, stop := true)
    case Tick => s.(loop := Validating)
    case Verdict(ok) => s.(loop := if ok then Waiting else CloseWhenReady, verdicts := s.verdicts + [ok])
    case SeeStop => s.(loop := Exited)
    case SeeReady => s.(loop := Announced)
    case ReadConn => s.(loop := Closing(s.conn))
    case CloseConn => s.(loop := Exited, closed := s.closed + if s.loop.conn == 0 then {} else {s.loop.conn})
  }

  /** `s` is where the interleaving `steps` leads. */
  ghost predicate Leads(steps: seq<Step>, s: State)
    decreases |steps|
  {
    if steps == [] then s == UPGRADE
    else
      var step := steps[|steps| - 1];
      exists before :: Leads(steps[..|steps| - 1], before) && Enabled(before, step) && s == Apply(before, step)
  }

  // ----- What every interleaving keeps -----

  ghost predicate Rejected(s: State) { false in s.verdicts }

  /** The capture: ready means recorded, and it is announced once. */
  ghost predicate CaptureInv(s: State) {
    && s.taken == s.conn + (if s.handler.Hijacked? then 1 else 0)
    && (s.handler.Before? ==> s.taken == 0 && !s.once)
    && (s.handler.Recorded? ==> s.conn > 0)
    && (s.handler.Serving? ==> s.once)
    && (s.handler.Returned? && s.conn > 0 ==> s.once)
    && (s.once ==> s.conn > 0)
    && s.readyCloses == (if s.once then 1 else 0)
    && (s.stop <==> s.handler.Returned?)
  }

  /** The loop: it leaves its select for closing only on a rejection, and exits only by closing or on stop. */
  ghost predicate LoopInv(s: State) {
    && (s.loop.Waiting? || s.loop.Validating? ==> !Rejected(s))
    && (s.loop.CloseWhenReady? || s.loop.Announced? || s.loop.Closing? ==> Rejected(s))
    && (s.loop.Announced? ==> s.Ready())
    && (s.loop.Closing? ==> 0 < s.loop.conn <= s.conn)
    && (s.closed != {} ==> s.loop.Exited? && Rejected(s))
    && (forall c | c in s.closed :: 0 < c <= s.conn)
    && (s.loop.Exited? ==> s.closed != {} || s.stop)
  }

  lemma StepKeepsCapture(s: State, step: Step)
    requires CaptureInv(s) && Enabled(s, step)
    ensures CaptureInv(Apply(s, step))
  {
  }

  lemma StepKeepsLoop(s: State, step: Step)
    requires CaptureInv(s) && LoopInv(s) && Enabled(s, step)
    ensures LoopInv(Apply(s, step))
  {
    if step.CloseConn? {
      assert s.loop.conn in Apply(s, step).closed;
    }
  }

  lemma {:induction false} Invariant(steps: seq<Step>, s: State)
    requires Leads(steps, s)
    ensures CaptureInv(s) && LoopInv(s)
    decreases |steps|
  {
    hide CaptureInv, LoopInv, Enabled, Apply;
    if steps == [] {
      StartsSafe();
    } else {
      var before, step := Previous(steps, s);
      Invariant(steps[..|steps| - 1], before);
      StepKeepsCapture(before, step);
      StepKeepsLoop(before, step);
    }
  }

  lemma StartsSafe()
    ensures CaptureInv(UPGRADE) && LoopInv(UPGRADE)
  {
  }

  lemma Previous(steps: seq<Step>, s: State) returns (before: State, step: Step)
    requires Leads(steps, s) && steps != []
    ensures step == steps[|steps| - 1] && Leads(steps[..|steps| - 1], before)
    ensures Enabled(before, step) && s == Apply(before, step)
  {
    hide Enabled, Apply;
    step := steps[|steps| - 1];
    before :| Leads(steps[..|steps| - 1], before) && Enabled(before, step) && s == Apply(before, step);
  }

  /** In every interleaving: ready means a connection is recorded, and ready is closed at most once. */
  lemma ReadyMeansRecorded(steps: seq<Step>, s: State)
    requires Leads(steps, s)
    ensures s.Ready() ==> s.conn > 0
    ensures s.readyCloses <= 1
  {
    Invariant(steps, s);
  }

  /**
   * In every interleaving: the loop closes a socket only after a rejecting tick, and once a rejection's loop has
   * ended, the socket is closed or the handler has returned. With a writer that hands out one connection, that
   * connection is the one closed.
   */
  lemma NoLostRevocation(steps: seq<Step>, s: State)
    requires Leads(steps, s)
    ensures s.closed != {} ==> Rejected(s)
    ensures s.loop.Exited? && Rejected(s) ==> s.closed != {} || s.stop
    ensures s.taken <= 1 && s.closed != {} ==> s.closed == {1}
  {
    hide Leads, CaptureInv, LoopInv;
    Invariant(steps, s);
    ClosedOnlyRejected(s);
    if s.taken <= 1 { ClosedTheOne(s); }
  }

  lemma ClosedOnlyRejected(s: State)
    requires LoopInv(s)
    ensures s.closed != {} ==> Rejected(s)
    ensures s.loop.Exited? ==> s.closed != {} || s.stop
  {
  }

  lemma ClosedTheOne(s: State)
    requires CaptureInv(s) && LoopInv(s) && s.taken <= 1
    ensures s.closed != {} ==> s.closed == {1}
  {
    assert forall c | c in s.closed :: c == 1;
  }

  // ----- It does not get stuck -----

  predicate OfLoop(step: Step) {
    step.Tick? || step.Verdict? || step.SeeStop? || step.SeeReady? || step.ReadConn? || step.CloseConn?
  }

  /** How many loop steps are left at most before it exits or waits for another tick. */
  function Left(l: Loop): nat {
    match l
    case Validating => 4
    case CloseWhenReady => 3
    case Announced => 2
    case Closing(_) => 1
    case Waiting => 1
    case Exited => 0
  }

  lemma LoopAdvances(s: State, step: Step)
    requires Enabled(s, step)
    ensures OfLoop(step) && !step.Tick? ==> Left(Apply(s, step).loop) < Left(s.loop)
    ensures !OfLoop(step) ==> Apply(s, step).loop == s.loop
  {
  }

  /** A rejected loop waits only while nothing has been hijacked and the handler still runs. */
  lemma RejectedLoopMoves(steps: seq<Step>, s: State)
    requires Leads(steps, s) && Rejected(s) && !s.loop.Exited?
    ensures (exists next :: OfLoop(next) && Enabled(s, next)) <==> !(s.loop.CloseWhenReady? && !s.Ready() && !s.stop)
  {
    Invariant(steps, s);
    match s.loop {
      case CloseWhenReady =>
        if s.stop {
          assert Enabled(s, SeeStop) && OfLoop(SeeStop);
        } else if s.Ready() {
          assert Enabled(s, SeeReady) && OfLoop(SeeReady);
        }
      case Announced => assert Enabled(s, ReadConn) && OfLoop(ReadConn);
      case Closing(_) => assert Enabled(s, CloseConn) && OfLoop(CloseConn);
      case _ =>
    }
  }

  /** A connection that was taken is always announced before the handler can return. */
  lemma TakenIsAnnounced(steps: seq<Step>, s: State)
    requires Leads(steps, s) && s.taken > 0 && (s.handler.Serving? || s.handler.Returned?)
    ensures s.Ready() && s.conn == s.taken
  {
    Invariant(steps, s);
  }

  /** The loop's own steps, without waiting for the clock. */
  predicate Untimed(step: Step) { OfLoop(step) && !step.Tick? }

  /** `steps` lead from `s` to `t`. */
  ghost predicate Path(s: State, steps: seq<Step>, t: State)
    decreases |steps|
  {
    if steps == [] then s == t else Enabled(s, steps[0]) && Path(Apply(s, steps[0]), steps[1..], t)
  }

  /** How many of these steps are the loop's own. */
  function Own(steps: seq<Step>): nat {
    if steps == [] then 0 else (if OfLoop(steps[0]) then 1 else 0) + Own(steps[1..])
  }

  /**
   * The loop ends. However the handler's steps fall between, it takes at most four steps of its own until the next
   * tick; and once stop is closed it can only come to rest by having exited.
   */
  lemma {:induction false} LoopEnds(s: State, steps: seq<Step>, t: State)
    requires CaptureInv(s) && LoopInv(s)
    requires Path(s, steps, t) && forall step | step in steps :: !step.Tick?
    ensures Own(steps) + Left(t.loop) <= Left(s.loop) <= 4
    ensures CaptureInv(t) && LoopInv(t) && (s.stop ==> t.stop)
    ensures t.stop && (forall next :: Untimed(next) ==> !Enabled(t, next)) ==> t.loop.Exited?
    decreases |steps|
  {
    hide CaptureInv, LoopInv, Left;
    LeftSmall(s.loop);
    if steps == [] {
      if s.stop && !s.loop.Exited? { StoppedMoves(s); }
    } else {
      var step := steps[0];
      assert !step.Tick? && forall x | x in steps[1..] :: x in steps;
      StepKeepsCapture(s, step);
      StepKeepsLoop(s, step);
      LoopAdvances(s, step);
      LoopEnds(Apply(s, step), steps[1..], t);
    }
  }

  /** Four is reached: a rejection that finds the connection announced takes all of them to close it. */
  lemma FourSteps(s: State) returns (steps: seq<Step>, t: State)
    requires s.loop.Validating? && s.Ready()
    ensures Path(s, steps, t) && Own(steps) == 4 && t.loop.Exited?
  {
    var s1 := Apply(s, Verdict(false));
    var s2 := Apply(s1, SeeReady);
    var s3 := Apply(s2, ReadConn);
    t := Apply(s3, CloseConn);
    steps := [Verdict(false), SeeReady, ReadConn, CloseConn];
    assert steps[1..] == [SeeReady, ReadConn, CloseConn] && steps[1..][1..] == [ReadConn, CloseConn];
    assert [ReadConn, CloseConn][1..] == [CloseConn] && [CloseConn][1..] == [];
    assert Path(s3, [CloseConn], t) && Path(s2, [ReadConn, CloseConn], t);
    assert Own([CloseConn]) == 1 && Own([ReadConn, CloseConn]) == 2;
  }

  lemma LeftSmall(l: Loop)
    ensures Left(l) <= 4
  {
  }

  lemma StoppedMoves(s: State)
    requires s.stop && !s.loop.Exited?
    ensures exists next :: Untimed(next) && Enabled(s, next)
  {
    var next := match s.loop
      case Waiting => SeeStop
      case Validating => Verdict(true)
      case CloseWhenReady => SeeStop
      case Announced => ReadConn
      case _ => CloseConn;
    assert Untimed(next) && Enabled(s, next);
  }
}
