/** The two nested spin stages of BlockController: adjustAlignment turns the
    robot until the heading of the last marker is a quarter turn, then
    adjustHeadTilt trims the head until the heading of the first marker is
    level, stops and opens the drawer. Each stage issues a discrete behavior
    only when the direction it needs differs from the one it issued last
    (hysteresis). The per-tick behaviour is specified by the function Tick;
    the class AlignmentLoop holds the loop-carried variables and is proved
    to follow Tick. */
module Alignment {
  import opened Commands
  import TickLoop

  /** Which of the two loops is running; Finished is after the process exit. */
  datatype Stage = Aligning | Tilting | Finished

  datatype Spin = CW | CCW
  datatype Tilt = Down | Up

  /** The state of the nested loops: lastSpin is adjustAlignment's
      _last_direction and lastTilt adjustHeadTilt's; None is the empty
      string both start from. */
  datatype AlignState = AlignState(stage: Stage, lastSpin: Option<Spin>, lastTilt: Option<Tilt>)

  const Initial: AlignState := AlignState(Aligning, None, None)

  const StopCommand: Command := Behavior(ShortSnake, Stop, true)
  const OpenDrawerCommand: Command := Behavior(ShortSnake, OpenDrawer, true)

  /** The commands of the tick on which the head is level. */
  const Finale: seq<Command> := [StopCommand, OpenDrawerCommand, Exit]

  function SpinCommand(d: Spin): Command {
    Behavior(ShortSnake, if d == CW then SpinCW else SpinCCW, true)
  }

  function TiltCommand(d: Tilt): Command {
    Behavior(ShortSnake, if d == Down then AdjustHeadTiltDown else AdjustHeadTiltUp, true)
  }

  /** The heading is a quarter turn, within the tolerance (strictly). */
  predicate IsAligned(theta: real) {
    Abs(Abs(theta) - HalfPi) < HeadingTolerance
  }

  /** The spin adjustAlignment needs when not aligned. */
  function RequiredSpin(theta: real): Spin {
    if Abs(theta) > HalfPi then CW else CCW
  }

  /** The head heading is zero, within the tolerance (strictly). */
  predicate IsLevel(theta: real) {
    Abs(theta - 0.0) < HeadingTolerance
  }

  /** The tilt adjustHeadTilt needs when not level. */
  function RequiredTilt(theta: real): Tilt {
    if theta > 0.0 then Down else Up
  }

  /** One iteration of adjustAlignment's loop body. */
  function AlignTick(s: AlignState, pose: Option<Pose>): Transition<AlignState>
    requires s.stage == Aligning
  {
    match pose
    case None => Transition(s, [])
    case Some(p) =>
      if IsAligned(p.theta) then
        Transition(s.(stage := Tilting, lastTilt := None), [StopCommand])
      else
        var d := RequiredSpin(p.theta);
        if s.lastSpin == Some(d) then Transition(s, [])
        else Transition(s.(lastSpin := Some(d)), [SpinCommand(d)])
  }

  /** One iteration of adjustHeadTilt's loop body. */
  function TiltTick(s: AlignState, pose: Option<Pose>): Transition<AlignState>
    requires s.stage == Tilting
  {
    match pose
    case None => Transition(s, [])
    case Some(p) =>
      if IsLevel(p.theta) then
        Transition(s.(stage := Finished), Finale)
      else
        var d := RequiredTilt(p.theta);
        if s.lastTilt == Some(d) then Transition(s, [])
        else Transition(s.(lastTilt := Some(d)), [TiltCommand(d)])
  }

  /** One tick of whichever loop is running; after the exit nothing happens. */
  function Tick(s: AlignState, pose: Option<Pose>): Transition<AlignState> {
    match s.stage
    case Aligning => AlignTick(s, pose)
    case Tilting => TiltTick(s, pose)
    case Finished => Transition(s, [])
  }

  /** The process has exited. */
  predicate Exited(s: AlignState) {
    s.stage == Finished
  }

  /** The nested loops over the lookups of successive ticks, up to shutdown
      (the end of the sequence) or the exit. */
  function Run(s: AlignState, poses: seq<Option<Pose>>): Transition<AlignState> {
    TickLoop.Run(Tick, Exited, s, poses)
  }

  function StageRank(st: Stage): nat {
    match st
    case Aligning => 0
    case Tilting => 1
    case Finished => 2
  }

  // ---------------------------------------------------------------------
  // One tick

  /** The direction decisions as bands: outside the tolerance band around a
      quarter turn, the robot spins clockwise when above it and
      counter-clockwise when below it; the decision ignores the sign of theta. */
  lemma SpinBands(theta: real)
    requires !IsAligned(theta)
    ensures RequiredSpin(theta) == CW <==> Abs(theta) >= HalfPi + 0.01
    ensures RequiredSpin(theta) == CCW <==> Abs(theta) <= HalfPi - 0.01
    ensures RequiredSpin(-theta) == RequiredSpin(theta)
  {
  }

  /** Outside the level band the head tilts down for a positive heading and
      up for a negative one. */
  lemma TiltBands(theta: real)
    requires !IsLevel(theta)
    ensures RequiredTilt(theta) == Down <==> theta >= 0.01
    ensures RequiredTilt(theta) == Up <==> theta <= -0.01
  {
  }

  /** A failed lookup changes nothing and emits nothing, in either stage. */
  lemma MissingPoseTick(s: AlignState)
    ensures Tick(s, None) == Transition(s, [])
  {
  }

  /** Spin hysteresis: a spin is issued, and remembered, exactly when the
      needed direction differs from the last one issued; otherwise nothing
      changes. */
  lemma SpinHysteresis(s: AlignState, p: Pose)
    requires s.stage == Aligning && !IsAligned(p.theta)
    ensures var d := RequiredSpin(p.theta);
      var t := Tick(s, Some(p));
      && (t.emitted == [] <==> s.lastSpin == Some(d))
      && (t.emitted == [] ==> t.next == s)
      && (t.emitted != [] ==> t.emitted == [SpinCommand(d)] && t.next == s.(lastSpin := Some(d)))
  {
  }

  /** When aligned, the robot stops and the tilt stage starts with no
      remembered direction. */
  lemma AlignedTick(s: AlignState, p: Pose)
    requires s.stage == Aligning && IsAligned(p.theta)
    ensures Tick(s, Some(p)).emitted == [Behavior(ShortSnake, Stop, true)]
    ensures Tick(s, Some(p)).next == AlignState(Tilting, s.lastSpin, None)
  {
  }

  /** Tilt hysteresis, keyed on the sign of the heading. */
  lemma TiltHysteresis(s: AlignState, p: Pose)
    requires s.stage == Tilting && !IsLevel(p.theta)
    ensures var d := RequiredTilt(p.theta);
      var t := Tick(s, Some(p));
      && (t.emitted == [] <==> s.lastTilt == Some(d))
      && (t.emitted == [] ==> t.next == s)
      && (t.emitted != [] ==> t.emitted == [TiltCommand(d)] && t.next == s.(lastTilt := Some(d)))
  {
  }

  /** When level, the stage stops, opens the drawer and exits, in that order. */
  lemma LevelTick(s: AlignState, p: Pose)
    requires s.stage == Tilting && IsLevel(p.theta)
    ensures Tick(s, Some(p)).emitted ==
      [Behavior(ShortSnake, Stop, true), Behavior(ShortSnake, OpenDrawer, true), Exit]
    ensures Tick(s, Some(p)).next.stage == Finished
  {
  }

  /** A heading of 1.58 counts as a quarter turn: the stage stops and moves on. */
  lemma AlignedExample(s: AlignState, x: real, y: real)
    requires s.stage == Aligning
    ensures Tick(s, Some(Pose(x, y, 1.58))).emitted == [StopCommand]
    ensures Tick(s, Some(Pose(x, y, 1.58))).next.stage == Tilting
  {
    HalfPiBounds();
  }

  // ---------------------------------------------------------------------
  // No chattering

  predicate IsSteering(c: Command) {
    c == SpinCommand(CW) || c == SpinCommand(CCW) || c == TiltCommand(Down) || c == TiltCommand(Up)
  }

  /** No spin or tilt command is immediately followed by the same command. */
  ghost predicate ChatterFree(tr: seq<Command>) {
    forall i :: 0 <= i < |tr| - 1 && IsSteering(tr[i]) ==> tr[i + 1] != tr[i]
  }

  /** A steering command last in the trace is the one the state remembers. */
  ghost predicate Coupled(s: AlignState, tr: seq<Command>) {
    tr != [] && IsSteering(tr[|tr| - 1]) ==>
      || (s.stage == Aligning && s.lastSpin.Some? && tr[|tr| - 1] == SpinCommand(s.lastSpin.value))
      || (s.stage == Tilting && s.lastTilt.Some? && tr[|tr| - 1] == TiltCommand(s.lastTilt.value))
  }

  lemma ChatterFreeAppend(tr: seq<Command>, c: Command)
    requires ChatterFree(tr)
    requires tr != [] && IsSteering(tr[|tr| - 1]) ==> c != tr[|tr| - 1]
    ensures ChatterFree(tr + [c])
  {
    var tr' := tr + [c];
    forall i | 0 <= i < |tr'| - 1 && IsSteering(tr'[i])
      ensures tr'[i + 1] != tr'[i]
    {
      if i < |tr| - 1 {
        assert tr'[i] == tr[i] && tr'[i + 1] == tr[i + 1];
      }
    }
  }

  /** Every tick leaves the remembered direction matching the last
      steering command of the trace. */
  lemma TickCoupled(s: AlignState, tr: seq<Command>, pose: Option<Pose>)
    requires Coupled(s, tr)
    ensures Coupled(Tick(s, pose).next, tr + Tick(s, pose).emitted)
  {
    var t := Tick(s, pose);
    if t.emitted == [] {
      assert tr + t.emitted == tr;
    }
  }

  /** Every tick keeps the trace free of repeated steering commands. */
  lemma TickChatterFree(s: AlignState, tr: seq<Command>, pose: Option<Pose>)
    requires Coupled(s, tr) && ChatterFree(tr)
    ensures ChatterFree(tr + Tick(s, pose).emitted)
  {
    var t := Tick(s, pose);
    if t.emitted == [] {
      assert tr + t.emitted == tr;
    } else if t.emitted == Finale {
      ChatterFreeAppend(tr, StopCommand);
      ChatterFreeAppend(tr + [StopCommand], OpenDrawerCommand);
      ChatterFreeAppend(tr + [StopCommand] + [OpenDrawerCommand], Exit);
      assert tr + t.emitted == tr + [StopCommand] + [OpenDrawerCommand] + [Exit];
    } else {
      assert |t.emitted| == 1;
      ChatterFreeAppend(tr, t.emitted[0]);
      assert tr + t.emitted == tr + [t.emitted[0]];
    }
  }

  lemma {:induction false} RunCoupled(s: AlignState, tr: seq<Command>, poses: seq<Option<Pose>>)
    requires Coupled(s, tr)
    ensures Coupled(Run(s, poses).next, tr + Run(s, poses).emitted)
    decreases |poses|
  {
    if poses == [] || s.stage == Finished {
      assert Run(s, poses) == Transition(s, []);
      assert tr + Run(s, poses).emitted == tr;
    } else {
      var t := Tick(s, poses[0]);
      var rest := Run(t.next, poses[1..]);
      var tr' := tr + t.emitted;
      assert Run(s, poses).next == rest.next && tr + Run(s, poses).emitted == tr' + rest.emitted by {
        RunUnfold(s, poses);
      }
      assert Coupled(rest.next, tr' + rest.emitted) by {
        TickCoupled(s, tr, poses[0]);
        RunCoupled(t.next, tr', poses[1..]);
      }
    }
  }

  lemma {:induction false} RunChatterFree(s: AlignState, tr: seq<Command>, poses: seq<Option<Pose>>)
    requires Coupled(s, tr) && ChatterFree(tr)
    ensures ChatterFree(tr + Run(s, poses).emitted)
    decreases |poses|
  {
    if poses == [] || s.stage == Finished {
      assert Run(s, poses) == Transition(s, []);
      assert tr + Run(s, poses).emitted == tr;
    } else {
      var t := Tick(s, poses[0]);
      var rest := Run(t.next, poses[1..]);
      var tr' := tr + t.emitted;
      assert tr + Run(s, poses).emitted == tr' + rest.emitted by {
        RunUnfold(s, poses);
      }
      assert ChatterFree(tr' + rest.emitted) by {
        TickCoupled(s, tr, poses[0]);
        TickChatterFree(s, tr, poses[0]);
        RunChatterFree(t.next, tr', poses[1..]);
      }
    }
  }

  /** Hysteresis over a whole run: from the start, the stages never issue
      the same spin or tilt behavior twice in a row, however the heading
      readings oscillate. */
  lemma NoChatter(poses: seq<Option<Pose>>)
    ensures ChatterFree(Run(Initial, poses).emitted)
  {
    RunChatterFree(Initial, [], poses);
    assert [] + Run(Initial, poses).emitted == Run(Initial, poses).emitted;
  }

  // ---------------------------------------------------------------------
  // The whole run

  /** Ticks whose lookups all fail change nothing and emit nothing. */
  lemma MissingPosesRun(s: AlignState, poses: seq<Option<Pose>>)
    requires forall i :: 0 <= i < |poses| ==> poses[i] == None
    ensures Run(s, poses) == Transition(s, [])
  {
    TickLoop.RunMissing(Tick, Exited, s, poses);
  }

  /** The stages only move forward: aligning, then tilting, then finished. */
  lemma {:induction false} StageMonotone(s: AlignState, poses: seq<Option<Pose>>)
    ensures StageRank(s.stage) <= StageRank(Run(s, poses).next.stage)
    decreases |poses|
  {
    if poses != [] && s.stage != Finished {
      var t := Tick(s, poses[0]);
      RunUnfold(s, poses);
      assert StageRank(s.stage) <= StageRank(t.next.stage);
      StageMonotone(t.next, poses[1..]);
    }
  }

  /** A run that finishes has emitted stop, openDrawer and the exit last. */
  lemma {:induction false} RunEndsWithFinale(s: AlignState, poses: seq<Option<Pose>>)
    requires s.stage != Finished && Run(s, poses).next.stage == Finished
    ensures var e := Run(s, poses).emitted;
      |e| >= 3 && e[|e| - 3..] == [StopCommand, OpenDrawerCommand, Exit]
    decreases |poses|
  {
    var t := Tick(s, poses[0]);
    var rest := Run(t.next, poses[1..]);
    RunUnfold(s, poses);
    if t.next.stage == Finished {
      assert t.emitted == Finale;
      TickLoop.RunHalted(Tick, Exited, t.next, poses[1..]);
      assert Run(s, poses).emitted == Finale;
    } else {
      RunEndsWithFinale(t.next, poses[1..]);
      var e := Run(s, poses).emitted;
      assert e == t.emitted + rest.emitted;
      assert e[|e| - 3..] == rest.emitted[|rest.emitted| - 3..];
    }
  }

  /** The first iteration of a run that has not finished. */
  lemma RunUnfold(s: AlignState, poses: seq<Option<Pose>>)
    requires poses != [] && s.stage != Finished
    ensures var t := Tick(s, poses[0]);
      var rest := Run(t.next, poses[1..]);
      Run(s, poses) == Transition(rest.next, t.emitted + rest.emitted)
  {
    TickLoop.RunUnfold(Tick, Exited, s, poses);
  }

  // ---------------------------------------------------------------------
  // The loops as imperative code

  /** The locals of adjustAlignment and adjustHeadTilt, with the commands
      sent so far. */
  class AlignmentLoop {
    var stage: Stage
    var lastSpin: Option<Spin>
    var lastTilt: Option<Tilt>
    var trace: seq<Command>

    function State(): AlignState
      reads this
    {
      AlignState(stage, lastSpin, lastTilt)
    }

    ghost predicate Valid()
      reads this
    {
      Coupled(State(), trace) && ChatterFree(trace)
    }

    /** Entry into adjustAlignment: no direction issued yet. */
    constructor ()
      ensures Valid() && State() == Initial && trace == []
    {
      stage := Aligning;
      lastSpin := None;
      lastTilt := None;
      trace := [];
    }

    /** One iteration of adjustAlignment's loop body. */
    method AlignmentStep(pose: Option<Pose>)
      requires Valid() && stage == Aligning
      modifies this
      ensures Valid()
      ensures State() == Tick(old(State()), pose).next
      ensures trace == old(trace) + Tick(old(State()), pose).emitted
    {
      TickCoupled(State(), trace, pose);
      TickChatterFree(State(), trace, pose);
      if pose.None? {
        return;
      }
      var theta := pose.value.theta;
      if Abs(Abs(theta) - HalfPi) < 0.01 {
        trace := trace + [Behavior(ShortSnake, Stop, true)];
        stage := Tilting;
        lastTilt := None;
      } else if Abs(theta) > HalfPi {
        if lastSpin == Some(CW) {
          return;
        }
        trace := trace + [Behavior(ShortSnake, SpinCW, true)];
        lastSpin := Some(CW);
      } else {
        if lastSpin == Some(CCW) {
          return;
        }
        trace := trace + [Behavior(ShortSnake, SpinCCW, true)];
        lastSpin := Some(CCW);
      }
    }

    /** One iteration of adjustHeadTilt's loop body. */
    method HeadTiltStep(pose: Option<Pose>)
      requires Valid() && stage == Tilting
      modifies this
      ensures Valid()
      ensures State() == Tick(old(State()), pose).next
      ensures trace == old(trace) + Tick(old(State()), pose).emitted
    {
      TickCoupled(State(), trace, pose);
      TickChatterFree(State(), trace, pose);
      if pose.None? {
        return;
      }
      var theta := pose.value.theta;
      if Abs(theta - 0.0) < 0.01 {
        trace := trace + [Behavior(ShortSnake, Stop, true)];
        trace := trace + [Behavior(ShortSnake, OpenDrawer, true)];
        trace := trace + [Exit];
        stage := Finished;
      } else if theta > 0.0 {
        if lastTilt == Some(Down) {
          return;
        }
        trace := trace + [Behavior(ShortSnake, AdjustHeadTiltDown, true)];
        lastTilt := Some(Down);
      } else {
        if lastTilt == Some(Up) {
          return;
        }
        trace := trace + [Behavior(ShortSnake, AdjustHeadTiltUp, true)];
        lastTilt := Some(Up);
      }
    }

    /** adjustAlignment's loop, which enters adjustHeadTilt's loop once
        aligned, fed one lookup result per tick until the lookups run out
        (shutdown) or the exit. */
    method RunLoop(poses: seq<Option<Pose>>)
      requires Valid()
      modifies this
      ensures Valid()
      ensures State() == Run(old(State()), poses).next
      ensures trace == old(trace) + Run(old(State()), poses).emitted
    {
      ghost var whole := Run(State(), poses);
      ghost var trace0 := trace;
      var rest := poses;
      while rest != [] && stage != Finished
        invariant Valid()
        invariant whole.next == Run(State(), rest).next
        invariant trace0 + whole.emitted == trace + Run(State(), rest).emitted
        decreases |rest|
      {
        ghost var t := Tick(State(), rest[0]);
        ghost var after := Run(t.next, rest[1..]);
        assert Run(State(), rest) == Transition(after.next, t.emitted + after.emitted) by {
          RunUnfold(State(), rest);
        }
        if stage == Aligning {
          AlignmentStep(rest[0]);
        } else {
          HeadTiltStep(rest[0]);
        }
        assert trace0 + whole.emitted == trace + after.emitted;
        rest := rest[1..];
      }
    }
  }
}
