/** The approach loop of BlockController.main: drive towards "goal", then
    towards "tag_2", correcting laterally with the visual servo, backing up
    after repeated corrections, and picking the block up on arrival at
    "tag_2". The per-tick behaviour is specified by the function Tick; the
    class ApproachLoop holds the loop-carried variables and is proved to
    follow Tick. */
module Approach {
  import opened Commands
  import opened VisualServo
  import TickLoop

  /** The marker the loop is currently driving to. */
  datatype Target = Goal | Tag2

  /** The loop-carried locals of main: back_up_counter, _last_drive and the
      target t, plus whether the loop has returned after the pickup. */
  datatype ApproachState = ApproachState(
    backUpCounter: int,
    lastDrive: bool,
    target: Target,
    done: bool)

  /** The state right before the loop first runs. */
  const Initial: ApproachState := ApproachState(0, false, Goal, false)

  /** The behavior call that configures the arm for driving before the loop. */
  const DriveConfig: Command := Behavior(Arm, Drive, false)

  /** The commands of the pickup after arrival at "tag_2". */
  const PickupSequence: seq<Command> :=
    [Behavior(NoConfig, NoBehavior, false), Behavior(Arm, PickUp, true),
     Sleep(SettleSeconds), Behavior(NoConfig, NoBehavior, false)]

  const BackupCommands: seq<Command> := [Velocity(BackupSpeed, 0.0), Sleep(BackupSeconds)]

  /** Arrival test: the longitudinal distance and strict tolerance of each target. */
  predicate Arrived(t: Target, x: real) {
    var dist := if t == Goal then 0.0 else 0.03;
    var tol := if t == Goal then 0.20 else 0.01;
    Abs(x - dist) < tol
  }

  /** A tick whose lateral offset is outside the deadband corrects instead of
      driving. */
  predicate Correcting(p: Pose) {
    p.y > ServoDeadband || p.y < -ServoDeadband
  }

  /** The backup maneuver at the start of a tick with a pose. */
  function Backup(s: ApproachState): Transition<ApproachState> {
    if s.backUpCounter > BackupThreshold then
      Transition(s.(lastDrive := false, backUpCounter := 0), BackupCommands)
    else
      Transition(s, [])
  }

  /** The correction or forward-drive part of a tick with a pose. */
  function CorrectOrDrive(s: ApproachState, p: Pose): Transition<ApproachState> {
    if Correcting(p) then
      var s' := if s.lastDrive then
                  s.(lastDrive := false,
                     backUpCounter := if s.target == Tag2 then s.backUpCounter + 1 else s.backUpCounter)
                else s;
      Transition(s', ServoCommands(p.y))
    else
      var s' := s.(lastDrive := true);
      var forward := [Velocity(DriveSpeed, 0.0)];
      if !Arrived(s.target, p.x) then Transition(s', forward)
      else if s.target == Goal then Transition(s'.(target := Tag2), forward)
      else Transition(s'.(done := true), forward + PickupSequence)
  }

  /** One iteration of the loop body for the result of one lookup. */
  function Tick(s: ApproachState, pose: Option<Pose>): Transition<ApproachState> {
    match pose
    case None => Transition(s, [])
    case Some(p) =>
      var b := Backup(s);
      var c := CorrectOrDrive(b.next, p);
      Transition(c.next, b.emitted + c.emitted)
  }

  /** The loop has returned after the pickup. */
  predicate Returned(s: ApproachState) {
    s.done
  }

  /** The loop over the lookups of successive ticks, up to shutdown (the end
      of the sequence) or the return after the pickup. */
  function Run(s: ApproachState, poses: seq<Option<Pose>>): Transition<ApproachState> {
    TickLoop.Run(Tick, Returned, s, poses)
  }

  /** What holds at every tick boundary of a loop started from Initial. */
  ghost predicate Inv(s: ApproachState) {
    && 0 <= s.backUpCounter <= BackupThreshold + 1
    && (s.target == Goal ==> s.backUpCounter == 0)
    && (s.done ==> s.target == Tag2)
  }

  function Rank(t: Target): nat {
    if t == Goal then 0 else 1
  }

  // ---------------------------------------------------------------------
  // One tick

  /** A failed lookup changes no variable and emits nothing. */
  lemma MissingPoseTick(s: ApproachState)
    ensures Tick(s, None).next == s && Tick(s, None).emitted == []
  {
  }

  /** Arrival at a target is a strict interval test around its distance. */
  lemma ArrivalWindow(x: real)
    ensures Arrived(Goal, x) <==> -0.20 < x < 0.20
    ensures Arrived(Tag2, x) <==> 0.02 < x < 0.04
  {
  }

  /** A tick that starts with the counter above the threshold backs up first,
      and the counter is 0 at the end of that tick whatever the pose says. */
  lemma BackupTick(s: ApproachState, p: Pose)
    requires s.backUpCounter > BackupThreshold
    ensures var t := Tick(s, Some(p));
      var reset := s.(lastDrive := false, backUpCounter := 0);
      && t.emitted == [Velocity(-0.1, 0.0), Sleep(3)] + CorrectOrDrive(reset, p).emitted
      && t.next == CorrectOrDrive(reset, p).next
      && t.next.backUpCounter == 0
      && t.next.lastDrive == !Correcting(p)
  {
  }

  /** A correction tick steers with the visual servo (after any backup) and
      neither tests arrival nor changes the target. */
  lemma CorrectionTick(s: ApproachState, p: Pose)
    requires Correcting(p)
    ensures var t := Tick(s, Some(p));
      && t.emitted == Backup(s).emitted + ServoCommands(p.y)
      && t.next.target == s.target && t.next.done == s.done
      && !t.next.lastDrive
  {
  }

  /** The counter goes up (by exactly one) only on a correction tick that
      follows a forward-drive tick while the target is "tag_2" and no backup
      happened in the same tick; it is reset to 0 only by a backup, and
      otherwise keeps its value. */
  lemma CounterStep(s: ApproachState, p: Pose)
    ensures var c := Tick(s, Some(p)).next.backUpCounter;
      && (c == s.backUpCounter + 1 <==>
            s.backUpCounter <= BackupThreshold && s.lastDrive && s.target == Tag2 && Correcting(p))
      && c == (if s.backUpCounter > BackupThreshold then 0
               else if s.lastDrive && s.target == Tag2 && Correcting(p) then s.backUpCounter + 1
               else s.backUpCounter)
  {
  }

  /** A drive tick emits the forward velocity (after any backup), records the
      drive, and changes the target or finishes exactly on arrival; without
      arrival it emits nothing more and changes nothing else. */
  lemma DriveTick(s: ApproachState, p: Pose)
    requires !s.done && !Correcting(p)
    ensures var t := Tick(s, Some(p));
      var b := Backup(s).emitted;
      && |t.emitted| > |b|
      && t.emitted[..|b| + 1] == b + [Velocity(0.1, 0.0)]
      && t.next.lastDrive
      && (t.next.target != s.target <==> s.target == Goal && Arrived(Goal, p.x))
      && (t.next.done <==> s.target == Tag2 && Arrived(Tag2, p.x))
      && (!Arrived(s.target, p.x) ==>
            t.emitted == b + [Velocity(0.1, 0.0)] && t.next == Backup(s).next.(lastDrive := true))
  {
    var b := Backup(s).emitted;
    var t := Tick(s, Some(p));
    assert t.emitted == b + CorrectOrDrive(Backup(s).next, p).emitted;
  }

  /** Arriving at "goal" changes only the target: the counter and the drive
      flag are the ones the tick had before the arrival test. */
  lemma GoalArrival(s: ApproachState, p: Pose)
    requires s.target == Goal && s.backUpCounter <= BackupThreshold
    requires !Correcting(p) && Arrived(Goal, p.x)
    ensures Tick(s, Some(p)).next == s.(lastDrive := true, target := Tag2)
    ensures Tick(s, Some(p)).emitted == [Velocity(DriveSpeed, 0.0)]
  {
  }

  /** Arriving at "tag_2" emits the forward command followed by exactly the
      pickup sequence, and the loop returns. */
  lemma PickupOnArrival(s: ApproachState, p: Pose)
    requires s.target == Tag2 && !Correcting(p) && Arrived(Tag2, p.x)
    ensures var t := Tick(s, Some(p));
      && t.next.done
      && t.emitted == Backup(s).emitted + [Velocity(0.1, 0.0),
           Behavior(NoConfig, NoBehavior, false), Behavior(Arm, PickUp, true),
           Sleep(5), Behavior(NoConfig, NoBehavior, false)]
  {
  }

  /** Inv is kept by every tick. */
  lemma TickKeepsInv(s: ApproachState, pose: Option<Pose>)
    requires Inv(s) && !s.done
    ensures Inv(Tick(s, pose).next)
    ensures Rank(s.target) <= Rank(Tick(s, pose).next.target)
  {
  }

  // ---------------------------------------------------------------------
  // The whole loop

  lemma {:induction false} RunKeepsInv(s: ApproachState, poses: seq<Option<Pose>>)
    requires Inv(s)
    ensures Inv(Run(s, poses).next)
    decreases |poses|
  {
    if poses != [] && !s.done {
      RunUnfold(s, poses);
      TickKeepsInv(s, poses[0]);
      RunKeepsInv(Tick(s, poses[0]).next, poses[1..]);
    }
  }

  /** Starting from Initial, the counter is between 0 and 4 at every tick
      boundary, and it is 0 for as long as the target is "goal". */
  lemma {:induction false} CounterBound(poses: seq<Option<Pose>>)
    ensures var s := Run(Initial, poses).next;
      && 0 <= s.backUpCounter <= 4
      && (s.target == Goal ==> s.backUpCounter == 0)
  {
    RunKeepsInv(Initial, poses);
  }

  /** The target only moves from "goal" to "tag_2", never back. */
  lemma {:induction false} TargetMonotone(s: ApproachState, poses: seq<Option<Pose>>)
    requires Inv(s)
    ensures Rank(s.target) <= Rank(Run(s, poses).next.target)
    ensures s.target == Tag2 ==> Run(s, poses).next.target == Tag2
    decreases |poses|
  {
    if poses != [] && !s.done {
      RunUnfold(s, poses);
      TickKeepsInv(s, poses[0]);
      TargetMonotone(Tick(s, poses[0]).next, poses[1..]);
    }
  }

  /** Ticks whose lookups all fail change nothing and emit nothing. */
  lemma MissingPosesRun(s: ApproachState, poses: seq<Option<Pose>>)
    requires forall i :: 0 <= i < |poses| ==> poses[i] == None
    ensures Run(s, poses) == Transition(s, [])
  {
    TickLoop.RunMissing(Tick, Returned, s, poses);
  }

  /** A loop that returns has emitted the pickup sequence last. */
  lemma {:induction false} RunEndsWithPickup(s: ApproachState, poses: seq<Option<Pose>>)
    requires !s.done && Run(s, poses).next.done
    ensures var e := Run(s, poses).emitted;
      |e| >= |PickupSequence| && e[|e| - |PickupSequence|..] == PickupSequence
    decreases |poses|
  {
    var t := Tick(s, poses[0]);
    RunUnfold(s, poses);
    if t.next.done {
      DoneRun(t.next, poses[1..]);
      PickupEmitted(s, poses[0]);
    } else {
      RunEndsWithPickup(t.next, poses[1..]);
    }
  }

  /** The tick that finishes the loop ends with the pickup sequence. */
  lemma PickupEmitted(s: ApproachState, pose: Option<Pose>)
    requires !s.done && Tick(s, pose).next.done
    ensures var e := Tick(s, pose).emitted;
      |e| >= |PickupSequence| && e[|e| - |PickupSequence|..] == PickupSequence
  {
    var p := pose.value;
    var b := Backup(s);
    var e := Tick(s, pose).emitted;
    assert e == b.emitted + [Velocity(DriveSpeed, 0.0)] + PickupSequence;
  }

  /** The first iteration of a loop that has not returned. */
  lemma RunUnfold(s: ApproachState, poses: seq<Option<Pose>>)
    requires poses != [] && !s.done
    ensures var t := Tick(s, poses[0]);
      var rest := Run(t.next, poses[1..]);
      Run(s, poses) == Transition(rest.next, t.emitted + rest.emitted)
  {
    TickLoop.RunUnfold(Tick, Returned, s, poses);
  }

  lemma RunAppend(s: ApproachState, a: seq<Option<Pose>>, b: seq<Option<Pose>>)
    ensures var first := Run(s, a);
      var second := Run(first.next, b);
      Run(s, a + b) == Transition(second.next, first.emitted + second.emitted)
  {
    TickLoop.RunAppend(Tick, Returned, s, a, b);
  }

  /** A drive tick that does not arrive, then a correction tick, on the way to
      "tag_2": the counter goes up by one. */
  lemma CorrectionAfterDrive(s: ApproachState, drive: Pose, steer: Pose)
    requires s.target == Tag2 && !s.done && 0 <= s.backUpCounter <= BackupThreshold
    requires !Correcting(drive) && !Arrived(Tag2, drive.x) && Correcting(steer)
    ensures Run(s, [Some(drive), Some(steer)]).next
      == s.(backUpCounter := s.backUpCounter + 1, lastDrive := false)
  {
    var t := Tick(s, Some(drive));
    RunUnfold(s, [Some(drive), Some(steer)]);
    assert [Some(drive), Some(steer)][1..] == [Some(steer)];
    RunUnfold(t.next, [Some(steer)]);
  }

  /** Because arriving at "goal" keeps `_last_drive` set, the first correction
      towards "tag_2" already counts towards a backup; from a freshly reset
      state it would not. */
  lemma FirstCorrectionCounts(p: Pose, q: Pose)
    requires !Correcting(p) && Arrived(Goal, p.x) && Correcting(q)
    ensures Run(Initial, [Some(p), Some(q)]).next.backUpCounter == 1
    ensures Tick(ApproachState(0, false, Tag2, false), Some(q)).next.backUpCounter == 0
  {
    var t := Tick(Initial, Some(p));
    RunUnfold(Initial, [Some(p), Some(q)]);
    assert [Some(p), Some(q)][1..] == [Some(q)];
    RunUnfold(t.next, [Some(q)]);
  }

  /** Four drive-then-correct pairs while approaching "tag_2" bring the
      counter from 0 to 4, and the next tick with a pose starts with the
      backup maneuver. */
  lemma BackupAfterFourCorrections(s: ApproachState, drive: Pose, steer: Pose, next: Pose)
    requires s.target == Tag2 && !s.done && s.backUpCounter == 0
    requires !Correcting(drive) && !Arrived(Tag2, drive.x) && Correcting(steer)
    ensures var pair := [Some(drive), Some(steer)];
      var s4 := Run(s, pair + pair + pair + pair).next;
      && s4.backUpCounter == 4
      && Tick(s4, Some(next)).emitted[..2] == [Velocity(BackupSpeed, 0.0), Sleep(BackupSeconds)]
      && Tick(s4, Some(next)).next.backUpCounter == 0
  {
    var pair := [Some(drive), Some(steer)];
    var s1 := Run(s, pair).next;
    CorrectionAfterDrive(s, drive, steer);
    var s2 := Run(s1, pair).next;
    CorrectionAfterDrive(s1, drive, steer);
    var s3 := Run(s2, pair).next;
    CorrectionAfterDrive(s2, drive, steer);
    CorrectionAfterDrive(s3, drive, steer);
    RunAppend(s, pair, pair);
    RunAppend(s, pair + pair, pair);
    RunAppend(s, pair + pair + pair, pair);
    BackupTick(Run(s, pair + pair + pair + pair).next, next);
  }

  /** Approaching "goal": two correction ticks publish the turn each time
      (the servo itself has no hysteresis), and a centred tick at x = 0
      arrives and switches the target to "tag_2". */
  lemma GoalScenario()
    ensures var left := Some(Pose(0.5, 0.02, 0.0));
      var r := Run(Initial, [left, left, Some(Pose(0.0, 0.0, 0.0))]);
      && r.next == ApproachState(0, true, Tag2, false)
      && r.emitted == [Velocity(0.0, 0.3), Velocity(0.0, 0.3), Velocity(0.1, 0.0)]
  {
    var left := Some(Pose(0.5, 0.02, 0.0));
    var centred := Some(Pose(0.0, 0.0, 0.0));
    var s1 := Tick(Initial, left).next;
    var s2 := Tick(s1, left).next;
    RunUnfold(Initial, [left, left, centred]);
    assert [left, left, centred][1..] == [left, centred];
    RunUnfold(s1, [left, centred]);
    assert [left, centred][1..] == [centred];
    RunUnfold(s2, [centred]);
  }

  /** A loop that has returned runs no further tick. */
  lemma DoneRun(s: ApproachState, poses: seq<Option<Pose>>)
    requires s.done
    ensures Run(s, poses) == Transition(s, [])
  {
    TickLoop.RunHalted(Tick, Returned, s, poses);
  }

  /** Two arrival examples: 0.035 reaches "tag_2", 0.05 does not. */
  lemma ArrivalExamples()
    ensures Arrived(Tag2, 0.035) && !Arrived(Tag2, 0.05)
  {
  }

  // ---------------------------------------------------------------------
  // The loop as imperative code

  /** The locals of main's loop, with the commands sent so far. */
  class ApproachLoop {
    var backUpCounter: int
    var lastDrive: bool
    var target: Target
    var done: bool
    var trace: seq<Command>

    function State(): ApproachState
      reads this
    {
      ApproachState(backUpCounter, lastDrive, target, done)
    }

    ghost predicate Valid()
      reads this
    {
      Inv(State())
    }

    /** The set-up before the loop: configure the arm for driving and
        initialise the locals. */
    constructor ()
      ensures Valid() && State() == Initial
      ensures trace == [DriveConfig]
    {
      trace := [Behavior(Arm, Drive, false)];
      backUpCounter := 0;
      lastDrive := false;
      target := Goal;
      done := false;
    }

    /** doVisualServo: publish the turn-in-place command for offset y, if
        any; the longitudinal offset x plays no part. */
    method DoVisualServo(x: real, y: real)
      modifies this`trace
      ensures trace == old(trace) + ServoCommands(y)
    {
      if y > 0.01 {
        trace := trace + [Velocity(0.0, 0.3)];
      } else if y < -0.01 {
        trace := trace + [Velocity(0.0, -0.3)];
      }
    }

    /** One iteration of the loop body, for the result of one lookup. */
    method Step(pose: Option<Pose>)
      requires Valid() && !done
      modifies this
      ensures Valid()
      ensures State() == Tick(old(State()), pose).next
      ensures trace == old(trace) + Tick(old(State()), pose).emitted
    {
      TickKeepsInv(State(), pose);
      if pose.None? {
        return;
      }
      var p := pose.value;
      if backUpCounter > 3 {
        lastDrive := false;
        trace := trace + [Velocity(-0.1, 0.0)];
        trace := trace + [Sleep(3)];
        backUpCounter := 0;
      }
      if p.y > 0.01 || p.y < -0.01 {
        if lastDrive {
          lastDrive := false;
          if target == Tag2 {
            backUpCounter := backUpCounter + 1;
          }
        }
        DoVisualServo(p.x, p.y);
      } else {
        lastDrive := true;
        trace := trace + [Velocity(0.1, 0.0)];
        var dist, tol;
        if target == Goal {
          dist, tol := 0.0, 0.20;
        } else {
          dist, tol := 0.03, 0.01;
        }
        if Abs(p.x - dist) < tol {
          if target == Goal {
            target := Tag2;
          } else {
            trace := trace + [Behavior(NoConfig, NoBehavior, false)];
            trace := trace + [Behavior(Arm, PickUp, true)];
            trace := trace + [Sleep(5)];
            trace := trace + [Behavior(NoConfig, NoBehavior, false)];
            done := true;
          }
        }
      }
    }

    /** The loop itself, fed one lookup result per tick until the lookups
        run out (shutdown) or the pickup has been done. */
    method RunLoop(poses: seq<Option<Pose>>)
      requires Valid()
      modifies this
      ensures Valid()
      ensures State() == Run(old(State()), poses).next
      ensures trace == old(trace) + Run(old(State()), poses).emitted
    {
      ghost var whole := Run(State(), poses);
      ghost var trace0 := trace;
      var rest := poses;
      while rest != [] && !done
        invariant Valid()
        invariant whole.next == Run(State(), rest).next
        invariant trace0 + whole.emitted == trace + Run(State(), rest).emitted
        decreases |rest|
      {
        ghost var t := Tick(State(), rest[0]);
        ghost var after := Run(t.next, rest[1..]);
        assert Run(State(), rest) == Transition(after.next, t.emitted + after.emitted) by {
          RunUnfold(State(), rest);
        }
        Step(rest[0]);
        assert trace0 + whole.emitted == trace + after.emitted;
        rest := rest[1..];
      }
    }
  }
}
