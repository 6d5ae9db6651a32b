# BlockController decision logic, modelled in Dafny

This project models the decision logic of `BlockController` in the smores_ros
robot controller. The controller drives a modular robot towards fiducial
markers. Each control tick it looks up one marker pose, which may be missing.
From that pose it issues discrete commands: drive velocities, calls to the
remote set-behavior service, and fixed waits. Between ticks it keeps a little
state.

Modelled parts:

- **Approach loop** (`main`), in `approach.dfy`. The robot drives to `"goal"`
  and then to `"tag_2"`. It steers with the visual servo whenever the lateral
  offset leaves the ±0.01 deadband. It backs up once the correction counter
  `back_up_counter` exceeds 3. When it arrives at `"tag_2"` it runs the pickup
  and returns.
- **Visual servo** (`doVisualServo`), in `visual_servo.dfy`. This is the
  three-way turn-in-place decision on the lateral offset.
- **Alignment and head-tilt stages** (`adjustAlignment`, `adjustHeadTilt`), in
  `alignment.dfy`. These are bang-bang spin and tilt controls with direction
  hysteresis: a behavior is issued only when the needed direction changes.
  Alignment ends with `stop` and enters the tilt stage. The tilt stage ends
  with `stop`, `openDrawer` and the process exit.
- **The tick loop structure** both loops share, in `tick_loop.dfy`: one lookup
  and one body per tick, stopping when shutdown comes or the body leaves the
  loop.
- **Shared types and constants**, in `commands.dfy`.

Each loop is modelled twice, and the two are proved to agree:

- A pure `Tick` function. It maps the loop state and the lookup result
  (`Option<Pose>`) to the new state plus the commands emitted that tick.
- `Run`, which folds `Tick` over the lookups of successive ticks.
- A class with the loop's local variables and a `trace: seq<Command>` of
  everything sent so far. Its `Step` methods are written imperatively, like
  the Python loop bodies. Each is proved to produce exactly `Tick`'s new state
  and to append exactly `Tick`'s commands. `RunLoop` is the `while` loop, proved
  equal to `Run`.

The multi-tick properties are lemmas about `Run`:

- counter bounds;
- target monotonicity;
- no repeated steering command;
- the exact command order on termination;
- missing poses never change anything.

Modelling decisions:

- Every command goes into the trace as a value of
  `Command = Velocity(linear, angular) | Behavior(subsystem, name, isAction) | Sleep(seconds) | Exit`.
- Subsystem names and behavior names are the fixed string literals of the
  source. They are modelled as enumerations. `SubsystemName` and
  `BehaviorString` give the literal that goes on the wire. `WireNamesDistinct`
  shows that distinct constructors map to distinct literals.
- `np.pi/2` is `HalfPi`. Its value is the exact value of the IEEE double that
  `np.pi/2` evaluates to. The general lemmas use nothing about it. The one
  worked example (θ = 1.58) uses only its bounds, `HalfPiBounds`.
- Shutdown (`rospy.is_shutdown()`) is the end of the finite sequence of lookup
  results given to `Run` / `RunLoop`.
- `sys.exit(0)` becomes an `Exit` entry plus the `Finished` stage. The `return`
  after the pickup becomes the `done` flag.
- `adjustAlignment` and `adjustHeadTilt` each have their own local
  `_last_direction`. They are modelled as `lastSpin` and `lastTilt`, both of
  option type, where `None` stands for the empty string. `lastTilt` is reset to
  `None` when the tilt stage is entered, as the source's new local is.

In three places the code does not do what the controller's intended
design asks. Each note below gives the intended behaviour and then what the
code does. The model follows the code:

- **The servo has no hysteresis.** Intended: when a second tick in a row
  has the same lateral offset (say `y = 0.02`), it issues no new command.
  Code: the turn is published on every correction tick, so the two ticks
  publish two identical commands. `GoalScenario` proves the code's
  behaviour.
- **Arriving at `"goal"` resets nothing.** Intended: the approach state
  (counter and last-drive flag) is reset when the target changes. Code:
  only the target changes; `back_up_counter` and `_last_drive` keep their
  values (`GoalArrival`). The counter needs no reset, because it is always 0
  while the target is `"goal"` (`CounterBound`). The flag does matter. It is
  always set on arrival, so the first correction towards `"tag_2"` already
  raises the counter to 1; after a reset it would stay 0
  (`FirstCorrectionCounts`).
- **A backup tick goes on with the same pose.** Intended: each tick makes
  at most one discrete decision and emits at most one command. Code: a
  backup tick emits the backup velocity and its wait. It then goes on to
  correct or drive on the same pose, and emits that command as well, in the
  same tick (`BackupTick`).

## Model

| member | source | states |
|---|---|---|
| `VisualServo.ServoCommands` | src/smores_ros/block_controller.py:266-277 | Emits at most one command. It emits nothing exactly when -0.01 ≤ y ≤ 0.01. Otherwise it emits one pure rotation: linear 0, angular magnitude 0.3, angular positive exactly when y is positive. |
| `VisualServo.ServoMirror` | src/smores_ros/block_controller.py:266-277 | The servo is symmetric: offset -y emits the same commands as y with the angular velocity negated. |
| `Approach.MissingPoseTick` | src/smores_ros/block_controller.py:201-205 | A failed lookup leaves the counter, `_last_drive`, the target and `done` unchanged, and emits nothing. |
| `Approach.MissingPosesRun` | src/smores_ros/block_controller.py:199-205 | Any number of failed lookups in a row leave the whole state unchanged and emit nothing. |
| `Approach.ArrivalWindow` | src/smores_ros/block_controller.py:231-237 | Arrival is a strict open interval. `"goal"` is reached iff -0.20 < x < 0.20. `"tag_2"` is reached iff 0.02 < x < 0.04. |
| `Approach.ArrivalExamples` | src/smores_ros/block_controller.py:234-237 | x = 0.035 reaches `"tag_2"`; x = 0.05 does not. |
| `Approach.BackupTick` | src/smores_ros/block_controller.py:210-224 | A tick whose counter is above 3 first emits `Velocity(-0.1, 0)` and `Sleep(3)`, with `_last_drive` false and the counter 0. It then handles the same pose from that reset state. The counter is 0 at the end of the tick, and `_last_drive` is true only if the pose was centred. |
| `Approach.CorrectionTick` | src/smores_ros/block_controller.py:219-224 | A tick with \|y\| > 0.01 emits any backup commands, then the servo's command. It leaves target and `done` unchanged (no arrival check) and ends with `_last_drive` false. |
| `Approach.CounterStep` | src/smores_ros/block_controller.py:210-224 | The counter rises by exactly 1 iff all of these hold: no backup this tick, `_last_drive` was true, the target is `"tag_2"`, and the tick corrects. It is reset to 0 exactly when the tick backs up (counter above 3). Otherwise it keeps its value. |
| `Approach.DriveTick` | src/smores_ros/block_controller.py:225-237 | A centred tick emits any backup commands and then `Velocity(0.1, 0)`, and sets `_last_drive`. The target changes iff the robot arrives at `"goal"`. The loop finishes iff it arrives at `"tag_2"`. A centred tick that does not arrive emits nothing beyond the forward command, and changes nothing but `_last_drive` (and the backup reset). |
| `Approach.GoalArrival` | src/smores_ros/block_controller.py:237-239 | Arriving at `"goal"` emits only the forward command. It changes only the target (and sets `_last_drive`); the counter is not reset. |
| `Approach.PickupOnArrival` | src/smores_ros/block_controller.py:237-246 | Arriving at `"tag_2"` emits any backup commands, then the forward command, then exactly `Behavior("","",False)`, `Behavior("Arm","pickUp",True)`, `Sleep(5)`, `Behavior("","",False)`, and the loop returns. |
| `Approach.PickupEmitted` | src/smores_ros/block_controller.py:240-246 | The tick that ends the loop ends with the pickup sequence. |
| `Approach.TickKeepsInv` | src/smores_ros/block_controller.py:196-246 | Each tick keeps three facts and never moves the target backwards. The facts: 0 ≤ counter ≤ 4; counter = 0 while the target is `"goal"`; returned only after `"tag_2"`. |
| `Approach.RunKeepsInv` | src/smores_ros/block_controller.py:196-246 | The same three facts hold after any number of ticks. |
| `Approach.CounterBound` | src/smores_ros/block_controller.py:196-224 | Starting from the initial state, at every tick boundary 0 ≤ `back_up_counter` ≤ 4, and the counter is 0 while the target is `"goal"`. |
| `Approach.TargetMonotone` | src/smores_ros/block_controller.py:198-239 | The target moves only from `"goal"` to `"tag_2"`, never back. |
| `Approach.RunEndsWithPickup` | src/smores_ros/block_controller.py:240-246 | A loop that returns has emitted the four pickup commands last. |
| `Approach.RunAppend` | src/smores_ros/block_controller.py:199-200 | Running the loop over two stretches of ticks equals running it over their concatenation. |
| `Approach.CorrectionAfterDrive` | src/smores_ros/block_controller.py:219-230 | On the way to `"tag_2"`, a drive tick that does not arrive, followed by a correction tick, raises the counter by one and clears `_last_drive`. |
| `Approach.FirstCorrectionCounts` | src/smores_ros/block_controller.py:219-239 | Arriving at `"goal"` on a centred tick from the start, then correcting, leaves the counter at 1. The same correction from a reset `"tag_2"` state (flag cleared) leaves it at 0. |
| `Approach.BackupAfterFourCorrections` | src/smores_ros/block_controller.py:210-230 | Four drive-then-correct pairs towards `"tag_2"` bring the counter from 0 to 4. The next tick with a pose starts with the backup commands and resets the counter. |
| `Approach.GoalScenario` | src/smores_ros/block_controller.py:219-239 | From the start, two ticks at y = 0.02 each publish `Velocity(0, 0.3)`. A centred tick at x = 0 then publishes `Velocity(0.1, 0)` and switches the target to `"tag_2"`, with the counter still 0. |
| `Approach.DoneRun` | src/smores_ros/block_controller.py:246 | Once the loop has returned, no further tick runs or emits. |
| `Approach.ApproachLoop.constructor` | src/smores_ros/block_controller.py:194-198 | The loop is preceded by `Behavior("Arm","drive",False)`. It starts with counter 0, `_last_drive` false and target `"goal"`. |
| `Approach.ApproachLoop.DoVisualServo` | src/smores_ros/block_controller.py:266-277 | Appends exactly the servo's commands for y to the trace. |
| `Approach.ApproachLoop.Step` | src/smores_ros/block_controller.py:199-246 | The imperative loop body produces exactly the state and the appended commands of `Tick`, and keeps the invariant. |
| `Approach.ApproachLoop.RunLoop` | src/smores_ros/block_controller.py:199-246 | The `while` loop produces exactly the state and the commands of `Run`. |
| `Alignment.SpinBands` | src/smores_ros/block_controller.py:89-102 | When not aligned, the spin is clockwise iff \|θ\| ≥ π/2 + 0.01, and counter-clockwise iff \|θ\| ≤ π/2 - 0.01. The sign of θ does not matter. |
| `Alignment.TiltBands` | src/smores_ros/block_controller.py:123-138 | When not level, the tilt is down iff θ ≥ 0.01 and up iff θ ≤ -0.01. |
| `Alignment.MissingPoseTick` | src/smores_ros/block_controller.py:74-78 | A failed lookup changes neither `_last_direction` nor the stage, and emits nothing. |
| `Alignment.MissingPosesRun` | src/smores_ros/block_controller.py:108-112 | Any number of failed lookups in a row change nothing and emit nothing. |
| `Alignment.SpinHysteresis` | src/smores_ros/block_controller.py:88-102 | When not aligned, `spinCW`/`spinCCW` is issued iff the needed direction differs from `_last_direction`. When it is issued, exactly that one command is emitted and `_last_direction` becomes the needed direction. When it is not, the state is unchanged. |
| `Alignment.AlignedTick` | src/smores_ros/block_controller.py:83-86 | When \|\|θ\| - π/2\| < 0.01, exactly `Behavior("ShortSnake","stop",True)` is emitted. Control moves to the tilt stage with its `_last_direction` empty. |
| `Alignment.AlignedExample` | src/smores_ros/block_controller.py:83-86 | θ = 1.58 counts as aligned: `stop` is emitted and the tilt stage begins. |
| `Alignment.TiltHysteresis` | src/smores_ros/block_controller.py:123-138 | When not level, `adjustHeadTiltDOWN`/`adjustHeadTiltUP` is issued iff the needed direction differs from `_last_direction`, with the same effect on the state as for spins. |
| `Alignment.LevelTick` | src/smores_ros/block_controller.py:117-122 | When \|θ\| < 0.01, exactly `stop`, `openDrawer` (both `ShortSnake`, `isAction` true) and the exit are emitted, in that order. |
| `Alignment.TickCoupled` | src/smores_ros/block_controller.py:88-138 | After every tick, a spin or tilt command that ends the trace is the one the current stage's `_last_direction` remembers. |
| `Alignment.TickChatterFree` | src/smores_ros/block_controller.py:88-138 | If the trace is coupled to the state (its last steering command is the one the current stage's `_last_direction` remembers) and has no immediate repeat, then one more tick keeps it free of immediate repeats. |
| `Alignment.RunCoupled` | src/smores_ros/block_controller.py:70-138 | The trace-to-state coupling above holds after any number of ticks. |
| `Alignment.RunChatterFree` | src/smores_ros/block_controller.py:70-138 | If the trace is coupled to the state and has no immediate repeat of a steering command, it still has none after any number of ticks. |
| `Alignment.NoChatter` | src/smores_ros/block_controller.py:70-138 | Starting from the entry to `adjustAlignment`, whatever the heading readings: no spin or tilt behavior is ever issued twice in a row. |
| `Alignment.StageMonotone` | src/smores_ros/block_controller.py:83-122 | The stages only move forward: aligning, then tilting, then finished. |
| `Alignment.RunEndsWithFinale` | src/smores_ros/block_controller.py:117-122 | A run that finishes has emitted `stop`, `openDrawer`, exit last. |
| `Alignment.AlignmentLoop.constructor` | src/smores_ros/block_controller.py:70-71 | The loop starts aligning with no direction issued and nothing sent. |
| `Alignment.AlignmentLoop.AlignmentStep` | src/smores_ros/block_controller.py:72-102 | The imperative body of `adjustAlignment`'s loop produces exactly `Tick`'s state and commands, and keeps the no-repeat invariant. |
| `Alignment.AlignmentLoop.HeadTiltStep` | src/smores_ros/block_controller.py:106-138 | The imperative body of `adjustHeadTilt`'s loop produces exactly `Tick`'s state and commands, and keeps the no-repeat invariant. |
| `Alignment.AlignmentLoop.RunLoop` | src/smores_ros/block_controller.py:70-138 | The nested `while` loops produce exactly the state and commands of `Run`. |
| `Approach.Correcting` | src/smores_ros/block_controller.py:219 | The lateral test \|y\| > 0.01. Stated through `CorrectionTick`, `DriveTick` and `CounterStep`; it is the servo's deadband complement (`VisualServo.ServoCommands`). |
| `Approach.Arrived` | src/smores_ros/block_controller.py:231-237 | The arrival test per target, stated as strict intervals by `ArrivalWindow` and `ArrivalExamples`. |
| `Approach.Backup` | src/smores_ros/block_controller.py:210-217 | Backup maneuver when the counter exceeds 3, stated by `BackupTick` and `CounterStep`. |
| `Approach.CorrectOrDrive` | src/smores_ros/block_controller.py:219-246 | Correct-or-drive branch of the loop body, stated by `CorrectionTick`, `DriveTick`, `GoalArrival`, `PickupOnArrival` and `CounterStep`. |
| `Approach.Tick` | src/smores_ros/block_controller.py:199-246 | One iteration of `main`'s loop, stated by `MissingPoseTick`, `BackupTick`, `CorrectionTick`, `CounterStep`, `DriveTick`, `GoalArrival`, `PickupOnArrival`, `PickupEmitted` and `TickKeepsInv`; `ApproachLoop.Step` is proved equal to it. |
| `Approach.Run` | src/smores_ros/block_controller.py:199-246 | The whole loop from a state over the lookups until shutdown or return, stated by `RunKeepsInv`, `CounterBound`, `TargetMonotone`, `RunEndsWithPickup`, `MissingPosesRun`, `RunAppend` and `DoneRun`; `ApproachLoop.RunLoop` is proved equal to it. |
| `Alignment.IsAligned` | src/smores_ros/block_controller.py:83 | The alignment test \|\|θ\| - π/2\| < 0.01, stated through `AlignedTick`, `SpinBands` and `AlignedExample`. |
| `Alignment.RequiredSpin` | src/smores_ros/block_controller.py:89 | The spin direction, characterised by `SpinBands`. |
| `Alignment.IsLevel` | src/smores_ros/block_controller.py:117 | The level test \|θ\| < 0.01, stated through `LevelTick` and `TiltBands`. |
| `Alignment.RequiredTilt` | src/smores_ros/block_controller.py:125 | The tilt direction, characterised by `TiltBands`. |
| `Alignment.AlignTick` | src/smores_ros/block_controller.py:74-102 | One iteration of `adjustAlignment`'s loop, stated by `AlignedTick`, `SpinHysteresis` and `MissingPoseTick`. |
| `Alignment.TiltTick` | src/smores_ros/block_controller.py:108-138 | One iteration of `adjustHeadTilt`'s loop, stated by `LevelTick`, `TiltHysteresis` and `MissingPoseTick`. |
| `Alignment.Tick` | src/smores_ros/block_controller.py:72-138 | The iteration of whichever stage is active (nothing once finished), stated by `TickCoupled`, `TickChatterFree` and the per-stage lemmas; `AlignmentLoop.AlignmentStep` and `HeadTiltStep` are proved equal to it. |
| `Alignment.Run` | src/smores_ros/block_controller.py:70-138 | Both stages run over the lookups until shutdown or exit, stated by `NoChatter`, `RunCoupled`, `RunChatterFree`, `StageMonotone`, `RunEndsWithFinale` and `MissingPosesRun`; `AlignmentLoop.RunLoop` is proved equal to it. |
| `TickLoop.Run` | src/smores_ros/block_controller.py:199-200 | The generic tick loop, stated by `TickLoop.RunUnfold`, `RunHalted`, `RunAppend` and `RunMissing`. |
| `TickLoop.RunAppend` | src/smores_ros/block_controller.py:199-205 | For any loop body, running over two stretches of lookups equals running over their concatenation. |
| `TickLoop.RunMissing` | src/smores_ros/block_controller.py:199-205 | For any loop body that ignores a failed lookup, a stretch of failed lookups changes nothing and emits nothing. |
| `TickLoop.RunHalted` | src/smores_ros/block_controller.py:246 | A loop that has left runs no further body. |
| `Commands.WireNamesDistinct` | src/smores_ros/block_controller.py:257-264 | Distinct subsystems and distinct behavior names have distinct strings, so modelling them as enumerations loses nothing. |
| `Commands.HalfPiBounds` | src/smores_ros/block_controller.py:83 | 1.5707 < π/2 < 1.5708. |

## Left out

- Parameter loading and startup (`_getROSParam`, `_initialize`, lines 26-55) are left out, and so is the early return on shutdown and the test-mode branch of `main` (lines 141-145). These are configuration and process plumbing.
- The tf lookup is left out, along with `euler_from_quaternion` and which Euler component each loop reads (lines 67, 80, 114, 207, 248-255). The lookup is a foreign library and the conversion is floating-point trigonometry. Each tick's lookup is an `Option<Pose>` input whose heading is already extracted. Both ways `getTagPosition` can yield `None` (exception, shutdown) become `None`. The heading is left unconstrained, which allows every reading the real lookup can give, and more. One quirk follows from the frames, by reading alone. Every lookup is taken relative to `"tag_5"` (line 252), and `adjustHeadTilt` looks up `first_tag`, which is also `"tag_5"` (lines 41, 109). So a successful lookup there is the identity transform with θ = 0. The program as configured therefore finishes the tilt stage on its first successful tick, and its tilt hysteresis is never reached.
- The service proxy and the velocity publisher (lines 257-264, 215, 230, 272, 276) are network calls. Each call is one trace entry. The returned service status is never inspected by the source, and a failed call only logs, so neither is modelled.
- Timing is left out: the 10 Hz `rate.sleep`, and what `time.sleep` actually does. The fixed waits are `Sleep(3)` and `Sleep(5)` trace entries. Shutdown is the end of the lookup sequence.
- `_test_apriltags` (lines 57-68) is left out: it only logs.
- The commented-out mission script (lines 147-192) is dead code. Because of it `adjustAlignment` is unreachable from `main`; its loops are modelled on their own.
- Logging is left out throughout.
- Machine floats are left out. Poses and constants are exact reals, so the model does not capture rounding in `abs(abs(theta) - np.pi/2)` and in the other comparisons.
