/** Values shared by the three control loops of the block controller: the
    pose a lookup may deliver, the commands the controller emits, and the
    fixed constants the loops compare against. */
module Commands {

  datatype Option<+T> = None | Some(value: T)

  /** A relative pose of a marker frame, with the heading already extracted
      from the transform's quaternion. */
  datatype Pose = Pose(x: real, y: real, theta: real)

  /** The configurations the controller names in a set-behavior call. */
  datatype Subsystem = NoConfig | Arm | ShortSnake

  /** The behaviors the controller names in a set-behavior call. */
  datatype BehaviorName =
    | NoBehavior | Drive | PickUp | Stop | OpenDrawer
    | SpinCW | SpinCCW | AdjustHeadTiltDown | AdjustHeadTiltUp

  /** The configuration name as sent to the service. */
  function SubsystemName(c: Subsystem): string {
    match c
    case NoConfig => ""
    case Arm => "Arm"
    case ShortSnake => "ShortSnake"
  }

  /** The behavior name as sent to the service. */
  function BehaviorString(b: BehaviorName): string {
    match b
    case NoBehavior => ""
    case Drive => "drive"
    case PickUp => "pickUp"
    case Stop => "stop"
    case OpenDrawer => "openDrawer"
    case SpinCW => "spinCW"
    case SpinCCW => "spinCCW"
    case AdjustHeadTiltDown => "adjustHeadTiltDOWN"
    case AdjustHeadTiltUp => "adjustHeadTiltUP"
  }

  /** One observable effect of the controller, in the order it happens.
      Velocity is a drive command (linear.x, angular.z of a Twist);
      Behavior is a call of the set-behavior service; Sleep is a fixed
      blocking wait; Exit is the process exit after the drawer opens. */
  datatype Command =
    | Velocity(linear: real, angular: real)
    | Behavior(subsystem: Subsystem, name: BehaviorName, isAction: bool)
    | Sleep(seconds: nat)
    | Exit

  /** The new state of a loop after one tick, and what the tick emitted. */
  datatype Transition<S> = Transition(next: S, emitted: seq<Command>)

  function Abs(r: real): (a: real)
    ensures a >= 0.0 && (a == r || a == -r)
  {
    if r < 0.0 then -r else r
  }

  /** np.pi / 2 as an IEEE double: the exact value of the nearest double
      to the true half turn. */
  const HalfPi: real := 1.5707963267948965579989817342720925807952880859375

  /** Lateral deadband of the approach loop and the visual servo. */
  const ServoDeadband: real := 0.01
  /** Angular speed of a visual-servo turn in place. */
  const ServoTurnRate: real := 0.3
  /** Forward speed of a drive tick. */
  const DriveSpeed: real := 0.1
  /** Linear speed of the backup maneuver. */
  const BackupSpeed: real := -0.1
  /** Duration of the backup maneuver. */
  const BackupSeconds: nat := 3
  /** The counter value above which a backup is performed. */
  const BackupThreshold: int := 3
  /** Wait after the pickup behavior. */
  const SettleSeconds: nat := 5
  /** Heading tolerance of the alignment and head-tilt stages. */
  const HeadingTolerance: real := 0.01

  /** Distinct names go out as distinct strings, so naming behaviors by
      constructor loses nothing the service could tell apart. */
  lemma WireNamesDistinct(a: BehaviorName, b: BehaviorName, c: Subsystem, d: Subsystem)
    ensures BehaviorString(a) == BehaviorString(b) ==> a == b
    ensures SubsystemName(c) == SubsystemName(d) ==> c == d
  {
  }

  lemma HalfPiBounds()
    ensures 1.5707 < HalfPi < 1.5708
  {
  }
}
