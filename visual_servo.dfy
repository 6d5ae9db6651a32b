/** The lateral correction of the approach loop: a three-way decision on the
    lateral offset with a deadband, turned into at most one turn-in-place
    velocity command. */
module VisualServo {
  import opened Commands

  /** What doVisualServo publishes for lateral offset y: nothing inside the
      deadband, otherwise one pure rotation towards the offset (positive
      angular velocity turns left, for y above the band). */
  function ServoCommands(y: real): (cmds: seq<Command>)
    ensures |cmds| <= 1
    ensures cmds == [] <==> -ServoDeadband <= y <= ServoDeadband
    ensures forall i :: 0 <= i < |cmds| ==>
      cmds[i].Velocity? && cmds[i].linear == 0.0 &&
      Abs(cmds[i].angular) == ServoTurnRate &&
      (cmds[i].angular > 0.0 <==> y > 0.0)
  {
    if y > ServoDeadband then [Velocity(0.0, ServoTurnRate)]
    else if y < -ServoDeadband then [Velocity(0.0, -ServoTurnRate)]
    else []
  }

  /** The same command with the direction of rotation reversed. */
  function Mirror(c: Command): Command {
    if c.Velocity? then Velocity(c.linear, -c.angular) else c
  }

  /** The servo is symmetric: an offset of -y steers exactly opposite to y. */
  lemma ServoMirror(y: real)
    ensures |ServoCommands(-y)| == |ServoCommands(y)|
    ensures forall i :: 0 <= i < |ServoCommands(y)| ==>
      ServoCommands(-y)[i] == Mirror(ServoCommands(y)[i])
  {
  }
}
