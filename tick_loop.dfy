/** The shape shared by the controller's loops: every tick one pose lookup
    is made and one loop body runs on its result, until shutdown (here: the
    lookups run out) or until the body has left the loop. */
module TickLoop {
  import opened Commands

  /** The loop with body `tick`, which stops once `halted` holds. */
  function Run<S>(tick: (S, Option<Pose>) -> Transition<S>, halted: S -> bool,
                  s: S, poses: seq<Option<Pose>>): Transition<S>
    decreases |poses|
  {
    if poses == [] || halted(s) then Transition(s, [])
    else
      var t := tick(s, poses[0]);
      var rest := Run(tick, halted, t.next, poses[1..]);
      Transition(rest.next, t.emitted + rest.emitted)
  }

  /** The first iteration of a loop that has not stopped. */
  lemma RunUnfold<S>(tick: (S, Option<Pose>) -> Transition<S>, halted: S -> bool,
                     s: S, poses: seq<Option<Pose>>)
    requires poses != [] && !halted(s)
    ensures var t := tick(s, poses[0]);
      var rest := Run(tick, halted, t.next, poses[1..]);
      Run(tick, halted, s, poses) == Transition(rest.next, t.emitted + rest.emitted)
  {
  }

  /** A loop that has stopped runs no further tick. */
  lemma RunHalted<S>(tick: (S, Option<Pose>) -> Transition<S>, halted: S -> bool,
                     s: S, poses: seq<Option<Pose>>)
    requires halted(s)
    ensures Run(tick, halted, s, poses) == Transition(s, [])
  {
  }

  /** Running the loop over two stretches of lookups is running it over
      their concatenation. */
  lemma {:induction false} RunAppend<S>(tick: (S, Option<Pose>) -> Transition<S>, halted: S -> bool,
                                        s: S, a: seq<Option<Pose>>, b: seq<Option<Pose>>)
    ensures var first := Run(tick, halted, s, a);
      var second := Run(tick, halted, first.next, b);
      Run(tick, halted, s, a + b) == Transition(second.next, first.emitted + second.emitted)
    decreases |a|
  {
    if a == [] {
      assert a + b == b;
    } else if !halted(s) {
      var t := tick(s, a[0]);
      assert (a + b)[0] == a[0] && (a + b)[1..] == a[1..] + b;
      RunAppend(tick, halted, t.next, a[1..], b);
      var mid := Run(tick, halted, t.next, a[1..]);
      var second := Run(tick, halted, mid.next, b);
      assert t.emitted + (mid.emitted + second.emitted) == (t.emitted + mid.emitted) + second.emitted;
    }
  }

  /** If every tick on which nothing is found changes nothing and emits
      nothing, a stretch of failed lookups does the same. */
  lemma {:induction false} RunMissing<S>(tick: (S, Option<Pose>) -> Transition<S>, halted: S -> bool,
                                         s: S, poses: seq<Option<Pose>>)
    requires tick(s, None) == Transition(s, [])
    requires forall i :: 0 <= i < |poses| ==> poses[i] == None
    ensures Run(tick, halted, s, poses) == Transition(s, [])
    decreases |poses|
  {
    if poses != [] && !halted(s) {
      RunMissing(tick, halted, s, poses[1..]);
    }
  }
}
