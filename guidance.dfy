/** The two on-board markers that judge the current chain: OPTIMAL (is the
    static optimum still attainable?) and POSSIBLE / NOT POSSIBLE (can the
    goal still be reached within the move limit?). */
module Guidance {
  import opened Optional
  import opened Hexagram
  import opened Reach
  import opened Economy

  /** `optimal_still_possible`: the moves made plus the live distance from
      the tip add up to the static optimum. */
  predicate OptimalStillPossible(moves: int, live: Option<nat>, staticOpt: Option<nat>) {
    live.Some? && staticOpt.Some? && moves + live.value == staticOpt.value
  }

  /** `remaining`: the moves still allowed this round. */
  function Remaining(moves: int): (r: nat)
    ensures moves >= 0 ==> r <= TransformationLimit
    ensures moves <= TransformationLimit ==> moves + r == TransformationLimit
    ensures moves >= TransformationLimit ==> r == 0
  {
    if TransformationLimit - moves >= 0 then TransformationLimit - moves else 0
  }

  /** `impossible`: no live path, or a live path longer than the moves left. */
  predicate NotPossible(moves: int, live: Option<nat>) {
    live.None? || live.value > Remaining(moves)
  }

  /** `optimal_broken`: the OPTIMAL marker is drawn (a started round with a
      goal and a static optimum, and no popup) and the optimum can no longer
      be met. */
  predicate OptimalBroken(started: bool, hasGoal: bool, popup: bool, moves: int, live: Option<nat>, staticOpt: Option<nat>) {
    started && hasGoal && staticOpt.Some? && !popup && !OptimalStillPossible(moves, live, staticOpt)
  }

  /** The NOT POSSIBLE label is drawn: the marker's guard holds, the OPTIMAL
      marker is broken, and the `impossible` test holds. */
  predicate ShowsNotPossible(started: bool, hasGoal: bool, popup: bool, moves: int, live: Option<nat>, staticOpt: Option<nat>) {
    started && hasGoal && !popup && OptimalBroken(started, hasGoal, popup, moves, live, staticOpt) && NotPossible(moves, live)
  }

  /** A chain of `moves` steps from `start` followed by a shortest path from
      its tip can never beat the shortest path from `start`. */
  lemma ChainNeverBeatsOptimal(step: Stepper, start: Code, tip: Code, goal: Code, A: set<OpIndex>,
                               moves: nat, opt: nat, live: nat)
    requires IsDistance(step, start, goal, A, opt)
    requires tip in Layer(step, start, A, moves)
    requires IsDistance(step, tip, goal, A, live)
    ensures opt <= moves + live
  {
    LayerConcat(step, start, tip, goal, A, moves, live);
    assert goal in Layer(step, start, A, moves + live);
  }

  /** The OPTIMAL marker stays lit exactly while the goal can be reached from
      the tip in the moves the optimum has left. */
  lemma OptimalStillPossibleIffOnTrack(step: Stepper, start: Code, tip: Code, goal: Code, A: set<OpIndex>,
                                       moves: nat, opt: nat, live: Option<nat>)
    requires IsDistance(step, start, goal, A, opt)
    requires tip in Layer(step, start, A, moves)
    requires IsShortest(step, tip, goal, A, live)
    ensures OptimalStillPossible(moves, live, Some(opt)) <==>
              moves <= opt && goal in Layer(step, tip, A, opt - moves)
  {
    if moves <= opt && goal in Layer(step, tip, A, opt - moves) {
      match live
      case None =>
      case Some(l) =>
        ChainNeverBeatsOptimal(step, start, tip, goal, A, moves, opt, l);
    }
  }

  /** The `impossible` test holds exactly when no path of at most the
      remaining number of moves leads from the tip to the goal. */
  lemma NotPossibleIffOutOfReach(step: Stepper, tip: Code, goal: Code, A: set<OpIndex>, moves: int, live: Option<nat>)
    requires IsShortest(step, tip, goal, A, live)
    ensures NotPossible(moves, live) <==>
              forall m: nat :: m <= Remaining(moves) ==> goal !in Layer(step, tip, A, m)
  {
    match live
    case None =>
    case Some(l) =>
      if !NotPossible(moves, live) {
        assert goal in Layer(step, tip, A, l);
      }
  }

  /** When NOT POSSIBLE is drawn for a round with a goal.  Without a static
      optimum it never is, even when the goal is out of reach.  With a static
      optimum within the move limit it is drawn, in a started round without
      a popup, exactly when no path of at most the remaining moves leads from
      the tip to the goal. */
  lemma NotPossibleShownIff(step: Stepper, tip: Code, goal: Code, A: set<OpIndex>, started: bool, popup: bool,
                            moves: nat, live: Option<nat>, staticOpt: Option<nat>)
    requires IsShortest(step, tip, goal, A, live)
    ensures staticOpt.None? ==> !ShowsNotPossible(started, true, popup, moves, live, staticOpt)
    ensures staticOpt.Some? && staticOpt.value <= TransformationLimit ==>
              (ShowsNotPossible(started, true, popup, moves, live, staticOpt) <==>
                 started && !popup && forall m: nat :: m <= Remaining(moves) ==> goal !in Layer(step, tip, A, m))
  {
    NotPossibleIffOutOfReach(step, tip, goal, A, moves, live);
  }
}
