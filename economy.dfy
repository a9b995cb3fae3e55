/** The Insight-point economy of a run: prices, the once-per-round award and
    the hintless-optimal streak. */
module Economy {
  import opened Optional

  /** HINT_COST_IP: price of arming the one-move hint. */
  const HintCost: int := 1
  /** BUY_START_COST: price of the first operator unlock. */
  const BuyStartCost: int := 6
  /** BUY_COST_STEP: price increase after each unlock. */
  const BuyCostStep: int := 6
  /** OPTIMAL_BONUS_IP */
  const OptimalBonus: int := 1
  /** HINT_PENALTY_IP: deducted per hint bought this round. */
  const HintPenalty: int := 1
  /** SUCCESS_AWARD_MIN_IP: floor of any successful round's award. */
  const SuccessAwardMin: int := 1
  /** transformation_limit: moves allowed in one round. */
  const TransformationLimit: int := 10

  function Max(a: int, b: int): int {
    if a >= b then a else b
  }

  /** `optimal` in the round summary: the static distance, or the moves taken
      when there is none. */
  function RoundOptimal(staticOpt: Option<nat>, moves: int): int {
    if staticOpt.Some? then staticOpt.value else moves
  }

  /** `was_optimal`: the round took exactly the static distance. */
  predicate WasOptimal(staticOpt: Option<nat>, moves: int) {
    staticOpt.Some? && moves == staticOpt.value
  }

  /** The hintless-optimal streak after a judged round: it grows by one on a
      hintless optimal success and drops to zero otherwise. */
  function NextStreak(success: bool, hints: int, optimal: bool, streak: nat): (r: nat)
    ensures r > 0 <==> success && hints == 0 && optimal
    ensures r > 0 ==> r == streak + 1
  {
    if success && hints == 0 && optimal then streak + 1 else 0
  }

  /** `base`: twice the optimum less the moves taken, never below 1. */
  function BaseAward(optimal: int, moves: int): (r: int)
    ensures r >= 1
    ensures 1 <= optimal && moves == optimal ==> r == optimal
    ensures moves < optimal * 2 - 1 ==> r > 1
  {
    Max(1, optimal * 2 - moves)
  }

  /** The award before the floor: base, optimal bonus and streak, less the
      hint penalty. */
  function RawAward(staticOpt: Option<nat>, moves: int, hints: int, streak: nat): int {
    BaseAward(RoundOptimal(staticOpt, moves), moves)
      + (if WasOptimal(staticOpt, moves) then OptimalBonus else 0)
      + streak - HintPenalty * hints
  }

  /** `gained` on a successful round (`streak` is the already updated one). */
  function SuccessAward(staticOpt: Option<nat>, moves: int, hints: int, streak: nat): (r: int)
    ensures r >= SuccessAwardMin
    ensures r >= RawAward(staticOpt, moves, hints, streak)
    ensures r == SuccessAwardMin || r == RawAward(staticOpt, moves, hints, streak)
  {
    Max(SuccessAwardMin, RawAward(staticOpt, moves, hints, streak))
  }

  /** An optimal three-move round with no hints, starting a streak, earns 5:
      base 3, optimal bonus 1, streak 1. */
  lemma AwardForOptimalHintlessRound()
    ensures NextStreak(true, 0, WasOptimal(Some(3), 3), 0) == 1
    ensures SuccessAward(Some(3), 3, 0, 1) == 5
  {
  }

  /** However many hints were bought, a success still earns the floor. */
  lemma AwardFloor()
    ensures SuccessAward(Some(2), 9, 4, 0) == SuccessAwardMin
  {
  }

  /** Buying more hints never raises the award. */
  lemma HintsNeverHelp(staticOpt: Option<nat>, moves: int, h1: int, h2: int, streak: nat)
    requires h1 <= h2
    ensures SuccessAward(staticOpt, moves, h2, streak) <= SuccessAward(staticOpt, moves, h1, streak)
  {
  }

  /** A longer streak never lowers the award. */
  lemma StreakNeverHurts(staticOpt: Option<nat>, moves: int, hints: int, s1: nat, s2: nat)
    requires s1 <= s2
    ensures SuccessAward(staticOpt, moves, hints, s1) <= SuccessAward(staticOpt, moves, hints, s2)
  {
  }

  /** Against a known optimum, a shorter winning chain never earns less: the
      base drops by two per extra move, which outweighs the lost optimal bonus. */
  lemma FewerMovesNeverHurt(opt: nat, m1: nat, m2: nat, hints: int, streak: nat)
    requires m1 <= m2
    ensures SuccessAward(Some(opt), m2, hints, streak) <= SuccessAward(Some(opt), m1, hints, streak)
  {
    var b1, b2 := BaseAward(opt, m1), BaseAward(opt, m2);
    if m1 < m2 && WasOptimal(Some(opt), m2) {
      assert b1 >= b2 + 1;
    }
  }

  /** The price of the next unlock once `unlocks` operators are unlocked,
      three of them free. */
  function UnlockPrice(unlocks: int): (r: int) {
    BuyStartCost + BuyCostStep * (unlocks - 3)
  }

  /** The first unlock costs 6, and after three purchases the price is 24. */
  lemma UnlockPriceEscalates(n: int)
    ensures UnlockPrice(3) == BuyStartCost
    ensures UnlockPrice(6) == 24
    ensures UnlockPrice(n + 1) == UnlockPrice(n) + BuyCostStep
  {
  }
}
