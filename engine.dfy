/** The round engine: the module globals of the game as the fields of one
    `Game` object, and the code paths that change them (the toss, moves,
    win and failure detection, the judgement popup, hints and unlocks).

    Frame-loop blocks become explicit methods; the timers that decide when
    a pending move resolves or the judgement popup opens become boolean
    inputs of `Frame`, and "a deck or help popup is open" is the input
    `uiModal`.  Each method names in its `modifies` clause exactly the
    globals it and the methods it calls may assign, so every other field
    keeps its value. */
module Engine {
  import opened Optional
  import opened Hexagram
  import opened Reach
  import opened Economy

  /** SEQ_OUTCOME: None, "success" or "failure". */
  datatype Outcome = NoOutcome | Success | Failure

  /** The judgement sequence of a round: WIN_SEQ_ACTIVE, SEQ_OUTCOME,
      POPUP_VISIBLE and AWARDS_GRANTED, which the engine sets and clears
      together. */
  datatype Judgement = Judgement(active: bool, outcome: Outcome, popup: bool, awarded: bool)
  {
    /** The sequence runs exactly when there is an outcome, and the popup
        and the awards belong to a running sequence. */
    predicate Coherent() {
      && (active <==> outcome != NoOutcome)
      && (popup ==> active)
      && (awarded ==> active)
    }
  }

  /** No judgement sequence: the state a round starts in. */
  const Quiet: Judgement := Judgement(false, NoOutcome, false, false)

  /** The Insight a run has earned and spent: RUN_TOTAL_INSIGHT and
      RUN_TOTAL_SPENT. */
  datatype Ledger = Ledger(earned: int, spent: int)

  /** The hintless-optimal streak: OPTIMAL_STREAK_CURR and OPTIMAL_STREAK_BEST. */
  datatype Streak = Streak(current: nat, best: nat)

  /** The run summary's move tallies: RUN_TOTAL_MOVES and RUN_TOTAL_OPTIMAL. */
  datatype Totals = Totals(moves: int, optimal: int)

  /** The one-move hint: HINTS_ENABLED (armed for the next move),
      HINTS_COUNT_THIS_ROUND and RUN_HINTS_COUNT. */
  datatype Hint = Hint(armed: bool, round: int, run: int)

  /** Number of hexagrams in a complete deck. */
  const DeckSize: int := 64

  /** The tip of a chain. */
  function Last(s: seq<Code>): Code
    requires s != []
  {
    s[|s| - 1]
  }

  /** `get_allowed_transform_indices`: the positions of the set flags, in
      increasing order. */
  function Allowed(flags: seq<bool>): (r: seq<OpIndex>)
    requires |flags| <= OperatorCount
    ensures forall j :: 0 <= j < |r| ==> r[j] < |flags| && flags[r[j]]
    ensures forall i: OpIndex :: i < |flags| && flags[i] ==> i in r
    ensures forall j, k :: 0 <= j < k < |r| ==> r[j] < r[k]
  {
    if flags == [] then []
    else Allowed(flags[..|flags| - 1]) + (if flags[|flags| - 1] then [|flags| - 1] else [])
  }

  /** The operators whose flag is set. */
  function FlaggedOps(flags: seq<bool>): set<OpIndex> {
    set i: OpIndex | i < |flags| && flags[i]
  }

  /** The allowed indices are exactly the operators whose flag is set. */
  lemma AllowedFlagged(flags: seq<bool>)
    requires |flags| <= OperatorCount
    ensures Elements(Allowed(flags)) == FlaggedOps(flags)
  {
  }

  /** The number of set flags. */
  function CountTrue(flags: seq<bool>): nat {
    if flags == [] then 0
    else CountTrue(flags[..|flags| - 1]) + (if flags[|flags| - 1] then 1 else 0)
  }

  /** There are as many allowed indices as set flags. */
  lemma {:induction false} AllowedCount(flags: seq<bool>)
    requires |flags| <= OperatorCount
    ensures |Allowed(flags)| == CountTrue(flags)
    decreases |flags|
  {
    if flags != [] {
      AllowedCount(flags[..|flags| - 1]);
    }
  }

  /** Setting one more flag adds exactly one to the count. */
  lemma {:induction false} CountGrows(flags: seq<bool>, idx: nat)
    requires idx < |flags| && !flags[idx]
    ensures CountTrue(flags[idx := true]) == CountTrue(flags) + 1
    decreases |flags|
  {
    var n := |flags|;
    var flags' := flags[idx := true];
    if idx == n - 1 {
      assert flags'[..n - 1] == flags[..n - 1];
    } else {
      assert flags'[..n - 1] == flags[..n - 1][idx := true];
      CountGrows(flags[..n - 1], idx);
    }
  }

  /** A run starts with three operators unlocked. */
  lemma InitialCount()
    ensures CountTrue(InitialUnlocks()) == 3
  {
    var u := InitialUnlocks();
    assert u == [true, false, false, false, false, true, false, true, false];
    assert [true, false, false, false, false, true, false, true, false][..8] == [true, false, false, false, false, true, false, true];
    assert [true, false, false, false, false, true, false, true][..7] == [true, false, false, false, false, true, false];
    assert [true, false, false, false, false, true, false][..6] == [true, false, false, false, false, true];
    assert [true, false, false, false, false, true][..5] == [true, false, false, false, false];
    assert [true, false, false, false, false][..4] == [true, false, false, false];
    assert [true, false, false, false][..3] == [true, false, false];
    assert [true, false, false][..2] == [true, false];
    assert [true, false][..1] == [true];
    assert [true][..0] == [];
  }

  /** A run starts with SHIFT, INVERT ▼ and MIRROR ▲ allowed, in that order. */
  lemma InitialAllowed()
    ensures Allowed(InitialUnlocks()) == [0, 5, 7]
  {
    var u := InitialUnlocks();
    InitialCount();
    AllowedCount(u);
    var r := Allowed(u);
    assert 0 in r && 5 in r && 7 in r;
  }

  /** The operators as the search steps through them. */
  lemma ApplyConfined()
    ensures Confined(Apply)
  {
    forall i: OpIndex, c: Code, S: set<char> | '0' in S && '1' in S && Over(c, S)
      ensures Over(Apply(i, c), S)
    {
      ApplyStaysOver(i, c, S);
    }
  }

  /** Every catalogued code is a 0/1 code, as every key of HEXAGRAM_DATA is. */
  predicate BinaryCatalog(catalog: set<Code>) {
    forall c :: c in catalog ==> IsBinary(c)
  }

  /** Every card of `chain` is in `cards`. */
  predicate AllIn(chain: seq<Code>, cards: set<Code>) {
    forall c :: c in chain ==> c in cards
  }

  /** Every catalogued code other than `from` is in `taken`: no goal can
      be drawn for a round starting at `from`. */
  predicate NoneLeft(catalog: set<Code>, taken: set<Code>, from: Code) {
    forall c :: c in catalog ==> c == from || c in taken
  }

  /** `NoneLeft` says that the source's candidate set
      `catalog - taken - {from}` is empty. */
  lemma NoneLeftMeansEmptyPool(catalog: set<Code>, taken: set<Code>, from: Code)
    ensures NoneLeft(catalog, taken, from) <==> catalog - taken - {from} == {}
  {
    if !NoneLeft(catalog, taken, from) {
      var c :| c in catalog && c != from && c !in taken;
      assert c in catalog - taken - {from};
    }
  }

  /** A chain built by the recorded moves: each card is the previous one
      transformed by an allowed operator. */
  ghost predicate IsPath(step: Stepper, chain: seq<Code>, ops: seq<OpIndex>, flags: seq<bool>) {
    && |ops| == |chain| - 1
    && forall j :: 0 <= j < |ops| ==> ops[j] < |flags| && flags[ops[j]] && chain[j + 1] == step(ops[j], chain[j])
  }

  /** One more move by an allowed operator extends such a chain. */
  lemma PathExtends(step: Stepper, chain: seq<Code>, ops: seq<OpIndex>, flags: seq<bool>, i: OpIndex)
    requires i < |flags|
    ensures chain != [] && IsPath(step, chain, ops, flags) && flags[i] ==>
              IsPath(step, chain + [step(i, Last(chain))], ops + [i], flags)
  {
  }

  /** Unlocking one more operator keeps every chain built so far a path. */
  lemma PathWidens(step: Stepper, chain: seq<Code>, ops: seq<OpIndex>, flags: seq<bool>, idx: nat)
    requires idx < |flags|
    ensures IsPath(step, chain, ops, flags) ==> IsPath(step, chain, ops, flags[idx := true])
  {
  }

  /** The tip of such a chain is reachable from its first card in exactly as
      many steps as moves were made. */
  lemma {:induction false} PathReachesTip(step: Stepper, chain: seq<Code>, ops: seq<OpIndex>, flags: seq<bool>)
    requires |flags| <= OperatorCount && chain != [] && IsPath(step, chain, ops, flags)
    ensures Last(chain) in Layer(step, chain[0], FlaggedOps(flags), |chain| - 1)
    decreases |chain|
  {
    var n := |chain|;
    if n > 1 {
      var pre := chain[..n - 1];
      PathReachesTip(step, pre, ops[..|ops| - 1], flags);
      LayerStep(step, chain[0], FlaggedOps(flags), n - 2, chain[n - 2], ops[|ops| - 1]);
    }
  }

  class Game {
    /** The codes of HEXAGRAM_DATA: the cards that exist. */
    const catalog: set<Code>
    /** TRANSFORMATIONS: operator `i` applied to a code (`Apply`). */
    const step: Stepper

    var gameStarted: bool                 // game_started
    var locked: bool                      // locked
    var roundFailed: bool                 // round_failed
    var chain: seq<Code>                  // hexagram_chain, by code
    var goal: Option<Code>                // goal_hexagram
    var previousGoal: Option<Code>        // previous_goal_hexagram_binary
    var goalToStart: Option<Code>         // GOAL2START, by its start code
    var used: set<Code>                   // used_hexagrams
    var collected: set<Code>              // collected_hexagrams
    var pending: Option<OpIndex>          // pending_change
    var unlocked: seq<bool>               // TRANSFORM_UNLOCKED
    var buyCost: int                      // BUY_COST_CURRENT
    var shopVisible: bool                 // SHOP_VISIBLE
    var hint: Hint                        // HINTS_ENABLED, HINTS_COUNT_THIS_ROUND
    var balance: int                      // INSIGHT_BALANCE
    var ledger: Ledger                    // RUN_TOTAL_INSIGHT, RUN_TOTAL_SPENT
    var totals: Totals                    // RUN_TOTAL_MOVES, RUN_TOTAL_OPTIMAL
    var streak: Streak                    // OPTIMAL_STREAK_CURR, OPTIMAL_STREAK_BEST
    var lastRoundInsight: int             // LAST_ROUND_INSIGHT
    var judgement: Judgement              // WIN_SEQ_ACTIVE, SEQ_OUTCOME, POPUP_VISIBLE, AWARDS_GRANTED
    var shortestPathLength: Option<nat>   // shortest_path_length
    var roundOptimal: Option<nat>         // ROUND_OPTIMAL_DIST
    var livePossible: Option<nat>         // LIVE_POSSIBLE_DIST
    var optimalNext: set<OpIndex>         // optimal_next_buttons
    /** The operator behind each move of the chain. */
    ghost var ops: seq<OpIndex>

    /** What holds of the game at every point between two commands. */
    ghost predicate Valid()
      reads this
    {
      && catalog != {} && BinaryCatalog(catalog) && Confined(step)
      && AllIn(chain, catalog)
      && (goal.Some? ==> goal.value in catalog)
      && (goalToStart.Some? ==> goalToStart.value in catalog)
      && used <= catalog && collected <= catalog
      && |unlocked| == OperatorCount && unlocked[0] && unlocked[5] && unlocked[7]
      && buyCost == UnlockPrice(CountTrue(unlocked))
      && balance >= 0 && balance == ledger.earned - ledger.spent
      && streak.current <= streak.best
      && judgement.Coherent()
      && (judgement.active ==> locked)
      && (judgement.outcome == Success ==> chain != [] && goal.Some? && Last(chain) == goal.value && goal.value in collected)
      && (judgement.outcome == Failure ==> roundFailed)
      && (roundFailed ==> locked && chain != [] && (goal.Some? ==> Last(chain) != goal.value))
      && (!locked && chain != [] ==> goal.Some?)
    }

    /** The chain was built from its first card by unlocked operators, and a
        queued move uses an unlocked operator. */
    ghost predicate MovesUnlocked()
      reads this
    {
      && |unlocked| == OperatorCount
      && (chain != [] ==> IsPath(step, chain, ops, unlocked))
      && (pending.Some? ==> unlocked[pending.value])
    }

    /** Between frames an open round is still live: its tip is not the goal
        and fewer than `transformation_limit` moves have been made. */
    predicate Settled()
      reads this
    {
      !locked && chain != [] ==> goal.Some? && Last(chain) != goal.value && |chain| - 1 < TransformationLimit
    }

    /** The operators the player may use. */
    function UnlockedSet(): set<OpIndex>
      reads this
    {
      FlaggedOps(unlocked)
    }

    /** The live guidance describes the tip: the distance to the goal and
        the sound set of optimal first moves. */
    ghost predicate LiveGuidance()
      reads this
      requires |unlocked| == OperatorCount
    {
      if goal.None? || chain == [] then livePossible.None? && optimalNext == {}
      else
        && IsShortest(step, Last(chain), goal.value, UnlockedSet(), livePossible)
        && FirstMovesSound(step, Last(chain), goal.value, UnlockedSet(), livePossible, optimalNext)
    }

    /** The outcome of dealing from start code `from` when the used set was
        `priorUsed` (ignored on a full reset) and the goal and previous goal
        were `priorGoal` and `priorPrevious`: with no unused catalogue card
        other than the start the round is locked and the goals kept;
        otherwise the goal is such a card, recorded as used except on a full
        reset, and the guidance describes the new round, its static optimum
        measured from `from`. */
    ghost predicate Dealt(from: Code, fullReset: bool, priorUsed: set<Code>, priorGoal: Option<Code>,
                          priorPrevious: Option<Code>)
      reads this
      requires |unlocked| == OperatorCount
    {
      var taken := if fullReset then {} else priorUsed;
      && (NoneLeft(catalog, taken, from) ==>
            && locked && goal == priorGoal && previousGoal == priorPrevious && used == taken)
      && (!NoneLeft(catalog, taken, from) ==>
            && goal.Some? && goal.value in catalog && goal.value !in taken && goal.value != from
            && previousGoal == goal
            && used == (if fullReset then {} else priorUsed + {goal.value})
            && IsShortest(step, from, goal.value, UnlockedSet(), roundOptimal)
            && LiveGuidance()
            && (chain != [] ==> IsShortest(step, Last(chain), goal.value, UnlockedSet(), shortestPathLength)))
    }

    /** The state of a fresh run: no Insight earned, spent or held, no moves,
        hints or streak recorded, nothing collected or used, and only the
        free operators unlocked at the starting price. */
    predicate RunCleared()
      reads this
    {
      && balance == 0 && ledger.earned == 0 && ledger.spent == 0 && totals.moves == 0 && totals.optimal == 0
      && hint.run == 0 && streak.current == 0 && streak.best == 0
      && collected == {} && used == {} && unlocked == InitialUnlocks() && buyCost == BuyStartCost
    }

    /** The flags `reset_game` leaves at the start of every round: a started
        game with no queued move, no failure, no judgement sequence and no
        hint armed or bought, and the shop open except after a full reset. */
    ghost predicate RoundOpened(fullReset: bool)
      reads this
    {
      && gameStarted && pending.None? && !roundFailed && judgement == Quiet
      && !hint.armed && hint.round == 0 && shopVisible == !fullReset
    }

    /** `is_change_unlocked`: a started round, no popup open, and an
        unlocked operator, which is then one the search may use. */
    predicate IsChangeUnlocked(i: OpIndex, uiModal: bool): (r: bool)
      reads this
      requires |unlocked| == OperatorCount
      ensures r <==> gameStarted && !uiModal && !judgement.popup && i in Allowed(unlocked)
    {
      gameStarted && !(uiModal || judgement.popup) && unlocked[i]
    }

    /** `transforms_enabled`: the operator buttons are drawn as usable only
        in an open round, with no judgement sequence, failure or popup. */
    predicate TransformsEnabled(): (r: bool)
      reads this
      ensures r && Valid() ==> judgement == Quiet && !roundFailed && (chain != [] ==> goal.Some?)
    {
      gameStarted && !locked && !judgement.active && !judgement.popup && goalToStart.None?
    }

    /** The streak the round about to be judged leaves behind. */
    function JudgedStreak(): nat
      reads this
    {
      NextStreak(judgement.outcome == Success, hint.round, WasOptimal(roundOptimal, |chain| - 1), streak.current)
    }

    /** The Insight the round about to be judged pays. */
    function RoundGain(): int
      reads this
    {
      if judgement.outcome == Success then SuccessAward(roundOptimal, |chain| - 1, hint.round, JudgedStreak()) else 0
    }

    /** The module state before the first toss. */
    constructor (catalog: set<Code>)
      requires catalog != {} && BinaryCatalog(catalog)
      ensures this.catalog == catalog && step == Apply
      ensures Valid() && MovesUnlocked() && Settled()
      ensures !gameStarted && !locked && !roundFailed && chain == [] && goal.None? && pending.None?
      ensures RunCleared() && judgement == Quiet && !hint.armed && hint.round == 0 && lastRoundInsight == 0
      ensures !shopVisible && goalToStart.None? && previousGoal.None?
      ensures shortestPathLength.None? && roundOptimal.None? && livePossible.None? && optimalNext == {}
    {
      this.catalog := catalog;
      step := Apply;
      ApplyConfined();
      gameStarted, locked, roundFailed, chain, goal, previousGoal, goalToStart := false, false, false, [], None, None, None;
      used, collected, pending, unlocked, buyCost, shopVisible := {}, {}, None, InitialUnlocks(), BuyStartCost, false;
      hint, balance, ledger, totals, streak := Hint(false, 0, 0), 0, Ledger(0, 0), Totals(0, 0), Streak(0, 0);
      lastRoundInsight, judgement := 0, Quiet;
      shortestPathLength, roundOptimal, livePossible, optimalNext := None, None, None, {};
      ops := [];
      InitialCount();
    }

    // -------------------------------------------------------------------
    // Guidance: the three callers of the search.

    /** `recompute_optimal_guidance`: distance and optimal first moves from the
        tip, with the unlocked operators. */
    method RecomputeOptimalGuidance()
      requires |unlocked| == OperatorCount && Confined(step)
      modifies this`shortestPathLength, this`optimalNext
      ensures goal.None? || chain == [] ==> shortestPathLength.None? && optimalNext == {}
      ensures goal.Some? && chain != [] ==>
                && IsShortest(step, Last(chain), goal.value, UnlockedSet(), shortestPathLength)
                && FirstMovesSound(step, Last(chain), goal.value, UnlockedSet(), shortestPathLength, optimalNext)
    {
      if goal.None? || chain == [] {
        shortestPathLength := None;
        optimalNext := {};
        return;
      }
      var allowed := Allowed(unlocked);
      AllowedFlagged(unlocked);
      var d, firstMoves := ShortestPathWithAllowed(step, Last(chain), goal.value, allowed);
      shortestPathLength := d;
      optimalNext := set i | i in firstMoves && i in allowed;
      assert optimalNext == firstMoves;
    }

    /** `recompute_static_optimal(anchor)`: the static optimum from the anchor
        code, or from the tip when no anchor is given (the global round-start
        anchor it would try in between is never set). */
    method RecomputeStaticOptimal(anchor: Option<Code>)
      requires |unlocked| == OperatorCount && Confined(step)
      modifies this`roundOptimal
      ensures var from := if anchor.Some? then anchor else if chain != [] then Some(Last(chain)) else None;
              && (goal.None? || from.None? ==> roundOptimal.None?)
              && (goal.Some? && from.Some? ==> IsShortest(step, from.value, goal.value, UnlockedSet(), roundOptimal))
    {
      if goal.None? {
        roundOptimal := None;
        return;
      }
      var from := if anchor.Some? then anchor else if chain != [] then Some(Last(chain)) else None;
      if from.None? {
        roundOptimal := None;
        return;
      }
      AllowedFlagged(unlocked);
      var d, _ := ShortestPathWithAllowed(step, from.value, goal.value, Allowed(unlocked));
      roundOptimal := d;
    }

    /** `recompute_live_guidance`: the live distance and the hint ring. */
    method RecomputeLiveGuidance()
      requires |unlocked| == OperatorCount && Confined(step)
      modifies this`livePossible, this`optimalNext
      ensures LiveGuidance()
    {
      if goal.None? || chain == [] {
        optimalNext := {};
        livePossible := None;
        return;
      }
      AllowedFlagged(unlocked);
      var d, firstMoves := ShortestPathWithAllowed(step, Last(chain), goal.value, Allowed(unlocked));
      livePossible := d;
      optimalNext := firstMoves;
    }

    // -------------------------------------------------------------------
    // Moves.

    /** The state side of a move to `next` by operator `i`: one card more,
        the armed hint consumed, and the round failed once past the move
        limit off the goal. */
    method AppendCard(i: OpIndex, next: Code)
      requires Valid() && chain != [] && !locked && next in catalog
      modifies this`chain, this`ops, this`hint, this`locked, this`roundFailed
      ensures Valid()
      ensures chain == old(chain) + [next] && ops == old(ops) + [i] && hint == old(hint).(armed := false)
      ensures locked <==> old(|chain|) > TransformationLimit && old(goal) != Some(next)
      ensures roundFailed == (old(roundFailed) || locked)
    {
      var overLimit := |chain| > TransformationLimit && !(goal.Some? && next == goal.value);
      chain, ops := chain + [next], ops + [i];
      if hint.armed {
        hint := hint.(armed := false);
      }
      if overLimit {
        locked, roundFailed := true, true;
      }
    }

    /** `apply_transformation` with operator `i`: the move, then the live
        guidance recomputed for the new tip.  (The source recomputes before
        clearing the hint and checking the limit; the three touch disjoint
        state.) */
    method ApplyTransformation(i: OpIndex)
      requires Valid()
      modifies this`chain, this`ops, this`hint, this`locked, this`roundFailed,
               this`livePossible, this`optimalNext
      ensures Valid()
      ensures old(chain == [] || locked || step(i, Last(chain)) !in catalog) ==> unchanged(this)
      ensures old(chain != [] && !locked && step(i, Last(chain)) in catalog) ==>
                var next := old(step(i, Last(chain)));
                && chain == old(chain) + [next]
                && ops == old(ops) + [i]
                && hint == old(hint).(armed := false)
                && (locked <==> old(|chain|) > TransformationLimit && old(goal) != Some(next))
                && roundFailed == (old(roundFailed) || locked)
                && LiveGuidance()
    {
      if chain != [] && !locked {
        var next := step(i, Last(chain));
        if next in catalog {
          AppendCard(i, next);
          RecomputeLiveGuidance();
        }
      }
    }

    /** `handle_transformation_click`: queue a move unless the round is
        locked or a move is already waiting. */
    method HandleTransformationClick(buttonIndex: int)
      requires Valid()
      modifies this`pending
      ensures Valid()
      ensures pending == if !locked && old(pending).None? && 0 <= buttonIndex < OperatorCount
                         then Some(buttonIndex as OpIndex) else old(pending)
      ensures old(MovesUnlocked()) && (0 <= buttonIndex < OperatorCount ==> unlocked[buttonIndex]) ==> MovesUnlocked()
    {
      if locked || pending.Some? {
        return;
      }
      if 0 <= buttonIndex < OperatorCount {
        pending := Some(buttonIndex as OpIndex);
      }
    }

    /** A click on operator button `idx`: ignored unless the round is open;
        a usable operator closes the shop and queues the move. */
    method ClickTransform(idx: OpIndex, uiModal: bool)
      requires Valid()
      modifies this`shopVisible, this`pending
      ensures Valid()
      ensures old(chain != [] && !locked && IsChangeUnlocked(idx, uiModal)) ==>
                !shopVisible && pending == if old(pending).None? then Some(idx) else old(pending)
      ensures !old(chain != [] && !locked && IsChangeUnlocked(idx, uiModal)) ==> unchanged(this)
      ensures old(MovesUnlocked()) ==> MovesUnlocked()
    {
      if chain != [] && !locked {
        if IsChangeUnlocked(idx, uiModal) {
          shopVisible := false;
          HandleTransformationClick(idx);
        }
      }
    }

    /** The pending move's delay has run out: apply it and clear it. */
    method ResolvePending()
      requires Valid()
      modifies this`pending, this`chain, this`ops, this`hint, this`locked, this`roundFailed,
               this`livePossible, this`optimalNext
      ensures Valid() && pending.None?
      ensures old(pending).None? ==> unchanged(this)
      ensures old(pending.Some? && (chain == [] || locked || step(pending.value, Last(chain)) !in catalog)) ==>
                unchanged(this`chain, this`ops, this`hint, this`locked, this`roundFailed, this`livePossible, this`optimalNext)
      ensures old(pending.Some? && chain != [] && !locked && step(pending.value, Last(chain)) in catalog) ==>
                var next := old(step(pending.value, Last(chain)));
                && chain == old(chain) + [next]
                && ops == old(ops) + [old(pending).value]
                && hint == old(hint).(armed := false)
                && (locked <==> old(|chain|) > TransformationLimit && old(goal) != Some(next))
                && roundFailed == (old(roundFailed) || locked)
                && LiveGuidance()
      ensures old(MovesUnlocked()) ==> MovesUnlocked()
      ensures old(Settled()) ==> roundFailed == old(roundFailed)
      ensures old(Settled() && !locked && chain != []) ==> |chain| - 1 <= TransformationLimit
    {
      if pending.Some? {
        var i := pending.value;
        PathExtends(step, chain, ops, unlocked, i);
        ApplyTransformation(i);
        pending := None;
      }
    }

    // -------------------------------------------------------------------
    // Judging the round.

    /** The bookkeeping both judged endings share: the round's base award
        becomes LAST_ROUND_INSIGHT, its moves and optimum (the given static
        distance, else the moves made) join the run totals, and the hint is
        disarmed. */
    method AddRoundToTotals(staticOpt: Option<nat>)
      requires Valid() && chain != []
      modifies this`lastRoundInsight, this`totals, this`hint
      ensures Valid() && hint == old(hint).(armed := false)
      ensures var moves := old(|chain|) - 1;
              var optimal := RoundOptimal(staticOpt, moves);
              && lastRoundInsight == BaseAward(optimal, moves)
              && totals == old(totals).(moves := old(totals.moves) + moves, optimal := old(totals.optimal) + optimal)
    {
      var moves := |chain| - 1;
      var optimal := RoundOptimal(staticOpt, moves);
      lastRoundInsight := BaseAward(optimal, moves);
      totals := totals.(moves := totals.moves + moves, optimal := totals.optimal + optimal);
      hint := hint.(armed := false);
    }

    /** The round is won: locked, the success sequence running and the goal
        collected (a card already held is not counted twice). */
    method MarkWon()
      requires Valid() && goal.Some? && chain != [] && Last(chain) == goal.value && !judgement.active
      modifies this`locked, this`judgement, this`collected
      ensures Valid()
      ensures locked && judgement == Judgement(true, Success, false, false)
      ensures collected == old(collected) + {goal.value}
    {
      locked := true;
      judgement := judgement.(active := true, outcome := Success);
      collected := collected + {goal.value};
    }

    /** Win detection: the tip is the goal.  The first time, the round is
        locked as a success, the goal is collected (once) and the round's
        moves and optimum join the run totals. */
    method DetectWin()
      requires Valid()
      modifies this`locked, this`judgement, this`collected, this`lastRoundInsight, this`totals, this`hint
      ensures Valid()
      ensures !old(goal.Some? && chain != [] && Last(chain) == goal.value && !judgement.active) ==> unchanged(this)
      ensures old(goal.Some? && chain != [] && Last(chain) == goal.value && !judgement.active) ==>
                var moves := old(|chain|) - 1;
                var optimal := old(RoundOptimal(shortestPathLength, |chain| - 1));
                && locked && judgement == Judgement(true, Success, false, false) && hint == old(hint).(armed := false)
                && collected == old(collected + {goal.value})
                && lastRoundInsight == BaseAward(optimal, moves)
                && totals.moves == old(totals.moves) + moves
                && totals.optimal == old(totals.optimal) + optimal
    {
      // A second detection only re-locks the round, which a running win
      // sequence already keeps locked.
      if goal.Some? && chain != [] && Last(chain) == goal.value && !judgement.active {
        MarkWon();
        AddRoundToTotals(shortestPathLength);
      }
    }

    /** The frame-level failure check: the move limit is used up off the goal. */
    method DetectFailure()
      requires Valid()
      modifies this`locked, this`roundFailed
      ensures Valid()
      ensures old(!judgement.active && goal.Some? && chain != [] && |chain| - 1 >= TransformationLimit && Last(chain) != goal.value) ==>
                locked && roundFailed
      ensures !old(!judgement.active && goal.Some? && chain != [] && |chain| - 1 >= TransformationLimit && Last(chain) != goal.value) ==>
                unchanged(this)
    {
      if !judgement.active && goal.Some? && |chain| > 0 {
        var moves := |chain| - 1;
        if moves >= TransformationLimit && Last(chain) != goal.value {
          locked, roundFailed := true, true;
        }
      }
    }

    /** The failure sequence starts once: the round's moves and optimum join
        the run totals, with no award yet. */
    method StartFailureSequence()
      requires Valid()
      modifies this`judgement, this`lastRoundInsight, this`totals, this`hint
      ensures Valid()
      ensures old(roundFailed && locked && !judgement.active) ==>
                var moves := old(|chain|) - 1;
                var optimal := old(RoundOptimal(roundOptimal, |chain| - 1));
                && judgement == Judgement(true, Failure, false, false) && hint == old(hint).(armed := false)
                && lastRoundInsight == BaseAward(optimal, moves)
                && totals.moves == old(totals.moves) + moves
                && totals.optimal == old(totals.optimal) + optimal
      ensures !old(roundFailed && locked && !judgement.active) ==> unchanged(this)
    {
      if roundFailed && locked && !judgement.active {
        judgement := judgement.(active := true, outcome := Failure);
        AddRoundToTotals(roundOptimal);
      }
    }

    /** The hintless-optimal streak after the judged round: one longer on a
        hintless optimal success, reset otherwise; the best streak follows. */
    method UpdateStreak()
      requires Valid() && judgement.active
      modifies this`streak
      ensures Valid()
      ensures streak == Streak(old(JudgedStreak()), Max(old(streak.best), old(JudgedStreak())))
    {
      var wasOptimal := WasOptimal(roundOptimal, |chain| - 1);
      var wasHintless := hint.round == 0;
      if judgement.outcome == Success && wasHintless && wasOptimal {
        var curr := streak.current + 1;
        var best := if curr > streak.best then curr else streak.best;
        streak := Streak(curr, best);
      } else {
        streak := streak.(current := 0);
      }
    }

    /** The award of the judged round, with the streak already updated: on
        success it is paid into the balance and the run total, otherwise the
        round earns nothing. */
    method PayRoundAward()
      requires Valid() && judgement.active
      modifies this`lastRoundInsight, this`balance, this`ledger
      ensures Valid()
      ensures var gained := if judgement.outcome == Success then SuccessAward(roundOptimal, |chain| - 1, hint.round, streak.current) else 0;
              && lastRoundInsight == gained
              && balance == old(balance) + gained
              && ledger == old(ledger).(earned := old(ledger.earned) + gained)
    {
      if judgement.outcome == Success {
        var gained := SuccessAward(roundOptimal, |chain| - 1, hint.round, streak.current);
        lastRoundInsight := gained;
        balance := balance + gained;
        ledger := ledger.(earned := ledger.earned + gained);
      } else {
        lastRoundInsight := 0;
      }
    }

    /** `finalize_round_awards`: at most once per round, update the streak
        and, on success, pay the award into the balance and the run total. */
    method FinalizeRoundAwards()
      requires Valid() && judgement.active
      modifies this`judgement, this`streak, this`lastRoundInsight, this`balance, this`ledger
      ensures Valid() && judgement == old(judgement).(awarded := true)
      ensures old(judgement.awarded) ==> unchanged(this)
      ensures !old(judgement.awarded) ==>
                && streak == Streak(old(JudgedStreak()), Max(old(streak.best), old(JudgedStreak())))
                && lastRoundInsight == old(RoundGain())
                && balance == old(balance) + old(RoundGain())
                && ledger == old(ledger).(earned := old(ledger.earned) + old(RoundGain()))
      ensures !old(judgement.awarded) && judgement.outcome == Success ==> balance >= old(balance) + SuccessAwardMin
      ensures judgement.outcome == Failure ==>
                balance == old(balance) && ledger == old(ledger) && streak.current == (if old(judgement.awarded) then old(streak.current) else 0)
    {
      if judgement.awarded {
        return;
      }
      judgement := judgement.(awarded := true);
      UpdateStreak();
      PayRoundAward();
    }

    /** The judgement popup opens (its delay has run out) and the awards are
        finalized: before showing it on success, after on failure. */
    method ShowJudgement()
      requires Valid()
      modifies this`judgement, this`streak, this`lastRoundInsight, this`balance, this`ledger
      ensures Valid()
      ensures old(judgement.active && goal.Some? && chain != [] && !judgement.popup) ==>
                judgement == old(judgement).(popup := true, awarded := true)
      ensures old(judgement.active && goal.Some? && chain != [] && !judgement.popup && !judgement.awarded) ==>
                && streak == Streak(old(JudgedStreak()), Max(old(streak.best), old(JudgedStreak())))
                && lastRoundInsight == old(RoundGain())
                && balance == old(balance) + old(RoundGain())
                && ledger == old(ledger).(earned := old(ledger.earned) + old(RoundGain()))
      ensures !old(judgement.active && goal.Some? && chain != [] && !judgement.popup && !judgement.awarded) ==>
                streak == old(streak) && lastRoundInsight == old(lastRoundInsight) && balance == old(balance) && ledger == old(ledger)
      ensures !old(judgement.active && goal.Some? && chain != [] && !judgement.popup) ==> unchanged(this)
    {
      if judgement.active && goal.Some? && chain != [] {
        if judgement.outcome == Success {
          if !judgement.popup {
            FinalizeRoundAwards();
            judgement := judgement.(popup := true);
          }
        } else if !judgement.popup && judgement.outcome == Failure {
          judgement := judgement.(popup := true);
          FinalizeRoundAwards();
        }
      }
    }

    /** The detection block of one frame: detect a win, detect a failure and
        start the failure sequence.  Afterwards a round that is still open is
        live, a failed round is judged a failure and a round whose tip is the
        goal is a collected success. */
    method DetectOutcome()
      requires Valid()
      modifies this`locked, this`judgement, this`collected, this`lastRoundInsight, this`totals, this`hint,
               this`roundFailed
      ensures Valid() && Settled()
      ensures roundFailed ==> judgement.outcome == Failure
      ensures goal.Some? && chain != [] && |chain| - 1 >= TransformationLimit && Last(chain) != goal.value ==>
                roundFailed && judgement.outcome == Failure
      ensures goal.Some? && chain != [] && Last(chain) == goal.value ==> judgement.outcome == Success && goal.value in collected
      ensures old(collected) <= collected
      ensures old(judgement.active) ==> unchanged(this)
      ensures old(!judgement.active && goal.Some? && chain != [] && Last(chain) == goal.value) ==>
                var moves := old(|chain|) - 1;
                var optimal := old(RoundOptimal(shortestPathLength, |chain| - 1));
                && locked && !roundFailed && judgement == Judgement(true, Success, false, false)
                && collected == old(collected + {goal.value}) && hint == old(hint).(armed := false)
                && lastRoundInsight == BaseAward(optimal, moves)
                && totals == Totals(old(totals.moves) + moves, old(totals.optimal) + optimal)
      ensures old(!judgement.active && (roundFailed || (goal.Some? && chain != [] && |chain| - 1 >= TransformationLimit && Last(chain) != goal.value))) ==>
                var moves := old(|chain|) - 1;
                var optimal := old(RoundOptimal(roundOptimal, |chain| - 1));
                && locked && roundFailed && judgement == Judgement(true, Failure, false, false)
                && collected == old(collected) && hint == old(hint).(armed := false)
                && lastRoundInsight == BaseAward(optimal, moves)
                && totals == Totals(old(totals.moves) + moves, old(totals.optimal) + optimal)
      ensures old(!judgement.active && !roundFailed && !(goal.Some? && chain != [] && (Last(chain) == goal.value || |chain| - 1 >= TransformationLimit))) ==>
                unchanged(this)
    {
      DetectWin();
      DetectFailure();
      StartFailureSequence();
    }

    /** The detection block of one frame and, when its delay has run out,
        the judgement popup. */
    method JudgeFrame(judgementDue: bool)
      requires Valid()
      modifies this`locked, this`judgement, this`collected, this`lastRoundInsight, this`totals, this`hint,
               this`roundFailed, this`streak, this`balance, this`ledger
      ensures Valid() && Settled()
      ensures roundFailed ==> judgement.outcome == Failure
      ensures goal.Some? && chain != [] && |chain| - 1 >= TransformationLimit && Last(chain) != goal.value ==>
                roundFailed && judgement.outcome == Failure
      ensures goal.Some? && chain != [] && Last(chain) == goal.value ==> judgement.outcome == Success && goal.value in collected
      ensures old(collected) <= collected && balance >= old(balance)
      ensures old(judgement.awarded) ==> judgement.awarded && balance == old(balance) && ledger == old(ledger) && streak == old(streak)
      ensures !judgementDue ==> balance == old(balance) && ledger == old(ledger) && streak == old(streak) && judgement.popup == old(judgement.popup)
      ensures judgementDue && !old(judgement.popup) && judgement.active && goal.Some? && chain != [] ==> judgement.popup && judgement.awarded
    {
      DetectOutcome();
      if judgementDue {
        ShowJudgement();
      }
    }

    /** One pass of the frame loop's game logic: resolve a due pending move,
        run the detection block and, when its delay has run out, open the
        judgement popup. */
    method Frame(pendingDue: bool, judgementDue: bool)
      requires Valid()
      modifies this`pending, this`chain, this`ops, this`hint, this`locked, this`roundFailed,
               this`livePossible, this`optimalNext, this`judgement, this`collected, this`lastRoundInsight,
               this`totals, this`streak, this`balance, this`ledger
      ensures Valid() && Settled()
      ensures roundFailed ==> judgement.outcome == Failure
      ensures goal.Some? && chain != [] && |chain| - 1 >= TransformationLimit && Last(chain) != goal.value ==>
                roundFailed && judgement.outcome == Failure
      ensures goal.Some? && chain != [] && Last(chain) == goal.value ==> judgement.outcome == Success && goal.value in collected
      ensures old(collected) <= collected && balance >= old(balance)
      ensures goal == old(goal) && unlocked == old(unlocked)
      ensures old(MovesUnlocked()) ==> MovesUnlocked()
      ensures old(judgement.awarded) ==> judgement.awarded && balance == old(balance) && ledger == old(ledger) && streak == old(streak)
      ensures !judgementDue ==> balance == old(balance) && ledger == old(ledger) && streak == old(streak)
      ensures !pendingDue ==> chain == old(chain) && pending == old(pending)
      ensures pendingDue ==>
                && pending.None?
                && (chain == old(chain) || (old(pending.Some? && chain != []) && chain == old(chain + [step(pending.value, Last(chain))])))
    {
      if pendingDue {
        ResolvePending();
      }
      JudgeFrame(judgementDue);
    }

    // -------------------------------------------------------------------
    // Purchases.

    /** Hint purchase: arm the one-move hint for HINT_COST_IP. */
    method PurchaseHint(uiModal: bool)
      requires Valid()
      modifies this`hint, this`balance, this`ledger
      ensures Valid()
      ensures old(gameStarted && !(uiModal || judgement.popup) && !hint.armed && balance >= HintCost) ==>
                && hint == Hint(true, old(hint.round) + 1, old(hint.run) + 1)
                && balance == old(balance) - HintCost
                && ledger == old(ledger).(spent := old(ledger.spent) + HintCost)
      ensures !old(gameStarted && !(uiModal || judgement.popup) && !hint.armed && balance >= HintCost) ==>
                unchanged(this)
    {
      var roundUnderway := gameStarted;
      var modalOpen := uiModal || judgement.popup;
      if roundUnderway && !modalOpen {
        if !hint.armed {
          if balance >= HintCost {
            hint := Hint(true, hint.round + 1, hint.run + 1);
            balance := balance - HintCost;
            ledger := ledger.(spent := ledger.spent + HintCost);
          }
        }
      }
    }

    /** The guidance after an unlock: the live guidance and the static
        optimum, both from the tip. */
    method RefreshGuidance()
      requires |unlocked| == OperatorCount && Confined(step)
      modifies this`livePossible, this`optimalNext, this`roundOptimal
      ensures LiveGuidance()
      ensures goal.None? || chain == [] ==> roundOptimal.None?
      ensures goal.Some? && chain != [] ==> IsShortest(step, Last(chain), goal.value, UnlockedSet(), roundOptimal)
    {
      RecomputeLiveGuidance();
      var current := if chain != [] then Some(Last(chain)) else None;
      RecomputeStaticOptimal(current);
    }

    /** The ledger side of an unlock purchase: pay the current price, set
        the operator's flag and raise the price by BUY_COST_STEP. */
    method BuyOperator(idx: OpIndex)
      requires Valid() && !unlocked[idx] && balance >= buyCost
      modifies this`balance, this`ledger, this`unlocked, this`buyCost
      ensures Valid()
      ensures balance == old(balance - buyCost) && ledger == old(ledger).(spent := old(ledger.spent + buyCost))
      ensures unlocked == old(unlocked)[idx := true] && buyCost == old(buyCost) + BuyCostStep
      ensures old(MovesUnlocked()) ==> MovesUnlocked()
    {
      CountGrows(unlocked, idx);
      PathWidens(step, chain, ops, unlocked, idx);
      var cost := buyCost;
      balance := balance - cost;
      ledger := ledger.(spent := ledger.spent + cost);
      unlocked := unlocked[idx := true];
      buyCost := buyCost + BuyCostStep;
    }

    /** Unlock purchase of operator `idx` at the current price; the guidance
        is then recomputed, the static optimum from the tip. */
    method PurchaseUnlock(idx: OpIndex, uiModal: bool)
      requires Valid()
      modifies this`balance, this`ledger, this`unlocked, this`buyCost, this`livePossible, this`optimalNext, this`roundOptimal
      ensures Valid()
      ensures old(gameStarted && shopVisible && balance >= buyCost && !(uiModal || judgement.popup) && !unlocked[idx]) ==>
                && balance == old(balance - buyCost) && ledger == old(ledger).(spent := old(ledger.spent + buyCost))
                && unlocked == old(unlocked)[idx := true]
                && buyCost == old(buyCost) + BuyCostStep
                && LiveGuidance()
                && (goal.None? || chain == [] ==> roundOptimal.None?)
                && (goal.Some? && chain != [] ==> IsShortest(step, Last(chain), goal.value, UnlockedSet(), roundOptimal))
      ensures !old(gameStarted && shopVisible && balance >= buyCost && !(uiModal || judgement.popup) && !unlocked[idx]) ==>
                unchanged(this)
      ensures old(MovesUnlocked()) ==> MovesUnlocked()
    {
      if gameStarted && shopVisible && balance >= buyCost && !(uiModal || judgement.popup) && !unlocked[idx] {
        BuyOperator(idx);
        RefreshGuidance();
      }
    }

    // -------------------------------------------------------------------
    // Starting rounds.

    /** The per-round part of `reset_game`: the round starts with no queued
        move, no failure and no judgement sequence. */
    method ClearRoundFlags()
      requires Valid()
      modifies this`gameStarted, this`pending, this`roundFailed, this`judgement
      ensures Valid()
      ensures gameStarted && pending.None? && !roundFailed && judgement == Quiet
    {
      gameStarted, pending, roundFailed, judgement := true, None, false, Quiet;
    }

    /** Each round starts with no hint armed or bought and with the shop
        open; a full reset also clears the run's hint count and closes the
        shop. */
    method ClearRoundHint(fullReset: bool)
      requires Valid()
      modifies this`hint, this`shopVisible
      ensures Valid()
      ensures hint == Hint(false, 0, if fullReset then 0 else old(hint.run)) && shopVisible == !fullReset
    {
      hint, shopVisible := Hint(false, 0, if fullReset then 0 else hint.run), !fullReset;
    }

    /** The full-reset part of `reset_game` for the run's Insight and
        summary: nothing earned, spent or held, no moves, optimum or hints
        recorded, and no streak. */
    method ClearRunTallies()
      requires Valid()
      modifies this`balance, this`ledger, this`totals, this`streak
      ensures Valid()
      ensures balance == 0 && ledger.earned == 0 && ledger.spent == 0
      ensures totals.moves == 0 && totals.optimal == 0 && streak.current == 0 && streak.best == 0
    {
      balance, ledger, totals, streak := 0, Ledger(0, 0), Totals(0, 0), Streak(0, 0);
    }

    /** The full-reset part of `reset_game` for the deck: an empty
        collection, no card used, and only the free operators at the
        starting price. */
    method ClearRunDeck()
      requires Valid() && judgement.outcome != Success
      modifies this`collected, this`used, this`unlocked, this`buyCost
      ensures Valid()
      ensures collected == {} && used == {} && unlocked == InitialUnlocks() && buyCost == BuyStartCost
    {
      InitialCount();
      collected, used := {}, {};
      unlocked, buyCost := InitialUnlocks(), BuyStartCost;
    }

    /** Everything `reset_game` does before dealing: the per-round state,
        and on a full reset the run's tallies and deck as well. */
    method ResetRoundState(fullReset: bool)
      requires Valid()
      modifies this`gameStarted, this`pending, this`roundFailed, this`judgement, this`hint, this`shopVisible,
               this`balance, this`ledger, this`totals, this`streak, this`collected, this`unlocked, this`buyCost, this`used
      ensures Valid()
      ensures gameStarted && pending.None? && !roundFailed && judgement == Quiet
      ensures !hint.armed && hint.round == 0 && shopVisible == !fullReset
      ensures fullReset ==> RunCleared()
      ensures !fullReset ==>
                && balance == old(balance) && ledger == old(ledger) && totals == old(totals) && streak == old(streak)
                && hint.run == old(hint.run) && collected == old(collected)
                && unlocked == old(unlocked) && buyCost == old(buyCost) && used == old(used)
    {
      ClearRoundFlags();
      ClearRoundHint(fullReset);
      if fullReset {
        ClearRunTallies();
        ClearRunDeck();
      }
    }

    /** The dealing part of `reset_game` from start code `start`: a catalogued
        start becomes the one-card chain of an open round; then a goal is
        drawn from the catalogue less the used cards and the start.  The goal
        is recorded as used, except on a full reset, which leaves the used
        set empty.  With nothing left to draw the round is locked and the
        goal kept. */
    method DealCards(start: Code, fullReset: bool) returns (dealt: bool)
      requires Valid() && !roundFailed && judgement.outcome == NoOutcome
      modifies this`chain, this`ops, this`locked, this`goal, this`used, this`previousGoal
      ensures Valid()
      ensures chain == (if start in catalog then [start] else old(chain))
      ensures ops == (if start in catalog then [] else old(ops))
      ensures dealt <==> !NoneLeft(catalog, old(used), start)
      ensures !dealt ==> locked && goal == old(goal) && used == old(used) && previousGoal == old(previousGoal)
      ensures dealt ==>
                && goal.Some? && goal.value in catalog && goal.value !in old(used) && goal.value != start
                && previousGoal == goal
                && used == (if fullReset then {} else old(used) + {goal.value})
                && locked == (start !in catalog && old(locked))
    {
      if start in catalog {
        chain, ops, locked := [start], [], false;
      }
      NoneLeftMeansEmptyPool(catalog, used, start);
      var pool := catalog - used - {start};
      if pool == {} {
        locked := true;
        return false;
      }
      var g :| g in pool;
      goal, previousGoal := Some(g), Some(g);
      used := if fullReset then {} else used + {g};
      dealt := true;
    }

    /** The three recomputations after a deal: the distance from the tip,
        the round's static optimum from `anchor`, and the live guidance. */
    method RecomputeRoundGuidance(anchor: Code)
      requires |unlocked| == OperatorCount && Confined(step) && goal.Some?
      modifies this`shortestPathLength, this`optimalNext, this`roundOptimal, this`livePossible
      ensures chain != [] ==> IsShortest(step, Last(chain), goal.value, UnlockedSet(), shortestPathLength)
      ensures IsShortest(step, anchor, goal.value, UnlockedSet(), roundOptimal)
      ensures LiveGuidance()
    {
      RecomputeOptimalGuidance();
      RecomputeStaticOptimal(Some(anchor));
      RecomputeLiveGuidance();
    }

    /** Dealing and the guidance that follows it, from start code `from`. */
    method StartRound(from: Code, fullReset: bool, ghost priorUsed: set<Code>,
                      ghost priorGoal: Option<Code>, ghost priorPrevious: Option<Code>)
      requires Valid() && !roundFailed && judgement.outcome == NoOutcome
      requires used == (if fullReset then {} else priorUsed)
      requires goal == priorGoal && previousGoal == priorPrevious
      modifies this`chain, this`ops, this`locked, this`goal, this`used, this`previousGoal,
               this`shortestPathLength, this`optimalNext, this`roundOptimal, this`livePossible
      ensures Valid()
      ensures chain == (if from in catalog then [from] else old(chain))
      ensures ops == (if from in catalog then [] else old(ops))
      ensures Dealt(from, fullReset, priorUsed, priorGoal, priorPrevious)
      ensures from in catalog ==> Settled()
    {
      var dealt := DealCards(from, fullReset);
      if dealt {
        RecomputeRoundGuidance(from);
      }
    }

    /** The start of `reset_game`'s deal: the given start code, or a tossed
        catalogue card, then the deal and its guidance. */
    method TossAndStart(start: Option<Code>, fullReset: bool, ghost priorUsed: set<Code>,
                        ghost priorGoal: Option<Code>, ghost priorPrevious: Option<Code>)
      requires Valid() && !roundFailed && judgement.outcome == NoOutcome
      requires used == (if fullReset then {} else priorUsed)
      requires goal == priorGoal && previousGoal == priorPrevious
      requires gameStarted && pending.None? && judgement == Quiet
      requires !hint.armed && hint.round == 0 && shopVisible == !fullReset
      modifies this`chain, this`ops, this`locked, this`goal, this`used, this`previousGoal,
               this`shortestPathLength, this`optimalNext, this`roundOptimal, this`livePossible
      ensures Valid()
      ensures gameStarted && pending.None? && !roundFailed && judgement == Quiet
      ensures !hint.armed && hint.round == 0 && shopVisible == !fullReset
      ensures start.None? ==> |chain| == 1 && chain[0] in catalog && ops == []
      ensures start.Some? && start.value in catalog ==> chain == [start.value] && ops == []
      ensures Dealt(if start.Some? then start.value else chain[0], fullReset, priorUsed, priorGoal, priorPrevious)
      ensures start.None? || start.value in catalog ==> Settled() && (pending.None? ==> MovesUnlocked())
    {
      var collapsed: Code;
      if start.None? {
        // generate_hexagram tosses 0/1 codes until one is catalogued.
        ghost var some :| some in catalog;
        assert IsBinary(some);
        collapsed :| IsBinary(collapsed) && collapsed in catalog;
      } else {
        collapsed := start.value;
      }
      StartRound(collapsed, fullReset, priorUsed, priorGoal, priorPrevious);
    }

    /** `reset_game(start, fullReset)`: a new round from `start`, or from a
        tossed catalogue card when none is given.  The goal is drawn from
        the catalogue less the used cards (none after a full reset) and the
        start; the static optimum is anchored at the start code. */
    method ResetGame(start: Option<Code>, fullReset: bool)
      requires Valid()
      modifies this`gameStarted, this`pending, this`roundFailed, this`judgement, this`hint, this`shopVisible,
               this`balance, this`ledger, this`totals, this`streak, this`collected, this`unlocked, this`buyCost,
               this`chain, this`ops, this`locked, this`goal, this`used, this`previousGoal,
               this`shortestPathLength, this`optimalNext, this`roundOptimal, this`livePossible
      ensures Valid()
      ensures gameStarted && pending.None? && !roundFailed && judgement == Quiet
      ensures !hint.armed && hint.round == 0 && shopVisible == !fullReset
      ensures fullReset ==> RunCleared()
      ensures !fullReset ==>
                && balance == old(balance) && ledger == old(ledger) && totals == old(totals) && streak == old(streak)
                && hint.run == old(hint.run) && collected == old(collected)
                && unlocked == old(unlocked) && buyCost == old(buyCost)
      ensures start.None? ==> |chain| == 1 && chain[0] in catalog
      ensures start.Some? && start.value in catalog ==> chain == [start.value]
      ensures Dealt(if start.Some? then start.value else chain[0], fullReset, old(used), old(goal), old(previousGoal))
      ensures start.None? || start.value in catalog ==> Settled() && MovesUnlocked()
    {
      ghost var priorUsed, priorGoal, priorPrevious := used, goal, previousGoal;
      ResetRoundState(fullReset);
      TossAndStart(start, fullReset, priorUsed, priorGoal, priorPrevious);
    }

    /** The coins button on the judgement popup: after a success with cards
        still to collect, the goal card is sent to the start slot; after the
        success that completes the deck, or after a failure, a fresh run
        begins. */
    method CloseJudgement()
      requires Valid() && judgement.popup && goal.Some?
      modifies this`goalToStart, this`gameStarted, this`pending, this`roundFailed, this`judgement, this`hint, this`shopVisible,
               this`balance, this`ledger, this`totals, this`streak, this`collected, this`unlocked, this`buyCost,
               this`chain, this`ops, this`locked, this`goal, this`used, this`previousGoal,
               this`shortestPathLength, this`optimalNext, this`roundOptimal, this`livePossible
      ensures Valid() && !judgement.popup
      ensures old(judgement.outcome == Success && |collected| < DeckSize) ==>
                && goalToStart == old(goal) && judgement == old(judgement).(popup := false)
                && unchanged(this`gameStarted, this`locked, this`roundFailed, this`chain, this`ops, this`goal, this`previousGoal,
                             this`used, this`collected, this`pending, this`unlocked, this`buyCost, this`shopVisible,
                             this`hint, this`balance, this`ledger, this`totals, this`streak, this`lastRoundInsight,
                             this`shortestPathLength, this`roundOptimal, this`livePossible, this`optimalNext)
      ensures old(judgement.outcome != Success || |collected| >= DeckSize) ==>
                && RunCleared() && RoundOpened(true) && |chain| == 1 && chain[0] in catalog
                && Dealt(chain[0], true, old(used), old(goal), old(previousGoal)) && Settled() && MovesUnlocked()
                && goalToStart == old(goalToStart)
    {
      judgement := judgement.(popup := false);
      if judgement.outcome == Success && |collected| < DeckSize {
        goalToStart := goal;
      } else {
        ResetGame(None, true);
      }
    }

    /** The coins button: it acts only before the first toss or on the
        judgement popup.  Without a started game or a goal it begins a fresh
        run; otherwise it closes the judgement. */
    method PressCoins()
      requires Valid()
      modifies this`goalToStart, this`gameStarted, this`pending, this`roundFailed, this`judgement, this`hint, this`shopVisible,
               this`balance, this`ledger, this`totals, this`streak, this`collected, this`unlocked, this`buyCost,
               this`chain, this`ops, this`locked, this`goal, this`used, this`previousGoal,
               this`shortestPathLength, this`optimalNext, this`roundOptimal, this`livePossible
      ensures Valid()
      ensures old(gameStarted && !judgement.popup) ==> unchanged(this)
      ensures old((!gameStarted || judgement.popup) && (!gameStarted || goal.None?)) ==>
                && RunCleared() && RoundOpened(true) && |chain| == 1 && chain[0] in catalog
                && Dealt(chain[0], true, old(used), old(goal), old(previousGoal)) && Settled() && MovesUnlocked()
                && goalToStart == old(goalToStart)
      ensures old(gameStarted && judgement.popup && goal.Some? && judgement.outcome == Success && |collected| < DeckSize) ==>
                && goalToStart == old(goal) && judgement == old(judgement).(popup := false)
                && unchanged(this`gameStarted, this`locked, this`roundFailed, this`chain, this`ops, this`goal, this`previousGoal,
                             this`used, this`collected, this`pending, this`unlocked, this`buyCost, this`shopVisible,
                             this`hint, this`balance, this`ledger, this`totals, this`streak, this`lastRoundInsight,
                             this`shortestPathLength, this`roundOptimal, this`livePossible, this`optimalNext)
      ensures old(gameStarted && judgement.popup && goal.Some? && (judgement.outcome != Success || |collected| >= DeckSize)) ==>
                && RunCleared() && RoundOpened(true) && |chain| == 1 && chain[0] in catalog
                && Dealt(chain[0], true, old(used), old(goal), old(previousGoal)) && Settled() && MovesUnlocked()
                && goalToStart == old(goalToStart)
    {
      if !gameStarted || judgement.popup {
        if !gameStarted || goal.None? {
          ResetGame(None, true);
        } else {
          CloseJudgement();
        }
      }
    }

    /** The end of the goal-to-start swoosh: the won goal becomes the start
        of the next round, which keeps the run's balance, collection and
        unlocks, unless the deck is complete, when a fresh run begins. */
    method FinishGoalToStart()
      requires Valid()
      modifies this`goalToStart, this`gameStarted, this`pending, this`roundFailed, this`judgement, this`hint, this`shopVisible,
               this`balance, this`ledger, this`totals, this`streak, this`collected, this`unlocked, this`buyCost,
               this`chain, this`ops, this`locked, this`goal, this`used, this`previousGoal,
               this`shortestPathLength, this`optimalNext, this`roundOptimal, this`livePossible
      ensures Valid() && goalToStart.None?
      ensures old(goalToStart).None? ==> unchanged(this)
      ensures old(goalToStart.Some? && |collected| >= DeckSize) ==>
                && RunCleared() && RoundOpened(true) && |chain| == 1 && chain[0] in catalog
                && Dealt(chain[0], true, old(used), old(goal), old(previousGoal)) && Settled() && MovesUnlocked()
      ensures old(goalToStart.Some? && |collected| < DeckSize) ==>
                && chain == [old(goalToStart).value] && RoundOpened(false) && Settled() && MovesUnlocked()
                && balance == old(balance) && ledger == old(ledger) && totals == old(totals) && streak == old(streak)
                && hint.run == old(hint.run) && collected == old(collected) && unlocked == old(unlocked)
                && Dealt(old(goalToStart).value, false, old(used), old(goal), old(previousGoal))
    {
      if goalToStart.Some? {
        var start := goalToStart.value;
        goalToStart := None;
        if |collected| >= DeckSize {
          ResetGame(None, true);
        } else {
          ResetGame(Some(start), false);
        }
      }
    }
  }
}
