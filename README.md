# hexadeck: the round engine

hexadeck is a single-file pygame puzzle. A round shows a start hexagram and a
goal hexagram; the player turns the start into the goal by applying
operators (SHIFT, FLIP, SWAP, UNHIDE, INVERT and four trigram operators),
each move adding one card to the chain, with at most ten moves. Reaching
the goal collects it into the deck and earns Insight points, with which
hints and further operators are bought. A breadth-first search over the 64
codes measures the shortest remaining distance; it drives the OPTIMAL
marker, the POSSIBLE / NOT POSSIBLE marker and the hint ring.

This project models that engine and proves properties of it:

- `Hexagram` (`hexagram.dfy`): the nine operators as functions on
  six-character codes, their catalogue order and the free operators; their
  closure, involution and idempotence facts.
- `Reach` (`reach.dfy`): `shortest_path_with_allowed` as an imperative
  breadth-first search over maps and a queue, proved against `Layer`, the
  set of codes reachable in exactly `n` steps. The distance is the shortest
  one, None exactly when the goal is unreachable. Every returned first move
  starts a shortest path.
- `Economy` (`economy.dfy`): the prices, the once-per-round award and the
  hintless-optimal streak as functions, with monotonicity lemmas.
- `Guidance` (`guidance.dfy`): the OPTIMAL and NOT POSSIBLE markers, and what
  they mean in terms of reachability.
- `Engine` (`engine.dfy`): the module globals become the fields of one
  `Game` object. The code paths that change them become methods:
  - `reset_game`;
  - moves, and win and failure detection;
  - the judgement popup and `finalize_round_awards`;
  - the coins button, the goal-to-start swoosh, and the hint and unlock
    purchases.

  `Game.Valid` is the invariant every command keeps. Among other things:
  - the balance is never negative and equals Insight earned minus Insight
    spent;
  - the unlock price follows the number of unlocks;
  - a won round's goal is its tip and has been collected;
  - a failed round is locked off the goal.

The catalogue (`HEXAGRAM_DATA`, loaded from JSON) is the constructor's
`catalog` parameter. The random start and goal are nondeterministic choices
(`:|`) from the sets the source draws from. Frame timers and "a popup is
open" are boolean inputs. Several globals that the source always sets
together are grouped into one datatype field each:

- `Judgement`: WIN_SEQ_ACTIVE, SEQ_OUTCOME, POPUP_VISIBLE and AWARDS_GRANTED;
- `Ledger`: RUN_TOTAL_INSIGHT and RUN_TOTAL_SPENT;
- `Totals`: RUN_TOTAL_MOVES and RUN_TOTAL_OPTIMAL;
- `Streak`: OPTIMAL_STREAK_CURR and OPTIMAL_STREAK_BEST;
- `Hint`: HINTS_ENABLED, HINTS_COUNT_THIS_ROUND and RUN_HINTS_COUNT.

Notes on the source:

- The catalogue `TRANSFORMATIONS` at `src/main.py:317-413` holds nine
  operators.
- SWAP exchanges the two trigrams (`src/main.py:286-287`), so it is
  self-inverse (`SwapIsSelfInverse`).
- The operator buttons are greyed out by `transforms_enabled`, but a click
  is accepted under the click handler's own test
  (`src/main.py:1093-1103`): a non-empty chain, an open round and
  `is_change_unlocked`. The model follows the click handler.
- `reset_game` assigns `ROUND_START_BIN` at `src/main.py:949` without a
  `global` declaration, so the global anchor stays None. The model passes
  the anchor explicitly. Without one, the static optimum is measured from
  the tip, as `recompute_static_optimal` does when the global is None.

## Model

| member | source | states |
|---|---|---|
| Hexagram.Reverse | src/main.py:280-281 | the result has the input's length and holds its characters in reverse order |
| Hexagram.Complement | src/main.py:272-273 | the result is a 0/1 string of the input's length with a '1' exactly where the input has no '1' |
| Hexagram.Shift | src/main.py:283-284 | SHIFT moves every line up one place and the top line to the bottom |
| Hexagram.Flip | src/main.py:280-281 | FLIP reverses the order of the six lines |
| Hexagram.Swap | src/main.py:286-287 | SWAP exchanges the lower and upper trigrams |
| Hexagram.Unhide | src/main.py:269-270 | UNHIDE makes lines 1..3 the new lower trigram and lines 2..4 the new upper trigram |
| Hexagram.Invert | src/main.py:272-273 | INVERT yields a 0/1 code with a yang line exactly where the input has none |
| Hexagram.InvertLower | src/main.py:275-278 | INVERT ▼ complements the lower trigram and keeps the upper one |
| Hexagram.FlipLower | src/main.py:299-302 | FLIP ▼ reverses the lower trigram and keeps the upper one |
| Hexagram.MirrorUpper | src/main.py:294-297 | MIRROR ▲ keeps the lower trigram and writes it backwards into the upper trigram |
| Hexagram.CopyUpper | src/main.py:289-292 | COPY ▲ keeps the lower trigram and copies it into the upper trigram |
| Hexagram.Apply | src/main.py:317-413 | the `func` of catalogue entry i, in button order: SHIFT, FLIP, SWAP, UNHIDE, INVERT, INVERT ▼, FLIP ▼, MIRROR ▲, COPY ▲ (its properties are the lemmas below) |
| Hexagram.InitialUnlocks | src/main.py:416 | a run starts with nine flags, set exactly for SHIFT, INVERT ▼ and MIRROR ▲ (indices 0, 5, 7) |
| Hexagram.ApplyPreservesBinary | src/main.py:317-413 | every catalogue operator maps a 0/1 code to a 0/1 code |
| Hexagram.ApplyStaysOver | src/main.py:269-314 | no operator introduces a character other than the input's lines, '0' and '1' |
| Hexagram.FlipIsSelfInverse | src/main.py:280-281 | FLIP applied twice gives back the code |
| Hexagram.SwapIsSelfInverse | src/main.py:286-287 | SWAP applied twice gives back the code |
| Hexagram.InvertIsSelfInverse | src/main.py:272-273 | INVERT applied twice gives back any 0/1 code |
| Hexagram.InvertLowerIsSelfInverse | src/main.py:275-278 | INVERT ▼ applied twice gives back any 0/1 code |
| Hexagram.FlipLowerIsSelfInverse | src/main.py:299-302 | FLIP ▼ applied twice gives back the code |
| Hexagram.MirrorUpperIsIdempotent | src/main.py:294-297 | a second MIRROR ▲ changes nothing |
| Hexagram.CopyUpperIsIdempotent | src/main.py:289-292 | a second COPY ▲ changes nothing |
| Hexagram.ShiftTimesRotates | src/main.py:283-284 | n ≤ 6 SHIFTs rotate the top n lines to the bottom |
| Hexagram.ShiftSixIsIdentity | src/main.py:283-284 | six SHIFTs give back the code |
| Hexagram.SomeOperatorsAreNotInvolutions | src/main.py:269-292 | SHIFT, UNHIDE and COPY ▲ are not self-inverse, each shown by a code |
| Reach.ShortestPathWithAllowed | src/main.py:1502-1561 | (0, ∅) when start is the goal; otherwise the distance is the fewest allowed-operator steps, None exactly when the goal is unreachable; every returned first move is allowed and leaves a path one step shorter, and there is one exactly when the distance is positive |
| Reach.SearchStarts | src/main.py:1515-1520 | the initial search state (start at depth 0, nothing found) satisfies the loop invariant |
| Reach.Dequeue | src/main.py:1522-1524 | the head of the queue is its shallowest code, and popping it keeps the queue ordered and every known code finished or waiting |
| Reach.Prune | src/main.py:1526-1528 | a code at or past the best depth can be dropped without expanding it |
| Reach.ExpandNode | src/main.py:1530-1559 | expanding a code keeps the search invariant, finishes the code and only adds discovered codes |
| Reach.Visit | src/main.py:1538-1559 | one operator applied to the current code: a new code gets depth d+1 and the first move, the goal's first move is recorded at the best depth, and the search invariant holds |
| Reach.SearchConcludes | src/main.py:1522-1561 | when the queue is empty, the recorded best depth is the shortest distance and the recorded first moves are sound |
| Reach.LayerConcat | src/main.py:1502-1561 | a path of n steps followed by one of m steps is a path of n+m steps |
| Reach.LayerMonotone | src/main.py:1502-1561 | more allowed operators reach at least the same codes in n steps |
| Reach.DistanceUnique | src/main.py:1502-1561 | the shortest distance is unique |
| Reach.MoreOperatorsNeverLonger | src/main.py:1502-1561 | enlarging the allowed operators never lengthens the shortest path |
| Reach.FewerOperatorsNeverReachMore | src/main.py:1502-1561 | a goal unreachable with more operators is unreachable with fewer |
| Reach.NoOperatorsReachNothingElse | src/main.py:1502-1561 | with no allowed operators a goal other than the start is unreachable |
| Reach.FirstMoveDistance | src/main.py:1539-1551 | a first move that starts a shortest path of length d leaves the goal at distance exactly d−1 |
| Economy.RoundOptimal | src/main.py:1636 | `optimal`: the static distance, or the moves taken when there is none |
| Economy.WasOptimal | src/main.py:1637 | `was_optimal`: a static distance exists and the round took exactly that many moves |
| Economy.BaseAward | src/main.py:1650 | `base` is at least 1, it is the optimum itself for a round played in exactly the optimum, and above 1 whenever fewer than 2·optimum − 1 moves were made |
| Economy.RawAward | src/main.py:1650-1656 | `gained_raw`: base, plus the optimal bonus on an optimal round, plus the updated streak, less HINT_PENALTY_IP per hint bought |
| Economy.UnlockPrice | src/main.py:121-130 | BUY_COST_CURRENT as a function of the unlock count: BUY_START_COST with the three free operators, BUY_COST_STEP more per unlock (its properties are UnlockPriceEscalates) |
| Economy.NextStreak | src/main.py:1640-1646 | the streak grows by one exactly on a hintless optimal success, otherwise it drops to 0 |
| Economy.SuccessAward | src/main.py:1648-1657 | the success award is at least SUCCESS_AWARD_MIN_IP and is the raw award whenever that is higher |
| Economy.AwardForOptimalHintlessRound | src/main.py:1648-1657 | an optimal three-move hintless round starting a streak earns 5 |
| Economy.AwardFloor | src/main.py:1657 | a success with many hints still earns 1 |
| Economy.HintsNeverHelp | src/main.py:1654-1657 | more hints never raise the award |
| Economy.StreakNeverHurts | src/main.py:1653-1657 | a longer streak never lowers the award |
| Economy.FewerMovesNeverHurt | src/main.py:1650-1657 | against a known optimum, a shorter winning chain never earns less |
| Economy.UnlockPriceEscalates | src/main.py:1083 | the first unlock costs BUY_START_COST, each unlock raises the price by BUY_COST_STEP, and after three purchases it is 24 |
| Guidance.ChainNeverBeatsOptimal | src/main.py:2950-2953 | moves made plus the live distance are never below the static optimum |
| Guidance.OptimalStillPossibleIffOnTrack | src/main.py:2946-2955 | the OPTIMAL marker holds exactly when the goal is reachable from the tip in the optimum's remaining moves |
| Guidance.OptimalStillPossible | src/main.py:2950-2953 | `optimal_still_possible`: a live distance exists and the moves made plus it equal the static optimum (its meaning is OptimalStillPossibleIffOnTrack) |
| Guidance.Remaining | src/main.py:3011 | the moves left are the move limit less the moves made, never below 0 and never above the limit |
| Guidance.NotPossible | src/main.py:3014 | `impossible`: no live distance, or one larger than the moves left (its meaning is NotPossibleIffOutOfReach) |
| Guidance.OptimalBroken | src/main.py:2944-2955 | `optimal_broken`: the OPTIMAL marker's guard holds (a started round with a goal and a static optimum, no popup) and the optimum can no longer be met |
| Guidance.ShowsNotPossible | src/main.py:3008-3017 | NOT POSSIBLE is drawn: the marker's guard holds, `optimal_broken` holds and `impossible` holds |
| Guidance.NotPossibleIffOutOfReach | src/main.py:3011-3014 | the `impossible` test holds exactly when no path within the remaining moves leads from the tip to the goal |
| Guidance.NotPossibleShownIff | src/main.py:2944-3017 | without a static optimum NOT POSSIBLE is never drawn, even for an unreachable goal; with a static optimum within the move limit it is drawn, in a started round without a popup, exactly when no path within the remaining moves leads from the tip to the goal |
| Engine.Allowed | src/main.py:1498-1500 | the allowed indices are the set flags' positions, each once, in increasing order |
| Engine.AllowedFlagged | src/main.py:1498-1500 | the allowed indices are exactly the unlocked operators |
| Engine.AllowedCount | src/main.py:1498-1500 | there are as many allowed indices as unlocked operators |
| Engine.CountGrows | src/main.py:1082 | unlocking a locked operator adds exactly one unlock |
| Engine.InitialCount | src/main.py:416 | a run starts with three operators unlocked |
| Engine.InitialAllowed | src/main.py:416 | a run starts with SHIFT, INVERT ▼ and MIRROR ▲ allowed, in that order |
| Engine.ApplyConfined | src/main.py:317-413 | the catalogue's operators keep every code within the letters of the start, '0' and '1', so the search space is finite |
| Engine.NoneLeftMeansEmptyPool | src/main.py:927-929 | "no goal can be drawn" is the same as the candidate set catalogue − used − {start} being empty |
| Engine.PathExtends | src/main.py:800-815 | a move by an unlocked operator extends a chain built by unlocked operators |
| Engine.PathWidens | src/main.py:1082 | unlocking an operator keeps every chain built so far a valid path |
| Engine.PathReachesTip | src/main.py:800-815 | the tip of a chain of k moves is reachable from its first card in exactly k steps |
| Engine.Game.IsChangeUnlocked | src/main.py:1484-1488 | a button is usable exactly in a started round with no popup open and an operator in the allowed list the search uses |
| Engine.Game.TransformsEnabled | src/main.py:493-502 | the buttons are drawn usable only when no judgement sequence, failure or popup is under way and a dealt round has a goal |
| Engine.Game.constructor | src/main.py:614-669 | before the first toss: no round started, empty chain, no goal, a cleared run, the free unlocks at the starting price, no guidance |
| Engine.Game.RecomputeOptimalGuidance | src/main.py:1563-1579 | without a goal or chain: None and no first moves; otherwise the shortest distance from the tip and sound first moves with the unlocked operators |
| Engine.Game.RecomputeStaticOptimal | src/main.py:1581-1606 | None without a goal or anchor; otherwise the shortest distance from the anchor (or the tip) to the goal |
| Engine.Game.RecomputeLiveGuidance | src/main.py:1608-1622 | the live distance and hint ring describe the tip: shortest distance and sound first moves |
| Engine.Game.AppendCard | src/main.py:805-834 | one card and one operator appended, the hint disarmed, and the round locked and failed exactly when the move exceeds the limit off the goal |
| Engine.Game.ApplyTransformation | src/main.py:797-837 | nothing changes with an empty chain, a locked round or a result outside the catalogue; otherwise exactly the card f(tip) is appended, the hint is consumed, the over-limit check applies and the live guidance describes the new tip |
| Engine.Game.HandleTransformationClick | src/main.py:977-993 | a valid index is queued unless the round is locked or a move is already waiting; a queued unlocked move keeps the chain's moves unlocked |
| Engine.Game.ClickTransform | src/main.py:1093-1103 | on an open round, a usable operator closes the shop and queues the move; anything else changes nothing |
| Engine.Game.ResolvePending | src/main.py:2286-2296 | the pending move is cleared; with none nothing changes; a move that ApplyTransformation ignores (empty chain, locked round, result not catalogued) changes nothing else; otherwise exactly the card f(tip) and its operator are appended, the hint is consumed, the round is locked and failed exactly past the limit off the goal, and the live guidance describes the new tip; a chain built by unlocked operators stays so, and a live round never ends past the limit |
| Engine.Game.AddRoundToTotals | src/main.py:2907-2918 | the round's base award becomes LAST_ROUND_INSIGHT, its moves and optimum join the run totals, and the hint is disarmed |
| Engine.Game.MarkWon | src/main.py:2888-2901 | the round is locked with a running success sequence, and the goal is added to the collection (once) |
| Engine.Game.DetectWin | src/main.py:2888-2920 | the first time the tip is the goal, the round is locked as a success, the goal collected (once), LAST_ROUND_INSIGHT set to the base award, the totals increased using `shortest_path_length`, and the hint disarmed with its counts kept; otherwise nothing changes |
| Engine.Game.DetectFailure | src/main.py:3052-3064 | at or past the move limit off the goal, with no sequence running, the round is locked and failed; otherwise nothing changes |
| Engine.Game.StartFailureSequence | src/main.py:3066-3081 | a failed, locked round without a sequence starts the failure sequence, sets LAST_ROUND_INSIGHT to the base award, adds its moves and the static optimum to the totals, and disarms the hint with its counts kept; otherwise nothing changes |
| Engine.Game.UpdateStreak | src/main.py:1640-1646 | the streak becomes the judged streak and the best streak its maximum with the old best |
| Engine.Game.PayRoundAward | src/main.py:1648-1663 | on success the award is paid into the balance and the run total and recorded; otherwise LAST_ROUND_INSIGHT is 0 |
| Engine.Game.FinalizeRoundAwards | src/main.py:1624-1666 | awards are granted at most once per round: when already granted nothing changes; otherwise the streak and best streak become the judged ones, LAST_ROUND_INSIGHT is the round's gain, balance and earned Insight rise by it and spent Insight is kept; a success gains at least 1, while a failure leaves the balance unchanged and the streak at 0 |
| Engine.Game.ShowJudgement | src/main.py:3209-3262 | on a running sequence without the popup the popup opens and the awards are marked granted; if they were not yet granted, the streak, best streak, LAST_ROUND_INSIGHT, balance and earned Insight take the round's award, otherwise those stay as they were; with no running sequence or the popup already open nothing changes |
| Engine.Game.DetectOutcome | src/main.py:2888-3081 | with a sequence running nothing changes; the first time the tip is the goal, the round is locked as a success with the goal collected, base award, totals (via `shortest_path_length`) and the disarmed hint; a failed round, or one at or past the limit off the goal, is locked and failed with the failure sequence, base award, totals (via ROUND_OPTIMAL_DIST) and the disarmed hint; otherwise nothing changes. In every case the awards flag is untouched, an open round is live and the collection never shrinks |
| Engine.Game.JudgeFrame | src/main.py:2888-3262 | the detection block's guarantees hold after the popup step too; the balance never falls; awards already granted are not paid again (balance, ledger and streak kept); without the popup step they are all kept; with it, a running sequence of a dealt round ends with the popup open and the awards granted |
| Engine.Game.Frame | src/main.py:2286-3262 | after one frame: an open round is live; ten or more moves off the goal mean a failed round judged a failure; a tip at the goal is a collected success; the collection and balance never shrink; the goal and unlocks are untouched and the chain stays built by unlocked operators; awards already granted are not paid again; without a due move the chain and pending move are kept, with one the pending move is cleared and the chain grows by at most the card it makes |
| Engine.Game.PurchaseHint | src/main.py:1037-1058 | with a started round, no modal, no armed hint and balance ≥ HINT_COST_IP, the hint is armed, both hint counters rise by one and exactly the cost is debited and recorded as spent; otherwise nothing changes |
| Engine.Game.RefreshGuidance | src/main.py:1084-1088 | the live guidance and the static optimum are recomputed from the tip |
| Engine.Game.BuyOperator | src/main.py:1078-1083 | the current price is debited and recorded as spent, only the bought flag is set, and the price rises by BUY_COST_STEP |
| Engine.Game.PurchaseUnlock | src/main.py:1068-1091 | with a started round, open shop, no modal, a locked operator and balance ≥ the price, the operator is bought and the guidance re-anchored at the tip; otherwise nothing changes |
| Engine.Game.ClearRoundFlags | src/main.py:857-872 | a new round is started with no pending move, no failure and no judgement sequence |
| Engine.Game.ClearRoundHint | src/main.py:867-895 | no hint armed or bought this round; a full reset also clears the run's hint count and closes the shop, otherwise the shop opens |
| Engine.Game.ClearRunTallies | src/main.py:877-887 | a full reset zeroes the balance, earned and spent Insight, move totals and both streaks |
| Engine.Game.ClearRunDeck | src/main.py:889-900 | a full reset empties the collection and the used set and restores the free unlocks at BUY_START_COST |
| Engine.Game.ResetRoundState | src/main.py:857-900 | the per-round reset, plus the run reset exactly on a full reset; otherwise the run's state is untouched |
| Engine.Game.DealCards | src/main.py:913-958 | a catalogued start becomes the one-card chain of an open round; the goal is an unused catalogued card other than the start, recorded as used (none on a full reset); with no candidate the round is locked and the goal kept |
| Engine.Game.RecomputeRoundGuidance | src/main.py:946-951 | the distance from the tip, the static optimum from the start and the live guidance all describe the new round |
| Engine.Game.StartRound | src/main.py:913-958 | the deal and its guidance: the round is dealt as `Dealt` describes, and a catalogued start gives a live round |
| Engine.Game.TossAndStart | src/main.py:902-958 | the given start or a tossed catalogue card is dealt from, and the round flags stay cleared |
| Engine.Game.ResetGame | src/main.py:839-975 | a new round: flags cleared, the goal neither used nor the start (or the round locked and the goal kept when none is left), the goal added to the used set, a full reset clearing balance, totals, streaks, collection and used set and restoring the free unlocks at BUY_START_COST; otherwise the run's state is kept |
| Engine.Game.CloseJudgement | src/main.py:1010-1034 | the popup closes; after a success with the deck incomplete the goal is sent to the start slot and every other field is unchanged; otherwise a fresh run begins: the run cleared, the round flags cleared (no queued move, failure, judgement or hint, shop closed), a tossed catalogued start dealt from as `Dealt` describes, a live round whose moves are unlocked, and GOAL2START and LAST_ROUND_INSIGHT kept |
| Engine.Game.PressCoins | src/main.py:1005-1035 | the coins button acts only before the first toss or on the popup: a fresh run without a started game or goal; otherwise the judgement closes, sending the goal to the start slot with every other field unchanged after an incomplete deck's success, or beginning a fresh run. Every fresh run is cleared, has its round flags cleared (no queued move, failure, judgement or hint, shop closed), is dealt from a tossed catalogued start as `Dealt` describes, and keeps GOAL2START and LAST_ROUND_INSIGHT; anywhere else nothing changes |
| Engine.Game.FinishGoalToStart | src/main.py:1800-1813 | GOAL2START is cleared; the won goal starts the next round with the round flags cleared (no queued move, failure, judgement or hint, shop open), dealt as `Dealt` describes and live, keeping balance, ledger, totals, streak, run hint count, collection and unlocks; a complete deck starts a fresh run instead, cleared, with the flags cleared (shop closed) and dealt from a tossed catalogued start; LAST_ROUND_INSIGHT is kept; without a swoosh nothing changes |

## Left out

- Rendering, layout, fonts, assets, tooltips, popups' drawing and the
  JavaScript bridge: presentation and platform code.
- Card metadata (number, glyph, name, labels, colours) is not modelled.
  The chain holds codes only.
- Frame timing is not modelled: the pending-move delay, the win and
  failure sequence delays, and the deck and goal-to-start swooshes.
  `Frame` takes "the pending move is due" and "the popup is due" as
  inputs. `FinishGoalToStart` is the swoosh's end, and the caller decides
  when its duration is over.
- Randomness is not modelled: `generate_hexagram` and `random.choice`
  become nondeterministic choices from the catalogue and from the
  candidate set.
- "A deck or help popup is open" is the input `uiModal`; toggling those
  popups and hit-testing clicks are left out.
- The success branch of the popup step assumes the win card has been laid
  out (`WIN_CARD_RECT`), which is a drawing concern.
- Flags nothing in the core reads are not modelled: `has_moved`,
  `goal_revealed`, `help_popup_visible`, `HINTS_PURCHASED_THIS_ROUND`,
  `HINTS_USED_THIS_ROUND`, `RUN_HINTS_USED`, `LAST_ROUND_USED_HINTS`,
  `POPUP_WAS_VISIBLE`, `ADD2DECK`, `ADD2DECK_DONE`, `WIN_SEQ_STARTED_AT`,
  `optimal_filled_wrong`, `DISPLAY_TOTAL_INSIGHT` and
  `ENDGAME_TEST_ARMED`.
- `hexagrams_collected` is not a separate field. Outside the disabled
  developer tool, every assignment keeps it equal to the size of
  `collected_hexagrams`, so the model uses `|collected|`.
- `arm_endgame_test` is not modelled: it is a developer tool switched off
  by a constant.
- The search's `try`/`except` and its empty-result check are not modelled,
  because every operator is total on six-character codes. Operators on
  strings of other lengths are outside the model.
- Engine.Game.TransformsEnabled only decides how the operator buttons are
  drawn. No command consults it; clicks go through `ClickTransform`.
- `generate_hexagram` is tossed in the source until a catalogued code comes
  up. The model takes a catalogued 0/1 code in one step, and the
  constructor requires every catalogued code to be 0/1 (`BinaryCatalog`),
  as the keys of HEXAGRAM_DATA are; with no such code the source loops
  forever.
- Engine.Game.JudgeFrame and Engine.Game.Frame do not give the exact
  Insight paid by the popup step. That amount is stated by ShowJudgement
  over the state the detection block leaves. The two only promise that
  the balance never falls and that awards already granted are not paid
  again.
- Engine.Game.Frame states the chain, the pending move, the goal, the
  unlocks and the awards, not every other field; the full effect of its
  parts is stated by ResolvePending, DetectOutcome and ShowJudgement.
- Reach.ShortestPathWithAllowed: the first moves are proved sound, not
  complete. The search records only the first move of a code's first
  discoverer, so it may miss optimal first moves.
- Engine.Game.DealCards sets the goal, previous goal and used set before
  the three recomputations; the source sets the last two after them. The
  recomputations read neither the previous goal nor the used set, so the
  final state is the same.
- Engine.Game.ResetGame clears the used set on a full reset once, and
  zeroes the run totals once. The source clears the used set both before
  the deal and after adding the goal, and zeroes the totals a second time
  at the end. The resulting state is the same.
- Engine.Game.ApplyTransformation appends the card, consumes the hint and
  checks the limit before it recomputes the live guidance; the source
  recomputes first. The steps touch disjoint state, so the result is the
  same.
