/** Reachability over the 64 binary hexagram codes: the breadth-first search
    `shortest_path_with_allowed` and the graph facts it is specified by.

    The graph has an edge from `c` to `step(i, c)` for every allowed operator
    index `i`.  `Layer(step, s, A, n)` is the set of codes reachable from `s` in
    exactly `n` such steps; the search is proved against it. */
module Reach {
  import opened Optional
  import opened Hexagram

  /** Operator `i` applied to a code. */
  type Stepper = (OpIndex, Code) -> Code

  /** The operators never leave an alphabet that holds '0' and '1'. */
  ghost predicate Confined(step: Stepper) {
    forall i: OpIndex, c: Code, S: set<char> :: '0' in S && '1' in S && Over(c, S) ==> Over(step(i, c), S)
  }

  /** The set of operator indices listed in `allowed`. */
  function Elements(allowed: seq<OpIndex>): set<OpIndex> {
    set i | i in allowed
  }

  /** Codes reachable from `s` in exactly `n` steps with operators in `A`. */
  ghost function Layer(step: Stepper, s: Code, A: set<OpIndex>, n: nat): set<Code>
    decreases n
  {
    if n == 0 then {s}
    else set c, i | c in Layer(step, s, A, n - 1) && i in A :: step(i, c)
  }

  /** `d` is the fewest steps from `s` to `g`. */
  ghost predicate IsDistance(step: Stepper, s: Code, g: Code, A: set<OpIndex>, d: nat) {
    g in Layer(step, s, A, d) && forall m :: 0 <= m < d ==> g !in Layer(step, s, A, m)
  }

  /** No number of steps leads from `s` to `g`. */
  ghost predicate Unreachable(step: Stepper, s: Code, g: Code, A: set<OpIndex>) {
    forall m: nat :: g !in Layer(step, s, A, m)
  }

  /** `r` is the shortest distance, or None exactly when `g` cannot be reached. */
  ghost predicate IsShortest(step: Stepper, s: Code, g: Code, A: set<OpIndex>, r: Option<nat>) {
    match r
    case Some(d) => IsDistance(step, s, g, A, d)
    case None => Unreachable(step, s, g, A)
  }

  /** Every member of `moves` is an allowed first step of some shortest path;
      there is one when the distance is positive and none otherwise. */
  ghost predicate FirstMovesSound(step: Stepper, s: Code, g: Code, A: set<OpIndex>, r: Option<nat>, moves: set<OpIndex>) {
    && moves <= A
    && (moves == {} <==> r.None? || r.value == 0)
    && forall i :: i in moves ==> r.Some? && r.value > 0 && IsDistance(step, step(i, s), g, A, r.value - 1)
  }

  // ---------------------------------------------------------------------
  // The finite universe of codes (for termination of the search).

  /** The lines of `s` together with '0' and '1': every code reachable from
      `s` is written in these letters. */
  function Alphabet(s: Code): set<char> {
    {s[0], s[1], s[2], s[3], s[4], s[5], '0', '1'}
  }

  /** All codes written in the letters of `S` (finitely many when `S` is). */
  ghost function AllOver(S: set<char>): set<Code> {
    set a, b, c, d, e, f | a in S && b in S && c in S && d in S && e in S && f in S :: [a, b, c, d, e, f]
  }

  lemma OverInAll(w: Code, S: set<char>)
    requires Over(w, S)
    ensures w in AllOver(S)
  {
    assert w == [w[0], w[1], w[2], w[3], w[4], w[5]];
    assert w[0] in S && w[1] in S && w[2] in S && w[3] in S && w[4] in S && w[5] in S;
  }

  /** The discovered codes stay inside the finite universe. */
  lemma KeysAreCodes(dist: map<Code, nat>, S: set<char>)
    requires forall c: Code {:trigger Known(dist, c)} :: Known(dist, c) ==> Over(c, S)
    ensures dist.Keys <= AllOver(S)
  {
    forall c | c in dist ensures c in AllOver(S) {
      assert Known(dist, c);
      OverInAll(c, S);
    }
  }

  lemma FewerUnvisited(U: set<Code>, K: set<Code>, K': set<Code>)
    requires K <= K' <= U && K != K'
    ensures |U - K'| < |U - K|
  {
    assert !(K' <= K);
    var x :| x in K' && x !in K;
    assert U - K == (U - K') + (K' - K);
    assert (U - K') !! (K' - K);
    assert x in K' - K;
  }

  // ---------------------------------------------------------------------
  // Facts about layers.

  lemma LayerStep(step: Stepper, s: Code, A: set<OpIndex>, n: nat, x: Code, i: OpIndex)
    requires x in Layer(step, s, A, n) && i in A
    ensures step(i, x) in Layer(step, s, A, n + 1)
  {
    assert Layer(step, s, A, n + 1) == set c, j | c in Layer(step, s, A, n) && j in A :: step(j, c);
  }

  /** A path that starts with operator `i` is one step longer from `s`. */
  lemma {:induction false} LayerShift(step: Stepper, s: Code, A: set<OpIndex>, i: OpIndex, m: nat)
    requires i in A
    ensures Layer(step, step(i, s), A, m) <= Layer(step, s, A, m + 1)
    decreases m
  {
    if m == 0 {
      LayerStep(step, s, A, 0, s, i);
    } else {
      LayerShift(step, s, A, i, m - 1);
      forall y | y in Layer(step, step(i, s), A, m) ensures y in Layer(step, s, A, m + 1) {
        var x, j :| x in Layer(step, step(i, s), A, m - 1) && j in A && y == step(j, x);
        LayerStep(step, s, A, m, x, j);
      }
    }
  }

  /** Two paths joined end to end. */
  lemma {:induction false} LayerConcat(step: Stepper, s: Code, x: Code, g: Code, A: set<OpIndex>, n: nat, m: nat)
    requires x in Layer(step, s, A, n) && g in Layer(step, x, A, m)
    ensures g in Layer(step, s, A, n + m)
    decreases m
  {
    if m > 0 {
      var y, j :| y in Layer(step, x, A, m - 1) && j in A && g == step(j, y);
      LayerConcat(step, s, x, y, A, n, m - 1);
      LayerStep(step, s, A, n + m - 1, y, j);
    }
  }

  /** More allowed operators reach at least the same codes. */
  lemma {:induction false} LayerMonotone(step: Stepper, s: Code, A: set<OpIndex>, B: set<OpIndex>, n: nat)
    requires A <= B
    ensures Layer(step, s, A, n) <= Layer(step, s, B, n)
    decreases n
  {
    if n > 0 {
      LayerMonotone(step, s, A, B, n - 1);
      forall y | y in Layer(step, s, A, n) ensures y in Layer(step, s, B, n) {
        var x, j :| x in Layer(step, s, A, n - 1) && j in A && y == step(j, x);
        LayerStep(step, s, B, n - 1, x, j);
      }
    }
  }

  /** Distances are unique. */
  lemma DistanceUnique(step: Stepper, s: Code, g: Code, A: set<OpIndex>, d: nat, e: nat)
    requires IsDistance(step, s, g, A, d) && IsDistance(step, s, g, A, e)
    ensures d == e
  {
  }

  /** Enabling more operators never lengthens the shortest path. */
  lemma MoreOperatorsNeverLonger(step: Stepper, s: Code, g: Code, A: set<OpIndex>, B: set<OpIndex>, d: nat, e: nat)
    requires A <= B && IsDistance(step, s, g, A, d) && IsDistance(step, s, g, B, e)
    ensures e <= d
  {
    LayerMonotone(step, s, A, B, d);
    assert g in Layer(step, s, B, d);
  }

  /** What is reachable with fewer operators stays reachable with more. */
  lemma FewerOperatorsNeverReachMore(step: Stepper, s: Code, g: Code, A: set<OpIndex>, B: set<OpIndex>)
    requires A <= B && Unreachable(step, s, g, B)
    ensures Unreachable(step, s, g, A)
  {
    forall m: nat ensures g !in Layer(step, s, A, m) {
      LayerMonotone(step, s, A, B, m);
      assert g !in Layer(step, s, B, m);
    }
  }

  /** With no operators allowed, only the start itself is reachable. */
  lemma NoOperatorsReachNothingElse(step: Stepper, s: Code, g: Code)
    requires s != g
    ensures Unreachable(step, s, g, {})
  {
    forall m: nat ensures g !in Layer(step, s, {}, m) {
      if m > 0 {
        assert Layer(step, s, {}, m) == {};
      }
    }
  }

  /** A move that starts a shortest path leaves a path one step shorter. */
  lemma FirstMoveDistance(step: Stepper, s: Code, g: Code, A: set<OpIndex>, d: nat, i: OpIndex)
    requires i in A && d > 0 && IsDistance(step, s, g, A, d) && g in Layer(step, step(i, s), A, d - 1)
    ensures IsDistance(step, step(i, s), g, A, d - 1)
  {
    forall m | 0 <= m < d - 1 ensures g !in Layer(step, step(i, s), A, m) {
      LayerShift(step, s, A, i, m);
      assert g !in Layer(step, s, A, m + 1);
    }
  }

  // ---------------------------------------------------------------------
  // The search.

  /** The search has not been cut off below depth `v`. */
  predicate Below(best: Option<nat>, v: nat) {
    best.None? || v < best.value
  }

  /** `c` has been discovered.  The facts `Discovered` keeps about each
      discovered code are stated under this name, so that they are brought
      in only for the codes a proof asks about. */
  predicate Known(dist: map<Code, nat>, c: Code) {
    c in dist
  }

  /** `i` has been recorded as a first move of a shortest path (guarded like `Known`). */
  predicate Recorded(found: set<OpIndex>, i: OpIndex) {
    i in found
  }

  /** What the search state says about the codes it has discovered. */
  ghost predicate Discovered(step: Stepper, start: Code, goal: Code, A: set<OpIndex>, dist: map<Code, nat>,
                             firstMove: map<Code, Option<OpIndex>>, best: Option<nat>, found: set<OpIndex>)
  {
    && start in dist && dist[start] == 0 && dist.Keys == firstMove.Keys
    && Placed(step, start, A, dist, firstMove)
    && (goal in dist <==> best.Some?)
    && (best.Some? ==> dist[goal] == best.value && found != {})
    && (best.None? ==> found == {})
    && Credited(step, start, goal, A, best, found)
  }

  /** Each discovered code lies in the layer of its depth, both from `start`
      and, one step shorter, from the result of its first move. */
  ghost predicate Placed(step: Stepper, start: Code, A: set<OpIndex>, dist: map<Code, nat>, firstMove: map<Code, Option<OpIndex>>)
    requires dist.Keys == firstMove.Keys
  {
    && (forall c: Code {:trigger Known(dist, c)} :: Known(dist, c) ==> Over(c, Alphabet(start)) && c in Layer(step, start, A, dist[c]))
    && (forall c: Code {:trigger Known(dist, c)} :: Known(dist, c) && c != start ==>
          && dist[c] >= 1 && firstMove[c].Some? && firstMove[c].value in A
          && c in Layer(step, step(firstMove[c].value, start), A, dist[c] - 1))
  }

  /** Every recorded first move starts a path to the goal of the best length. */
  ghost predicate Credited(step: Stepper, start: Code, goal: Code, A: set<OpIndex>, best: Option<nat>, found: set<OpIndex>) {
    forall i {:trigger Recorded(found, i)} :: Recorded(found, i) ==>
      i in A && best.Some? && best.value >= 1 && goal in Layer(step, step(i, start), A, best.value - 1)
  }

  /** Every finished code above the cut-off has all its successors discovered,
      at most one level deeper. */
  ghost predicate Closed(step: Stepper, A: set<OpIndex>, dist: map<Code, nat>, best: Option<nat>, done: set<Code>) {
    && done <= dist.Keys
    && forall c :: c in done && Below(best, dist[c]) ==>
         forall i {:trigger step(i, c)} :: i in A ==> step(i, c) in dist && dist[step(i, c)] <= dist[c] + 1
  }

  /** The queue holds discovered codes in non-decreasing depth, none shallower
      than `lo`, and nothing discovered is deeper than `lo + 1`. */
  ghost predicate Frontier(dist: map<Code, nat>, q: seq<Code>, lo: nat) {
    && (forall c: Code {:trigger Known(dist, c)} :: Known(dist, c) ==> dist[c] <= lo + 1)
    && (forall j :: 0 <= j < |q| ==> q[j] in dist && lo <= dist[q[j]])
    && (forall j, j' :: 0 <= j <= j' < |q| ==> dist[q[j]] <= dist[q[j']])
  }

  /** Every discovered code is finished or still waiting in the queue. */
  ghost predicate Covered(dist: map<Code, nat>, done: set<Code>, q: seq<Code>) {
    forall c: Code {:trigger Known(dist, c)} :: Known(dist, c) ==> c in done || c in q
  }

  /** `shortest_path_with_allowed`: breadth-first search from `start` with
      the operators listed in `allowed`. */
  method ShortestPathWithAllowed(step: Stepper, start: Code, goal: Code, allowed: seq<OpIndex>)
    returns (distance: Option<nat>, firstMoves: set<OpIndex>)
    requires Confined(step)
    ensures start == goal ==> distance == Some(0) && firstMoves == {}
    ensures IsShortest(step, start, goal, Elements(allowed), distance)
    ensures FirstMovesSound(step, start, goal, Elements(allowed), distance, firstMoves)
  {
    if start == goal {
      assert goal in Layer(step, start, Elements(allowed), 0);
      return Some(0), {};
    }
    ghost var A := Elements(allowed);
    var dist: map<Code, nat> := map[start := 0];
    var firstMove: map<Code, Option<OpIndex>> := map[start := None];
    var q: seq<Code> := [start];
    distance, firstMoves := None, {};
    ghost var done: set<Code> := {};
    ghost var lo: nat := 0;
    SearchStarts(step, start, goal, A);
    OverInAll(start, Alphabet(start));

    while q != []
      invariant Discovered(step, start, goal, A, dist, firstMove, distance, firstMoves)
      invariant Closed(step, A, dist, distance, done)
      invariant Frontier(dist, q, lo)
      invariant Covered(dist, done, q)
      invariant dist.Keys <= AllOver(Alphabet(start))
      decreases |AllOver(Alphabet(start)) - dist.Keys|, |q|
    {
      Dequeue(dist, q, lo, done);
      var cur := q[0];
      q := q[1..];
      var d := dist[cur];
      lo := d;
      if distance.Some? && d >= distance.value {
        Prune(step, A, dist, distance, done, cur);
        done := done + {cur};
        continue;
      }
      ghost var keys0 := dist.Keys;
      dist, firstMove, q, distance, firstMoves :=
        ExpandNode(step, start, goal, allowed, cur, dist, firstMove, q, distance, firstMoves, done);
      done := done + {cur};
      KeysAreCodes(dist, Alphabet(start));
      if dist.Keys != keys0 {
        FewerUnvisited(AllOver(Alphabet(start)), keys0, dist.Keys);
      }
    }

    SearchConcludes(step, start, goal, A, dist, firstMove, distance, firstMoves, done);
  }

  /** The state before the first turn: only `start` is known, at depth 0. */
  lemma SearchStarts(step: Stepper, start: Code, goal: Code, A: set<OpIndex>)
    requires start != goal
    ensures Discovered(step, start, goal, A, map[start := 0], map[start := None], None, {})
    ensures Closed(step, A, map[start := 0], None, {})
    ensures Frontier(map[start := 0], [start], 0)
    ensures Covered(map[start := 0], {}, [start])
  {
    var dist := map[start := 0];
    forall c: Code | Known(dist, c) ensures Over(c, Alphabet(start)) && c in Layer(step, start, A, dist[c]) {
      assert c == start;
    }
  }

  /** Taking the head of the queue: it is the shallowest waiting code. */
  lemma Dequeue(dist: map<Code, nat>, q: seq<Code>, lo: nat, done: set<Code>)
    requires Frontier(dist, q, lo) && Covered(dist, done, q) && q != []
    ensures q[0] in dist && lo <= dist[q[0]]
    ensures Frontier(dist, q[1..], dist[q[0]])
    ensures Covered(dist, done + {q[0]}, q[1..])
  {
    var q' := q[1..];
    forall c: Code | Known(dist, c) ensures c in done + {q[0]} || c in q' {
      if c != q[0] && c !in done {
        var j :| 0 <= j < |q| && q[j] == c;
        assert q'[j - 1] == c;
      }
    }
    forall j | 0 <= j < |q'| ensures q'[j] in dist && dist[q[0]] <= dist[q'[j]] {
      assert q'[j] == q[j + 1];
    }
    forall j, j' | 0 <= j <= j' < |q'| ensures dist[q'[j]] <= dist[q'[j']] {
      assert q'[j] == q[j + 1] && q'[j'] == q[j' + 1];
    }
  }

  /** A code at or past the best depth is finished without expanding it. */
  lemma Prune(step: Stepper, A: set<OpIndex>, dist: map<Code, nat>, best: Option<nat>, done: set<Code>, cur: Code)
    requires Closed(step, A, dist, best, done) && cur in dist && !Below(best, dist[cur])
    ensures Closed(step, A, dist, best, done + {cur})
  {
  }

  /** When the queue runs dry, the recorded best depth and first moves are
      the answer. */
  lemma SearchConcludes(step: Stepper, start: Code, goal: Code, A: set<OpIndex>, dist: map<Code, nat>,
                        firstMove: map<Code, Option<OpIndex>>, best: Option<nat>, found: set<OpIndex>, done: set<Code>)
    requires start != goal
    requires Discovered(step, start, goal, A, dist, firstMove, best, found)
    requires Closed(step, A, dist, best, done) && Covered(dist, done, [])
    ensures IsShortest(step, start, goal, A, best)
    ensures FirstMovesSound(step, start, goal, A, best, found)
  {
    forall c | c in dist ensures c in done {
      assert Known(dist, c);
    }
    ClosedCoversLayers(step, start, A, dist, best, done);
    match best
    case None =>
      forall m: nat ensures goal !in Layer(step, start, A, m) {
      }
    case Some(b) =>
      assert Known(dist, goal);
      assert b > 0;
      forall i | i in found ensures i in A && IsDistance(step, step(i, start), goal, A, b - 1) {
        assert Recorded(found, i);
        FirstMoveDistance(step, start, goal, A, b, i);
      }
  }

  /** One turn of the search loop past the pruning test: every allowed
      operator is applied to `cur`; new codes get depth `dist[cur] + 1`, inherit
      the first move of `cur` and join the queue, and a goal reached at the
      best depth contributes its first move. */
  method ExpandNode(step: Stepper, start: Code, goal: Code, allowed: seq<OpIndex>, cur: Code,
                    dist0: map<Code, nat>, firstMove0: map<Code, Option<OpIndex>>, q0: seq<Code>,
                    best0: Option<nat>, found0: set<OpIndex>, ghost done: set<Code>)
    returns (dist: map<Code, nat>, firstMove: map<Code, Option<OpIndex>>, q: seq<Code>,
             best: Option<nat>, found: set<OpIndex>)
    requires Confined(step)
    requires Discovered(step, start, goal, Elements(allowed), dist0, firstMove0, best0, found0)
    requires Closed(step, Elements(allowed), dist0, best0, done)
    requires cur in dist0 && Below(best0, dist0[cur])
    requires Frontier(dist0, q0, dist0[cur])
    requires Covered(dist0, done + {cur}, q0)
    ensures Discovered(step, start, goal, Elements(allowed), dist, firstMove, best, found)
    ensures Closed(step, Elements(allowed), dist, best, done + {cur})
    ensures Frontier(dist, q, dist0[cur])
    ensures Covered(dist, done + {cur}, q)
    ensures dist0.Keys <= dist.Keys && (dist.Keys == dist0.Keys ==> q == q0)
  {
    ghost var A := Elements(allowed);
    var d := dist0[cur];
    dist, firstMove, q, best, found := dist0, firstMove0, q0, best0, found0;
    ghost var seen: seq<OpIndex> := [];
    StartExpanding(step, start, goal, A, cur, done, dist, firstMove, q, best, found);
    for k := 0 to |allowed|
      invariant Expanding(step, start, goal, A, cur, d, done, dist, firstMove, q, best, found, seen)
      invariant seen == allowed[..k]
      invariant dist0.Keys <= dist.Keys && (dist.Keys == dist0.Keys ==> q == q0)
    {
      dist, firstMove, q, best, found :=
        Visit(step, start, goal, A, cur, d, done, allowed[k], dist, firstMove, q, best, found, seen);
      seen := seen + [allowed[k]];
    }
    assert allowed[..|allowed|] == allowed;
    ExpandedIsClosed(step, start, goal, allowed, cur, d, done, dist, firstMove, q, best, found, seen);
  }

  /** The search state while the successors of `cur` (at depth `d`) are
      generated; `seen` holds the operators already applied to `cur`. */
  ghost predicate Expanding(step: Stepper, start: Code, goal: Code, A: set<OpIndex>, cur: Code, d: nat, done: set<Code>,
                            dist: map<Code, nat>, firstMove: map<Code, Option<OpIndex>>, q: seq<Code>,
                            best: Option<nat>, found: set<OpIndex>, seen: seq<OpIndex>)
  {
    && Discovered(step, start, goal, A, dist, firstMove, best, found)
    && Closed(step, A, dist, best, done)
    && cur in dist && dist[cur] == d && Below(best, d)
    && Frontier(dist, q, d)
    && Covered(dist, done + {cur}, q)
    && forall j :: 0 <= j < |seen| ==> step(seen[j], cur) in dist && dist[step(seen[j], cur)] <= d + 1
  }

  /** Before any operator is applied to `cur`. */
  lemma StartExpanding(step: Stepper, start: Code, goal: Code, A: set<OpIndex>, cur: Code, done: set<Code>,
                       dist: map<Code, nat>, firstMove: map<Code, Option<OpIndex>>, q: seq<Code>,
                       best: Option<nat>, found: set<OpIndex>)
    requires Discovered(step, start, goal, A, dist, firstMove, best, found)
    requires Closed(step, A, dist, best, done)
    requires cur in dist && Below(best, dist[cur])
    requires Frontier(dist, q, dist[cur])
    requires Covered(dist, done + {cur}, q)
    ensures Expanding(step, start, goal, A, cur, dist[cur], done, dist, firstMove, q, best, found, [])
  {
  }

  /** Once every allowed operator has been applied, `cur` is finished. */
  lemma ExpandedIsClosed(step: Stepper, start: Code, goal: Code, allowed: seq<OpIndex>, cur: Code, d: nat, done: set<Code>,
                         dist: map<Code, nat>, firstMove: map<Code, Option<OpIndex>>, q: seq<Code>,
                         best: Option<nat>, found: set<OpIndex>, seen: seq<OpIndex>)
    requires Expanding(step, start, goal, Elements(allowed), cur, d, done, dist, firstMove, q, best, found, seen)
    requires seen == allowed
    ensures Discovered(step, start, goal, Elements(allowed), dist, firstMove, best, found)
    ensures Closed(step, Elements(allowed), dist, best, done + {cur})
    ensures Frontier(dist, q, d)
    ensures Covered(dist, done + {cur}, q)
  {
    forall i | i in Elements(allowed) ensures step(i, cur) in dist && dist[step(i, cur)] <= d + 1 {
      var j :| 0 <= j < |allowed| && allowed[j] == i;
      assert step(seen[j], cur) in dist;
    }
  }

  /** Operator `idx` applied to `cur`: one turn of the inner loop. */
  method Visit(step: Stepper, start: Code, goal: Code, ghost A: set<OpIndex>, cur: Code, d: nat, ghost done: set<Code>,
               idx: OpIndex, dist0: map<Code, nat>, firstMove0: map<Code, Option<OpIndex>>, q0: seq<Code>,
               best0: Option<nat>, found0: set<OpIndex>, ghost seen: seq<OpIndex>)
    returns (dist: map<Code, nat>, firstMove: map<Code, Option<OpIndex>>, q: seq<Code>,
             best: Option<nat>, found: set<OpIndex>)
    requires Confined(step) && idx in A
    requires Expanding(step, start, goal, A, cur, d, done, dist0, firstMove0, q0, best0, found0, seen)
    ensures Expanding(step, start, goal, A, cur, d, done, dist, firstMove, q, best, found, seen + [idx])
    ensures dist0.Keys <= dist.Keys && (dist.Keys == dist0.Keys ==> q == q0)
  {
    dist, firstMove, q, best, found := dist0, firstMove0, q0, best0, found0;
    var nxt := step(idx, cur);
    var fm := if cur == start then Some(idx) else firstMove[cur];
    FirstMoveStep(step, start, goal, A, dist, firstMove, best, found, cur, idx);
    if nxt !in dist {
      assert Known(dist, cur);
      LayerStep(step, start, A, d, cur, idx);
      dist := dist[nxt := d + 1];
      firstMove := firstMove[nxt := fm];
      if nxt == goal {
        if best.None? {
          best := Some(d + 1);
        }
        if fm.Some? {
          found := found + {fm.value};
        }
      }
      if best.None? || d + 1 <= best.value {
        q := q + [nxt];
      }
      DiscoverPreserved(step, start, goal, A, cur, d, done, dist0, firstMove0, q0, best0, found0, seen,
                        idx, fm.value, best, found);
    } else if nxt == goal && dist[nxt] == d + 1 && fm.Some? {
      found := found + {fm.value};
      TiePreserved(step, start, goal, A, cur, d, done, dist, firstMove, q, best0, found0, seen, idx, fm.value);
    } else {
      OldPreserved(step, start, goal, A, cur, d, done, dist, firstMove, q, best, found, seen, idx);
    }
  }

  /** Discovering a new code one level deeper keeps the search state sound. */
  lemma DiscoverPreserved(step: Stepper, start: Code, goal: Code, A: set<OpIndex>, cur: Code, d: nat, done: set<Code>,
                          dist: map<Code, nat>, firstMove: map<Code, Option<OpIndex>>, q: seq<Code>,
                          best: Option<nat>, found: set<OpIndex>, seen: seq<OpIndex>,
                          idx: OpIndex, fm: OpIndex, best': Option<nat>, found': set<OpIndex>)
    requires Confined(step) && idx in A
    requires Expanding(step, start, goal, A, cur, d, done, dist, firstMove, q, best, found, seen)
    requires step(idx, cur) !in dist && step(idx, cur) in Layer(step, start, A, d + 1)
    requires fm in A && step(idx, cur) in Layer(step, step(fm, start), A, d)
    requires best' == (if step(idx, cur) == goal && best.None? then Some(d + 1) else best)
    requires found' == (if step(idx, cur) == goal then found + {fm} else found)
    ensures Expanding(step, start, goal, A, cur, d, done, dist[step(idx, cur) := d + 1],
                      firstMove[step(idx, cur) := Some(fm)], q + [step(idx, cur)], best', found', seen + [idx])
  {
    var nxt := step(idx, cur);
    assert Known(dist, cur);
    var dist' := dist[nxt := d + 1];
    DiscoveredGrows(step, start, goal, A, dist, firstMove, best, found, nxt, d + 1, fm, best', found');
    ClosedGrows(step, A, dist, best, best', done, nxt, d + 1);
    FrontierGrows(dist, q, d, nxt);
    CoveredGrows(dist, done + {cur}, q, nxt, d + 1);
    forall j | 0 <= j < |seen| + 1 ensures step((seen + [idx])[j], cur) in dist' && dist'[step((seen + [idx])[j], cur)] <= d + 1 {
      if j < |seen| {
        assert (seen + [idx])[j] == seen[j];
      }
    }
  }

  lemma DiscoveredGrows(step: Stepper, start: Code, goal: Code, A: set<OpIndex>, dist: map<Code, nat>,
                        firstMove: map<Code, Option<OpIndex>>, best: Option<nat>, found: set<OpIndex>,
                        nxt: Code, n: nat, fm: OpIndex, best': Option<nat>, found': set<OpIndex>)
    requires Discovered(step, start, goal, A, dist, firstMove, best, found)
    requires nxt !in dist && Over(nxt, Alphabet(start)) && nxt in Layer(step, start, A, n) && n >= 1
    requires fm in A && nxt in Layer(step, step(fm, start), A, n - 1)
    requires best' == (if nxt == goal && best.None? then Some(n) else best)
    requires found' == (if nxt == goal then found + {fm} else found)
    ensures Discovered(step, start, goal, A, dist[nxt := n], firstMove[nxt := Some(fm)], best', found')
  {
    PlacedGrows(step, start, A, dist, firstMove, nxt, n, fm);
    CreditedGrows(step, start, goal, A, best, found, nxt, n, fm, best', found');
  }

  lemma PlacedGrows(step: Stepper, start: Code, A: set<OpIndex>, dist: map<Code, nat>,
                    firstMove: map<Code, Option<OpIndex>>, nxt: Code, n: nat, fm: OpIndex)
    requires dist.Keys == firstMove.Keys && Placed(step, start, A, dist, firstMove)
    requires Over(nxt, Alphabet(start)) && nxt in Layer(step, start, A, n) && n >= 1
    requires fm in A && nxt in Layer(step, step(fm, start), A, n - 1)
    ensures Placed(step, start, A, dist[nxt := n], firstMove[nxt := Some(fm)])
  {
    var dist', firstMove' := dist[nxt := n], firstMove[nxt := Some(fm)];
    forall c: Code | Known(dist', c) ensures Over(c, Alphabet(start)) && c in Layer(step, start, A, dist'[c]) {
      if c != nxt {
        assert Known(dist, c);
      }
    }
    forall c: Code | Known(dist', c) && c != start
      ensures && dist'[c] >= 1 && firstMove'[c].Some? && firstMove'[c].value in A
              && c in Layer(step, step(firstMove'[c].value, start), A, dist'[c] - 1)
    {
      if c != nxt {
        assert Known(dist, c);
      }
    }
  }

  lemma CreditedGrows(step: Stepper, start: Code, goal: Code, A: set<OpIndex>, best: Option<nat>, found: set<OpIndex>,
                      nxt: Code, n: nat, fm: OpIndex, best': Option<nat>, found': set<OpIndex>)
    requires Credited(step, start, goal, A, best, found) && (best.Some? ==> best.value == n || nxt != goal)
    requires n >= 1 && fm in A && nxt in Layer(step, step(fm, start), A, n - 1)
    requires best' == (if nxt == goal && best.None? then Some(n) else best)
    requires found' == (if nxt == goal then found + {fm} else found)
    ensures Credited(step, start, goal, A, best', found')
  {
    forall i: OpIndex | Recorded(found', i)
      ensures i in A && best'.Some? && best'.value >= 1 && goal in Layer(step, step(i, start), A, best'.value - 1)
    {
      if i != fm || nxt != goal {
        assert Recorded(found, i);
      }
    }
  }

  lemma ClosedGrows(step: Stepper, A: set<OpIndex>, dist: map<Code, nat>, best: Option<nat>, best': Option<nat>,
                    done: set<Code>, nxt: Code, n: nat)
    requires Closed(step, A, dist, best, done) && nxt !in dist
    requires best.Some? ==> best' == best
    ensures Closed(step, A, dist[nxt := n], best', done)
  {
  }

  lemma FrontierGrows(dist: map<Code, nat>, q: seq<Code>, d: nat, nxt: Code)
    requires Frontier(dist, q, d) && nxt !in dist
    ensures Frontier(dist[nxt := d + 1], q + [nxt], d)
  {
    var dist', q' := dist[nxt := d + 1], q + [nxt];
    forall c: Code | Known(dist', c) ensures dist'[c] <= d + 1 {
      if c != nxt {
        assert Known(dist, c);
      }
    }
    forall j | 0 <= j < |q'| ensures q'[j] in dist' && d <= dist'[q'[j]] <= d + 1 {
      if j < |q| {
        assert q'[j] == q[j] && Known(dist, q[j]);
      }
    }
  }

  lemma CoveredGrows(dist: map<Code, nat>, done: set<Code>, q: seq<Code>, nxt: Code, n: nat)
    requires Covered(dist, done, q)
    ensures Covered(dist[nxt := n], done, q + [nxt])
  {
    forall c: Code | Known(dist[nxt := n], c) ensures c in done || c in q + [nxt] {
      if c != nxt {
        assert Known(dist, c);
      }
    }
  }

  /** The goal met again at the best depth adds its first move. */
  lemma TiePreserved(step: Stepper, start: Code, goal: Code, A: set<OpIndex>, cur: Code, d: nat, done: set<Code>,
                     dist: map<Code, nat>, firstMove: map<Code, Option<OpIndex>>, q: seq<Code>,
                     best: Option<nat>, found: set<OpIndex>, seen: seq<OpIndex>, idx: OpIndex, fm: OpIndex)
    requires idx in A
    requires Expanding(step, start, goal, A, cur, d, done, dist, firstMove, q, best, found, seen)
    requires step(idx, cur) == goal && goal in dist && dist[goal] == d + 1
    requires fm in A && goal in Layer(step, step(fm, start), A, d)
    ensures Expanding(step, start, goal, A, cur, d, done, dist, firstMove, q, best, found + {fm}, seen + [idx])
  {
    var found' := found + {fm};
    forall i: OpIndex | Recorded(found', i)
      ensures i in A && best.Some? && best.value >= 1 && goal in Layer(step, step(i, start), A, best.value - 1)
    {
      if i != fm {
        assert Recorded(found, i);
      }
    }
  }

  /** A successor that was already discovered changes nothing. */
  lemma OldPreserved(step: Stepper, start: Code, goal: Code, A: set<OpIndex>, cur: Code, d: nat, done: set<Code>,
                     dist: map<Code, nat>, firstMove: map<Code, Option<OpIndex>>, q: seq<Code>,
                     best: Option<nat>, found: set<OpIndex>, seen: seq<OpIndex>, idx: OpIndex)
    requires Expanding(step, start, goal, A, cur, d, done, dist, firstMove, q, best, found, seen)
    requires step(idx, cur) in dist
    ensures Expanding(step, start, goal, A, cur, d, done, dist, firstMove, q, best, found, seen + [idx])
  {
    assert Known(dist, step(idx, cur));
    forall j | 0 <= j < |seen| + 1 ensures step((seen + [idx])[j], cur) in dist && dist[step((seen + [idx])[j], cur)] <= d + 1 {
      if j < |seen| {
        assert (seen + [idx])[j] == seen[j];
      }
    }
  }

  /** The first move recorded for `cur`, pushed one step further along `idx`. */
  lemma FirstMoveStep(step: Stepper, start: Code, goal: Code, A: set<OpIndex>, dist: map<Code, nat>,
                      firstMove: map<Code, Option<OpIndex>>, best: Option<nat>, found: set<OpIndex>, cur: Code, idx: OpIndex)
    requires Discovered(step, start, goal, A, dist, firstMove, best, found)
    requires cur in dist && idx in A
    ensures var fm := if cur == start then Some(idx) else firstMove[cur];
            fm.Some? && fm.value in A && step(idx, cur) in Layer(step, step(fm.value, start), A, dist[cur])
  {
    assert Known(dist, cur);
    if cur != start {
      LayerStep(step, step(firstMove[cur].value, start), A, dist[cur] - 1, cur, idx);
    } else {
      LayerStep(step, step(idx, start), A, 0, step(idx, start), idx);
    }
  }

  /** Once every discovered code is finished, the discovered distances cover
      every layer up to the cut-off. */
  lemma ClosedCoversLayers(step: Stepper, start: Code, A: set<OpIndex>, dist: map<Code, nat>, best: Option<nat>, done: set<Code>)
    requires start in dist && dist[start] == 0
    requires Closed(step, A, dist, best, done) && dist.Keys <= done
    ensures forall m: nat, y :: (best.None? || m <= best.value) && y in Layer(step, start, A, m) ==>
              y in dist && dist[y] <= m
  {
    forall m: nat, y | (best.None? || m <= best.value) && y in Layer(step, start, A, m)
      ensures y in dist && dist[y] <= m
    {
      CoveredUpTo(step, start, A, dist, best, done, m, y);
    }
  }

  lemma {:induction false} CoveredUpTo(step: Stepper, start: Code, A: set<OpIndex>, dist: map<Code, nat>, best: Option<nat>,
                                       done: set<Code>, m: nat, y: Code)
    requires start in dist && dist[start] == 0
    requires Closed(step, A, dist, best, done) && dist.Keys <= done
    requires (best.None? || m <= best.value) && y in Layer(step, start, A, m)
    ensures y in dist && dist[y] <= m
    decreases m
  {
    if m > 0 {
      var x, j :| x in Layer(step, start, A, m - 1) && j in A && y == step(j, x);
      CoveredUpTo(step, start, A, dist, best, done, m - 1, x);
      assert x in done && Below(best, dist[x]);
    }
  }
}
