/** The uniform-cost search: the cheapest total energy of a chain of
    generated moves from a start configuration to the goal. The invariant
    lemmas are stated over any successor function whose moves cost at least
    one unit; the search itself runs on the burrow's move generator. */
module ShortestPath {
  import opened Burrow
  import opened MoveGenerator
  import opened MoveProperties

  /** A pending queue entry: a tentative total cost and a configuration. */
  datatype Entry = Entry(cost: int, state: State)

  /** What the search ends with: the goal popped at some cost; the queue run
      dry (the source's -1); or the fuel bound reached. */
  datatype Outcome = Reached(cost: int) | Exhausted | OutOfFuel

  /** A successor function: the moves available from each configuration. */
  type Graph = State -> seq<Move>

  /** The burrow's successor function: moves_from_state on a well-formed
      configuration (and nothing from a malformed one). */
  function Successors(s: State): (ms: seq<Move>)
  {
    if Shaped(s) then Moves(s) else []
  }

  /** Every move of g costs at least one unit of energy. */
  ghost predicate PositiveCosts(g: Graph)
  {
    forall s, m | m in g(s) :: m.cost >= 1
  }

  lemma SuccessorsPositive()
    ensures PositiveCosts(Successors)
  {
    forall s, m | m in Successors(s) ensures m.cost >= 1 {
      MoveCostPositive(s, m);
    }
  }

  // ---------------------------------------------------------------------------
  // Chains of moves

  /** ms is a chain of moves of g leading from s to t. */
  predicate Chain(g: Graph, s: State, ms: seq<Move>, t: State)
    decreases |ms|
  {
    if ms == [] then s == t
    else ms[0] in g(s) && Chain(g, ms[0].next, ms[1..], t)
  }

  /** The total energy of a sequence of moves. */
  function SumCost(ms: seq<Move>): (total: int)
  {
    if ms == [] then 0 else ms[0].cost + SumCost(ms[1..])
  }

  lemma {:induction false} ChainSnoc(g: Graph, s: State, ms: seq<Move>, t: State, m: Move)
    requires Chain(g, s, ms, t) && m in g(t)
    ensures Chain(g, s, ms + [m], m.next) && SumCost(ms + [m]) == SumCost(ms) + m.cost
    decreases |ms|
  {
    if ms == [] {
      assert ms + [m] == [m];
      assert [m][1..] == [];
    } else {
      ChainSnoc(g, ms[0].next, ms[1..], t, m);
      assert (ms + [m])[1..] == ms[1..] + [m];
    }
  }

  /** Each move of a chain costs at least one unit. */
  lemma {:induction false} ChainCostAtLeastLength(g: Graph, s: State, ms: seq<Move>, t: State)
    requires PositiveCosts(g) && Chain(g, s, ms, t)
    ensures SumCost(ms) >= |ms|
    decreases |ms|
  {
    if ms != [] {
      ChainCostAtLeastLength(g, ms[0].next, ms[1..], t);
    }
  }

  /** A chain of generated moves keeps the hallway length, the depth of
      every room and the multiset of tokens. */
  lemma {:induction false} ChainConservesTokens(s: State, ms: seq<Move>, t: State)
    requires Shaped(s) && Chain(Successors, s, ms, t)
    ensures Shaped(t) && SameShape(s, t) && Tokens(t) == Tokens(s)
    decreases |ms|
  {
    if ms != [] {
      MoveConservesTokens(s, ms[0]);
      ChainConservesTokens(ms[0].next, ms[1..], t);
    }
  }

  /** A chain of generated moves from a configuration without gaps in its
      rooms reaches only such configurations. */
  lemma {:induction false} ChainKeepsStacked(s: State, ms: seq<Move>, t: State)
    requires Shaped(s) && AllStacked(s) && Chain(Successors, s, ms, t)
    ensures Shaped(t) && AllStacked(t)
    decreases |ms|
  {
    if ms != [] {
      MoveConservesTokens(s, ms[0]);
      MovesKeepStacked(s, ms[0]);
      ChainKeepsStacked(ms[0].next, ms[1..], t);
    }
  }

  /** A chain of generated moves from a configuration with the door cells
      empty keeps them empty. */
  lemma {:induction false} ChainKeepsDoorsEmpty(s: State, ms: seq<Move>, t: State)
    requires Shaped(s) && DoorsEmpty(s) && Chain(Successors, s, ms, t)
    ensures Shaped(t) && DoorsEmpty(t)
    decreases |ms|
  {
    if ms != [] {
      MovesKeepDoorsEmpty(s, ms[0]);
      ChainKeepsDoorsEmpty(ms[0].next, ms[1..], t);
    }
  }

  /** Along any chain of generated moves from a gap-free start, a room's top
      token may leave exactly when the room is not empty and some token from
      its top down is of another kind: the first skip test decides nothing. */
  lemma ChainSkipRule(s: State, ms: seq<Move>, t: State, r: int)
    requires Shaped(s) && AllStacked(s) && Chain(Successors, s, ms, t) && 0 <= r < RoomCount
    ensures Shaped(t)
    ensures ExitOk(t, r) <==>
      FirstOccupied(t.rooms[r]) != -1 && !AllOfKindFrom(t.rooms[r], FirstOccupied(t.rooms[r]), RoomKind(r))
  {
    ChainKeepsStacked(s, ms, t);
    SkipRuleUnderStacking(t, r);
  }

  // ---------------------------------------------------------------------------
  // The queue

  /** The queue without its entry at index i. */
  function Remove<T>(q: seq<T>, i: int): (r: seq<T>)
    requires 0 <= i < |q|
    ensures |r| == |q| - 1
    ensures forall k | 0 <= k < |r| :: r[k] == if k < i then q[k] else q[k + 1]
    ensures forall x | x in q && x != q[i] :: x in r
    ensures forall x | x in r :: x in q
  {
    var r := q[..i] + q[i + 1..];
    assert forall x | x in q && x != q[i] :: x in r by {
      forall x | x in q && x != q[i] ensures x in r {
        var k :| 0 <= k < |q| && q[k] == x;
        if k < i {
          assert r[k] == x;
        } else {
          assert r[k - 1] == x;
        }
      }
    }
    r
  }

  /** The index of an entry of least cost (heappop may pick any of them). */
  method MinIndex(pq: seq<Entry>) returns (i: int)
    requires |pq| > 0
    ensures 0 <= i < |pq|
    ensures forall j | 0 <= j < |pq| :: pq[i].cost <= pq[j].cost
  {
    i := 0;
    var j := 1;
    while j < |pq|
      invariant 0 <= i < j <= |pq|
      invariant forall k | 0 <= k < j :: pq[i].cost <= pq[k].cost
    {
      if pq[j].cost < pq[i].cost {
        i := j;
      }
      j := j + 1;
    }
  }

  // ---------------------------------------------------------------------------
  // Relaxing the successors of one configuration

  /** Every move's target is recorded in best at no more than cost plus
      the move's cost. */
  ghost predicate Relaxed(cost: int, moves: seq<Move>, best: map<State, int>)
  {
    forall m | m in moves :: m.next in best && best[m.next] <= cost + m.cost
  }

  /** What relaxing moves at cost does to best and pq: the old queue is kept
      as a prefix; every successor ends at most cost + its move cost; no
      recorded value increases; and every new or lowered value of best has
      its entry among the appended ones. */
  ghost predicate Lowered(cost: int, moves: seq<Move>, best: map<State, int>, pq: seq<Entry>,
                          newBest: map<State, int>, newPq: seq<Entry>)
  {
    && |newPq| >= |pq| && newPq[..|pq|] == pq
    && Relaxed(cost, moves, newBest)
    && (forall t | t in best :: t in newBest && newBest[t] <= best[t])
    && (forall t | t in newBest && (t !in best || newBest[t] != best[t]) ::
          Entry(newBest[t], t) in newPq[|pq|..])
  }

  /** The appended entries, one per source move: a successor at cost + its
      move cost, strictly below what best recorded before. */
  ghost predicate Sourced(cost: int, moves: seq<Move>, best: map<State, int>, pq: seq<Entry>,
                          newPq: seq<Entry>, src: seq<Move>)
  {
    && |newPq| == |pq| + |src|
    && forall k | 0 <= k < |src| ::
         && src[k] in moves
         && newPq[|pq| + k] == Entry(cost + src[k].cost, src[k].next)
         && (src[k].next !in best || cost + src[k].cost < best[src[k].next])
  }

  ghost predicate Relaxation(cost: int, moves: seq<Move>, best: map<State, int>, pq: seq<Entry>,
                             newBest: map<State, int>, newPq: seq<Entry>, src: seq<Move>)
  {
    Lowered(cost, moves, best, pq, newBest, newPq) && Sourced(cost, moves, best, pq, newPq, src)
  }

  /** Different moves of the list lead to different configurations. */
  predicate DistinctTargets(moves: seq<Move>)
  {
    forall m1, m2 | m1 in moves && m2 in moves && m1.next == m2.next :: m1 == m2
  }

  /** No two moves of one configuration reach the same configuration. */
  lemma SuccessorsDistinct(s: State)
    ensures DistinctTargets(Successors(s))
  {
    if Shaped(s) {
      forall m1, m2 | m1 in Moves(s) && m2 in Moves(s) && m1.next == m2.next
        ensures m1 == m2
      {
        SameTargetSameMove(s, m1, m2);
      }
    }
  }

  /** The inner loop of dijkstra: nc = cost + move cost, recorded and pushed
      when it beats the recorded value (a missing key stands for the
      sentinel 1 << 60). Since the targets are distinct, a value recorded
      at a push is still the value when the loop ends. */
  method Relax(cost: int, moves: seq<Move>, best: map<State, int>, pq: seq<Entry>)
    returns (newBest: map<State, int>, newPq: seq<Entry>, ghost src: seq<Move>)
    requires DistinctTargets(moves)
    ensures Lowered(cost, moves, best, pq, newBest, newPq)
    ensures Sourced(cost, moves, best, pq, newPq, src)
    ensures forall k | 0 <= k < |src| ::
              src[k].next in newBest && newBest[src[k].next] == cost + src[k].cost
  {
    newBest, newPq, src := best, pq, [];
    for i := 0 to |moves|
      invariant Relaxation(cost, moves[..i], best, pq, newBest, newPq, src)
      invariant forall k | 0 <= k < |src| ::
                  src[k].next in newBest && newBest[src[k].next] == cost + src[k].cost
    {
      var m := moves[i];
      var nc := cost + m.cost;
      if m.next !in newBest || nc < newBest[m.next] {
        ghost var appended := newPq[|pq|..];
        newBest := newBest[m.next := nc];
        newPq := newPq + [Entry(nc, m.next)];
        src := src + [m];
        assert newPq[|pq| + |src| - 1] == Entry(nc, m.next);
        assert newPq[|pq|..] == appended + [Entry(nc, m.next)];
      }
      assert moves[..i + 1] == moves[..i] + [m];
    }
    assert moves[..|moves|] == moves;
  }

  // ---------------------------------------------------------------------------
  // The search invariant

  /** Every pending entry carries a chain from start whose cost it records. */
  ghost predicate Witnessed(g: Graph, start: State, pq: seq<Entry>, chains: seq<seq<Move>>)
  {
    && |chains| == |pq|
    && forall k | 0 <= k < |pq| :: Chain(g, start, chains[k], pq[k].state) && SumCost(chains[k]) == pq[k].cost
  }

  /** The expanded configurations: recorded at no more than the last popped
      cost, with their moves relaxed against the recorded cost. */
  ghost predicate Settled(g: Graph, best: map<State, int>, done: set<State>, last: int)
  {
    forall u | u in done :: u in best && best[u] <= last && Relaxed(best[u], g(u), best)
  }

  /** Every pending entry has a recorded value not above its cost, and a cost
      not below the last popped cost; every recorded configuration not
      expanded yet has an entry at its recorded value. */
  ghost predicate Pending(best: map<State, int>, done: set<State>, pq: seq<Entry>, last: int)
  {
    && (forall e | e in pq :: e.state in best && best[e.state] <= e.cost && last <= e.cost)
    && (forall t | t in best :: t in done || Entry(best[t], t) in pq)
  }

  ghost predicate Inv(g: Graph, start: State, goal: State, pq: seq<Entry>, chains: seq<seq<Move>>,
                      best: map<State, int>, done: set<State>, last: int)
  {
    && start in best && best[start] <= 0
    && goal !in done
    && Witnessed(g, start, pq, chains)
    && Settled(g, best, done, last)
    && Pending(best, done, pq, last)
  }

  /** Walking any chain from a recorded configuration u to the (never
      expanded) goal meets a configuration that is still pending: a
      configuration on the chain, not expanded, whose entry at its recorded
      value is queued and costs no more than the chain. */
  lemma {:induction false} ChainBound(g: Graph, best: map<State, int>, done: set<State>,
                                      pq: seq<Entry>, last: int,
                                      goal: State, u: State, ms: seq<Move>, pre: int) returns (x: Entry)
    requires PositiveCosts(g)
    requires Settled(g, best, done, last) && Pending(best, done, pq, last) && goal !in done
    requires u in best && best[u] <= pre && Chain(g, u, ms, goal)
    ensures x in pq && x.cost <= pre + SumCost(ms)
    ensures x.state !in done && x.state in best && x == Entry(best[x.state], x.state)
    ensures x.state == u || exists k | 0 <= k < |ms| :: ms[k].next == x.state
    decreases |ms|
  {
    if u !in done {
      x := Entry(best[u], u);
      ChainCostAtLeastLength(g, u, ms, goal);
    } else {
      var m := ms[0];
      assert Relaxed(best[u], g(u), best);
      x := ChainBound(g, best, done, pq, last, goal, m.next, ms[1..], pre + m.cost);
      if x.state != m.next {
        var k :| 0 <= k < |ms[1..]| && ms[1..][k].next == x.state;
        assert ms[k + 1].next == x.state;
      }
    }
  }

  lemma RemoveKeepsWitnessed(g: Graph, start: State, pq: seq<Entry>, chains: seq<seq<Move>>, i: int)
    requires Witnessed(g, start, pq, chains) && 0 <= i < |pq|
    ensures Witnessed(g, start, Remove(pq, i), Remove(chains, i))
  {
  }

  /** Dropping a stale entry keeps every recorded configuration listed. */
  lemma DiscardKeepsPending(best: map<State, int>, done: set<State>, pq: seq<Entry>, last: int, i: int)
    requires Pending(best, done, pq, last)
    requires 0 <= i < |pq| && pq[i].state in best && pq[i].cost != best[pq[i].state]
    ensures Pending(best, done, Remove(pq, i), last)
  {
    var rest := Remove(pq, i);
    forall t | t in best && t !in done ensures Entry(best[t], t) in rest {
      assert Entry(best[t], t) != pq[i];
    }
  }

  lemma DiscardKeepsInv(g: Graph, start: State, goal: State, pq: seq<Entry>, chains: seq<seq<Move>>,
                        best: map<State, int>, done: set<State>, last: int, i: int)
    requires Inv(g, start, goal, pq, chains, best, done, last)
    requires 0 <= i < |pq| && pq[i].cost != best[pq[i].state]
    ensures Inv(g, start, goal, Remove(pq, i), Remove(chains, i), best, done, last)
  {
    RemoveKeepsWitnessed(g, start, pq, chains, i);
    DiscardKeepsPending(best, done, pq, last, i);
  }

  /** The chains of the appended entries: the popped chain extended by each
      source move. */
  ghost function Extend(ch: seq<Move>, src: seq<Move>): (chs: seq<seq<Move>>)
  {
    seq(|src|, k requires 0 <= k < |src| => ch + [src[k]])
  }

  /** An appended entry names its source move. */
  lemma AppendedEntry(cost: int, moves: seq<Move>, best: map<State, int>, pq: seq<Entry>,
                      newBest: map<State, int>, newPq: seq<Entry>, src: seq<Move>, x: Entry) returns (k: int)
    requires Relaxation(cost, moves, best, pq, newBest, newPq, src) && x in newPq[|pq|..]
    ensures 0 <= k < |src| && src[k] in moves && x == Entry(cost + src[k].cost, src[k].next)
    ensures x.state !in best || x.cost < best[x.state]
  {
    var j :| 0 <= j < |newPq| - |pq| && newPq[|pq|..][j] == x;
    assert newPq[|pq| + j] == x;
    k := j;
  }

  lemma ExpandKeepsWitnessed(g: Graph, start: State, rest: seq<Entry>, restChains: seq<seq<Move>>,
                             u: State, cost: int, ch: seq<Move>,
                             best: map<State, int>, newBest: map<State, int>, newPq: seq<Entry>, src: seq<Move>)
    requires Witnessed(g, start, rest, restChains)
    requires Chain(g, start, ch, u) && SumCost(ch) == cost
    requires Relaxation(cost, g(u), best, rest, newBest, newPq, src)
    ensures Witnessed(g, start, newPq, restChains + Extend(ch, src))
  {
    var chains := restChains + Extend(ch, src);
    forall k | 0 <= k < |newPq| ensures Chain(g, start, chains[k], newPq[k].state) && SumCost(chains[k]) == newPq[k].cost {
      if k < |rest| {
        assert newPq[k] == newPq[..|rest|][k];
      } else {
        var j := k - |rest|;
        ChainSnoc(g, start, ch, u, src[j]);
      }
    }
  }

  /** A lowered value of best would come from an entry at least one unit
      above the popped cost, so no expanded configuration changes. */
  lemma ExpandKeepsSettledCosts(cost: int, u: State, moves: seq<Move>, best: map<State, int>, rest: seq<Entry>,
                                newBest: map<State, int>, newPq: seq<Entry>, src: seq<Move>, done: set<State>, last: int)
    requires forall m | m in moves :: m.cost >= 1
    requires u in best && best[u] == cost && last <= cost
    requires forall v | v in done :: v in best && best[v] <= last
    requires Relaxation(cost, moves, best, rest, newBest, newPq, src)
    ensures forall v | v in done + {u} :: v in newBest && newBest[v] == best[v]
  {
    forall v | v in done + {u} ensures v in newBest && newBest[v] == best[v] {
      if newBest[v] != best[v] {
        var k := AppendedEntry(cost, moves, best, rest, newBest, newPq, src, Entry(newBest[v], v));
        assert false;
      }
    }
  }

  lemma ExpandKeepsSettled(g: Graph, cost: int, u: State, best: map<State, int>, rest: seq<Entry>,
                           newBest: map<State, int>, newPq: seq<Entry>, src: seq<Move>,
                           done: set<State>, last: int)
    requires PositiveCosts(g)
    requires u in best && best[u] == cost && last <= cost
    requires Settled(g, best, done, last)
    requires Relaxation(cost, g(u), best, rest, newBest, newPq, src)
    ensures Settled(g, newBest, done + {u}, cost)
  {
    ExpandKeepsSettledCosts(cost, u, g(u), best, rest, newBest, newPq, src, done, last);
    forall v | v in done + {u} ensures Relaxed(newBest[v], g(v), newBest) {
      if v != u {
        assert Relaxed(best[v], g(v), best);
      }
    }
  }

  lemma ExpandKeepsPending(e: Entry, moves: seq<Move>, best: map<State, int>, pq: seq<Entry>, i: int,
                           newBest: map<State, int>, newPq: seq<Entry>, src: seq<Move>, done: set<State>, last: int)
    requires 0 <= i < |pq| && e == pq[i] && forall j | 0 <= j < |pq| :: e.cost <= pq[j].cost
    requires forall m | m in moves :: m.cost >= 1
    requires Pending(best, done, pq, last)
    requires Relaxation(e.cost, moves, best, Remove(pq, i), newBest, newPq, src)
    ensures Pending(newBest, done + {e.state}, newPq, e.cost)
  {
    var rest := Remove(pq, i);
    forall x | x in newPq ensures x.state in newBest && newBest[x.state] <= x.cost && e.cost <= x.cost {
      var j :| 0 <= j < |newPq| && newPq[j] == x;
      if j < |rest| {
        assert x == rest[j] && x in rest;
      } else {
        assert newPq[|rest|..][j - |rest|] == x;
        var k := AppendedEntry(e.cost, moves, best, rest, newBest, newPq, src, x);
      }
    }
    forall t | t in newBest && t !in done + {e.state} ensures Entry(newBest[t], t) in newPq {
      if t in best && newBest[t] == best[t] {
        assert Entry(best[t], t) != e;
        assert Entry(best[t], t) in rest;
        var j :| 0 <= j < |rest| && rest[j] == Entry(best[t], t);
        assert newPq[j] == rest[j];
      } else {
        var x := Entry(newBest[t], t);
        var j :| 0 <= j < |newPq| - |rest| && newPq[|rest|..][j] == x;
        assert newPq[|rest| + j] == x;
      }
    }
  }

  lemma ExpandKeepsInv(g: Graph, start: State, goal: State, pq: seq<Entry>, chains: seq<seq<Move>>,
                       best: map<State, int>, done: set<State>, last: int, i: int,
                       newBest: map<State, int>, newPq: seq<Entry>, src: seq<Move>)
    requires PositiveCosts(g)
    requires Inv(g, start, goal, pq, chains, best, done, last)
    requires 0 <= i < |pq| && forall j | 0 <= j < |pq| :: pq[i].cost <= pq[j].cost
    requires pq[i].state != goal && pq[i].cost == best[pq[i].state]
    requires Relaxation(pq[i].cost, g(pq[i].state), best, Remove(pq, i), newBest, newPq, src)
    ensures Inv(g, start, goal, newPq, Remove(chains, i) + Extend(chains[i], src), newBest,
                done + {pq[i].state}, pq[i].cost)
  {
    var e, rest := pq[i], Remove(pq, i);
    assert last <= e.cost;
    RemoveKeepsWitnessed(g, start, pq, chains, i);
    ExpandKeepsWitnessed(g, start, rest, Remove(chains, i), e.state, e.cost, chains[i], best, newBest, newPq, src);
    ExpandKeepsSettled(g, e.cost, e.state, best, rest, newBest, newPq, src, done, last);
    ExpandKeepsPending(e, g(e.state), best, pq, i, newBest, newPq, src, done, last);
  }

  // ---------------------------------------------------------------------------
  // The search

  /** dijkstra(start, goal), run for at most fuel pops. A reached cost is
      the cost of a chain of generated moves from start to goal and no chain
      is cheaper; an exhausted queue means no chain reaches the goal. */
  method Dijkstra(start: State, goal: State, fuel: nat) returns (r: Outcome, ghost path: seq<Move>)
    requires Shaped(start)
    ensures r.Reached? ==> Chain(Successors, start, path, goal) && SumCost(path) == r.cost
    ensures r.Reached? ==> forall ms | Chain(Successors, start, ms, goal) :: r.cost <= SumCost(ms)
    ensures r.Reached? ==> r.cost >= |path| >= 0
    ensures r.Exhausted? ==> forall ms :: !Chain(Successors, start, ms, goal)
    ensures start == goal && fuel > 0 ==> r == Reached(0)
  {
    SuccessorsPositive();
    var pq := [Entry(0, start)];
    var best := map[start := 0];
    ghost var chains: seq<seq<Move>> := [[]];
    ghost var done: set<State> := {};
    ghost var last := 0;
    var f: nat := fuel;
    while pq != []
      invariant Inv(Successors, start, goal, pq, chains, best, done, last)
      invariant f <= fuel && (start == goal ==> f == fuel && pq == [Entry(0, start)])
      decreases f
    {
      if f == 0 {
        return OutOfFuel, [];
      }
      f := f - 1;
      var i := MinIndex(pq);
      var e := pq[i];
      if e.state == goal {
        forall ms | Chain(Successors, start, ms, goal) ensures e.cost <= SumCost(ms) {
          var x := ChainBound(Successors, best, done, pq, last, goal, start, ms, 0);
        }
        ChainCostAtLeastLength(Successors, start, chains[i], goal);
        return Reached(e.cost), chains[i];
      }
      if e.cost != best[e.state] {
        DiscardKeepsInv(Successors, start, goal, pq, chains, best, done, last, i);
        pq, chains := Remove(pq, i), Remove(chains, i);
        continue;
      }
      ChainConservesTokens(start, chains[i], e.state);
      var moves := MovesFromState(e.state);
      assert moves == Successors(e.state);
      SuccessorsDistinct(e.state);
      var newBest, newPq, src := Relax(e.cost, moves, best, Remove(pq, i));
      ExpandKeepsInv(Successors, start, goal, pq, chains, best, done, last, i, newBest, newPq, src);
      chains := Remove(chains, i) + Extend(chains[i], src);
      done := done + {e.state};
      last := e.cost;
      best, pq := newBest, newPq;
    }
    forall ms | Chain(Successors, start, ms, goal) ensures false {
      var x := ChainBound(Successors, best, done, pq, last, goal, start, ms, 0);
    }
    return Exhausted, [];
  }

  /** solve: the search over the generated moves from start to the sorted
      configuration of the same room depth. A reached cost is the least
      energy of any chain to the goal, and then all rooms of start are
      equally deep and hold exactly as many tokens of each kind as they are
      deep. */
  method Solve(start: State, fuel: nat) returns (r: Outcome, ghost path: seq<Move>)
    requires Shaped(start)
    ensures r.Reached? ==> Chain(Successors, start, path, GoalState(|start.rooms[0]|)) && SumCost(path) == r.cost
    ensures r.Reached? ==> forall ms | Chain(Successors, start, ms, GoalState(|start.rooms[0]|)) :: r.cost <= SumCost(ms)
    ensures r.Reached? ==> r.cost >= 0
    ensures r.Reached? ==> forall k :: Tokens(start)[Pod(k)] == |start.rooms[0]|
    ensures r.Reached? ==> forall i | 0 <= i < RoomCount :: |start.rooms[i]| == |start.rooms[0]|
    ensures r.Exhausted? ==> forall ms :: !Chain(Successors, start, ms, GoalState(|start.rooms[0]|))
    ensures start == GoalState(|start.rooms[0]|) && fuel > 0 ==> r == Reached(0)
  {
    var goal := GoalState(|start.rooms[0]|);
    r, path := Dijkstra(start, goal, fuel);
    if r.Reached? {
      ChainConservesTokens(start, path, goal);
      forall k ensures Tokens(start)[Pod(k)] == |start.rooms[0]| {
        GoalTokenCount(|start.rooms[0]|, k);
      }
    }
  }
}
