# Amphipod burrow: minimum-energy sorting, modelled in Dafny

`Maze.py` solves the amphipod-sorting puzzle. A burrow has an 11-cell hallway
and four rooms of equal depth, whose doors open on hallway cells 2, 4, 6
and 8. Each token (type A, B, C or D) must reach the room of its type. A
step costs 1, 10, 100 or 1000 units of energy, depending on the type. Tokens
move in two kinds of moves:

- from the hallway into their own room;
- from the top of a room out to a hallway cell that is not in front of a
  door.

The solver runs a uniform-cost search over configurations and returns the
least total energy that reaches the sorted configuration.

This project models that core in three layers.

- `Burrow.dfy` covers the data and the small helpers:
  - the cell and configuration datatypes;
  - the constants `HALL_LEN`, `DOORS`, `HALL_STOPS`, `ENERGY` and
    `TARGET_ROOM`;
  - `goal_state`;
  - the scans `hallway_path_clear`, `deepest_available` and
    `first_occupant`, each written as a method with loop invariants and
    proved equal to a specification function;
  - `can_enter_room`, plus the token multiset used to state conservation.
- `MoveGenerator.dfy` covers `moves_from_state`.
  - `Moves(s)` lists every move in the order the generator yields them: the
    hallway loop first, then the rooms left to right, each room scanning
    left and then right.
  - `MovesFromState`, `HallwayMoves`, `RoomMoves`, `ScanLeft` and
    `ScanRight` are the source's loops. They build new hallways and rooms
    by sequence update, and each is proved to compute its part of
    `Moves(s)`.
- `MoveProperties.dfy` states the rules of the puzzle without the scans, as
  a `Step`: "hallway token `hpos` walks home", or "the top token of room
  `r` walks to stop `stop`". The entry test (`EnterOk`), the skip tests
  (`ExitOk`) and the move each step makes (`EnterMove`, `ExitMove`) are
  shared with the generator. What a step replaces is the iteration: the
  hallway loop over every index, and the two outward scans, which become
  "any stop whose way from the door is clear" (`PathClear` and `IsStop`).
  - Two lemmas tie it to the generator: every generated move is a legal
    step (soundness), and every legal step is generated (completeness).
  - The rest follows from them:
    - each move shifts exactly one token into an empty cell;
    - tokens are conserved;
    - costs are positive and equal steps × energy;
    - tokens stop only on non-door cells, and enter only their own room;
    - a settled room is never left;
    - gap-free rooms and empty door cells are invariants;
    - the goal has no moves.
- `ShortestPath.dfy` covers `dijkstra` and `solve`.
  - The queue is a sequence, and a pop removes any entry of least cost.
  - `best` is a map, and an absent key stands for the `1 << 60` sentinel.
  - The search is proved sound: a returned cost is the cost of a chain of
    generated moves from the start to the goal. It is also proved optimal:
    no chain is cheaper.
  - An exhausted queue means no chain reaches the goal.
  - When the start is the goal and the fuel bound allows at least one pop,
    the answer is 0.
  - The invariant lemmas are stated over any successor function whose moves
    cost at least one unit. The search instantiates them with the
    generator.

The code differs from the usual statement of the puzzle's rules in two
places, and the model follows the code:

- **Which rooms the room-to-hallway loop skips.** The first skip test
  (`Maze.py:81-83`) also skips a room such as `[A, ., A]` in room 0. In such
  a room an empty cell lies below a token. Taken alone, the rule "skip only
  when every cell from the top down already matches" would let the top A
  out.
  - `MoveProperties.GappedRoomIsSkipped` shows this case.
  - `MoveProperties.SkipRuleUnderStacking` proves that the two rules agree
    on every room without such a gap.
  - `MoveProperties.MovesKeepStacked` proves that generated moves never
    create a gap, and `ShortestPath.ChainKeepsStacked` carries that along
    any chain of moves. `ShortestPath.ChainSkipRule` puts the two together:
    in every configuration reached from a gap-free start, the two rules
    give the same moves.
- **The stale test.** The code tests staleness with `!=`, not with "exceeds"
  (`Maze.py:128`). The goal test comes first (`Maze.py:126`).

## Model

| member | source | states |
|---|---|---|
| Burrow.Energy | Maze.py:8 | every type spends at least one unit of energy per step (1, 10, 100, 1000) |
| Burrow.CostIsStepsTimesEnergy | Maze.py:69-70 | the cost of a walk is its step count times the type's energy, and at least the step count when that is positive |
| Burrow.TargetRoom | Maze.py:9 | every type has a room index below 4, and that room is the one meant for the type (`chr(ord('A') + r)`) |
| Burrow.RoomKindIsTarget | Maze.py:80 | the type that room r is meant for maps back to r, so `TARGET_ROOM` and line 80 agree |
| Burrow.GoalState | Maze.py:20-23 | the goal has an 11-cell empty hallway and four rooms, each `depth` deep and filled with its own type; no room has a gap |
| Burrow.GoalTokenCount | Maze.py:20-23 | the goal holds exactly `depth` tokens of every type |
| Burrow.IsStop | Maze.py:7 | definition: `HALL_STOPS`, the hallway indices 0..10 that are not doors |
| Burrow.RoomKind | Maze.py:80 | definition: the type room r is meant for, `chr(ord('A') + r)` |
| Burrow.CanEnterRoom | Maze.py:37-38 | definition: every cell of the room is empty or holds the given type |
| Burrow.Cost | Maze.py:69-70 | definition: `steps * ENERGY[amph]`, written with constant factors per type |
| Burrow.HallwayPathClear | Maze.py:25-35 | true exactly when every hallway cell from a (exclusive) to b (inclusive) is empty; vacuously true for a == b. The `i == a` skip never fires |
| Burrow.DeepestEmpty | Maze.py:40-44 | the largest index holding an empty cell, or -1; every cell below it is occupied; any non-negative result is a valid index |
| Burrow.DeepestAvailable | Maze.py:40-44 | the bottom-up loop returns exactly `DeepestEmpty` |
| Burrow.FirstOccupied | Maze.py:46-50 | the smallest index of an occupied cell, or -1; every cell above it (or every cell, for -1) is empty |
| Burrow.FirstOccupant | Maze.py:46-50 | the top-down loop returns exactly `FirstOccupied` |
| Burrow.SwapConservesTokens | Maze.py:71-76 | exchanging a hallway cell with a room cell gives a Shaped configuration with the same hallway length and room depths (SameShape) and the same multiset of all cells |
| MoveGenerator.EnterOk | Maze.py:56-68 | definition: the hallway cell holds a token, the way to its door is clear, its room holds only its type, and a slot is free |
| MoveGenerator.EnterMove | Maze.py:69-77 | definition: cost (door distance + depth + 1) × energy; the hallway cell emptied and the deepest empty slot filled |
| MoveGenerator.EnterFrom | Maze.py:56-77 | definition: the moves of the hallway loop from index hpos on, in order |
| MoveGenerator.SettledAsWritten | Maze.py:81-83 | definition: the first skip test with its inner test, as written |
| MoveGenerator.AllOfKindFrom | Maze.py:88 | definition: every cell from the top token down holds the room's type |
| MoveGenerator.ExitOk | Maze.py:79-89 | definition: none of the three skip tests fires |
| MoveGenerator.ExitMove | Maze.py:95-103 | definition: cost (depth + 1 + door distance) × energy; the top room cell emptied and the stop filled (also lines 109-117) |
| MoveGenerator.LeftFrom | Maze.py:92-104 | definition: the moves of the leftward scan from index left, stopping at the first occupied cell |
| MoveGenerator.RightFrom | Maze.py:106-118 | definition: the moves of the rightward scan from index right, stopping at the first occupied cell |
| MoveGenerator.ExitAt | Maze.py:79-118 | definition: one pass of the room loop: no moves when a skip test fires, otherwise the left scan's moves then the right scan's |
| MoveGenerator.ExitFrom | Maze.py:79-118 | definition: the moves of the room loop over rooms r, r + 1, ..., 3, in order |
| MoveGenerator.Moves | Maze.py:52-118 | definition: the hallway moves followed by the moves out of rooms 0 to 3 |
| MoveGenerator.MovesFromState | Maze.py:52-118 | the generator's loops produce exactly `Moves(s)`: the hallway moves, then the room moves of rooms 0 to 3 |
| MoveGenerator.HallwayMoves | Maze.py:56-77 | the hallway loop yields, in hallway order, one move for each token that passes the three tests of lines 61, 64 and 66-68 |
| MoveGenerator.RoomMoves | Maze.py:79-118 | one pass of the room loop yields nothing when a skip test fires; otherwise it yields the left scan then the right scan |
| MoveGenerator.ScanLeft | Maze.py:92-104 | the leftward while loop yields one move per stop from door-1 down to the first occupied cell |
| MoveGenerator.ScanRight | Maze.py:106-118 | the rightward while loop yields one move per stop from door+1 up to the first occupied cell |
| MoveProperties.StepLength | Maze.py:69 | the step count of a legal step is at least 1 |
| MoveProperties.EnterFromSound | Maze.py:56-77 | every hallway move from index hpos on is the move of a token at some h >= hpos that passes the path, room and free-slot tests |
| MoveProperties.EnterFromComplete | Maze.py:56-77 | every token at or after hpos that passes those tests has its move among the yielded ones |
| MoveProperties.LeftFromSound | Maze.py:92-104 | every move of the left scan targets a stop at or left of the start, and every cell from that stop to the start is empty |
| MoveProperties.LeftFromComplete | Maze.py:92-104 | every stop reachable through empty cells on the left is yielded |
| MoveProperties.RightFromSound | Maze.py:106-118 | every move of the right scan targets a stop at or right of the start, and every cell from the start to that stop is empty |
| MoveProperties.RightFromComplete | Maze.py:106-118 | every stop reachable through empty cells on the right is yielded |
| MoveProperties.ExitAtSound | Maze.py:79-118 | every move out of room r is a legal step out of r |
| MoveProperties.ExitAtComplete | Maze.py:79-118 | every legal step out of room r is among its moves |
| MoveProperties.ExitFromSound | Maze.py:79-118 | every move of the room loop from room r on is a legal step out of a room >= r |
| MoveProperties.ExitFromComplete | Maze.py:79-118 | every legal step out of a room >= r is yielded by the room loop from r on |
| MoveProperties.MovesSound | Maze.py:52-118 | every generated move is the move of a step allowed by the rules |
| MoveProperties.MovesComplete | Maze.py:52-118 | every step allowed by the rules is generated |
| MoveProperties.StepCost | Maze.py:69-70 | a step's cost is its length (door distance plus room depth) times the type's energy, and at least its length, which is at least 1 |
| MoveProperties.StepShiftsOneToken | Maze.py:71-117 | a step moves the stepping token from one cell to an empty cell, between hallway and room; every other cell and the shape are unchanged |
| MoveProperties.StepConservesTokens | Maze.py:71-117 | a step gives a Shaped configuration with the same hallway length and room depths (SameShape) and the same multiset of cells |
| MoveProperties.MoveCostPositive | Maze.py:69-110 | every generated move costs at least one unit |
| MoveProperties.MovesCostPositive | Maze.py:69-110 | all moves of a configuration cost at least one unit |
| MoveProperties.MoveShiftsOneToken | Maze.py:71-117 | every generated move changes exactly two cells: a token cell becomes empty and an empty cell receives that token |
| MoveProperties.MoveConservesTokens | Maze.py:71-117 | every generated move keeps the hallway length, the room depths and the count of each type |
| MoveProperties.DistinctStepsDistinctTargets | Maze.py:56-117 | two different legal steps out of one configuration lead to different configurations |
| MoveProperties.SameTargetSameMove | Maze.py:56-117 | two moves `moves_from_state` yields for one configuration with the same target are the same move |
| MoveProperties.StepTargets | Maze.py:92-118 | a hallway cell that a step fills is a stop; a room cell that a step fills gets that room's type, in a room holding nothing else |
| MoveProperties.MoveHaltsOnStops | Maze.py:94 | a hallway cell that a generated move fills is in `HALL_STOPS`, never a door |
| MoveProperties.MoveEntersOnlyHome | Maze.py:59-74 | a room cell that a generated move fills gets the room's own type, and the room held only that type before |
| MoveProperties.StepKeepsSettledRoom | Maze.py:79-89 | a step leaves every token of a room where a skip test fires in place |
| MoveProperties.SettledRoomIsSkipped | Maze.py:79-89 | when the room is empty, all its tokens from the top down are its own type, or the first test fires, no move leaves the room |
| MoveProperties.NoExitFromSettledRoom | Maze.py:84-89 | every generated move keeps in place every token of a room that the skip tests stop |
| MoveProperties.InnerSkipTestRedundant | Maze.py:81-83 | the inner test of the first skip holds whenever the outer one does |
| MoveProperties.SkipRuleUnderStacking | Maze.py:79-89 | in a gap-free room, tokens may leave exactly when the room is non-empty and some cell from the top down is of another type |
| MoveProperties.GappedRoomIsSkipped | Maze.py:81-83 | room 0 holding A, empty, A is skipped by the first test although the third test alone would let its top A out |
| MoveProperties.StepKeepsStacked | Maze.py:66-77 | a step never leaves an empty cell below a token in any room |
| MoveProperties.MovesKeepStacked | Maze.py:52-118 | generated moves keep every room free of gaps |
| MoveProperties.StepKeepsDoorsEmpty | Maze.py:7 | a step never fills a hallway cell in front of a door |
| MoveProperties.MovesKeepDoorsEmpty | Maze.py:94 | generated moves keep the hallway cells in front of the doors empty |
| MoveProperties.GoalHasNoMoves | Maze.py:52-118 | the goal configuration offers no move |
| ShortestPath.Successors | Maze.py:130 | definition: the `moves_from_state(state)` the search expands; a configuration without 11 hallway cells and 4 rooms has no moves |
| ShortestPath.SuccessorsPositive | Maze.py:130 | every generated successor costs at least one unit |
| ShortestPath.SuccessorsDistinct | Maze.py:130-134 | the moves the search relaxes for one configuration have pairwise different targets |
| ShortestPath.ChainSnoc | Maze.py:130-134 | a chain extended by one move of its end is a chain, whose cost grows by that move's cost |
| ShortestPath.ChainCostAtLeastLength | Maze.py:130-131 | a chain costs at least as many units as it has moves |
| ShortestPath.ChainConservesTokens | Maze.py:130 | following generated moves keeps the hallway length, the depth of every room and the count of each type |
| ShortestPath.ChainKeepsStacked | Maze.py:52-118 | a chain of generated moves from a configuration without gaps in its rooms reaches only such configurations |
| ShortestPath.ChainKeepsDoorsEmpty | Maze.py:94 | a chain of generated moves from a configuration with empty door cells keeps them empty |
| ShortestPath.ChainSkipRule | Maze.py:79-89 | in any configuration reached from a gap-free start, a room may be left exactly when it is non-empty and some cell from its top down is of another type |
| ShortestPath.Remove | Maze.py:125 | removing one entry keeps the order of the rest and every other entry |
| ShortestPath.MinIndex | Maze.py:125 | the popped entry has a cost no greater than any pending entry |
| ShortestPath.Relax | Maze.py:130-134 | for moves with distinct targets: after relaxing, every successor is recorded at no more than cost + move cost and no recorded value increases; each pushed entry improved on the old value and its value is still recorded in `best` when the loop ends; every changed value has a pushed entry |
| ShortestPath.AppendedEntry | Maze.py:132-134 | an entry pushed during relaxation is cost + move cost for a move from the popped configuration, and strictly below the old value |
| ShortestPath.ChainBound | Maze.py:124-135 | any chain from a recorded configuration to the goal passes a configuration (the start of the chain or the end of one of its moves) that is not expanded and whose entry at its recorded value is queued, at a cost no more than the chain's |
| ShortestPath.RemoveKeepsWitnessed | Maze.py:125 | removing an entry keeps every pending entry paired with a chain of its cost |
| ShortestPath.DiscardKeepsPending | Maze.py:128-129 | dropping an entry whose cost is not the recorded one keeps every unexpanded recorded configuration queued |
| ShortestPath.DiscardKeepsInv | Maze.py:128-129 | skipping a stale entry keeps the search invariant |
| ShortestPath.ExpandKeepsWitnessed | Maze.py:130-134 | each pushed entry is witnessed by the popped chain extended by its move |
| ShortestPath.ExpandKeepsSettledCosts | Maze.py:131-133 | expanding at the least pending cost never lowers the value of an expanded configuration |
| ShortestPath.ExpandKeepsSettled | Maze.py:130-134 | after the expansion, every expanded configuration has all its successors relaxed |
| ShortestPath.ExpandKeepsPending | Maze.py:130-134 | after the expansion, every entry costs at least the popped cost and its recorded value, and every unexpanded recorded configuration is queued |
| ShortestPath.ExpandKeepsInv | Maze.py:130-134 | expanding the popped configuration keeps the search invariant |
| ShortestPath.Dijkstra | Maze.py:120-135 | a returned cost is the cost of a chain of generated moves to the goal, no chain is cheaper and it is non-negative; an exhausted queue means the goal is unreachable; start == goal with fuel > 0 gives 0 |
| ShortestPath.Solve | Maze.py:137-140 | the search to the goal of the start's room depth; a reached cost is optimal and non-negative, and then every room of the start is as deep as room 0 and the start holds that many tokens of each type; a sorted start costs 0 when fuel > 0 |

## Left out

- `main`, the read from standard input and the `print` (`Maze.py:142-147`) are input and output.
- `parse_input` (`Maze.py:13-18`) only translates the text diagram. A configuration is taken as a `State` value, and characters other than `.ABCD` are not represented.
- The binary heap is not modelled. The queue is a sequence, and `heappop` removes any entry of least cost. Since the heap's tie-breaking is not modelled, neither is which of several equal-cost entries goes first.
- The `1 << 60` sentinel is modelled as a key missing from `best`. The two differ only for real costs of 2^60 and more.
- Dijkstra: the method takes a fuel bound on the number of pops and returns `OutOfFuel` when it runs out. The model does not prove termination, which depends on the finiteness of the reachable configurations.
- Dijkstra, Solve: `Exhausted` stands for the source's `-1`, and `Reached(c)` for a returned cost.
- Relax: it states the facts that hold once a configuration's move loop ends, not "`best[nxt] == nc` at the moment of each push". Since the moves of one configuration have distinct targets (`SuccessorsDistinct`), each pushed value is still the recorded one at the end of the loop, and the contract states it in that form.
- Shaped: the model checks the hallway length (11) and the room count (4), but not equal room depths. The generator reads the depth (`Maze.py:54`) but never uses it, and `solve` reads it from room 0.
- The fail-fast rejection of a start that does not hold `depth` tokens of every type is not in the source. `Solve` instead proves that a start it reaches the goal from has exactly that many.
- The worked examples with answers 12521 and 44169 are concrete runs of the search and are not evaluated by the model.
