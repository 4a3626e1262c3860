/** The burrow: token kinds, cells, configurations, the fixed layout constants,
    the goal configuration and the small scans over a hallway or a room that
    the move generator is built from. */
module Burrow {

  /** The four amphipod types. */
  datatype Kind = A | B | C | D

  /** A hallway or room cell: '.' in the textual form, or one token. */
  datatype Cell = Empty | Pod(kind: Kind)

  /** A configuration: the hallway, hallway[0] leftmost, and the four rooms,
      each listed from the cell next to the hallway (index 0) downwards. */
  datatype State = State(hall: seq<Cell>, rooms: seq<seq<Cell>>)

  const HallLen: nat := 11
  const RoomCount: nat := 4
  /** Hallway index above room r. */
  const Doors: seq<int> := [2, 4, 6, 8]

  predicate IsDoor(i: int) { i in Doors }

  /** HALL_STOPS: the hallway indices that are not doors. */
  predicate IsStop(i: int) { 0 <= i < HallLen && !IsDoor(i) }

  /** Energy spent per step by a token of kind k. */
  function Energy(k: Kind): (e: int)
    ensures e >= 1
  {
    match k
    case A => 1
    case B => 10
    case C => 100
    case D => 1000
  }

  /** The energy of steps steps by a token of kind k, steps * Energy(k),
      written with constant factors so that the solver meets no product of
      two unknowns. */
  function Cost(k: Kind, steps: int): (c: int)
  {
    match k
    case A => steps
    case B => 10 * steps
    case C => 100 * steps
    case D => 1000 * steps
  }

  lemma CostIsStepsTimesEnergy(k: Kind, steps: int)
    ensures Cost(k, steps) == steps * Energy(k)
    ensures steps >= 1 ==> Cost(k, steps) >= steps
  {
  }

  /** Index of the room of type k (TARGET_ROOM). */
  function TargetRoom(k: Kind): (r: nat)
    ensures r < RoomCount && RoomKind(r) == k
  {
    match k
    case A => 0
    case B => 1
    case C => 2
    case D => 3
  }

  /** The type that room r is meant to hold (chr(ord('A') + r)). */
  function RoomKind(r: int): (k: Kind)
    requires 0 <= r < RoomCount
  {
    if r == 0 then A else if r == 1 then B else if r == 2 then C else D
  }

  lemma RoomKindIsTarget(r: int)
    requires 0 <= r < RoomCount
    ensures TargetRoom(RoomKind(r)) == r
  {
  }

  /** The shape every configuration handled by the solver has. */
  predicate Shaped(s: State)
  {
    |s.hall| == HallLen && |s.rooms| == RoomCount
  }

  /** All tokens and empty cells of a configuration. */
  function Tokens(s: State): (t: multiset<Cell>)
    requires Shaped(s)
  {
    multiset(s.hall) + multiset(s.rooms[0]) + multiset(s.rooms[1])
      + multiset(s.rooms[2]) + multiset(s.rooms[3])
  }

  /** A room in which no empty cell lies below a token. */
  predicate Stacked(room: seq<Cell>)
  {
    forall i, j | 0 <= i < j < |room| && room[i] != Empty :: room[j] != Empty
  }

  predicate AllStacked(s: State)
  {
    forall r | 0 <= r < |s.rooms| :: Stacked(s.rooms[r])
  }

  lemma {:induction false} MultisetOfConstant(n: nat, c: Cell)
    ensures multiset(seq(n, _ => c)) == multiset{}[c := n]
  {
    if n > 0 {
      MultisetOfConstant(n - 1, c);
      assert seq(n, _ => c) == seq(n - 1, _ => c) + [c];
    }
  }

  /** The goal: an empty hallway and room r filled with RoomKind(r). */
  function GoalState(depth: nat): (g: State)
    ensures Shaped(g) && AllStacked(g)
    ensures forall i | 0 <= i < HallLen :: g.hall[i] == Empty
    ensures forall r | 0 <= r < RoomCount ::
      |g.rooms[r]| == depth && forall i | 0 <= i < depth :: g.rooms[r][i] == Pod(RoomKind(r))
  {
    State(seq(HallLen, _ => Empty), seq(RoomCount, r requires 0 <= r < RoomCount => seq(depth, _ => Pod(RoomKind(r)))))
  }

  /** The goal holds exactly depth tokens of every kind. */
  lemma GoalTokenCount(depth: nat, k: Kind)
    ensures Tokens(GoalState(depth))[Pod(k)] == depth
  {
    var g := GoalState(depth);
    MultisetOfConstant(HallLen, Empty);
    MultisetOfConstant(depth, Pod(A));
    MultisetOfConstant(depth, Pod(B));
    MultisetOfConstant(depth, Pod(C));
    MultisetOfConstant(depth, Pod(D));
    assert g.hall == seq(HallLen, _ => Empty);
    assert g.rooms[0] == seq(depth, _ => Pod(A));
    assert g.rooms[1] == seq(depth, _ => Pod(B));
    assert g.rooms[2] == seq(depth, _ => Pod(C));
    assert g.rooms[3] == seq(depth, _ => Pod(D));
  }

  /** i lies on the way from a (exclusive) to b (inclusive). */
  predicate OnPath(a: int, b: int, i: int)
  {
    if a < b then a < i <= b else b <= i < a
  }

  /** Every hallway cell on the way from a (exclusive) to b (inclusive) is empty. */
  predicate PathClear(h: seq<Cell>, a: int, b: int)
    requires 0 <= a < |h| && 0 <= b < |h|
  {
    forall i | 0 <= i < |h| && OnPath(a, b, i) :: h[i] == Empty
  }

  /** hallway_path_clear: a scan over range(a + 1, b + 1) or range(b, a). */
  method HallwayPathClear(h: seq<Cell>, a: int, b: int) returns (clear: bool)
    requires 0 <= a < |h| && 0 <= b < |h|
    ensures clear == PathClear(h, a, b)
  {
    var lo, hi := if a < b then a + 1 else b, if a < b then b + 1 else a;
    var i := lo;
    while i < hi
      invariant lo <= i <= hi
      invariant forall j | lo <= j < i :: h[j] == Empty
    {
      // The source skips i == a; a lies outside [lo, hi), so that skip never fires.
      assert i != a;
      if h[i] != Empty {
        return false;
      }
      i := i + 1;
    }
    return true;
  }

  /** can_enter_room: every cell of the room is empty or holds kind k. */
  predicate CanEnterRoom(room: seq<Cell>, k: Kind)
  {
    forall i | 0 <= i < |room| :: room[i] == Empty || room[i] == Pod(k)
  }

  /** The largest index of an empty cell, or -1 when there is none. */
  function DeepestEmpty(room: seq<Cell>): (d: int)
    ensures -1 <= d < |room|
    ensures d >= 0 ==> room[d] == Empty
    ensures forall j | d < j < |room| :: room[j] != Empty
  {
    if |room| == 0 then -1
    else if room[|room| - 1] == Empty then |room| - 1
    else DeepestEmpty(room[..|room| - 1])
  }

  /** deepest_available: scans from the bottom of the room upwards. */
  method DeepestAvailable(room: seq<Cell>) returns (d: int)
    ensures d == DeepestEmpty(room)
  {
    var i := |room| - 1;
    while i >= 0
      invariant -1 <= i < |room|
      invariant forall j | i < j < |room| :: room[j] != Empty
    {
      if room[i] == Empty {
        return i;
      }
      i := i - 1;
    }
    return -1;
  }

  /** The smallest index of an occupied cell, or -1 when there is none. */
  function FirstOccupied(room: seq<Cell>): (t: int)
    ensures -1 <= t < |room|
    ensures t >= 0 ==> room[t] != Empty
    ensures forall j | 0 <= j < |room| && (t < 0 || j < t) :: room[j] == Empty
  {
    if |room| == 0 then -1
    else if room[0] != Empty then 0
    else
      var t := FirstOccupied(room[1..]);
      if t < 0 then -1 else t + 1
  }

  /** first_occupant: scans from the top of the room downwards. */
  method FirstOccupant(room: seq<Cell>) returns (t: int)
    ensures t == FirstOccupied(room)
  {
    var i := 0;
    while i < |room|
      invariant 0 <= i <= |room|
      invariant forall j | 0 <= j < i :: room[j] == Empty
    {
      if room[i] != Empty {
        return i;
      }
      i := i + 1;
    }
    return -1;
  }

  /** A cell of a configuration: a hallway index or a room and a depth. */
  datatype Pos = InHall(i: int) | InRoom(r: int, i: int)

  predicate ValidPos(s: State, p: Pos)
  {
    match p
    case InHall(i) => 0 <= i < |s.hall|
    case InRoom(r, i) => 0 <= r < |s.rooms| && 0 <= i < |s.rooms[r]|
  }

  function At(s: State, p: Pos): (c: Cell)
    requires ValidPos(s, p)
  {
    match p
    case InHall(i) => s.hall[i]
    case InRoom(r, i) => s.rooms[r][i]
  }

  /** Same hallway length, same number of rooms, same depth of every room. */
  predicate SameShape(s: State, t: State)
  {
    && |t.hall| == |s.hall| && |t.rooms| == |s.rooms|
    && forall r | 0 <= r < |s.rooms| :: |t.rooms[r]| == |s.rooms[r]|
  }

  /** t is s with the token at from moved to the empty cell to. */
  ghost predicate MovesOneToken(s: State, t: State, from: Pos, to: Pos)
  {
    && SameShape(s, t)
    && ValidPos(s, from) && ValidPos(s, to) && ValidPos(t, from) && ValidPos(t, to)
    && from != to
    && At(s, from).Pod? && At(s, to) == Empty
    && At(t, from) == Empty && At(t, to) == At(s, from)
    && forall p | ValidPos(s, p) && ValidPos(t, p) && p != from && p != to :: At(t, p) == At(s, p)
  }

  lemma MultisetUpdate(a: seq<Cell>, i: int, v: Cell)
    requires 0 <= i < |a|
    ensures multiset(a[i := v]) + multiset{a[i]} == multiset(a) + multiset{v}
  {
    assert a == a[..i] + [a[i]] + a[i + 1..];
    assert a[i := v] == a[..i] + [v] + a[i + 1..];
  }

  /** Replacing room r by a room with the same multiset keeps the rooms' tokens. */
  lemma RoomsTokensUpdate(s: State, r: int, room: seq<Cell>)
    requires Shaped(s) && 0 <= r < RoomCount
    ensures Shaped(State(s.hall, s.rooms[r := room]))
    ensures Tokens(State(s.hall, s.rooms[r := room])) + multiset(s.rooms[r]) == Tokens(s) + multiset(room)
  {
    var t := State(s.hall, s.rooms[r := room]);
    if r == 0 {
      assert t.rooms[1] == s.rooms[1] && t.rooms[2] == s.rooms[2] && t.rooms[3] == s.rooms[3];
    } else if r == 1 {
      assert t.rooms[0] == s.rooms[0] && t.rooms[2] == s.rooms[2] && t.rooms[3] == s.rooms[3];
    } else if r == 2 {
      assert t.rooms[0] == s.rooms[0] && t.rooms[1] == s.rooms[1] && t.rooms[3] == s.rooms[3];
    } else {
      assert t.rooms[0] == s.rooms[0] && t.rooms[1] == s.rooms[1] && t.rooms[2] == s.rooms[2];
    }
  }

  /** Exchanging a hallway cell with a room cell keeps every token. */
  lemma SwapConservesTokens(s: State, h: int, r: int, i: int)
    requires Shaped(s) && 0 <= h < HallLen && 0 <= r < RoomCount && 0 <= i < |s.rooms[r]|
    ensures Shaped(State(s.hall[h := s.rooms[r][i]], s.rooms[r := s.rooms[r][i := s.hall[h]]]))
    ensures SameShape(s, State(s.hall[h := s.rooms[r][i]], s.rooms[r := s.rooms[r][i := s.hall[h]]]))
    ensures Tokens(State(s.hall[h := s.rooms[r][i]], s.rooms[r := s.rooms[r][i := s.hall[h]]])) == Tokens(s)
  {
    var x, y := s.hall[h], s.rooms[r][i];
    var u := State(s.hall[h := y], s.rooms);
    var t := State(u.hall, u.rooms[r := s.rooms[r][i := x]]);
    MultisetUpdate(s.hall, h, y);
    MultisetUpdate(s.rooms[r], i, x);
    RoomsTokensUpdate(u, r, s.rooms[r][i := x]);
    assert Tokens(u) + multiset{x} == Tokens(s) + multiset{y};
    forall c ensures Tokens(t)[c] == Tokens(s)[c] {
      assert (Tokens(t) + multiset(s.rooms[r]))[c] == (Tokens(u) + multiset(s.rooms[r][i := x]))[c];
      assert (Tokens(u) + multiset{x})[c] == (Tokens(s) + multiset{y})[c];
      assert (multiset(s.rooms[r][i := x]) + multiset{y})[c] == (multiset(s.rooms[r]) + multiset{x})[c];
    }
  }
}
