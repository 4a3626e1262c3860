/** The move generator: every legal single-token move out of one
    configuration, each with its energy cost. Moves(s) lists them in the
    order moves_from_state yields them; MovesFromState computes the same list
    with the source's loops. */
module MoveGenerator {
  import opened Burrow

  /** A generated move: its energy cost and the configuration it leads to. */
  datatype Move = Move(cost: int, next: State)

  function Abs(x: int): nat { if x < 0 then -x else x }

  // ---------------------------------------------------------------------------
  // Hallway to home room

  /** The token at hpos may walk to its home room: the way to the door is
      clear, the room holds nothing but its own kind, and a slot is free. */
  predicate EnterOk(s: State, hpos: int)
    requires Shaped(s)
  {
    && 0 <= hpos < HallLen
    && s.hall[hpos].Pod?
    && var k := s.hall[hpos].kind;
       var r := TargetRoom(k);
       && PathClear(s.hall, hpos, Doors[r])
       && CanEnterRoom(s.rooms[r], k)
       && DeepestEmpty(s.rooms[r]) >= 0
  }

  /** The token at hpos drops into the deepest empty slot of its room. */
  function EnterMove(s: State, hpos: int): (m: Move)
    requires Shaped(s) && EnterOk(s, hpos)
  {
    var k := s.hall[hpos].kind;
    var r := TargetRoom(k);
    var door := Doors[r];
    var d := DeepestEmpty(s.rooms[r]);
    Move(Cost(k, Abs(hpos - door) + (d + 1)),
         State(s.hall[hpos := Empty], s.rooms[r := s.rooms[r][d := Pod(k)]]))
  }

  /** The hallway-to-room moves of the tokens at hpos, hpos + 1, ..., 10. */
  function EnterFrom(s: State, hpos: nat): (ms: seq<Move>)
    requires Shaped(s) && hpos <= HallLen
    decreases HallLen - hpos
  {
    if hpos == HallLen then []
    else (if EnterOk(s, hpos) then [EnterMove(s, hpos)] else []) + EnterFrom(s, hpos + 1)
  }

  // ---------------------------------------------------------------------------
  // Top of a room to a hallway stop

  /** The first skip test on a room, with its redundant inner test, as written:
      only empty cells and the room's own kind, at least one of the latter,
      and no cell of another kind. */
  predicate SettledAsWritten(room: seq<Cell>, target: Kind)
  {
    && CanEnterRoom(room, target)
    && Pod(target) in room
    && !(exists i | 0 <= i < |room| :: room[i] != Empty && room[i] != Pod(target))
  }

  /** Every cell from top to the bottom holds kind target. */
  predicate AllOfKindFrom(room: seq<Cell>, top: int, target: Kind)
    requires 0 <= top <= |room|
  {
    forall i | top <= i < |room| :: room[i] == Pod(target)
  }

  /** Room r passes all three skip tests, so its top token may step out. */
  predicate ExitOk(s: State, r: int)
    requires Shaped(s) && 0 <= r < RoomCount
  {
    var room := s.rooms[r];
    var target := RoomKind(r);
    var top := FirstOccupied(room);
    && !SettledAsWritten(room, target)
    && top != -1
    && !AllOfKindFrom(room, top, target)
  }

  /** The token at depth top of room r steps out to hallway index stop. */
  function ExitMove(s: State, r: int, top: int, stop: int): (m: Move)
    requires Shaped(s) && 0 <= r < RoomCount && 0 <= top < |s.rooms[r]| && s.rooms[r][top].Pod?
    requires 0 <= stop < HallLen
  {
    var room := s.rooms[r];
    var k := room[top].kind;
    var door := Doors[r];
    Move(Cost(k, (top + 1) + Abs(stop - door)),
         State(s.hall[stop := Pod(k)], s.rooms[r := room[top := Empty]]))
  }

  /** The leftward scan from left down to 0, up to the first occupied cell. */
  function LeftFrom(s: State, r: int, top: int, left: int): (ms: seq<Move>)
    requires Shaped(s) && 0 <= r < RoomCount && 0 <= top < |s.rooms[r]| && s.rooms[r][top].Pod?
    requires -1 <= left < HallLen
    decreases left + 1
  {
    if left < 0 || s.hall[left] != Empty then []
    else (if IsStop(left) then [ExitMove(s, r, top, left)] else []) + LeftFrom(s, r, top, left - 1)
  }

  /** The rightward scan from right up to 10, up to the first occupied cell. */
  function RightFrom(s: State, r: int, top: int, right: int): (ms: seq<Move>)
    requires Shaped(s) && 0 <= r < RoomCount && 0 <= top < |s.rooms[r]| && s.rooms[r][top].Pod?
    requires 0 <= right <= HallLen
    decreases HallLen - right
  {
    if right >= HallLen || s.hall[right] != Empty then []
    else (if IsStop(right) then [ExitMove(s, r, top, right)] else []) + RightFrom(s, r, top, right + 1)
  }

  /** All room-to-hallway moves out of room r. */
  function ExitAt(s: State, r: int): (ms: seq<Move>)
    requires Shaped(s) && 0 <= r < RoomCount
  {
    if ExitOk(s, r) then
      var top := FirstOccupied(s.rooms[r]);
      LeftFrom(s, r, top, Doors[r] - 1) + RightFrom(s, r, top, Doors[r] + 1)
    else []
  }

  /** The room-to-hallway moves out of rooms r, r + 1, ..., 3. */
  function ExitFrom(s: State, r: nat): (ms: seq<Move>)
    requires Shaped(s) && r <= RoomCount
    decreases RoomCount - r
  {
    if r == RoomCount then [] else ExitAt(s, r) + ExitFrom(s, r + 1)
  }

  /** Every move moves_from_state yields, in its order. */
  function Moves(s: State): (ms: seq<Move>)
    requires Shaped(s)
  {
    EnterFrom(s, 0) + ExitFrom(s, 0)
  }

  // ---------------------------------------------------------------------------
  // The generator as the source runs it

  lemma AppendAssoc(a: seq<Move>, b: seq<Move>, c: seq<Move>)
    ensures (a + b) + c == a + (b + c)
  {
  }

  lemma EnterFromUnfold(s: State, hpos: nat)
    requires Shaped(s) && hpos < HallLen
    ensures !EnterOk(s, hpos) ==> EnterFrom(s, hpos) == EnterFrom(s, hpos + 1)
    ensures EnterOk(s, hpos) ==> EnterFrom(s, hpos) == [EnterMove(s, hpos)] + EnterFrom(s, hpos + 1)
  {
    assert [] + EnterFrom(s, hpos + 1) == EnterFrom(s, hpos + 1);
  }

  lemma LeftFromUnfold(s: State, r: int, top: int, left: int)
    requires Shaped(s) && 0 <= r < RoomCount && 0 <= top < |s.rooms[r]| && s.rooms[r][top].Pod?
    requires 0 <= left < HallLen && s.hall[left] == Empty
    ensures !IsStop(left) ==> LeftFrom(s, r, top, left) == LeftFrom(s, r, top, left - 1)
    ensures IsStop(left) ==> LeftFrom(s, r, top, left) == [ExitMove(s, r, top, left)] + LeftFrom(s, r, top, left - 1)
  {
    assert [] + LeftFrom(s, r, top, left - 1) == LeftFrom(s, r, top, left - 1);
  }

  lemma RightFromUnfold(s: State, r: int, top: int, right: int)
    requires Shaped(s) && 0 <= r < RoomCount && 0 <= top < |s.rooms[r]| && s.rooms[r][top].Pod?
    requires 0 <= right < HallLen && s.hall[right] == Empty
    ensures !IsStop(right) ==> RightFrom(s, r, top, right) == RightFrom(s, r, top, right + 1)
    ensures IsStop(right) ==> RightFrom(s, r, top, right) == [ExitMove(s, r, top, right)] + RightFrom(s, r, top, right + 1)
  {
    assert [] + RightFrom(s, r, top, right + 1) == RightFrom(s, r, top, right + 1);
  }

  lemma ExitFromUnfold(s: State, r: nat)
    requires Shaped(s) && r < RoomCount
    ensures ExitFrom(s, r) == ExitAt(s, r) + ExitFrom(s, r + 1)
  {
  }

  /** moves_from_state: collects the moves into a list instead of yielding them. */
  method MovesFromState(s: State) returns (moves: seq<Move>)
    requires Shaped(s)
    ensures moves == Moves(s)
  {
    moves := HallwayMoves(s);
    for rIndex := 0 to RoomCount
      invariant moves + ExitFrom(s, rIndex) == Moves(s)
    {
      var out := RoomMoves(s, rIndex);
      ExitFromUnfold(s, rIndex);
      AppendAssoc(moves, out, ExitFrom(s, rIndex + 1));
      moves := moves + out;
    }
  }

  /** The first loop of moves_from_state: hallway tokens walking home. */
  method HallwayMoves(s: State) returns (moves: seq<Move>)
    requires Shaped(s)
    ensures moves == EnterFrom(s, 0)
  {
    var hallway, rooms := s.hall, s.rooms;
    moves := [];
    for hpos := 0 to HallLen
      invariant moves + EnterFrom(s, hpos) == EnterFrom(s, 0)
    {
      EnterFromUnfold(s, hpos);
      var amph := hallway[hpos];
      if amph == Empty {
        assert !EnterOk(s, hpos);
        continue;
      }
      var r := TargetRoom(amph.kind);
      var door := Doors[r];
      var clear := HallwayPathClear(hallway, hpos, door);
      if !clear {
        assert !EnterOk(s, hpos);
        continue;
      }
      var room := rooms[r];
      if !CanEnterRoom(room, amph.kind) {
        assert !EnterOk(s, hpos);
        continue;
      }
      var dpos := DeepestAvailable(room);
      if dpos < 0 {
        assert !EnterOk(s, hpos);
        continue;
      }
      var steps := Abs(hpos - door) + (dpos + 1);
      var cost := Cost(amph.kind, steps);
      var newHall := hallway[hpos := Empty];
      var newRoom := room[dpos := amph];
      var newRooms := rooms[r := newRoom];
      assert cost == EnterMove(s, hpos).cost;
      assert newHall == EnterMove(s, hpos).next.hall;
      assert newRooms == EnterMove(s, hpos).next.rooms;
      assert Move(cost, State(newHall, newRooms)) == EnterMove(s, hpos);
      AppendAssoc(moves, [EnterMove(s, hpos)], EnterFrom(s, hpos + 1));
      moves := moves + [Move(cost, State(newHall, newRooms))];
    }
  }

  /** One pass of the second loop of moves_from_state: the top token of room
      rIndex stepping out, scanning left and then right from its door. */
  method RoomMoves(s: State, rIndex: int) returns (moves: seq<Move>)
    requires Shaped(s) && 0 <= rIndex < RoomCount
    ensures moves == ExitAt(s, rIndex)
  {
    var room := s.rooms[rIndex];
    var target := RoomKind(rIndex);
    if CanEnterRoom(room, target) && Pod(target) in room {
      if !(exists i | 0 <= i < |room| :: room[i] != Empty && room[i] != Pod(target)) {
        assert SettledAsWritten(room, target);
        return [];
      }
    }
    var topIdx := FirstOccupant(room);
    if topIdx == -1 {
      assert !ExitOk(s, rIndex);
      return [];
    }
    if forall i | topIdx <= i < |room| :: room[i] == Pod(target) {
      assert AllOfKindFrom(room, topIdx, target);
      return [];
    }
    var leftMoves := ScanLeft(s, rIndex, topIdx);
    var rightMoves := ScanRight(s, rIndex, topIdx);
    moves := leftMoves + rightMoves;
    assert ExitOk(s, rIndex);
  }

  /** The leftward while loop: stops from the door down to the first
      occupied hallway cell. */
  method ScanLeft(s: State, rIndex: int, topIdx: int) returns (moves: seq<Move>)
    requires Shaped(s) && 0 <= rIndex < RoomCount && 0 <= topIdx < |s.rooms[rIndex]| && s.rooms[rIndex][topIdx].Pod?
    ensures moves == LeftFrom(s, rIndex, topIdx, Doors[rIndex] - 1)
  {
    var hallway, rooms := s.hall, s.rooms;
    var room := rooms[rIndex];
    var amph := room[topIdx];
    var door := Doors[rIndex];
    moves := [];
    var left := door - 1;
    while left >= 0 && hallway[left] == Empty
      invariant -1 <= left < door
      invariant moves + LeftFrom(s, rIndex, topIdx, left) == LeftFrom(s, rIndex, topIdx, door - 1)
    {
      LeftFromUnfold(s, rIndex, topIdx, left);
      if IsStop(left) {
        var steps := (topIdx + 1) + Abs(left - door);
        var cost := Cost(amph.kind, steps);
        var newHall := hallway[left := amph];
        var newRoom := room[topIdx := Empty];
        var newRooms := rooms[rIndex := newRoom];
        assert cost == ExitMove(s, rIndex, topIdx, left).cost;
        assert newHall == ExitMove(s, rIndex, topIdx, left).next.hall;
        assert newRooms == ExitMove(s, rIndex, topIdx, left).next.rooms;
        assert Move(cost, State(newHall, newRooms)) == ExitMove(s, rIndex, topIdx, left);
        AppendAssoc(moves, [ExitMove(s, rIndex, topIdx, left)], LeftFrom(s, rIndex, topIdx, left - 1));
        moves := moves + [Move(cost, State(newHall, newRooms))];
      }
      left := left - 1;
    }
    assert LeftFrom(s, rIndex, topIdx, left) == [];
  }

  /** The rightward while loop: stops from the door up to the first
      occupied hallway cell. */
  method ScanRight(s: State, rIndex: int, topIdx: int) returns (moves: seq<Move>)
    requires Shaped(s) && 0 <= rIndex < RoomCount && 0 <= topIdx < |s.rooms[rIndex]| && s.rooms[rIndex][topIdx].Pod?
    ensures moves == RightFrom(s, rIndex, topIdx, Doors[rIndex] + 1)
  {
    var hallway, rooms := s.hall, s.rooms;
    var room := rooms[rIndex];
    var amph := room[topIdx];
    var door := Doors[rIndex];
    moves := [];
    var right := door + 1;
    while right < HallLen && hallway[right] == Empty
      invariant door < right <= HallLen
      invariant moves + RightFrom(s, rIndex, topIdx, right) == RightFrom(s, rIndex, topIdx, door + 1)
    {
      RightFromUnfold(s, rIndex, topIdx, right);
      if IsStop(right) {
        var steps := (topIdx + 1) + Abs(right - door);
        var cost := Cost(amph.kind, steps);
        var newHall := hallway[right := amph];
        var newRoom := room[topIdx := Empty];
        var newRooms := rooms[rIndex := newRoom];
        assert cost == ExitMove(s, rIndex, topIdx, right).cost;
        assert newHall == ExitMove(s, rIndex, topIdx, right).next.hall;
        assert newRooms == ExitMove(s, rIndex, topIdx, right).next.rooms;
        assert Move(cost, State(newHall, newRooms)) == ExitMove(s, rIndex, topIdx, right);
        AppendAssoc(moves, [ExitMove(s, rIndex, topIdx, right)], RightFrom(s, rIndex, topIdx, right + 1));
        moves := moves + [Move(cost, State(newHall, newRooms))];
      }
      right := right + 1;
    }
    assert RightFrom(s, rIndex, topIdx, right) == [];
  }
}
