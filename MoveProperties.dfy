/** What the move generator yields, stated without its scans: every move it
    lists is a legal step (soundness), every legal step is listed
    (completeness), and each step moves exactly one token at a positive cost
    while keeping the multiset of tokens. */
module MoveProperties {
  import opened Burrow
  import opened MoveGenerator

  /** A move named by where it starts: the hallway token at hpos walking home,
      or the top token of a room stepping out to hallway index stop. */
  datatype Step = Enter(hpos: int) | Exit(room: int, stop: int)

  /** The rules of the puzzle for one step. A hallway token may walk home when
      the way to its door is clear, its room holds nothing but its own kind
      and a slot is free; the top token of a room that passes the three skip
      tests may walk to any stop whose way from the door is clear. */
  predicate StepOk(s: State, st: Step)
    requires Shaped(s)
  {
    match st
    case Enter(h) => EnterOk(s, h)
    case Exit(r, stop) =>
      && 0 <= r < RoomCount && ExitOk(s, r)
      && IsStop(stop) && PathClear(s.hall, Doors[r], stop)
  }

  /** The move a legal step makes. */
  function StepMove(s: State, st: Step): (m: Move)
    requires Shaped(s) && StepOk(s, st)
  {
    match st
    case Enter(h) => EnterMove(s, h)
    case Exit(r, stop) => ExitMove(s, r, FirstOccupied(s.rooms[r]), stop)
  }

  /** The kind of the token a step moves. */
  function StepKind(s: State, st: Step): (k: Kind)
    requires Shaped(s) && StepOk(s, st)
  {
    match st
    case Enter(h) => s.hall[h].kind
    case Exit(r, _) => s.rooms[r][FirstOccupied(s.rooms[r])].kind
  }

  /** The number of cells a step walks: along the hallway to or from the
      door, plus one cell per room depth down to the slot. */
  function StepLength(s: State, st: Step): (n: int)
    requires Shaped(s) && StepOk(s, st)
    ensures n >= 1
  {
    match st
    case Enter(h) =>
      var r := TargetRoom(s.hall[h].kind);
      Abs(h - Doors[r]) + (DeepestEmpty(s.rooms[r]) + 1)
    case Exit(r, stop) => (FirstOccupied(s.rooms[r]) + 1) + Abs(stop - Doors[r])
  }

  // ---------------------------------------------------------------------------
  // Soundness and completeness of each scan

  lemma {:induction false} EnterFromSound(s: State, hpos: nat, m: Move) returns (h: int)
    requires Shaped(s) && hpos <= HallLen && m in EnterFrom(s, hpos)
    ensures hpos <= h < HallLen && EnterOk(s, h) && m == EnterMove(s, h)
    decreases HallLen - hpos
  {
    EnterFromUnfold(s, hpos);
    if EnterOk(s, hpos) && m == EnterMove(s, hpos) {
      h := hpos;
    } else {
      h := EnterFromSound(s, hpos + 1, m);
    }
  }

  lemma {:induction false} EnterFromComplete(s: State, hpos: nat, h: int)
    requires Shaped(s) && hpos <= h < HallLen && EnterOk(s, h)
    ensures EnterMove(s, h) in EnterFrom(s, hpos)
    decreases HallLen - hpos
  {
    EnterFromUnfold(s, hpos);
    if h != hpos {
      EnterFromComplete(s, hpos + 1, h);
    }
  }

  lemma {:induction false} LeftFromSound(s: State, r: int, top: int, left: int, m: Move) returns (stop: int)
    requires Shaped(s) && 0 <= r < RoomCount && 0 <= top < |s.rooms[r]| && s.rooms[r][top].Pod?
    requires -1 <= left < HallLen && m in LeftFrom(s, r, top, left)
    ensures 0 <= stop <= left && IsStop(stop) && m == ExitMove(s, r, top, stop)
    ensures forall i | stop <= i <= left :: s.hall[i] == Empty
    decreases left + 1
  {
    assert 0 <= left < HallLen && s.hall[left] == Empty;
    LeftFromUnfold(s, r, top, left);
    if IsStop(left) && m == ExitMove(s, r, top, left) {
      stop := left;
    } else {
      stop := LeftFromSound(s, r, top, left - 1, m);
      assert forall i | stop <= i <= left - 1 :: s.hall[i] == Empty;
    }
  }

  lemma {:induction false} LeftFromComplete(s: State, r: int, top: int, left: int, stop: int)
    requires Shaped(s) && 0 <= r < RoomCount && 0 <= top < |s.rooms[r]| && s.rooms[r][top].Pod?
    requires 0 <= stop <= left < HallLen && IsStop(stop)
    requires forall i | stop <= i <= left :: s.hall[i] == Empty
    ensures ExitMove(s, r, top, stop) in LeftFrom(s, r, top, left)
    decreases left + 1
  {
    LeftFromUnfold(s, r, top, left);
    if stop != left {
      LeftFromComplete(s, r, top, left - 1, stop);
    }
  }

  lemma {:induction false} RightFromSound(s: State, r: int, top: int, right: int, m: Move) returns (stop: int)
    requires Shaped(s) && 0 <= r < RoomCount && 0 <= top < |s.rooms[r]| && s.rooms[r][top].Pod?
    requires 0 <= right <= HallLen && m in RightFrom(s, r, top, right)
    ensures right <= stop < HallLen && IsStop(stop) && m == ExitMove(s, r, top, stop)
    ensures forall i | right <= i <= stop :: s.hall[i] == Empty
    decreases HallLen - right
  {
    assert 0 <= right < HallLen && s.hall[right] == Empty;
    RightFromUnfold(s, r, top, right);
    if IsStop(right) && m == ExitMove(s, r, top, right) {
      stop := right;
    } else {
      stop := RightFromSound(s, r, top, right + 1, m);
      assert forall i | right + 1 <= i <= stop :: s.hall[i] == Empty;
    }
  }

  lemma {:induction false} RightFromComplete(s: State, r: int, top: int, right: int, stop: int)
    requires Shaped(s) && 0 <= r < RoomCount && 0 <= top < |s.rooms[r]| && s.rooms[r][top].Pod?
    requires 0 <= right <= stop < HallLen && IsStop(stop)
    requires forall i | right <= i <= stop :: s.hall[i] == Empty
    ensures ExitMove(s, r, top, stop) in RightFrom(s, r, top, right)
    decreases HallLen - right
  {
    RightFromUnfold(s, r, top, right);
    if stop != right {
      RightFromComplete(s, r, top, right + 1, stop);
    }
  }

  lemma ExitAtSound(s: State, r: int, m: Move) returns (stop: int)
    requires Shaped(s) && 0 <= r < RoomCount && m in ExitAt(s, r)
    ensures StepOk(s, Exit(r, stop)) && StepMove(s, Exit(r, stop)) == m
  {
    assert ExitOk(s, r);
    var top := FirstOccupied(s.rooms[r]);
    var door := Doors[r];
    if m in LeftFrom(s, r, top, door - 1) {
      stop := LeftFromSound(s, r, top, door - 1, m);
      assert stop < door;
    } else {
      stop := RightFromSound(s, r, top, door + 1, m);
      assert door < stop;
    }
  }

  lemma ExitAtComplete(s: State, r: int, stop: int)
    requires Shaped(s) && StepOk(s, Exit(r, stop))
    ensures StepMove(s, Exit(r, stop)) in ExitAt(s, r)
  {
    var top := FirstOccupied(s.rooms[r]);
    var door := Doors[r];
    if stop < door {
      assert forall i | stop <= i <= door - 1 :: OnPath(door, stop, i);
      LeftFromComplete(s, r, top, door - 1, stop);
    } else {
      assert forall i | door + 1 <= i <= stop :: OnPath(door, stop, i);
      RightFromComplete(s, r, top, door + 1, stop);
    }
  }

  lemma {:induction false} ExitFromSound(s: State, r: nat, m: Move) returns (st: Step)
    requires Shaped(s) && r <= RoomCount && m in ExitFrom(s, r)
    ensures st.Exit? && r <= st.room && StepOk(s, st) && StepMove(s, st) == m
    decreases RoomCount - r
  {
    ExitFromUnfold(s, r);
    if m in ExitAt(s, r) {
      var stop := ExitAtSound(s, r, m);
      st := Exit(r, stop);
    } else {
      st := ExitFromSound(s, r + 1, m);
    }
  }

  lemma {:induction false} ExitFromComplete(s: State, r: nat, st: Step)
    requires Shaped(s) && r <= RoomCount && st.Exit? && r <= st.room && StepOk(s, st)
    ensures StepMove(s, st) in ExitFrom(s, r)
    decreases RoomCount - r
  {
    ExitFromUnfold(s, r);
    if st.room == r {
      ExitAtComplete(s, r, st.stop);
    } else {
      ExitFromComplete(s, r + 1, st);
    }
  }

  // ---------------------------------------------------------------------------
  // The generator against the rules

  /** Every generated move is a legal step. */
  lemma MovesSound(s: State, m: Move) returns (st: Step)
    requires Shaped(s) && m in Moves(s)
    ensures StepOk(s, st) && StepMove(s, st) == m
  {
    if m in EnterFrom(s, 0) {
      var h := EnterFromSound(s, 0, m);
      st := Enter(h);
    } else {
      st := ExitFromSound(s, 0, m);
    }
  }

  /** Every legal step is generated. */
  lemma MovesComplete(s: State, st: Step)
    requires Shaped(s) && StepOk(s, st)
    ensures StepMove(s, st) in Moves(s)
  {
    match st
    case Enter(h) => EnterFromComplete(s, 0, h);
    case Exit(_, _) => ExitFromComplete(s, 0, st);
  }

  // ---------------------------------------------------------------------------
  // What one step does to a configuration

  /** A step costs its walking distance times the energy of the token it
      moves, and so at least one unit. */
  lemma StepCost(s: State, st: Step)
    requires Shaped(s) && StepOk(s, st)
    ensures StepMove(s, st).cost == StepLength(s, st) * Energy(StepKind(s, st))
    ensures StepMove(s, st).cost >= StepLength(s, st) >= 1
  {
    CostIsStepsTimesEnergy(StepKind(s, st), StepLength(s, st));
  }

  /** A step moves one token from a cell to an empty cell and changes nothing
      else; one end lies in the hallway and the other in a room. */
  lemma StepShiftsOneToken(s: State, st: Step) returns (from: Pos, to: Pos)
    requires Shaped(s) && StepOk(s, st)
    ensures MovesOneToken(s, StepMove(s, st).next, from, to)
    ensures At(s, from) == Pod(StepKind(s, st))
    ensures from.InHall? <==> to.InRoom?
  {
    var t := StepMove(s, st).next;
    match st
    case Enter(h) =>
      var r := TargetRoom(s.hall[h].kind);
      from, to := InHall(h), InRoom(r, DeepestEmpty(s.rooms[r]));
    case Exit(r, stop) =>
      from, to := InRoom(r, FirstOccupied(s.rooms[r])), InHall(stop);
      assert OnPath(Doors[r], stop, stop);
  }

  /** A step keeps the shape of the configuration and its multiset of tokens. */
  lemma StepConservesTokens(s: State, st: Step)
    requires Shaped(s) && StepOk(s, st)
    ensures Shaped(StepMove(s, st).next) && SameShape(s, StepMove(s, st).next)
    ensures Tokens(StepMove(s, st).next) == Tokens(s)
  {
    match st
    case Enter(h) =>
      var r := TargetRoom(s.hall[h].kind);
      var d := DeepestEmpty(s.rooms[r]);
      SwapConservesTokens(s, h, r, d);
      assert StepMove(s, st).next == State(s.hall[h := s.rooms[r][d]], s.rooms[r := s.rooms[r][d := s.hall[h]]]);
    case Exit(r, stop) =>
      var top := FirstOccupied(s.rooms[r]);
      assert OnPath(Doors[r], stop, stop);
      SwapConservesTokens(s, stop, r, top);
      assert StepMove(s, st).next == State(s.hall[stop := s.rooms[r][top]], s.rooms[r := s.rooms[r][top := s.hall[stop]]]);
  }

  // ---------------------------------------------------------------------------
  // What every generated move does

  /** Every generated move costs at least one unit of energy. */
  lemma MoveCostPositive(s: State, m: Move)
    requires Shaped(s) && m in Moves(s)
    ensures m.cost >= 1
  {
    var st := MovesSound(s, m);
    StepCost(s, st);
  }

  /** The same for all moves of a configuration at once. */
  lemma MovesCostPositive(s: State)
    requires Shaped(s)
    ensures forall m | m in Moves(s) :: m.cost >= 1
  {
    forall m | m in Moves(s) ensures m.cost >= 1 {
      MoveCostPositive(s, m);
    }
  }

  /** Every generated move shifts exactly one token into an empty cell. */
  lemma MoveShiftsOneToken(s: State, m: Move) returns (from: Pos, to: Pos)
    requires Shaped(s) && m in Moves(s)
    ensures MovesOneToken(s, m.next, from, to)
    ensures from.InHall? <==> to.InRoom?
  {
    var st := MovesSound(s, m);
    from, to := StepShiftsOneToken(s, st);
  }

  /** Every generated move keeps the hallway length, the depth of every
      room and the number of tokens of each kind. */
  lemma MoveConservesTokens(s: State, m: Move)
    requires Shaped(s) && m in Moves(s)
    ensures Shaped(m.next) && SameShape(s, m.next) && Tokens(m.next) == Tokens(s)
  {
    var st := MovesSound(s, m);
    StepConservesTokens(s, st);
    var from, to := StepShiftsOneToken(s, st);
  }

  /** Two different legal steps out of one configuration lead to different
      configurations: an entry empties its hallway cell, an exit fills its
      stop, and two exits to the same stop empty different rooms. */
  lemma DistinctStepsDistinctTargets(s: State, st1: Step, st2: Step)
    requires Shaped(s) && StepOk(s, st1) && StepOk(s, st2) && st1 != st2
    ensures StepMove(s, st1).next != StepMove(s, st2).next
  {
    var t1, t2 := StepMove(s, st1).next, StepMove(s, st2).next;
    match st1
    case Enter(h) =>
      assert t1.hall[h] == Empty;
      match st2 {
        case Enter(h2) => assert t2.hall[h] == s.hall[h];
        case Exit(r2, stop2) =>
          assert OnPath(Doors[r2], stop2, stop2);
          assert t2.hall[h] != Empty;
      }
    case Exit(r, stop) =>
      assert OnPath(Doors[r], stop, stop);
      assert t1.hall[stop] != Empty;
      match st2 {
        case Enter(h2) => assert t2.hall[stop] == Empty;
        case Exit(r2, stop2) =>
          assert OnPath(Doors[r2], stop2, stop2);
          if stop != stop2 {
            assert t2.hall[stop] == Empty;
          } else {
            var top := FirstOccupied(s.rooms[r]);
            assert t1.rooms[r][top] == Empty;
            assert t2.rooms[r][top] == s.rooms[r][top];
          }
      }
  }

  /** The moves of one configuration have pairwise different targets, so
      relaxing them one after another never revisits a configuration. */
  lemma SameTargetSameMove(s: State, m1: Move, m2: Move)
    requires Shaped(s) && m1 in Moves(s) && m2 in Moves(s) && m1.next == m2.next
    ensures m1 == m2
  {
    var st1 := MovesSound(s, m1);
    var st2 := MovesSound(s, m2);
    if st1 != st2 {
      DistinctStepsDistinctTargets(s, st1, st2);
    }
  }

  /** A token that a step puts into the hallway stands on a stop, and a
      token that it puts into a room is of that room's kind, entering a room
      that held nothing but that kind. */
  lemma StepTargets(s: State, st: Step)
    requires Shaped(s) && StepOk(s, st)
    ensures Shaped(StepMove(s, st).next)
    ensures forall i | 0 <= i < HallLen && s.hall[i] == Empty && StepMove(s, st).next.hall[i] != Empty :: IsStop(i)
    ensures forall r, i | 0 <= r < RoomCount && 0 <= i < |s.rooms[r]| && s.rooms[r][i] == Empty ::
      i < |StepMove(s, st).next.rooms[r]| &&
      (StepMove(s, st).next.rooms[r][i] != Empty ==>
         StepMove(s, st).next.rooms[r][i] == Pod(RoomKind(r)) && CanEnterRoom(s.rooms[r], RoomKind(r)))
  {
    StepConservesTokens(s, st);
    match st
    case Enter(h) =>
    case Exit(r, stop) =>
      assert OnPath(Doors[r], stop, stop);
  }

  /** A token that a move puts into the hallway stands on a stop, never in
      front of a door. */
  lemma MoveHaltsOnStops(s: State, m: Move)
    requires Shaped(s) && m in Moves(s)
    ensures Shaped(m.next)
    ensures forall i | 0 <= i < HallLen && s.hall[i] == Empty && m.next.hall[i] != Empty :: IsStop(i)
  {
    var st := MovesSound(s, m);
    StepTargets(s, st);
  }

  /** A token that a move puts into room r is of the room's own kind, and the
      room held nothing but that kind before. */
  lemma MoveEntersOnlyHome(s: State, m: Move)
    requires Shaped(s) && m in Moves(s)
    ensures Shaped(m.next)
    ensures forall r, i | 0 <= r < RoomCount && 0 <= i < |s.rooms[r]| && s.rooms[r][i] == Empty ::
      i < |m.next.rooms[r]| &&
      (m.next.rooms[r][i] != Empty ==> m.next.rooms[r][i] == Pod(RoomKind(r)) && CanEnterRoom(s.rooms[r], RoomKind(r)))
  {
    var st := MovesSound(s, m);
    StepTargets(s, st);
  }

  /** Room r keeps every token when it fails one of the three skip tests. */
  lemma StepKeepsSettledRoom(s: State, st: Step, r: int)
    requires Shaped(s) && StepOk(s, st) && 0 <= r < RoomCount && !ExitOk(s, r)
    ensures forall i | 0 <= i < |s.rooms[r]| && s.rooms[r][i] != Empty ::
      i < |StepMove(s, st).next.rooms[r]| && StepMove(s, st).next.rooms[r][i] == s.rooms[r][i]
  {
    StepConservesTokens(s, st);
  }

  /** Each of the three skip tests, once it fires, rules out every move out
      of the room. */
  lemma SettledRoomIsSkipped(s: State, r: int)
    requires Shaped(s) && 0 <= r < RoomCount
    requires || FirstOccupied(s.rooms[r]) == -1
             || AllOfKindFrom(s.rooms[r], FirstOccupied(s.rooms[r]), RoomKind(r))
             || SettledAsWritten(s.rooms[r], RoomKind(r))
    ensures !ExitOk(s, r) && ExitAt(s, r) == []
  {
  }

  /** No move takes a token out of a room that one of the skip tests stops:
      every token in it stays where it is. */
  lemma NoExitFromSettledRoom(s: State, r: int, m: Move)
    requires Shaped(s) && 0 <= r < RoomCount && !ExitOk(s, r) && m in Moves(s)
    ensures Shaped(m.next)
    ensures forall i | 0 <= i < |s.rooms[r]| && s.rooms[r][i] != Empty ::
      i < |m.next.rooms[r]| && m.next.rooms[r][i] == s.rooms[r][i]
  {
    var st := MovesSound(s, m);
    StepKeepsSettledRoom(s, st, r);
    StepConservesTokens(s, st);
  }

  // ---------------------------------------------------------------------------
  // The skip tests on a room

  /** The inner test of the first skip never decides anything: a room that
      holds only empty cells and its own kind holds no cell of another kind. */
  lemma InnerSkipTestRedundant(room: seq<Cell>, target: Kind)
    ensures SettledAsWritten(room, target) <==> CanEnterRoom(room, target) && Pod(target) in room
  {
  }

  /** In a room without gaps the first skip test adds nothing to the third:
      its top token may leave exactly when the room is not empty and some
      token from the top down is of another kind. */
  lemma SkipRuleUnderStacking(s: State, r: int)
    requires Shaped(s) && 0 <= r < RoomCount && Stacked(s.rooms[r])
    ensures ExitOk(s, r) <==>
      FirstOccupied(s.rooms[r]) != -1 && !AllOfKindFrom(s.rooms[r], FirstOccupied(s.rooms[r]), RoomKind(r))
  {
    var room, target := s.rooms[r], RoomKind(r);
    var top := FirstOccupied(room);
    if SettledAsWritten(room, target) && top != -1 {
      forall i | top <= i < |room| ensures room[i] == Pod(target) {
        assert room[top] != Empty;
        if i > top {
          assert room[i] != Empty;
        }
      }
    }
  }

  /** With a gap the two rules differ: in room 0 holding A, an empty cell and
      A, the first skip test keeps the top A in place although the third
      test alone would let it out. */
  lemma GappedRoomIsSkipped()
    ensures var s := State(seq(HallLen, _ => Empty), [[Pod(A), Empty, Pod(A)], [], [], []]);
      && Shaped(s) && !Stacked(s.rooms[0])
      && FirstOccupied(s.rooms[0]) == 0 && !AllOfKindFrom(s.rooms[0], 0, A)
      && !ExitOk(s, 0) && ExitAt(s, 0) == []
  {
    var s := State(seq(HallLen, _ => Empty), [[Pod(A), Empty, Pod(A)], [], [], []]);
    var room := s.rooms[0];
    assert room[1] == Empty;
    assert SettledAsWritten(room, A) by {
      assert room[0] == Pod(A);
    }
  }

  // ---------------------------------------------------------------------------
  // Invariants of the moves

  /** A step keeps every room free of gaps. */
  lemma StepKeepsStacked(s: State, st: Step)
    requires Shaped(s) && AllStacked(s) && StepOk(s, st)
    ensures AllStacked(StepMove(s, st).next)
  {
    StepConservesTokens(s, st);
    var t := StepMove(s, st).next;
    match st
    case Enter(h) =>
      var r := TargetRoom(s.hall[h].kind);
      var room, d := s.rooms[r], DeepestEmpty(s.rooms[r]);
      assert Stacked(t.rooms[r]) by {
        forall i, j | 0 <= i < j < |room| && t.rooms[r][i] != Empty ensures t.rooms[r][j] != Empty {
          if j < d {
            assert false;
          }
        }
      }
    case Exit(r, stop) =>
      var room, top := s.rooms[r], FirstOccupied(s.rooms[r]);
      assert Stacked(t.rooms[r]) by {
        forall i, j | 0 <= i < j < |room| && t.rooms[r][i] != Empty ensures t.rooms[r][j] != Empty {
          assert room[i] != Empty;
        }
      }
  }

  /** Every generated move keeps every room free of gaps. */
  lemma MovesKeepStacked(s: State, m: Move)
    requires Shaped(s) && AllStacked(s) && m in Moves(s)
    ensures AllStacked(m.next)
  {
    var st := MovesSound(s, m);
    StepKeepsStacked(s, st);
  }

  /** No token ever stands in front of a door. */
  predicate DoorsEmpty(s: State)
    requires Shaped(s)
  {
    forall r | 0 <= r < RoomCount :: s.hall[Doors[r]] == Empty
  }

  /** A step keeps the cells in front of the doors empty. */
  lemma StepKeepsDoorsEmpty(s: State, st: Step)
    requires Shaped(s) && DoorsEmpty(s) && StepOk(s, st)
    ensures Shaped(StepMove(s, st).next) && DoorsEmpty(StepMove(s, st).next)
  {
    StepTargets(s, st);
  }

  /** Every generated move keeps the cells in front of the doors empty. */
  lemma MovesKeepDoorsEmpty(s: State, m: Move)
    requires Shaped(s) && DoorsEmpty(s) && m in Moves(s)
    ensures Shaped(m.next) && DoorsEmpty(m.next)
  {
    var st := MovesSound(s, m);
    StepKeepsDoorsEmpty(s, st);
  }

  /** The goal offers no move: every token is home and its room is settled. */
  lemma GoalHasNoMoves(depth: nat)
    ensures Moves(GoalState(depth)) == []
  {
    var g := GoalState(depth);
    if Moves(g) != [] {
      var st := MovesSound(g, Moves(g)[0]);
      match st
      case Enter(_) =>
        assert false;
      case Exit(_, _) =>
        assert false;
    }
  }
}
