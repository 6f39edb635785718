/** The evaluator's rule checks on the combos the constrained generators
    build: every move is valid, no only-first move appears after the
    opening, and a trick that hands on an exit is linked to the next. The
    sets the rules use are parameters; the facts relating them are
    hypotheses. */
module GeneratedChecks {
  import opened Wrappers
  import opened Wzrdbrain
  import opened GenerateData
  import Evaluate
  import opened RoundTrip

  /** Every move of a combo of initialised tricks is valid. */
  lemma GeneratedMovesValid(fields: seq<Fields>)
    requires AllResolved(fields)
    ensures Evaluate.InvalidMoves(ParsedCombo(fields)) == []
  {
    var ts := ParsedCombo(fields);
    forall j | 0 <= j < |ts|
      ensures Evaluate.MoveOf(ts[j]) in MOVES
    {
      assert Resolved(fields[j]);
      assert Evaluate.MoveOf(ts[j]) == fields[j].move.value;
    }
    Evaluate.InvalidMovesEmpty(ts);
  }

  /** A start combo breaks the only-first rule nowhere when no subsequent
      move is only-first. */
  lemma StartOnlyFirst(move: string, n: int, subsequent: set<string>, onlyFirst: set<string>,
                       nextMoves: seq<string>, draws: seq<Draws>)
    requires move in MOVES && SubsetOfMoves(subsequent) && EnoughDraws(n, subsequent, nextMoves, draws)
    requires subsequent != {} || n < 2
    requires subsequent !! onlyFirst
    ensures var ts := ParsedCombo(StartCombo(move, n, nextMoves, draws));
            Evaluate.OnlyFirstViolations(ts, onlyFirst, |ts|) == 0
  {
    DrawnMovesValid(n, subsequent, nextMoves, draws);
    var c := StartCombo(move, n, nextMoves, draws);
    var ts := ParsedCombo(c);
    forall j | 1 <= j < |ts|
      ensures Evaluate.MoveOf(ts[j]) !in onlyFirst
    {
      assert c[j] == Follow(c[j - 1], nextMoves[j - 1], draws[j]);
      assert Evaluate.MoveOf(ts[j]) == nextMoves[j - 1];
    }
    Evaluate.OnlyFirstAllCorrect(ts, onlyFirst, |ts|);
  }

  /** An include combo breaks the only-first rule nowhere when the
      requested move and the subsequent moves are not only-first. */
  lemma IncludeOnlyFirst(move: string, n: int, target: int, firstMove: string, subsequent: set<string>,
                         onlyFirst: set<string>, nextMoves: seq<string>, draws: seq<Draws>)
    requires move in MOVES && firstMove in MOVES && 1 <= target < n
    requires SubsetOfMoves(subsequent) && IncludeDraws(n, target, subsequent, nextMoves, draws)
    requires subsequent != {} || n == 2
    requires subsequent !! onlyFirst && move !in onlyFirst
    ensures var ts := ParsedCombo(IncludeCombo(move, n, target, firstMove, nextMoves, draws));
            Evaluate.OnlyFirstViolations(ts, onlyFirst, |ts|) == 0
  {
    IncludeDrawnValid(n, target, subsequent, nextMoves, draws);
    var c := IncludeCombo(move, n, target, firstMove, nextMoves, draws);
    var ts := ParsedCombo(c);
    forall j | 1 <= j < |ts|
      ensures Evaluate.MoveOf(ts[j]) !in onlyFirst
    {
      if j != target {
        assert c[j] == Follow(c[j - 1], nextMoves[j - 1], draws[j]);
      }
      assert ts[j] == Expected(c[j]);
    }
    Evaluate.OnlyFirstAllCorrect(ts, onlyFirst, |ts|);
  }

  /** A present exit is the trick's direction, flipped for gazelle and
      lion. */
  predicate ExitShape(f: Fields) {
    Resolved(f) && ExitOk(f) &&
    (f.exitFromTrick.Some? ==>
       f.exitFromTrick.value == if f.move.value in FLIPPING_MOVES then Opposite(f.direction.value) else f.direction.value)
  }

  lemma OpeningShape(move: string, d: Draws)
    requires move in MOVES && ValidDraws(d)
    ensures ExitShape(Opening(move, d))
  {
  }

  lemma FollowShape(prev: Fields, m: string, d: Draws)
    requires ExitOk(prev) && m in MOVES && ValidDraws(d)
    ensures ExitShape(Follow(prev, m, d))
  {
  }

  /** When a trick has an exit and the rotating set agrees with the
      flipping moves on its move, the trick built after it is linked to
      it. */
  lemma LinkedAfterExit(prev: Fields, m: string, d: Draws, rotating: set<string>)
    requires ExitShape(prev) && prev.exitFromTrick.Some?
    requires prev.move.value in rotating <==> prev.move.value in FLIPPING_MOVES
    requires m in MOVES && ValidDraws(d)
    ensures Evaluate.Linked(Expected(prev), Expected(Follow(prev, m, d)), rotating)
  {
  }

  /** A trick built with a continued direction and a move that does not
      flip has no exit, so the trick after it takes a fresh random
      direction, and the two are linked only when that draw happens to
      repeat the direction carried in. */
  lemma ContinuedTrickDropsExit(prev: Fields, m: string, d: Draws, m2: string, d2: Draws,
                                rotating: set<string>)
    requires ExitOk(prev) && prev.exitFromTrick.Some?
    requires m in MOVES && m !in FLIPPING_MOVES && m !in rotating
    requires m2 in MOVES && ValidDraws(d) && ValidDraws(d2)
    ensures Follow(prev, m, d).exitFromTrick.None?
    ensures Follow(Follow(prev, m, d), m2, d2).direction == Some(d2.direction)
    ensures (Evaluate.Linked(Expected(Follow(prev, m, d)), Expected(Follow(Follow(prev, m, d), m2, d2)), rotating)
             <==> d2.direction == prev.exitFromTrick.value)
  {
  }

  /** In a start combo, every trick with an exit is linked to the next
      one, given rotating moves that agree with the flipping moves. */
  lemma StartComboLinked(move: string, n: int, nextMoves: seq<string>, draws: seq<Draws>,
                         rotating: set<string>, i: nat)
    requires move in MOVES
    requires |nextMoves| >= ComboSize(n) - 1 && ValidPrefix(nextMoves, ComboSize(n) - 1)
    requires |draws| >= ComboSize(n) && (forall j | 0 <= j < |draws| :: ValidDraws(draws[j]))
    requires i + 1 < ComboSize(n)
    requires StartCombo(move, n, nextMoves, draws)[i].exitFromTrick.Some?
    requires forall m | m in MOVES :: m in rotating <==> m in FLIPPING_MOVES
    ensures var c := StartCombo(move, n, nextMoves, draws);
            Evaluate.Linked(Expected(c[i]), Expected(c[i + 1]), rotating)
  {
    var c := StartCombo(move, n, nextMoves, draws);
    if i == 0 {
      OpeningShape(move, draws[0]);
    } else {
      assert c[i] == Follow(c[i - 1], nextMoves[i - 1], draws[i]);
      FollowShape(c[i - 1], nextMoves[i - 1], draws[i]);
    }
    assert c[i + 1] == Follow(c[i], nextMoves[i], draws[i + 1]);
    LinkedAfterExit(c[i], nextMoves[i], draws[i + 1], rotating);
  }

  /** In an include combo, every trick with an exit is linked to the next
      one, given rotating moves that agree with the flipping moves. */
  lemma IncludeComboLinked(move: string, n: int, target: int, firstMove: string,
                           nextMoves: seq<string>, draws: seq<Draws>, rotating: set<string>, i: nat)
    requires move in MOVES && firstMove in MOVES && 1 <= target < n
    requires |nextMoves| >= n - 1 && ValidExceptAt(nextMoves, n - 1, target)
    requires |draws| >= n && (forall j | 0 <= j < |draws| :: ValidDraws(draws[j]))
    requires i + 1 < n
    requires IncludeCombo(move, n, target, firstMove, nextMoves, draws)[i].exitFromTrick.Some?
    requires forall m | m in MOVES :: m in rotating <==> m in FLIPPING_MOVES
    ensures var c := IncludeCombo(move, n, target, firstMove, nextMoves, draws);
            Evaluate.Linked(Expected(c[i]), Expected(c[i + 1]), rotating)
  {
    var c := IncludeCombo(move, n, target, firstMove, nextMoves, draws);
    IncludeExitShape(move, n, target, firstMove, nextMoves, draws, i);
    var m := IncludeNextMove(move, n, target, firstMove, nextMoves, draws, i);
    LinkedAfterExit(c[i], m, draws[i + 1], rotating);
  }

  /** Every trick of an include combo has an exit of the usual shape. */
  lemma IncludeExitShape(move: string, n: int, target: int, firstMove: string,
                         nextMoves: seq<string>, draws: seq<Draws>, i: nat)
    requires move in MOVES && firstMove in MOVES && 1 <= target < n
    requires |nextMoves| >= n - 1 && ValidExceptAt(nextMoves, n - 1, target)
    requires |draws| >= n && (forall j | 0 <= j < |draws| :: ValidDraws(draws[j]))
    requires i < n
    ensures ExitShape(IncludeCombo(move, n, target, firstMove, nextMoves, draws)[i])
  {
    var c := IncludeCombo(move, n, target, firstMove, nextMoves, draws);
    if i == 0 {
      OpeningShape(firstMove, draws[0]);
    } else if i == target {
      FollowShape(c[i - 1], move, draws[i]);
    } else {
      assert c[i] == Follow(c[i - 1], nextMoves[i - 1], draws[i]);
      FollowShape(c[i - 1], nextMoves[i - 1], draws[i]);
    }
  }

  /** The move trick `i + 1` of an include combo is built from. */
  lemma IncludeNextMove(move: string, n: int, target: int, firstMove: string,
                        nextMoves: seq<string>, draws: seq<Draws>, i: nat) returns (m: string)
    requires move in MOVES && firstMove in MOVES && 1 <= target < n
    requires |nextMoves| >= n - 1 && ValidExceptAt(nextMoves, n - 1, target)
    requires |draws| >= n && (forall j | 0 <= j < |draws| :: ValidDraws(draws[j]))
    requires i + 1 < n
    ensures m in MOVES
    ensures var c := IncludeCombo(move, n, target, firstMove, nextMoves, draws);
            c[i + 1] == Follow(c[i], m, draws[i + 1])
  {
    var c := IncludeCombo(move, n, target, firstMove, nextMoves, draws);
    if i + 1 == target {
      m := move;
    } else {
      m := nextMoves[i];
      assert c[i + 1] == Follow(c[i], m, draws[i + 1]);
    }
  }
}
