/** The homemade engines: TestFish (a weighted draw among Best, Random,
    Capture and Worst), WorstFish, FirstMove, Alphabetical and ComboEngine. */
module Homemade {
  import opened Chess
  import opened Lists
  import opened Sorting
  import opened WorstStrategy

  /** The strategies TestFish draws from. */
  datatype MoveType = Best | Random | Worst | Capture

  /** The list TestFish draws the strategy from, one entry per draw. */
  const MOVE_TYPES: seq<MoveType> := [Best, Best, Best, Random, Worst, Capture]

  /** random.choice over MOVE_TYPES, with the random draw given as `pick`. */
  function DrawMoveType(pick: nat): MoveType
  {
    MOVE_TYPES[pick % |MOVE_TYPES|]
  }

  /** The draw is random.choice over MOVE_TYPES, so what Lists states of
      Choose holds of it. */
  lemma DrawMoveTypeIsChoice(pick: nat)
    ensures Choose(MOVE_TYPES, pick) == Ok(DrawMoveType(pick))
  {
  }

  /** The strategies drawn for `count` consecutive draws from `start`. */
  function DrawsFrom(start: nat, count: nat): (ks: seq<MoveType>)
    ensures |ks| == count
  {
    seq(count, i requires 0 <= i < count => DrawMoveType(start + i))
  }

  /** Entry `i` of the window is the draw for pick `start + i`. */
  lemma DrawsFromAt(start: nat, count: nat)
    ensures forall i :: 0 <= i < count ==> DrawsFrom(start, count)[i] == DrawMoveType(start + i)
  {
  }

  /** The draw repeats every six picks. */
  lemma DrawMoveTypePeriodic(p: nat)
    ensures DrawMoveType(p + 6) == DrawMoveType(p)
  {
    assert (p + 6) % 6 == p % 6;
  }

  /** Moving the six-draw window on by one rotates it by one. */
  lemma DrawsShift(start: nat)
    ensures var d := DrawsFrom(start, 6);
      DrawsFrom(start + 1, 6) == d[1..] + [d[0]]
  {
    var d, e := DrawsFrom(start, 6), DrawsFrom(start + 1, 6);
    DrawsFromAt(start, 6);
    DrawsFromAt(start + 1, 6);
    DrawMoveTypePeriodic(start);
    assert forall i :: 0 <= i < 6 ==> e[i] == (d[1..] + [d[0]])[i];
  }

  /** The first six draws run through the list in order. */
  lemma FirstSixDraws()
    ensures DrawsFrom(0, 6) == MOVE_TYPES
  {
    var e := DrawsFrom(0, 6);
    DrawsFromAt(0, 6);
    assert e[0] == MOVE_TYPES[0] && e[1] == MOVE_TYPES[1] && e[2] == MOVE_TYPES[2];
    assert e[3] == MOVE_TYPES[3] && e[4] == MOVE_TYPES[4] && e[5] == MOVE_TYPES[5];
  }

  /** A rotation by one keeps the elements. */
  lemma RotationKeepsElements(d: seq<MoveType>, e: seq<MoveType>)
    requires d != [] && e == d[1..] + [d[0]]
    ensures multiset(e) == multiset(d)
  {
    assert d == [d[0]] + d[1..];
  }

  /** Over any six consecutive draws, each strategy comes up exactly as
      often as it stands in the list: Best three times, the others once. */
  lemma {:induction false} DrawsOverSixPicks(start: nat)
    ensures multiset(DrawsFrom(start, 6)) == multiset(MOVE_TYPES)
  {
    if start == 0 {
      FirstSixDraws();
    } else {
      DrawsOverSixPicks(start - 1);
      DrawsShift(start - 1);
      RotationKeepsElements(DrawsFrom(start - 1, 6), DrawsFrom(start, 6));
    }
  }

  /** The list holds Best three times among six entries and each other strategy once. */
  lemma MoveTypeWeights()
    ensures |MOVE_TYPES| == 6
    ensures multiset(MOVE_TYPES)[Best] == 3
    ensures multiset(MOVE_TYPES)[Random] == 1
    ensures multiset(MOVE_TYPES)[Worst] == 1
    ensures multiset(MOVE_TYPES)[Capture] == 1
  {
  }

  /** Every strategy is drawn for some draw. */
  lemma DrawMoveTypeReachesEvery(k: MoveType)
    ensures exists pick: nat :: DrawMoveType(pick) == k
  {
    match k
    case Best => assert DrawMoveType(0) == Best;
    case Random => assert DrawMoveType(3) == Random;
    case Worst => assert DrawMoveType(4) == Worst;
    case Capture => assert DrawMoveType(5) == Capture;
  }

  /** The move as TestFish and WorstFish return it: PlayResult(move, None),
      with no ponder move and `draw_offered` at its default False. */
  function Play(r: Result<Move>): Result<PlayResult>
  {
    match r
    case Ok(m) => Ok(PlayResult(m, false))
    case Err(e) => Err(e)
  }

  /** The Best branch: Stockfish's best move for the position; when it has
      none, printing "BMOVE: " + None raises TypeError. */
  function BestMove(engine: Engine, position: seq<Move>): Result<Move>
  {
    match engine.bestMove(position)
    case Some(m) => Ok(m)
    case None => Err(TypeError)
  }

  /** `board.is_capture` on the position `position`, as a predicate on moves. */
  function CaptureTest(rules: Rules, position: seq<Move>): Move -> bool
  {
    m => rules.isCapture(position, m)
  }

  /** The Capture branch: a random capture if there is one, otherwise Stockfish's best move. */
  function CaptureChoice(rules: Rules, engine: Engine, position: seq<Move>, pick: nat): (r: Result<Move>)
    ensures var legal := rules.legalMoves(position);
      (exists m :: m in legal && rules.isCapture(position, m)) ==>
        r.Ok? && r.value in legal && rules.isCapture(position, r.value)
    ensures var legal := rules.legalMoves(position);
      (forall m :: m in legal ==> !rules.isCapture(position, m)) ==> r == BestMove(engine, position)
    ensures var legal := rules.legalMoves(position);
      (forall m :: m in legal ==> !rules.isCapture(position, m)) ==>
        && (r.Ok? <==> engine.bestMove(position).Some?)
        && (r.Ok? ==> engine.bestMove(position) == Some(r.value))
        && (r.Err? ==> r.error == TypeError)
  {
    var captures := Filter(CaptureTest(rules, position), rules.legalMoves(position));
    if captures != [] then Choose(captures, pick) else BestMove(engine, position)
  }

  /** The capture loop of the Capture branch. */
  method CaptureSearch(board: Board, rules: Rules, engine: Engine, pick: nat) returns (r: Result<Move>)
    ensures r == CaptureChoice(rules, engine, board.stack, pick)
  {
    var captures := [];
    var legalMoves := rules.legalMoves(board.stack);
    var i := 0;
    while i < |legalMoves|
      invariant 0 <= i <= |legalMoves|
      invariant captures == Filter(CaptureTest(rules, board.stack), legalMoves[..i])
    {
      var move := legalMoves[i];
      assert legalMoves[..i + 1][..i] == legalMoves[..i];
      if rules.isCapture(board.stack, move) {
        captures := captures + [move];
      }
      i := i + 1;
    }
    assert legalMoves[..i] == legalMoves;
    if captures != [] {
      return Choose(captures, pick);
    }
    r := BestMove(engine, board.stack);
  }

  /** TestFish.search: draw a strategy with `typePick`, then play it, with
      `movePick` as the draw inside the strategy. The board ends as it started. */
  method TestFishSearch(board: Board, rules: Rules, engine: Engine, timeLeft: TimeLeft, typePick: nat, movePick: nat)
    returns (r: Result<PlayResult>)
    modifies board
    ensures board.stack == old(board.stack)
    ensures var position := old(board.stack);
      match DrawMoveType(typePick)
      case Best => r == Play(BestMove(engine, position))
      case Random => r == Play(Choose(rules.legalMoves(position), movePick))
      case Capture => r == Play(CaptureChoice(rules, engine, position, movePick))
      case Worst => r == Play(WorstChoice(rules, engine, position, timeLeft, movePick))
  {
    var moveType := DrawMoveType(typePick);
    var move: Result<Move>;
    match moveType {
      case Best =>
        move := BestMove(engine, board.stack);
      case Random =>
        move := Choose(rules.legalMoves(board.stack), movePick);
      case Capture =>
        move := CaptureSearch(board, rules, engine, movePick);
      case Worst =>
        move := WorstSearch(board, rules, engine, timeLeft, movePick);
    }
    r := Play(move);
  }

  /** WorstFish.search: the Worst strategy on its own. */
  method WorstFishSearch(board: Board, rules: Rules, engine: Engine, timeLeft: TimeLeft, pick: nat)
    returns (r: Result<PlayResult>)
    modifies board
    ensures board.stack == old(board.stack)
    ensures r == Play(WorstChoice(rules, engine, old(board.stack), timeLeft, pick))
  {
    var move := WorstSearch(board, rules, engine, timeLeft, pick);
    r := Play(move);
  }

  /** Copies the legal moves into a fresh list, as list(board.legal_moves) does. */
  method ListOf(ms: seq<Move>) returns (a: array<Move>)
    ensures fresh(a) && a[..] == ms
  {
    a := new Move[|ms|](i requires 0 <= i < |ms| => ms[i]);
  }

  /** Sorts a fresh copy of the legal moves by `k` and plays its first element. */
  method FirstByKey(legal: seq<Move>, k: Key) returns (r: Result<PlayResult>)
    ensures r.Ok? <==> legal != []
    ensures r.Err? ==> r.error == IndexError
    ensures r.Ok? ==> r.value == PlayResult(legal[FirstMinIndex(legal, k)], false)
  {
    var moves := ListOf(legal);
    SortByKey(moves, k);
    if moves.Length == 0 {
      return Err(IndexError);
    }
    r := Ok(PlayResult(moves[0], false));
  }

  /** FirstMove.search: the legal move whose UCI text sorts first. */
  method FirstMoveSearch(board: Board, rules: Rules) returns (r: Result<PlayResult>)
    ensures var legal := rules.legalMoves(board.stack);
      && (r.Ok? <==> legal != [])
      && (r.Err? ==> r.error == IndexError)
      && (r.Ok? ==> r.value.move in legal && !r.value.drawOffered)
      && (r.Ok? ==> forall m :: m in legal ==> StrLe(r.value.move.uci, m.uci))
      && (r.Ok? ==> r.value.move == legal[FirstMinIndex(legal, Uci)])
  {
    r := FirstByKey(rules.legalMoves(board.stack), Uci);
  }

  /** Alphabetical.search: the legal move whose SAN text sorts first. */
  method AlphabeticalSearch(board: Board, rules: Rules) returns (r: Result<PlayResult>)
    ensures var legal := rules.legalMoves(board.stack);
      && (r.Ok? <==> legal != [])
      && (r.Err? ==> r.error == IndexError)
      && (r.Ok? ==> r.value.move in legal && !r.value.drawOffered)
      && (r.Ok? ==> forall m :: m in legal ==> StrLe(rules.san(board.stack, r.value.move), rules.san(board.stack, m)))
      && (r.Ok? ==> r.value.move == legal[FirstMinIndex(legal, San(rules, board.stack))])
  {
    var legal := rules.legalMoves(board.stack);
    r := FirstByKey(legal, San(rules, board.stack));
    if r.Ok? {
      var k := San(rules, board.stack);
      forall m | m in legal
        ensures StrLe(rules.san(board.stack, r.value.move), rules.san(board.stack, m))
      {
        var j :| 0 <= j < |legal| && legal[j] == m;
        assert KeyOf(k, m) == rules.san(board.stack, m);
      }
    }
  }

  /** A field of chess.engine.Limit: an int, a float, or None. */
  datatype Number = IntValue(i: int) | FloatValue(f: real) | NoValue

  datatype Limit = Limit(time: Number, whiteClock: Number, whiteInc: Number, blackClock: Number, blackInc: Number)

  /** `x if isinstance(x, int) else 0` */
  function IntOrZero(x: Number): int
  {
    if x.IntValue? then x.i else 0
  }

  /** ComboEngine's (my_time, my_inc). */
  function MoverClock(limit: Limit, turn: Color): (int, int)
  {
    if limit.time.IntValue? then (limit.time.i, 0)
    else if turn == White then (IntOrZero(limit.whiteClock), IntOrZero(limit.whiteInc))
    else (IntOrZero(limit.blackClock), IntOrZero(limit.blackInc))
  }

  /** Only the mover's own clock and increment, and a fixed time, matter. */
  lemma MoverClockIgnoresOpponent(a: Limit, b: Limit, turn: Color)
    requires a.time == b.time
    requires turn == White ==> a.whiteClock == b.whiteClock && a.whiteInc == b.whiteInc
    requires turn == Black ==> a.blackClock == b.blackClock && a.blackInc == b.blackInc
    ensures MoverClock(a, turn) == MoverClock(b, turn)
  {
  }

  /** An int fixed time decides alone: the side to move, every clock and
      every increment are irrelevant, and the increment counts as 0. */
  lemma MoverClockFixedTime(a: Limit, b: Limit, turnA: Color, turnB: Color)
    requires a.time.IntValue? && a.time == b.time
    ensures MoverClock(a, turnA) == MoverClock(b, turnB)
    ensures MoverClock(a, turnA).1 == 0
  {
  }

  /** Without an int fixed time, an int field of the mover is read as it is,
      and any other value of it (a float, or None) counts as 0, whatever
      the other fields hold. */
  lemma MoverClockReadsOwnFields(limit: Limit, turn: Color)
    requires !limit.time.IntValue?
    ensures var own := if turn == White then limit.whiteClock else limit.blackClock;
      MoverClock(limit, turn).0 == (if own.IntValue? then own.i else 0)
    ensures var own := if turn == White then limit.whiteInc else limit.blackInc;
      MoverClock(limit, turn).1 == (if own.IntValue? then own.i else 0)
  {
  }

  /** With an int fixed time `t`, ComboEngine plays randomly exactly when t > 600. */
  lemma FixedTimeRule(limit: Limit, turn: Color)
    requires limit.time.IntValue?
    ensures var clock := MoverClock(limit, turn);
      PlaysRandom(clock.0, clock.1) <==> limit.time.i > 600
  {
  }

  /** `my_time / 60 + my_inc > 10`, on exact rationals. */
  function PlaysRandom(myTime: int, myInc: int): (fast: bool)
    ensures fast <==> myTime + 60 * myInc > 600
  {
    (myTime as real) / 60.0 + (myInc as real) > 10.0
  }

  /** ComboEngine.search. `rootMoves` is null when root_moves is not a
      list; when it is one, the UCI sort reorders the caller's list in place. */
  method ComboSearch(board: Board, rules: Rules, limit: Limit, drawOffered: bool, rootMoves: array?<Move>, pick: nat)
    returns (r: Result<PlayResult>)
    modifies rootMoves
    ensures var clock := MoverClock(limit, rules.turn(board.stack));
      var universe := if rootMoves != null then old(rootMoves[..]) else rules.legalMoves(board.stack);
      && (r.Ok? <==> universe != [])
      && (r.Err? ==> r.error == IndexError)
      && (r.Ok? ==> r.value.move in universe && r.value.drawOffered == drawOffered)
      && (PlaysRandom(clock.0, clock.1) && universe != [] ==> r == Ok(PlayResult(Choose(universe, pick).value, drawOffered)))
      && (!PlaysRandom(clock.0, clock.1) && universe != [] ==>
            r.value.move == universe[FirstMinIndex(universe, Uci)]
            && forall m :: m in universe ==> StrLe(r.value.move.uci, m.uci))
    ensures rootMoves != null ==>
      if PlaysRandom(MoverClock(limit, rules.turn(board.stack)).0, MoverClock(limit, rules.turn(board.stack)).1)
      then rootMoves[..] == old(rootMoves[..])
      else SortedBy(rootMoves[..], Uci) && multiset(rootMoves[..]) == multiset(old(rootMoves[..]))
  {
    var clock := MoverClock(limit, rules.turn(board.stack));
    var myTime, myInc := clock.0, clock.1;
    var possibleMoves: array<Move>;
    if rootMoves != null {
      possibleMoves := rootMoves;
    } else {
      possibleMoves := ListOf(rules.legalMoves(board.stack));
    }
    if PlaysRandom(myTime, myInc) {
      var move := Choose(possibleMoves[..], pick);
      if move.Err? {
        return Err(move.error);
      }
      r := Ok(PlayResult(move.value, drawOffered));
    } else {
      SortByKey(possibleMoves, Uci);
      if possibleMoves.Length == 0 {
        return Err(IndexError);
      }
      assert possibleMoves[0] in multiset(possibleMoves[..]);
      r := Ok(PlayResult(possibleMoves[0], drawOffered));
    }
  }
}
