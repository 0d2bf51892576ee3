/** The vocabulary the move selector of homemade.py is written against:
    moves, the board with its move stack, the python-chess rules and the
    Stockfish engine. Rules and engine are left abstract: they are values
    of function type that every strategy receives as a parameter. */
module Chess {

  /** The Python exceptions raised on the paths that are modelled. */
  datatype Error =
    | IndexError          // random.choice or [0] applied to an empty list
    | ZeroDivisionError   // a negative clock split over zero legal moves
    | TypeError           // the engine gave no best move and "BMOVE: " + None was built

  datatype Result<T> = Ok(value: T) | Err(error: Error)

  datatype Option<T> = None | Some(value: T)

  /** A move: its identity and its UCI rendering, which is what str(move) gives. */
  datatype Move = Move(id: nat, uci: string)

  datatype Color = White | Black

  /** What the bot sends back: the move and the `draw_offered` flag, which
      keeps its default False unless ComboEngine passes it on. The ponder
      move is always None and is not modelled. */
  datatype PlayResult = PlayResult(move: Move, drawOffered: bool)

  /** python-chess, as seen by the selector. A position is named by the
      board's move stack; every query is a function of that stack. */
  datatype Rules = Rules(
    legalMoves: seq<Move> -> seq<Move>,     // list(board.legal_moves), in enumeration order
    isCapture: (seq<Move>, Move) -> bool,   // board.is_capture(move), asked before the move is made
    isCheck: seq<Move> -> bool,             // board.is_check(), whether the side to move is in check
    san: (seq<Move>, Move) -> string,       // board.san(move)
    turn: seq<Move> -> Color)               // board.turn

  /** Stockfish, as seen by the selector. */
  datatype Engine = Engine(
    evaluate: (seq<Move>, real) -> int,     // analyse(board, time)["score"].relative, mover-relative
    bestMove: seq<Move> -> Option<Move>)    // set_fen_position + get_best_move (None when there is none)

  /** The board the selector pushes candidate moves onto and pops them off again. */
  class Board {
    var stack: seq<Move>

    constructor (history: seq<Move>)
      ensures stack == history
    {
      stack := history;
    }

    /** board.push(move) */
    method Push(m: Move)
      modifies this
      ensures stack == old(stack) + [m]
    {
      stack := stack + [m];
    }

    /** board.pop(): undoes the last move, or raises IndexError on an empty stack. */
    method Pop() returns (r: Result<Move>)
      modifies this
      ensures old(stack) == [] ==> r == Err(IndexError) && stack == []
      ensures old(stack) != [] ==>
        r == Ok(old(stack)[|old(stack)| - 1]) && stack == old(stack)[..|old(stack)| - 1]
    {
      if stack == [] {
        r := Err(IndexError);
      } else {
        r := Ok(stack[|stack| - 1]);
        stack := stack[..|stack| - 1];
      }
    }
  }
}
