# Move selection of the BizarrioFish homemade engines, in Dafny

This project models the move-selection logic of `homemade.py`, the homemade
engines of a lichess bot:

- **TestFish** draws a strategy from the six-entry list
  `Best, Best, Best, Random, Worst, Capture`, then plays it.
- **Best** plays Stockfish's best move.
- **Random** plays any legal move.
- **Capture** plays any legal capture. When there is none it plays Stockfish's best move.
- **Worst** (which is also all of **WorstFish**) works in three steps:
  - it gives the engine a time slice per legal move, and with a clock keeps the whole scan within a tenth of the remaining clock;
  - it pushes each legal move in turn, tags it as capture (asked before the push) and check (asked after it), evaluates the position from the opponent's side, and pops it again;
  - it keeps the moves with the highest evaluation, and plays a quiet one, else a checking one, else a capture.
- **FirstMove** and **Alphabetical** sort the legal moves by UCI or SAN text and play the first.
- **ComboEngine** reads the mover's clock and increment. It plays a random move when `my_time / 60 + my_inc > 10`, and otherwise the move whose UCI text sorts first. It uses `root_moves` when that is a list, and passes `draw_offered` through.

Stockfish and python-chess are left abstract:

- `Chess.Rules` holds the legal-move generator, `is_capture`, `is_check`, SAN and side to move. Each is a function of the board's move stack.
- `Chess.Engine` holds the evaluation and the best move.
- `Chess.Board` is a class whose `stack` field `Push` and `Pop` update in place.
- Every `random.choice` becomes a `pick: nat` parameter. The element chosen is `s[pick % |s|]`, and a lemma shows that every element is the result of some draw.
- Python's exceptions become `Chess.Error` values in a `Result`:
  - `IndexError` comes from `random.choice` or `[0]` on an empty list;
  - `ZeroDivisionError` comes from the Worst strategy with no legal moves and a negative clock;
  - `TypeError` comes from `"BMOVE: " + None` when the engine has no best move.

Modules:

- `chess.dfy` holds the vocabulary.
- `lists.dfy` holds the order-preserving filter, `random.choice` and Python's string order.
- `sorting.dfy` holds the in-place sort by key.
- `worst.dfy` (module `WorstStrategy`) holds the Worst strategy.
- `homemade.dfy` holds the engines.

Points of the code that the model keeps as written:

- `is_capture` is asked of the board before the move is pushed, and `is_check` after it.
- With a clock at or below zero and at least one legal move, the time slice is at or below zero, and it is still passed to the engine. `SearchTime` states exactly when each case occurs.
- With no legal move the Worst strategy raises `IndexError`, or `ZeroDivisionError` when the clock is negative.
- Only ComboEngine reads `root_moves`.

## Model

| member | source | states |
|---|---|---|
| Chess.Board.Push | homemade.py:167 | the move stack grows by exactly the pushed move |
| Chess.Board.Pop | homemade.py:175 | the last move is removed and returned; an empty stack raises IndexError and stays empty |
| Lists.Choose | homemade.py:143 | random.choice: fails with IndexError exactly on an empty list, otherwise returns a member |
| Lists.ChooseReachesEvery | homemade.py:143 | every member of the list is the outcome of some draw |
| Lists.StrLess | homemade.py:71 | Python's `<` on str, which every sort here orders by; StrLessIrreflexive, StrLessTransitive, StrLessAsymmetric and StrLessTotal show it is a strict total order |
| Lists.StrLessIrreflexive | homemade.py:71 | no string sorts before itself |
| Lists.StrLessTransitive | homemade.py:71 | sorting before is transitive |
| Lists.StrLessAsymmetric | homemade.py:71 | two strings never sort before each other |
| Lists.StrLessTotal | homemade.py:71 | of two different strings, one sorts before the other |
| Lists.StrLessLe | homemade.py:71 | a strict step followed by a non-strict one is strict |
| Lists.StrLeTransitive | homemade.py:71 | `<=` on str is transitive |
| Lists.Filter | homemade.py:176-185 | the kept elements are exactly the members that satisfy the predicate, and there are no more of them than inputs |
| Lists.FilterAppend | homemade.py:179-185 | filtering keeps the input order: the filter of a concatenation is the concatenation of the filters |
| Sorting.KeyOf | homemade.py:61-71 | the two sort keys: `board.san` (line 61) and `str`, the UCI text (lines 71 and 113); FirstMinIndex, SortByKey and the search methods are stated on it |
| Sorting.FirstMinIndex | homemade.py:70-75 | the index of the element a stable sort puts first: its key is minimal and strictly below every key before it |
| Sorting.FirstMinIndexUnique | homemade.py:70-75 | those two properties single out one index |
| Sorting.MinIndexFrom | homemade.py:71 | the first index of a minimal key in a suffix of the list |
| Sorting.SortByKey | homemade.py:71 | sorting in place: the list ends in key order, is a permutation of the original, and starts with the original's first key-minimal element |
| WorstStrategy.SearchTime | homemade.py:158-162 | the slice never exceeds 0.1 s; with an engine Limit it is 0.1 s, and with a clock it is exactly 0.1 s when n · 0.1 s fits within a tenth of the clock; with a clock and n ≥ 1 moves, n · slice ≤ clock/10 (in seconds), with equality exactly when n · 0.1 s would reach that cap, and the slice is positive exactly when the clock is; with no moves it raises ZeroDivisionError exactly when the clock is negative |
| WorstStrategy.Score | homemade.py:166-169 | one candidate: the capture tag is read on the position before the move, the check tag and the evaluation on the position after it; Scan's contract is stated on it |
| WorstStrategy.MaxEvaluation | homemade.py:170-172 | the running worst evaluation is an upper bound of every candidate's evaluation and is attained by one of them |
| WorstStrategy.Ties | homemade.py:170-174 | the kept moves are exactly the tags of the candidates evaluated at the given value |
| WorstStrategy.TiesAppend | homemade.py:165-174 | the tied moves keep the enumeration order |
| WorstStrategy.TiesAboveMax | homemade.py:170-172 | no candidate is kept at a value above every evaluation, so a strictly better value starts a fresh list |
| WorstStrategy.TiesAtMaxNonEmpty | homemade.py:163-175 | with at least one legal move the tied list is never empty |
| WorstStrategy.ScanStep | homemade.py:169-174 | one loop turn: a higher evaluation replaces the tied list by the new move, an equal one appends it, a lower one changes nothing |
| WorstStrategy.Scan | homemade.py:165-175 | the board ends as it started; the result is the maximum evaluation of the starting position plus each candidate, and the tied moves in enumeration order, each tagged capture before the push and check after it |
| WorstStrategy.Partition | homemade.py:176-185 | the three buckets are the order-preserving filters of the tied moves for capture, non-capture check, and neither |
| WorstStrategy.BucketsPartition | homemade.py:179-185 | each tied move lands in exactly one bucket, a capturing check among the captures, and the bucket lengths add up to the list's length |
| WorstStrategy.PickWorst | homemade.py:186-191 | a quiet move if there is one, else a check if there is one, else random.choice of the captures |
| WorstStrategy.ChooseWorst | homemade.py:170-191 | the tie-keeping and the pick by kind on the scored candidates; specified by ChooseWorstSound, ChooseWorstReachesEvery and ChooseWorstQuietWins |
| WorstStrategy.ChooseWorstSound | homemade.py:170-191 | on the scored candidates: IndexError exactly when there is none; otherwise the choice is a candidate with the highest evaluation, of a kind (quiet, check, capture) preferred to every other candidate with that evaluation |
| WorstStrategy.ChooseWorstReachesEvery | homemade.py:186-191 | every candidate with the highest evaluation and of the most preferred kind among those is chosen for some draw |
| WorstStrategy.ChooseWorstQuietWins | homemade.py:176-191 | when all candidates evaluate the same and only one is quiet, that one is chosen for every draw |
| WorstStrategy.WorstChoice | homemade.py:156-191 | the Worst strategy as a function of the position, clock and draw; specified by WorstChoiceSound, WorstChoiceReachesEvery and QuietMoveWinsTie, and computed by WorstSearch |
| WorstStrategy.WorstChoiceSound | homemade.py:156-191 | the Worst strategy fails exactly when there is no legal move (with the right exception); otherwise it plays a legal move whose evaluation is maximal and whose kind (quiet, check, capture) is the most preferred among the moves tied with it |
| WorstStrategy.WorstChoiceReachesEvery | homemade.py:186-191 | every tied move of the most preferred kind is played for some draw |
| WorstStrategy.QuietMoveWinsTie | homemade.py:176-191 | when all moves evaluate the same and exactly one is quiet, that move is played for every draw |
| WorstStrategy.WorstSearch | homemade.py:156-191 | the imperative Worst strategy leaves the board unchanged and plays what WorstChoice describes |
| Homemade.Play | homemade.py:140-155 | `PlayResult(move, None)`: the chosen move with no ponder move (the ponder move is not modelled), `draw_offered` at its default False, and an exception passed on unchanged |
| Homemade.DrawMoveType | homemade.py:127 | the drawn strategy; DrawMoveTypeIsChoice, DrawMoveTypeReachesEvery and DrawsOverSixPicks specify it |
| Homemade.DrawMoveTypeIsChoice | homemade.py:127 | the drawn strategy is what random.choice over the six-entry list gives for that draw |
| Homemade.DrawsFrom | homemade.py:127 | the strategies for `count` consecutive draws; DrawsFromAt states what each entry is |
| Homemade.DrawsFromAt | homemade.py:127 | entry i of the window from `start` is the strategy drawn for pick start + i |
| Homemade.DrawMoveTypePeriodic | homemade.py:127 | the draw depends only on its position in the six-entry list |
| Homemade.DrawsOverSixPicks | homemade.py:127 | over any six consecutive draws, each strategy comes up as often as it stands in the list: Best three times, the others once |
| Homemade.MoveTypeWeights | homemade.py:127 | the list has six entries: Best three times, Random, Worst and Capture once each |
| Homemade.DrawMoveTypeReachesEvery | homemade.py:127 | every strategy is drawn for some draw |
| Homemade.BestMove | homemade.py:135-140 | the Best branch: the engine's best move, and TypeError when it has none; CaptureChoice and TestFishSearch state this in their contracts |
| Homemade.CaptureChoice | homemade.py:144-155 | if some legal move captures, the result is a legal capture; if none does, the result is the Best strategy's: the engine's best move, and TypeError exactly when the engine has none |
| Homemade.CaptureSearch | homemade.py:144-155 | the capture loop computes CaptureChoice; the list it builds is the order-preserving Filter of the legal moves by `is_capture` |
| Homemade.TestFishSearch | homemade.py:126-191 | the board is unchanged, and the result is the drawn strategy's: Best (the engine's best move, TypeError exactly when the engine has none), Random, Capture or Worst, returned as a move with no draw offer |
| Homemade.WorstFishSearch | homemade.py:203-238 | WorstFish plays exactly the Worst strategy and leaves the board unchanged |
| Homemade.ListOf | homemade.py:70 | `list(board.legal_moves)`: a fresh list holding the legal moves in order, so sorting it touches nothing else |
| Homemade.FirstByKey | homemade.py:70-75 | sort a fresh copy of the legal moves and take [0]: IndexError exactly when there is none, otherwise the first key-minimal legal move |
| Homemade.FirstMoveSearch | homemade.py:68-75 | the result is the legal move whose UCI text sorts first (the first of them in enumeration order); IndexError with no legal move |
| Homemade.AlphabeticalSearch | homemade.py:57-62 | the result is the legal move whose SAN text sorts first (the first of them in enumeration order); IndexError with no legal move |
| Homemade.MoverClock | homemade.py:96-104 | ComboEngine's (my_time, my_inc); specified by MoverClockFixedTime, MoverClockReadsOwnFields, MoverClockIgnoresOpponent and FixedTimeRule |
| Homemade.IntOrZero | homemade.py:100-104 | `x if isinstance(x, int) else 0`; MoverClockReadsOwnFields states what it gives ComboEngine |
| Homemade.MoverClockFixedTime | homemade.py:96-98 | an int fixed time decides alone: the side to move and every clock and increment are irrelevant, and the increment is 0 |
| Homemade.MoverClockReadsOwnFields | homemade.py:99-104 | without an int fixed time, the mover's own clock and increment are read, each as its int value, or 0 if it is a float or None, whatever the other fields hold |
| Homemade.MoverClockIgnoresOpponent | homemade.py:99-104 | the opponent's clock and increment never matter |
| Homemade.FixedTimeRule | homemade.py:96-108 | with an int fixed time t, ComboEngine plays randomly exactly when t > 600 |
| Homemade.PlaysRandom | homemade.py:108 | `my_time / 60 + my_inc > 10` holds exactly when my_time + 60 · my_inc > 600 |
| Homemade.ComboSearch | homemade.py:96-115 | the result is a move of root_moves when that is a list, else of the legal moves; IndexError exactly when that universe is empty; any member by the draw when the clock rule says random, else the universe's first UCI-minimal move; draw_offered is passed through; a root_moves list is left untouched by the random path and sorted in place (as a permutation) by the other |

## Left out

- Stockfish and the engine calls are not modelled. This covers `popen_uci`, `analyse`, `set_fen_position`, `get_best_move`, `close`, `__init__` and `quit`: foreign processes and I/O. The evaluation and the best move are the abstract `Chess.Engine`. The slice minus 0.01 that `evaluate` passes to `analyse` is part of that call, and could be negative for slices under 0.01 s.
- `stockfish.get_best_move()` returns a UCI string, and the Best branch and the Capture fallback return that string as the move (homemade.py:135-140, 152-155). The model identifies the string with the move it names: `Chess.Engine.bestMove` yields a `Chess.Move`.
- Engine failures and crashes are not modelled: the abstract evaluation always answers.
- python-chess internals are not modelled. This covers legal-move generation, `is_capture`, `is_check`, SAN rendering and turn, which are the abstract `Chess.Rules`. Scores, mate scores included, are totally ordered integers.
- `create_file`, `print` and logging are file and console I/O.
- The probabilities of `random.choice` are not stated: its uniformity and the 3/6 weight of Best. Only membership, reachability and the composition of the strategy list are.
- Floating point is not modelled. The time slice and the ComboEngine threshold are exact rationals (`real`), where Python uses binary floats.
- Python's `bool` counts as an `int` for `isinstance`. The model's `Homemade.Number` has no boolean case.
- The `isCapture`/`isCheck` attributes that the scan sets on the move objects become a `WorstStrategy.Tagged` record, built once per candidate. Nothing else reads those objects, so any aliasing between them is not modelled.
- Sorting.SortByKey: it is a selection sort rather than Python's stable sort. The front element it states is exactly the stable sort's. Behind that element, the order of moves whose keys are equal can differ. This is only visible through a `root_moves` list that ComboEngine sorts in place.
- The `RandomMove` engine (homemade.py:46-51) is the same as TestFish's Random branch, and is not modelled separately.
- `lib/conversation.py` is not part of this model. It is chat-command plumbing: I/O and a file-watching thread.
