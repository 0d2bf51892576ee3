/** The "Worst" strategy of TestFish.search and WorstFish.search: give the
    engine a time slice per legal move, evaluate every move from the
    opponent's side, keep the moves with the highest such evaluation, and
    among them prefer a quiet move, then a check, then a capture. */
module WorstStrategy {
  import opened Chess
  import opened Lists

  /** The budget the search receives: an engine Limit object, or a clock reading in milliseconds. */
  datatype TimeLeft = EngineLimit | Clock(ms: real)

  /** The baseline seconds per candidate move. */
  const BASE_SEARCH_TIME: real := 0.1

  /** The seconds given to the engine for each candidate move when there
      are `n` of them. With a clock, the whole scan is kept within a tenth
      of the remaining clock. */
  function SearchTime(t: TimeLeft, n: nat): (r: Result<real>)
    ensures t.EngineLimit? ==> r == Ok(BASE_SEARCH_TIME)
    ensures r.Ok? ==> r.value <= BASE_SEARCH_TIME
    ensures t.Clock? && (n as real) * BASE_SEARCH_TIME <= t.ms / 10000.0 ==> r == Ok(BASE_SEARCH_TIME)
    ensures t.Clock? && n > 0 ==> r.Ok? && (n as real) * r.value <= t.ms / 10000.0
    ensures t.Clock? && n > 0 ==>
      ((n as real) * r.value == t.ms / 10000.0 <==> (n as real) * BASE_SEARCH_TIME >= t.ms / 10000.0)
    ensures t.Clock? && n > 0 ==> (r.value > 0.0 <==> t.ms > 0.0)
    ensures t.Clock? && n == 0 ==> (r.Err? <==> t.ms < 0.0)
    ensures r.Err? ==> r.error == ZeroDivisionError
  {
    match t
    case EngineLimit => Ok(BASE_SEARCH_TIME)
    case Clock(ms) =>
      var seconds := ms / 1000.0;
      if (n as real) * BASE_SEARCH_TIME > seconds / 10.0 then
        if n == 0 then Err(ZeroDivisionError) else Ok((seconds / 10.0) / (n as real))
      else
        Ok(BASE_SEARCH_TIME)
  }

  /** A candidate move with the two attributes the scan sets on it. */
  datatype Tagged = Tagged(move: Move, isCapture: bool, isCheck: bool)

  /** What the scan learns about one candidate: its tags and the
      evaluation of the position after it, from the opponent's side. */
  datatype Scored = Scored(tagged: Tagged, evaluation: int)

  /** The scan's view of move `m` played from position `base`: capture is
      asked before the move, check after it, and the engine evaluates the
      position after it. */
  function Score(rules: Rules, engine: Engine, base: seq<Move>, slice: real, m: Move): Scored
  {
    Scored(Tagged(m, rules.isCapture(base, m), rules.isCheck(base + [m])), engine.evaluate(base + [m], slice))
  }

  function Candidates(rules: Rules, engine: Engine, base: seq<Move>, slice: real, ms: seq<Move>): seq<Scored>
  {
    seq(|ms|, i requires 0 <= i < |ms| => Score(rules, engine, base, slice, ms[i]))
  }

  /** The running worst evaluation after the candidates `cs`. */
  function MaxEvaluation(cs: seq<Scored>): (w: int)
    requires cs != []
    ensures forall c :: c in cs ==> c.evaluation <= w
    ensures exists c :: c in cs && c.evaluation == w
  {
    if |cs| == 1 then cs[0].evaluation
    else
      var init := cs[..|cs| - 1];
      var w := MaxEvaluation(init);
      assert cs == init + [cs[|cs| - 1]];
      var e := cs[|cs| - 1].evaluation;
      if w < e then e else w
  }

  /** The candidates of `cs` whose evaluation is `w`, in scan order. */
  function Ties(cs: seq<Scored>, w: int): (r: seq<Tagged>)
    ensures |r| <= |cs|
    ensures forall c :: c in cs && c.evaluation == w ==> c.tagged in r
    ensures forall t :: t in r ==> exists c :: c in cs && c.evaluation == w && c.tagged == t
  {
    if cs == [] then []
    else
      var init := cs[..|cs| - 1];
      var last := cs[|cs| - 1];
      assert cs == init + [last];
      var r := Ties(init, w);
      if last.evaluation == w then r + [last.tagged] else r
  }

  /** Ties keeps the scan order: the ties of a concatenation are the ties of each part. */
  lemma {:induction false} TiesAppend(a: seq<Scored>, b: seq<Scored>, w: int)
    ensures Ties(a + b, w) == Ties(a, w) + Ties(b, w)
  {
    if b == [] {
      assert a + b == a;
    } else {
      var b' := b[..|b| - 1];
      assert (a + b)[..|a + b| - 1] == a + b';
      assert (a + b)[|a + b| - 1] == b[|b| - 1];
      TiesAppend(a, b', w);
    }
  }

  /** The moves that tie at the maximum are never none when there is a candidate. */
  lemma TiesAtMaxNonEmpty(cs: seq<Scored>)
    requires cs != []
    ensures Ties(cs, MaxEvaluation(cs)) != []
  {
    var w := MaxEvaluation(cs);
    var c :| c in cs && c.evaluation == w;
    assert c.tagged in Ties(cs, w);
  }

  /** No candidate ties at a value above all evaluations. */
  lemma {:induction false} TiesAboveMax(cs: seq<Scored>, w: int)
    requires forall c :: c in cs ==> c.evaluation < w
    ensures Ties(cs, w) == []
  {
    if cs != [] {
      var init := cs[..|cs| - 1];
      assert forall c :: c in init ==> c in cs;
      TiesAboveMax(init, w);
    }
  }

  /** One turn of the scan loop on the running worst evaluation and its tied moves. */
  lemma ScanStep(cs: seq<Scored>, i: nat)
    requires i < |cs|
    ensures i == 0 ==> MaxEvaluation(cs[..1]) == cs[0].evaluation && Ties(cs[..1], cs[0].evaluation) == [cs[0].tagged]
    ensures i > 0 ==>
      var w := MaxEvaluation(cs[..i]);
      var e := cs[i].evaluation;
      && MaxEvaluation(cs[..i + 1]) == (if w < e then e else w)
      && Ties(cs[..i + 1], if w < e then e else w) ==
           if w < e then [cs[i].tagged]
           else if w == e then Ties(cs[..i], w) + [cs[i].tagged]
           else Ties(cs[..i], w)
  {
    assert cs[..i + 1][..i] == cs[..i];
    assert cs[..i + 1][i] == cs[i];
    if i == 0 {
      assert cs[..0] == [];
    } else {
      var w := MaxEvaluation(cs[..i]);
      var e := cs[i].evaluation;
      if w < e {
        TiesAboveMax(cs[..i], e);
      }
    }
  }

  /** The scan loop of homemade.py: for each legal move in order, tag it,
      push it, evaluate, update the running worst evaluation and the moves
      tied at it, and pop it. Every evaluation is of the starting position
      plus that one candidate, and the board ends as it started. */
  method Scan(board: Board, rules: Rules, engine: Engine, legal: seq<Move>, slice: real)
    returns (worst: Option<int>, worstMoves: seq<Tagged>)
    modifies board
    ensures board.stack == old(board.stack)
    ensures legal == [] ==> worst == None && worstMoves == []
    ensures legal != [] ==>
      var cs := Candidates(rules, engine, old(board.stack), slice, legal);
      worst == Some(MaxEvaluation(cs)) && worstMoves == Ties(cs, MaxEvaluation(cs))
  {
    ghost var base := board.stack;
    ghost var cs := Candidates(rules, engine, base, slice, legal);
    worst := None;
    worstMoves := [];
    var i := 0;
    while i < |legal|
      invariant 0 <= i <= |legal|
      invariant board.stack == base
      invariant i == 0 ==> worst == None && worstMoves == []
      invariant i > 0 ==> worst == Some(MaxEvaluation(cs[..i])) && worstMoves == Ties(cs[..i], worst.value)
    {
      var move := legal[i];
      var isCapture := rules.isCapture(board.stack, move);
      board.Push(move);
      assert board.stack == base + [move];
      var isCheck := rules.isCheck(board.stack);
      var tagged := Tagged(move, isCapture, isCheck);
      var evaluation := engine.evaluate(board.stack, slice);
      assert cs[i] == Scored(tagged, evaluation);
      ScanStep(cs, i);
      if worst == None || worst.value < evaluation {
        worst := Some(evaluation);
        worstMoves := [tagged];
      } else if worst.value == evaluation {
        worstMoves := worstMoves + [tagged];
      }
      var _ := board.Pop();
      i := i + 1;
    }
    assert cs[..i] == cs;
  }

  predicate IsCaptureTag(t: Tagged) { t.isCapture }
  predicate IsCheckTag(t: Tagged) { !t.isCapture && t.isCheck }
  predicate IsQuietTag(t: Tagged) { !t.isCapture && !t.isCheck }

  /** The bucket loop: captures first, then checks, everything else is quiet. */
  method Partition(worstMoves: seq<Tagged>) returns (captures: seq<Tagged>, checks: seq<Tagged>, other: seq<Tagged>)
    ensures captures == Filter(IsCaptureTag, worstMoves)
    ensures checks == Filter(IsCheckTag, worstMoves)
    ensures other == Filter(IsQuietTag, worstMoves)
  {
    captures, checks, other := [], [], [];
    var i := 0;
    while i < |worstMoves|
      invariant 0 <= i <= |worstMoves|
      invariant captures == Filter(IsCaptureTag, worstMoves[..i])
      invariant checks == Filter(IsCheckTag, worstMoves[..i])
      invariant other == Filter(IsQuietTag, worstMoves[..i])
    {
      var move := worstMoves[i];
      assert worstMoves[..i + 1][..i] == worstMoves[..i];
      if move.isCapture {
        captures := captures + [move];
      } else if move.isCheck {
        checks := checks + [move];
      } else {
        other := other + [move];
      }
      i := i + 1;
    }
    assert worstMoves[..i] == worstMoves;
  }

  /** Every tied move lands in exactly one bucket; a capture that also
      checks is a capture; the buckets together are as long as the list. */
  lemma {:induction false} BucketsPartition(s: seq<Tagged>)
    ensures |Filter(IsCaptureTag, s)| + |Filter(IsCheckTag, s)| + |Filter(IsQuietTag, s)| == |s|
    ensures forall t :: t in s ==>
      (t in Filter(IsCaptureTag, s) <==> t.isCapture) &&
      (t in Filter(IsCheckTag, s) <==> !t.isCapture && t.isCheck) &&
      (t in Filter(IsQuietTag, s) <==> !t.isCapture && !t.isCheck)
  {
    if s != [] {
      BucketsPartition(s[..|s| - 1]);
    }
  }

  /** The preference among tied moves: quiet 0, check 1, capture 2. */
  function Rank(t: Tagged): nat
  {
    if t.isCapture then 2 else if t.isCheck then 1 else 0
  }

  /** The final choice: a random quiet move if any, else a random check, else a random capture. */
  function PickWorst(captures: seq<Tagged>, checks: seq<Tagged>, other: seq<Tagged>, pick: nat): (r: Result<Tagged>)
    ensures other != [] ==> r.Ok? && r.value in other
    ensures other == [] && checks != [] ==> r.Ok? && r.value in checks
    ensures other == [] && checks == [] ==> r == Choose(captures, pick)
  {
    if |other| != 0 then Choose(other, pick)
    else if |checks| != 0 then Choose(checks, pick)
    else Choose(captures, pick)
  }

  /** The moves the scan keeps: the tags of the candidates with the highest evaluation. */
  function TiesAtMax(cs: seq<Scored>): seq<Tagged>
  {
    if cs == [] then [] else Ties(cs, MaxEvaluation(cs))
  }

  /** The last two steps of Worst on the scored candidates: keep the moves
      tied at the highest evaluation, then pick among them by kind. */
  function ChooseWorst(cs: seq<Scored>, pick: nat): Result<Tagged>
  {
    var worstMoves := TiesAtMax(cs);
    PickWorst(Filter(IsCaptureTag, worstMoves), Filter(IsCheckTag, worstMoves),
              Filter(IsQuietTag, worstMoves), pick)
  }

  /** The choice fails, with IndexError, only when there is no candidate.
      Otherwise it is the tag of a candidate with the highest evaluation,
      of a kind preferred to that of every other candidate so evaluated. */
  lemma ChooseWorstSound(cs: seq<Scored>, pick: nat)
    ensures ChooseWorst(cs, pick).Ok? <==> cs != []
    ensures cs == [] ==> ChooseWorst(cs, pick) == Err(IndexError)
    ensures cs != [] ==>
      var t := ChooseWorst(cs, pick).value;
      && (exists c :: c in cs && c.evaluation == MaxEvaluation(cs) && c.tagged == t)
      && (forall c :: c in cs && c.evaluation == MaxEvaluation(cs) ==> Rank(t) <= Rank(c.tagged))
  {
  }

  /** Every candidate with the highest evaluation and of the most preferred
      kind among those is the choice for some random draw. */
  lemma ChooseWorstReachesEvery(cs: seq<Scored>, c: Scored)
    requires c in cs && c.evaluation == MaxEvaluation(cs)
    requires forall d :: d in cs && d.evaluation == MaxEvaluation(cs) ==> Rank(c.tagged) <= Rank(d.tagged)
    ensures exists pick: nat :: ChooseWorst(cs, pick) == Ok(c.tagged)
  {
    var worstMoves := Ties(cs, MaxEvaluation(cs));
    BucketsPartition(worstMoves);
    var captures, checks, other := Filter(IsCaptureTag, worstMoves), Filter(IsCheckTag, worstMoves), Filter(IsQuietTag, worstMoves);
    var bucket := if other != [] then other else if checks != [] then checks else captures;
    assert c.tagged in bucket by {
      if other != [] {
        var u :| u in cs && u.evaluation == MaxEvaluation(cs) && u.tagged == other[0];
      } else if checks != [] {
        var u :| u in cs && u.evaluation == MaxEvaluation(cs) && u.tagged == checks[0];
      }
    }
    ChooseReachesEvery(bucket);
    var pick: nat :| Choose(bucket, pick) == Ok(c.tagged);
    assert ChooseWorst(cs, pick) == Ok(c.tagged);
  }

  /** When every candidate evaluates the same and only one quiet move is
      among them, that move is chosen whatever the random draw. */
  lemma ChooseWorstQuietWins(cs: seq<Scored>, q: Scored, pick: nat)
    requires q in cs && IsQuietTag(q.tagged)
    requires forall d :: d in cs ==> d.evaluation == q.evaluation
    requires forall d :: d in cs && IsQuietTag(d.tagged) ==> d.tagged == q.tagged
    ensures ChooseWorst(cs, pick) == Ok(q.tagged)
  {
    ChooseWorstSound(cs, pick);
    var c :| c in cs && c.evaluation == MaxEvaluation(cs) && c.tagged == ChooseWorst(cs, pick).value;
  }

  /** What the Worst strategy plays from `base`, step by step as homemade.py computes it. */
  function WorstChoice(rules: Rules, engine: Engine, base: seq<Move>, t: TimeLeft, pick: nat): Result<Move>
  {
    match SearchTime(t, |rules.legalMoves(base)|)
    case Err(e) => Err(e)
    case Ok(slice) =>
      match ChooseWorst(Candidates(rules, engine, base, slice, rules.legalMoves(base)), pick)
      case Err(e) => Err(e)
      case Ok(tagged) => Ok(tagged.move)
  }

  lemma CandidateOf(rules: Rules, engine: Engine, base: seq<Move>, slice: real, ms: seq<Move>, c: Scored)
    requires c in Candidates(rules, engine, base, slice, ms)
    ensures c.tagged.move in ms && c == Score(rules, engine, base, slice, c.tagged.move)
  {
    var cs := Candidates(rules, engine, base, slice, ms);
    var i :| 0 <= i < |cs| && cs[i] == c;
  }

  lemma ScoreInCandidates(rules: Rules, engine: Engine, base: seq<Move>, slice: real, ms: seq<Move>, m: Move)
    requires m in ms
    ensures Score(rules, engine, base, slice, m) in Candidates(rules, engine, base, slice, ms)
  {
    var cs := Candidates(rules, engine, base, slice, ms);
    var i :| 0 <= i < |ms| && ms[i] == m;
    assert cs[i] == Score(rules, engine, base, slice, m);
  }

  /** The Worst strategy fails only without legal moves (IndexError, or
      ZeroDivisionError for a negative clock); otherwise it plays a legal
      move whose evaluation for the opponent is the highest, and among the
      moves with that evaluation one of the most preferred kind. */
  lemma WorstChoiceSound(rules: Rules, engine: Engine, base: seq<Move>, t: TimeLeft, pick: nat)
    ensures var r := WorstChoice(rules, engine, base, t, pick);
      var legal := rules.legalMoves(base);
      && (r.Ok? <==> legal != [])
      && (legal == [] ==> r.error == (if t.Clock? && t.ms < 0.0 then ZeroDivisionError else IndexError))
      && (r.Ok? ==>
            var slice := SearchTime(t, |legal|).value;
            var chosen := Score(rules, engine, base, slice, r.value);
            && r.value in legal
            && (forall m :: m in legal ==> Score(rules, engine, base, slice, m).evaluation <= chosen.evaluation)
            && (forall m :: m in legal && Score(rules, engine, base, slice, m).evaluation == chosen.evaluation ==>
                  Rank(chosen.tagged) <= Rank(Score(rules, engine, base, slice, m).tagged)))
  {
    var legal := rules.legalMoves(base);
    if legal == [] {
      return;
    }
    var slice := SearchTime(t, |legal|).value;
    var cs := Candidates(rules, engine, base, slice, legal);
    var w := MaxEvaluation(cs);
    ChooseWorstSound(cs, pick);
    var tagged := ChooseWorst(cs, pick).value;
    var c :| c in cs && c.evaluation == w && c.tagged == tagged;
    CandidateOf(rules, engine, base, slice, legal, c);
    assert WorstChoice(rules, engine, base, t, pick) == Ok(tagged.move);
    forall m | m in legal
      ensures Score(rules, engine, base, slice, m).evaluation <= w
      ensures Score(rules, engine, base, slice, m).evaluation == w ==>
                Rank(tagged) <= Rank(Score(rules, engine, base, slice, m).tagged)
    {
      ScoreInCandidates(rules, engine, base, slice, legal, m);
    }
  }

  /** When every legal move evaluates the same and exactly one of them is
      quiet, that quiet move is played whatever the random draw. */
  lemma QuietMoveWinsTie(rules: Rules, engine: Engine, base: seq<Move>, t: TimeLeft, pick: nat, quiet: Move)
    requires quiet in rules.legalMoves(base)
    requires var slice := SearchTime(t, |rules.legalMoves(base)|).value;
      && IsQuietTag(Score(rules, engine, base, slice, quiet).tagged)
      && forall m :: m in rules.legalMoves(base) ==>
           && Score(rules, engine, base, slice, m).evaluation == Score(rules, engine, base, slice, quiet).evaluation
           && (m != quiet ==> !IsQuietTag(Score(rules, engine, base, slice, m).tagged))
    ensures WorstChoice(rules, engine, base, t, pick) == Ok(quiet)
  {
    var legal := rules.legalMoves(base);
    var slice := SearchTime(t, |legal|).value;
    var cs := Candidates(rules, engine, base, slice, legal);
    var q := Score(rules, engine, base, slice, quiet);
    ScoreInCandidates(rules, engine, base, slice, legal, quiet);
    forall d | d in cs
      ensures d.evaluation == q.evaluation
      ensures IsQuietTag(d.tagged) ==> d.tagged == q.tagged
    {
      CandidateOf(rules, engine, base, slice, legal, d);
    }
    ChooseWorstQuietWins(cs, q, pick);
  }

  /** Each legal move of the most preferred kind among those with the
      highest evaluation is played for some random draw. */
  lemma WorstChoiceReachesEvery(rules: Rules, engine: Engine, base: seq<Move>, t: TimeLeft, m: Move)
    requires m in rules.legalMoves(base)
    requires var slice := SearchTime(t, |rules.legalMoves(base)|).value;
      var cs := Candidates(rules, engine, base, slice, rules.legalMoves(base));
      var c := Score(rules, engine, base, slice, m);
      && c.evaluation == MaxEvaluation(cs)
      && forall d :: d in cs && d.evaluation == MaxEvaluation(cs) ==> Rank(c.tagged) <= Rank(d.tagged)
    ensures exists pick: nat :: WorstChoice(rules, engine, base, t, pick) == Ok(m)
  {
    var legal := rules.legalMoves(base);
    var slice := SearchTime(t, |legal|).value;
    var cs := Candidates(rules, engine, base, slice, legal);
    var c := Score(rules, engine, base, slice, m);
    ScoreInCandidates(rules, engine, base, slice, legal, m);
    ChooseWorstReachesEvery(cs, c);
    var pick: nat :| ChooseWorst(cs, pick) == Ok(c.tagged);
    assert WorstChoice(rules, engine, base, t, pick) == Ok(m);
  }

  /** Worst for WorstFish and for TestFish's "Worst" branch: the board is
      left as it was and the move is the one WorstChoice describes. */
  method WorstSearch(board: Board, rules: Rules, engine: Engine, t: TimeLeft, pick: nat) returns (r: Result<Move>)
    modifies board
    ensures board.stack == old(board.stack)
    ensures r == WorstChoice(rules, engine, old(board.stack), t, pick)
  {
    var legal := rules.legalMoves(board.stack);
    var searchTime := SearchTime(t, |legal|);
    if searchTime.Err? {
      return Err(searchTime.error);
    }
    var worst, worstMoves := Scan(board, rules, engine, legal, searchTime.value);
    var captures, checks, other := Partition(worstMoves);
    var choice := PickWorst(captures, checks, other, pick);
    if choice.Err? {
      return Err(choice.error);
    }
    r := Ok(choice.value.move);
  }
}
