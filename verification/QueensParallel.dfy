/** N-queens in parallel: every level of the search is a task over an immutable list of
    positions, down to a cutoff below which a task searches on a board of its own. */
module QueensParallel {
  import opened Queens

  /** position_list_t: the queens placed so far, latest first. */
  datatype PositionList = Null | Node(row: int, col: int, previous: PositionList)

  function QueensOf(p: PositionList): seq<int> {
    match p
    case Null => []
    case Node(_, col, previous) => QueensOf(previous) + [col]
  }

  /** The rows count up from 0, and the columns lie on the board. */
  predicate Fits(n: nat, p: PositionList) {
    match p
    case Null => true
    case Node(row, col, previous) => row == |QueensOf(previous)| < n && 0 <= col < n && Fits(n, previous)
  }

  lemma FitsLength(n: nat, p: PositionList)
    requires Fits(n, p)
    ensures |QueensOf(p)| <= n
  {
  }

  // ----- Boards from lists ---------------------------------------------------------------

  /** position_list_to_board(). */
  method PositionListToBoard(position: PositionList, problemSize: nat) returns (board: array<int>)
    requires position.Node? && Fits(problemSize, position)
    ensures fresh(board) && board.Length == problemSize
    ensures board[..position.row + 1] == QueensOf(position)
    ensures forall j :: position.row < j < problemSize ==> board[j] == -1
  {
    board := BoardCreate(problemSize);
    ghost var qs := QueensOf(position);
    var i := position.row;
    var current := position;
    while current != Null
      invariant i + 1 == |QueensOf(current)| <= |qs| && QueensOf(current) == qs[..i + 1]
      invariant forall j :: i < j < |qs| ==> board[j] == qs[j]
      invariant forall j :: position.row < j < problemSize ==> board[j] == -1
      decreases current
    {
      board[i] := current.col;
      i := i - 1;
      current := current.previous;
    }
  }

  /** Below the cutoff: the search goes on, in sequence, on a board made from the list. */
  method SolveBelowCutoff(position: PositionList, problemSize: nat, solutions: Counter)
    requires position.Node? && Fits(problemSize, position)
    modifies solutions
    ensures solutions.value == old(solutions.value) + Count(problemSize, QueensOf(position))
  {
    var board := PositionListToBoard(position, problemSize);
    SolveSequentially(board, position.row + 1, solutions);
  }

  // ----- The moves from a position -----------------------------------------------------------

  function NextRow(p: PositionList): int {
    if p.Null? then 0 else p.row + 1
  }

  /** The move to column col. */
  function Move(p: PositionList, col: nat): PositionList {
    Node(NextRow(p), col, p)
  }

  /** The moves to the first k columns that no queen attacks. */
  function Moves(p: PositionList, k: nat): (r: seq<PositionList>)
    ensures |r| <= k
  {
    if k == 0 then []
    else if Free(QueensOf(p), k - 1) then Moves(p, k - 1) + [Move(p, k - 1)]
    else Moves(p, k - 1)
  }

  /** Queens from row low up attack column c of the next row. */
  ghost predicate Marked(qs: seq<int>, low: int, c: int) {
    exists i :: 0 <= low <= i < |qs| && Attacks(i, qs[i], |qs|, c)
  }

  lemma MarkOneMore(qs: seq<int>, low: nat, c: int)
    requires low < |qs|
    ensures Marked(qs, low, c) <==> Marked(qs, low + 1, c) || Attacks(low, qs[low], |qs|, c)
  {
  }

  /** The first loop of generate_valid_modes(): exactly the attacked columns are marked. */
  method MarkInvalid(position: PositionList, problemSize: nat) returns (invalid: array<int>)
    requires position.Node? && Fits(problemSize, position)
    ensures fresh(invalid) && invalid.Length == problemSize
    ensures forall c :: 0 <= c < problemSize ==> (invalid[c] != 0 <==> !Free(QueensOf(position), c))
  {
    invalid := new int[problemSize](_ => 0);
    ghost var qs := QueensOf(position);
    var nextRow := position.row + 1;
    var current := position;
    while current != Null
      invariant Fits(problemSize, current) && QueensOf(current) <= qs && nextRow == |qs|
      invariant forall c :: 0 <= c < problemSize ==> (invalid[c] != 0 <==> Marked(qs, |QueensOf(current)|, c))
      decreases current
    {
      forall c | 0 <= c < problemSize {
        MarkOneMore(qs, |QueensOf(current.previous)|, c);
      }
      invalid[current.col] := 1;
      var dRow := nextRow - current.row;
      if current.col + dRow < problemSize {
        invalid[current.col + dRow] := 1;
      }
      if current.col - dRow >= 0 {
        invalid[current.col - dRow] := 1;
      }
      current := current.previous;
    }
  }

  /** generate_valid_modes(): a null-terminated array of the moves to exactly the columns
      that is_valid_move() accepts on the board of the position, from left to right. */
  method GenerateValidModes(position: PositionList, problemSize: nat) returns (moves: array<PositionList>)
    requires position.Node? && Fits(problemSize, position)
    ensures fresh(moves) && moves.Length == problemSize + 1
    ensures var r := Moves(position, problemSize); moves[..|r|] == r && moves[|r|] == Null
  {
    var invalid := MarkInvalid(position, problemSize);
    moves := new PositionList[problemSize + 1](_ => Null);
    var l := 0;
    for i := 0 to problemSize
      invariant l == |Moves(position, i)| && moves[..l] == Moves(position, i)
      invariant forall j :: l <= j <= problemSize ==> moves[j] == Null
      modifies moves
    {
      if invalid[i] == 0 {
        ghost var before := moves[..l];
        moves[l] := Node(position.row + 1, i, position);
        assert moves[..l + 1] == before + [Node(position.row + 1, i, position)];
        l := l + 1;
      }
    }
  }

  /** The two descriptions of a legal move agree: a column is among the moves of a position
      just if is_valid_move() accepts it on any board that holds the position's queens. */
  lemma {:induction false} MovesAreValidMoves(p: PositionList, k: nat, col: int)
    ensures (exists m :: m in Moves(p, k) && m.Node? && m.col == col) <==> 0 <= col < k && Free(QueensOf(p), col)
    ensures forall m :: m in Moves(p, k) ==> m.Node? && m.previous == p && m.row == NextRow(p)
  {
    if k > 0 {
      MovesAreValidMoves(p, k - 1, col);
      var earlier := Moves(p, k - 1);
      if Free(QueensOf(p), k - 1) {
        assert Moves(p, k) == earlier + [Node(NextRow(p), k - 1, p)];
        assert Moves(p, k)[|earlier|] == Node(NextRow(p), k - 1, p);
        assert forall m :: m in earlier ==> m in Moves(p, k);
      }
    }
  }

  // ----- The tasks ------------------------------------------------------------------------------

  /** What is still to do: the call of solve_one_level for a position, or a number of
      increments of the shared count. */
  datatype Work = Level(position: PositionList) | Adding(count: nat)

  datatype Machine = Machine(pending: seq<Work>, total: nat)

  function Levels(ps: seq<PositionList>): seq<Work> {
    seq(|ps|, (i: nat) requires i < |ps| => Level(ps[i]))
  }

  /** solve_in_parallel(), for a cutoff of at least 1: a task for each column of row 0. */
  function Initial(n: nat): Machine {
    Machine(seq(n, (i: nat) => Level(Node(0, i, Null))), 0)
  }

  /** The next piece of one pending task: what it leaves to do, and what it adds. */
  ghost function Piece(n: nat, cutoff: nat, w: Work): (seq<Work>, nat) {
    match w
    case Adding(k) => if k == 0 then ([], 0) else ([Adding(k - 1)], 1)
    case Level(p) =>
      if NextRow(p) >= n then ([], 1)
      else if NextRow(p) == cutoff && Fits(n, p) && |QueensOf(p)| <= n then ([Adding(Count(n, QueensOf(p)))], 0)
      else (Levels(Moves(p, n)), 0)
  }

  /** Any pending task may go next. */
  ghost function Do(n: nat, cutoff: nat, m: Machine, i: nat): Machine
    requires i < |m.pending|
  {
    var (left, added) := Piece(n, cutoff, m.pending[i]);
    Machine(m.pending[..i] + left + m.pending[i + 1..], m.total + added)
  }

  ghost predicate CanRun(n: nat, cutoff: nat, m: Machine, run: seq<nat>)
    decreases |run|
  {
    run == [] || (run[0] < |m.pending| && CanRun(n, cutoff, Do(n, cutoff, m, run[0]), run[1..]))
  }

  ghost function After(n: nat, cutoff: nat, m: Machine, run: seq<nat>): Machine
    requires CanRun(n, cutoff, m, run)
    decreases |run|
  {
    if run == [] then m else After(n, cutoff, Do(n, cutoff, m, run[0]), run[1..])
  }

  // ----- What is still to come ---------------------------------------------------------------------

  ghost function Sum(ws: seq<Work>, f: Work -> nat): nat {
    if ws == [] then 0 else Sum(ws[..|ws| - 1], f) + f(ws[|ws| - 1])
  }

  lemma {:induction false} SumOfTwo(a: seq<Work>, b: seq<Work>, f: Work -> nat)
    ensures Sum(a + b, f) == Sum(a, f) + Sum(b, f)
    decreases |b|
  {
    if b == [] {
      assert a + b == a;
    } else {
      SumOfTwo(a, b[..|b| - 1], f);
      assert (a + b)[..|a + b| - 1] == a + b[..|b| - 1];
    }
  }

  lemma SumOfOne(w: Work, f: Work -> nat)
    ensures Sum([w], f) == f(w)
  {
    assert [w][..0] == [];
    assert Sum([], f) == 0;
  }

  lemma SumReplaced(ws: seq<Work>, i: nat, left: seq<Work>, f: Work -> nat)
    requires i < |ws|
    ensures Sum(ws[..i] + left + ws[i + 1..], f) + f(ws[i]) == Sum(ws, f) + Sum(left, f)
  {
    SumOfTwo(ws[..i] + left, ws[i + 1..], f);
    SumOfTwo(ws[..i], left, f);
    SumOfTwo(ws[..i] + [ws[i]], ws[i + 1..], f);
    SumOfTwo(ws[..i], [ws[i]], f);
    SumOfOne(ws[i], f);
    assert ws == ws[..i] + [ws[i]] + ws[i + 1..];
  }

  /** The solutions a pending task will still count. */
  ghost function Yield(n: nat, w: Work): nat {
    match w
    case Adding(k) => k
    case Level(p) => if Fits(n, p) && |QueensOf(p)| <= n then Count(n, QueensOf(p)) else 0
  }

  ghost function Yields(n: nat): Work -> nat {
    w => Yield(n, w)
  }

  ghost predicate AllFit(n: nat, ws: seq<Work>) {
    forall i :: 0 <= i < |ws| && ws[i].Level? ==> Fits(n, ws[i].position)
  }

  lemma LevelsOn(ps: seq<PositionList>, p: PositionList)
    ensures Levels(ps + [p]) == Levels(ps) + [Level(p)]
  {
  }

  lemma MoveFits(n: nat, p: PositionList, col: nat)
    requires Fits(n, p) && NextRow(p) == |QueensOf(p)| < n && col < n
    ensures Fits(n, Move(p, col)) && QueensOf(Move(p, col)) == QueensOf(p) + [col]
  {
  }

  lemma MovesOn(p: PositionList, k: nat)
    ensures Levels(Moves(p, k + 1)) ==
      if Free(QueensOf(p), k) then Levels(Moves(p, k)) + [Level(Move(p, k))] else Levels(Moves(p, k))
  {
    LevelsOn(Moves(p, k), Move(p, k));
  }

  lemma {:induction false} MovesFit(n: nat, p: PositionList, k: nat)
    requires Fits(n, p) && NextRow(p) == |QueensOf(p)| < n && k <= n
    ensures AllFit(n, Levels(Moves(p, k)))
  {
    if k > 0 {
      MovesFit(n, p, k - 1);
      MovesOn(p, k - 1);
      MoveFits(n, p, k - 1);
    }
  }

  /** A sum over the free columns among the first k. */
  ghost function FreeSum(p: PositionList, k: nat, f: Work -> nat): nat {
    if k == 0 then 0
    else FreeSum(p, k - 1, f) + if Free(QueensOf(p), k - 1) then f(Level(Move(p, k - 1))) else 0
  }

  lemma SumOneMore(ws: seq<Work>, w: Work, f: Work -> nat)
    ensures Sum(ws + [w], f) == Sum(ws, f) + f(w)
  {
    SumOfTwo(ws, [w], f);
    SumOfOne(w, f);
  }

  lemma {:induction false} SumOfMoves(p: PositionList, k: nat, f: Work -> nat)
    ensures Sum(Levels(Moves(p, k)), f) == FreeSum(p, k, f)
  {
    if k > 0 {
      SumOfMoves(p, k - 1, f);
      MovesOn(p, k - 1);
      SumOneMore(Levels(Moves(p, k - 1)), Level(Move(p, k - 1)), f);
    }
  }

  lemma {:induction false} FreeSumYield(n: nat, p: PositionList, k: nat)
    requires Fits(n, p) && NextRow(p) == |QueensOf(p)| < n && k <= n
    ensures FreeSum(p, k, Yields(n)) == CountUpTo(n, QueensOf(p), k)
  {
    if k > 0 {
      FreeSumYield(n, p, k - 1);
      MoveFits(n, p, k - 1);
    }
  }

  lemma MovesYield(n: nat, p: PositionList)
    requires Fits(n, p) && NextRow(p) == |QueensOf(p)| < n
    ensures Sum(Levels(Moves(p, n)), Yields(n)) == CountUpTo(n, QueensOf(p), n)
  {
    SumOfMoves(p, n, Yields(n));
    FreeSumYield(n, p, n);
  }

  lemma FitsRow(n: nat, p: PositionList)
    requires Fits(n, p)
    ensures NextRow(p) == |QueensOf(p)| <= n
  {
    FitsLength(n, p);
  }

  lemma PieceFits(n: nat, cutoff: nat, w: Work)
    requires AllFit(n, [w])
    ensures AllFit(n, Piece(n, cutoff, w).0)
  {
    assert [w][0] == w;
    if w.Level? {
      FitsRow(n, w.position);
      if NextRow(w.position) < n && NextRow(w.position) != cutoff {
        MovesFit(n, w.position, n);
      }
    }
  }

  lemma PieceKeepsYield(n: nat, cutoff: nat, w: Work)
    requires AllFit(n, [w])
    ensures Sum(Piece(n, cutoff, w).0, Yields(n)) + Piece(n, cutoff, w).1 == Yield(n, w)
  {
    assert [w][0] == w;
    match w
    case Adding(k) =>
      if k > 0 {
        SumOfOne(Adding(k - 1), Yields(n));
      }
    case Level(p) =>
      FitsRow(n, p);
      if NextRow(p) >= n {
      } else if NextRow(p) == cutoff {
        SumOfOne(Adding(Count(n, QueensOf(p))), Yields(n));
      } else {
        MovesYield(n, p);
      }
  }

  // ----- Every run ----------------------------------------------------------------------------------

  /** What has been counted and what is still to come make up goal. */
  ghost predicate OnCourse(n: nat, m: Machine, goal: nat) {
    AllFit(n, m.pending) && m.total + Sum(m.pending, Yields(n)) == goal
  }

  lemma StepStaysOnCourse(n: nat, cutoff: nat, m: Machine, i: nat, goal: nat)
    requires OnCourse(n, m, goal) && i < |m.pending|
    ensures OnCourse(n, Do(n, cutoff, m, i), goal)
  {
    var w := m.pending[i];
    PieceFits(n, cutoff, w);
    PieceKeepsYield(n, cutoff, w);
    SumReplaced(m.pending, i, Piece(n, cutoff, w).0, Yields(n));
  }

  lemma {:induction false} RunStaysOnCourse(n: nat, cutoff: nat, m: Machine, run: seq<nat>, goal: nat)
    requires OnCourse(n, m, goal) && CanRun(n, cutoff, m, run)
    ensures OnCourse(n, After(n, cutoff, m, run), goal)
    decreases |run|
  {
    if run != [] {
      StepStaysOnCourse(n, cutoff, m, run[0], goal);
      RunStaysOnCourse(n, cutoff, Do(n, cutoff, m, run[0]), run[1..], goal);
    }
  }

  lemma {:induction false} FirstMoves(k: nat)
    ensures Levels(Moves(Null, k)) == seq(k, (i: nat) => Level(Node(0, i, Null)))
  {
    if k > 0 {
      FirstMoves(k - 1);
      LevelsOn(Moves(Null, k - 1), Node(0, k - 1, Null));
    }
  }

  lemma InitialOnCourse(n: nat)
    requires n >= 1
    ensures OnCourse(n, Initial(n), Count(n, []))
  {
    FirstMoves(n);
    MovesFit(n, Null, n);
    MovesYield(n, Null);
  }

  lemma EmptyBoard()
    ensures Count(0, []) == 1
  {
  }

  /** When all tasks are done, in whatever order they and their increments came, the
      parallel count is the sequential one, unless the board has no rows: then the
      sequential program counts one solution and the parallel one none. */
  lemma ParallelEqualsSequential(n: nat, cutoff: nat, run: seq<nat>)
    requires cutoff >= 1
    requires CanRun(n, cutoff, Initial(n), run) && After(n, cutoff, Initial(n), run).pending == []
    ensures After(n, cutoff, Initial(n), run).total == |Completions(n, [])| <==> n >= 1
  {
    CountIsCardinality(n, []);
    if n >= 1 {
      InitialOnCourse(n);
      RunStaysOnCourse(n, cutoff, Initial(n), run, Count(n, []));
    } else {
      EmptyBoard();
      assert run == [];
    }
  }

  // ----- Every run ends -----------------------------------------------------------------------------

  /** A bound on the pieces of the task for a position with so many rows to go. */
  ghost function LevelWeight(n: nat, rows: nat): nat {
    if rows == 0 then 3 else n * LevelWeight(n, rows - 1) + 3
  }

  ghost function Weight(n: nat, w: Work): nat {
    match w
    case Adding(k) => k + 1
    case Level(p) => if |QueensOf(p)| <= n then LevelWeight(n, n - |QueensOf(p)|) else 0
  }

  ghost function Weights(n: nat): Work -> nat {
    w => Weight(n, w)
  }

  lemma {:induction false} CountBounded(n: nat, qs: seq<int>)
    requires |qs| <= n
    ensures Count(n, qs) + 2 <= LevelWeight(n, n - |qs|)
    decreases n - |qs|, n + 1
  {
    if |qs| == n {
    } else {
      CountUpToBounded(n, qs, n);
    }
  }

  lemma {:induction false} CountUpToBounded(n: nat, qs: seq<int>, k: nat)
    requires |qs| < n && k <= n
    ensures CountUpTo(n, qs, k) <= k * LevelWeight(n, n - |qs| - 1)
    decreases n - |qs|, k
  {
    if k > 0 {
      CountUpToBounded(n, qs, k - 1);
      CountBounded(n, qs + [k - 1]);
      assert k * LevelWeight(n, n - |qs| - 1) == (k - 1) * LevelWeight(n, n - |qs| - 1) + LevelWeight(n, n - |qs| - 1);
    }
  }

  lemma {:induction false} FreeSumWeight(n: nat, p: PositionList, k: nat)
    requires Fits(n, p) && NextRow(p) == |QueensOf(p)| < n && k <= n
    ensures FreeSum(p, k, Weights(n)) <= k * LevelWeight(n, n - |QueensOf(p)| - 1)
  {
    if k > 0 {
      var each := LevelWeight(n, n - |QueensOf(p)| - 1);
      FreeSumWeight(n, p, k - 1);
      MoveFits(n, p, k - 1);
      assert k * each == (k - 1) * each + each;
    }
  }

  lemma MovesWeight(n: nat, p: PositionList)
    requires Fits(n, p) && NextRow(p) == |QueensOf(p)| < n
    ensures Sum(Levels(Moves(p, n)), Weights(n)) <= n * LevelWeight(n, n - |QueensOf(p)| - 1)
  {
    SumOfMoves(p, n, Weights(n));
    FreeSumWeight(n, p, n);
  }

  lemma PieceIsLighter(n: nat, cutoff: nat, w: Work)
    requires AllFit(n, [w])
    ensures Sum(Piece(n, cutoff, w).0, Weights(n)) < Weight(n, w)
  {
    assert [w][0] == w;
    match w
    case Adding(k) =>
      if k > 0 {
        SumOfOne(Adding(k - 1), Weights(n));
      }
    case Level(p) =>
      FitsRow(n, p);
      if NextRow(p) >= n {
      } else if NextRow(p) == cutoff {
        SumOfOne(Adding(Count(n, QueensOf(p))), Weights(n));
        CountBounded(n, QueensOf(p));
      } else {
        MovesWeight(n, p);
      }
  }

  /** No run is longer than the weight of what is pending; and while anything is pending
      a step can be taken, so every run that goes on as long as it can ends with all
      tasks done. */
  lemma {:induction false} RunsEnd(n: nat, cutoff: nat, m: Machine, run: seq<nat>)
    requires AllFit(n, m.pending) && CanRun(n, cutoff, m, run)
    ensures |run| <= Sum(m.pending, Weights(n))
    ensures After(n, cutoff, m, run).pending != [] ==> CanRun(n, cutoff, m, run + [0])
    decreases |run|
  {
    if run == [] {
      assert (run + [0])[0] == 0 && (run + [0])[1..] == [];
    } else {
      var w, next := m.pending[run[0]], Do(n, cutoff, m, run[0]);
      PieceFits(n, cutoff, w);
      PieceIsLighter(n, cutoff, w);
      SumReplaced(m.pending, run[0], Piece(n, cutoff, w).0, Weights(n));
      RunsEnd(n, cutoff, next, run[1..]);
      assert (run + [0])[0] == run[0] && (run + [0])[1..] == run[1..] + [0];
    }
  }
}
