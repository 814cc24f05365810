/** N-queens by backtracking on one board. A board gives the column of the queen in each
    row, or -1. */
module Queens {

  function Abs(x: int): nat {
    if x < 0 then -x else x
  }

  /** Two queens in different rows attack each other. */
  predicate Attacks(row: int, col: int, row': int, col': int) {
    col == col' || Abs(col - col') == Abs(row - row')
  }

  /** A queen in the next row and column col is not attacked by the queens qs. */
  predicate Free(qs: seq<int>, col: int) {
    forall i :: 0 <= i < |qs| ==> !Attacks(i, qs[i], |qs|, col)
  }

  /** s fills a board of size n, keeping the queens qs, so that no queen it adds is
      attacked from an earlier row. */
  predicate IsCompletion(n: nat, qs: seq<int>, s: seq<int>) {
    && |s| == n && qs <= s
    && (forall j :: |qs| <= j < n ==> 0 <= s[j] < n)
    && (forall i, j :: |qs| <= j < n && 0 <= i < j ==> !Attacks(i, s[i], j, s[j]))
  }

  ghost function Completions(n: nat, qs: seq<int>): (r: set<seq<int>>)
    requires |qs| <= n
    ensures forall s :: s in r <==> IsCompletion(n, qs, s)
    decreases n - |qs|, n + 1
  {
    if |qs| == n then
      NothingToAdd(qs);
      {qs}
    else CompletionsUpTo(n, qs, n)
  }

  lemma NothingToAdd(qs: seq<int>)
    ensures forall s :: IsCompletion(|qs|, qs, s) <==> s == qs
  {
  }

  /** Those whose next queen is in one of the first k columns. */
  ghost function CompletionsUpTo(n: nat, qs: seq<int>, k: nat): (r: set<seq<int>>)
    requires |qs| < n && k <= n
    ensures forall s :: s in r <==> IsCompletion(n, qs, s) && s[|qs|] < k
    decreases n - |qs|, k
  {
    if k == 0 then {}
    else if Free(qs, k - 1) then
      NextColumn(n, qs, k - 1);
      CompletionsUpTo(n, qs, k - 1) + Completions(n, qs + [k - 1])
    else
      NextColumn(n, qs, k - 1);
      CompletionsUpTo(n, qs, k - 1)
  }

  lemma NextColumn(n: nat, qs: seq<int>, col: nat)
    requires |qs| < n && col < n
    ensures forall s :: IsCompletion(n, qs, s) && s[|qs|] == col <==> Free(qs, col) && IsCompletion(n, qs + [col], s)
  {
    forall s | IsCompletion(n, qs, s) && s[|qs|] == col
      ensures Free(qs, col) && IsCompletion(n, qs + [col], s)
    {
      assert forall i :: 0 <= i < |qs| ==> !Attacks(i, s[i], |qs|, s[|qs|]);
    }
    forall s | Free(qs, col) && IsCompletion(n, qs + [col], s)
      ensures IsCompletion(n, qs, s) && s[|qs|] == col
    {
      assert (qs + [col])[|qs|] == col;
      assert qs <= s;
    }
  }

  /** The number of ways to complete the queens qs, column by column. */
  function Count(n: nat, qs: seq<int>): nat
    requires |qs| <= n
    decreases n - |qs|, n + 1
  {
    if |qs| == n then 1 else CountUpTo(n, qs, n)
  }

  function CountUpTo(n: nat, qs: seq<int>, k: nat): nat
    requires |qs| < n && k <= n
    decreases n - |qs|, k
  {
    if k == 0 then 0
    else CountUpTo(n, qs, k - 1) + if Free(qs, k - 1) then Count(n, qs + [k - 1]) else 0
  }

  /** It is the number of completions there are. */
  lemma {:induction false} CountIsCardinality(n: nat, qs: seq<int>)
    requires |qs| <= n
    ensures Count(n, qs) == |Completions(n, qs)|
    decreases n - |qs|, n + 1
  {
    if |qs| < n {
      CountUpToIsCardinality(n, qs, n);
    }
  }

  /** Completions with different next queens are different. */
  lemma {:induction false} CountUpToIsCardinality(n: nat, qs: seq<int>, k: nat)
    requires |qs| < n && k <= n
    ensures CountUpTo(n, qs, k) == |CompletionsUpTo(n, qs, k)|
    decreases n - |qs|, k
  {
    if k > 0 {
      CountUpToIsCardinality(n, qs, k - 1);
      if Free(qs, k - 1) {
        CountIsCardinality(n, qs + [k - 1]);
        OneMoreColumn(n, qs, k - 1);
      }
    }
  }

  lemma OneMoreColumn(n: nat, qs: seq<int>, col: nat)
    requires |qs| < n && col < n && Free(qs, col)
    ensures |CompletionsUpTo(n, qs, col + 1)| == |CompletionsUpTo(n, qs, col)| + |Completions(n, qs + [col])|
  {
    var earlier, these := CompletionsUpTo(n, qs, col), Completions(n, qs + [col]);
    forall s | s in these
      ensures s !in earlier
    {
      assert (qs + [col])[|qs|] == col;
    }
    assert earlier !! these;
    assert CompletionsUpTo(n, qs, col + 1) == earlier + these;
  }

  class Counter {
    var value: nat

    constructor ()
      ensures value == 0
    {
      value := 0;
    }
  }

  /** board_create(). */
  method BoardCreate(n: nat) returns (board: array<int>)
    ensures fresh(board) && board.Length == n && forall j :: 0 <= j < n ==> board[j] == -1
  {
    board := new int[n];
    for i := 0 to n
      invariant forall j :: 0 <= j < i ==> board[j] == -1
    {
      board[i] := -1;
    }
  }

  /** is_valid_move(). */
  method IsValidMove(board: array<int>, row: nat, col: int) returns (valid: bool)
    requires row <= board.Length
    ensures valid <==> Free(board[..row], col)
  {
    for i := 0 to row
      invariant forall k :: 0 <= k < i ==> !Attacks(k, board[k], row, col)
    {
      var bi := board[i];
      if bi == col || Abs(bi - col) == row - i {
        assert Attacks(i, board[..row][i], |board[..row]|, col);
        return false;
      }
    }
    return true;
  }

  /** solve_sequentially(): each way to complete the queens of the rows above row is
      counted once; those rows are left alone, and the others left as they were or empty. */
  method SolveSequentially(board: array<int>, row: nat, solutions: Counter)
    requires row <= board.Length
    modifies board, solutions
    ensures solutions.value == old(solutions.value) + Count(board.Length, old(board[..row]))
    ensures board[..row] == old(board[..row])
    ensures forall j :: row <= j < board.Length ==> board[j] == old(board[j]) || board[j] == -1
    decreases board.Length - row, 1
  {
    ghost var n, qs := board.Length, board[..row];
    if row < board.Length {
      for col := 0 to board.Length
        invariant board[..row] == qs
        invariant forall j :: row <= j < n ==> board[j] == old(board[j]) || board[j] == -1
        invariant solutions.value == old(solutions.value) + CountUpTo(n, qs, col)
      {
        SolveColumn(board, row, col, solutions);
      }
    } else {
      assert board[..row] == qs;
      solutions.value := solutions.value + 1;
    }
  }

  /** One round of the loop: the column is tried and the queen removed again. */
  method SolveColumn(board: array<int>, row: nat, col: nat, solutions: Counter)
    requires row < board.Length && col < board.Length
    modifies board, solutions
    ensures solutions.value == old(solutions.value) +
      if Free(old(board[..row]), col) then Count(board.Length, old(board[..row]) + [col]) else 0
    ensures board[..row] == old(board[..row])
    ensures forall j :: row <= j < board.Length ==> board[j] == old(board[j]) || board[j] == -1
    decreases board.Length - row, 0
  {
    var valid := IsValidMove(board, row, col);
    if valid {
      ghost var qs := board[..row];
      board[row] := col;
      assert board[..row + 1] == qs + [col];
      SolveSequentially(board, row + 1, solutions);
      assert board[..row] == board[..row + 1][..row] == qs;
      board[row] := -1;
    }
  }

  /** The sequential program: the number of complete boards. */
  method Sequential(n: nat) returns (count: nat)
    ensures count == |Completions(n, [])|
  {
    var solutions := new Counter();
    var board := BoardCreate(n);
    assert board[..0] == [];
    SolveSequentially(board, 0, solutions);
    count := solutions.value;
    CountIsCardinality(n, []);
  }

  /** A completion of the empty board is a full solution: no two queens attack. */
  lemma SolutionsAreConflictFree(n: nat, s: seq<int>)
    ensures s in Completions(n, []) <==>
      |s| == n && (forall j :: 0 <= j < n ==> 0 <= s[j] < n) &&
      (forall i, j :: 0 <= i < n && 0 <= j < n && i != j ==> !Attacks(i, s[i], j, s[j]))
  {
    if s in Completions(n, []) {
      forall i, j | 0 <= i < n && 0 <= j < n && i != j
        ensures !Attacks(i, s[i], j, s[j])
      {
        if j < i {
          assert !Attacks(j, s[j], i, s[i]);
        }
      }
    }
  }
}
