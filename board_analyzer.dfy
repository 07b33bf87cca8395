/**
 * Geometry scans over a placement's 10 x 40 board (row 0 is the top row).
 * Each scan is a method with the source's loops and early exits, proved equal
 * to a recursive reference function whose contract states what it means.
 */
module BoardAnalyzer {
  import opened ReplayResponse

  /** The cell in column x of row y, `board[x + y * 10]`. */
  function Cell(b: Board, x: nat, y: nat): Mino
    requires x < COLUMNS && y < ROWS
  {
    b[x + y * 10]
  }

  predicate RowEmpty(b: Board, y: nat)
    requires y < ROWS
  {
    forall x :: 0 <= x < COLUMNS ==> Cell(b, x, y) == Empty
  }

  predicate RowHasGarbage(b: Board, y: nat)
    requires y < ROWS
  {
    exists x :: 0 <= x < COLUMNS && Cell(b, x, y) == Garbage
  }

  /** Whether the j-th row counted from the bottom (j = 0 is row 39) holds garbage. */
  predicate GarbageFromBottom(b: Board, j: nat)
    requires j < ROWS
  {
    RowHasGarbage(b, ROWS - 1 - j)
  }

  /** Whether column x is entirely Empty. */
  predicate ColumnEmpty(b: Board, x: nat)
    requires x < COLUMNS
  {
    forall y :: 0 <= y < ROWS ==> Cell(b, x, y) == Empty
  }

  predicate BoardEmpty(b: Board)
  {
    forall y :: 0 <= y < ROWS ==> RowEmpty(b, y)
  }

  // ---------------------------------------------------------------- height

  /** Index of the first non-empty row at or below row y, or 40 if there is none. */
  function TopRowFrom(b: Board, y: nat): (r: nat)
    requires y <= ROWS
    ensures y <= r <= ROWS
    decreases ROWS - y
  {
    if y == ROWS then ROWS else if !RowEmpty(b, y) then y else TopRowFrom(b, y + 1)
  }

  /** The row found is non-empty (unless it is 40) and every row from y down to it is empty. */
  lemma {:induction false} TopRowFromMeaning(b: Board, y: nat)
    requires y <= ROWS
    ensures TopRowFrom(b, y) < ROWS ==> !RowEmpty(b, TopRowFrom(b, y))
    ensures forall y' :: y <= y' < TopRowFrom(b, y) ==> RowEmpty(b, y')
    decreases ROWS - y
  {
    if y < ROWS && RowEmpty(b, y) {
      TopRowFromMeaning(b, y + 1);
    }
  }

  /** Stack height: 40 minus the topmost occupied row, 0 for an empty board. */
  function Height(b: Board): (h: nat)
    ensures h <= ROWS
  {
    ROWS - TopRowFrom(b, 0)
  }

  /** The height is 0 exactly for an empty board; otherwise row 40 - h is occupied and every row above it is empty. */
  lemma HeightMeaning(b: Board)
    ensures Height(b) == 0 <==> BoardEmpty(b)
    ensures Height(b) > 0 ==> !RowEmpty(b, ROWS - Height(b))
    ensures forall y :: 0 <= y < ROWS - Height(b) ==> RowEmpty(b, y)
  {
    TopRowFromMeaning(b, 0);
  }

  /** `get_height`: scan rows top-down, cells left to right, return at the first non-empty cell. */
  method GetHeight(b: Board) returns (h: nat)
    ensures h == Height(b)
  {
    var y := 0;
    while y < 40
      invariant 0 <= y <= ROWS
      invariant forall y' :: 0 <= y' < y ==> RowEmpty(b, y')
    {
      var x := 0;
      while x < 10
        invariant 0 <= x <= COLUMNS
        invariant forall x' :: 0 <= x' < x ==> Cell(b, x', y) == Empty
      {
        if Cell(b, x, y) != Empty {
          TopRowIs(b, y);
          return 40 - y;
        }
        x := x + 1;
      }
      y := y + 1;
    }
    HeightMeaning(b);
    return 0;
  }

  /** The height is fixed by the first non-empty row. */
  lemma TopRowIs(b: Board, y: nat)
    requires y < ROWS && !RowEmpty(b, y)
    requires forall y' :: 0 <= y' < y ==> RowEmpty(b, y')
    ensures Height(b) == ROWS - y
  {
    TopRowFromMeaning(b, 0);
  }

  // -------------------------------------------------------- garbage height

  /**
   * Number of consecutive garbage-holding rows counted upward from the bottom,
   * given that the k lowest rows already hold garbage; 40 if every row does.
   */
  function GarbageRowsFrom(b: Board, k: nat): (r: nat)
    requires k <= ROWS
    ensures k <= r <= ROWS
    decreases ROWS - k
  {
    if k == ROWS then ROWS
    else if GarbageFromBottom(b, k) then GarbageRowsFrom(b, k + 1)
    else k
  }

  lemma {:induction false} GarbageRowsFromMeaning(b: Board, k: nat)
    requires k <= ROWS
    ensures forall j :: k <= j < GarbageRowsFrom(b, k) ==> GarbageFromBottom(b, j)
    ensures GarbageRowsFrom(b, k) < ROWS ==> !GarbageFromBottom(b, GarbageRowsFrom(b, k))
    decreases ROWS - k
  {
    if k < ROWS && GarbageFromBottom(b, k) {
      GarbageRowsFromMeaning(b, k + 1);
    }
  }

  /** Length of the garbage streak at the bottom of the board (0 to 40). */
  function GarbageRows(b: Board): (r: nat)
    ensures r <= ROWS
  {
    GarbageRowsFrom(b, 0)
  }

  /** The r lowest rows hold garbage and, unless r is 40, the row above them does not. */
  lemma GarbageRowsMeaning(b: Board)
    ensures forall j :: 0 <= j < GarbageRows(b) ==> GarbageFromBottom(b, j)
    ensures GarbageRows(b) < ROWS ==> !GarbageFromBottom(b, GarbageRows(b))
  {
    GarbageRowsFromMeaning(b, 0);
  }

  /** The streak length is pinned down by the rows that hold garbage and the first that does not. */
  lemma GarbageStreakEnds(b: Board, k: nat)
    requires k <= ROWS
    requires forall j :: 0 <= j < k ==> GarbageFromBottom(b, j)
    requires k < ROWS ==> !GarbageFromBottom(b, k)
    ensures GarbageRows(b) == k
  {
    GarbageRowsMeaning(b);
  }

  /**
   * `get_garbage_height`: the bottom garbage streak, except that a board whose
   * forty rows all hold garbage reports 0, because the scan falls through.
   */
  function GarbageHeight(b: Board): (g: nat)
    ensures g < ROWS
    ensures g == GarbageRows(b) % ROWS
  {
    if GarbageRows(b) == ROWS then 0 else GarbageRows(b)
  }

  /** `get_garbage_height`: scan rows bottom-up and stop at the first without garbage. */
  method GetGarbageHeight(b: Board) returns (g: nat)
    ensures g == GarbageHeight(b)
  {
    var y := 40;
    while y > 0
      invariant 0 <= y <= ROWS
      invariant forall j :: 0 <= j < ROWS - y ==> GarbageFromBottom(b, j)
    {
      y := y - 1;
      var garbageFound := false;
      var x := 0;
      while x < 10
        invariant 0 <= x <= COLUMNS
        invariant !garbageFound
        invariant forall x' :: 0 <= x' < x ==> Cell(b, x', y) != Garbage
      {
        if Cell(b, x, y) == Garbage {
          garbageFound := true;
          break;
        }
        x := x + 1;
      }
      if !garbageFound {
        GarbageStreakEnds(b, ROWS - 1 - y);
        return 39 - y;
      }
      assert GarbageFromBottom(b, ROWS - 1 - y);
    }
    GarbageStreakEnds(b, ROWS);
    return 0;
  }

  /**
   * The garbage height never exceeds the stack height, so the stack height
   * `height - garbage_height` recorded per placement cannot underflow.
   */
  lemma GarbageHeightAtMostHeight(b: Board)
    ensures GarbageHeight(b) <= Height(b)
  {
    var g := GarbageHeight(b);
    GarbageRowsMeaning(b);
    HeightMeaning(b);
    if g > 0 {
      var y := ROWS - g;
      assert GarbageFromBottom(b, g - 1);
      var x :| 0 <= x < COLUMNS && Cell(b, x, y) == Garbage;
      assert !RowEmpty(b, y);
    }
  }

  // ------------------------------------------------------------------ well

  /** First occupied row at or below row y in column x, or 40. */
  function ColumnTopFrom(b: Board, x: nat, y: nat): (r: nat)
    requires x < COLUMNS && y <= ROWS
    ensures y <= r <= ROWS
    decreases ROWS - y
  {
    if y == ROWS then ROWS else if Cell(b, x, y) != Empty then y else ColumnTopFrom(b, x, y + 1)
  }

  lemma {:induction false} ColumnTopFromMeaning(b: Board, x: nat, y: nat)
    requires x < COLUMNS && y <= ROWS
    ensures ColumnTopFrom(b, x, y) < ROWS ==> Cell(b, x, ColumnTopFrom(b, x, y)) != Empty
    ensures forall y' :: y <= y' < ColumnTopFrom(b, x, y) ==> Cell(b, x, y') == Empty
    decreases ROWS - y
  {
    if y < ROWS && Cell(b, x, y) == Empty {
      ColumnTopFromMeaning(b, x, y + 1);
    }
  }

  /** Height of column x: 40 minus its topmost occupied row, 0 when the column is empty. */
  function ColumnHeight(b: Board, x: nat): (h: nat)
    requires x < COLUMNS
    ensures h <= ROWS
  {
    ROWS - ColumnTopFrom(b, x, 0)
  }

  /** Minimum height among the first n columns (n >= 1). */
  function MinColumnHeight(b: Board, n: nat): (w: nat)
    requires 1 <= n <= COLUMNS
    ensures w <= ROWS
  {
    if n == 1 then ColumnHeight(b, 0)
    else
      var m := MinColumnHeight(b, n - 1);
      if ColumnHeight(b, n - 1) < m then ColumnHeight(b, n - 1) else m
  }

  /** The lowest column height: at most every column's height, and equal to one of them. */
  function Well(b: Board): (w: nat)
    ensures w <= ROWS
  {
    MinColumnHeight(b, COLUMNS)
  }

  /** The minimum over the first n columns is at most each of their heights. */
  lemma {:induction false} MinColumnHeightBelow(b: Board, n: nat)
    requires 1 <= n <= COLUMNS
    ensures forall x :: 0 <= x < n ==> MinColumnHeight(b, n) <= ColumnHeight(b, x)
  {
    if n > 1 {
      var m := MinColumnHeight(b, n - 1);
      MinColumnHeightBelow(b, n - 1);
      assert MinColumnHeight(b, n) <= m && MinColumnHeight(b, n) <= ColumnHeight(b, n - 1);
    }
  }

  /** The minimum over the first n columns is the height of one of them. */
  lemma {:induction false} MinColumnHeightAttained(b: Board, n: nat)
    requires 1 <= n <= COLUMNS
    ensures exists x :: 0 <= x < n && MinColumnHeight(b, n) == ColumnHeight(b, x)
  {
    if n > 1 {
      MinColumnHeightAttained(b, n - 1);
      var x :| 0 <= x < n - 1 && MinColumnHeight(b, n - 1) == ColumnHeight(b, x);
      if ColumnHeight(b, n - 1) < MinColumnHeight(b, n - 1) {
        assert MinColumnHeight(b, n) == ColumnHeight(b, n - 1);
      } else {
        assert MinColumnHeight(b, n) == ColumnHeight(b, x);
      }
    } else {
      assert MinColumnHeight(b, n) == ColumnHeight(b, 0);
    }
  }

  /** `get_well`: the column heights (the source's `map` over columns), then their minimum. */
  method GetWell(b: Board) returns (w: nat)
    ensures w == Well(b)
  {
    var heights: seq<nat> := [];
    var x := 0;
    while x < 10
      invariant 0 <= x <= COLUMNS && |heights| == x
      invariant forall x' :: 0 <= x' < x ==> heights[x'] == ColumnHeight(b, x')
    {
      var h := 0;
      var y := 0;
      while y < 40
        invariant 0 <= y <= ROWS
        invariant forall y' :: 0 <= y' < y ==> Cell(b, x, y') == Empty
        invariant h == 0
      {
        if Cell(b, x, y) != Empty {
          h := 40 - y;
          break;
        }
        y := y + 1;
      }
      ColumnTopFromMeaning(b, x, 0);
      assert h == ColumnHeight(b, x);
      heights := heights + [h];
      x := x + 1;
    }
    w := heights[0];
    var k := 1;
    while k < 10
      invariant 1 <= k <= COLUMNS
      invariant w == MinColumnHeight(b, k)
    {
      if heights[k] < w {
        w := heights[k];
      }
      k := k + 1;
    }
  }

  lemma ColumnAtMostHeight(b: Board, x: nat)
    requires x < COLUMNS
    ensures ColumnHeight(b, x) <= Height(b)
  {
    ColumnTopFromMeaning(b, x, 0);
    HeightMeaning(b);
    var top := ColumnTopFrom(b, x, 0);
    if top < ROWS {
      assert !RowEmpty(b, top);
    }
  }

  /** The well is never deeper than the stack is high, and an empty column makes it 0. */
  lemma WellBounds(b: Board)
    ensures Well(b) <= Height(b)
    ensures (exists x :: 0 <= x < COLUMNS && ColumnEmpty(b, x)) ==> Well(b) == 0
  {
    MinColumnHeightBelow(b, COLUMNS);
    MinColumnHeightAttained(b, COLUMNS);
    var x0 :| 0 <= x0 < COLUMNS && Well(b) == ColumnHeight(b, x0);
    ColumnAtMostHeight(b, x0);
    if exists x :: 0 <= x < COLUMNS && ColumnEmpty(b, x) {
      var x :| 0 <= x < COLUMNS && ColumnEmpty(b, x);
      ColumnTopFromMeaning(b, x, 0);
      assert ColumnHeight(b, x) == 0;
    }
  }

  // ---------------------------------------------------------------- cheese

  /** Rightmost Empty column among the first n columns of row y, or 10 if none. */
  function RightmostEmpty(b: Board, y: nat, n: nat): (c: nat)
    requires y < ROWS && n <= COLUMNS
    ensures c <= COLUMNS
    ensures c < COLUMNS ==> c < n
  {
    if n == 0 then COLUMNS
    else if Cell(b, n - 1, y) == Empty then n - 1
    else RightmostEmpty(b, y, n - 1)
  }

  /** Hole columns of the k lowest rows, bottom row first: each row's rightmost Empty column, 10 when full. */
  function HoleColumns(b: Board, k: nat): (s: seq<nat>)
    requires k <= ROWS
    ensures |s| == k
    ensures forall j :: 0 <= j < k ==> s[j] == RightmostEmpty(b, ROWS - 1 - j, COLUMNS)
  {
    seq(k, j requires 0 <= j < k => RightmostEmpty(b, ROWS - 1 - j, COLUMNS))
  }

  /** Length of the run of equal elements at the end of s. */
  function TailStreak(s: seq<nat>): (n: nat)
    ensures n <= |s|
    ensures s != [] ==> n >= 1
  {
    if |s| == 0 then 0
    else if |s| >= 2 && s[|s| - 1] == s[|s| - 2] then TailStreak(s[..|s| - 1]) + 1
    else 1
  }

  /** What `TailStreak` means: the last n elements agree, and the one before them (if any) differs. */
  lemma {:induction false} TailStreakMeaning(s: seq<nat>)
    requires s != []
    ensures forall j :: |s| - TailStreak(s) <= j < |s| ==> s[j] == s[|s| - 1]
    ensures TailStreak(s) < |s| ==> s[|s| - 1 - TailStreak(s)] != s[|s| - 1]
  {
    if |s| >= 2 && s[|s| - 1] == s[|s| - 2] {
      TailStreakMeaning(s[..|s| - 1]);
    }
  }

  /**
   * Cheese: over the bottom garbage streak, the topmost run of rows sharing
   * the same hole column is one to three rows long.
   */
  predicate Cheese(b: Board)
  {
    var n := TailStreak(HoleColumns(b, GarbageRows(b)));
    0 < n < 4
  }

  /** A board whose bottom row holds no garbage has no cheese. */
  lemma NoBottomGarbageNoCheese(b: Board)
    requires !RowHasGarbage(b, ROWS - 1)
    ensures !Cheese(b)
  {
    GarbageRowsMeaning(b);
    assert !GarbageFromBottom(b, 0);
    GarbageStreakEnds(b, 0);
  }

  /** `has_cheese`: walk garbage rows bottom-up, tracking the current same-hole streak. */
  method HasCheese(b: Board) returns (r: bool)
    ensures r == Cheese(b)
  {
    var lastGarbageCol := 10;
    var count := 0;
    var k := 0;
    while k < 40
      invariant 0 <= k <= ROWS
      invariant forall j :: 0 <= j < k ==> GarbageFromBottom(b, j)
      invariant count == TailStreak(HoleColumns(b, k))
      invariant k > 0 ==> lastGarbageCol == HoleColumns(b, k)[k - 1]
    {
      var y := 39 - k;
      var garbageFound := false;
      var newCol := 10;
      var x := 0;
      while x < 10
        invariant 0 <= x <= COLUMNS
        invariant garbageFound <==> exists x' :: 0 <= x' < x && Cell(b, x', y) == Garbage
        invariant newCol == RightmostEmpty(b, y, x)
      {
        if Cell(b, x, y) == Garbage {
          garbageFound := true;
        } else if Cell(b, x, y) == Empty {
          newCol := x;
        }
        x := x + 1;
      }
      if !garbageFound {
        GarbageStreakEnds(b, k);
        break;
      }
      assert GarbageFromBottom(b, k);
      ghost var cols := HoleColumns(b, k + 1);
      assert cols[..k] == HoleColumns(b, k);
      assert cols[k] == newCol;
      if lastGarbageCol == newCol {
        count := count + 1;
      } else {
        count := 1;
      }
      lastGarbageCol := newCol;
      k := k + 1;
    }
    if k == ROWS {
      GarbageStreakEnds(b, ROWS);
    }
    r := count > 0 && count < 4;
  }
}
