/**
 * What the per-game bundle promises, proved about the reference definition
 * `StatsOf` (and so, through `FromGame`'s contract, about the pass itself):
 * the kind counters add up to the number of placements, the attributed
 * damage and lines respect their bounds, the opener ends once and for all,
 * and the segments are exactly the maximal runs of their chains.
 */
module StatsProperties {
  import opened Basics
  import opened ReplayResponse
  import opened BoardAnalyzer
  import opened PlacementStats

  // ------------------------------------------------------ totals in general

  /** Totals add up when the per-step amounts do. */
  lemma {:induction false} TotalPlus(steps: seq<Step>, lo: nat, hi: nat, q1: Quantity, q2: Quantity, q3: Quantity)
    requires lo <= hi <= |steps|
    requires forall j :: lo <= j < hi ==> Amount(steps, j, q1) + Amount(steps, j, q2) == Amount(steps, j, q3)
    ensures Total(steps, lo, hi, q1) + Total(steps, lo, hi, q2) == Total(steps, lo, hi, q3)
    decreases hi - lo
  {
    if lo < hi {
      TotalPlus(steps, lo, hi - 1, q1, q2, q3);
    }
  }

  /** Totals keep a per-step bound on the sum of two amounts. */
  lemma {:induction false} TotalPlusLe(steps: seq<Step>, lo: nat, hi: nat, q1: Quantity, q2: Quantity, q3: Quantity)
    requires lo <= hi <= |steps|
    requires forall j :: lo <= j < hi ==> Amount(steps, j, q1) + Amount(steps, j, q2) <= Amount(steps, j, q3)
    ensures Total(steps, lo, hi, q1) + Total(steps, lo, hi, q2) <= Total(steps, lo, hi, q3)
    decreases hi - lo
  {
    if lo < hi {
      TotalPlusLe(steps, lo, hi - 1, q1, q2, q3);
    }
  }

  /** Totals keep a per-step bound. */
  lemma {:induction false} TotalLe(steps: seq<Step>, lo: nat, hi: nat, q1: Quantity, q2: Quantity)
    requires lo <= hi <= |steps|
    requires forall j :: lo <= j < hi ==> Amount(steps, j, q1) <= Amount(steps, j, q2)
    ensures Total(steps, lo, hi, q1) <= Total(steps, lo, hi, q2)
    decreases hi - lo
  {
    if lo < hi {
      TotalLe(steps, lo, hi - 1, q1, q2);
    }
  }

  /** A total over a prefix of a range is at most the total over the range. */
  lemma {:induction false} TotalPrefix(steps: seq<Step>, lo: nat, mid: nat, hi: nat, q: Quantity)
    requires lo <= mid <= hi <= |steps|
    ensures Total(steps, lo, mid, q) <= Total(steps, lo, hi, q)
    decreases hi - mid
  {
    if mid < hi {
      TotalPrefix(steps, lo, mid, hi - 1, q);
    }
  }

  /** A total can be split off at its first step. */
  lemma {:induction false} TotalFirst(steps: seq<Step>, lo: nat, hi: nat, q: Quantity)
    requires lo < hi <= |steps|
    ensures Total(steps, lo, hi, q) == Amount(steps, lo, q) + Total(steps, lo + 1, hi, q)
    decreases hi - lo
  {
    if lo + 1 < hi {
      TotalFirst(steps, lo, hi - 1, q);
    }
  }

  // ------------------------------------------------------- kind counters

  /** The shape counters after the first n steps sum to n: each placement has exactly one shape. */
  lemma {:induction false} ShapeCountsSum(steps: seq<Step>, n: nat)
    requires n <= |steps|
    ensures Sum(seq(MINO_KINDS, m requires 0 <= m < MINO_KINDS => Total(steps, 0, n, ShapeIs(MinoAt(m))))) == n
  {
    var v := seq(MINO_KINDS, m requires 0 <= m < MINO_KINDS => Total(steps, 0, n, ShapeIs(MinoAt(m))));
    if n == 0 {
      SumZeros(v);
    } else {
      MinoAtIndex();
      var u := seq(MINO_KINDS, m requires 0 <= m < MINO_KINDS => Total(steps, 0, n - 1, ShapeIs(MinoAt(m))));
      var k := MinoIndex(steps[n - 1].p.shape);
      assert v == u[k := u[k] + 1];
      ShapeCountsSum(steps, n - 1);
      SumBump(u, k);
    }
  }

  /** The clear counters after the first n steps sum to n: each placement is counted under exactly one kind. */
  lemma {:induction false} ClearCountsSum(steps: seq<Step>, n: nat)
    requires n <= |steps|
    ensures Sum(seq(CLEAR_KINDS, c requires 0 <= c < CLEAR_KINDS => Total(steps, 0, n, ClassIs(ClearAt(c))))) == n
  {
    var v := seq(CLEAR_KINDS, c requires 0 <= c < CLEAR_KINDS => Total(steps, 0, n, ClassIs(ClearAt(c))));
    if n == 0 {
      SumZeros(v);
    } else {
      ClearAtIndex();
      var u := seq(CLEAR_KINDS, c requires 0 <= c < CLEAR_KINDS => Total(steps, 0, n - 1, ClassIs(ClearAt(c))));
      var k := ClearIndex(ClassOf(steps[n - 1]));
      assert v == u[k := u[k] + 1];
      ClearCountsSum(steps, n - 1);
      SumBump(u, k);
    }
  }

  /** Both counter arrays of a game's bundle sum to the number of placements. */
  lemma CountsSumToLength(steps: seq<Step>)
    ensures Sum(StatsOf(steps).shapeTypes) == |steps|
    ensures Sum(StatsOf(steps).clearTypes) == |steps|
  {
    ShapeCountsSum(steps, |steps|);
    ClearCountsSum(steps, |steps|);
  }

  /** A placement is counted as a perfect clear exactly when it leaves an empty board or is reported as one. */
  lemma PerfectClearWhenEmpty(p: Placement, o: Oracles)
    requires Feedable(p)
    ensures ClassOf(Analyze(p, o)) == PerfectClear <==> BoardEmpty(p.board) || p.clearType == PerfectClear
    ensures !BoardEmpty(p.board) ==> ClassOf(Analyze(p, o)) == p.clearType
  {
    HeightMeaning(p.board);
  }

  // ---------------------------------------------------------- attribution

  /** One placement's attributed amounts: split between garbage and stack, cheese a part of garbage. */
  lemma AttributionStep(steps: seq<Step>, j: nat)
    requires j < |steps|
    ensures Amount(steps, j, Attributed(GarbageExclusive)) + Amount(steps, j, Attributed(StackExclusive))
         == Amount(steps, j, Plain(Lines))
    ensures Amount(steps, j, Attributed(DamageWithGarbage)) + Amount(steps, j, Attributed(DamageWithStack))
         <= Amount(steps, j, Plain(Damage))
    ensures Amount(steps, j, Attributed(DamageWithCheese)) <= Amount(steps, j, Attributed(DamageWithGarbage))
    ensures Amount(steps, j, Attributed(CheeseExclusive)) <= Amount(steps, j, Attributed(GarbageExclusive))
    ensures j == 0 ==> Amount(steps, j, Attributed(DamageWithCheese)) == 0
    ensures j == 0 ==> Amount(steps, j, Attributed(CheeseExclusive)) == 0
  {
  }

  /** Lines cleared over a range split exactly into garbage clears and stack clears. */
  lemma LinesSplit(steps: seq<Step>, lo: nat, hi: nat)
    requires lo <= hi <= |steps|
    ensures Total(steps, lo, hi, Attributed(GarbageExclusive)) + Total(steps, lo, hi, Attributed(StackExclusive))
         == Total(steps, lo, hi, Plain(Lines))
  {
    forall j | lo <= j < hi
      ensures Amount(steps, j, Attributed(GarbageExclusive)) + Amount(steps, j, Attributed(StackExclusive))
           == Amount(steps, j, Plain(Lines))
    {
      AttributionStep(steps, j);
    }
    TotalPlus(steps, lo, hi, Attributed(GarbageExclusive), Attributed(StackExclusive), Plain(Lines));
  }

  /** Damage over a range attributed to garbage and to the stack is at most the damage sent. */
  lemma DamageSplit(steps: seq<Step>, lo: nat, hi: nat)
    requires lo <= hi <= |steps|
    ensures Total(steps, lo, hi, Attributed(DamageWithGarbage)) + Total(steps, lo, hi, Attributed(DamageWithStack))
         <= Total(steps, lo, hi, Plain(Damage))
  {
    forall j | lo <= j < hi
      ensures Amount(steps, j, Attributed(DamageWithGarbage)) + Amount(steps, j, Attributed(DamageWithStack))
           <= Amount(steps, j, Plain(Damage))
    {
      AttributionStep(steps, j);
    }
    TotalPlusLe(steps, lo, hi, Attributed(DamageWithGarbage), Attributed(DamageWithStack), Plain(Damage));
  }

  /** Over a range, cheese damage and cheese lines are parts of garbage damage and garbage lines. */
  lemma CheeseWithinGarbage(steps: seq<Step>, lo: nat, hi: nat)
    requires lo <= hi <= |steps|
    ensures Total(steps, lo, hi, Attributed(DamageWithCheese)) <= Total(steps, lo, hi, Attributed(DamageWithGarbage))
    ensures Total(steps, lo, hi, Attributed(CheeseExclusive)) <= Total(steps, lo, hi, Attributed(GarbageExclusive))
  {
    forall j | lo <= j < hi
      ensures Amount(steps, j, Attributed(DamageWithCheese)) <= Amount(steps, j, Attributed(DamageWithGarbage))
      ensures Amount(steps, j, Attributed(CheeseExclusive)) <= Amount(steps, j, Attributed(GarbageExclusive))
    {
      AttributionStep(steps, j);
    }
    TotalLe(steps, lo, hi, Attributed(DamageWithCheese), Attributed(DamageWithGarbage));
    TotalLe(steps, lo, hi, Attributed(CheeseExclusive), Attributed(GarbageExclusive));
  }

  /** The first placement never counts as cheese, so cheese totals start at the second. */
  lemma CheeseSkipsFirst(steps: seq<Step>, a: Attribution)
    requires |steps| > 0 && (a == DamageWithCheese || a == CheeseExclusive)
    ensures Total(steps, 0, |steps|, Attributed(a)) == Total(steps, 1, |steps|, Attributed(a))
  {
    AttributionStep(steps, 0);
    TotalFirst(steps, 0, |steps|, Attributed(a));
  }

  /**
   * The attributed fields of a game's bundle: every cleared line is either a
   * garbage clear or a stack clear, the damage attributed to garbage and to
   * the stack never exceeds the total, cheese is a part of garbage, and the
   * first placement never counts as cheese.
   */
  lemma AttributionBounds(steps: seq<Step>)
    ensures var b := StatsOf(steps);
      && b.exclusiveGarbageCleared + b.exclusiveStackCleared == b.linesCleared
      && b.attackWithGarbage + b.attackWithStack <= b.attack
      && b.attackWithCheese <= b.attackWithGarbage
      && b.exclusiveCheeseCleared <= b.exclusiveGarbageCleared
    ensures |steps| > 0 ==>
      && StatsOf(steps).attackWithCheese == Total(steps, 1, |steps|, Attributed(DamageWithCheese))
      && StatsOf(steps).exclusiveCheeseCleared == Total(steps, 1, |steps|, Attributed(CheeseExclusive))
  {
    LinesSplit(steps, 0, |steps|);
    DamageSplit(steps, 0, |steps|);
    CheeseWithinGarbage(steps, 0, |steps|);
    if |steps| > 0 {
      CheeseSkipsFirst(steps, DamageWithCheese);
      CheeseSkipsFirst(steps, CheeseExclusive);
    }
  }

  // ---------------------------------------------------------------- opener

  /** Once the opener has ended it stays ended: later prefixes agree on where. */
  lemma {:induction false} OpenerStable(steps: seq<Step>, n: nat, m: nat)
    requires n <= m <= |steps|
    requires OpenerEnd(steps, n) < n
    ensures OpenerEnd(steps, m) == OpenerEnd(steps, n)
    decreases m - n
  {
    if n < m {
      OpenerStable(steps, n, m - 1);
    }
  }

  /**
   * The opener of a game's bundle: its block count is the index of the first
   * placement that ends it (that placement not counted), or the whole game;
   * its damage and frames are those of the placements before it.
   */
  lemma OpenerBounds(steps: seq<Step>)
    ensures var b := StatsOf(steps);
      && b.openerBlocks <= |steps|
      && (b.openerBlocks < |steps| ==> EndsOpener(steps[b.openerBlocks].p))
      && (forall j :: 0 <= j < b.openerBlocks ==> !EndsOpener(steps[j].p))
      && b.openerAttack == Total(steps, 0, b.openerBlocks, Plain(Damage))
      && b.openerAttack <= b.attack
      && b.openerFrames == Total(steps, 0, b.openerBlocks, Plain(Frames))
      && b.openerFrames <= Total(steps, 0, |steps|, Plain(Frames))
  {
    var e := OpenerEnd(steps, |steps|);
    TotalPrefix(steps, 0, e, |steps|, Plain(Damage));
    TotalPrefix(steps, 0, e, |steps|, Plain(Frames));
  }

  // ------------------------------------------------------------------ runs

  predicate Within(r: Run, j: int)
  {
    r.start <= j < End(r)
  }

  /** Every step of every run extends chain a. */
  ghost predicate RunsInside(steps: seq<Step>, a: Chain, rs: seq<Run>)
    requires AllRunsIn(rs, |steps|)
  {
    forall k, j :: 0 <= k < |rs| && Within(rs[k], j) ==> Extends(steps[j].p, a)
  }

  /** No run can be stretched: the step before it and the step after it (among the first n) do not extend chain a. */
  ghost predicate RunsBounded(steps: seq<Step>, n: nat, a: Chain, rs: seq<Run>)
    requires n <= |steps| && AllRunsIn(rs, n)
  {
    && (forall k :: 0 <= k < |rs| && rs[k].start > 0 ==> !Extends(steps[rs[k].start - 1].p, a))
    && (forall k :: 0 <= k < |rs| && End(rs[k]) < n ==> !Extends(steps[End(rs[k])].p, a))
  }

  /** Runs come in order, each ending before any later one starts. */
  ghost predicate RunsOrdered(rs: seq<Run>)
  {
    forall k, l :: 0 <= k < l < |rs| ==> End(rs[k]) < rs[l].start
  }

  /** Step j lies in one of the runs. */
  ghost predicate Covered(rs: seq<Run>, j: int)
  {
    exists k :: 0 <= k < |rs| && Within(rs[k], j)
  }

  /** Every step among the first n that extends chain a lies in some run. */
  ghost predicate RunsCover(steps: seq<Step>, n: nat, a: Chain, rs: seq<Run>)
    requires n <= |steps|
  {
    forall j :: 0 <= j < n && Extends(steps[j].p, a) ==> Covered(rs, j)
  }

  /** rs are, in order, the maximal runs of consecutive steps among the first n that extend chain a. */
  ghost predicate MaximalRuns(steps: seq<Step>, n: nat, a: Chain, rs: seq<Run>)
    requires n <= |steps|
  {
    && AllRunsIn(rs, n)
    && RunsInside(steps, a, rs)
    && RunsBounded(steps, n, a, rs)
    && RunsOrdered(rs)
    && RunsCover(steps, n, a, rs)
  }

  /** rs' is rs with its last run, which ends at n, grown by one step. */
  ghost predicate Grown(rs: seq<Run>, rs': seq<Run>, n: nat)
  {
    && |rs'| == |rs| > 0
    && End(rs[|rs| - 1]) == n
    && (forall k :: 0 <= k < |rs| - 1 ==> rs'[k] == rs[k])
    && rs'[|rs| - 1] == Run(rs[|rs| - 1].start, rs[|rs| - 1].len + 1)
  }

  /** rs' is rs, whose runs all end before n, with a new run of step n alone. */
  ghost predicate Opened(rs: seq<Run>, rs': seq<Run>, n: nat)
  {
    && |rs'| == |rs| + 1
    && (forall k :: 0 <= k < |rs| ==> rs'[k] == rs[k] && End(rs[k]) < n)
    && rs'[|rs|] == Run(n, 1)
  }

  /** A step that does not extend the chain leaves the runs as they were. */
  lemma KeepStep(steps: seq<Step>, n: nat, a: Chain)
    requires n < |steps| && !Extends(steps[n].p, a)
    ensures Runs(steps, n + 1, a) == Runs(steps, n, a)
  {
  }

  /** A step that extends the chain right after another one grows the last run by one. */
  lemma GrowStep(steps: seq<Step>, n: nat, a: Chain)
    requires n < |steps| && Extends(steps[n].p, a)
    requires n > 0 && Extends(steps[n - 1].p, a)
    ensures Grown(Runs(steps, n, a), Runs(steps, n + 1, a), n)
  {
  }

  /** A step that extends the chain after one that does not opens a new run of its own. */
  lemma OpenStep(steps: seq<Step>, n: nat, a: Chain)
    requires n < |steps| && Extends(steps[n].p, a)
    requires !(n > 0 && Extends(steps[n - 1].p, a))
    ensures Opened(Runs(steps, n, a), Runs(steps, n + 1, a), n)
  {
  }

  /** Kept runs stay maximal. */
  lemma MaximalKept(steps: seq<Step>, n: nat, a: Chain, rs: seq<Run>)
    requires n < |steps| && !Extends(steps[n].p, a)
    requires MaximalRuns(steps, n, a, rs)
    ensures MaximalRuns(steps, n + 1, a, rs)
  {
  }

  lemma InsideGrown(steps: seq<Step>, n: nat, a: Chain, rs: seq<Run>, rs': seq<Run>)
    requires n < |steps| && Extends(steps[n].p, a)
    requires AllRunsIn(rs, n) && AllRunsIn(rs', n + 1) && Grown(rs, rs', n)
    requires RunsInside(steps, a, rs)
    ensures RunsInside(steps, a, rs')
  {
    forall k, j | 0 <= k < |rs'| && Within(rs'[k], j)
      ensures Extends(steps[j].p, a)
    {
      if j < n {
        assert Within(rs[k], j);
      }
    }
  }

  lemma InsideOpened(steps: seq<Step>, n: nat, a: Chain, rs: seq<Run>, rs': seq<Run>)
    requires n < |steps| && Extends(steps[n].p, a)
    requires AllRunsIn(rs, n) && AllRunsIn(rs', n + 1) && Opened(rs, rs', n)
    requires RunsInside(steps, a, rs)
    ensures RunsInside(steps, a, rs')
  {
    forall k, j | 0 <= k < |rs'| && Within(rs'[k], j)
      ensures Extends(steps[j].p, a)
    {
      if k < |rs| {
        assert Within(rs[k], j);
      }
    }
  }

  lemma BoundedGrown(steps: seq<Step>, n: nat, a: Chain, rs: seq<Run>, rs': seq<Run>)
    requires n < |steps| && Extends(steps[n].p, a)
    requires AllRunsIn(rs, n) && AllRunsIn(rs', n + 1) && Grown(rs, rs', n)
    requires RunsBounded(steps, n, a, rs) && RunsOrdered(rs)
    ensures RunsBounded(steps, n + 1, a, rs')
  {
    forall k | 0 <= k < |rs'| && rs'[k].start > 0
      ensures !Extends(steps[rs'[k].start - 1].p, a)
    {
      assert rs'[k].start == rs[k].start;
    }
    forall k | 0 <= k < |rs'| && End(rs'[k]) < n + 1
      ensures !Extends(steps[End(rs'[k])].p, a)
    {
      assert k < |rs| - 1 && rs'[k] == rs[k] && End(rs[k]) < rs[|rs| - 1].start;
    }
  }

  lemma BoundedOpened(steps: seq<Step>, n: nat, a: Chain, rs: seq<Run>, rs': seq<Run>)
    requires n < |steps| && Extends(steps[n].p, a)
    requires n > 0 ==> !Extends(steps[n - 1].p, a)
    requires AllRunsIn(rs, n) && AllRunsIn(rs', n + 1) && Opened(rs, rs', n)
    requires RunsBounded(steps, n, a, rs)
    ensures RunsBounded(steps, n + 1, a, rs')
  {
    forall k | 0 <= k < |rs'| && End(rs'[k]) < n + 1
      ensures !Extends(steps[End(rs'[k])].p, a)
    {
      assert k < |rs| && rs'[k] == rs[k];
    }
  }

  lemma OrderedGrown(rs: seq<Run>, rs': seq<Run>, n: nat)
    requires AllRunsIn(rs, n) && Grown(rs, rs', n) && RunsOrdered(rs)
    ensures RunsOrdered(rs')
  {
    forall k, l | 0 <= k < l < |rs'|
      ensures End(rs'[k]) < rs'[l].start
    {
      assert rs'[k] == rs[k] && rs'[l].start == rs[l].start;
    }
  }

  lemma OrderedOpened(rs: seq<Run>, rs': seq<Run>, n: nat)
    requires Opened(rs, rs', n) && RunsOrdered(rs)
    ensures RunsOrdered(rs')
  {
    forall k, l | 0 <= k < l < |rs'|
      ensures End(rs'[k]) < rs'[l].start
    {
      assert rs'[k] == rs[k];
    }
  }

  lemma CoverGrown(steps: seq<Step>, n: nat, a: Chain, rs: seq<Run>, rs': seq<Run>)
    requires n < |steps|
    requires Grown(rs, rs', n) && RunsCover(steps, n, a, rs)
    ensures RunsCover(steps, n + 1, a, rs')
  {
    forall j | 0 <= j < n + 1 && Extends(steps[j].p, a)
      ensures Covered(rs', j)
    {
      if j == n {
        assert Within(rs'[|rs| - 1], j);
      } else {
        var k :| 0 <= k < |rs| && Within(rs[k], j);
        assert Within(rs'[k], j);
      }
    }
  }

  lemma CoverOpened(steps: seq<Step>, n: nat, a: Chain, rs: seq<Run>, rs': seq<Run>)
    requires n < |steps|
    requires Opened(rs, rs', n) && RunsCover(steps, n, a, rs)
    ensures RunsCover(steps, n + 1, a, rs')
  {
    forall j | 0 <= j < n + 1 && Extends(steps[j].p, a)
      ensures Covered(rs', j)
    {
      if j == n {
        assert Within(rs'[|rs|], j);
      } else {
        var k :| 0 <= k < |rs| && Within(rs[k], j);
        assert Within(rs'[k], j);
      }
    }
  }

  /** The runs the automaton finds are, in order, exactly the maximal runs of the chain. */
  lemma {:induction false} RunsMaximal(steps: seq<Step>, n: nat, a: Chain)
    requires n <= |steps|
    ensures MaximalRuns(steps, n, a, Runs(steps, n, a))
  {
    if n > 0 {
      RunsMaximal(steps, n - 1, a);
      if !Extends(steps[n - 1].p, a) {
        MaximalAfterKeep(steps, n, a);
      } else if n > 1 && Extends(steps[n - 2].p, a) {
        MaximalAfterGrow(steps, n, a);
      } else {
        MaximalAfterOpen(steps, n, a);
      }
    }
  }

  /** A step outside the chain keeps the runs maximal. */
  lemma MaximalAfterKeep(steps: seq<Step>, n: nat, a: Chain)
    requires 0 < n <= |steps| && !Extends(steps[n - 1].p, a)
    requires MaximalRuns(steps, n - 1, a, Runs(steps, n - 1, a))
    ensures MaximalRuns(steps, n, a, Runs(steps, n, a))
  {
    KeepStep(steps, n - 1, a);
    MaximalKept(steps, n - 1, a, Runs(steps, n - 1, a));
  }

  /** A chain step right after another grows the last run and keeps the runs maximal. */
  lemma MaximalAfterGrow(steps: seq<Step>, n: nat, a: Chain)
    requires 1 < n <= |steps| && Extends(steps[n - 1].p, a) && Extends(steps[n - 2].p, a)
    requires MaximalRuns(steps, n - 1, a, Runs(steps, n - 1, a))
    ensures MaximalRuns(steps, n, a, Runs(steps, n, a))
  {
    var rs, rs' := Runs(steps, n - 1, a), Runs(steps, n, a);
    GrowStep(steps, n - 1, a);
    InsideGrown(steps, n - 1, a, rs, rs');
    BoundedGrown(steps, n - 1, a, rs, rs');
    OrderedGrown(rs, rs', n - 1);
    CoverGrown(steps, n - 1, a, rs, rs');
  }

  /** A chain step after a step outside the chain (or first) opens a run and keeps the runs maximal. */
  lemma MaximalAfterOpen(steps: seq<Step>, n: nat, a: Chain)
    requires 0 < n <= |steps| && Extends(steps[n - 1].p, a) && !(n > 1 && Extends(steps[n - 2].p, a))
    requires MaximalRuns(steps, n - 1, a, Runs(steps, n - 1, a))
    ensures MaximalRuns(steps, n, a, Runs(steps, n, a))
  {
    var rs, rs' := Runs(steps, n - 1, a), Runs(steps, n, a);
    OpenStep(steps, n - 1, a);
    InsideOpened(steps, n - 1, a, rs, rs');
    BoundedOpened(steps, n - 1, a, rs, rs');
    OrderedOpened(rs, rs', n - 1);
    CoverOpened(steps, n - 1, a, rs, rs');
  }

  // -------------------------------------------------------------- segments

  /** What each combo segment of a list of runs holds. */
  lemma CombosMeaning(steps: seq<Step>, rs: seq<Run>)
    requires AllRunsIn(rs, |steps|)
    ensures forall k :: 0 <= k < |rs| ==>
      var s := CombosOf(steps, rs)[k];
      && s.blocks == rs[k].len >= 1
      && s.attack == Total(steps, rs[k].start, End(rs[k]), Plain(Damage))
      && s.frames == Total(steps, rs[k].start + 1, End(rs[k]), Plain(Frames))
      && |s.multipliers| <= 1
  {
    forall k | 0 <= k < |rs|
      ensures var s := ComboOf(steps, rs[k]);
        && s.attack == Total(steps, rs[k].start, End(rs[k]), Plain(Damage))
        && s.frames == Total(steps, rs[k].start + 1, End(rs[k]), Plain(Frames))
    {
      ComboOfMeaning(steps, rs[k]);
    }
  }

  /** What each back-to-back segment of a list of runs holds. */
  lemma BtbsMeaning(steps: seq<Step>, rs: seq<Run>)
    requires AllRunsIn(rs, |steps|)
    ensures forall k :: 0 <= k < |rs| ==>
      var s := BtbsOf(steps, rs)[k];
      && s.blocks == rs[k].len
      && s.attack == Total(steps, rs[k].start, End(rs[k]), Plain(Damage))
      && SoundBtb(s)
  {
    forall k | 0 <= k < |rs|
      ensures BtbOf(steps, rs[k]).attack == Total(steps, rs[k].start, End(rs[k]), Plain(Damage))
    {
      BtbOfTotals(steps, rs[k]);
    }
  }

  /**
   * The combo segments of a game's bundle are, one to one and in order, the
   * maximal runs of line-clearing placements; each spans its run's blocks,
   * holds the run's damage and the delays after its first placement, and at
   * most one multiplier.
   */
  lemma CombosAreMaximalRuns(steps: seq<Step>)
    ensures var rs := Runs(steps, |steps|, ComboChain);
      && MaximalRuns(steps, |steps|, ComboChain, rs)
      && |StatsOf(steps).comboSegments| == |rs|
      && forall k :: 0 <= k < |rs| ==>
           var s := StatsOf(steps).comboSegments[k];
           && s.blocks == rs[k].len >= 1
           && s.attack == Total(steps, rs[k].start, End(rs[k]), Plain(Damage))
           && s.frames == Total(steps, rs[k].start + 1, End(rs[k]), Plain(Frames))
           && |s.multipliers| <= 1
  {
    var rs := Runs(steps, |steps|, ComboChain);
    RunsMaximal(steps, |steps|, ComboChain);
    CombosMeaning(steps, rs);
    assert StatsOf(steps).comboSegments == CombosOf(steps, rs);
  }

  /**
   * The back-to-back segments of a game's bundle are, one to one and in
   * order, the maximal runs of placements that clear nothing or clear
   * back-to-back; each spans its run's blocks, holds the run's damage, and
   * obeys the segment bounds.
   */
  lemma BtbsAreMaximalRuns(steps: seq<Step>)
    ensures var rs := Runs(steps, |steps|, BtbChain);
      && MaximalRuns(steps, |steps|, BtbChain, rs)
      && |StatsOf(steps).btbSegments| == |rs|
      && forall k :: 0 <= k < |rs| ==>
           var s := StatsOf(steps).btbSegments[k];
           && s.blocks == rs[k].len
           && s.attack == Total(steps, rs[k].start, End(rs[k]), Plain(Damage))
           && SoundBtb(s)
  {
    RunsMaximal(steps, |steps|, BtbChain);
    BtbsMeaning(steps, Runs(steps, |steps|, BtbChain));
  }

  /** Every segment of a game's bundle satisfies the segment bounds, and the counter arrays have their sizes. */
  lemma StatsSound(steps: seq<Step>)
    ensures Sound(StatsOf(steps))
  {
    var b := StatsOf(steps);
    forall k | 0 <= k < |b.comboSegments|
      ensures SoundCombo(b.comboSegments[k])
    {
    }
    forall k | 0 <= k < |b.btbSegments|
      ensures SoundBtb(b.btbSegments[k])
    {
    }
  }

  // ---------------------------------------------------------------- series

  /**
   * The series of the bundle of analysed steps: one delay, stack height and
   * garbage height per placement, in order, the stack height being the
   * height less the garbage height; every recorded scorer result is positive.
   */
  lemma StatsSeries(steps: seq<Step>)
    ensures var b := StatsOf(steps);
      && |b.delays| == |b.stackHeights| == |b.garbageHeights| == |steps|
      && |b.attackPotentials| == |b.defensePotentials| == |steps|
      && (forall j :: 0 <= j < |steps| ==> b.delays[j] == steps[j].p.frameDelay)
      && (forall j :: 0 <= j < |steps| ==> b.garbageHeights[j] == steps[j].facts.garbageHeight)
      && (forall j :: 0 <= j < |steps| ==> b.stackHeights[j] + b.garbageHeights[j] == steps[j].facts.height)
      && |b.blockfishScores| <= |steps|
      && (forall k :: 0 <= k < |b.blockfishScores| ==> b.blockfishScores[k] > 0)
  {
  }

  /** The same for a game: the heights are those of the boards the placements leave. */
  lemma GameSeries(game: seq<Placement>, o: Oracles)
    requires AllFeedable(game)
    ensures var b := GameStats(game, o);
      && |b.delays| == |b.stackHeights| == |b.garbageHeights| == |game|
      && (forall j :: 0 <= j < |game| ==> b.delays[j] == game[j].frameDelay)
      && (forall j :: 0 <= j < |game| ==> b.garbageHeights[j] == GarbageHeight(game[j].board))
      && (forall j :: 0 <= j < |game| ==> b.stackHeights[j] + b.garbageHeights[j] == Height(game[j].board))
  {
    StatsSeries(Analyzed(game, o));
  }
}
