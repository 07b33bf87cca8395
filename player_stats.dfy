/**
 * The integer-valued part of the per-player summary computed from a
 * bundle: the clear-kind table, the T-spin total, the longest chains and
 * biggest spikes, and the filters that keep only the "true" chains.
 */
module PlayerStats {
  import opened Basics
  import opened ReplayResponse
  import opened PlacementStats

  /** The integer fields of `PlayerStats`. */
  datatype PlayerInts = PlayerInts(
    clearTypes: map<ClearType, nat>,
    btbWellshifts: nat,
    maxBtb: nat,
    maxBtbAttack: nat,
    maxCombo: nat,
    maxComboAttack: nat)

  // ------------------------------------------------------ clear-kind table

  /** The `for clear_type in 0..16` loop: one entry per clear kind, holding its counter. */
  method ClearTypeTable(counters: seq<nat>) returns (table: map<ClearType, nat>)
    requires |counters| == CLEAR_KINDS
    ensures forall c: ClearType :: c in table && table[c] == counters[ClearIndex(c)]
  {
    table := map[];
    for k := 0 to CLEAR_KINDS
      invariant forall c: ClearType :: c in table <==> ClearIndex(c) < k
      invariant forall c: ClearType :: c in table ==> table[c] == counters[ClearIndex(c)]
    {
      table := table[ClearAt(k) := counters[k]];
    }
  }

  // --------------------------------------------------------------- T-spins

  /** The T-spin clears that remove lines; zero-line T-spins are not counted. */
  function Tspins(b: Bundle): (t: nat)
    requires WellFormed(b)
  {
    var c := b.clearTypes;
    c[ClearIndex(TspinDouble)] + c[ClearIndex(TspinMiniDouble)] + c[ClearIndex(TspinSingle)]
      + c[ClearIndex(TspinMiniSingle)] + c[ClearIndex(TspinTriple)] + c[ClearIndex(TspinQuad)]
      + c[ClearIndex(TspinPenta)]
  }

  /** The T-spin total never exceeds the number of placements counted by clear kind. */
  lemma TspinsAtMostClears(b: Bundle)
    requires WellFormed(b)
    ensures Tspins(b) <= Sum(b.clearTypes)
  {
    var s0 := b.clearTypes;
    var s1 := s0[ClearIndex(TspinDouble) := 0];
    var s2 := s1[ClearIndex(TspinMiniDouble) := 0];
    var s3 := s2[ClearIndex(TspinSingle) := 0];
    var s4 := s3[ClearIndex(TspinMiniSingle) := 0];
    var s5 := s4[ClearIndex(TspinTriple) := 0];
    var s6 := s5[ClearIndex(TspinQuad) := 0];
    SumDrop(s0, ClearIndex(TspinDouble));
    SumDrop(s1, ClearIndex(TspinMiniDouble));
    SumDrop(s2, ClearIndex(TspinSingle));
    SumDrop(s3, ClearIndex(TspinMiniSingle));
    SumDrop(s4, ClearIndex(TspinTriple));
    SumDrop(s5, ClearIndex(TspinQuad));
    SumDrop(s6, ClearIndex(TspinPenta));
  }

  // ---------------------------------------------------------------- maxima

  /** `.max().unwrap_or(0)`. */
  function MaxOr0(s: seq<nat>): (m: nat)
    ensures forall k :: 0 <= k < |s| ==> s[k] <= m
    ensures s == [] ==> m == 0
    ensures s != [] ==> exists k :: 0 <= k < |s| && s[k] == m
  {
    if s == [] then 0
    else
      var m := MaxOr0(s[..|s| - 1]);
      if s[|s| - 1] > m then s[|s| - 1] else m
  }

  function BtbCounts(segs: seq<BtbSegment>): (r: seq<nat>)
    ensures |r| == |segs| && forall k :: 0 <= k < |segs| ==> r[k] == segs[k].btb
  {
    seq(|segs|, k requires 0 <= k < |segs| => segs[k].btb)
  }

  function BtbAttacks(segs: seq<BtbSegment>): (r: seq<nat>)
    ensures |r| == |segs| && forall k :: 0 <= k < |segs| ==> r[k] == segs[k].attack
  {
    seq(|segs|, k requires 0 <= k < |segs| => segs[k].attack)
  }

  /** The length of each combo beyond its opening placement: `blocks - 1`, which needs `blocks >= 1`. */
  function ComboLengths(segs: seq<ComboSegment>): (r: seq<nat>)
    requires forall k :: 0 <= k < |segs| ==> segs[k].blocks >= 1
    ensures |r| == |segs| && forall k :: 0 <= k < |segs| ==> r[k] + 1 == segs[k].blocks
  {
    seq(|segs|, k requires 0 <= k < |segs| => segs[k].blocks - 1)
  }

  function ComboAttacks(segs: seq<ComboSegment>): (r: seq<nat>)
    ensures |r| == |segs| && forall k :: 0 <= k < |segs| ==> r[k] == segs[k].attack
  {
    seq(|segs|, k requires 0 <= k < |segs| => segs[k].attack)
  }

  // ------------------------------------------------------------ true chains

  /**
   * Combo segments of more than four placements, in order.
   * `TrueCombosCount` gives the members and their multiplicities and
   * `TrueCombosAppend` the order: the filter of a concatenation is the
   * concatenation of the filters.
   */
  function TrueCombos(segs: seq<ComboSegment>): (r: seq<ComboSegment>)
    ensures |r| <= |segs|
    ensures |segs| == 1 ==> r == if segs[0].blocks > 4 then segs else []
  {
    if segs == [] then []
    else
      var last := segs[|segs| - 1];
      assert segs == segs[..|segs| - 1] + [last];
      TrueCombos(segs[..|segs| - 1]) + (if last.blocks > 4 then [last] else [])
  }

  /**
   * Back-to-back segments that kept the chain at least four times, in
   * order. `TrueBtbsCount` gives the members and their multiplicities
   * and `TrueBtbsAppend` the order.
   */
  function TrueBtbs(segs: seq<BtbSegment>): (r: seq<BtbSegment>)
    ensures |r| <= |segs|
    ensures |segs| == 1 ==> r == if segs[0].btb >= 4 then segs else []
  {
    if segs == [] then []
    else
      var last := segs[|segs| - 1];
      assert segs == segs[..|segs| - 1] + [last];
      TrueBtbs(segs[..|segs| - 1]) + (if last.btb >= 4 then [last] else [])
  }

  /** One more segment is kept at the end exactly when it qualifies. */
  lemma TrueCombosSnoc(init: seq<ComboSegment>, last: ComboSegment)
    ensures TrueCombos(init + [last]) == TrueCombos(init) + (if last.blocks > 4 then [last] else [])
  {
    var s := init + [last];
    assert s[..|s| - 1] == init && s[|s| - 1] == last;
  }

  /** Filtering a concatenation keeps the two parts' true combos in order. */
  lemma {:induction false} TrueCombosAppend(a: seq<ComboSegment>, b: seq<ComboSegment>)
    ensures TrueCombos(a + b) == TrueCombos(a) + TrueCombos(b)
    decreases |b|
  {
    if b == [] {
      assert a + b == a;
    } else {
      var init, last := b[..|b| - 1], b[|b| - 1];
      assert b == init + [last];
      assert a + b == (a + init) + [last];
      var tail := if last.blocks > 4 then [last] else [];
      var x, y := TrueCombos(a), TrueCombos(init);
      TrueCombosSnoc(init, last);
      TrueCombosSnoc(a + init, last);
      TrueCombosAppend(a, init);
      assert TrueCombos(a + b) == (x + y) + tail;
      assert (x + y) + tail == x + (y + tail);
    }
  }

  /** One more segment is kept at the end exactly when it qualifies. */
  lemma TrueBtbsSnoc(init: seq<BtbSegment>, last: BtbSegment)
    ensures TrueBtbs(init + [last]) == TrueBtbs(init) + (if last.btb >= 4 then [last] else [])
  {
    var s := init + [last];
    assert s[..|s| - 1] == init && s[|s| - 1] == last;
  }

  /** Filtering a concatenation keeps the two parts' true back-to-back chains in order. */
  lemma {:induction false} TrueBtbsAppend(a: seq<BtbSegment>, b: seq<BtbSegment>)
    ensures TrueBtbs(a + b) == TrueBtbs(a) + TrueBtbs(b)
    decreases |b|
  {
    if b == [] {
      assert a + b == a;
    } else {
      var init, last := b[..|b| - 1], b[|b| - 1];
      assert b == init + [last];
      assert a + b == (a + init) + [last];
      var tail := if last.btb >= 4 then [last] else [];
      var x, y := TrueBtbs(a), TrueBtbs(init);
      TrueBtbsSnoc(init, last);
      TrueBtbsSnoc(a + init, last);
      TrueBtbsAppend(a, init);
      assert TrueBtbs(a + b) == (x + y) + tail;
      assert (x + y) + tail == x + (y + tail);
    }
  }

  /** Each combo segment of more than four placements is kept as often as it occurs; no other is kept. */
  lemma {:induction false} TrueCombosCount(segs: seq<ComboSegment>)
    ensures forall s :: multiset(TrueCombos(segs))[s] == if s.blocks > 4 then multiset(segs)[s] else 0
    ensures forall s :: s in TrueCombos(segs) <==> s in segs && s.blocks > 4
  {
    if segs != [] {
      var init, last := segs[..|segs| - 1], segs[|segs| - 1];
      TrueCombosCount(init);
      assert segs == init + [last];
      assert multiset(segs) == multiset(init) + multiset{last};
    }
  }

  /** Each back-to-back segment with at least four kept clears is kept as often as it occurs; no other is kept. */
  lemma {:induction false} TrueBtbsCount(segs: seq<BtbSegment>)
    ensures forall s :: multiset(TrueBtbs(segs))[s] == if s.btb >= 4 then multiset(segs)[s] else 0
    ensures forall s :: s in TrueBtbs(segs) <==> s in segs && s.btb >= 4
  {
    if segs != [] {
      var init, last := segs[..|segs| - 1], segs[|segs| - 1];
      TrueBtbsCount(init);
      assert segs == init + [last];
      assert multiset(segs) == multiset(init) + multiset{last};
    }
  }

  function Wellshifts(segs: seq<BtbSegment>): nat
  {
    if segs == [] then 0 else Wellshifts(segs[..|segs| - 1]) + segs[|segs| - 1].wellshifts
  }

  function ComboBlocks(segs: seq<ComboSegment>): nat
  {
    if segs == [] then 0 else ComboBlocks(segs[..|segs| - 1]) + segs[|segs| - 1].blocks
  }

  function ComboAttack(segs: seq<ComboSegment>): nat
  {
    if segs == [] then 0 else ComboAttack(segs[..|segs| - 1]) + segs[|segs| - 1].attack
  }

  /** The well shifts of the true back-to-back chains are part of all well shifts. */
  lemma {:induction false} TrueBtbWellshifts(segs: seq<BtbSegment>)
    ensures Wellshifts(TrueBtbs(segs)) <= Wellshifts(segs)
    ensures (forall k :: 0 <= k < |segs| ==> segs[k].btb < 4) ==> Wellshifts(TrueBtbs(segs)) == 0
  {
    if segs != [] {
      var init, last := segs[..|segs| - 1], segs[|segs| - 1];
      TrueBtbWellshifts(init);
      var t := TrueBtbs(init);
      if last.btb >= 4 {
        assert TrueBtbs(segs)[..|TrueBtbs(segs)| - 1] == t;
      } else {
        assert TrueBtbs(segs) == t;
      }
    }
  }

  /** The blocks and attack of the true combo chains are part of those of all combos. */
  lemma {:induction false} TrueComboTotals(segs: seq<ComboSegment>)
    ensures ComboBlocks(TrueCombos(segs)) <= ComboBlocks(segs)
    ensures ComboAttack(TrueCombos(segs)) <= ComboAttack(segs)
    ensures ComboBlocks(TrueCombos(segs)) >= 5 * |TrueCombos(segs)|
  {
    if segs != [] {
      var init, last := segs[..|segs| - 1], segs[|segs| - 1];
      TrueComboTotals(init);
      var t := TrueCombos(init);
      if last.blocks > 4 {
        assert TrueCombos(segs)[..|TrueCombos(segs)| - 1] == t;
      } else {
        assert TrueCombos(segs) == t;
      }
    }
  }

  // ------------------------------------------------------------ the summary

  /** Whether every combo segment has at least its opening placement, so `blocks - 1` cannot underflow. */
  predicate CombosOpened(b: Bundle)
  {
    forall k :: 0 <= k < |b.comboSegments| ==> b.comboSegments[k].blocks >= 1
  }

  /**
   * What the integer fields of `PlayerStats::from` hold for a bundle: the
   * clear-kind table, the well shifts of the true back-to-back chains, and
   * the maxima over the back-to-back and combo segments (0 when there are
   * none), each attained by some segment.
   */
  predicate Summarises(r: PlayerInts, b: Bundle)
    requires WellFormed(b)
  {
    && (forall c: ClearType :: c in r.clearTypes && r.clearTypes[c] == b.clearTypes[ClearIndex(c)])
    && r.btbWellshifts == Wellshifts(TrueBtbs(b.btbSegments))
    && (forall k :: 0 <= k < |b.btbSegments| ==>
          b.btbSegments[k].btb <= r.maxBtb && b.btbSegments[k].attack <= r.maxBtbAttack)
    && (forall k :: 0 <= k < |b.comboSegments| ==>
          b.comboSegments[k].blocks <= r.maxCombo + 1 && b.comboSegments[k].attack <= r.maxComboAttack)
    && (b.btbSegments == [] ==> r.maxBtb == 0 && r.maxBtbAttack == 0)
    && (b.btbSegments != [] ==> exists k :: 0 <= k < |b.btbSegments| && b.btbSegments[k].btb == r.maxBtb)
    && (b.btbSegments != [] ==> exists k :: 0 <= k < |b.btbSegments| && b.btbSegments[k].attack == r.maxBtbAttack)
    && (b.comboSegments == [] ==> r.maxCombo == 0 && r.maxComboAttack == 0)
    && (b.comboSegments != [] ==> exists k :: 0 <= k < |b.comboSegments| && b.comboSegments[k].blocks == r.maxCombo + 1)
    && (b.comboSegments != [] ==> exists k :: 0 <= k < |b.comboSegments| && b.comboSegments[k].attack == r.maxComboAttack)
  }

  /** The integer fields of `PlayerStats::from`. */
  method FromBundle(b: Bundle) returns (r: PlayerInts)
    requires WellFormed(b) && CombosOpened(b)
    ensures Summarises(r, b)
  {
    var table := ClearTypeTable(b.clearTypes);
    r := PlayerInts(
      table,
      Wellshifts(TrueBtbs(b.btbSegments)),
      MaxOr0(BtbCounts(b.btbSegments)),
      MaxOr0(BtbAttacks(b.btbSegments)),
      MaxOr0(ComboLengths(b.comboSegments)),
      MaxOr0(ComboAttacks(b.comboSegments)));
  }

  /**
   * `stats.attack - stats.opener_attack`, the unsigned subtraction behind the
   * midgame attack rate; it needs the opener's attack to be part of the total.
   */
  function MidgameAttack(b: Bundle): (m: nat)
    requires b.openerAttack <= b.attack
  {
    b.attack - b.openerAttack
  }

  /** Absorbing keeps the opener's attack within the total, so the subtraction stays defined after merges. */
  lemma MergeKeepsOpenerWithin(a: Bundle, b: Bundle)
    requires WellFormed(a) && WellFormed(b)
    requires a.openerAttack <= a.attack && b.openerAttack <= b.attack
    ensures Merge(a, b).openerAttack <= Merge(a, b).attack
    ensures MidgameAttack(Merge(a, b)) == MidgameAttack(a) + MidgameAttack(b)
  {
  }
}
