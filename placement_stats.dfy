/**
 * The per-game statistics bundle, its merge operator, and the single pass
 * over a game's placements that builds it.
 *
 * The pass is the method `FromGame`; what it computes is defined
 * declaratively by `GameStats`: every counter is a total over the game of a
 * per-placement amount (`Amount`, `Total`), every series has one sample per
 * placement, and the combo and back-to-back segments correspond to the
 * maximal runs (`Runs`) of placements that keep the chain going.
 */
module PlacementStats {
  import opened Basics
  import opened ReplayResponse
  import opened BoardAnalyzer

  // ------------------------------------------------------------- segments

  datatype BtbSegment = BtbSegment(
    frames: nat, attack: nat, btb: nat, blocks: nat, wellshifts: nat,
    wastedI: nat, wastedT: nat, iPlaced: nat, tPlaced: nat, well: Option<nat>)

  datatype ComboSegment = ComboSegment(
    frames: nat, attack: nat, blocks: nat, multipliers: seq<nat>,
    initialDelay: nat, prevDelay: Option<nat>)

  /** The bounds every back-to-back segment satisfies. */
  predicate SoundBtb(s: BtbSegment)
  {
    && s.blocks >= 1
    && s.btb + s.wastedI + s.wastedT <= s.blocks - 1
    && s.wellshifts <= s.blocks - 1
    && s.iPlaced + s.tPlaced <= s.blocks
  }

  /** The bounds every combo segment satisfies. */
  predicate SoundCombo(s: ComboSegment)
  {
    s.blocks >= 1 && |s.multipliers| <= 1
  }

  /** `BTBSegment::new`: a one-block segment holding the opening placement. */
  function NewBtbSegment(startingAttack: nat, shape: Mino, well: Option<nat>): (s: BtbSegment)
    ensures SoundBtb(s) && s.blocks == 1 && s.attack == startingAttack && s.well == well
    ensures s.iPlaced == (if shape == I then 1 else 0) && s.tPlaced == (if shape == T then 1 else 0)
  {
    BtbSegment(0, startingAttack, 0, 1, 0, 0, 0, if shape == I then 1 else 0, if shape == T then 1 else 0, well)
  }

  /** `ComboSegment::new`: a one-block segment; a multipliable opening clear records one multiplier. */
  function NewComboSegment(startingAttack: nat, isMultiplier: bool, initialDelay: nat, prevDelay: Option<nat>): (s: ComboSegment)
    ensures SoundCombo(s) && s.blocks == 1 && s.attack == startingAttack && s.frames == 0
    ensures |s.multipliers| == (if isMultiplier then 1 else 0)
  {
    ComboSegment(0, startingAttack, 1, if isMultiplier then [0] else [], initialDelay, prevDelay)
  }

  // --------------------------------------------------------------- bundle

  /** `CumulativePlacementStats` as a value. Frame counts are whole frames. */
  datatype Bundle = Bundle(
    clearTypes: seq<nat>,
    shapeTypes: seq<nat>,
    garbageCleared: nat,
    linesCleared: nat,
    attack: nat,
    attackWithGarbage: nat,
    exclusiveGarbageCleared: nat,
    attackWithStack: nat,
    exclusiveStackCleared: nat,
    attackWithCheese: nat,
    exclusiveCheeseCleared: nat,
    delays: seq<nat>,
    stackHeights: seq<nat>,
    garbageHeights: seq<nat>,
    btbSegments: seq<BtbSegment>,
    comboSegments: seq<ComboSegment>,
    keypresses: nat,
    openerAttack: nat,
    openerFrames: nat,
    openerBlocks: nat,
    defensePotentials: seq<nat>,
    attackPotentials: seq<nat>,
    blockfishScores: seq<nat>)

  /** The two counter arrays have their fixed sizes. */
  predicate WellFormed(b: Bundle)
  {
    |b.clearTypes| == CLEAR_KINDS && |b.shapeTypes| == MINO_KINDS
  }

  /** Well-formed, and every segment it holds satisfies the segment bounds. */
  predicate Sound(b: Bundle)
  {
    && WellFormed(b)
    && (forall k :: 0 <= k < |b.btbSegments| ==> SoundBtb(b.btbSegments[k]))
    && (forall k :: 0 <= k < |b.comboSegments| ==> SoundCombo(b.comboSegments[k]))
  }

  function Zeros(n: nat): (z: seq<nat>)
    ensures |z| == n && forall k :: 0 <= k < n ==> z[k] == 0
  {
    seq(n, _ => 0)
  }

  /** `Default::default()`: all counters zero, all lists empty. */
  function DefaultBundle(): (z: Bundle)
    ensures Sound(z)
  {
    Bundle(Zeros(CLEAR_KINDS), Zeros(MINO_KINDS), 0, 0, 0, 0, 0, 0, 0, 0, 0,
           [], [], [], [], [], 0, 0, 0, 0, [], [], [])
  }

  function AddPointwise(a: seq<nat>, b: seq<nat>): (r: seq<nat>)
    requires |a| == |b|
    ensures |r| == |a| && forall k :: 0 <= k < |a| ==> r[k] == a[k] + b[k]
  {
    seq(|a|, k requires 0 <= k < |a| => a[k] + b[k])
  }

  /**
   * `absorb` as a function of the two operands: counters add element-wise,
   * list fields are the first operand's list followed by the second's.
   */
  function Merge(a: Bundle, b: Bundle): (r: Bundle)
    requires WellFormed(a) && WellFormed(b)
    ensures WellFormed(r)
  {
    Bundle(
      AddPointwise(a.clearTypes, b.clearTypes),
      AddPointwise(a.shapeTypes, b.shapeTypes),
      a.garbageCleared + b.garbageCleared,
      a.linesCleared + b.linesCleared,
      a.attack + b.attack,
      a.attackWithGarbage + b.attackWithGarbage,
      a.exclusiveGarbageCleared + b.exclusiveGarbageCleared,
      a.attackWithStack + b.attackWithStack,
      a.exclusiveStackCleared + b.exclusiveStackCleared,
      a.attackWithCheese + b.attackWithCheese,
      a.exclusiveCheeseCleared + b.exclusiveCheeseCleared,
      a.delays + b.delays,
      a.stackHeights + b.stackHeights,
      a.garbageHeights + b.garbageHeights,
      a.btbSegments + b.btbSegments,
      a.comboSegments + b.comboSegments,
      a.keypresses + b.keypresses,
      a.openerAttack + b.openerAttack,
      a.openerFrames + b.openerFrames,
      a.openerBlocks + b.openerBlocks,
      a.defensePotentials + b.defensePotentials,
      a.attackPotentials + b.attackPotentials,
      a.blockfishScores + b.blockfishScores)
  }

  // ---------------------------------------------------- external scorers

  /**
   * The collaborators the pass consults but that are not part of this model:
   * `ClearType::is_multipliable`, the potential solver `solve_state`
   * (returning attack then defense potential) and the move-suggestion scorer,
   * given the hold piece, the rest of the queue and the occupied cells above the garbage.
   */
  datatype Oracles = Oracles(
    multipliable: ClearType -> bool,
    solve: (Board, nat, nat, seq<Mino>) -> (nat, nat),
    blockfish: (Mino, seq<Mino>, set<(nat, nat)>) -> int)

  // ------------------------------------------- per-placement definitions

  /** What the board analyzer reports about a board. */
  datatype BoardFacts = BoardFacts(height: nat, garbageHeight: nat, well: nat, cheese: bool)

  /** Facts that can come from one board: garbage never stands higher than the stack. */
  type Facts = f: BoardFacts | f.garbageHeight <= f.height witness BoardFacts(0, 0, 0, false)

  function FactsOf(b: Board): (f: Facts)
    ensures f.height == Height(b) && f.garbageHeight == GarbageHeight(b)
  {
    GarbageHeightAtMostHeight(b);
    BoardFacts(Height(b), GarbageHeight(b), Well(b), Cheese(b))
  }

  /**
   * A placement together with everything the pass derives from it alone:
   * its damage (the sum of its attack entries), the facts about the board it
   * leaves, whether its clear is multipliable, the solver's attack and
   * defense potentials and the scorer's result.
   */
  datatype Step = Step(
    p: Placement, damage: nat, facts: Facts, multipliable: bool,
    attackPotential: nat, defensePotential: nat, score: int)

  function Analyze(p: Placement, o: Oracles): (s: Step)
    requires Feedable(p)
    ensures s.p == p && s.facts.height == Height(p.board) && s.facts.garbageHeight == GarbageHeight(p.board)
  {
    var q := ScorerQueue(p.queue);
    var potentials := o.solve(p.board, p.btbChain, p.combo, p.queue);
    Step(p, Sum(p.attack), FactsOf(p.board), o.multipliable(p.clearType),
         potentials.0, potentials.1, o.blockfish(q[0], q[1..], Matrix(p.board, GarbageHeight(p.board))))
  }

  /**
   * The scorer's view of a board: the occupied cells above the bottom g rows,
   * as (row, column) pairs with row 0 the lowest row handed over.
   */
  function Matrix(b: Board, g: nat): (m: set<(nat, nat)>)
    requires g < ROWS
  {
    set r: nat, x: nat | r < ROWS - g && x < COLUMNS && Cell(b, x, ROWS - 1 - g - r) != Empty :: (r, x)
  }

  /** Each placement of a game with what the pass derives from it. */
  function Analyzed(game: seq<Placement>, o: Oracles): (steps: seq<Step>)
    requires AllFeedable(game)
    ensures |steps| == |game|
    ensures forall j :: 0 <= j < |game| ==> steps[j].p == game[j] && steps[j] == Analyze(game[j], o)
  {
    seq(|game|, j requires 0 <= j < |game| => Analyze(game[j], o))
  }

  /** The clear kind counted for a step: an empty board after the placement makes it a perfect clear. */
  function ClassOf(s: Step): ClearType
  {
    if s.facts.height == 0 then PerfectClear else s.p.clearType
  }

  /** Whether p ends the opener: it clears garbage, as a non-back-to-back T piece or a sub-quad non-T clear. */
  predicate EndsOpener(p: Placement)
  {
    p.garbageCleared > 0 && ((p.shape == T && !p.btbClear) || (p.shape != T && p.linesCleared < 4))
  }

  /** The well recorded for a back-to-back segment: the lowest column, absent for an empty board. */
  function WellOf(s: Step): Option<nat>
  {
    if s.facts.height > 0 then Some(s.facts.well) else None
  }

  /** Step j clears garbage right after a board with cheese (never the first placement). */
  predicate AteCheese(steps: seq<Step>, j: nat)
    requires j < |steps|
  {
    j != 0 && steps[j].p.garbageCleared > 0 && steps[j - 1].facts.cheese
  }

  /** The pieces of a queue (cells that are not pieces have no colour for the scorer). */
  function Pieces(queue: seq<Mino>): (r: seq<Mino>)
    ensures |r| <= |queue|
    ensures forall k :: 0 <= k < |r| ==> IsPiece(r[k])
  {
    if queue == [] then []
    else (if IsPiece(queue[0]) then [queue[0]] else []) + Pieces(queue[1..])
  }

  /** The scorer's queue: the first five pieces; its first element becomes the hold piece. */
  function ScorerQueue(queue: seq<Mino>): (r: seq<Mino>)
    ensures |r| <= 5 && r <= Pieces(queue) && (|r| < 5 ==> r == Pieces(queue))
  {
    var ps := Pieces(queue);
    if |ps| <= 5 then ps else ps[..5]
  }

  /** The scorer's `bf_queue.remove(0)` needs at least one piece in the queue. */
  predicate Feedable(p: Placement)
  {
    Pieces(p.queue) != []
  }

  predicate AllFeedable(game: seq<Placement>)
  {
    forall j :: 0 <= j < |game| ==> Feedable(game[j])
  }

  // ------------------------------------------------ totals over ranges

  /** Plain per-placement fields that the pass adds up. */
  datatype Field = GarbageLines | Lines | Damage | Keys | Frames

  /** Damage and lines attributed to clearing garbage, the player's own stack, or cheese. */
  datatype Attribution =
    | DamageWithGarbage | GarbageExclusive | DamageWithStack | StackExclusive
    | DamageWithCheese | CheeseExclusive

  /** How a placement inside a back-to-back chain is classified. */
  datatype BtbKind = BtbKept | WastedI | WastedT

  /** Per-placement quantities that the pass accumulates. */
  datatype Quantity =
    | ShapeIs(m: Mino) | ClassIs(c: ClearType)
    | Plain(f: Field) | Attributed(a: Attribution) | InChain(k: BtbKind)

  function FieldAmount(s: Step, f: Field): nat
  {
    match f
    case GarbageLines => s.p.garbageCleared
    case Lines => s.p.linesCleared
    case Damage => s.damage
    case Keys => s.p.keypresses
    case Frames => s.p.frameDelay
  }

  function AttributedAmount(steps: seq<Step>, j: nat, a: Attribution): nat
    requires j < |steps|
  {
    var p := steps[j].p;
    match a
    case DamageWithGarbage => if p.garbageCleared > 0 then steps[j].damage else 0
    case GarbageExclusive => if p.garbageCleared > 0 then p.linesCleared else 0
    case DamageWithStack => if p.garbageCleared == 0 && p.linesCleared > 0 then steps[j].damage else 0
    case StackExclusive => if p.garbageCleared == 0 && p.linesCleared > 0 then p.linesCleared else 0
    case DamageWithCheese => if AteCheese(steps, j) then steps[j].damage else 0
    case CheeseExclusive => if AteCheese(steps, j) then p.linesCleared else 0
  }

  function BtbAmount(s: Step, k: BtbKind): nat
  {
    var p := s.p;
    var mult := s.multipliable;
    match k
    case BtbKept => if mult then 1 else 0
    case WastedI => if !mult && p.shape == I then 1 else 0
    case WastedT => if !mult && p.shape == T then 1 else 0
  }

  /** What step j contributes to quantity q. */
  function Amount(steps: seq<Step>, j: nat, q: Quantity): nat
    requires j < |steps|
  {
    match q
    case ShapeIs(m) => if steps[j].p.shape == m then 1 else 0
    case ClassIs(c) => if ClassOf(steps[j]) == c then 1 else 0
    case Plain(f) => FieldAmount(steps[j], f)
    case Attributed(a) => AttributedAmount(steps, j, a)
    case InChain(k) => BtbAmount(steps[j], k)
  }

  /** Total of q over the steps with index in [lo, hi). */
  function Total(steps: seq<Step>, lo: nat, hi: nat, q: Quantity): nat
    requires lo <= hi <= |steps|
    decreases hi - lo
  {
    if lo == hi then 0 else Total(steps, lo, hi - 1, q) + Amount(steps, hi - 1, q)
  }

  // ------------------------------------------------------------- series

  /** Per-placement samples recorded in the bundle's series. */
  datatype Series = DelaySeries | StackSeries | GarbageSeries | AttackPotentialSeries | DefensePotentialSeries

  function Sample(s: Step, k: Series): nat
  {
    var p := s.p;
    match k
    case DelaySeries => p.frameDelay
    case StackSeries => s.facts.height - s.facts.garbageHeight
    case GarbageSeries => s.facts.garbageHeight
    case AttackPotentialSeries => s.attackPotential
    case DefensePotentialSeries => s.defensePotential
  }

  /** The series of the first n steps: exactly one sample per placement, in order. */
  function SeriesOf(steps: seq<Step>, n: nat, k: Series): (s: seq<nat>)
    requires n <= |steps|
    ensures |s| == n
    ensures forall j :: 0 <= j < n ==> s[j] == Sample(steps[j], k)
  {
    if n == 0 then [] else SeriesOf(steps, n - 1, k) + [Sample(steps[n - 1], k)]
  }

  /** The scorer's results for the first n steps, keeping only the positive ones. */
  function Scores(steps: seq<Step>, n: nat): (s: seq<nat>)
    requires n <= |steps|
    ensures |s| <= n
    ensures forall k :: 0 <= k < |s| ==> s[k] > 0
  {
    if n == 0 then []
    else
      var v := steps[n - 1].score;
      Scores(steps, n - 1) + (if v > 0 then [v as nat] else [])
  }

  // ------------------------------------------------------------- opener

  /** Index of the first of the first n steps that ends the opener, or n if none does. */
  function OpenerEnd(steps: seq<Step>, n: nat): (e: nat)
    requires n <= |steps|
    ensures e <= n
    ensures e < n ==> EndsOpener(steps[e].p)
    ensures forall j :: 0 <= j < e ==> !EndsOpener(steps[j].p)
  {
    if n == 0 then 0
    else
      var e := OpenerEnd(steps, n - 1);
      if e < n - 1 then e else if EndsOpener(steps[n - 1].p) then n - 1 else n
  }

  // --------------------------------------------------------------- runs

  /** A run of consecutive placements [start, start + len). */
  datatype Run = Run(start: nat, len: nat)

  function End(r: Run): nat
  {
    r.start + r.len
  }

  predicate RunIn(r: Run, n: nat)
  {
    r.len >= 1 && End(r) <= n
  }

  predicate AllRunsIn(rs: seq<Run>, n: nat)
  {
    forall k :: 0 <= k < |rs| ==> RunIn(rs[k], n)
  }

  /** The two chains the pass tracks. */
  datatype Chain = ComboChain | BtbChain

  /** A combo continues while lines are cleared; back-to-back continues unless a clear breaks it. */
  predicate Extends(p: Placement, a: Chain)
  {
    match a
    case ComboChain => p.linesCleared > 0
    case BtbChain => p.linesCleared == 0 || p.btbClear
  }

  /** Runs already ended, and the run still open (if the last placement extended the chain). */
  datatype Chains = Chains(closed: seq<Run>, open: Option<Run>)

  /** The runs of the first n steps that extend chain a, as the pass discovers them. */
  function ChainRuns(steps: seq<Step>, n: nat, a: Chain): (c: Chains)
    requires n <= |steps|
    ensures AllRunsIn(c.closed, n)
    ensures forall k :: 0 <= k < |c.closed| ==> End(c.closed[k]) < n
    ensures c.open.Some? <==> n > 0 && Extends(steps[n - 1].p, a)
    ensures c.open.Some? ==> RunIn(c.open.value, n) && End(c.open.value) == n
  {
    if n == 0 then Chains([], None)
    else
      var c := ChainRuns(steps, n - 1, a);
      if Extends(steps[n - 1].p, a) then
        if c.open.Some? then Chains(c.closed, Some(Run(c.open.value.start, c.open.value.len + 1)))
        else Chains(c.closed, Some(Run(n - 1, 1)))
      else if c.open.Some? then Chains(c.closed + [c.open.value], None)
      else c
  }

  /** All runs of the first n steps that extend chain a, in order. */
  function Runs(steps: seq<Step>, n: nat, a: Chain): (rs: seq<Run>)
    requires n <= |steps|
    ensures AllRunsIn(rs, n)
  {
    var c := ChainRuns(steps, n, a);
    c.closed + (if c.open.Some? then [c.open.value] else [])
  }

  // ---------------------------------------------------- segments of runs

  /** The wells of steps [lo, hi), in order. */
  function WellsOf(steps: seq<Step>, lo: nat, hi: nat): (w: seq<Option<nat>>)
    requires lo <= hi <= |steps|
    ensures |w| == hi - lo
    ensures forall k :: 0 <= k < |w| ==> w[k] == WellOf(steps[lo + k])
    decreases hi - lo
  {
    if lo == hi then [] else WellsOf(steps, lo, hi - 1) + [WellOf(steps[hi - 1])]
  }

  /** How many times consecutive entries differ. */
  function Changes(w: seq<Option<nat>>): (c: nat)
    ensures |w| >= 1 ==> c <= |w| - 1
  {
    if |w| <= 1 then 0
    else Changes(w[..|w| - 1]) + (if w[|w| - 2] != w[|w| - 1] then 1 else 0)
  }

  /** One more placement in an open combo: its delay and damage are added and the block count grows. */
  function GrowCombo(c: ComboSegment, s: Step): (g: ComboSegment)
    ensures g.blocks == c.blocks + 1 && g.multipliers == c.multipliers
  {
    c.(frames := c.frames + s.p.frameDelay, attack := c.attack + s.damage, blocks := c.blocks + 1)
  }

  /**
   * One more placement in an open back-to-back chain: a multipliable clear
   * keeps the chain, otherwise an I or T piece counts as wasted; the well
   * shift counter grows when the well differs from the previous placement's.
   */
  function GrowBtb(c: BtbSegment, s: Step): (g: BtbSegment)
    ensures g.blocks == c.blocks + 1 && g.well == WellOf(s)
  {
    var p := s.p;
    var mult := s.multipliable;
    c.(frames := c.frames + p.frameDelay,
       attack := c.attack + s.damage,
       btb := c.btb + (if mult then 1 else 0),
       wastedI := c.wastedI + (if !mult && p.shape == I then 1 else 0),
       wastedT := c.wastedT + (if !mult && p.shape == T then 1 else 0),
       iPlaced := c.iPlaced + (if p.shape == I then 1 else 0),
       tPlaced := c.tPlaced + (if p.shape == T then 1 else 0),
       blocks := c.blocks + 1,
       wellshifts := c.wellshifts + (if c.well != WellOf(s) then 1 else 0),
       well := WellOf(s))
  }

  /** The combo segment for run r: opened by its first placement, grown by each later one. */
  function ComboOf(steps: seq<Step>, r: Run): (s: ComboSegment)
    requires RunIn(r, |steps|)
    ensures SoundCombo(s) && s.blocks == r.len
    decreases r.len
  {
    if r.len == 1 then
      NewComboSegment(steps[r.start].damage, steps[r.start].multipliable, steps[r.start].p.frameDelay,
                      if r.start > 0 then Some(steps[r.start - 1].p.frameDelay) else None)
    else GrowCombo(ComboOf(steps, Run(r.start, r.len - 1)), steps[End(r) - 1])
  }

  /** The back-to-back segment for run r: opened by its first placement, grown by each later one. */
  function BtbOf(steps: seq<Step>, r: Run): (s: BtbSegment)
    requires RunIn(r, |steps|)
    ensures SoundBtb(s) && s.blocks == r.len && s.well == WellOf(steps[End(r) - 1])
    decreases r.len
  {
    if r.len == 1 then NewBtbSegment(steps[r.start].damage, steps[r.start].p.shape, WellOf(steps[r.start]))
    else GrowBtb(BtbOf(steps, Run(r.start, r.len - 1)), steps[End(r) - 1])
  }

  /**
   * What a combo segment holds: the damage of the whole run, the delays of
   * all but its first placement, one multiplier exactly when the opening
   * clear is multipliable, the opening delay and the delay before the run.
   */
  lemma {:induction false} ComboOfMeaning(steps: seq<Step>, r: Run)
    requires RunIn(r, |steps|)
    ensures var s := ComboOf(steps, r);
      && s.frames == Total(steps, r.start + 1, End(r), Plain(Frames))
      && s.attack == Total(steps, r.start, End(r), Plain(Damage))
      && (s.multipliers == [0] <==> steps[r.start].multipliable)
      && (s.multipliers == [] <==> !steps[r.start].multipliable)
      && s.initialDelay == steps[r.start].p.frameDelay
      && s.prevDelay == (if r.start > 0 then Some(steps[r.start - 1].p.frameDelay) else None)
    decreases r.len
  {
    if r.len > 1 {
      ComboOfMeaning(steps, Run(r.start, r.len - 1));
    }
  }

  /** A back-to-back segment holds the damage of its whole run and the delays of all but its first placement. */
  lemma {:induction false} BtbOfTotals(steps: seq<Step>, r: Run)
    requires RunIn(r, |steps|)
    ensures var s := BtbOf(steps, r);
      && s.frames == Total(steps, r.start + 1, End(r), Plain(Frames))
      && s.attack == Total(steps, r.start, End(r), Plain(Damage))
    decreases r.len
  {
    if r.len > 1 {
      BtbOfTotals(steps, Run(r.start, r.len - 1));
    }
  }

  /** After its first placement, a back-to-back segment counts the clears that keep the chain. */
  lemma {:induction false} BtbOfKept(steps: seq<Step>, r: Run)
    requires RunIn(r, |steps|)
    ensures BtbOf(steps, r).btb == Total(steps, r.start + 1, End(r), InChain(BtbKept))
    decreases r.len
  {
    if r.len > 1 {
      var r0 := Run(r.start, r.len - 1);
      BtbOfKept(steps, r0);
      var last := steps[End(r0)];
      assert BtbOf(steps, r) == GrowBtb(BtbOf(steps, r0), last);
      assert Total(steps, r.start + 1, End(r), InChain(BtbKept))
          == Total(steps, r.start + 1, End(r0), InChain(BtbKept)) + BtbAmount(last, BtbKept);
    }
  }

  /** After its first placement, a back-to-back segment counts the I pieces that did not keep the chain. */
  lemma {:induction false} BtbOfWastedI(steps: seq<Step>, r: Run)
    requires RunIn(r, |steps|)
    ensures BtbOf(steps, r).wastedI == Total(steps, r.start + 1, End(r), InChain(WastedI))
    decreases r.len
  {
    if r.len > 1 {
      var r0 := Run(r.start, r.len - 1);
      BtbOfWastedI(steps, r0);
      var last := steps[End(r0)];
      assert BtbOf(steps, r) == GrowBtb(BtbOf(steps, r0), last);
      assert Total(steps, r.start + 1, End(r), InChain(WastedI))
          == Total(steps, r.start + 1, End(r0), InChain(WastedI)) + BtbAmount(last, WastedI);
    }
  }

  /** After its first placement, a back-to-back segment counts the T pieces that did not keep the chain. */
  lemma {:induction false} BtbOfWastedT(steps: seq<Step>, r: Run)
    requires RunIn(r, |steps|)
    ensures BtbOf(steps, r).wastedT == Total(steps, r.start + 1, End(r), InChain(WastedT))
    decreases r.len
  {
    if r.len > 1 {
      var r0 := Run(r.start, r.len - 1);
      BtbOfWastedT(steps, r0);
      var last := steps[End(r0)];
      assert BtbOf(steps, r) == GrowBtb(BtbOf(steps, r0), last);
      assert Total(steps, r.start + 1, End(r), InChain(WastedT))
          == Total(steps, r.start + 1, End(r0), InChain(WastedT)) + BtbAmount(last, WastedT);
    }
  }

  /** A back-to-back segment counts the I and T pieces of its whole run. */
  lemma {:induction false} BtbOfPieces(steps: seq<Step>, r: Run)
    requires RunIn(r, |steps|)
    ensures var s := BtbOf(steps, r);
      && s.iPlaced == Total(steps, r.start, End(r), ShapeIs(I))
      && s.tPlaced == Total(steps, r.start, End(r), ShapeIs(T))
    decreases r.len
  {
    if r.len > 1 {
      var r0 := Run(r.start, r.len - 1);
      BtbOfPieces(steps, r0);
      assert BtbOf(steps, r) == GrowBtb(BtbOf(steps, r0), steps[End(r0)]);
      assert Total(steps, r.start, End(r), ShapeIs(I))
          == Total(steps, r.start, End(r0), ShapeIs(I)) + Amount(steps, End(r0), ShapeIs(I));
      assert Total(steps, r.start, End(r), ShapeIs(T))
          == Total(steps, r.start, End(r0), ShapeIs(T)) + Amount(steps, End(r0), ShapeIs(T));
    }
  }

  /** A back-to-back segment counts how often the well moved between consecutive placements of its run. */
  lemma {:induction false} BtbOfWellshifts(steps: seq<Step>, r: Run)
    requires RunIn(r, |steps|)
    ensures BtbOf(steps, r).wellshifts == Changes(WellsOf(steps, r.start, End(r)))
    decreases r.len
  {
    if r.len > 1 {
      var r0 := Run(r.start, r.len - 1);
      BtbOfWellshifts(steps, r0);
      assert BtbOf(steps, r) == GrowBtb(BtbOf(steps, r0), steps[End(r0)]);
      var w := WellsOf(steps, r.start, End(r0));
      assert WellsOf(steps, r.start, End(r)) == w + [WellOf(steps[End(r0)])];
      assert (w + [WellOf(steps[End(r0)])])[..|w|] == w;
    } else {
      assert WellsOf(steps, r.start, End(r)) == [WellOf(steps[r.start])];
    }
  }

  function CombosOf(steps: seq<Step>, rs: seq<Run>): (ss: seq<ComboSegment>)
    requires AllRunsIn(rs, |steps|)
    ensures |ss| == |rs|
    ensures forall k :: 0 <= k < |rs| ==> ss[k] == ComboOf(steps, rs[k])
  {
    if rs == [] then [] else CombosOf(steps, rs[..|rs| - 1]) + [ComboOf(steps, rs[|rs| - 1])]
  }

  function BtbsOf(steps: seq<Step>, rs: seq<Run>): (ss: seq<BtbSegment>)
    requires AllRunsIn(rs, |steps|)
    ensures |ss| == |rs|
    ensures forall k :: 0 <= k < |rs| ==> ss[k] == BtbOf(steps, rs[k])
  {
    if rs == [] then [] else BtbsOf(steps, rs[..|rs| - 1]) + [BtbOf(steps, rs[|rs| - 1])]
  }

  // ------------------------------------------------- the reference bundle

  /** What the pass computes for a sequence of analysed steps. */
  function StatsOf(steps: seq<Step>): (b: Bundle)
  {
    var n := |steps|;
    var e := OpenerEnd(steps, n);
    Bundle(
      seq(CLEAR_KINDS, c requires 0 <= c < CLEAR_KINDS => Total(steps, 0, n, ClassIs(ClearAt(c)))),
      seq(MINO_KINDS, m requires 0 <= m < MINO_KINDS => Total(steps, 0, n, ShapeIs(MinoAt(m)))),
      Total(steps, 0, n, Plain(GarbageLines)),
      Total(steps, 0, n, Plain(Lines)),
      Total(steps, 0, n, Plain(Damage)),
      Total(steps, 0, n, Attributed(DamageWithGarbage)),
      Total(steps, 0, n, Attributed(GarbageExclusive)),
      Total(steps, 0, n, Attributed(DamageWithStack)),
      Total(steps, 0, n, Attributed(StackExclusive)),
      Total(steps, 0, n, Attributed(DamageWithCheese)),
      Total(steps, 0, n, Attributed(CheeseExclusive)),
      SeriesOf(steps, n, DelaySeries),
      SeriesOf(steps, n, StackSeries),
      SeriesOf(steps, n, GarbageSeries),
      BtbsOf(steps, Runs(steps, n, BtbChain)),
      CombosOf(steps, Runs(steps, n, ComboChain)),
      Total(steps, 0, n, Plain(Keys)),
      Total(steps, 0, e, Plain(Damage)),
      Total(steps, 0, e, Plain(Frames)),
      e,
      SeriesOf(steps, n, DefensePotentialSeries),
      SeriesOf(steps, n, AttackPotentialSeries),
      Scores(steps, n))
  }

  /** What the pass computes for a whole game. */
  function GameStats(game: seq<Placement>, o: Oracles): (b: Bundle)
    requires AllFeedable(game)
  {
    StatsOf(Analyzed(game, o))
  }

  // ------------------------------------------------- chain automata steps

  /** The combo automaton after i steps: the segments of the closed runs, and the open run's segment. */
  predicate ComboState(steps: seq<Step>, i: nat, current: Option<ComboSegment>, closed: seq<ComboSegment>)
    requires i <= |steps|
  {
    var c := ChainRuns(steps, i, ComboChain);
    && closed == CombosOf(steps, c.closed)
    && current == (if c.open.Some? then Some(ComboOf(steps, c.open.value)) else None)
  }

  /** The back-to-back automaton after i steps, in the same way. */
  predicate BtbState(steps: seq<Step>, i: nat, current: Option<BtbSegment>, closed: seq<BtbSegment>)
    requires i <= |steps|
  {
    var c := ChainRuns(steps, i, BtbChain);
    && closed == BtbsOf(steps, c.closed)
    && current == (if c.open.Some? then Some(BtbOf(steps, c.open.value)) else None)
  }

  lemma CombosOfAppend(steps: seq<Step>, rs: seq<Run>, r: Run)
    requires AllRunsIn(rs, |steps|) && RunIn(r, |steps|)
    ensures CombosOf(steps, rs + [r]) == CombosOf(steps, rs) + [ComboOf(steps, r)]
  {
    assert (rs + [r])[..|rs|] == rs;
  }

  lemma BtbsOfAppend(steps: seq<Step>, rs: seq<Run>, r: Run)
    requires AllRunsIn(rs, |steps|) && RunIn(r, |steps|)
    ensures BtbsOf(steps, rs + [r]) == BtbsOf(steps, rs) + [BtbOf(steps, r)]
  {
    assert (rs + [r])[..|rs|] == rs;
  }

  /** The automaton's step for the combo chain, as the pass performs it. */
  lemma ComboStep(steps: seq<Step>, i: nat, current: Option<ComboSegment>, closed: seq<ComboSegment>)
    requires i < |steps|
    requires ComboState(steps, i, current, closed)
    ensures Extends(steps[i].p, ComboChain) && current.None? ==>
      ComboState(steps, i + 1, Some(NewComboSegment(steps[i].damage, steps[i].multipliable,
        steps[i].p.frameDelay, if i > 0 then Some(steps[i - 1].p.frameDelay) else None)), closed)
    ensures Extends(steps[i].p, ComboChain) && current.Some? ==>
      ComboState(steps, i + 1, Some(GrowCombo(current.value, steps[i])), closed)
    ensures !Extends(steps[i].p, ComboChain) ==>
      ComboState(steps, i + 1, None, if current.Some? then closed + [current.value] else closed)
  {
    var c := ChainRuns(steps, i, ComboChain);
    if !Extends(steps[i].p, ComboChain) && c.open.Some? {
      CombosOfAppend(steps, c.closed, c.open.value);
    }
  }

  /** The automaton's step for the back-to-back chain, as the pass performs it. */
  lemma BtbStep(steps: seq<Step>, i: nat, current: Option<BtbSegment>, closed: seq<BtbSegment>)
    requires i < |steps|
    requires BtbState(steps, i, current, closed)
    ensures Extends(steps[i].p, BtbChain) && current.None? ==>
      BtbState(steps, i + 1, Some(NewBtbSegment(steps[i].damage, steps[i].p.shape, WellOf(steps[i]))), closed)
    ensures Extends(steps[i].p, BtbChain) && current.Some? ==>
      BtbState(steps, i + 1, Some(GrowBtb(current.value, steps[i])), closed)
    ensures !Extends(steps[i].p, BtbChain) ==>
      BtbState(steps, i + 1, None, if current.Some? then closed + [current.value] else closed)
  {
    var c := ChainRuns(steps, i, BtbChain);
    if !Extends(steps[i].p, BtbChain) && c.open.Some? {
      BtbsOfAppend(steps, c.closed, c.open.value);
    }
  }

  // ------------------------------------------------------- scorer input

  /** The scorer's matrix, filled by scanning the rows above the garbage from the top. */
  method BuildMatrix(b: Board, g: nat) returns (m: set<(nat, nat)>)
    requires g < ROWS
    ensures m == Matrix(b, g)
  {
    m := {};
    var y := 0;
    while y < ROWS - g
      invariant y <= ROWS - g
      invariant forall r: nat, x: nat :: (r, x) in m <==>
        ROWS - g - y <= r < ROWS - g && x < COLUMNS && Cell(b, x, ROWS - 1 - g - r) != Empty
    {
      var x := 0;
      while x < COLUMNS
        invariant x <= COLUMNS
        invariant forall r: nat, x': nat :: (r, x') in m <==>
          ((ROWS - g - y <= r < ROWS - g && x' < COLUMNS) || (r == ROWS - 1 - g - y && x' < x))
          && Cell(b, x', ROWS - 1 - g - r) != Empty
      {
        if b[x + y * 10] != Empty {
          m := m + {(ROWS - 1 - g - y, x)};
        }
        x := x + 1;
      }
      y := y + 1;
    }
    forall t: (nat, nat) | t in Matrix(b, g)
      ensures t in m
    {
    }
    forall t: (nat, nat) | t in m
      ensures t in Matrix(b, g)
    {
      var (r, x) := t;
      assert (r, x) in m;
      assert r < ROWS - g && x < COLUMNS && Cell(b, x, ROWS - 1 - g - r) != Empty;
    }
  }

  /** The matrix lies below the stack: every cell's row is under the height above the garbage. */
  lemma MatrixBelowStack(b: Board)
    ensures forall r: nat, x: nat :: (r, x) in Matrix(b, GarbageHeight(b)) ==> r < Height(b) - GarbageHeight(b)
  {
    HeightMeaning(b);
    GarbageHeightAtMostHeight(b);
    var g := GarbageHeight(b);
    forall r: nat, x: nat | (r, x) in Matrix(b, g)
      ensures r < Height(b) - g
    {
      var y := ROWS - 1 - g - r;
      assert Cell(b, x, y) != Empty;
      assert !RowEmpty(b, y);
    }
  }

  // ------------------------------------------------------------- the pass

  /** Counters after the first i steps: clear and shape kinds, lines, damage and key presses. */
  ghost predicate CountsAt(steps: seq<Step>, i: nat, b: Bundle)
    requires i <= |steps|
  {
    && WellFormed(b)
    && (forall c :: 0 <= c < CLEAR_KINDS ==> b.clearTypes[c] == Total(steps, 0, i, ClassIs(ClearAt(c))))
    && (forall m :: 0 <= m < MINO_KINDS ==> b.shapeTypes[m] == Total(steps, 0, i, ShapeIs(MinoAt(m))))
    && b.garbageCleared == Total(steps, 0, i, Plain(GarbageLines))
    && b.linesCleared == Total(steps, 0, i, Plain(Lines))
    && b.attack == Total(steps, 0, i, Plain(Damage))
    && b.keypresses == Total(steps, 0, i, Plain(Keys))
  }

  /** The attributed damage and lines after the first i steps. */
  ghost predicate AttributionAt(steps: seq<Step>, i: nat, b: Bundle)
    requires i <= |steps|
  {
    && b.attackWithGarbage == Total(steps, 0, i, Attributed(DamageWithGarbage))
    && b.exclusiveGarbageCleared == Total(steps, 0, i, Attributed(GarbageExclusive))
    && b.attackWithStack == Total(steps, 0, i, Attributed(DamageWithStack))
    && b.exclusiveStackCleared == Total(steps, 0, i, Attributed(StackExclusive))
    && b.attackWithCheese == Total(steps, 0, i, Attributed(DamageWithCheese))
    && b.exclusiveCheeseCleared == Total(steps, 0, i, Attributed(CheeseExclusive))
  }

  /** The opener flag and the opener totals after the first i steps. */
  ghost predicate OpenerAt(steps: seq<Step>, i: nat, b: Bundle, over: bool)
    requires i <= |steps|
  {
    var e := OpenerEnd(steps, i);
    && (over <==> e < i)
    && b.openerBlocks == e
    && b.openerAttack == Total(steps, 0, e, Plain(Damage))
    && b.openerFrames == Total(steps, 0, e, Plain(Frames))
  }

  /** The series and the positive scores after the first i steps. */
  ghost predicate SeriesAt(steps: seq<Step>, i: nat, b: Bundle)
    requires i <= |steps|
  {
    && b.delays == SeriesOf(steps, i, DelaySeries)
    && b.stackHeights == SeriesOf(steps, i, StackSeries)
    && b.garbageHeights == SeriesOf(steps, i, GarbageSeries)
    && b.defensePotentials == SeriesOf(steps, i, DefensePotentialSeries)
    && b.attackPotentials == SeriesOf(steps, i, AttackPotentialSeries)
    && b.blockfishScores == Scores(steps, i)
  }

  /** The counters, attributions and opener totals after the first i steps. */
  ghost predicate TalliedAt(steps: seq<Step>, i: nat, b: Bundle, over: bool)
    requires i <= |steps|
  {
    CountsAt(steps, i, b) && AttributionAt(steps, i, b) && OpenerAt(steps, i, b, over)
  }

  /** The series and the chain segments after the first i steps. */
  ghost predicate TrackedAt(steps: seq<Step>, i: nat, b: Bundle,
                            combo: Option<ComboSegment>, btb: Option<BtbSegment>)
    requires i <= |steps|
  {
    && SeriesAt(steps, i, b)
    && ComboState(steps, i, combo, b.comboSegments)
    && BtbState(steps, i, btb, b.btbSegments)
  }

  /** The opener check, then the opener totals while it lasts. */
  method TallyOpener(ghost steps: seq<Step>, i: nat, stats: Bundle, over: bool, placement: Placement, damage: nat)
    returns (next: Bundle, over': bool)
    requires i < |steps| && steps[i].p == placement && steps[i].damage == damage
    requires OpenerAt(steps, i, stats, over)
    ensures OpenerAt(steps, i + 1, next, over')
    ensures next == stats.(openerBlocks := next.openerBlocks, openerAttack := next.openerAttack,
                           openerFrames := next.openerFrames)
  {
    over' := over;
    if !over' && EndsOpener(placement) {
      over' := true;
    }
    next := stats;
    if !over' {
      next := next.(openerBlocks := next.openerBlocks + 1, openerAttack := next.openerAttack + damage,
                    openerFrames := next.openerFrames + placement.frameDelay);
    }
  }

  /** The shape and clear counts (an empty board counts as a perfect clear), lines, damage and key presses. */
  method TallyCounts(ghost steps: seq<Step>, i: nat, stats: Bundle, placement: Placement, height: nat, damage: nat)
    returns (next: Bundle)
    requires i < |steps| && steps[i].p == placement && steps[i].damage == damage && steps[i].facts.height == height
    requires CountsAt(steps, i, stats)
    ensures CountsAt(steps, i + 1, next)
    ensures next == stats.(clearTypes := next.clearTypes, shapeTypes := next.shapeTypes,
                           garbageCleared := next.garbageCleared, linesCleared := next.linesCleared,
                           attack := next.attack, keypresses := next.keypresses)
  {
    ClearAtIndex();
    MinoAtIndex();
    var m := MinoIndex(placement.shape);
    var c := if height == 0 then ClearIndex(PerfectClear) else ClearIndex(placement.clearType);
    next := stats.(
      shapeTypes := stats.shapeTypes[m := stats.shapeTypes[m] + 1],
      clearTypes := stats.clearTypes[c := stats.clearTypes[c] + 1],
      garbageCleared := stats.garbageCleared + placement.garbageCleared,
      linesCleared := stats.linesCleared + placement.linesCleared,
      attack := stats.attack + damage,
      keypresses := stats.keypresses + placement.keypresses);
  }

  /** Damage and lines of a garbage clear, else of a stack clear, and of a clear right after a cheesy board. */
  method TallyAttribution(ghost steps: seq<Step>, i: nat, stats: Bundle, placement: Placement, damage: nat,
                          justAteCheese: bool)
    returns (next: Bundle)
    requires i < |steps| && steps[i].p == placement && steps[i].damage == damage
    requires justAteCheese == AteCheese(steps, i)
    requires AttributionAt(steps, i, stats)
    ensures AttributionAt(steps, i + 1, next)
    ensures next == stats.(attackWithGarbage := next.attackWithGarbage,
                           exclusiveGarbageCleared := next.exclusiveGarbageCleared,
                           attackWithStack := next.attackWithStack,
                           exclusiveStackCleared := next.exclusiveStackCleared,
                           attackWithCheese := next.attackWithCheese,
                           exclusiveCheeseCleared := next.exclusiveCheeseCleared)
  {
    next := stats;
    if placement.garbageCleared > 0 {
      next := next.(attackWithGarbage := next.attackWithGarbage + damage,
                    exclusiveGarbageCleared := next.exclusiveGarbageCleared + placement.linesCleared);
    } else if placement.linesCleared > 0 {
      next := next.(attackWithStack := next.attackWithStack + damage,
                    exclusiveStackCleared := next.exclusiveStackCleared + placement.linesCleared);
    }
    if justAteCheese {
      next := next.(attackWithCheese := next.attackWithCheese + damage,
                    exclusiveCheeseCleared := next.exclusiveCheeseCleared + placement.linesCleared);
    }
  }

  /** The delay, the stack and garbage heights, both potentials, and the score when it is positive. */
  method RecordSeries(ghost steps: seq<Step>, i: nat, stats: Bundle, placement: Placement,
                      height: nat, garbageHeight: nat, attackPotential: nat, defensePotential: nat, analysis: int)
    returns (next: Bundle)
    requires i < |steps| && steps[i].p == placement
    requires steps[i].facts.height == height && steps[i].facts.garbageHeight == garbageHeight
    requires steps[i].attackPotential == attackPotential && steps[i].defensePotential == defensePotential
    requires steps[i].score == analysis
    requires SeriesAt(steps, i, stats)
    ensures SeriesAt(steps, i + 1, next)
    ensures next == stats.(delays := next.delays, stackHeights := next.stackHeights,
                           garbageHeights := next.garbageHeights, defensePotentials := next.defensePotentials,
                           attackPotentials := next.attackPotentials, blockfishScores := next.blockfishScores)
  {
    next := stats.(
      delays := stats.delays + [placement.frameDelay],
      stackHeights := stats.stackHeights + [height - garbageHeight],
      garbageHeights := stats.garbageHeights + [garbageHeight],
      defensePotentials := stats.defensePotentials + [defensePotential],
      attackPotentials := stats.attackPotentials + [attackPotential]);
    if analysis > 0 {
      next := next.(blockfishScores := next.blockfishScores + [analysis as nat]);
    }
  }

  /** A clearing placement opens or grows the combo; any other closes an open one. */
  method AdvanceCombo(ghost steps: seq<Step>, i: nat, stats: Bundle, current: Option<ComboSegment>,
                      placement: Placement, damage: nat, multipliable: bool, prevDelay: Option<nat>)
    returns (next: Bundle, current': Option<ComboSegment>)
    requires i < |steps| && steps[i].p == placement && steps[i].damage == damage
    requires steps[i].multipliable == multipliable
    requires prevDelay == (if i > 0 then Some(steps[i - 1].p.frameDelay) else None)
    requires ComboState(steps, i, current, stats.comboSegments)
    ensures ComboState(steps, i + 1, current', next.comboSegments)
    ensures next == stats.(comboSegments := next.comboSegments)
  {
    ComboStep(steps, i, current, stats.comboSegments);
    next := stats;
    current' := current;
    if placement.linesCleared > 0 {
      match current
      case None =>
        current' := Some(NewComboSegment(damage, multipliable, placement.frameDelay, prevDelay));
      case Some(combo) =>
        current' := Some(combo.(frames := combo.frames + placement.frameDelay,
                                attack := combo.attack + damage, blocks := combo.blocks + 1));
    } else if current.Some? {
      next := next.(comboSegments := next.comboSegments + [current.value]);
      current' := None;
    }
  }

  /**
   * An open back-to-back segment takes one more placement: a multipliable
   * clear keeps the chain, otherwise an I or T piece is wasted; placed I and
   * T pieces are counted, and so is a change of well.
   */
  method ExtendBtb(ghost s: Step, btb: BtbSegment, placement: Placement, damage: nat, multipliable: bool,
                   well: Option<nat>)
    returns (grown: BtbSegment)
    requires s.p == placement && s.damage == damage && s.multipliable == multipliable && WellOf(s) == well
    ensures grown == GrowBtb(btb, s)
  {
    grown := btb.(frames := btb.frames + placement.frameDelay, attack := btb.attack + damage);
    if multipliable {
      grown := grown.(btb := grown.btb + 1);
    } else if placement.shape == I {
      grown := grown.(wastedI := grown.wastedI + 1);
    } else if placement.shape == T {
      grown := grown.(wastedT := grown.wastedT + 1);
    }
    if placement.shape == I {
      grown := grown.(iPlaced := grown.iPlaced + 1);
    } else if placement.shape == T {
      grown := grown.(tPlaced := grown.tPlaced + 1);
    }
    grown := grown.(blocks := grown.blocks + 1);
    if grown.well != well {
      grown := grown.(wellshifts := grown.wellshifts + 1);
    }
    grown := grown.(well := well);
  }

  /**
   * A non-back-to-back clear closes an open back-to-back segment; anything
   * else opens one or grows it. The well is read only in that case, and only
   * for a non-empty board.
   */
  method AdvanceBtb(ghost steps: seq<Step>, i: nat, stats: Bundle, current: Option<BtbSegment>,
                    placement: Placement, height: nat, damage: nat, multipliable: bool)
    returns (next: Bundle, current': Option<BtbSegment>)
    requires i < |steps| && steps[i].p == placement && steps[i].damage == damage
    requires steps[i].multipliable == multipliable
    requires steps[i].facts.height == height && steps[i].facts.well == Well(placement.board)
    requires BtbState(steps, i, current, stats.btbSegments)
    ensures BtbState(steps, i + 1, current', next.btbSegments)
    ensures next == stats.(btbSegments := next.btbSegments)
  {
    BtbStep(steps, i, current, stats.btbSegments);
    next := stats;
    current' := current;
    if placement.linesCleared > 0 && !placement.btbClear {
      if current.Some? {
        next := next.(btbSegments := next.btbSegments + [current.value]);
        current' := None;
      }
    } else {
      var well: Option<nat> := None;
      if height > 0 {
        var w := GetWell(placement.board);
        well := Some(w);
      }
      match current
      case None =>
        current' := Some(NewBtbSegment(damage, placement.shape, well));
      case Some(btb) =>
        var grown := ExtendBtb(steps[i], btb, placement, damage, multipliable, well);
        current' := Some(grown);
    }
  }

  /** The first half of an iteration: the opener, the counters and the attributions for placement i. */
  method TallyPlacement(ghost steps: seq<Step>, game: seq<Placement>, o: Oracles, i: nat, stats: Bundle,
                        openerOver: bool, damage: nat, height: nat)
    returns (next: Bundle, openerOver': bool)
    requires AllFeedable(game) && steps == Analyzed(game, o) && i < |game|
    requires damage == Sum(game[i].attack) && height == Height(game[i].board)
    requires TalliedAt(steps, i, stats, openerOver)
    ensures TalliedAt(steps, i + 1, next, openerOver')
    ensures next.delays == stats.delays && next.stackHeights == stats.stackHeights
    ensures next.garbageHeights == stats.garbageHeights && next.defensePotentials == stats.defensePotentials
    ensures next.attackPotentials == stats.attackPotentials && next.blockfishScores == stats.blockfishScores
    ensures next.comboSegments == stats.comboSegments && next.btbSegments == stats.btbSegments
  {
    var placement := game[i];
    next, openerOver' := TallyOpener(steps, i, stats, openerOver, placement, damage);
    next := TallyCounts(steps, i, next, placement, height, damage);
    var justAteCheese := false;
    if i != 0 && placement.garbageCleared > 0 {
      justAteCheese := HasCheese(game[i - 1].board);
    }
    next := TallyAttribution(steps, i, next, placement, damage, justAteCheese);
  }

  /** The second half of an iteration: the combo and back-to-back chains and the series for placement i. */
  method TrackPlacement(ghost steps: seq<Step>, game: seq<Placement>, o: Oracles, i: nat, stats: Bundle,
                        currentCombo: Option<ComboSegment>, currentBtb: Option<BtbSegment>,
                        damage: nat, height: nat)
    returns (next: Bundle, currentCombo': Option<ComboSegment>, currentBtb': Option<BtbSegment>)
    requires AllFeedable(game) && steps == Analyzed(game, o) && i < |game|
    requires damage == Sum(game[i].attack) && height == Height(game[i].board)
    requires TrackedAt(steps, i, stats, currentCombo, currentBtb)
    ensures TrackedAt(steps, i + 1, next, currentCombo', currentBtb')
    ensures next == stats.(delays := next.delays, stackHeights := next.stackHeights,
                           garbageHeights := next.garbageHeights, defensePotentials := next.defensePotentials,
                           attackPotentials := next.attackPotentials, blockfishScores := next.blockfishScores,
                           comboSegments := next.comboSegments, btbSegments := next.btbSegments)
  {
    var placement := game[i];
    assert Feedable(placement);
    var multipliable := o.multipliable(placement.clearType);
    next, currentCombo' := AdvanceCombo(steps, i, stats, currentCombo, placement, damage, multipliable,
                                        if i > 0 then Some(game[i - 1].frameDelay) else None);
    next, currentBtb' := AdvanceBtb(steps, i, next, currentBtb, placement, height, damage, multipliable);

    var garbageHeight := GetGarbageHeight(placement.board);
    var potentials := o.solve(placement.board, placement.btbChain, placement.combo, placement.queue);
    var queue := ScorerQueue(placement.queue);
    var matrix := BuildMatrix(placement.board, garbageHeight);
    var analysis := o.blockfish(queue[0], queue[1..], matrix);
    next := RecordSeries(steps, i, next, placement, height, garbageHeight, potentials.0, potentials.1, analysis);
  }

  /** The tallies do not read the series or the segments. */
  lemma TalliedFrame(steps: seq<Step>, i: nat, a: Bundle, b: Bundle, over: bool)
    requires i <= |steps| && TalliedAt(steps, i, a, over)
    requires b == a.(delays := b.delays, stackHeights := b.stackHeights, garbageHeights := b.garbageHeights,
                     defensePotentials := b.defensePotentials, attackPotentials := b.attackPotentials,
                     blockfishScores := b.blockfishScores, comboSegments := b.comboSegments,
                     btbSegments := b.btbSegments)
    ensures TalliedAt(steps, i, b, over)
  {
  }

  /** The series and the segments do not depend on the tallies. */
  lemma TrackedFrame(steps: seq<Step>, i: nat, a: Bundle, b: Bundle,
                     combo: Option<ComboSegment>, btb: Option<BtbSegment>)
    requires i <= |steps| && TrackedAt(steps, i, a, combo, btb)
    requires a.delays == b.delays && a.stackHeights == b.stackHeights && a.garbageHeights == b.garbageHeights
    requires a.defensePotentials == b.defensePotentials && a.attackPotentials == b.attackPotentials
    requires a.blockfishScores == b.blockfishScores
    requires a.comboSegments == b.comboSegments && a.btbSegments == b.btbSegments
    ensures TrackedAt(steps, i, b, combo, btb)
  {
  }

  /** Before the first placement, the default bundle and no open segment describe the empty prefix. */
  lemma PassStart(steps: seq<Step>)
    ensures TalliedAt(steps, 0, DefaultBundle(), false)
    ensures TrackedAt(steps, 0, DefaultBundle(), None, None)
  {
  }

  lemma CountsComplete(steps: seq<Step>, b: Bundle)
    requires CountsAt(steps, |steps|, b)
    ensures var r := StatsOf(steps);
      && b.clearTypes == r.clearTypes && b.shapeTypes == r.shapeTypes
      && b.garbageCleared == r.garbageCleared && b.linesCleared == r.linesCleared
      && b.attack == r.attack && b.keypresses == r.keypresses
  {
  }

  lemma SeriesComplete(steps: seq<Step>, b: Bundle)
    requires SeriesAt(steps, |steps|, b)
    ensures var r := StatsOf(steps);
      && b.delays == r.delays && b.stackHeights == r.stackHeights && b.garbageHeights == r.garbageHeights
      && b.defensePotentials == r.defensePotentials && b.attackPotentials == r.attackPotentials
      && b.blockfishScores == r.blockfishScores
  {
  }

  lemma CombosComplete(steps: seq<Step>, n: nat, closed: seq<ComboSegment>, current: Option<ComboSegment>)
    requires n <= |steps| && ComboState(steps, n, current, closed)
    ensures closed + (if current.Some? then [current.value] else []) == CombosOf(steps, Runs(steps, n, ComboChain))
  {
    var c := ChainRuns(steps, n, ComboChain);
    if c.open.Some? {
      CombosOfAppend(steps, c.closed, c.open.value);
    }
  }

  lemma BtbsComplete(steps: seq<Step>, n: nat, closed: seq<BtbSegment>, current: Option<BtbSegment>)
    requires n <= |steps| && BtbState(steps, n, current, closed)
    ensures closed + (if current.Some? then [current.value] else []) == BtbsOf(steps, Runs(steps, n, BtbChain))
  {
    var c := ChainRuns(steps, n, BtbChain);
    if c.open.Some? {
      BtbsOfAppend(steps, c.closed, c.open.value);
    }
  }

  /** After the last placement, closing the open segments yields the reference bundle. */
  lemma PassComplete(steps: seq<Step>, stats: Bundle, openerOver: bool,
                     currentCombo: Option<ComboSegment>, currentBtb: Option<BtbSegment>)
    requires TalliedAt(steps, |steps|, stats, openerOver)
    requires TrackedAt(steps, |steps|, stats, currentCombo, currentBtb)
    ensures stats.(comboSegments := stats.comboSegments + (if currentCombo.Some? then [currentCombo.value] else []),
                   btbSegments := stats.btbSegments + (if currentBtb.Some? then [currentBtb.value] else []))
            == StatsOf(steps)
  {
    CountsComplete(steps, stats);
    SeriesComplete(steps, stats);
    CombosComplete(steps, |steps|, stats.comboSegments, currentCombo);
    BtbsComplete(steps, |steps|, stats.btbSegments, currentBtb);
  }

  /**
   * `CumulativePlacementStats::from`: one pass over the game that counts,
   * records the series, tracks the opener, and keeps the combo and
   * back-to-back segments still open, closing them when their chain breaks
   * and once more at the end.
   */
  method FromGame(game: seq<Placement>, o: Oracles) returns (stats: Bundle)
    requires AllFeedable(game)
    ensures stats == GameStats(game, o)
  {
    ghost var steps := Analyzed(game, o);
    PassStart(steps);
    stats := DefaultBundle();
    var openerOver := false;
    var currentCombo: Option<ComboSegment> := None;
    var currentBtb: Option<BtbSegment> := None;

    var i := 0;
    while i < |game|
      invariant i <= |game|
      invariant TalliedAt(steps, i, stats, openerOver)
      invariant TrackedAt(steps, i, stats, currentCombo, currentBtb)
    {
      var placement := game[i];
      var damage := Sum(placement.attack);
      var height := GetHeight(placement.board);
      var tallied;
      tallied, openerOver := TallyPlacement(steps, game, o, i, stats, openerOver, damage, height);
      TrackedFrame(steps, i, stats, tallied, currentCombo, currentBtb);
      stats, currentCombo, currentBtb := TrackPlacement(steps, game, o, i, tallied, currentCombo, currentBtb, damage, height);
      TalliedFrame(steps, i + 1, tallied, stats, openerOver);
      i := i + 1;
    }
    PassComplete(steps, stats, openerOver, currentCombo, currentBtb);
    if currentCombo.Some? {
      stats := stats.(comboSegments := stats.comboSegments + [currentCombo.value]);
    }
    if currentBtb.Some? {
      stats := stats.(btbSegments := stats.btbSegments + [currentBtb.value]);
    }
  }
}
