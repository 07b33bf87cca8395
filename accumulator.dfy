/**
 * `CumulativePlacementStats` as the mutable object that `absorb` updates in
 * place, and the algebra of its merge: the default bundle is its identity,
 * merging is associative, keeps the segment bounds, and adds the counter
 * arrays' sums.
 */
module Accumulator {
  import opened Basics
  import opened ReplayResponse
  import opened PlacementStats

  // ------------------------------------------------------- merge algebra

  /** Absorbing the default bundle changes nothing. */
  lemma MergeDefaultRight(a: Bundle)
    requires WellFormed(a)
    ensures Merge(a, DefaultBundle()) == a
  {
    assert AddPointwise(a.clearTypes, Zeros(CLEAR_KINDS)) == a.clearTypes;
    assert AddPointwise(a.shapeTypes, Zeros(MINO_KINDS)) == a.shapeTypes;
  }

  /** Absorbing a bundle into the default one yields that bundle. */
  lemma MergeDefaultLeft(a: Bundle)
    requires WellFormed(a)
    ensures Merge(DefaultBundle(), a) == a
  {
    assert AddPointwise(Zeros(CLEAR_KINDS), a.clearTypes) == a.clearTypes;
    assert AddPointwise(Zeros(MINO_KINDS), a.shapeTypes) == a.shapeTypes;
  }

  /** Absorbing bundles one after another is the same as absorbing their merge. */
  lemma MergeAssociative(a: Bundle, b: Bundle, c: Bundle)
    requires WellFormed(a) && WellFormed(b) && WellFormed(c)
    ensures Merge(Merge(a, b), c) == Merge(a, Merge(b, c))
  {
    assert AddPointwise(AddPointwise(a.clearTypes, b.clearTypes), c.clearTypes)
        == AddPointwise(a.clearTypes, AddPointwise(b.clearTypes, c.clearTypes));
    assert AddPointwise(AddPointwise(a.shapeTypes, b.shapeTypes), c.shapeTypes)
        == AddPointwise(a.shapeTypes, AddPointwise(b.shapeTypes, c.shapeTypes));
  }

  /** Segments are only moved by a merge, so the segment bounds survive it. */
  lemma MergeSound(a: Bundle, b: Bundle)
    requires Sound(a) && Sound(b)
    ensures Sound(Merge(a, b))
  {
    var m := Merge(a, b);
    forall k | 0 <= k < |m.btbSegments|
      ensures SoundBtb(m.btbSegments[k])
    {
      if k >= |a.btbSegments| {
        assert m.btbSegments[k] == b.btbSegments[k - |a.btbSegments|];
      }
    }
    forall k | 0 <= k < |m.comboSegments|
      ensures SoundCombo(m.comboSegments[k])
    {
      if k >= |a.comboSegments| {
        assert m.comboSegments[k] == b.comboSegments[k - |a.comboSegments|];
      }
    }
  }

  /** The sum of an element-wise sum is the sum of the two sums. */
  lemma {:induction false} SumAddPointwise(a: seq<nat>, b: seq<nat>)
    requires |a| == |b|
    ensures Sum(AddPointwise(a, b)) == Sum(a) + Sum(b)
    decreases |a|
  {
    if a != [] {
      var n := |a| - 1;
      assert AddPointwise(a, b)[..n] == AddPointwise(a[..n], b[..n]);
      SumAddPointwise(a[..n], b[..n]);
    }
  }

  /** Merging adds the placement counts kept by both counter arrays. */
  lemma MergeCounts(a: Bundle, b: Bundle)
    requires WellFormed(a) && WellFormed(b)
    ensures Sum(Merge(a, b).clearTypes) == Sum(a.clearTypes) + Sum(b.clearTypes)
    ensures Sum(Merge(a, b).shapeTypes) == Sum(a.shapeTypes) + Sum(b.shapeTypes)
  {
    SumAddPointwise(a.clearTypes, b.clearTypes);
    SumAddPointwise(a.shapeTypes, b.shapeTypes);
  }

  /** A bundle whose every field is the sum or concatenation of two others' is their merge. */
  lemma MergeByFields(a: Bundle, b: Bundle, c: Bundle)
    requires WellFormed(a) && WellFormed(b)
    requires c.clearTypes == AddPointwise(a.clearTypes, b.clearTypes)
    requires c.shapeTypes == AddPointwise(a.shapeTypes, b.shapeTypes)
    requires c.garbageCleared == a.garbageCleared + b.garbageCleared
    requires c.linesCleared == a.linesCleared + b.linesCleared
    requires c.attack == a.attack + b.attack
    requires c.attackWithGarbage == a.attackWithGarbage + b.attackWithGarbage
    requires c.exclusiveGarbageCleared == a.exclusiveGarbageCleared + b.exclusiveGarbageCleared
    requires c.attackWithStack == a.attackWithStack + b.attackWithStack
    requires c.exclusiveStackCleared == a.exclusiveStackCleared + b.exclusiveStackCleared
    requires c.attackWithCheese == a.attackWithCheese + b.attackWithCheese
    requires c.exclusiveCheeseCleared == a.exclusiveCheeseCleared + b.exclusiveCheeseCleared
    requires c.delays == a.delays + b.delays
    requires c.stackHeights == a.stackHeights + b.stackHeights
    requires c.garbageHeights == a.garbageHeights + b.garbageHeights
    requires c.btbSegments == a.btbSegments + b.btbSegments
    requires c.comboSegments == a.comboSegments + b.comboSegments
    requires c.keypresses == a.keypresses + b.keypresses
    requires c.openerAttack == a.openerAttack + b.openerAttack
    requires c.openerFrames == a.openerFrames + b.openerFrames
    requires c.openerBlocks == a.openerBlocks + b.openerBlocks
    requires c.defensePotentials == a.defensePotentials + b.defensePotentials
    requires c.attackPotentials == a.attackPotentials + b.attackPotentials
    requires c.blockfishScores == a.blockfishScores + b.blockfishScores
    ensures c == Merge(a, b)
  {
  }

  // ------------------------------------------------------ the mutable bundle

  /** `CumulativePlacementStats`: two fixed-size counter arrays, scalar counters and growing lists. */
  class CumulativeStats {
    const clearTypes: array<nat>
    const shapeTypes: array<nat>
    var garbageCleared: nat
    var linesCleared: nat
    var attack: nat
    var attackWithGarbage: nat
    var exclusiveGarbageCleared: nat
    var attackWithStack: nat
    var exclusiveStackCleared: nat
    var attackWithCheese: nat
    var exclusiveCheeseCleared: nat
    var delays: seq<nat>
    var stackHeights: seq<nat>
    var garbageHeights: seq<nat>
    var btbSegments: seq<BtbSegment>
    var comboSegments: seq<ComboSegment>
    var keypresses: nat
    var openerAttack: nat
    var openerFrames: nat
    var openerBlocks: nat
    var defensePotentials: seq<nat>
    var attackPotentials: seq<nat>
    var blockfishScores: seq<nat>

    /** The arrays have their fixed sizes and are distinct. */
    ghost predicate Valid()
      reads this
    {
      clearTypes.Length == CLEAR_KINDS && shapeTypes.Length == MINO_KINDS && clearTypes != shapeTypes
    }

    /** The object's state as a bundle value. */
    function Contents(): (b: Bundle)
      reads this, clearTypes, shapeTypes
      ensures |b.clearTypes| == clearTypes.Length && |b.shapeTypes| == shapeTypes.Length
      ensures b.clearTypes == clearTypes[..] && b.shapeTypes == shapeTypes[..]
    {
      Bundle(clearTypes[..], shapeTypes[..], garbageCleared, linesCleared, attack,
             attackWithGarbage, exclusiveGarbageCleared, attackWithStack, exclusiveStackCleared,
             attackWithCheese, exclusiveCheeseCleared, delays, stackHeights, garbageHeights,
             btbSegments, comboSegments, keypresses, openerAttack, openerFrames, openerBlocks,
             defensePotentials, attackPotentials, blockfishScores)
    }

    /** `Default::default()`. */
    constructor ()
      ensures Valid() && Contents() == DefaultBundle()
      ensures fresh(clearTypes) && fresh(shapeTypes)
    {
      clearTypes := new nat[CLEAR_KINDS](_ => 0);
      shapeTypes := new nat[MINO_KINDS](_ => 0);
      garbageCleared, linesCleared, attack := 0, 0, 0;
      attackWithGarbage, exclusiveGarbageCleared := 0, 0;
      attackWithStack, exclusiveStackCleared := 0, 0;
      attackWithCheese, exclusiveCheeseCleared := 0, 0;
      delays, stackHeights, garbageHeights := [], [], [];
      btbSegments, comboSegments := [], [];
      keypresses, openerAttack, openerFrames, openerBlocks := 0, 0, 0, 0;
      defensePotentials, attackPotentials, blockfishScores := [], [], [];
    }

    /**
     * `absorb`: every counter, in both arrays and among the scalars, grows
     * by the argument's, and every list is extended by the argument's list.
     */
    method Absorb(stats: Bundle)
      requires Valid() && WellFormed(stats)
      modifies this, clearTypes, shapeTypes
      ensures Valid()
      ensures Contents() == Merge(old(Contents()), stats)
    {
      ghost var before := Contents();
      AddCounters(stats);
      AddAttributed(stats);
      ExtendLists(stats);
      AddArrays(stats);
      MergeByFields(before, stats, Contents());
    }

    /** The zipped `+=` of `absorb` on the two counter arrays. */
    method AddArrays(stats: Bundle)
      requires Valid() && WellFormed(stats)
      modifies clearTypes, shapeTypes
      ensures clearTypes[..] == AddPointwise(old(clearTypes[..]), stats.clearTypes)
      ensures shapeTypes[..] == AddPointwise(old(shapeTypes[..]), stats.shapeTypes)
    {
      AddInto(clearTypes, stats.clearTypes);
      AddInto(shapeTypes, stats.shapeTypes);
    }

    /** The `+=` of `absorb` on the attributed counters. */
    method AddAttributed(stats: Bundle)
      modifies this`attackWithGarbage, this`exclusiveGarbageCleared, this`attackWithStack
      modifies this`exclusiveStackCleared, this`attackWithCheese, this`exclusiveCheeseCleared
      ensures attackWithGarbage == old(attackWithGarbage) + stats.attackWithGarbage
      ensures exclusiveGarbageCleared == old(exclusiveGarbageCleared) + stats.exclusiveGarbageCleared
      ensures attackWithStack == old(attackWithStack) + stats.attackWithStack
      ensures exclusiveStackCleared == old(exclusiveStackCleared) + stats.exclusiveStackCleared
      ensures attackWithCheese == old(attackWithCheese) + stats.attackWithCheese
      ensures exclusiveCheeseCleared == old(exclusiveCheeseCleared) + stats.exclusiveCheeseCleared
    {
      attackWithGarbage := attackWithGarbage + stats.attackWithGarbage;
      exclusiveGarbageCleared := exclusiveGarbageCleared + stats.exclusiveGarbageCleared;
      attackWithStack := attackWithStack + stats.attackWithStack;
      exclusiveStackCleared := exclusiveStackCleared + stats.exclusiveStackCleared;
      attackWithCheese := attackWithCheese + stats.attackWithCheese;
      exclusiveCheeseCleared := exclusiveCheeseCleared + stats.exclusiveCheeseCleared;
    }

    /** The `+=` of `absorb` on the plain and opener counters. */
    method AddCounters(stats: Bundle)
      modifies this`garbageCleared, this`linesCleared, this`attack, this`keypresses
      modifies this`openerAttack, this`openerFrames, this`openerBlocks
      ensures garbageCleared == old(garbageCleared) + stats.garbageCleared
      ensures linesCleared == old(linesCleared) + stats.linesCleared
      ensures attack == old(attack) + stats.attack
      ensures keypresses == old(keypresses) + stats.keypresses
      ensures openerAttack == old(openerAttack) + stats.openerAttack
      ensures openerFrames == old(openerFrames) + stats.openerFrames
      ensures openerBlocks == old(openerBlocks) + stats.openerBlocks
    {
      garbageCleared := garbageCleared + stats.garbageCleared;
      linesCleared := linesCleared + stats.linesCleared;
      attack := attack + stats.attack;
      keypresses := keypresses + stats.keypresses;
      openerAttack := openerAttack + stats.openerAttack;
      openerFrames := openerFrames + stats.openerFrames;
      openerBlocks := openerBlocks + stats.openerBlocks;
    }

    /** The `extend` part of `absorb`: each list is followed by the argument's. */
    method ExtendLists(stats: Bundle)
      modifies this`delays, this`stackHeights, this`garbageHeights, this`btbSegments
      modifies this`comboSegments, this`defensePotentials, this`attackPotentials, this`blockfishScores
      ensures delays == old(delays) + stats.delays
      ensures stackHeights == old(stackHeights) + stats.stackHeights
      ensures garbageHeights == old(garbageHeights) + stats.garbageHeights
      ensures btbSegments == old(btbSegments) + stats.btbSegments
      ensures comboSegments == old(comboSegments) + stats.comboSegments
      ensures defensePotentials == old(defensePotentials) + stats.defensePotentials
      ensures attackPotentials == old(attackPotentials) + stats.attackPotentials
      ensures blockfishScores == old(blockfishScores) + stats.blockfishScores
    {
      delays := delays + stats.delays;
      stackHeights := stackHeights + stats.stackHeights;
      garbageHeights := garbageHeights + stats.garbageHeights;
      btbSegments := btbSegments + stats.btbSegments;
      comboSegments := comboSegments + stats.comboSegments;
      defensePotentials := defensePotentials + stats.defensePotentials;
      attackPotentials := attackPotentials + stats.attackPotentials;
      blockfishScores := blockfishScores + stats.blockfishScores;
    }
  }

  /** The element-wise `+=` of `absorb`'s zipped iteration over a counter array. */
  method AddInto(counters: array<nat>, more: seq<nat>)
    requires counters.Length == |more|
    modifies counters
    ensures counters[..] == AddPointwise(old(counters[..]), more)
  {
    ghost var before := counters[..];
    for k := 0 to counters.Length
      invariant forall m :: 0 <= m < k ==> counters[m] == before[m] + more[m]
      invariant forall m :: k <= m < counters.Length ==> counters[m] == before[m]
    {
      counters[k] := counters[k] + more[k];
    }
  }
}
