/**
 * The termination logic of the brute-force search (prboom2/src/dsda/brute_force.c):
 * condition tests against the player's state, the comparison that decides
 * whether a value beats the target's best, the "all conditions reached"
 * rule, and the volume-bounded decision to end the search, which on
 * success hands the found commands to the build-mode queue.
 */
module BruteForce {
  import Build

  /** MAX_BF_DEPTH */
  const MaxDepth := 35
  /** MAX_BF_CONDITIONS */
  const MaxConditions := 16

  /**
   * A condition or target attribute: a numeric attribute read from the
   * player (position, momentum, health, ammo, …, by its code) or one of
   * the "misc" attributes about lines and items.
   */
  datatype Attribute = Numeric(code: nat) | LineSkip | LineActivation | HaveItem | LackItem

  datatype Operator = LessThan | LessEq | Greater | GreaterEq | Equal | NotEqual | Misc | OtherOperator

  datatype Limit = Acap | Max | Min | OtherLimit

  datatype Condition = Condition(attribute: Attribute, op: Operator, value: int, secondary: int)

  /** bf_target, without the saved best command sequence. */
  datatype Target = Target(attribute: Attribute, limit: Limit, value: int,
                           enabled: bool, evaluated: bool, bestValue: int)

  /**
   * The game state the conditions read: numeric attributes by code (with
   * whatever value the game gives an unknown code), whether the display
   * player has an item, and a line's player activation count.
   */
  datatype World = World(attribute: nat -> int, haveItem: int -> bool, playerActivations: int -> int)

  /**
   * dsda_BFAttribute: a numeric attribute reads the game's value for its
   * code; a misc attribute has none and reads 0 (the `default:` case).
   */
  function AttributeValue(w: World, a: Attribute): (v: int)
    ensures !a.Numeric? ==> v == 0
  {
    if a.Numeric? then w.attribute(a.code) else 0
  }

  /**
   * dsda_BFMiscConditionReached: a line was activated exactly `secondary`
   * times (skip) or more than that (activation), an item is held or not.
   */
  function MiscConditionReached(w: World, c: Condition): (r: bool)
    ensures c.attribute.Numeric? ==> !r
    ensures c.attribute == LineSkip ==> (r <==> w.playerActivations(c.value) == c.secondary)
    ensures c.attribute == LineActivation ==> (r <==> w.playerActivations(c.value) > c.secondary)
  {
    match c.attribute
    case LineSkip => w.playerActivations(c.value) == c.secondary
    case LineActivation => w.playerActivations(c.value) > c.secondary
    case HaveItem => w.haveItem(c.value)
    case LackItem => !w.haveItem(c.value)
    case Numeric(_) => false
  }

  /** Lacking an item is reached exactly when having it is not. */
  lemma LackItemIsNotHaveItem(w: World, item: int, secondary: int)
    ensures MiscConditionReached(w, Condition(LackItem, Misc, item, secondary))
        <==> !MiscConditionReached(w, Condition(HaveItem, Misc, item, secondary))
  {
  }

  /** dsda_BFConditionReached: the operator applied to the attribute's value. */
  function ConditionReached(w: World, c: Condition): (r: bool)
    ensures c.op == OtherOperator ==> !r
  {
    if c.op == Misc then MiscConditionReached(w, c)
    else
      var v := AttributeValue(w, c.attribute);
      match c.op
      case LessThan => v < c.value
      case LessEq => v <= c.value
      case Greater => v > c.value
      case GreaterEq => v >= c.value
      case Equal => v == c.value
      case NotEqual => v != c.value
      case _ => false
  }

  /** The operator testing the opposite comparison. */
  function Complement(op: Operator): Operator {
    match op
    case LessThan => GreaterEq
    case GreaterEq => LessThan
    case LessEq => Greater
    case Greater => LessEq
    case Equal => NotEqual
    case NotEqual => Equal
    case _ => op
  }

  /**
   * The six comparison operators come in complementary pairs: for any world
   * exactly one of a condition and its complement is reached; and `<=` is
   * reached exactly when `<` or `==` is.
   */
  lemma ComparisonsComplement(w: World, c: Condition)
    requires c.op !in {Misc, OtherOperator}
    ensures ConditionReached(w, c.(op := Complement(c.op))) <==> !ConditionReached(w, c)
    ensures ConditionReached(w, c.(op := LessEq))
        <==> ConditionReached(w, c.(op := LessThan)) || ConditionReached(w, c.(op := Equal))
  {
  }

  const Two31 := 0x8000_0000
  const Two32 := 0x1_0000_0000

  /** An `int` (fixed_t) result: the exact value wrapped to 32-bit two's complement. */
  function Wrap32(x: int): (r: int)
    ensures -Two31 <= r < Two31
    ensures -Two31 <= x < Two31 ==> r == x
  {
    (x + Two31) % Two32 - Two31
  }

  /** C `abs` on an `int`: the negation wraps, so abs(INT_MIN) stays INT_MIN. */
  function CAbs(x: int): int {
    if x < 0 then Wrap32(-x) else x
  }

  /** The acap distance as computed: abs of the wrapped difference. */
  function Distance(a: int, b: int): int {
    CAbs(Wrap32(a - b))
  }

  /**
   * Whenever the difference fits in an `int` and is not INT_MIN, the
   * computed distance is the exact one; INT_MIN itself comes out negative.
   */
  lemma DistanceExact(a: int, b: int)
    ensures -Two31 < a - b < Two31 ==> Distance(a, b) == if a >= b then a - b else b - a
    ensures a - b == -Two31 ==> Distance(a, b) == -Two31
  {
  }

  /**
   * dsda_BFNewBestResult: anything beats an unevaluated target; otherwise
   * acap wants strictly closer to the target value, max strictly greater,
   * min strictly smaller than the best so far.
   */
  function NewBestResult(t: Target, value: int): (r: bool)
    ensures !t.evaluated ==> r
    ensures t.evaluated && t.limit == OtherLimit ==> !r
  {
    if !t.evaluated then true
    else
      match t.limit
      case Acap => Distance(value, t.value) < Distance(t.bestValue, t.value)
      case Max => value > t.bestValue
      case Min => value < t.bestValue
      case OtherLimit => false
  }

  /**
   * Once a target is evaluated, "better" is a strict order: the best value
   * never beats itself, and a value beating a value that beats the best
   * also beats the best.
   */
  lemma NewBestIsStrict(t: Target, v1: int, v2: int)
    requires t.evaluated
    ensures !NewBestResult(t, t.bestValue)
    ensures NewBestResult(t.(bestValue := v1), v2) && NewBestResult(t, v1) ==> NewBestResult(t, v2)
  {
  }

  /** How many of the conditions hold: the count the source's loop sums. */
  function CountReached(w: World, conds: seq<Condition>): (n: nat)
    ensures n <= |conds|
  {
    if conds == [] then 0
    else CountReached(w, conds[..|conds| - 1]) + (if ConditionReached(w, conds[|conds| - 1]) then 1 else 0)
  }

  predicate AllReached(w: World, conds: seq<Condition>) {
    forall i :: 0 <= i < |conds| ==> ConditionReached(w, conds[i])
  }

  /** The count reaches the number of conditions exactly when all hold. */
  lemma {:induction false} CountReachedAll(w: World, conds: seq<Condition>)
    ensures CountReached(w, conds) == |conds| <==> AllReached(w, conds)
  {
    if conds != [] {
      var init := conds[..|conds| - 1];
      CountReachedAll(w, init);
      assert forall i :: 0 <= i < |init| ==> init[i] == conds[i];
    }
  }

  /** What one evaluation at the search depth decides. */
  datatype Outcome = Continue | Success | Failure

  /**
   * The decision of dsda_EvaluateBruteForce once the frame is the search
   * depth and the volume has been counted: success when the conditions are
   * reached, else at the volume limit success iff an enabled target was
   * evaluated, else go on.
   */
  function EvaluateOutcome(reached: bool, volume: int, volumeMax: int, t: Target): (o: Outcome)
    ensures o == Continue <==> !reached && volume < volumeMax
    ensures o == Success <==> reached || (volume >= volumeMax && t.enabled && t.evaluated)
  {
    if reached then Success
    else if volume >= volumeMax then
      (if t.enabled && t.evaluated then Success else Failure)
    else Continue
  }

  /** Which key frame dsda_UpdateBruteForce restores or stores. */
  datatype KeyFrameAction = Restore(frame: int) | Store(frame: int)

  /** The search state: the static variables of brute_force.c. */
  class BruteForceState {
    var conditions: seq<Condition>
    var target: Target
    var volume: int
    var volumeMax: int
    var mode: bool
    var ended: bool
    var depth: int
    var logictic: int
    /** bf_result: the commands of the successful attempt. */
    var result: array<Build.TicCmd>

    ghost predicate Valid()
      reads this
    {
      |conditions| <= MaxConditions && 0 <= depth <= MaxDepth && result.Length == MaxDepth
    }

    /** Static zero initial state, with no conditions and no target. */
    constructor ()
      ensures Valid()
      ensures conditions == [] && !target.enabled && !target.evaluated
      ensures volume == 0 && volumeMax == 0 && !mode && !ended && depth == 0 && logictic == 0
      ensures fresh(result)
    {
      conditions := [];
      target := Target(Numeric(0), Acap, 0, false, false, 0);
      volume := 0;
      volumeMax := 0;
      mode := false;
      ended := false;
      depth := 0;
      logictic := 0;
      result := new Build.TicCmd[MaxDepth](_ => Build.EmptyCmd);
    }

    /** dsda_BruteForce */
    method BruteForceActive() returns (r: bool)
      ensures r == mode
    {
      r := mode;
    }

    /** dsda_BruteForceEnded */
    method BruteForceEnded() returns (r: bool)
      ensures r == ended
    {
      r := ended;
    }

    /**
     * dsda_BFEvaluateTarget: computes whether the target's value is a new
     * best and drops the answer, so the target is left as it was.
     */
    method EvaluateTarget(w: World)
      ensures unchanged(this)
    {
      var value := AttributeValue(w, target.attribute);
      var _ := NewBestResult(target, value);
    }

    /**
     * dsda_BFConditionsReached: counts the conditions that hold; all of
     * them holding is success only without a target (with one, the target
     * is evaluated instead and the answer is no).
     */
    method ConditionsReached(w: World) returns (r: bool)
      ensures r <==> AllReached(w, conditions) && !target.enabled
    {
      var reached := 0;
      var i := 0;
      while i < |conditions|
        invariant 0 <= i <= |conditions|
        invariant reached == CountReached(w, conditions[..i])
      {
        assert conditions[..i + 1][..i] == conditions[..i];
        reached := reached + (if ConditionReached(w, conditions[i]) then 1 else 0);
        i := i + 1;
      }
      assert conditions[..i] == conditions;
      CountReachedAll(w, conditions);
      if reached == |conditions| && target.enabled {
        EvaluateTarget(w);
        return false;
      }
      r := reached == |conditions|;
    }

    /**
     * dsda_EndBF: marks the search ended and off; on success the found
     * commands bf_result[0..bf_depth) become the build queue, on failure
     * skip mode is left.
     */
    method EndBF(success: bool, build: Build.BuildState)
      requires Valid()
      modifies this`ended, this`mode
      modifies build`cmds, build`depth, build`originalDepth, build`skipMode
      ensures ended && !mode
      ensures success ==> build.Valid() && build.depth == depth
                          && build.Remaining() == result[..depth]
                          && build.skipMode == old(build.skipMode)
      ensures !success ==> !build.skipMode && build.cmds == old(build.cmds)
                           && build.depth == old(build.depth)
                           && build.originalDepth == old(build.originalDepth)
    {
      ended := true;
      mode := false;
      if success {
        build.QueueBuildCommands(result, depth);
      } else {
        build.ExitSkipMode();
      }
    }

    /**
     * dsda_EvaluateBruteForce at logic tic `trueLogictic`: off the search
     * depth nothing changes; at it the volume grows by one and the search
     * ends as EvaluateOutcome decides.
     */
    method EvaluateBruteForce(w: World, trueLogictic: int, build: Build.BuildState)
      requires Valid()
      modifies this`volume, this`ended, this`mode
      modifies build`cmds, build`depth, build`originalDepth, build`skipMode
      ensures trueLogictic - logictic != depth ==> unchanged(this, build)
      ensures trueLogictic - logictic == depth ==> volume == old(volume) + 1
      ensures trueLogictic - logictic == depth ==>
                var o := EvaluateOutcome(AllReached(w, conditions) && !target.enabled,
                                         volume, volumeMax, target);
                (o == Continue ==> ended == old(ended) && mode == old(mode) && unchanged(build))
                && (o == Success ==> ended && !mode && build.Valid()
                                     && build.Remaining() == result[..depth]
                                     && build.skipMode == old(build.skipMode))
                && (o == Failure ==> ended && !mode && !build.skipMode
                                     && build.cmds == old(build.cmds)
                                     && build.depth == old(build.depth)
                                     && build.originalDepth == old(build.originalDepth))
    {
      if trueLogictic - logictic != depth {
        return;
      }
      volume := volume + 1;
      var reached := ConditionsReached(w);
      if reached {
        EndBF(true, build);
      } else if volume >= volumeMax {
        if target.enabled && target.evaluated {
          EndBF(true, build);
        } else {
          EndBF(false, build);
        }
      }
    }

    /**
     * dsda_UpdateBruteForce: at the search depth the attempt is rewound to
     * its key frame, at every earlier frame the frame is stored.
     */
    method UpdateBruteForce(trueLogictic: int) returns (action: KeyFrameAction)
      ensures action.frame == trueLogictic - logictic
      ensures action.Restore? <==> trueLogictic - logictic == depth
    {
      var frame := trueLogictic - logictic;
      if frame == depth {
        action := Restore(frame);
      } else {
        action := Store(frame);
      }
    }
  }

  /**
   * With a target enabled that was never evaluated, the search cannot
   * succeed: the conditions alone never count as reached and the volume
   * limit only accepts an evaluated target.
   */
  lemma UnevaluatedTargetNeverSucceeds(w: World, conds: seq<Condition>, volume: int, volumeMax: int, t: Target)
    requires t.enabled && !t.evaluated
    ensures EvaluateOutcome(AllReached(w, conds) && !t.enabled, volume, volumeMax, t) != Success
  {
  }

  /**
   * Each evaluation at the search depth adds one to the volume, and once
   * the volume reaches its maximum the search ends, so it ends after at
   * most volumeMax - volume more attempts.
   */
  lemma VolumeBoundEnds(reached: bool, volume: int, volumeMax: int, t: Target, attempts: nat)
    requires attempts >= volumeMax - volume
    ensures EvaluateOutcome(reached, volume + attempts, volumeMax, t) != Continue
  {
  }
}
