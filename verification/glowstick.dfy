/**
 * The glow stick item: a three-state machine (primed, cracked, off) with a
 * fold counter, driven by the fold event. Cracking the stick (folding the
 * sheet along the joint it sits on) switches on two glow-stick boxes and
 * lights every crystal shard; when the counter is positive, it goes out
 * after `lifetime` further folds, switching the boxes off and darkening the
 * shards.
 */
module GlowStickLogic {
  import opened CSharpInt

  /** Identity of a paper joint; fold data lists the joints on the fold line. */
  type JointId = nat

  /** Handle of a material asset that the inner renderer can show. */
  type MaterialId = nat

  /** Default number of folds a cracked stick stays lit for. */
  const DefaultLifetime: Int32 := 4

  /** Index into `materials` of the lit and of the spent appearance. */
  const CrackedMaterial: nat := 1
  const OffMaterial: nat := 2

  datatype GlowstickState = Primed | Cracked | Off

  /** Position of a state in the only order the stick may move through. */
  function Rank(st: GlowstickState): (n: nat)
  {
    match st
    case Primed => 0
    case Cracked => 1
    case Off => 2
  }

  /**
   * How a fold event handler call ends: normally, or by the list indexer
   * throwing `ArgumentOutOfRangeException` because `materials` has no entry
   * at the given index.
   */
  datatype FoldOutcome = Completed | ArgumentOutOfRange(index: nat)

  /**
   * Everything one fold event can change: the stick's own state, counter
   * and rendered material, the flags of its two boxes and the particle flag
   * of every crystal shard.
   */
  datatype Snapshot = Snapshot(
    state: GlowstickState,
    lifetime: Int32,
    box1Active: bool,
    box2Active: bool,
    rendered: MaterialId,
    lit: seq<bool>)

  datatype Reaction = Reaction(after: Snapshot, outcome: FoldOutcome)

  /** Every shard's particle flag set to `on`, as the shard loop leaves them. */
  function AllShards(n: nat, on: bool): (r: seq<bool>)
    ensures |r| == n && forall i :: 0 <= i < n ==> r[i] == on
  {
    seq(n, _ => on)
  }

  /**
   * The reaction of a stick sitting on joint `joint` to one completed fold
   * whose fold line holds `axisJoints`, given the renderer's material list.
   * The cracked branch is tested first; the primed branch then sees the
   * state the cracked branch left.
   */
  function Fold(s: Snapshot, axisJoints: seq<JointId>, joint: JointId, materials: seq<MaterialId>): (r: Reaction)
    // the counter moves only while cracked, by exactly one (with 32-bit wrap)
    ensures s.state == Cracked ==> (r.after.lifetime - (s.lifetime - 1)) % Modulus == 0
    ensures s.state != Cracked ==> r.after.lifetime == s.lifetime
    ensures r.after.lifetime <= s.lifetime || s.lifetime == Min
    // a cracked stick goes off exactly when the decremented counter is 0
    ensures s.state == Cracked ==>
      (r.after.state == Off <==> Decrement(s.lifetime) == 0) &&
      (r.after.state != Off ==> r.after == s.(lifetime := r.after.lifetime) && r.outcome == Completed)
    ensures s.state == Cracked && r.after.state == Off ==>
      r.after.lifetime == 0 && !r.after.box1Active && !r.after.box2Active &&
      (r.outcome == Completed <==> OffMaterial < |materials|) &&
      (r.outcome == Completed ==> r.after.rendered == materials[OffMaterial] && r.after.lit == AllShards(|s.lit|, false)) &&
      (r.outcome != Completed ==> r.outcome == ArgumentOutOfRange(OffMaterial) && r.after.lit == s.lit && r.after.rendered == s.rendered)
    // a primed stick cracks exactly when its joint lies on the fold line
    ensures s.state == Primed ==> (r.after.state == Cracked <==> joint in axisJoints)
    ensures s.state == Primed && joint in axisJoints ==>
      r.after.lifetime == s.lifetime && r.after.box1Active && r.after.box2Active &&
      (r.outcome == Completed <==> CrackedMaterial < |materials|) &&
      (r.outcome == Completed ==> r.after.rendered == materials[CrackedMaterial] && r.after.lit == AllShards(|s.lit|, true)) &&
      (r.outcome != Completed ==> r.outcome == ArgumentOutOfRange(CrackedMaterial) && r.after.lit == s.lit && r.after.rendered == s.rendered)
    // nothing happens to a spent stick or to a primed stick off the fold line
    ensures s.state == Off || (s.state == Primed && joint !in axisJoints) ==> r == Reaction(s, Completed)
    // the state only moves forward, one step at a time
    ensures Rank(s.state) <= Rank(r.after.state) <= Rank(s.state) + 1
    ensures |r.after.lit| == |s.lit|
  {
    match s.state
    case Cracked =>
      var left := Decrement(s.lifetime);
      if left == 0 then
        var t := s.(state := Off, lifetime := left, box1Active := false, box2Active := false);
        if OffMaterial < |materials| then
          Reaction(t.(rendered := materials[OffMaterial], lit := AllShards(|s.lit|, false)), Completed)
        else
          Reaction(t, ArgumentOutOfRange(OffMaterial))
      else
        Reaction(s.(lifetime := left), Completed)
    case Primed =>
      if joint in axisJoints then
        var t := s.(state := Cracked, box1Active := true, box2Active := true);
        if CrackedMaterial < |materials| then
          Reaction(t.(rendered := materials[CrackedMaterial], lit := AllShards(|s.lit|, true)), Completed)
        else
          Reaction(t, ArgumentOutOfRange(CrackedMaterial))
      else
        Reaction(s, Completed)
    case Off =>
      Reaction(s, Completed)
  }

  /** A box that lets the crystals near it glow while its flag is set. */
  class GlowstickBox {
    var glowstickActive: bool

    constructor (active: bool)
      ensures glowstickActive == active
    {
      glowstickActive := active;
    }
  }

  class GlowStick {
    var lifetime: Int32
    var state: GlowstickState
    var box1: GlowstickBox
    var box2: GlowstickBox
    /** The renderer's material list. */
    var materials: seq<MaterialId>
    /** The material the inner renderer currently shows. */
    var rendered: MaterialId
    /** Particle flag of every crystal shard of the scene (shared with other sticks). */
    var shards: array<bool>
    /** The joint the stick sits on. */
    const paperJoint: JointId

    /**
     * A primed stick with the default lifetime; the scene supplies its
     * boxes, materials, the shards and the joint it sits on.
     */
    constructor (box1: GlowstickBox, box2: GlowstickBox, materials: seq<MaterialId>,
                 rendered: MaterialId, shards: array<bool>, paperJoint: JointId)
      ensures state == Primed && lifetime == DefaultLifetime
      ensures this.box1 == box1 && this.box2 == box2 && this.shards == shards
      ensures this.materials == materials && this.rendered == rendered && this.paperJoint == paperJoint
    {
      this.lifetime := DefaultLifetime;
      this.state := Primed;
      this.box1 := box1;
      this.box2 := box2;
      this.materials := materials;
      this.rendered := rendered;
      this.shards := shards;
      this.paperJoint := paperJoint;
    }

    /** The part of the scene a fold event can change. */
    ghost function View(): (v: Snapshot)
      reads this, box1, box2, shards
    {
      Snapshot(state, lifetime, box1.glowstickActive, box2.glowstickActive, rendered, shards[..])
    }

    /** Handler of the fold event: reacts to a completed fold. */
    method OnFold(axisJoints: seq<JointId>) returns (outcome: FoldOutcome)
      modifies this`state, this`lifetime, this`rendered, box1, box2, shards
      ensures Reaction(View(), outcome) == Fold(old(View()), axisJoints, paperJoint, materials)
    {
      outcome := Completed;
      if state == Cracked {
        lifetime := Decrement(lifetime);
        if lifetime == 0 {
          state := Off;
          ToggleGSBoxes(false);
          if OffMaterial >= |materials| {
            return ArgumentOutOfRange(OffMaterial);
          }
          rendered := materials[OffMaterial];
          ActivateShards(false);
        }
      }
      if state == Primed && paperJoint in axisJoints {
        state := Cracked;
        ToggleGSBoxes(true);
        if CrackedMaterial >= |materials| {
          return ArgumentOutOfRange(CrackedMaterial);
        }
        rendered := materials[CrackedMaterial];
        ActivateShards(true);
      }
    }

    /** Sets both boxes' flags to `toggle` and changes nothing else. */
    method ToggleGSBoxes(toggle: bool)
      modifies box1, box2
      ensures box1.glowstickActive == toggle && box2.glowstickActive == toggle
    {
      box1.glowstickActive := toggle;
      box2.glowstickActive := toggle;
    }

    /** Switches the particles of every crystal shard on or off. */
    method ActivateShards(on: bool)
      modifies shards
      ensures shards[..] == AllShards(shards.Length, on)
    {
      for i := 0 to shards.Length
        invariant forall j :: 0 <= j < i ==> shards[j] == on
      {
        shards[i] := on;
      }
    }
  }
}
