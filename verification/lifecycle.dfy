/**
 * What a sequence of fold events does to a glow stick: the state only
 * moves forward, a cracked stick goes out after exactly as many folds as
 * its counter says (counting through the 32-bit wrap-around when the
 * counter starts at zero or below), and a spent stick never changes again.
 */
module GlowStickLifecycle {
  import opened CSharpInt
  import opened GlowStickLogic

  /** The stick after the folds `folds` (each one the fold line's joints), in order. */
  function Run(s: Snapshot, folds: seq<seq<JointId>>, joint: JointId, materials: seq<MaterialId>): (r: Snapshot)
    decreases |folds|
  {
    if folds == [] then s
    else Run(Fold(s, folds[0], joint, materials).after, folds[1..], joint, materials)
  }

  /**
   * The number of decrements that first bring a cracked stick's counter to 0:
   * the counter itself when positive, otherwise the way round through the
   * wrap from the smallest 32-bit value to the largest.
   */
  function FoldsUntilOff(lifetime: Int32): (n: nat)
  {
    if lifetime > 0 then lifetime else lifetime + Modulus
  }

  /** One fold of a cracked stick brings it one fold closer to going out. */
  lemma FoldsUntilOffStep(l: Int32)
    requires Decrement(l) != 0
    ensures FoldsUntilOff(Decrement(l)) == FoldsUntilOff(l) - 1
  {
  }

  /**
   * A cracked stick stays cracked for fewer than FoldsUntilOff folds, its
   * counter running down (modulo 2^32), and is off from then on with its
   * counter at 0, whatever joints the folds hold.
   */
  lemma {:induction false} CrackedRun(s: Snapshot, folds: seq<seq<JointId>>, joint: JointId, materials: seq<MaterialId>)
    requires s.state == Cracked
    ensures var r := Run(s, folds, joint, materials);
      if |folds| < FoldsUntilOff(s.lifetime) then
        r.state == Cracked && r.lifetime == Wrap(s.lifetime - |folds|)
      else
        r.state == Off && r.lifetime == 0
    decreases |folds|
  {
    if folds == [] {
      WrapInRange(s.lifetime);
    } else {
      var t := Fold(s, folds[0], joint, materials).after;
      assert Run(s, folds, joint, materials) == Run(t, folds[1..], joint, materials);
      if t.state == Off {
        OffRun(t, folds[1..], joint, materials);
      } else {
        FoldsUntilOffStep(s.lifetime);
        CrackedRun(t, folds[1..], joint, materials);
        DecrementThenWrap(s.lifetime, |folds| - 1);
      }
    }
  }

  /** A stick that is off ignores every later fold. */
  lemma {:induction false} OffRun(s: Snapshot, folds: seq<seq<JointId>>, joint: JointId, materials: seq<MaterialId>)
    requires s.state == Off
    ensures Run(s, folds, joint, materials) == s
    decreases |folds|
  {
    if folds != [] {
      OffRun(Fold(s, folds[0], joint, materials).after, folds[1..], joint, materials);
    }
  }

  /**
   * With a positive counter n, a cracked stick goes out on exactly the n-th
   * fold: still cracked after fewer folds, off after n or more.
   */
  lemma CrackedGoesOffAfterLifetime(s: Snapshot, folds: seq<seq<JointId>>, joint: JointId, materials: seq<MaterialId>)
    requires s.state == Cracked && s.lifetime > 0
    ensures Run(s, folds, joint, materials).state == (if |folds| < s.lifetime then Cracked else Off)
    ensures |folds| < s.lifetime ==> Run(s, folds, joint, materials).lifetime == s.lifetime - |folds|
  {
    CrackedRun(s, folds, joint, materials);
    if |folds| < s.lifetime {
      WrapInRange(s.lifetime - |folds|);
    }
  }

  /**
   * With a counter of zero or below, the test for 0 fails until the counter
   * has wrapped round: the stick stays cracked for every run of fewer than
   * `lifetime + 2^32` folds (in particular for more than 2^31 - 1 folds).
   */
  lemma CrackedNonPositiveLifetime(s: Snapshot, folds: seq<seq<JointId>>, joint: JointId, materials: seq<MaterialId>)
    requires s.state == Cracked && s.lifetime <= 0
    ensures Run(s, folds, joint, materials).state == (if |folds| < s.lifetime + Modulus then Cracked else Off)
    ensures |folds| <= Max ==> Run(s, folds, joint, materials).state == Cracked
  {
    CrackedRun(s, folds, joint, materials);
  }

  /**
   * The fold that cracks a primed stick does not count against its lifetime:
   * with a positive counter n it is lit for the cracking fold and n - 1 more,
   * and goes out on the (n + 1)-th fold.
   */
  lemma PrimedLifecycle(s: Snapshot, folds: seq<seq<JointId>>, joint: JointId, materials: seq<MaterialId>)
    requires s.state == Primed && s.lifetime > 0
    requires |folds| > 0 && joint in folds[0]
    ensures Run(s, folds, joint, materials).state == (if |folds| <= s.lifetime then Cracked else Off)
  {
    var t := Fold(s, folds[0], joint, materials).after;
    assert Run(s, folds, joint, materials) == Run(t, folds[1..], joint, materials);
    CrackedGoesOffAfterLifetime(t, folds[1..], joint, materials);
  }

  /** Folding `a` and then `b` is folding `a + b`. */
  lemma {:induction false} RunAppend(s: Snapshot, a: seq<seq<JointId>>, b: seq<seq<JointId>>, joint: JointId, materials: seq<MaterialId>)
    ensures Run(s, a + b, joint, materials) == Run(Run(s, a, joint, materials), b, joint, materials)
    decreases |a|
  {
    if a == [] {
      assert a + b == b;
    } else {
      assert (a + b)[0] == a[0] && (a + b)[1..] == a[1..] + b;
      RunAppend(Fold(s, a[0], joint, materials).after, a[1..], b, joint, materials);
    }
  }

  /** The state after a run of folds is never earlier than the state before it. */
  lemma {:induction false} RunEndsNoEarlier(s: Snapshot, folds: seq<seq<JointId>>, joint: JointId, materials: seq<MaterialId>)
    ensures Rank(s.state) <= Rank(Run(s, folds, joint, materials).state)
    decreases |folds|
  {
    if folds != [] {
      RunEndsNoEarlier(Fold(s, folds[0], joint, materials).after, folds[1..], joint, materials);
    }
  }

  /**
   * Over any run of folds the state never returns to an earlier one: of any
   * two points in the run, the later one is no earlier in the order primed,
   * cracked, off.
   */
  lemma RunMovesForward(s: Snapshot, folds: seq<seq<JointId>>, joint: JointId, materials: seq<MaterialId>)
    ensures forall i, j :: 0 <= i <= j <= |folds| ==>
      Rank(Run(s, folds[..i], joint, materials).state) <= Rank(Run(s, folds[..j], joint, materials).state)
  {
    forall i, j | 0 <= i <= j <= |folds|
      ensures Rank(Run(s, folds[..i], joint, materials).state) <= Rank(Run(s, folds[..j], joint, materials).state)
    {
      assert folds[..j] == folds[..i] + folds[i..j];
      RunAppend(s, folds[..i], folds[i..j], joint, materials);
      RunEndsNoEarlier(Run(s, folds[..i], joint, materials), folds[i..j], joint, materials);
    }
  }

  /** A primed stick stays primed, untouched, while no fold line holds its joint. */
  lemma {:induction false} PrimedWaits(s: Snapshot, folds: seq<seq<JointId>>, joint: JointId, materials: seq<MaterialId>)
    requires s.state == Primed
    requires forall i :: 0 <= i < |folds| ==> joint !in folds[i]
    ensures Run(s, folds, joint, materials) == s
    decreases |folds|
  {
    if folds != [] {
      PrimedWaits(s, folds[1..], joint, materials);
    }
  }
}
