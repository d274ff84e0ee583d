/**
 * The blob arena of lib/game/PhysicsEngine.ts: moving blobs with wall bounces,
 * "bigger eats smaller" absorption, and the backward pair loop of `update`.
 * Coordinates, velocities, radii and masses are reals; `Math.sqrt` is a
 * parameter and `Math.random() > 0.5` is a coin given as input.
 */
module Physics {
  import opened Wrappers

  datatype Blob = Blob(
    id: string,
    x: real, y: real,
    vx: real, vy: real,
    radius: real,
    color: string,
    mass: real,
    name: Option<string>,
    payoutAddress: Option<string>)

  /** What `Math.sqrt` promises: a non-negative square root of every non-negative real. */
  ghost predicate IsSqrt(sqrt: real -> real)
  {
    forall a: real {:trigger sqrt(a)} :: a >= 0.0 ==> sqrt(a) >= 0.0 && sqrt(a) * sqrt(a) == a
  }

  /**
   * One axis of the move step: advance by the velocity, then the low-wall clamp,
   * then the high-wall clamp, each of which reverses the velocity.
   */
  function ClampAxis(pos: real, vel: real, radius: real, limit: real): (r: (real, real))
    ensures r.0 + radius <= limit
    ensures limit >= 2.0 * radius ==> r.0 >= radius
    ensures r.1 == vel || r.1 == -vel
    ensures radius <= pos + vel <= limit - radius ==> r == (pos + vel, vel)
    ensures pos + vel < radius && limit >= 2.0 * radius ==> r == (radius, -vel)
    ensures pos + vel > limit - radius && pos + vel >= radius ==> r == (limit - radius, -vel)
  {
    var p := pos + vel;
    var (p1, v1) := if p - radius < 0.0 then (radius, -vel) else (p, vel);
    if p1 + radius > limit then (limit - radius, -v1) else (p1, v1)
  }

  /** The `forEach` body of `update`: a moved blob stays inside the arena and only its position and velocity change. */
  function MoveBlob(b: Blob, width: real, height: real): (r: Blob)
    ensures r.x + r.radius <= width && r.y + r.radius <= height
    ensures width >= 2.0 * b.radius ==> r.x >= r.radius
    ensures height >= 2.0 * b.radius ==> r.y >= r.radius
    ensures (r.vx == b.vx || r.vx == -b.vx) && (r.vy == b.vy || r.vy == -b.vy)
    ensures r.(x := b.x, y := b.y, vx := b.vx, vy := b.vy) == b
  {
    var (x, vx) := ClampAxis(b.x, b.vx, b.radius, width);
    var (y, vy) := ClampAxis(b.y, b.vy, b.radius, height);
    b.(x := x, y := y, vx := vx, vy := vy)
  }

  /** Every blob moved once, in place. */
  function MoveAll(s: seq<Blob>, width: real, height: real): (r: seq<Blob>)
    ensures |r| == |s|
    ensures forall k :: 0 <= k < |s| ==> r[k] == MoveBlob(s[k], width, height)
  {
    seq(|s|, k requires 0 <= k < |s| => MoveBlob(s[k], width, height))
  }

  /** Sum of the masses of a blob list. */
  function TotalMass(s: seq<Blob>): real
  {
    if s == [] then 0.0 else s[0].mass + TotalMass(s[1..])
  }

  /** `splice(k, 1)`. */
  function RemoveAt(s: seq<Blob>, k: int): (r: seq<Blob>)
    requires 0 <= k < |s|
    ensures |r| == |s| - 1
    ensures forall m :: 0 <= m < k ==> r[m] == s[m]
    ensures forall m :: k < m < |s| ==> r[m - 1] == s[m]
  {
    s[..k] + s[k + 1..]
  }

  lemma {:induction false} TotalMassRemoveAt(s: seq<Blob>, k: int)
    requires 0 <= k < |s|
    ensures TotalMass(RemoveAt(s, k)) == TotalMass(s) - s[k].mass
    decreases k
  {
    if k > 0 {
      var r := RemoveAt(s, k);
      assert r[0] == s[0];
      assert r[1..] == RemoveAt(s[1..], k - 1);
      TotalMassRemoveAt(s[1..], k - 1);
    } else {
      assert RemoveAt(s, k) == s[1..];
    }
  }

  lemma {:induction false} TotalMassUpdate(s: seq<Blob>, k: int, b: Blob)
    requires 0 <= k < |s|
    ensures TotalMass(s[k := b]) == TotalMass(s) - s[k].mass + b.mass
    decreases k
  {
    var t := s[k := b];
    if k == 0 {
      assert t[1..] == s[1..];
    } else {
      assert t[0] == s[0];
      assert t[1..] == s[1..][k - 1 := b];
      TotalMassUpdate(s[1..], k - 1, b);
    }
  }

  /** Which of `idx1`, `idx2` is eaten: the strictly smaller radius, else the coin's pick (true keeps `idx1` as predator). */
  function PreyIndex(s: seq<Blob>, idx1: int, idx2: int, coin: bool): (q: int)
    requires 0 <= idx1 < |s| && 0 <= idx2 < |s|
    ensures q == idx1 || q == idx2
    ensures s[idx1].radius < s[idx2].radius ==> q == idx1
    ensures s[idx2].radius < s[idx1].radius ==> q == idx2
    ensures s[idx1].radius == s[idx2].radius ==> q == (if coin then idx2 else idx1)
  {
    if s[idx1].radius > s[idx2].radius then idx2
    else if s[idx2].radius > s[idx1].radius then idx1
    else if coin then idx2
    else idx1
  }

  /** `(m1 * v1 + m2 * v2) / (m1 + m2)`; a zero denominator, NaN in the source, gives 0 here. */
  function Average(m1: real, v1: real, m2: real, v2: real): (r: real)
    ensures m1 + m2 != 0.0 ==> (m1 + m2) * r == m1 * v1 + m2 * v2
  {
    if m1 + m2 == 0.0 then 0.0 else (m1 * v1 + m2 * v2) / (m1 + m2)
  }

  /**
   * The predator after absorbing the prey: area-preserving radius, summed mass,
   * and velocities averaged with the already increased mass as weight.
   */
  function Absorbed(predator: Blob, prey: Blob, sqrt: real -> real): (r: Blob)
    ensures r.mass == predator.mass + prey.mass
    ensures IsSqrt(sqrt) ==>
      r.radius >= 0.0 && r.radius * r.radius == predator.radius * predator.radius + prey.radius * prey.radius
    ensures r.mass + prey.mass != 0.0 ==>
      (r.mass + prey.mass) * r.vx == r.mass * predator.vx + prey.mass * prey.vx &&
      (r.mass + prey.mass) * r.vy == r.mass * predator.vy + prey.mass * prey.vy
    ensures r.(radius := predator.radius, mass := predator.mass, vx := predator.vx, vy := predator.vy) == predator
  {
    var area := predator.radius * predator.radius + prey.radius * prey.radius;
    assert area >= 0.0;
    var mass := predator.mass + prey.mass;
    predator.(radius := sqrt(area), mass := mass,
              vx := Average(mass, predator.vx, prey.mass, prey.vx),
              vy := Average(mass, predator.vy, prey.mass, prey.vy))
  }

  /** The other index of the pair. */
  function Other(idx1: int, idx2: int, q: int): int
  {
    if q == idx1 then idx2 else idx1
  }

  /** Where blob `k` sits after the blob at `q` is spliced out. */
  function Shifted(k: int, q: int): int
  {
    if k < q then k else k - 1
  }

  /**
   * `handleCollision`: nothing when an index is out of range; otherwise the
   * predator absorbs the prey and the prey is spliced out. The same index twice
   * makes a blob eat itself and disappear.
   */
  function Collide(s: seq<Blob>, idx1: int, idx2: int, sqrt: real -> real, coin: bool): (r: seq<Blob>)
    ensures !(0 <= idx1 < |s| && 0 <= idx2 < |s|) ==> r == s
    ensures 0 <= idx1 < |s| && 0 <= idx2 < |s| ==> |r| == |s| - 1
    ensures 0 <= idx1 < |s| && 0 <= idx2 < |s| && idx1 != idx2 ==> TotalMass(r) == TotalMass(s)
  {
    if !(0 <= idx1 < |s| && 0 <= idx2 < |s|) then s
    else if idx1 == idx2 then RemoveAt(s, idx1)
    else
      var q := PreyIndex(s, idx1, idx2, coin);
      var p := Other(idx1, idx2, q);
      var t := s[p := Absorbed(s[p], s[q], sqrt)];
      TotalMassUpdate(s, p, Absorbed(s[p], s[q], sqrt));
      TotalMassRemoveAt(t, q);
      RemoveAt(t, q)
  }

  /**
   * With two distinct valid indices exactly the prey is removed: the predator
   * is replaced by its absorbed self and every other blob keeps its value and order.
   */
  lemma CollideRemovesPrey(s: seq<Blob>, idx1: int, idx2: int, sqrt: real -> real, coin: bool)
    requires 0 <= idx1 < |s| && 0 <= idx2 < |s| && idx1 != idx2
    ensures var q := PreyIndex(s, idx1, idx2, coin);
      var p := Other(idx1, idx2, q);
      var r := Collide(s, idx1, idx2, sqrt, coin);
      && r[Shifted(p, q)] == Absorbed(s[p], s[q], sqrt)
      && s[q].radius <= s[p].radius
      && (forall k :: 0 <= k < |s| && k != p && k != q ==> r[Shifted(k, q)] == s[k])
  {
  }

  /** The state of the pair loop when `update` stops: it ran to the end, or it read `blobs[index]` past the end. */
  datatype PassResult = Completed(blobs: seq<Blob>) | ReadPastEnd(blobs: seq<Blob>, index: int)

  /** The overlap test of the pair loop: centre distance below the sum of the radii. */
  predicate Overlap(b1: Blob, b2: Blob, sqrt: real -> real)
  {
    var dx := b2.x - b1.x;
    var dy := b2.y - b1.y;
    sqrt(dx * dx + dy * dy) < b1.radius + b2.radius
  }

  /** The outer loop of `update` from index `i` downwards, as written. */
  function Outer(s: seq<Blob>, i: int, sqrt: real -> real, coin: (int, int) -> bool): (r: PassResult)
    ensures TotalMass(r.blobs) == TotalMass(s) && |r.blobs| <= |s|
    ensures r.ReadPastEnd? ==> 0 <= |r.blobs| <= r.index
    decreases i + 1, i + 1
  {
    if i < 0 then Completed(s) else Inner(s, i, i - 1, sqrt, coin)
  }

  /**
   * The inner loop at `(i, j)`, as written: `blobs[i]` is read with no bound check,
   * and once a splice has shortened the list below `i + 1` that read is `undefined`
   * and the access to its `x` throws.
   */
  function Inner(s: seq<Blob>, i: int, j: int, sqrt: real -> real, coin: (int, int) -> bool): (r: PassResult)
    requires 0 <= i && -1 <= j < i
    ensures TotalMass(r.blobs) == TotalMass(s) && |r.blobs| <= |s|
    ensures r.ReadPastEnd? ==> 0 <= |r.blobs| <= r.index
    decreases i + 1, j + 1
  {
    if j < 0 then Outer(s, i - 1, sqrt, coin)
    else if i >= |s| then ReadPastEnd(s, i)
    else
      var next := if Overlap(s[i], s[j], sqrt) then Collide(s, i, j, sqrt, coin(i, j)) else s;
      Inner(next, i, j - 1, sqrt, coin)
  }

  /** The whole collision step of `update`. */
  function CollisionPass(s: seq<Blob>, sqrt: real -> real, coin: (int, int) -> bool): (r: PassResult)
    ensures TotalMass(r.blobs) == TotalMass(s) && |r.blobs| <= |s|
    ensures r.ReadPastEnd? ==> |r.blobs| <= r.index
  {
    Outer(s, |s| - 1, sqrt, coin)
  }

  /** Three blobs on one spot in a roomy arena, standing still, with radii 10, 20 and 30. */
  function StackedBlobs(): seq<Blob>
  {
    [Blob("a", 50.0, 50.0, 0.0, 0.0, 10.0, "red", 10.0, None, None),
     Blob("b", 50.0, 50.0, 0.0, 0.0, 20.0, "green", 20.0, None, None),
     Blob("c", 50.0, 50.0, 0.0, 0.0, 30.0, "blue", 30.0, None, None)]
  }

  /**
   * As written, `update` can throw: blob 2 eats blob 1, the list shrinks to two,
   * and the next inner step reads `blobs[2]`.
   */
  lemma UpdateCanReadPastEnd(sqrt: real -> real, coin: (int, int) -> bool)
    requires sqrt(0.0) == 0.0
    ensures CollisionPass(MoveAll(StackedBlobs(), 100.0, 100.0), sqrt, coin) == ReadPastEnd(
      [Blob("a", 50.0, 50.0, 0.0, 0.0, 10.0, "red", 10.0, None, None),
       Absorbed(StackedBlobs()[2], StackedBlobs()[1], sqrt)], 2)
  {
    var s := StackedBlobs();
    var moved := MoveAll(s, 100.0, 100.0);
    assert moved == s;
    assert Overlap(s[2], s[1], sqrt);
    var t := Collide(s, 2, 1, sqrt, coin(2, 1));
    assert t == [s[0], Absorbed(s[2], s[1], sqrt)];
    assert Inner(s, 2, 1, sqrt, coin) == Inner(t, 2, 0, sqrt, coin);
  }

  /**
   * The pair loop as evidently intended: once `blobs[i]` is gone, the remaining
   * pairs for `i` are skipped, as the guard in `handleCollision` means to do.
   * It always completes, conserves the total mass and never adds blobs.
   */
  function GuardedOuter(s: seq<Blob>, i: int, sqrt: real -> real, coin: (int, int) -> bool): (r: seq<Blob>)
    ensures TotalMass(r) == TotalMass(s) && |r| <= |s|
    decreases i + 1, i + 1
  {
    if i < 0 then s else GuardedInner(s, i, i - 1, sqrt, coin)
  }

  function GuardedInner(s: seq<Blob>, i: int, j: int, sqrt: real -> real, coin: (int, int) -> bool): (r: seq<Blob>)
    requires 0 <= i && -1 <= j < i
    ensures TotalMass(r) == TotalMass(s) && |r| <= |s|
    decreases i + 1, j + 1
  {
    if j < 0 || i >= |s| then GuardedOuter(s, i - 1, sqrt, coin)
    else
      var next := if Overlap(s[i], s[j], sqrt) then Collide(s, i, j, sqrt, coin(i, j)) else s;
      GuardedInner(next, i, j - 1, sqrt, coin)
  }

  /** Where the as-written loop does complete, it agrees with the corrected one. */
  lemma {:induction false} CompletedPassAgrees(s: seq<Blob>, i: int, sqrt: real -> real, coin: (int, int) -> bool)
    requires Outer(s, i, sqrt, coin).Completed?
    ensures Outer(s, i, sqrt, coin).blobs == GuardedOuter(s, i, sqrt, coin)
    decreases i + 1, i + 1
  {
    if i >= 0 {
      CompletedInnerAgrees(s, i, i - 1, sqrt, coin);
    }
  }

  lemma {:induction false} CompletedInnerAgrees(s: seq<Blob>, i: int, j: int, sqrt: real -> real, coin: (int, int) -> bool)
    requires 0 <= i && -1 <= j < i
    requires Inner(s, i, j, sqrt, coin).Completed?
    ensures Inner(s, i, j, sqrt, coin).blobs == GuardedInner(s, i, j, sqrt, coin)
    decreases i + 1, j + 1
  {
    if j < 0 {
      CompletedPassAgrees(s, i - 1, sqrt, coin);
    } else {
      var next := if Overlap(s[i], s[j], sqrt) then Collide(s, i, j, sqrt, coin(i, j)) else s;
      CompletedInnerAgrees(next, i, j - 1, sqrt, coin);
    }
  }

  /** Momentum of a blob along each axis. */
  function Momentum(b: Blob): (real, real)
  {
    (b.mass * b.vx, b.mass * b.vy)
  }

  /**
   * As written, absorption does not conserve momentum: two unit masses, one at
   * rest and one moving at 1, merge into mass 2 moving at 1/3 instead of 1/2.
   */
  lemma AbsorbedLosesMomentum(sqrt: real -> real)
    ensures var predator := Blob("p", 0.0, 0.0, 0.0, 0.0, 10.0, "red", 1.0, None, None);
      var prey := Blob("q", 0.0, 0.0, 1.0, 0.0, 10.0, "blue", 1.0, None, None);
      var r := Absorbed(predator, prey, sqrt);
      r.vx == 1.0 / 3.0 && Momentum(r).0 != Momentum(predator).0 + Momentum(prey).0
  {
  }

  /** Absorption as evidently intended: velocities averaged with the masses before the merge. */
  function ConservingAbsorbed(predator: Blob, prey: Blob, sqrt: real -> real): (r: Blob)
    ensures r.mass == predator.mass + prey.mass
    ensures r.mass != 0.0 ==>
      Momentum(r).0 == Momentum(predator).0 + Momentum(prey).0 &&
      Momentum(r).1 == Momentum(predator).1 + Momentum(prey).1
    ensures IsSqrt(sqrt) ==>
      r.radius >= 0.0 && r.radius * r.radius == predator.radius * predator.radius + prey.radius * prey.radius
  {
    var area := predator.radius * predator.radius + prey.radius * prey.radius;
    predator.(radius := sqrt(area), mass := predator.mass + prey.mass,
              vx := Average(predator.mass, predator.vx, prey.mass, prey.vx),
              vy := Average(predator.mass, predator.vy, prey.mass, prey.vy))
  }

  /** The engine: arena size and the blob list that `update` and `handleCollision` change in place. */
  class PhysicsEngine {
    var width: real
    var height: real
    var blobs: seq<Blob>

    constructor (width: real, height: real)
      ensures this.width == width && this.height == height && blobs == []
    {
      this.width := width;
      this.height := height;
      blobs := [];
    }

    /** `addBlob`: push at the end. */
    method AddBlob(blob: Blob)
      modifies this
      ensures blobs == old(blobs) + [blob]
      ensures width == old(width) && height == old(height)
    {
      blobs := blobs + [blob];
    }

    /** `handleCollision(idx1, idx2)`. */
    method HandleCollision(idx1: int, idx2: int, sqrt: real -> real, coin: bool)
      modifies this
      ensures blobs == Collide(old(blobs), idx1, idx2, sqrt, coin)
      ensures width == old(width) && height == old(height)
    {
      if !(0 <= idx1 < |blobs| && 0 <= idx2 < |blobs|) {
        return;
      }
      if idx1 == idx2 {
        blobs := blobs[..idx1] + blobs[idx1 + 1..];
        return;
      }
      var preyIdx := PreyIndex(blobs, idx1, idx2, coin);
      var predatorIdx := if preyIdx == idx1 then idx2 else idx1;
      blobs := blobs[predatorIdx := Absorbed(blobs[predatorIdx], blobs[preyIdx], sqrt)];
      blobs := blobs[..preyIdx] + blobs[preyIdx + 1..];
    }

    /** The `forEach` step of `update`: every blob moved in place. */
    method MoveStep()
      modifies this
      ensures blobs == MoveAll(old(blobs), old(width), old(height))
      ensures width == old(width) && height == old(height)
    {
      var k := 0;
      while k < |blobs|
        invariant 0 <= k <= |blobs| == |old(blobs)|
        invariant forall m :: 0 <= m < k ==> blobs[m] == MoveBlob(old(blobs)[m], width, height)
        invariant forall m :: k <= m < |blobs| ==> blobs[m] == old(blobs)[m]
        invariant width == old(width) && height == old(height)
      {
        blobs := blobs[k := MoveBlob(blobs[k], width, height)];
        k := k + 1;
      }
    }

    /** The backward pair loop of `update`; false when it stops on a read past the end. */
    method CollisionStep(sqrt: real -> real, coin: (int, int) -> bool) returns (completed: bool)
      modifies this
      ensures var pass := CollisionPass(old(blobs), sqrt, coin);
        blobs == pass.blobs && completed == pass.Completed?
      ensures width == old(width) && height == old(height)
    {
      ghost var target := CollisionPass(blobs, sqrt, coin);
      var i := |blobs| - 1;
      while i >= 0
        invariant -1 <= i
        invariant Outer(blobs, i, sqrt, coin) == target
        invariant width == old(width) && height == old(height)
        decreases i + 1
      {
        var j := i - 1;
        while j >= 0
          invariant -1 <= j < i
          invariant Inner(blobs, i, j, sqrt, coin) == target
          invariant width == old(width) && height == old(height)
          decreases j + 1
        {
          if i >= |blobs| {
            return false;
          }
          if Overlap(blobs[i], blobs[j], sqrt) {
            HandleCollision(i, j, sqrt, coin(i, j));
          }
          j := j - 1;
        }
        i := i - 1;
      }
      return true;
    }

    /**
     * `update`: move every blob, then run the backward pair loop. `completed` is
     * false when the loop threw on a read past the end; the list then keeps the
     * changes made until that point.
     */
    method Update(sqrt: real -> real, coin: (int, int) -> bool) returns (completed: bool)
      modifies this
      ensures var pass := CollisionPass(MoveAll(old(blobs), old(width), old(height)), sqrt, coin);
        blobs == pass.blobs && completed == pass.Completed?
      ensures width == old(width) && height == old(height)
    {
      MoveStep();
      completed := CollisionStep(sqrt, coin);
    }
  }
}
