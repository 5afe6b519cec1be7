/**
 * The projection-angle schedule of `PrimaryGeneratorAction::GeneratePrimaries` (the `angle_deg`
 * lambda) and the fallback for an all-zero rotation axis. Integer steps follow C++ `int`
 * arithmetic (division truncates toward zero); the interpolation is over the reals.
 */
module Acquisition {
  import opened Machine
  import opened Vectors
  import opened SceneConfig
  import opened RealArith

  /** A non-negative quotient is the k with k * b <= a < (k + 1) * b. */
  lemma TruncDivIs(a: int, b: int, k: int)
    requires b >= 1 && 0 <= k * b <= a < k * b + b
    ensures TruncDiv(a, b) == k
  {
    var q := TruncDiv(a, b);
    MulCancel(q, k, b);
    MulCancel(k, q, b);
  }

  lemma TruncDivMonotone(i: int, j: int, b: int)
    requires b >= 1 && i <= j
    ensures TruncDiv(i, b) <= TruncDiv(j, b)
  {
    var qi, qj := TruncDiv(i, b), TruncDiv(j, b);
    if i >= 0 {
      MulCancel(qi, qj, b);
    } else if j < 0 {
      assert qi * b - b < i <= j <= qj * b;
      MulCancel(qi, qj, b);
    }
  }

  /** `projections = std::max(1, num_projections)` */
  function Projections(a: AcquisitionConfig): (p: int)
    ensures p >= 1
    ensures a.numProjections >= 1 ==> p == a.numProjections
  {
    Max(1, a.numProjections)
  }

  /** `totalEvents = std::max(1, total_events)` */
  function TotalEvents(a: AcquisitionConfig): (t: int)
    ensures t >= 1
    ensures a.totalEvents >= 1 ==> t == a.totalEvents
  {
    Max(1, a.totalEvents)
  }

  /** `eventsPerProj = std::max(1, totalEvents / projections)` */
  function EventsPerProjection(a: AcquisitionConfig): (e: int)
    ensures e >= 1
    ensures TotalEvents(a) >= Projections(a) ==> e * Projections(a) <= TotalEvents(a) < (e + 1) * Projections(a)
  {
    Max(1, TruncDiv(TotalEvents(a), Projections(a)))
  }

  /** The step-mode projection index of an event: its bucket of `eventsPerProj` IDs, capped at the last. */
  function ProjIdx(a: AcquisitionConfig, eventId: int): (k: int)
    ensures k <= Projections(a) - 1
    ensures eventId >= 0 ==> 0 <= k
  {
    Min(Projections(a) - 1, TruncDiv(eventId, EventsPerProjection(a)))
  }

  /** Fly mode: `min(1.0, eventId / (totalEvents - 1))`, or 0 for a single event. */
  function FlyFraction(a: AcquisitionConfig, eventId: int): real {
    var totalEvents := TotalEvents(a);
    if totalEvents > 1 then RMin(1.0, eventId as real / (totalEvents - 1) as real) else 0.0
  }

  /** Step mode: `projIdx / (projections - 1)`, or 0 for a single projection. */
  function StepFraction(a: AcquisitionConfig, eventId: int): real {
    var projections := Projections(a);
    if projections > 1 then ProjIdx(a, eventId) as real / (projections - 1) as real else 0.0
  }

  /**
   * `angle_deg`: the start angle plus the mode's sweep fraction of the span. A single projection in
   * step mode, or a single event in fly mode, stays at the start angle.
   */
  function AngleDeg(a: AcquisitionConfig, eventId: int): (deg: real)
    ensures a.mode != "fly" && Projections(a) == 1 ==> deg == a.startAngleDeg
    ensures a.mode == "fly" && TotalEvents(a) == 1 ==> deg == a.startAngleDeg
  {
    var span := a.endAngleDeg - a.startAngleDeg;
    var frac := if a.mode == "fly" then FlyFraction(a, eventId) else StepFraction(a, eventId);
    Lerp(a.startAngleDeg, frac, span)
  }

  /** For an engine event ID (never negative) the sweep fraction lies in [0, 1] in either mode. */
  lemma FractionInUnitRange(a: AcquisitionConfig, eventId: int)
    requires eventId >= 0
    ensures 0.0 <= FlyFraction(a, eventId) <= 1.0
    ensures 0.0 <= StepFraction(a, eventId) <= 1.0
  {
    if TotalEvents(a) > 1 {
      RatioNonneg(eventId as real, (TotalEvents(a) - 1) as real);
    }
    if Projections(a) > 1 {
      RatioAtMostOne(ProjIdx(a, eventId) as real, (Projections(a) - 1) as real);
    }
  }

  /** Every angle lies between the start and end angles, whichever way the sweep runs. */
  lemma AngleWithinSweep(a: AcquisitionConfig, eventId: int)
    requires eventId >= 0
    ensures a.startAngleDeg <= a.endAngleDeg ==> a.startAngleDeg <= AngleDeg(a, eventId) <= a.endAngleDeg
    ensures a.endAngleDeg <= a.startAngleDeg ==> a.endAngleDeg <= AngleDeg(a, eventId) <= a.startAngleDeg
  {
    FractionInUnitRange(a, eventId);
    var frac := if a.mode == "fly" then FlyFraction(a, eventId) else StepFraction(a, eventId);
    var span := a.endAngleDeg - a.startAngleDeg;
    ScaleWithin(frac, span);
    assert AngleDeg(a, eventId) == a.startAngleDeg + frac * span;
  }

  /** The step-mode projection index never decreases as the event ID grows. */
  lemma ProjIdxMonotone(a: AcquisitionConfig, i: int, j: int)
    requires i <= j
    ensures ProjIdx(a, i) <= ProjIdx(a, j)
  {
    TruncDivMonotone(i, j, EventsPerProjection(a));
  }

  /** The step-mode sweep fraction never decreases as the event ID grows. */
  lemma StepFractionMonotone(a: AcquisitionConfig, i: int, j: int)
    requires i <= j
    ensures StepFraction(a, i) <= StepFraction(a, j)
  {
    ProjIdxMonotone(a, i, j);
    var p := Projections(a);
    if p > 1 {
      RatioMonotone(ProjIdx(a, i) as real, ProjIdx(a, j) as real, (p - 1) as real);
    }
  }

  /** With a non-negative span, step-mode angles never decrease as the event ID grows. */
  lemma StepAngleMonotone(a: AcquisitionConfig, i: int, j: int)
    requires a.mode != "fly" && i <= j && a.startAngleDeg <= a.endAngleDeg
    ensures AngleDeg(a, i) <= AngleDeg(a, j)
  {
    StepFractionMonotone(a, i, j);
    LerpMonotone(a.startAngleDeg, StepFraction(a, i), StepFraction(a, j), a.endAngleDeg - a.startAngleDeg);
  }

  /** The k-th full bucket of `eventsPerProj` IDs (k below the last projection) shares projection k. */
  lemma BucketSharesProjection(a: AcquisitionConfig, k: int, id: int)
    requires a.mode != "fly" && 0 <= k < Projections(a)
    requires k * EventsPerProjection(a) <= id < (k + 1) * EventsPerProjection(a)
    ensures ProjIdx(a, id) == k
    ensures AngleDeg(a, id) == AngleDeg(a, k * EventsPerProjection(a))
  {
    var e := EventsPerProjection(a);
    assert (k + 1) * e == k * e + e;
    MulNonneg(k, e);
    TruncDivIs(id, e, k);
    TruncDivIs(k * e, e, k);
  }

  /** Every ID from `(projections - 1) * eventsPerProj` on is shot at the end angle. */
  lemma TailGetsEndAngle(a: AcquisitionConfig, id: int)
    requires a.mode != "fly" && Projections(a) > 1
    requires id >= (Projections(a) - 1) * EventsPerProjection(a)
    ensures ProjIdx(a, id) == Projections(a) - 1
    ensures AngleDeg(a, id) == a.endAngleDeg
  {
    var e := EventsPerProjection(a);
    var p := Projections(a);
    MulNonneg(p - 1, e);
    var q := TruncDiv(id, e);
    MulCancel(p - 1, q, e);
    RatioSelf((p - 1) as real);
  }

  /** In fly mode ID 0 is shot at the start angle, and every ID from `totalEvents - 1` on at the end. */
  lemma FlyEndpoints(a: AcquisitionConfig, id: int)
    requires a.mode == "fly"
    ensures AngleDeg(a, 0) == a.startAngleDeg
    ensures TotalEvents(a) > 1 && id >= TotalEvents(a) - 1 ==> AngleDeg(a, id) == a.endAngleDeg
  {
    if TotalEvents(a) > 1 && id >= TotalEvents(a) - 1 {
      RatioAtLeastOne(id as real, (TotalEvents(a) - 1) as real);
    }
  }

  /** The first event of a run is shot at the start angle in either mode. */
  lemma FirstEventAtStartAngle(a: AcquisitionConfig)
    ensures AngleDeg(a, 0) == a.startAngleDeg
  {
    assert TruncDiv(0, EventsPerProjection(a)) == 0;
  }

  /** Step mode, 100 events, 4 projections over 0..360: IDs 0-24, 25-49, 50-74, 75-99 give 0, 120, 240, 360. */
  lemma FourProjectionExample(id: int)
    requires 0 <= id < 100
    ensures AngleDeg(DefaultAcquisition.(numProjections := 4, totalEvents := 100), id) ==
      (if id < 25 then 0.0 else if id < 50 then 120.0 else if id < 75 then 240.0 else 360.0)
  {
    var a := DefaultAcquisition.(numProjections := 4, totalEvents := 100);
    TruncDivIs(100, 4, 25);
    var k := if id < 25 then 0 else if id < 50 then 1 else if id < 75 then 2 else 3;
    TruncDivIs(id, 25, k);
  }

  /**
   * The `int` narrowing of the target into `total_events`: for a target of 2^31 events the
   * schedule sees -2^31, so `totalEvents` becomes 1 and a fly-mode sweep never leaves the start angle.
   */
  lemma NarrowedTotalFreezesFlySweep(a: AcquisitionConfig, id: int)
    requires a.mode == "fly" && a.totalEvents == ToInt32(Int32Max + 1)
    ensures a.totalEvents == Int32Min
    ensures AngleDeg(a, id) == a.startAngleDeg
  {
  }

  /**
   * The rotation axis used: the configured one, or +z when its `mag2()` is 0 (the zero vector); the
   * result can always be normalised by `unit()`.
   */
  function EffectiveAxis(axis: Vec3): (r: Vec3)
    ensures Mag2(r) != 0.0
    ensures axis == Vec3(0.0, 0.0, 0.0) ==> r == Vec3(0.0, 0.0, 1.0)
    ensures Mag2(axis) != 0.0 ==> r == axis
  {
    if Mag2(axis) == 0.0 then Vec3(0.0, 0.0, 1.0) else axis
  }
}
