/**
 * The per-frame timing of the petal animation: which duration the current
 * phase has, how far through it the frame is, the quadratic ease-in-out
 * applied to that fraction, and the linear radius and height laws of the
 * inhale and exhale branches. JavaScript doubles are abstracted as exact reals.
 */
module Easing {
  import opened Wrappers
  import opened Breathing

  /**
   * The duration the render loop assumes for a phase, taken from the selected
   * mode `modes[selectedModeKey]`; idle and rest both use one second. The
   * mode's fields are only read for inhale, hold and exhale.
   */
  function RenderDurationMs(phase: Phase, mode: Option<BreathMode>): int
    requires phase in {Inhale, Hold, Exhale} ==> mode.Some?
  {
    match phase
    case Inhale => mode.value.inhale * 1000
    case Hold => mode.value.hold * 1000
    case Exhale => mode.value.exhale * 1000
    case _ => 1000
  }

  /** Math.min(elapsed / duration, 1). */
  function Progress(elapsed: real, duration: real): real
    requires duration > 0.0
  {
    var f := elapsed / duration;
    if f < 1.0 then f else 1.0
  }

  function Square(x: real): real {
    x * x
  }

  /** Quadratic ease-in-out: 2p^2 on the first half, 1 - (2 - 2p)^2 / 2 on the second. */
  function Eased(p: real): real {
    if p < 0.5 then 2.0 * p * p else 1.0 - Square(-2.0 * p + 2.0) / 2.0
  }

  /** Radius and height of a petal while inhaling (relative to the anchor). */
  function InhaleRadius(eased: real): real { 0.3 + eased * 2.5 }
  function InhaleHeight(eased: real): real { eased * 2.5 }

  /** Radius and height of a petal while exhaling (relative to the origin). */
  function ExhaleRadius(eased: real): real { 2.8 - eased * 2.5 }
  function ExhaleHeight(eased: real): real { 3.0 - eased * 3.0 }

  /** The fixed orbit radius of the hold branch. */
  const HoldRadius: real := 2.8

  /** Every duration the render loop uses is positive, for idle and rest exactly one second. */
  lemma RenderDurationPositive(phase: Phase, key: string)
    requires phase in {Inhale, Hold, Exhale} ==> Modes(key).Some?
    ensures RenderDurationMs(phase, Modes(key)) > 0
    ensures phase in {Idle, Rest} ==> RenderDurationMs(phase, Modes(key)) == 1000
  {
    ModesTable(key);
  }

  /** The render loop's duration for each scheduled step is the step's own timeout. */
  lemma RenderDurationMatchesSequence(m: BreathMode, i: nat)
    requires i < StepCount
    ensures RenderDurationMs(Sequence(m)[i].phase, Some(m)) == Sequence(m)[i].duration
  {
  }

  /** For a non-negative elapsed time the progress lies in [0, 1], and it is 1 exactly once the duration has elapsed. */
  lemma ProgressBounds(elapsed: real, duration: real)
    requires duration > 0.0 && elapsed >= 0.0
    ensures 0.0 <= Progress(elapsed, duration) <= 1.0
    ensures Progress(elapsed, duration) == 1.0 <==> elapsed >= duration
    ensures elapsed < duration ==> Progress(elapsed, duration) * duration == elapsed
  {
    var f := elapsed / duration;
    assert f * duration == elapsed;
    if elapsed >= duration {
      assert f >= 1.0;
    } else {
      assert (1.0 - f) * duration == duration - elapsed;
      PositiveFactor(1.0 - f, duration);
    }
  }

  /** A product with a positive factor is positive only if the other factor is. */
  lemma PositiveFactor(x: real, d: real)
    requires d > 0.0 && x * d > 0.0
    ensures x > 0.0
  {
  }

  /** Progress never decreases as the frame time advances. */
  lemma ProgressMonotone(e1: real, e2: real, duration: real)
    requires duration > 0.0 && e1 <= e2
    ensures Progress(e1, duration) <= Progress(e2, duration)
  {
    assert e1 / duration <= e2 / duration by {
      assert (e2 / duration - e1 / duration) * duration == e2 - e1;
    }
  }

  lemma EasedFixedPoints()
    ensures Eased(0.0) == 0.0 && Eased(0.5) == 0.5 && Eased(1.0) == 1.0
  {
  }

  /** The ease maps [0, 1] into [0, 1], the first half below one half and the second half at or above. */
  lemma EasedBounds(p: real)
    requires 0.0 <= p <= 1.0
    ensures 0.0 <= Eased(p) <= 1.0
    ensures p < 0.5 <==> Eased(p) < 0.5
  {
    if p < 0.5 {
      assert p * p < 0.5 * 0.5 by { assert p * p <= p * 0.5; }
    } else {
      var d := -2.0 * p + 2.0;
      assert 0.0 <= d <= 1.0;
      assert Square(d) <= 1.0 by { assert d * d <= d * 1.0; }
    }
  }

  lemma SquareStrictlyIncreasing(a: real, b: real)
    requires 0.0 <= a < b
    ensures Square(a) < Square(b)
  {
    var d := b - a;
    assert b * b == (a + d) * (a + d) == a * a + 2.0 * a * d + d * d;
    assert a * d >= 0.0 && d * d > 0.0;
  }

  /** The ease is strictly increasing on [0, 1]. */
  lemma EasedStrictlyIncreasing(p: real, q: real)
    requires 0.0 <= p < q <= 1.0
    ensures Eased(p) < Eased(q)
  {
    if q < 0.5 {
      SquareStrictlyIncreasing(p, q);
      assert Eased(p) == 2.0 * Square(p) && Eased(q) == 2.0 * Square(q);
    } else if p >= 0.5 {
      SquareStrictlyIncreasing(-2.0 * q + 2.0, -2.0 * p + 2.0);
    } else {
      EasedBounds(p);
      EasedBounds(q);
    }
  }

  lemma EasedMonotone(p: real, q: real)
    requires 0.0 <= p <= q <= 1.0
    ensures Eased(p) <= Eased(q)
  {
    if p < q { EasedStrictlyIncreasing(p, q); }
  }

  /** The ease-in-out is symmetric about (0.5, 0.5). */
  lemma EasedSymmetric(p: real)
    ensures Eased(1.0 - p) == 1.0 - Eased(p)
  {
    if p < 0.5 {
      assert -2.0 * (1.0 - p) + 2.0 == 2.0 * p;
    } else if p > 0.5 {
      assert Square(-2.0 * p + 2.0) == 4.0 * (1.0 - p) * (1.0 - p);
    }
  }

  /** The eased progress of a frame lies in [0, 1] and never decreases as the frame time advances. */
  lemma EasedProgressMonotone(e1: real, e2: real, duration: real)
    requires duration > 0.0 && 0.0 <= e1 <= e2
    ensures 0.0 <= Eased(Progress(e1, duration)) <= Eased(Progress(e2, duration)) <= 1.0
  {
    ProgressBounds(e1, duration);
    ProgressBounds(e2, duration);
    ProgressMonotone(e1, e2, duration);
    EasedMonotone(Progress(e1, duration), Progress(e2, duration));
    EasedBounds(Progress(e1, duration));
    EasedBounds(Progress(e2, duration));
  }

  /**
   * For an eased value in [0, 1] the inhale radius and the exhale radius stay
   * in [0.3, 2.8]; the inhale height stays in [0, 2.5] and the exhale height in [0, 3].
   */
  lemma RadiusHeightBounds(eased: real)
    requires 0.0 <= eased <= 1.0
    ensures 0.3 <= InhaleRadius(eased) <= 2.8 && 0.0 <= InhaleHeight(eased) <= 2.5
    ensures 0.3 <= ExhaleRadius(eased) <= 2.8 && 0.0 <= ExhaleHeight(eased) <= 3.0
  {
  }

  /**
   * Over one inhale the petals open: radius and height grow with the frame
   * time; over one exhale they close.
   */
  lemma InhaleOpensExhaleCloses(e1: real, e2: real, duration: real)
    requires duration > 0.0 && 0.0 <= e1 <= e2
    ensures InhaleRadius(Eased(Progress(e1, duration))) <= InhaleRadius(Eased(Progress(e2, duration)))
    ensures InhaleHeight(Eased(Progress(e1, duration))) <= InhaleHeight(Eased(Progress(e2, duration)))
    ensures ExhaleRadius(Eased(Progress(e1, duration))) >= ExhaleRadius(Eased(Progress(e2, duration)))
    ensures ExhaleHeight(Eased(Progress(e1, duration))) >= ExhaleHeight(Eased(Progress(e2, duration)))
  {
    EasedProgressMonotone(e1, e2, duration);
  }

  /**
   * The inhale and exhale radius laws reach the hold radius 2.8 at the
   * boundaries with hold, and the same value 0.3 at their other ends. Rest
   * lies between exhale and the next inhale and has a radius of its own.
   */
  lemma RadiiMeetAtBoundaries(duration: real)
    requires duration > 0.0
    ensures InhaleRadius(Eased(Progress(duration, duration))) == HoldRadius
    ensures ExhaleRadius(Eased(Progress(0.0, duration))) == HoldRadius
    ensures ExhaleRadius(Eased(Progress(duration, duration))) == InhaleRadius(Eased(Progress(0.0, duration)))
  {
    ProgressBounds(duration, duration);
    ProgressBounds(0.0, duration);
    EasedFixedPoints();
  }
}
