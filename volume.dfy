/**
  The volume arithmetic of the announcer: the stepped linear fade that is sent
  to the playback device and the reduced volume used while an announcement is
  spoken. All quantities are whole percents; the floating-point expressions of
  the original are exact here (see the comments on each function).
*/
module Volume {

  /** A device volume as the streaming service reports it. */
  type Percent = v: int | 0 <= v <= 100

  /** Number of interpolation steps of one fade (`fade_steps`). */
  const FadeSteps: nat := 8

  /** The reduction factor 0.9 (`volume_factor`), as the fraction 9/10. */
  const FactorNumerator: nat := 9
  const FactorDenominator: nat := 10

  /** `max(1, min(100, x))`: every command sent to the device is clamped like this. */
  function Clamp(x: int): (r: int)
    ensures 1 <= r <= 100
    ensures 1 <= x <= 100 ==> r == x
    ensures x < 1 ==> r == 1
    ensures x > 100 ==> r == 100
  {
    if x < 1 then 1 else if x > 100 then 100 else x
  }

  /**
    `int(from + step * ((to - from) / 8))`. For percents and 0 <= step <= 8 the
    operand is ((8 - step) * from + step * to) / 8 >= 0 and a multiple of 1/8,
    so the float is exact and truncation is floor division.
  */
  function StepVolume(from: Percent, to: Percent, step: nat): (v: int)
    requires step <= FadeSteps
    ensures 0 <= v <= 100
    ensures step == 0 ==> v == from
    ensures step == FadeSteps ==> v == to
  {
    (FadeSteps * from + step * (to - from)) / FadeSteps
  }

  /** The volume commands one fade from `from` to `to` sends, in order. */
  function FadeCommands(from: Percent, to: Percent): (r: seq<int>)
    ensures |r| == FadeSteps + 1
    ensures r[0] == Clamp(from)
    ensures r[FadeSteps] == Clamp(to)
    ensures forall i :: 0 <= i < |r| ==> 1 <= r[i] <= 100
  {
    seq(FadeSteps, i requires 0 <= i < FadeSteps => Clamp(StepVolume(from, to, i))) + [Clamp(to)]
  }

  /** `max(1, int(v * 0.9))`; the product is never within rounding distance of an integer boundary. */
  function ReducedVolume(v: Percent): (r: Percent)
    ensures 1 <= r <= 90
    ensures v >= 1 ==> r <= v
    ensures v >= 2 ==> r < v
    ensures v <= 1 ==> r == 1
    ensures FactorDenominator * r <= FactorNumerator * v || r == 1
    ensures FactorNumerator * v < FactorDenominator * (r + 1)
  {
    var scaled := (FactorNumerator * v) / FactorDenominator;
    if scaled < 1 then 1 else scaled
  }

  /**
    The volume commands of one announcement at device volume `v`: the fade-out
    to the reduced volume and, when the announcement played through, the fade-in
    back to `v`.
  */
  function AnnouncementCommands(v: Percent, played: bool): (r: seq<int>)
    ensures |r| == if played then 2 * (FadeSteps + 1) else FadeSteps + 1
    ensures r[0] == Clamp(v) && r[FadeSteps] == ReducedVolume(v)
    ensures played ==> r[|r| - 1] == Clamp(v)
  {
    FadeCommands(v, ReducedVolume(v)) + (if played then FadeCommands(ReducedVolume(v), v) else [])
  }

  lemma ProductNonNegative(a: int, b: int)
    requires 0 <= a && 0 <= b
    ensures 0 <= a * b
  {
  }

  /** Interpolation points never leave the interval spanned by the two ends. */
  lemma StepVolumeBetween(from: Percent, to: Percent, step: nat)
    requires step <= FadeSteps
    ensures to <= from ==> to <= StepVolume(from, to, step) <= from
    ensures from <= to ==> from <= StepVolume(from, to, step) <= to
  {
  }

  /** Later steps are never further from the target than earlier ones. */
  lemma StepVolumeMonotone(from: Percent, to: Percent, i: nat, j: nat)
    requires i <= j <= FadeSteps
    ensures to <= from ==> StepVolume(from, to, j) <= StepVolume(from, to, i)
    ensures from <= to ==> StepVolume(from, to, i) <= StepVolume(from, to, j)
  {
    var ni := FadeSteps * from + i * (to - from);
    var nj := FadeSteps * from + j * (to - from);
    assert nj - ni == (j - i) * (to - from);
    if to <= from {
      ProductNonNegative(j - i, from - to);
    } else {
      ProductNonNegative(j - i, to - from);
    }
  }

  predicate NonIncreasing(s: seq<int>)
  {
    forall i, j :: 0 <= i <= j < |s| ==> s[j] <= s[i]
  }

  predicate NonDecreasing(s: seq<int>)
  {
    forall i, j :: 0 <= i <= j < |s| ==> s[i] <= s[j]
  }

  /** Every element of `s` lies in [lo, hi]. */
  predicate Within(s: seq<int>, lo: int, hi: int)
  {
    forall i :: 0 <= i < |s| ==> lo <= s[i] <= hi
  }

  /**
    A fade-out (target not above the start) sends non-increasing commands and a
    fade-in non-decreasing ones; no command overshoots the clamped target or
    rises above the clamped start.
  */
  lemma {:induction false} FadeIsMonotone(from: Percent, to: Percent)
    ensures to <= from ==> NonIncreasing(FadeCommands(from, to)) && Within(FadeCommands(from, to), Clamp(to), Clamp(from))
    ensures from <= to ==> NonDecreasing(FadeCommands(from, to)) && Within(FadeCommands(from, to), Clamp(from), Clamp(to))
  {
    var r := FadeCommands(from, to);
    forall i, j | 0 <= i <= j < |r|
      ensures to <= from ==> Clamp(to) <= r[j] <= r[i] <= Clamp(from)
      ensures from <= to ==> Clamp(from) <= r[i] <= r[j] <= Clamp(to)
    {
      var si := if i < FadeSteps then StepVolume(from, to, i) else to;
      var sj := if j < FadeSteps then StepVolume(from, to, j) else to;
      assert r[i] == Clamp(si) && r[j] == Clamp(sj);
      StepVolumeMonotone(from, to, i, j);
      StepVolumeBetween(from, to, i);
      StepVolumeBetween(from, to, j);
      StepVolumeMonotone(from, to, i, FadeSteps);
      StepVolumeMonotone(from, to, j, FadeSteps);
      assert StepVolume(from, to, FadeSteps) == to;
    }
  }

  /**
    After a complete announcement the last command is the clamped original
    volume: the device gets its volume back for 1..100 and is left at 1 when it
    was muted. When playback failed the device stays at the reduced volume.
    Every command lies between the reduced volume and the original one.
  */
  lemma {:induction false} AnnouncementRestoresVolume(v: Percent, played: bool)
    ensures var r := AnnouncementCommands(v, played);
      |r| == (if played then 2 else 1) * (FadeSteps + 1) &&
      r[|r| - 1] == (if played then Clamp(v) else ReducedVolume(v))
    ensures played && 1 <= v ==> AnnouncementCommands(v, played)[|AnnouncementCommands(v, played)| - 1] == v
    ensures played && v == 0 ==> AnnouncementCommands(v, played)[|AnnouncementCommands(v, played)| - 1] == 1
    ensures Within(AnnouncementCommands(v, played), ReducedVolume(v), Clamp(v))
  {
    var reduced := ReducedVolume(v);
    var down := FadeCommands(v, reduced);
    var up := FadeCommands(reduced, v);
    var r := AnnouncementCommands(v, played);
    if v == 0 {
      assert forall i :: 0 <= i < |down| ==> down[i] == 1;
      assert forall i :: 0 <= i < |up| ==> up[i] == 1;
    } else {
      FadeIsMonotone(v, reduced);
      FadeIsMonotone(reduced, v);
      assert forall i :: 0 <= i < |down| ==> reduced <= down[i] <= v by {
        forall i | 0 <= i < |down| ensures reduced <= down[i] <= v {
          assert down[|down| - 1] <= down[i] <= down[0];
        }
      }
      assert forall i :: 0 <= i < |up| ==> reduced <= up[i] <= v by {
        forall i | 0 <= i < |up| ensures reduced <= up[i] <= v {
          assert up[0] <= up[i] <= up[|up| - 1];
        }
      }
    }
    if played {
      assert r == down + up;
    } else {
      assert r == down;
    }
  }

  /** Worked values: full volume drops to 90, 5 drops to 4 (truncation, not rounding), 0 and 1 give 1. */
  lemma ReducedVolumeExamples()
    ensures ReducedVolume(100) == 90
    ensures ReducedVolume(5) == 4
    ensures ReducedVolume(10) == 9
    ensures ReducedVolume(1) == 1 && ReducedVolume(0) == 1
  {
  }
}
