/**
 * components/GamificationModal.tsx: the progress figures the profile modal
 * shows. Every figure is an expression over the points alone; the bar
 * advances in steps of 500 points.
 */
module GamificationModal {
  import opened Wrappers
  import opened Types

  const POINTS_PER_LEVEL: nat := 500

  /** `Math.ceil(points / 500) * 500`: the least multiple of 500 that is at least `points`. */
  function NextLevelPoints(points: nat): (r: nat)
    ensures r % POINTS_PER_LEVEL == 0
    ensures points <= r < points + POINTS_PER_LEVEL
  {
    ((points + POINTS_PER_LEVEL - 1) / POINTS_PER_LEVEL) * POINTS_PER_LEVEL
  }

  /** No smaller multiple of 500 reaches `points`. */
  lemma NextLevelIsLeastMultiple(points: nat, m: nat)
    requires m % POINTS_PER_LEVEL == 0 && points <= m
    ensures NextLevelPoints(points) <= m
  {
    var r := NextLevelPoints(points);
    var q := m / POINTS_PER_LEVEL;
    var p := r / POINTS_PER_LEVEL;
    assert m == POINTS_PER_LEVEL * q;
    assert r == POINTS_PER_LEVEL * p;
    // m and r are both multiples of 500 and m >= points > r - 500.
    assert POINTS_PER_LEVEL * q > POINTS_PER_LEVEL * (p - 1);
    assert q >= p;
  }

  /** `(points % 500) / 5`: the bar's fill in percent, in [0, 100). */
  function Progress(points: nat): (r: real)
    ensures 5.0 * r == (points % POINTS_PER_LEVEL) as real
    ensures 0.0 <= r < 100.0
  {
    (points % POINTS_PER_LEVEL) as real / 5.0
  }

  /** `500 - (points % 500)`: the "more points" figure, in [1, 500], landing on a multiple of 500. */
  function PointsToNextLevel(points: nat): (r: nat)
    ensures 1 <= r <= POINTS_PER_LEVEL
    ensures (points + r) % POINTS_PER_LEVEL == 0
  {
    POINTS_PER_LEVEL - points % POINTS_PER_LEVEL
  }

  /** Between multiples of 500 the "more points" figure is exactly the gap to the shown next level. */
  lemma PointsToNextLevelMatchesBar(points: nat)
    requires points % POINTS_PER_LEVEL != 0
    ensures NextLevelPoints(points) == points + PointsToNextLevel(points)
  {
    var r := NextLevelPoints(points);
    var g := PointsToNextLevel(points);
    assert points == POINTS_PER_LEVEL * (points / POINTS_PER_LEVEL) + points % POINTS_PER_LEVEL;
    assert (points + g) == POINTS_PER_LEVEL * (points / POINTS_PER_LEVEL + 1);
    NextLevelIsLeastMultiple(points, points + g);
    // r is a multiple of 500 above points and not above points + g, which is the next one.
    assert r % POINTS_PER_LEVEL == 0 && points < r;
    assert r == POINTS_PER_LEVEL * (r / POINTS_PER_LEVEL);
    assert r / POINTS_PER_LEVEL > points / POINTS_PER_LEVEL;
  }

  /**
   * On a multiple of 500 (0 included) the shown next level is the current
   * points, while the text still asks for 500 more and the bar is empty.
   */
  lemma AtMultipleNextLevelIsCurrent(points: nat)
    requires points % POINTS_PER_LEVEL == 0
    ensures NextLevelPoints(points) == points
    ensures PointsToNextLevel(points) == POINTS_PER_LEVEL
    ensures Progress(points) == 0.0
  {
    NextLevelIsLeastMultiple(points, points);
  }

  /** The figures in the modal's header. */
  datatype ProgressView = ProgressView(
    level: string,
    points: nat,
    nextLevelPoints: nat,
    progressPercent: real,
    pointsToNextLevel: nat)

  /** The modal renders nothing while closed; open, it shows the figures derived from the points. */
  function RenderModal(isOpen: bool, stats: UserStats): (v: Option<ProgressView>)
    ensures v.None? <==> !isOpen
    ensures v.Some? ==> v.value.level == stats.level && v.value.points == stats.points
    ensures v.Some? ==> v.value.points <= v.value.nextLevelPoints < v.value.points + POINTS_PER_LEVEL
    ensures v.Some? ==> 0.0 <= v.value.progressPercent < 100.0 && 1 <= v.value.pointsToNextLevel <= POINTS_PER_LEVEL
    ensures v.Some? ==> (v.value.nextLevelPoints == NextLevelPoints(stats.points)
                         && v.value.progressPercent == Progress(stats.points)
                         && v.value.pointsToNextLevel == PointsToNextLevel(stats.points))
  {
    if !isOpen then None
    else Some(ProgressView(stats.level, stats.points, NextLevelPoints(stats.points), Progress(stats.points), PointsToNextLevel(stats.points)))
  }

  /** The progress figures depend on the points only, never on the level label or the other counters. */
  lemma ProgressDependsOnlyOnPoints(s1: UserStats, s2: UserStats)
    requires s1.points == s2.points
    ensures RenderModal(true, s1).value.nextLevelPoints == RenderModal(true, s2).value.nextLevelPoints
    ensures RenderModal(true, s1).value.progressPercent == RenderModal(true, s2).value.progressPercent
    ensures RenderModal(true, s1).value.pointsToNextLevel == RenderModal(true, s2).value.pointsToNextLevel
  {
  }
}
