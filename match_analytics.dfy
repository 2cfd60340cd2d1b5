/**
 * The analytics dashboard's data: the average of each criterion for the radar
 * chart, the per-match score series for the line chart, and the minimum,
 * maximum and average of each criterion for the bar chart.
 *
 * Every function here divides by the number of matches or spreads the list
 * into `Math.min`, so each requires a non-empty list; the page always passes
 * one.
 */
module MatchAnalytics {

  import opened Wrappers
  import opened Statistics
  import opened Text
  import opened MatchData

  /** A point of the radar chart. */
  datatype RadarPoint = RadarPoint(criteria: string, value: int, fullMark: int)

  /** A point of the match-score line chart; `name` is the `match` field, the x-axis label, possibly absent. */
  datatype ScorePoint = ScorePoint(name: Option<string>, score: int, rank: int)

  /** A bar group of the criteria-variation chart. */
  datatype VariationRow = VariationRow(criteria: string, min: int, max: int, avg: int)

  /** The category names both criteria charts use, in chart order. */
  const ChartOrder: seq<string> := ["Cleanliness", "Sleep", "Social", "Lifestyle", "Food"]

  /** `m => m.criteria_scores[c]`. */
  function Accessor(c: Criterion): Match -> int
  {
    (m: Match) => Score(c, m)
  }

  /** `matches.map(m => m.criteria_scores[c])`. */
  function Column(ms: seq<Match>, c: Criterion): (col: seq<int>)
    ensures |col| == |ms|
    ensures forall i :: 0 <= i < |ms| ==> col[i] == Score(c, ms[i])
  {
    Mapped(ms, Accessor(c))
  }

  /**
   * `Math.round(matches.reduce((sum, match) => sum + match.criteria_scores[c], 0)
   * / matches.length)`.
   */
  function CriterionAverage(ms: seq<Match>, c: Criterion): (avg: int)
    requires |ms| > 0
    ensures IsRoundedMean(avg, Sum(Column(ms, c)), |ms|)
  {
    RoundDiv(ReduceSum(ms, Accessor(c), 0), |ms|)
  }

  /** `avgCriteriaData`: one radar point per criterion, in chart order. */
  function AvgCriteriaData(ms: seq<Match>): (points: seq<RadarPoint>)
    requires |ms| > 0
    ensures |points| == |Criteria|
    ensures forall k :: 0 <= k < |points| ==>
      && points[k].criteria == ChartOrder[k]
      && points[k].fullMark == 100
      && IsRoundedMean(points[k].value, Sum(Column(ms, Criteria[k])), |ms|)
  {
    [ RadarPoint("Cleanliness", CriterionAverage(ms, Cleanliness), 100),
      RadarPoint("Sleep", CriterionAverage(ms, SleepSchedule), 100),
      RadarPoint("Social", CriterionAverage(ms, SocialHabits), 100),
      RadarPoint("Lifestyle", CriterionAverage(ms, Lifestyle), 100),
      RadarPoint("Food", CriterionAverage(ms, Food), 100) ]
  }

  /**
   * `match.anon_id.split('#')[1]`: absent exactly when the id has no `#`,
   * otherwise the id's second `#`-separated segment.
   */
  function HashLabel(id: string): (r: Option<string>)
    ensures r.None? <==> '#' !in id
    ensures r.Some? ==> exists i :: SecondSegmentAt(id, i, r.value)
  {
    SecondPartIsSecondSegment(id);
    PartAt(id, '#', 1)
  }

  /**
   * `t` is the text between the first `#` of `id`, at index `i`, and the next
   * `#` or the end of `id`.
   */
  ghost predicate SecondSegmentAt(id: string, i: int, t: string)
  {
    && 0 <= i < |id|
    && id[i] == '#' && '#' !in id[..i]
    && i + 1 + |t| <= |id|
    && id[i + 1..i + 1 + |t|] == t && '#' !in t
    && (i + 1 + |t| == |id| || id[i + 1 + |t|] == '#')
  }

  /**
   * The second part of a split on `#` is absent exactly when there is no `#`;
   * otherwise it is the text after the first `#` up to the next one.
   */
  lemma SecondPartIsSecondSegment(id: string)
    ensures PartAt(id, '#', 1).None? <==> '#' !in id
    ensures PartAt(id, '#', 1).Some? ==> exists i :: SecondSegmentAt(id, i, PartAt(id, '#', 1).value)
  {
    var parts := Split(id, '#');
    if |parts| == 1 {
      assert id == parts[0];
    } else {
      var i := |parts[0]|;
      var t := parts[1];
      var tail := Join(parts[1..], '#');
      assert id == parts[0] + ['#'] + tail;
      assert id[..i] == parts[0];
      assert id[i] == '#';
      if |parts| == 2 {
        assert tail == t;
      } else {
        assert tail == t + ['#'] + Join(parts[2..], '#');
      }
      assert id[i + 1..] == tail;
      assert id[i + 1..i + 1 + |t|] == t;
      assert SecondSegmentAt(id, i, t);
    }
  }

  /** `matches.map((match, index) => ...)` for the matches from `offset` on. */
  function ScoreSeries(ms: seq<Match>, offset: nat): (points: seq<ScorePoint>)
    ensures |points| == |ms|
    ensures forall i :: 0 <= i < |ms| ==>
      points[i] == ScorePoint(HashLabel(ms[i].anonId), ms[i].matchScore, offset + i + 1)
  {
    if ms == [] then []
    else [ScorePoint(HashLabel(ms[0].anonId), ms[0].matchScore, offset + 1)] + ScoreSeries(ms[1..], offset + 1)
  }

  /**
   * `matchScoreData`: one point per match, in list order, carrying its score
   * and its 1-based rank.
   */
  function MatchScoreData(ms: seq<Match>): (points: seq<ScorePoint>)
    ensures |points| == |ms|
    ensures forall i :: 0 <= i < |ms| ==>
      && points[i].score == ms[i].matchScore
      && points[i].rank == i + 1
      && points[i].name == HashLabel(ms[i].anonId)
  {
    ScoreSeries(ms, 0)
  }

  /**
   * What a bar group states about criterion `c` over `ms`: its minimum and
   * maximum bound every score and are scores of some match, its average is
   * the rounded mean, and the average lies between them.
   */
  ghost predicate DescribesCriterion(row: VariationRow, ms: seq<Match>, c: Criterion)
  {
    && (forall i :: 0 <= i < |ms| ==> row.min <= Score(c, ms[i]) <= row.max)
    && (exists i :: 0 <= i < |ms| && Score(c, ms[i]) == row.min)
    && (exists i :: 0 <= i < |ms| && Score(c, ms[i]) == row.max)
    && IsRoundedMean(row.avg, Sum(Column(ms, c)), |ms|)
    && row.min <= row.avg <= row.max
  }

  /** One bar group: `Math.min(...)`, `Math.max(...)` and the rounded mean of a column. */
  function VariationOf(ms: seq<Match>, c: Criterion, category: string): (row: VariationRow)
    requires |ms| > 0
    ensures row.criteria == category
    ensures DescribesCriterion(row, ms, c)
  {
    var col := Column(ms, c);
    MeanWithinRange(col);
    VariationRow(category, Minimum(col), Maximum(col), CriterionAverage(ms, c))
  }

  /**
   * `criteriaVariationData`: one bar group per criterion, in chart order, whose
   * average is the same value the radar chart shows for that criterion.
   */
  function CriteriaVariationData(ms: seq<Match>): (rows: seq<VariationRow>)
    requires |ms| > 0
    ensures |rows| == |Criteria|
    ensures forall k :: 0 <= k < |rows| ==>
      && rows[k].criteria == ChartOrder[k]
      && DescribesCriterion(rows[k], ms, Criteria[k])
      && rows[k].avg == AvgCriteriaData(ms)[k].value
  {
    [ VariationOf(ms, Cleanliness, "Cleanliness"),
      VariationOf(ms, SleepSchedule, "Sleep"),
      VariationOf(ms, SocialHabits, "Social"),
      VariationOf(ms, Lifestyle, "Lifestyle"),
      VariationOf(ms, Food, "Food") ]
  }

  /** With one match, every bar group collapses onto that match's score. */
  lemma SingleMatchVariation(m: Match)
    ensures forall k :: 0 <= k < |Criteria| ==>
      var row := CriteriaVariationData([m])[k];
      row.min == row.max == row.avg == Score(Criteria[k], m)
  {
  }

  /** Scores in [0, 100] give radar values in [0, fullMark]. */
  lemma AveragesInRange(ms: seq<Match>)
    requires |ms| > 0
    requires forall i :: 0 <= i < |ms| ==> InRange(ms[i])
    ensures forall k :: 0 <= k < |Criteria| ==>
      0 <= AvgCriteriaData(ms)[k].value <= AvgCriteriaData(ms)[k].fullMark
  {
    var points := AvgCriteriaData(ms);
    forall k | 0 <= k < |Criteria|
      ensures 0 <= points[k].value <= points[k].fullMark
    {
      var col := Column(ms, Criteria[k]);
      SumBounds(col, 0, 100);
      RoundedMeanBetween(points[k].value, Sum(col), |ms|, 0, 100);
    }
  }

  /** The radar chart does not depend on the order of the matches. */
  lemma AvgCriteriaPermutation(ms: seq<Match>, ns: seq<Match>)
    requires |ms| > 0
    requires multiset(ms) == multiset(ns)
    ensures |ns| > 0 && AvgCriteriaData(ms) == AvgCriteriaData(ns)
  {
    assert |ns| == |multiset(ns)| == |multiset(ms)| == |ms|;
    var a, b := AvgCriteriaData(ms), AvgCriteriaData(ns);
    forall k | 0 <= k < |Criteria|
      ensures a[k] == b[k]
    {
      SumMappedPermutation(ms, ns, Accessor(Criteria[k]));
      RoundedMeanUnique(a[k].value, b[k].value, Sum(Column(ms, Criteria[k])), |ms|);
    }
  }
}
