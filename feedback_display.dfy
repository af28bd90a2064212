/**
  What the feedback page derives from a stored feedback record: the overall
  average and its label, one bar per score (colour and width), and which of
  the four list sections appear. Markup and styling are not modelled; only
  the values the page computes and the conditions it renders under are.
 */
module FeedbackDisplay {
  import opened FeedbackEngine

  /** The five scores, in the order the page lists them. */
  function ScoreList(s: Scores): (r: seq<real>)
    ensures |r| == 5
  {
    [s.problemRepresentation, s.differentialQuality, s.prioritization, s.dataInterpretation, s.clinicalSafety]
  }

  /** The sum of the five scores divided by 5. */
  function AverageScore(s: Scores): (avg: real)
    ensures ValidScores(s) ==> ValidScore(avg)
  {
    (s.problemRepresentation + s.differentialQuality + s.prioritization + s.dataInterpretation + s.clinicalSafety) / 5.0
  }

  /** The average never leaves the range that holds all five scores. */
  lemma AverageBetween(s: Scores, lo: real, hi: real)
    requires forall i :: 0 <= i < 5 ==> lo <= ScoreList(s)[i] <= hi
    ensures lo <= AverageScore(s) <= hi
  {
    assert lo <= ScoreList(s)[0] <= hi;
    assert lo <= ScoreList(s)[1] <= hi;
    assert lo <= ScoreList(s)[2] <= hi;
    assert lo <= ScoreList(s)[3] <= hi;
    assert lo <= ScoreList(s)[4] <= hi;
  }

  const Green := "bg-green-500"
  const Yellow := "bg-yellow-500"
  const Red := "bg-red-500"

  function ScoreColor(score: real): (color: string)
    ensures color == Green <==> score >= 4.0
    ensures color == Yellow <==> 3.0 <= score < 4.0
    ensures color == Red <==> score < 3.0
  {
    if score >= 4.0 then Green
    else if score >= 3.0 then Yellow
    else Red
  }

  function ScoreLabel(score: real): string
  {
    if score >= 4.5 then "Excellent"
    else if score >= 4.0 then "Very Good"
    else if score >= 3.5 then "Good"
    else if score >= 3.0 then "Fair"
    else if score >= 2.0 then "Needs Improvement"
    else "Poor"
  }

  // An independent statement of the label bands: the lower edges of the
  // bands above "Poor", and the labels from worst to best.

  const Thresholds: seq<real> := [2.0, 3.0, 3.5, 4.0, 4.5]
  const Labels: seq<string> := ["Poor", "Needs Improvement", "Fair", "Good", "Very Good", "Excellent"]

  /** How many of the (ascending) thresholds the score reaches. */
  function Reached(ts: seq<real>, score: real): (n: nat)
    ensures n <= |ts|
  {
    if |ts| == 0 then 0
    else (if ts[0] <= score then 1 else 0) + Reached(ts[1..], score)
  }

  /** The band a score falls in: 0 for "Poor" up to 5 for "Excellent". */
  function Band(score: real): (b: nat)
    ensures b < |Labels|
  {
    Reached(Thresholds, score)
  }

  /** Every score gets exactly the label of the one band it falls in. */
  lemma LabelIsBand(score: real)
    ensures ScoreLabel(score) == Labels[Band(score)]
  {
    var t5: seq<real> := [];
    var t4 := [4.5] + t5;
    var t3 := [4.0] + t4;
    var t2 := [3.5] + t3;
    var t1 := [3.0] + t2;
    assert Thresholds == [2.0] + t1;
    assert Reached(t4, score) == (if score >= 4.5 then 1 else 0) by { assert t4[1..] == t5; }
    assert Reached(t3, score) == (if score >= 4.0 then 1 else 0) + Reached(t4, score) by { assert t3[1..] == t4; }
    assert Reached(t2, score) == (if score >= 3.5 then 1 else 0) + Reached(t3, score) by { assert t2[1..] == t3; }
    assert Reached(t1, score) == (if score >= 3.0 then 1 else 0) + Reached(t2, score) by { assert t1[1..] == t2; }
    assert Reached(Thresholds, score) == (if score >= 2.0 then 1 else 0) + Reached(t1, score) by {
      assert Thresholds[1..] == t1;
    }
  }

  lemma {:induction false} ReachedMonotone(ts: seq<real>, x: real, y: real)
    requires x <= y
    ensures Reached(ts, x) <= Reached(ts, y)
  {
    if |ts| > 0 {
      ReachedMonotone(ts[1..], x, y);
    }
  }

  /** A higher score never gets a lower-ranked label. */
  lemma LabelMonotone(x: real, y: real)
    requires x <= y
    ensures Band(x) <= Band(y)
    ensures ScoreLabel(x) == Labels[Band(x)] && ScoreLabel(y) == Labels[Band(y)]
  {
    ReachedMonotone(Thresholds, x, y);
    LabelIsBand(x);
    LabelIsBand(y);
  }

  /** The bar's width in percent: `value / 5 * 100`. */
  function BarWidth(value: real): (w: real)
    ensures ValidScore(value) ==> 20.0 <= w <= 100.0
    ensures w == 100.0 <==> value == 5.0
  {
    value / 5.0 * 100.0
  }

  /** One line of the score breakdown. */
  datatype ScoreBar = ScoreBar(key: string, value: real, color: string, width: real)

  function Bar(key: string, value: real): ScoreBar
  {
    ScoreBar(key, value, ScoreColor(value), BarWidth(value))
  }

  /** The breakdown, one bar per score in schema order; every bar of a valid record fits its track. */
  function ScoreBars(s: Scores): (bars: seq<ScoreBar>)
    ensures |bars| == 5
    ensures forall i :: 0 <= i < 5 ==> bars[i].value == ScoreList(s)[i]
    ensures ValidScores(s) ==> forall i :: 0 <= i < 5 ==> 20.0 <= bars[i].width <= 100.0
  {
    [Bar("problem_representation", s.problemRepresentation),
     Bar("differential_quality", s.differentialQuality),
     Bar("prioritization", s.prioritization),
     Bar("data_interpretation", s.dataInterpretation),
     Bar("clinical_safety", s.clinicalSafety)]
  }

  /** The four optional sections, in page order. */
  datatype Section = Strengths | Misses | Biases | TeachingPoints

  function Position(s: Section): nat
  {
    match s
    case Strengths => 0
    case Misses => 1
    case Biases => 2
    case TeachingPoints => 3
  }

  function SectionItems(f: Feedback, s: Section): seq<string>
  {
    match s
    case Strengths => f.strengths
    case Misses => f.misses
    case Biases => f.biases
    case TeachingPoints => f.teachingPoints
  }

  function ShownIf(s: Section, items: seq<string>): seq<Section>
  {
    if |items| > 0 then [s] else []
  }

  /** The sections the page renders: exactly those with a non-empty list, in page order. */
  function VisibleSections(f: Feedback): (shown: seq<Section>)
    ensures forall s :: s in shown <==> |SectionItems(f, s)| > 0
    ensures forall i, j :: 0 <= i < j < |shown| ==> Position(shown[i]) < Position(shown[j])
  {
    ShownIf(Strengths, f.strengths) + ShownIf(Misses, f.misses)
    + ShownIf(Biases, f.biases) + ShownIf(TeachingPoints, f.teachingPoints)
  }

  /** Teaching points paired with the number shown beside them, counting from 1. */
  function NumberedPoints(points: seq<string>): (items: seq<(nat, string)>)
    ensures |items| == |points|
    ensures forall i :: 0 <= i < |items| ==> items[i].1 == points[i]
    ensures |items| > 0 ==> items[0].0 == 1
    ensures forall i :: 0 < i < |items| ==> items[i].0 == items[i - 1].0 + 1
  {
    seq(|points|, i requires 0 <= i < |points| => (i + 1, points[i]))
  }
}
