/** The touchdown classifier of the bridge server: a landing is rated from the
    absolute vertical speed at touchdown (feet per minute). */
module LandingInfo {
  import opened Common

  datatype Rating = Rating(name: string, score: int)

  /** A detected touchdown as the bridge reports it. Times are seconds since
      the earliest representable instant. */
  datatype Landing = Landing(
    timestamp: real,
    verticalSpeed: real,
    gForce: real,
    groundSpeed: real,
    rating: string,
    ratingScore: int,
    aircraftTitle: string,
    airport: Option<string>)

  /** The label that belongs to each score; "Unknown" is the label a landing
      carries before it is rated. */
  function LabelOf(score: int): string {
    match score
    case 5 => "Perfect"
    case 4 => "Good"
    case 3 => "Acceptable"
    case 2 => "Hard"
    case 1 => "Very Hard"
    case _ => "Unknown"
  }

  /** Fixed thresholds on |vs|: below 100, 200, 300 and 500 ft/min. */
  function CalculateRating(verticalSpeedFpm: real): (r: Rating)
    ensures 1 <= r.score <= 5
    ensures r.name == LabelOf(r.score)
  {
    var absVs := Abs(verticalSpeedFpm);
    if absVs < 100.0 then Rating("Perfect", 5)
    else if absVs < 200.0 then Rating("Good", 4)
    else if absVs < 300.0 then Rating("Acceptable", 3)
    else if absVs < 500.0 then Rating("Hard", 2)
    else Rating("Very Hard", 1)
  }

  /** The five bands, each stated on the absolute vertical speed. */
  lemma RatingBands(vs: real)
    ensures Abs(vs) < 100.0 ==> CalculateRating(vs) == Rating("Perfect", 5)
    ensures 100.0 <= Abs(vs) < 200.0 ==> CalculateRating(vs) == Rating("Good", 4)
    ensures 200.0 <= Abs(vs) < 300.0 ==> CalculateRating(vs) == Rating("Acceptable", 3)
    ensures 300.0 <= Abs(vs) < 500.0 ==> CalculateRating(vs) == Rating("Hard", 2)
    ensures 500.0 <= Abs(vs) ==> CalculateRating(vs) == Rating("Very Hard", 1)
  {
  }

  /** A climb and a sink of the same magnitude get the same rating. */
  lemma RatingSymmetric(vs: real)
    ensures CalculateRating(vs) == CalculateRating(-vs)
  {
    assert Abs(vs) == Abs(-vs);
  }

  /** A harder touchdown never scores better. */
  lemma RatingMonotone(a: real, b: real)
    requires Abs(a) <= Abs(b)
    ensures CalculateRating(b).score <= CalculateRating(a).score
  {
  }

  /** Distinct scores carry distinct labels, so the label and the score
      determine each other. */
  lemma LabelsDistinct(s1: int, s2: int)
    requires 1 <= s1 <= 5 && 1 <= s2 <= 5 && s1 != s2
    ensures LabelOf(s1) != LabelOf(s2)
  {
  }
}
