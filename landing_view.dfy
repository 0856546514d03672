/** How the front end shows a touchdown reported by the bridge: the label and
    colour per score with a fallback, the five-star row, the pop-up after a
    landing and the history panel. */
module LandingView {
  import opened Common
  import LandingInfo

  datatype RatingStyle = RatingStyle(title: string, color: string)

  /** The style table, keyed by score. */
  function RatingsEntry(score: int): (r: Option<RatingStyle>)
    ensures r.Some? <==> 1 <= score <= 5
  {
    match score
    case 5 => Some(RatingStyle("Perfect", "#00e676"))
    case 4 => Some(RatingStyle("Good", "#4fc3f7"))
    case 3 => Some(RatingStyle("Acceptable", "#ffa726"))
    case 2 => Some(RatingStyle("Hard", "#ef5350"))
    case 1 => Some(RatingStyle("Very Hard", "#d32f2f"))
    case _ => None
  }

  /** `RATINGS[score] || RATINGS[3]`; a missing score falls back too. */
  function RatingFor(score: Option<int>): (r: RatingStyle)
    ensures score.Some? && 1 <= score.value <= 5 ==> r == RatingsEntry(score.value).value
    ensures !(score.Some? && 1 <= score.value <= 5) ==> r == RatingsEntry(3).value
  {
    if score.Some? && RatingsEntry(score.value).Some? then RatingsEntry(score.value).value
    else RatingsEntry(3).value
  }

  /** The front end's labels are the bridge's labels, score by score. */
  lemma LabelsMatchBridge(score: int)
    requires 1 <= score <= 5
    ensures RatingsEntry(score).value.title == LandingInfo.LabelOf(score)
  {
  }

  /** A landing rated by the bridge is shown under the label it carries. */
  lemma RatedLandingShowsItsLabel(vs: real)
    ensures RatingFor(Some(LandingInfo.CalculateRating(vs).score)).title == LandingInfo.CalculateRating(vs).name
  {
  }

  /** Which of the five stars are filled: star i (counting from 1) is filled
      when i <= score; a missing score fills none. */
  function StarFills(score: Option<int>): (r: seq<bool>)
    ensures |r| == 5
    ensures forall i :: 0 <= i < 5 ==> (r[i] <==> score.Some? && i + 1 <= score.value)
  {
    seq(5, i requires 0 <= i < 5 => score.Some? && i + 1 <= score.value)
  }

  /** Builds the star row one star at a time. */
  method StarRating(score: Option<int>) returns (stars: seq<bool>)
    ensures stars == StarFills(score)
  {
    stars := [];
    var i := 1;
    while i <= 5
      invariant 1 <= i <= 6
      invariant |stars| == i - 1
      invariant forall k :: 0 <= k < i - 1 ==> (stars[k] <==> score.Some? && k + 1 <= score.value)
    {
      stars := stars + [score.Some? && i <= score.value];
      i := i + 1;
    }
  }

  /** A full rating fills as many stars as it scores. */
  lemma {:induction false} FilledStarsCount(score: int)
    requires 0 <= score <= 5
    ensures forall i :: 0 <= i < 5 ==> (StarFills(Some(score))[i] <==> i < score)
  {
  }

  /** The pop-up after a landing: nothing without a landing, otherwise its
      style and star row. */
  function LandingModal(landing: Option<LandingInfo.Landing>): (r: Option<(RatingStyle, seq<bool>)>)
    ensures r.None? <==> landing.None?
    ensures r.Some? ==> r.value.0 == RatingFor(Some(landing.value.ratingScore))
    ensures r.Some? ==> r.value.1 == StarFills(Some(landing.value.ratingScore))
  {
    if landing.None? then None
    else Some((RatingFor(Some(landing.value.ratingScore)), StarFills(Some(landing.value.ratingScore))))
  }

  /** The history panel: nothing for an empty history, otherwise headed by
      the newest landing (the first) with its style, and one style per
      landing in order. */
  function LandingPanel(history: seq<LandingInfo.Landing>): (r: Option<(RatingStyle, seq<RatingStyle>)>)
    ensures r.None? <==> history == []
    ensures r.Some? ==> r.value.0 == RatingFor(Some(history[0].ratingScore))
    ensures r.Some? ==> |r.value.1| == |history|
    ensures r.Some? ==> forall i :: 0 <= i < |history| ==> r.value.1[i] == RatingFor(Some(history[i].ratingScore))
  {
    if |history| == 0 then None
    else Some((RatingFor(Some(history[0].ratingScore)),
               seq(|history|, i requires 0 <= i < |history| => RatingFor(Some(history[i].ratingScore)))))
  }
}
