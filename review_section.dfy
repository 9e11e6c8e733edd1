/** The phone page's review section: the colour band of each score bar and the
    choice between the loading skeleton, nothing, and the full review. */
module ReviewSection {
  import opened Js

  /** The bar colours, from best to worst. */
  datatype Band = Green | Yellow | Orange | Red

  /** The class name each band renders as. */
  function ClassName(b: Band): string
  {
    match b
    case Green => "bg-green-500"
    case Yellow => "bg-yellow-500"
    case Orange => "bg-orange-500"
    case Red => "bg-red-500"
  }

  /** The position of a band, 0 for the best. */
  function Rank(b: Band): nat
  {
    match b
    case Green => 0
    case Yellow => 1
    case Orange => 2
    case Red => 3
  }

  /** `getScoreColor`: every comparison with NaN is false, so NaN is red. */
  function ScoreColor(score: JsNumber): (b: Band)
    ensures b == Green <==> score.Finite? && score.value >= 85.0
    ensures b == Yellow <==> score.Finite? && 70.0 <= score.value < 85.0
    ensures b == Orange <==> score.Finite? && 50.0 <= score.value < 70.0
    ensures b == Red <==> score.NaN? || score.value < 50.0
  {
    if score.Finite? && score.value >= 85.0 then Green
    else if score.Finite? && score.value >= 70.0 then Yellow
    else if score.Finite? && score.value >= 50.0 then Orange
    else Red
  }

  /** A higher score never gets a worse band. */
  lemma ScoreColorMonotone(x: real, y: real)
    requires x <= y
    ensures Rank(ScoreColor(Finite(y))) <= Rank(ScoreColor(Finite(x)))
  {
  }

  /** The five scores of a review. */
  datatype Scores = Scores(performance: JsNumber, camera: JsNumber, battery: JsNumber,
                           display: JsNumber, value: JsNumber)

  datatype Bar = Bar(name: string, score: JsNumber, band: Band)

  function ScoreBar(name: string, score: JsNumber): Bar
  {
    Bar(name, score, ScoreColor(score))
  }

  /** The score bars, in the order they are laid out. */
  function Bars(s: Scores): (bars: seq<Bar>)
    ensures |bars| == 5
    ensures forall i :: 0 <= i < 5 ==> bars[i].band == ScoreColor(bars[i].score)
    ensures bars[0].score == s.performance && bars[1].score == s.camera && bars[2].score == s.battery
    ensures bars[3].score == s.display && bars[4].score == s.value
  {
    [ ScoreBar("Performance", s.performance), ScoreBar("Camera", s.camera),
      ScoreBar("Battery", s.battery), ScoreBar("Display", s.display),
      ScoreBar("Value for Money", s.value) ]
  }

  /** What the section renders. */
  datatype View<+R> = Skeleton | Nothing | Full(review: R)

  /** `AIReviewSection`: the loading flag is tested first. */
  function ReviewView<R>(isLoading: bool, review: Option<R>): (v: View<R>)
    ensures isLoading ==> v == Skeleton
    ensures !isLoading && review.None? ==> v == Nothing
    ensures !isLoading && review.Some? ==> v == Full(review.value)
  {
    if isLoading then Skeleton
    else if review.None? then Nothing
    else Full(review.value)
  }
}
