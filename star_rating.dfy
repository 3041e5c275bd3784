/**
 * The star rating given after a detected utterance (useStarRating): a pure
 * threshold classification of average volume and speech duration into one to
 * three stars, under a strictness mode stored by the parent.
 */
module StarRating {
  import opened Base

  datatype RatingMode = Easy | Standard | Strict

  datatype StarRating = StarRating(stars: int, feedback: string)

  /** The text the mode is stored under. */
  function ModeName(m: RatingMode): string {
    match m
    case Easy => "easy"
    case Standard => "standard"
    case Strict => "strict"
  }

  /** Writing the mode (setRatingMode): the new content of the storage slot. */
  function SaveRatingMode(m: RatingMode): (stored: Option<string>)
    ensures stored.Some?
  {
    Some(ModeName(m))
  }

  /**
   * Reading the mode (getRatingMode). `stored` is `None` when the key is absent
   * or the storage throws; any text that names no mode reads as `Easy`.
   */
  function LoadRatingMode(stored: Option<string>): (m: RatingMode)
    ensures m != Easy ==> stored == Some(ModeName(m))
    ensures (exists k :: stored == Some(ModeName(k))) ==> stored == Some(ModeName(m))
  {
    if stored == Some("standard") then Standard
    else if stored == Some("strict") then Strict
    else Easy
  }

  /** The volume clamped to [0, 1] before any comparison. */
  function Clamp01(v: real): (r: real)
    ensures 0.0 <= r <= 1.0
    ensures 0.0 <= v <= 1.0 ==> r == v
  {
    MinReal(MaxReal(v, 0.0), 1.0)
  }

  /**
   * calculateStarRating: `volume` is the average normalised volume, `duration`
   * the speech duration in milliseconds.
   */
  function CalculateStarRating(volume: real, duration: int, mode: RatingMode): (r: StarRating)
    ensures 1 <= r.stars <= 3
    ensures mode == Easy ==> r.stars == 3
  {
    var v := Clamp01(volume);
    var seconds := duration as real / 1000.0;
    match mode
    case Easy => StarRating(3, "太棒了！")
    case Standard =>
      var stars := if v >= 0.15 && seconds >= 0.8 then 3
                   else if v >= 0.08 && seconds >= 0.5 then 2
                   else 1;
      StarRating(stars, if stars == 3 then "太棒了！" else if stars == 2 then "很好！" else "加油！")
    case Strict =>
      var stars := if v >= 0.25 && seconds >= 1.2 then 3
                   else if v >= 0.15 && seconds >= 0.8 then 2
                   else 1;
      StarRating(stars, if stars == 3 then "太棒了！" else if stars == 2 then "不错！" else "再大声点！")
  }

  function Stars(volume: real, duration: int, mode: RatingMode): int {
    CalculateStarRating(volume, duration, mode).stars
  }

  /** Reading back a saved mode gives that mode. */
  lemma ModeRoundTrip(m: RatingMode)
    ensures LoadRatingMode(SaveRatingMode(m)) == m
  {
  }

  /** Standard mode, stated on the raw inputs (duration in milliseconds). */
  lemma StandardThresholds(volume: real, duration: int)
    ensures Stars(volume, duration, Standard) == 3 <==> volume >= 0.15 && duration >= 800
    ensures Stars(volume, duration, Standard) == 2 <==>
              !(volume >= 0.15 && duration >= 800) && volume >= 0.08 && duration >= 500
    ensures Stars(volume, duration, Standard) == 1 <==> !(volume >= 0.08 && duration >= 500)
  {
  }

  /** Strict mode, stated on the raw inputs (duration in milliseconds). */
  lemma StrictThresholds(volume: real, duration: int)
    ensures Stars(volume, duration, Strict) == 3 <==> volume >= 0.25 && duration >= 1200
    ensures Stars(volume, duration, Strict) == 2 <==>
              !(volume >= 0.25 && duration >= 1200) && volume >= 0.15 && duration >= 800
    ensures Stars(volume, duration, Strict) == 1 <==> !(volume >= 0.15 && duration >= 800)
  {
  }

  /** Any volume above 1 rates exactly as a volume of 1. */
  lemma LoudVolumesRateAlike(volume: real, duration: int, mode: RatingMode)
    requires volume >= 1.0
    ensures CalculateStarRating(volume, duration, mode) == CalculateStarRating(1.0, duration, mode)
  {
  }

  /** Within a mode, the feedback text depends on the number of stars alone. */
  lemma FeedbackFollowsStars(v1: real, d1: int, v2: real, d2: int, mode: RatingMode)
    requires Stars(v1, d1, mode) == Stars(v2, d2, mode)
    ensures CalculateStarRating(v1, d1, mode).feedback == CalculateStarRating(v2, d2, mode).feedback
  {
  }

  /** Louder or longer speech never earns fewer stars. */
  lemma StarsMonotone(v1: real, d1: int, v2: real, d2: int, mode: RatingMode)
    requires v1 <= v2 && d1 <= d2
    ensures Stars(v1, d1, mode) <= Stars(v2, d2, mode)
  {
  }

  /** For the same utterance: strict <= standard <= easy. */
  lemma ModesOrdered(volume: real, duration: int)
    ensures Stars(volume, duration, Strict) <= Stars(volume, duration, Standard)
    ensures Stars(volume, duration, Standard) <= Stars(volume, duration, Easy)
  {
  }
}
