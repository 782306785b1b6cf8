/**
 * How a score out of a question count is judged: the colour of a history
 * row (`getPerformanceColor`) and the headline of the results screen. Both
 * use the percentage `score / total * 100` against the thresholds 80 and 60.
 * The percentage is an exact `real` here.
 */
module Performance {

  /** The green, yellow and red styles of a history row. */
  datatype Tier = Green | Yellow | Red

  /** Green outranks yellow, which outranks red. */
  function Rank(t: Tier): nat {
    match t
    case Red => 0
    case Yellow => 1
    case Green => 2
  }

  /**
   * `score / total * 100`: the percentage times the total is 100 times the
   * score, and a score between 0 and the total gives 0 to 100 percent.
   */
  function Percentage(score: int, total: int): (r: real)
    requires total != 0
    ensures r * total as real == 100.0 * score as real
    ensures 0 <= score <= total ==> 0.0 <= r <= 100.0
  {
    var t := total as real;
    var quotient := score as real / t;
    assert quotient * t == score as real;
    calc {
      quotient * 100.0 * t;
      quotient * t * 100.0;
      100.0 * score as real;
    }
    quotient * 100.0
  }

  /** `getPerformanceColor(percentage)`: 80 and above green, 60 up to 80 yellow, below 60 red. */
  function TierOf(percentage: real): (r: Tier)
    ensures r == Green <==> percentage >= 80.0
    ensures r == Yellow <==> 60.0 <= percentage < 80.0
    ensures r == Red <==> percentage < 60.0
  {
    if percentage >= 80.0 then Green
    else if percentage >= 60.0 then Yellow
    else Red
  }

  /** Reaching `threshold` percent is reaching `threshold * total` hundredths of a point. */
  lemma ReachesThreshold(score: int, total: int, threshold: int)
    requires total > 0
    ensures Percentage(score, total) >= threshold as real <==> 100 * score >= threshold * total
  {
    var p := Percentage(score, total);
    var t := total as real;
    var c := threshold as real;
    assert (threshold * total) as real == c * t;
    if p >= c {
      assert (p - c) * t >= 0.0;
      assert p * t - c * t >= 0.0;
    } else {
      assert (c - p) * t > 0.0;
      assert c * t - p * t > 0.0;
    }
  }

  /**
   * The tier of an attempt. With a positive question count the thresholds
   * read in integers: green exactly when 100 * score >= 80 * total, yellow
   * exactly when 60 * total <= 100 * score < 80 * total, red exactly when
   * 100 * score < 60 * total. With no questions the page divides by zero:
   * a positive score gives +Infinity (green), a zero score NaN (fails both
   * comparisons, red) and a negative one -Infinity (red).
   */
  function AttemptTier(score: int, total: int): (r: Tier)
    ensures total > 0 ==>
      (r == Green <==> 100 * score >= 80 * total) &&
      (r == Yellow <==> 60 * total <= 100 * score < 80 * total) &&
      (r == Red <==> 100 * score < 60 * total)
    ensures total == 0 ==> (r == Green <==> score > 0) && (r == Red <==> score <= 0)
  {
    if total == 0 then (if score > 0 then Green else Red)
    else if total > 0 then
      ReachesThreshold(score, total, 80);
      ReachesThreshold(score, total, 60);
      TierOf(Percentage(score, total))
    else TierOf(Percentage(score, total))
  }

  /** With the question count fixed, a higher score never gives a lower tier. */
  lemma TierMonotone(low: int, high: int, total: int)
    requires total > 0 && low <= high
    ensures Rank(AttemptTier(low, total)) <= Rank(AttemptTier(high, total))
  {
  }

  /** The three headlines of the results screen. */
  datatype ResultMessage = Outstanding | WellDone | KeepPracticing

  /**
   * `getResultMessage` for a score out of the number of questions asked:
   * "Outstanding" from 80 percent, "Well done" from 60 percent, otherwise
   * "Keep practicing".
   */
  function ResultMessageFor(score: int, questionCount: int): (r: ResultMessage)
    requires questionCount != 0
    ensures questionCount > 0 ==>
      (r == Outstanding <==> 100 * score >= 80 * questionCount) &&
      (r == WellDone <==> 60 * questionCount <= 100 * score < 80 * questionCount) &&
      (r == KeepPracticing <==> 100 * score < 60 * questionCount)
  {
    var percentage := Percentage(score, questionCount);
    var message :=
      if percentage >= 80.0 then Outstanding
      else if percentage >= 60.0 then WellDone
      else KeepPracticing;
    if questionCount > 0 then
      ReachesThreshold(score, questionCount, 80);
      ReachesThreshold(score, questionCount, 60);
      message
    else message
  }

  /** The results screen and the history row judge an attempt the same way. */
  lemma ResultMessageMatchesTier(score: int, questionCount: int)
    requires questionCount > 0
    ensures ResultMessageFor(score, questionCount) == Outstanding <==> AttemptTier(score, questionCount) == Green
    ensures ResultMessageFor(score, questionCount) == WellDone <==> AttemptTier(score, questionCount) == Yellow
    ensures ResultMessageFor(score, questionCount) == KeepPracticing <==> AttemptTier(score, questionCount) == Red
  {
  }

  /** For the ten sample questions: 8 or more is green, 6 or 7 yellow, below 6 red. */
  lemma TiersOutOfTen(score: int)
    ensures AttemptTier(score, 10) == Green <==> score >= 8
    ensures AttemptTier(score, 10) == Yellow <==> 6 <= score < 8
    ensures AttemptTier(score, 10) == Red <==> score < 6
  {
  }
}
