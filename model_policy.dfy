/**
 * The pure decisions of `PriceForecastingModel`: the month-to-season map
 * `_get_season` and the booking policy `get_recommendation`.
 */
module ModelPolicy {

  /** `_get_season`: meteorological seasons; any value outside 1..12 falls to 'Fall'. */
  function GetSeason(month: int): (s: string)
    ensures s in {"Winter", "Spring", "Summer", "Fall"}
  {
    if month in {12, 1, 2} then "Winter"
    else if month in {3, 4, 5} then "Spring"
    else if month in {6, 7, 8} then "Summer"
    else "Fall"
  }

  /** Each calendar month gets the season of its quarter, counting December with January. */
  lemma SeasonOfQuarter(month: int)
    requires 1 <= month <= 12
    ensures GetSeason(month) == ["Winter", "Spring", "Summer", "Fall"][(month % 12) / 3]
  {
  }

  lemma SeasonOutsideCalendar(month: int)
    requires month < 1 || 12 < month
    ensures GetSeason(month) == "Fall"
  {
  }

  datatype Action = BookNow | Wait | Neutral
  datatype Confidence = High | Medium

  /** The `reason` sentence, by its template and the number it prints. */
  datatype Reason = Increase(percent: real) | Decrease(percent: real) | Stable(percent: real)

  datatype Recommendation = Recommendation(
    action: Action,
    reason: Reason,
    confidence: Confidence,
    priceChangePercent: real,
    currentPrice: real,
    predictedAvgPrice: real)

  function Sum(xs: seq<real>): real {
    if xs == [] then 0.0 else xs[0] + Sum(xs[1..])
  }

  /** `np.mean`. */
  function Mean(xs: seq<real>): real
    requires xs != []
  {
    Sum(xs) / |xs| as real
  }

  /** The mean lies between the smallest and the largest value. */
  lemma {:induction false} MeanBounds(xs: seq<real>, lo: real, hi: real)
    requires xs != []
    requires forall i | 0 <= i < |xs| :: lo <= xs[i] <= hi
    ensures lo <= Mean(xs) <= hi
  {
    SumBounds(xs, lo, hi);
  }

  lemma {:induction false} SumBounds(xs: seq<real>, lo: real, hi: real)
    requires forall i | 0 <= i < |xs| :: lo <= xs[i] <= hi
    ensures lo * |xs| as real <= Sum(xs) <= hi * |xs| as real
  {
    if xs != [] {
      SumBounds(xs[1..], lo, hi);
    }
  }

  /** `(avg - current) / current * 100`. */
  function PercentChange(current: real, avg: real): real
    requires current != 0.0
  {
    (avg - current) / current * 100.0
  }

  /**
   * `get_recommendation(current_price, future_prices)`. The source divides by
   * `current_price` and averages `future_prices`, so it needs a non-zero price
   * and at least one future price.
   */
  function GetRecommendation(current: real, future: seq<real>): (r: Recommendation)
    requires current != 0.0 && future != []
    ensures r.currentPrice == current && r.predictedAvgPrice == Mean(future)
    ensures r.priceChangePercent == PercentChange(current, Mean(future))
  {
    var avg := Mean(future);
    var pc := PercentChange(current, avg);
    if pc > 5.0 then
      Recommendation(BookNow, Increase(pc), if pc > 10.0 then High else Medium, pc, current, avg)
    else if pc < -5.0 then
      Recommendation(Wait, Decrease(-pc), if pc < -10.0 then High else Medium, pc, current, avg)
    else
      Recommendation(Neutral, Stable(pc), Medium, pc, current, avg)
  }

  /** The decision table, band by band; the bands partition the reals. */
  lemma DecisionTable(current: real, future: seq<real>)
    requires current != 0.0 && future != []
    ensures var r := GetRecommendation(current, future);
            var pc := r.priceChangePercent;
            && (pc > 10.0 ==> r.action == BookNow && r.confidence == High)
            && (5.0 < pc <= 10.0 ==> r.action == BookNow && r.confidence == Medium)
            && (-5.0 <= pc <= 5.0 ==> r.action == Neutral && r.confidence == Medium)
            && (-10.0 <= pc < -5.0 ==> r.action == Wait && r.confidence == Medium)
            && (pc < -10.0 ==> r.action == Wait && r.confidence == High)
  {
  }

  /** The action, and High confidence, as if-and-only-if conditions on the percent change. */
  lemma ActionIff(current: real, future: seq<real>)
    requires current != 0.0 && future != []
    ensures var r := GetRecommendation(current, future);
            && (r.action == BookNow <==> r.priceChangePercent > 5.0)
            && (r.action == Wait <==> r.priceChangePercent < -5.0)
            && (r.action == Neutral <==> -5.0 <= r.priceChangePercent <= 5.0)
            && (r.confidence == High <==> r.priceChangePercent > 10.0 || r.priceChangePercent < -10.0)
  {
  }

  /** The reason prints the size of the change, and its direction by the template. */
  lemma ReasonMatchesChange(current: real, future: seq<real>)
    requires current != 0.0 && future != []
    ensures var r := GetRecommendation(current, future);
            match r.reason
            case Increase(p) => r.action == BookNow && p == r.priceChangePercent > 5.0
            case Decrease(p) => r.action == Wait && p == -r.priceChangePercent > 5.0
            case Stable(p) => r.action == Neutral && p == r.priceChangePercent
  {
  }

  /** Orders actions from 'wait' to 'book now'. */
  function Urgency(a: Action): nat {
    match a
    case Wait => 0
    case Neutral => 1
    case BookNow => 2
  }

  /** For a positive price, a higher forecast average gives a strictly higher percent change. */
  lemma PercentChangeIncreasing(current: real, avg1: real, avg2: real)
    requires current > 0.0 && avg1 < avg2
    ensures PercentChange(current, avg1) < PercentChange(current, avg2)
  {
    var q1, q2 := (avg1 - current) / current, (avg2 - current) / current;
    assert q1 * current == avg1 - current && q2 * current == avg2 - current;
  }

  /** For a positive price, raising the forecast never moves the action from 'book now' toward 'wait'. */
  lemma RecommendationMonotone(current: real, future1: seq<real>, future2: seq<real>)
    requires current > 0.0 && future1 != [] && future2 != []
    requires Mean(future1) <= Mean(future2)
    ensures Urgency(GetRecommendation(current, future1).action) <= Urgency(GetRecommendation(current, future2).action)
  {
    if Mean(future1) < Mean(future2) {
      PercentChangeIncreasing(current, Mean(future1), Mean(future2));
    }
  }

  /** The sign of the change: for a positive price, 'book now' means a higher average, 'wait' a lower one. */
  lemma ActionDirection(current: real, future: seq<real>)
    requires current > 0.0 && future != []
    ensures var r := GetRecommendation(current, future);
            && (r.action == BookNow ==> r.predictedAvgPrice > 1.05 * current)
            && (r.action == Wait ==> r.predictedAvgPrice < 0.95 * current)
  {
    var avg := Mean(future);
    var pc := PercentChange(current, avg);
    assert pc * current == (avg - current) * 100.0;
  }
}
