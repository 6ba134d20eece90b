/**
 * The decisions the dashboard takes from a recommendation: the card type, the
 * delta arrow of the current-price card, the savings note, the deal and trend
 * insights, the card and confidence lookups, and today's prediction record.
 */
module App {
  import opened Common
  import opened Calendar
  import opened Frames
  import opened ModelPolicy
  import Model
  import DataGenerator

  /** The card type `main` derives from the percent change. */
  function RecType(percentChange: real): (t: string)
    ensures t in {"book", "wait", "monitor"}
    ensures t == "book" <==> percentChange > 5.0
    ensures t == "wait" <==> percentChange < -5.0
  {
    if percentChange > 5.0 then "book"
    else if percentChange < -5.0 then "wait"
    else "monitor"
  }

  /** The card type the model's own label calls for. */
  function CardFor(a: Action): string {
    match a
    case BookNow => "book"
    case Wait => "wait"
    case Neutral => "monitor"
  }

  /** The dashboard's card type always agrees with the model's label. */
  lemma RecTypeAgrees(current: real, future: seq<real>)
    requires current != 0.0 && future != []
    ensures var r := GetRecommendation(current, future);
            RecType(r.priceChangePercent) == CardFor(r.action)
  {
    ActionIff(current, future);
  }

  /** `delta_type` of the current-price card. A change of exactly zero shows as 'down'. */
  function DeltaType(percentChange: real): (t: string)
    ensures t in {"up", "down"}
    ensures t == "up" <==> percentChange > 0.0
  {
    if percentChange > 0.0 then "up" else "down"
  }

  datatype DeltaMarkup = DeltaMarkup(cssClass: string, arrow: string)

  /** `render_metric_card`'s delta markup: none unless `delta` is a non-empty string. */
  function RenderDelta(delta: Option<string>, deltaType: string): (m: Option<DeltaMarkup>)
    ensures m.Some? <==> delta.Some? && delta.value != ""
    ensures m.Some? ==> (m.value.cssClass == "delta-up" <==> m.value.arrow == "↑")
    ensures m.Some? ==> (m.value.cssClass == "delta-down" <==> m.value.arrow == "↓")
    ensures m.Some? ==> (m.value.cssClass == "delta-up" <==> deltaType == "up")
    ensures m.Some? ==> (m.value.cssClass == "delta-down" <==> deltaType == "down")
    ensures m.Some? && deltaType != "up" && deltaType != "down" ==> m.value == DeltaMarkup("delta-neutral", "→")
  {
    if delta.None? || delta.value == "" then None
    else if deltaType == "up" then Some(DeltaMarkup("delta-up", "↑"))
    else if deltaType == "down" then Some(DeltaMarkup("delta-down", "↓"))
    else Some(DeltaMarkup("delta-neutral", "→"))
  }

  /** The current-price card points up exactly when the change is positive, and never shows the neutral arrow. */
  lemma CurrentPriceArrow(percentChange: real, delta: string)
    requires delta != ""
    ensures RenderDelta(Some(delta), DeltaType(percentChange)) ==
              Some(if percentChange > 0.0 then DeltaMarkup("delta-up", "↑") else DeltaMarkup("delta-down", "↓"))
  {
  }

  datatype Card = Card(cssClass: string, title: string, subtitle: string)

  /** `render_recommendation`'s card configuration; an unknown type falls back to 'monitor'. */
  function RecommendationCard(recType: string): (c: Card)
    ensures c.title == "BOOK NOW" <==> recType == "book"
    ensures c.title == "WAIT" <==> recType == "wait"
    ensures c.title == "MONITOR" <==> recType != "book" && recType != "wait"
  {
    if recType == "book" then Card("rec-book-now", "BOOK NOW", "Prices are rising!")
    else if recType == "wait" then Card("rec-wait", "WAIT", "Prices will drop!")
    else Card("rec-monitor", "MONITOR", "Prices are stable")
  }

  /** `{"High": 85, "Medium": 65, "Low": 45}.get(confidence, 65)`. */
  function ConfidencePercent(confidence: string): (p: int)
    ensures p == 85 <==> confidence == "High"
    ensures p == 45 <==> confidence == "Low"
  {
    if confidence == "High" then 85
    else if confidence == "Medium" then 65
    else if confidence == "Low" then 45
    else 65
  }

  /** The text of the model's confidence tier. */
  function ConfidenceText(c: Confidence): string {
    match c
    case High => "High"
    case Medium => "Medium"
  }

  /** Every card type other than 'book' and 'wait' shows the 'monitor' card, and the three cards differ. */
  lemma CardFallback(recType: string)
    ensures recType != "book" && recType != "wait" ==> RecommendationCard(recType) == RecommendationCard("monitor")
    ensures RecommendationCard("book") != RecommendationCard("wait")
    ensures RecommendationCard("book") != RecommendationCard("monitor")
    ensures RecommendationCard("wait") != RecommendationCard("monitor")
  {
  }

  /** The meter shows one of three widths, and 65% for any text other than 'High' and 'Low'. */
  lemma ConfidenceWidths(confidence: string)
    ensures ConfidencePercent(confidence) in {85, 65, 45}
    ensures confidence != "High" && confidence != "Low" ==> ConfidencePercent(confidence) == 65
    ensures ConfidencePercent("High") == 85 && ConfidencePercent("Medium") == 65 && ConfidencePercent("Low") == 45
  {
  }

  /** A recommendation's card matches its label, and its meter reads 85% for High and 65% otherwise. */
  lemma CardShowsRecommendation(current: real, future: seq<real>)
    requires current != 0.0 && future != []
    ensures var r := GetRecommendation(current, future);
            && RecommendationCard(RecType(r.priceChangePercent)).title ==
                 (match r.action case BookNow => "BOOK NOW" case Wait => "WAIT" case Neutral => "MONITOR")
            && ConfidencePercent(ConfidenceText(r.confidence)) == (if r.confidence == High then 85 else 65)
  {
    RecTypeAgrees(current, future);
  }

  datatype SavingsNote = PotentialSavings(amount: real) | BookToSave(amount: real) | NoNote

  /** The note under the card: savings when waiting, the extra cost avoided when booking. */
  function Savings(recType: string, current: real, predictedAvg: real): (n: SavingsNote)
    ensures n.PotentialSavings? <==> recType == "wait"
    ensures n.BookToSave? <==> recType == "book"
    ensures n.PotentialSavings? ==> n.amount == current - predictedAvg
    ensures n.BookToSave? ==> n.amount == predictedAvg - current
  {
    if recType == "wait" then PotentialSavings(current - predictedAvg)
    else if recType == "book" then BookToSave(predictedAvg - current)
    else NoNote
  }

  /** For a positive current price the amount in the note is always positive. */
  lemma SavingsPositive(current: real, future: seq<real>)
    requires current > 0.0 && future != []
    ensures var r := GetRecommendation(current, future);
            match Savings(RecType(r.priceChangePercent), r.currentPrice, r.predictedAvgPrice)
            case PotentialSavings(x) => x > 0.0 && r.action == Wait
            case BookToSave(x) => x > 0.0 && r.action == BookNow
            case NoNote => r.action == Neutral
  {
    RecTypeAgrees(current, future);
    ActionDirection(current, future);
  }

  datatype DealInsight = GreatDeal | AboveAverage | NoDealInsight

  /** The price-level insight against the historical average price. */
  function Deal(current: real, avgPrice: real): (d: DealInsight)
    ensures d == GreatDeal <==> current < avgPrice * 0.9
    ensures d == AboveAverage <==> current >= avgPrice * 0.9 && current > avgPrice * 1.1
  {
    if current < avgPrice * 0.9 then GreatDeal
    else if current > avgPrice * 1.1 then AboveAverage
    else NoDealInsight
  }

  /** For a positive average the two insights are exclusive and each fires exactly on its side of the band. */
  lemma DealBands(current: real, avgPrice: real)
    requires avgPrice > 0.0
    ensures Deal(current, avgPrice) == GreatDeal <==> current < 0.9 * avgPrice
    ensures Deal(current, avgPrice) == AboveAverage <==> current > 1.1 * avgPrice
    ensures Deal(current, avgPrice) == NoDealInsight <==> 0.9 * avgPrice <= current <= 1.1 * avgPrice
  {
  }

  datatype TrendInsight = RisingTrend | FallingTrend | NoTrendInsight

  /** The trend insight from the percent change, on the same 5% thresholds as the card. */
  function Trend(percentChange: real): (t: TrendInsight)
    ensures t == RisingTrend <==> percentChange > 5.0
    ensures t == FallingTrend <==> percentChange < -5.0
  {
    if percentChange > 5.0 then RisingTrend
    else if percentChange < -5.0 then FallingTrend
    else NoTrendInsight
  }

  /** The trend insight goes with the card: rising with 'book', falling with 'wait'. */
  lemma TrendMatchesCard(percentChange: real)
    ensures Trend(percentChange) == RisingTrend <==> RecType(percentChange) == "book"
    ensures Trend(percentChange) == FallingTrend <==> RecType(percentChange) == "wait"
  {
  }

  /** `sub` occurs in `s` starting at index `i`. */
  predicate OccursAt(s: string, sub: string, i: int) {
    0 <= i <= |s| - |sub| && s[i..i + |sub|] == sub
  }

  /** Python's `sub in s` on strings. */
  predicate Contains(s: string, sub: string) {
    exists i | 0 <= i <= |s| :: OccursAt(s, sub, i)
  }

  const HotelService := "🏨 Hotel"
  const FlightService := "✈️ Flight"

  /** The model `main` picks: the hotel model when the service names a hotel, the flight model otherwise. */
  function ServiceModelType(serviceType: string): (t: string)
    ensures t in {"hotel", "flight"}
    ensures t == "hotel" <==> Contains(serviceType, "Hotel")
  {
    if Contains(serviceType, "Hotel") then "hotel" else "flight"
  }

  /** The record `main` predicts today's price from. */
  function TodayRecord(today: Date, serviceType: string): (row: Row)
    ensures row.Keys == Model.FutureKeys
  {
    map[
      "date" := When(today),
      "day_of_week" := Text(DayName(today)),
      "month" := Num(Month(today) as real),
      "is_weekend" := Num(if Weekday(today) >= 5 then 1.0 else 0.0),
      "season" := Text(GetSeason(Month(today))),
      "demand_score" := Num(105.0),
      Model.FlightFeature := if Contains(serviceType, "Flight") then Num(30.0) else Missing
    ]
  }

  lemma ServiceNames()
    ensures Contains(HotelService, "Hotel") && !Contains(HotelService, "Flight")
    ensures Contains(FlightService, "Flight") && !Contains(FlightService, "Hotel")
  {
    assert OccursAt(HotelService, "Hotel", 2);
    assert OccursAt(FlightService, "Flight", 3);
    forall i | 0 <= i <= 1 ensures !OccursAt(HotelService, "Flight", i) {
      assert HotelService[i..i + 6][0] != 'F';
    }
    forall i | 0 <= i <= 4 ensures !OccursAt(FlightService, "Hotel", i) {
      assert FlightService[i..i + 5][0] != 'H';
    }
  }

  /**
   * Today's record for either service: the weekend flag, the season of the
   * month, a demand of 105, and 30 booking days exactly for the flight model.
   */
  lemma TodayRecordFields(today: Date, serviceType: string)
    requires serviceType in {HotelService, FlightService}
    ensures var row := TodayRecord(today, serviceType);
            && (row["is_weekend"] == Num(1.0) <==> Weekday(today) >= 5)
            && row["season"] == Text(GetSeason(Month(today)))
            && row["demand_score"] == Num(105.0)
            && (row[Model.FlightFeature] == Num(30.0) <==> ServiceModelType(serviceType) == "flight")
  {
    ServiceNames();
  }

  /** `_get_season` of the model and `get_season` of the generator name the same season for every month. */
  lemma SeasonsAgree(month: int)
    ensures DataGenerator.GetSeason(month) == GetSeason(month)
  {
  }

  /** The full feature list of a model type when its frame has every feature. */
  function FullFeatures(modelType: string): seq<string> {
    Model.BaseFeatures + (if modelType == "flight" then [Model.FlightFeature] else [])
  }

  /** The raw columns every record of either service carries. */
  const RecordColumns: set<string> := {"date", "day_of_week", "month", "is_weekend", "season", "demand_score"}

  /** A frame with the record columns (and, for a flight model, the booking horizon) selects the full list. */
  lemma {:induction false} FullFeaturesChosen(modelType: string, columns: set<string>)
    requires RecordColumns <= columns
    requires modelType == "flight" ==> Model.FlightFeature in columns
    ensures Model.FeatureColumns(modelType, Model.PreparedColumns(columns)) == FullFeatures(modelType)
  {
    var prepared := Model.PreparedColumns(columns);
    assert "date" in columns && "day_of_week" in columns && "season" in columns;
    assert forall x | x in Model.BaseFeatures :: x in prepared;
    assert Model.WantedFeatures(modelType, prepared) == FullFeatures(modelType);
    Model.PresentAll(FullFeatures(modelType), prepared);
  }

  /** The generated training frames select the full feature list of their model. */
  lemma TrainingFeatures(hotel: DataGenerator.HotelRow, flight: DataGenerator.FlightRow)
    ensures Model.FeatureColumns("hotel", Model.PreparedColumns(DataGenerator.HotelRecord(hotel).Keys)) == FullFeatures("hotel")
    ensures Model.FeatureColumns("flight", Model.PreparedColumns(DataGenerator.FlightRecord(flight).Keys)) == FullFeatures("flight")
  {
    assert RecordColumns <= DataGenerator.HotelRecord(hotel).Keys;
    FullFeaturesChosen("hotel", DataGenerator.HotelRecord(hotel).Keys);
    assert RecordColumns + {Model.FlightFeature} <= DataGenerator.FlightRecord(flight).Keys;
    FullFeaturesChosen("flight", DataGenerator.FlightRecord(flight).Keys);
  }

  /** Today's record and the future-trend rows select the same lists, for either service. */
  lemma ServingFeatures(today: Date, noise: real)
    ensures Model.FeatureColumns("hotel", Model.PreparedColumns(TodayRecord(today, HotelService).Keys)) == FullFeatures("hotel")
    ensures Model.FeatureColumns("flight", Model.PreparedColumns(TodayRecord(today, FlightService).Keys)) == FullFeatures("flight")
    ensures Model.FeatureColumns("hotel", Model.PreparedColumns(Model.FutureRow("hotel", today, noise).Keys)) == FullFeatures("hotel")
    ensures Model.FeatureColumns("flight", Model.PreparedColumns(Model.FutureRow("flight", today, noise).Keys)) == FullFeatures("flight")
  {
    assert RecordColumns + {Model.FlightFeature} <= TodayRecord(today, HotelService).Keys;
    assert RecordColumns + {Model.FlightFeature} <= TodayRecord(today, FlightService).Keys;
    FullFeaturesChosen("hotel", TodayRecord(today, HotelService).Keys);
    FullFeaturesChosen("flight", TodayRecord(today, FlightService).Keys);
    FullFeaturesChosen("hotel", Model.FutureRow("hotel", today, noise).Keys);
    FullFeaturesChosen("flight", Model.FutureRow("flight", today, noise).Keys);
  }
}
