/**
 * The pricing rules of the synthetic data generator: per-date factor tables,
 * price floors, and the day-by-day loops that build the hotel and flight
 * datasets for 2022-01-01 .. 2024-12-31. Every random draw is a parameter.
 */
module DataGenerator {
  import opened Calendar
  import opened Frames

  /** `get_season`, the generator's own copy of the month-to-season map. */
  function GetSeason(month: int): (s: string)
    ensures s in {"Winter", "Spring", "Summer", "Fall"}
  {
    if month in {12, 1, 2} then "Winter"
    else if month in {3, 4, 5} then "Spring"
    else if month in {6, 7, 8} then "Summer"
    else "Fall"
  }

  /** Hotel seasonal factor: winter peak, summer peak, shoulder months. Only months 1..12 occur. */
  function HotelSeasonalFactor(month: int): (f: real)
    requires 1 <= month <= 12
    ensures f in {1.2, 1.4, 1.6}
  {
    if month in {12, 1, 2} then 1.4
    else if month in {6, 7, 8} then 1.6
    else 1.2
  }

  /** The weekend premium: 1.3 on Saturday and Sunday, none otherwise. */
  function HotelWeekendFactor(weekday: int): (f: real)
    ensures f == 1.3 <==> weekday >= 5
    ensures f == 1.0 <==> weekday < 5
  {
    if weekday >= 5 then 1.3 else 1.0
  }

  /** The holiday premium: Christmas Day only. */
  function HolidayFactor(month: int, day: int): (f: real)
    ensures f == 1.5 <==> month == 12 && day == 25
    ensures f == 1.0 <==> !(month == 12 && day == 25)
  {
    if day == 25 && month == 12 then 1.5 else 1.0
  }

  /** Flight seasonal factor: peak travel months, shoulder months, off-peak. */
  function FlightSeasonalFactor(month: int): (f: real)
    ensures f in {0.9, 1.2, 1.5}
  {
    if month in {12, 1, 7, 8} then 1.5
    else if month in {2, 3, 9, 10, 11} then 1.2
    else 0.9
  }

  /** Flight day-of-week factor: Tuesday and Wednesday cheaper, Friday and Sunday dearer. */
  function FlightDayFactor(weekday: int): (f: real)
    ensures f in {0.85, 1.0, 1.3}
  {
    if weekday in {1, 2} then 0.85
    else if weekday in {4, 6} then 1.3
    else 1.0
  }

  /** `max(floor, price)`; the source rounds the price to cents first, which is left out. */
  function Floor(floor: real, price: real): (p: real)
    ensures p >= floor && p >= price
    ensures p == floor || p == price
  {
    if price > floor then price else floor
  }

  /** A larger price is never floored below a smaller one. */
  lemma FloorMonotone(floor: real, x: real, y: real)
    requires x <= y
    ensures Floor(floor, x) <= Floor(floor, y)
  {
  }

  const HotelMinimum := 50.0
  const FlightMinimum := 150.0

  /** The draws for one hotel row: `np.random.uniform(0.8, 1.2)` and `np.random.normal(0, 10)`. */
  datatype HotelDraw = HotelDraw(demandFactor: real, noise: real)

  /** The draws for one flight row: two uniform factors, the normal noise and `random.randint(1, 90)`. */
  datatype FlightDraw = FlightDraw(advanceFactor: real, marketFactor: real, noise: real, advanceDays: int)

  datatype HotelRow = HotelRow(
    date: Date, price: real, dayOfWeek: string, month: int, isWeekend: int, season: string, demandScore: real)

  datatype FlightRow = FlightRow(
    date: Date, price: real, dayOfWeek: string, month: int, isWeekend: int, season: string,
    advanceBookingDays: int, demandScore: real)

  /** The hotel price: 100 times the seasonal, weekend, holiday and demand factors, plus noise, floored at 50. */
  function HotelPrice(d: Date, draw: HotelDraw): (p: real)
    ensures p >= HotelMinimum
  {
    HotelPriceFrom(HotelSeasonalFactor(Month(d)) * HotelWeekendFactor(Weekday(d)) * HolidayFactor(Month(d), DayOfMonth(d)), draw)
  }

  /** The hotel price for the product `f` of the date's seasonal, weekend and holiday factors. */
  function HotelPriceFrom(f: real, draw: HotelDraw): real {
    Floor(HotelMinimum, 100.0 * (f * draw.demandFactor) + draw.noise)
  }

  /** The flight price: 300 times the seasonal, day, advance and market factors, plus noise, floored at 150. */
  function FlightPrice(d: Date, draw: FlightDraw): (p: real)
    ensures p >= FlightMinimum
  {
    FlightPriceFrom(FlightSeasonalFactor(Month(d)), FlightDayFactor(Weekday(d)), draw)
  }

  /** The flight price for the date's seasonal factor `s` and day factor `w`. */
  function FlightPriceFrom(s: real, w: real, draw: FlightDraw): real {
    Floor(FlightMinimum, 300.0 * (s * w * draw.advanceFactor * draw.marketFactor) + draw.noise)
  }

  /** Multiplying bounded non-negative factors keeps the bounds. */
  lemma ProductBounds(a: real, b: real, lo1: real, hi1: real, lo2: real, hi2: real)
    requires 0.0 <= lo1 <= a <= hi1 && 0.0 <= lo2 <= b <= hi2
    ensures lo1 * lo2 <= a * b <= hi1 * hi2
  {
    assert lo1 * lo2 <= a * lo2 <= a * b;
    assert a * b <= hi1 * b <= hi1 * hi2;
  }

  /**
   * With the demand draw inside `uniform(0.8, 1.2)`, the factor product lies in
   * 0.96 .. 3.744, so a hotel price lies between 96 and 374.4 plus the noise, and
   * the floor of 50 only applies when the noise is below -46.
   */
  lemma HotelPriceEnvelope(d: Date, draw: HotelDraw)
    requires 0.8 <= draw.demandFactor <= 1.2
    ensures HotelPrice(d, draw) >= 96.0 + draw.noise
    ensures HotelPrice(d, draw) <= Floor(HotelMinimum, 374.4 + draw.noise)
    ensures draw.noise >= -46.0 ==> HotelPrice(d, draw) > HotelMinimum || draw.noise == -46.0
  {
    var s, w, h := HotelSeasonalFactor(Month(d)), HotelWeekendFactor(Weekday(d)), HolidayFactor(Month(d), DayOfMonth(d));
    assert 1.2 <= s * w * h <= 3.12 by {
      ProductBounds(s, w, 1.2, 1.6, 1.0, 1.3);
      ProductBounds(s * w, h, 1.2, 2.08, 1.0, 1.5);
    }
    HotelPriceFromRange(s * w * h, draw);
  }

  /** The hotel price over the factor tables' product range and the demand draw's range. */
  lemma HotelPriceFromRange(f: real, draw: HotelDraw)
    requires 1.2 <= f <= 3.12 && 0.8 <= draw.demandFactor <= 1.2
    ensures HotelPriceFrom(f, draw) >= 96.0 + draw.noise
    ensures HotelPriceFrom(f, draw) <= Floor(HotelMinimum, 374.4 + draw.noise)
  {
    var g := f * draw.demandFactor;
    assert 0.96 <= g <= 3.744 by {
      ProductBounds(f, draw.demandFactor, 1.2, 3.12, 0.8, 1.2);
    }
    FloorMonotone(HotelMinimum, 100.0 * g + draw.noise, 374.4 + draw.noise);
  }

  /** The flight price over the factor tables' values and the uniform draws' ranges. */
  lemma FlightPriceFromRange(s: real, w: real, draw: FlightDraw)
    requires s in {0.9, 1.2, 1.5} && w in {0.85, 1.0, 1.3}
    requires 0.7 <= draw.advanceFactor <= 1.4 && 0.9 <= draw.marketFactor <= 1.1
    ensures FlightPriceFrom(s, w, draw) >= 144.585 + draw.noise
    ensures FlightPriceFrom(s, w, draw) <= Floor(FlightMinimum, 900.9 + draw.noise)
  {
    var f := s * w * draw.advanceFactor * draw.marketFactor;
    assert 0.48195 <= f <= 3.003 by {
      ProductBounds(s, w, 0.9, 1.5, 0.85, 1.3);
      ProductBounds(s * w, draw.advanceFactor, 0.765, 1.95, 0.7, 1.4);
      ProductBounds(s * w * draw.advanceFactor, draw.marketFactor, 0.5355, 2.73, 0.9, 1.1);
    }
    FloorMonotone(FlightMinimum, 300.0 * f + draw.noise, 900.9 + draw.noise);
  }

  /** With the same non-negative factors, larger non-negative draws and more noise give a larger flight price. */
  lemma FlightPriceFromMonotone(s: real, w: real, a: FlightDraw, b: FlightDraw)
    requires 0.0 <= s && 0.0 <= w
    requires 0.0 <= a.advanceFactor <= b.advanceFactor && 0.0 <= a.marketFactor <= b.marketFactor && a.noise <= b.noise
    ensures FlightPriceFrom(s, w, a) <= FlightPriceFrom(s, w, b)
  {
    ProductBounds(s * w, a.advanceFactor, 0.0, s * w, 0.0, b.advanceFactor);
    ProductBounds(s * w * a.advanceFactor, a.marketFactor, 0.0, s * w * b.advanceFactor, 0.0, b.marketFactor);
    FloorMonotone(FlightMinimum, 300.0 * (s * w * a.advanceFactor * a.marketFactor) + a.noise,
                  300.0 * (s * w * b.advanceFactor * b.marketFactor) + b.noise);
  }

  /**
   * With the draws inside `uniform(0.7, 1.4)` and `uniform(0.9, 1.1)`, the factor
   * product lies in 0.48195 .. 3.003, so a flight price lies between 144.585 and
   * 900.9 plus the noise, and never below the floor of 150.
   */
  lemma FlightPriceEnvelope(d: Date, draw: FlightDraw)
    requires 0.7 <= draw.advanceFactor <= 1.4 && 0.9 <= draw.marketFactor <= 1.1
    ensures FlightPrice(d, draw) >= 144.585 + draw.noise
    ensures FlightPrice(d, draw) <= Floor(FlightMinimum, 900.9 + draw.noise)
  {
    FlightPriceFromRange(FlightSeasonalFactor(Month(d)), FlightDayFactor(Weekday(d)), draw);
  }

  /** A higher demand draw or more noise never lowers a hotel price on the same date. */
  lemma HotelPriceMonotone(d: Date, a: HotelDraw, b: HotelDraw)
    requires 0.0 <= a.demandFactor <= b.demandFactor && a.noise <= b.noise
    ensures HotelPrice(d, a) <= HotelPrice(d, b)
  {
    var s, w, h := HotelSeasonalFactor(Month(d)), HotelWeekendFactor(Weekday(d)), HolidayFactor(Month(d), DayOfMonth(d));
    assert 0.0 <= s * w * h by {
      ProductBounds(s, w, 0.0, s, 0.0, w);
      ProductBounds(s * w, h, 0.0, s * w, 0.0, h);
    }
    HotelPriceFromMonotone(s * w * h, a, b);
  }

  /** With the same non-negative factor product, a larger demand draw and more noise give a larger hotel price. */
  lemma HotelPriceFromMonotone(f: real, a: HotelDraw, b: HotelDraw)
    requires 0.0 <= f && 0.0 <= a.demandFactor <= b.demandFactor && a.noise <= b.noise
    ensures HotelPriceFrom(f, a) <= HotelPriceFrom(f, b)
  {
    var ga, gb := f * a.demandFactor, f * b.demandFactor;
    assert ga <= gb by {
      ProductBounds(f, a.demandFactor, 0.0, f, 0.0, b.demandFactor);
    }
    FloorMonotone(HotelMinimum, 100.0 * ga + a.noise, 100.0 * gb + b.noise);
  }

  /** Higher advance or market draws, or more noise, never lower a flight price on the same date. */
  lemma FlightPriceMonotone(d: Date, a: FlightDraw, b: FlightDraw)
    requires 0.0 <= a.advanceFactor <= b.advanceFactor && 0.0 <= a.marketFactor <= b.marketFactor
    requires a.noise <= b.noise
    ensures FlightPrice(d, a) <= FlightPrice(d, b)
  {
    FlightPriceFromMonotone(FlightSeasonalFactor(Month(d)), FlightDayFactor(Weekday(d)), a, b);
  }

  /** On Christmas Day the winter and weekend factors and the demand draw are multiplied by the premium 1.5. */
  lemma ChristmasPremium(d: Date, draw: HotelDraw)
    requires Month(d) == 12 && DayOfMonth(d) == 25
    ensures HotelPrice(d, draw) ==
            Floor(HotelMinimum, 1.5 * (100.0 * HotelSeasonalFactor(12) * HotelWeekendFactor(Weekday(d)) * draw.demandFactor) + draw.noise)
  {
  }

  /** The row `generate_hotel_data` appends for one date. */
  function HotelRowFor(d: Date, draw: HotelDraw): HotelRow {
    HotelRow(d, HotelPrice(d, draw), DayName(d), Month(d), if Weekday(d) >= 5 then 1 else 0,
             GetSeason(Month(d)), draw.demandFactor * 100.0)
  }

  /** The row `generate_flight_data` appends for one date. */
  function FlightRowFor(d: Date, draw: FlightDraw): FlightRow {
    FlightRow(d, FlightPrice(d, draw), DayName(d), Month(d), if Weekday(d) >= 5 then 1 else 0,
              GetSeason(Month(d)), draw.advanceDays, draw.marketFactor * 100.0)
  }

  /** 2022-01-01 and 2024-12-31, as ordinals. */
  const StartDate: Date := 738156
  const EndDate: Date := 739251

  lemma GeneratedBounds()
    ensures StartDate == Ordinal(2022, 1, 1) && EndDate == Ordinal(2024, 12, 31)
  {
  }

  lemma GeneratedStartIsJanuary1()
    ensures ToYmd(StartDate) == Ymd(2022, 1, 1)
  {
    assert 738155 / 146097 == 5 && 738155 % 146097 == 7670;
    assert 7670 / 36524 == 0 && 7670 / 1461 == 5 && 7670 % 1461 == 365;
    assert ToYmd(StartDate) == FromCycles(5, 0, 5, 1, 0);
    assert MonthAndDay(0, false) == (1, 1);
  }

  lemma GeneratedEndIsDecember31()
    ensures ToYmd(EndDate) == Ymd(2024, 12, 31)
  {
    assert 739250 / 146097 == 5 && 739250 % 146097 == 8765;
    assert 8765 / 36524 == 0 && 8765 / 1461 == 5 && 8765 % 1461 == 1460;
  }

  /** 2022-01-01 is a Saturday, day 1 of its year, and lies in ISO week 52 of 2021. */
  lemma GeneratedStartFeatures()
    ensures Weekday(StartDate) == 5 && DayOfYear(StartDate) == 1 && IsoWeek(StartDate) == 52
  {
    GeneratedStartIsJanuary1();
    assert Year(StartDate) == 2022;
    assert DaysBeforeYear(2022) == 738155;
    assert IsoWeekOneMonday(2022) == 738158;
    assert IsoWeekOneMonday(2021) == 737794;
  }

  /** 2024-12-31 is a Tuesday, day 366 of a leap year, and lies in ISO week 1 of 2025. */
  lemma GeneratedEndFeatures()
    ensures Weekday(EndDate) == 1 && DayOfYear(EndDate) == 366 && IsoWeek(EndDate) == 1
  {
    GeneratedEndIsDecember31();
    assert Year(EndDate) == 2024;
    assert DaysBeforeYear(2024) == 738885;
    assert IsoWeekOneMonday(2024) == 738886 by {
      assert (738886 + 6) % 7 == 0;
    }
    assert IsoWeekOneMonday(2025) == 739250 by {
      assert DaysBeforeYear(2025) == 739251 && (739252 + 6) % 7 == 2;
    }
    assert (EndDate - 738886) / 7 == 52;
  }

  /** `pd.date_range(start, end, freq='D')`: every day from `start` to `end`, both included. */
  function DateRange(start: Date, end: Date): (r: seq<Date>)
    ensures |r| == if start <= end then end - start + 1 else 0
    ensures forall i | 0 <= i < |r| :: r[i] == start + i
  {
    if start <= end then seq(end - start + 1, i requires 0 <= i < end - start + 1 => start + i) else []
  }

  /** Three years, one of them a leap year. */
  lemma GeneratedSpan()
    ensures |DateRange(StartDate, EndDate)| == 365 + 365 + 366
  {
  }

  /** `generate_hotel_data`, with `draws[i]` the random draws of the i-th date. */
  method GenerateHotelData(draws: seq<HotelDraw>) returns (rows: seq<HotelRow>)
    requires |draws| >= |DateRange(StartDate, EndDate)|
    ensures |rows| == |DateRange(StartDate, EndDate)|
    ensures forall i | 0 <= i < |rows| :: rows[i] == HotelRowFor(StartDate + i, draws[i])
    ensures forall i | 0 <= i < |rows| ::
              && rows[i].date == StartDate + i && rows[i].price >= HotelMinimum
              && (rows[i].isWeekend == 1 <==> Weekday(rows[i].date) >= 5)
              && rows[i].month == Month(rows[i].date) && rows[i].season == GetSeason(rows[i].month)
  {
    var dates := DateRange(StartDate, EndDate);
    rows := [];
    for i := 0 to |dates|
      invariant |rows| == i
      invariant forall j | 0 <= j < i :: rows[j] == HotelRowFor(dates[j], draws[j])
    {
      rows := rows + [HotelRowFor(dates[i], draws[i])];
    }
    HotelRowsFields(draws, rows);
  }

  /** Hotel rows built day by day have the fields of `HotelRowFields`. */
  lemma HotelRowsFields(draws: seq<HotelDraw>, rows: seq<HotelRow>)
    requires |rows| <= |draws| && |rows| <= |DateRange(StartDate, EndDate)|
    requires forall i | 0 <= i < |rows| :: rows[i] == HotelRowFor(StartDate + i, draws[i])
    ensures forall i | 0 <= i < |rows| ::
              && rows[i].date == StartDate + i && rows[i].price >= HotelMinimum
              && (rows[i].isWeekend == 1 <==> Weekday(rows[i].date) >= 5)
              && rows[i].month == Month(rows[i].date) && rows[i].season == GetSeason(rows[i].month)
  {
    forall i | 0 <= i < |rows|
      ensures && rows[i].date == StartDate + i && rows[i].price >= HotelMinimum
              && (rows[i].isWeekend == 1 <==> Weekday(rows[i].date) >= 5)
              && rows[i].month == Month(rows[i].date) && rows[i].season == GetSeason(rows[i].month)
    {
      HotelRowFields(StartDate + i, draws[i]);
    }
  }

  /** `generate_flight_data`, with `draws[i]` the random draws of the i-th date. */
  method GenerateFlightData(draws: seq<FlightDraw>) returns (rows: seq<FlightRow>)
    requires |draws| >= |DateRange(StartDate, EndDate)|
    requires forall i | 0 <= i < |DateRange(StartDate, EndDate)| :: 1 <= draws[i].advanceDays <= 90
    ensures |rows| == |DateRange(StartDate, EndDate)|
    ensures forall i | 0 <= i < |rows| :: rows[i] == FlightRowFor(StartDate + i, draws[i])
    ensures forall i | 0 <= i < |rows| ::
              && rows[i].date == StartDate + i && rows[i].price >= FlightMinimum
              && (rows[i].isWeekend == 1 <==> Weekday(rows[i].date) >= 5)
              && rows[i].month == Month(rows[i].date) && rows[i].season == GetSeason(rows[i].month)
              && 1 <= rows[i].advanceBookingDays <= 90
  {
    var dates := DateRange(StartDate, EndDate);
    rows := [];
    for i := 0 to |dates|
      invariant |rows| == i
      invariant forall j | 0 <= j < i :: rows[j] == FlightRowFor(dates[j], draws[j])
    {
      rows := rows + [FlightRowFor(dates[i], draws[i])];
    }
    FlightRowsFields(draws, rows);
  }

  /** Flight rows built from draws in `randint(1, 90)` have the fields of `FlightRowFields`. */
  lemma FlightRowsFields(draws: seq<FlightDraw>, rows: seq<FlightRow>)
    requires |rows| <= |draws| && |rows| <= |DateRange(StartDate, EndDate)|
    requires forall i | 0 <= i < |rows| :: 1 <= draws[i].advanceDays <= 90
    requires forall i | 0 <= i < |rows| :: rows[i] == FlightRowFor(StartDate + i, draws[i])
    ensures forall i | 0 <= i < |rows| ::
              && rows[i].date == StartDate + i && rows[i].price >= FlightMinimum
              && (rows[i].isWeekend == 1 <==> Weekday(rows[i].date) >= 5)
              && rows[i].month == Month(rows[i].date) && rows[i].season == GetSeason(rows[i].month)
              && 1 <= rows[i].advanceBookingDays <= 90
  {
    forall i | 0 <= i < |rows|
      ensures && rows[i].date == StartDate + i && rows[i].price >= FlightMinimum
              && (rows[i].isWeekend == 1 <==> Weekday(rows[i].date) >= 5)
              && rows[i].month == Month(rows[i].date) && rows[i].season == GetSeason(rows[i].month)
              && 1 <= rows[i].advanceBookingDays <= 90
    {
      FlightRowFields(StartDate + i, draws[i]);
    }
  }

  /** Every hotel row: the floor price, the weekend flag and the season of its month. */
  lemma HotelRowFields(d: Date, draw: HotelDraw)
    ensures var row := HotelRowFor(d, draw);
            && row.price >= HotelMinimum
            && 1 <= row.month <= 12 && row.month == Month(d)
            && (row.isWeekend == 1 <==> Weekday(d) >= 5) && (row.isWeekend == 0 <==> Weekday(d) < 5)
            && row.season == GetSeason(row.month)
  {
  }

  /** Every flight row: the floor price, the weekend flag, the season, and booking days in 1..90. */
  lemma FlightRowFields(d: Date, draw: FlightDraw)
    requires 1 <= draw.advanceDays <= 90
    ensures var row := FlightRowFor(d, draw);
            && row.price >= FlightMinimum
            && 1 <= row.month <= 12 && row.month == Month(d)
            && (row.isWeekend == 1 <==> Weekday(d) >= 5)
            && row.season == GetSeason(row.month)
            && 1 <= row.advanceBookingDays <= 90
  {
  }

  /** The hotel seasonal factor follows the season: 1.4 in winter, 1.6 in summer, 1.2 in spring and fall. */
  lemma HotelFactorBySeason(month: int)
    requires 1 <= month <= 12
    ensures GetSeason(month) == "Winter" <==> HotelSeasonalFactor(month) == 1.4
    ensures GetSeason(month) == "Summer" <==> HotelSeasonalFactor(month) == 1.6
    ensures GetSeason(month) in {"Spring", "Fall"} <==> HotelSeasonalFactor(month) == 1.2
  {
  }

  /** Flights are cheaper on Tuesday and Wednesday and dearer on Friday and Sunday. */
  lemma FlightDayFactorByName(d: Date)
    ensures FlightDayFactor(Weekday(d)) == 0.85 <==> DayName(d) in {"Tuesday", "Wednesday"}
    ensures FlightDayFactor(Weekday(d)) == 1.3 <==> DayName(d) in {"Friday", "Sunday"}
    ensures FlightDayFactor(Weekday(d)) == 1.0 <==> DayName(d) in {"Monday", "Thursday", "Saturday"}
  {
    var w := Weekday(d);
    if w == 0 { } else if w == 1 { } else if w == 2 { } else if w == 3 { } else if w == 4 { } else if w == 5 { } else { }
  }

  /** The weekend premium of a hotel and the weekend flag of its row agree. */
  lemma WeekendFactorMatchesFlag(d: Date)
    ensures HotelWeekendFactor(Weekday(d)) == 1.3 <==> Weekday(d) >= 5
    ensures HotelWeekendFactor(Weekday(d)) == 1.0 <==> Weekday(d) < 5
  {
  }

  /** The flight factors take exactly three values each. */
  lemma FlightFactorValues(month: int, weekday: int)
    requires 0 <= weekday < 7
    ensures FlightSeasonalFactor(month) == 1.5 <==> month in {12, 1, 7, 8}
    ensures FlightSeasonalFactor(month) == 1.2 <==> month in {2, 3, 9, 10, 11}
    ensures FlightSeasonalFactor(month) == 0.9 <==> month !in {12, 1, 7, 8, 2, 3, 9, 10, 11}
    ensures FlightDayFactor(weekday) == 0.85 <==> weekday in {1, 2}
    ensures FlightDayFactor(weekday) == 1.3 <==> weekday in {4, 6}
    ensures FlightDayFactor(weekday) == 1.0 <==> weekday in {0, 3, 5}
  {
  }

  /** The hotel columns, as `pd.DataFrame(hotel_data)` names them. */
  const HotelColumns: set<string> :=
    {"date", "price", "day_of_week", "month", "is_weekend", "season", "demand_score"}

  /** The flight columns: the hotel ones plus `advance_booking_days`. */
  const FlightColumns: set<string> := HotelColumns + {"advance_booking_days"}

  /** A hotel record has exactly the hotel columns and loses no field of its row. */
  lemma HotelRecordKeepsRow(a: HotelRow, b: HotelRow)
    ensures HotelRecord(a).Keys == HotelColumns
    ensures HotelRecord(a) == HotelRecord(b) <==> a == b
  {
    if HotelRecord(a) == HotelRecord(b) {
      assert HotelRecord(a)["month"] == HotelRecord(b)["month"];
      assert HotelRecord(a)["is_weekend"] == HotelRecord(b)["is_weekend"];
    }
  }

  /** A flight record has exactly the flight columns and loses no field of its row. */
  lemma FlightRecordKeepsRow(a: FlightRow, b: FlightRow)
    ensures FlightRecord(a).Keys == FlightColumns
    ensures FlightRecord(a) == FlightRecord(b) <==> a == b
  {
    if FlightRecord(a) == FlightRecord(b) {
      assert FlightRecord(a)["month"] == FlightRecord(b)["month"];
      assert FlightRecord(a)["is_weekend"] == FlightRecord(b)["is_weekend"];
      assert FlightRecord(a)["advance_booking_days"] == FlightRecord(b)["advance_booking_days"];
    }
  }

  /** The columns of `pd.DataFrame(hotel_data)`, as the training code reads them. */
  function HotelRecord(row: HotelRow): Row {
    map[
      "date" := When(row.date), "price" := Num(row.price), "day_of_week" := Text(row.dayOfWeek),
      "month" := Num(row.month as real), "is_weekend" := Num(row.isWeekend as real),
      "season" := Text(row.season), "demand_score" := Num(row.demandScore)
    ]
  }

  /** The columns of `pd.DataFrame(flight_data)`, as the training code reads them. */
  function FlightRecord(row: FlightRow): Row {
    map[
      "date" := When(row.date), "price" := Num(row.price), "day_of_week" := Text(row.dayOfWeek),
      "month" := Num(row.month as real), "is_weekend" := Num(row.isWeekend as real),
      "season" := Text(row.season), "advance_booking_days" := Num(row.advanceBookingDays as real),
      "demand_score" := Num(row.demandScore)
    ]
  }
}
