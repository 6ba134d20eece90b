# Travel price forecasting — a Dafny model

This project models the core of a travel price forecasting dashboard. The
dashboard trains one linear price model for hotels and one for flights on
synthetic daily prices, predicts today's price and the next few days, and
turns the trend into a booking recommendation: book now, wait, or monitor.

What is modelled, module by module:

- `Common`: `Option`, `Result` and the errors the Python code raises. These
  are `ValueError` from an untrained model or an unseen label, `IndexError`
  from an empty encoder, `OverflowError` from date arithmetic, and the
  input checks of scikit-learn.
- `Calendar`: the parts of Python's `datetime.date` the code relies on.
  Dates are proleptic Gregorian ordinals, so 0001-01-01 is day 1 and
  9999-12-31 is the last day. It covers `fromordinal`, `weekday()`,
  `strftime('%A')`, `+ timedelta(days=n)` with its overflow, and the
  day-of-year and ISO-week numbers pandas reports.
- `Frames`: a pandas `DataFrame` as a set of column names plus rows that map
  names to cells. A cell is a number, a text, a date, or missing (NaN/None).
  `pd.DataFrame(list_of_dicts)` fills a key a record lacks with a missing cell.
- `Encoding`: scikit-learn's `LabelEncoder` as `prepare_features` uses it.
  `fit` keeps the distinct labels in Python's string order. `transform`
  gives each label its rank and rejects an unseen label. The fallback path
  fills missing cells with `classes_[0]` and transforms again.
- `ModelPolicy`: `get_recommendation` and `_get_season` of `model.py`.
- `Model`: the class `PriceForecastingModel`, covering feature preparation,
  the `is_trained` guard of `predict`, training, the future trend, and saving
  and loading. The regressor is abstract: training receives the fitted price
  function and stores it, and prediction applies it to each feature vector.
- `DataGenerator`: the factor tables, price floors and day-by-day loops of
  `data_generator.py`, from 2022-01-01 to 2024-12-31. Each random draw is a
  parameter.
- `App`: the decisions `app.py` takes from a recommendation:
  - the card type, delta arrow, savings note and confidence meter;
  - the deal and trend insights;
  - today's prediction record and the choice of model;
  - the agreement between training and serving feature lists.

## Model

| member | source | states |
|---|---|---|
| ModelPolicy.GetRecommendation | model.py:174-200 | the result carries the current price, the mean of the future prices, and the percent change between them |
| ModelPolicy.DecisionTable | model.py:179-191 | action, reason and confidence for each band: above 5% book now (High above 10%), below -5% wait (High below -10%), otherwise neutral with Medium |
| ModelPolicy.ActionIff | model.py:179-191 | book now iff the change exceeds 5%, wait iff it is below -5%, neutral iff it lies in [-5%, 5%] |
| ModelPolicy.ReasonMatchesChange | model.py:181-190 | the reason says increase for book now, decrease for wait, and stable with the exact percent for neutral |
| ModelPolicy.PercentChangeIncreasing | model.py:178 | for a positive current price the percent change grows strictly with the average |
| ModelPolicy.RecommendationMonotone | model.py:174-191 | a higher predicted average never makes the advice less urgent (wait < neutral < book now) |
| ModelPolicy.ActionDirection | model.py:179-188 | book now implies the average exceeds 1.05 times the current price; wait implies it is below 0.95 times |
| ModelPolicy.MeanBounds | model.py:177 | the mean of the future prices lies within any bounds that hold for every price |
| ModelPolicy.GetSeason | model.py:202-211 | the season is one of Winter, Spring, Summer and Fall |
| ModelPolicy.SeasonOfQuarter | model.py:202-211 | months 12,1,2 map to Winter, 3-5 to Spring, 6-8 to Summer, 9-11 to Fall |
| ModelPolicy.SeasonOutsideCalendar | model.py:210-211 | any number outside 1..12 falls through to Fall |
| Encoding.Fit | model.py:51-53 | classes are sorted, hold exactly the text labels of the column, and record whether a missing cell occurred |
| Encoding.CodeIsRank | model.py:53 | a label's code is the number of classes ordered before it |
| Encoding.CodeRoundTrip | model.py:53 | decoding a code gives back the encoded label |
| Encoding.CodeInjective | model.py:53 | two cells with one code are the same label |
| Encoding.FitThenEncode | model.py:53 | `fit_transform` never fails on the column it was fitted to |
| Encoding.EncodeColumnSucceeds | model.py:54-61 | reuse succeeds iff every text label is a class, and a missing cell finds a class or a fitted missing value |
| Encoding.FallbackCodes | model.py:56-61 | a known label keeps its code; a cell only the fallback encodes is a missing cell filled with `classes_[0]`, code 0 |
| Encoding.Code | model.py:53 | a text label has a code iff it is a class, a missing cell iff the missing class was fitted, and every code indexes the classes |
| Encoding.EncodeColumn | model.py:54-61 | a success has one code per cell, each a valid class index, and a text label keeps its own code; an unseen text label always fails, with UnseenLabel or the IndexError of empty classes |
| Encoding.BelowTransitive | model.py:53 | the string order used to sort classes is transitive |
| Encoding.BelowTotal | model.py:53 | any two different labels are ordered one way |
| Model.PriceForecastingModel.PrepareFeatures | model.py:28-77 | fitted encoders are kept and new ones are `Fit` of the column; success iff every reused encoder accepts its column; `feature_columns` is set to the fixed list filtered by the prepared columns; each row is its feature vector; on failure the list is untouched |
| Model.PriceForecastingModel.constructor | model.py:21-26 | a new model has the given type, an unfitted regressor, no encoders, no feature list, and is not trained |
| Model.DateFeatureValues | model.py:35-43 | for a dated row, year, month and day are the calendar date of the ordinal, day_of_year is in 1..length of the year, week_of_year is the ISO week in 1..53 |
| Model.DateFeaturesKeep | model.py:35-43 | deriving the date features adds exactly the five date columns when there is a date, and keeps every other column's value |
| Model.FeatureColumnsMembers | model.py:64-74 | the feature list holds the wanted features the frame has, and advance_booking_days iff a flight model's frame has it |
| Model.FeatureColumnsOrdered | model.py:64-74 | the feature list keeps the fixed order |
| Model.FlightFeatureLast | model.py:69-70 | when present, advance_booking_days is the last feature |
| Model.PresentAll | model.py:74 | a frame holding every wanted feature keeps the whole list |
| Model.PriceForecastingModel.Predict | model.py:131-140 | an untrained model fails with NotTrained and changes nothing; success iff the model is trained, the encoders accept the frame, the regressor was fitted on the current feature list, the frame has rows and every feature vector is numeric; existing encoders are kept, a new one is the fit of its column, and each prediction is the fitted function at the row's feature vector |
| Model.PriceForecastingModel.Train | model.py:79-129 | success iff encoders accept, a price column exists, there are at least 2 rows, features exist and all input is numeric; existing encoders are kept, a new one is the fit of its column, and on success every categorical column of the frame has one; the regressor is replaced by the new fit exactly when the checks up to `fit` pass on the training rows, even if a test row then fails, and is unchanged otherwise; the trained flag is set only on success |
| Model.FitRegressor | model.py:88-94 | fitting succeeds iff there are at least two rows, at least one feature, and numeric features and prices in the training rows (those outside the test rows); the fit keeps the feature names |
| Model.SplitCoversRows | model.py:88-98 | the training rows and the test rows are numeric together exactly when every row is |
| Model.RegressorPredict | model.py:138 | prediction succeeds iff the regressor is fitted, the feature names match the fitted ones, the frame is non-empty and every row is numeric; it gives the fitted price of each row |
| Model.FutureDates | model.py:145-148 | days 1..days_ahead after the current date; OverflowError iff the last one passes 9999-12-31 |
| Model.FutureRecords | model.py:151-167 | one future record per date, built by `FutureRow` with that date's noise |
| Model.FutureRows | model.py:145-167 | one `FutureRow` record per future date, each with exactly the seven keys of the future frame; none when the last date would overflow |
| Model.FutureData | model.py:145-167 | overflow iff the last date passes 9999-12-31; otherwise the dates are current + 1 .. current + days_ahead and the records are `FutureRows` |
| Model.FutureRowFields | model.py:153-167 | demand is 100, +10 on weekends, +15 in June, July, August and December, within ±5; advance_booking_days is 30 iff flight |
| Model.PriceForecastingModel.PredictFutureTrend | model.py:142-172 | overflow fails and changes nothing; untrained fails and leaves encoders and feature list unchanged; days_ahead <= 0 on a trained model fails and empties the feature list; success iff trained, days_ahead >= 1, no date overflow, the encoders accept the future frame, the regressor was fitted on the current feature list and every future feature vector is numeric; existing encoders are kept and a new one is the fit of its future-frame column; on success date i is current + i + 1 and price i is the fitted price of its future row |
| Model.PriceForecastingModel.PredictRecords | model.py:169-170 | builds the frame from records with one key set and predicts; success iff trained, the encoders accept the frame, the regressor was fitted on the current feature list, the list is non-empty and every record's feature vector is numeric; existing encoders are kept and a new one is the fit of its column; an untrained model changes nothing; an empty list fails and empties the feature list |
| Model.EmptyFrame | model.py:169-170 | a frame from no records has no columns, so every encoder accepts it and the feature list is empty |
| Model.PriceForecastingModel.SaveModel | model.py:213-223 | the saved data holds the model, encoders, feature list, model type and trained flag |
| Model.PriceForecastingModel.LoadModel | model.py:225-233 | the five fields are restored from the data, including is_trained |
| Model.SaveThenLoad | model.py:213-233 | saving one model and loading into another reproduces its state |
| Calendar.ToYmd | model.py:39-41 | a date's year is in 1..9999, its month in 1..12 and its day in 1..31 |
| Calendar.ToYmdIsCalendarDate | model.py:39-41 | the year, month and day are a valid calendar date whose ordinal is the given date |
| Calendar.Weekday | model.py:155 | `weekday()` lies in 0..6 |
| Calendar.DayName | model.py:161 | the name is one of the seven weekday names, and Saturday or Sunday iff `weekday()` is at least 5 |
| Calendar.DayOfYearInYear | model.py:42 | a date lies inside its year, and its day of year is the days of the months before plus the day of month, in 1..length of the year |
| Calendar.IsoWeekRange | model.py:43 | the ISO week of a date is in 1..53 |
| Calendar.IsoWeekOneHoldsJanuary4 | model.py:43 | ISO week 1 starts on a Monday and holds January 4 |
| Calendar.IsoYearLength | model.py:43 | consecutive ISO years are 52 or 53 whole weeks long |
| Frames.FromRecords | model.py:169 | the frame has one row per record, and each row holds its record's values |
| Frames.FromRecordsFillsMissing | model.py:169 | the columns are the keys of all the records together, and a key a record lacks is a missing cell |
| Frames.KeysOfRecords | model.py:169 | a key is a column exactly when some record has it |
| Frames.FromUniformRecords | model.py:169 | records sharing one key set give a frame with those columns and exactly those rows |
| Calendar.AddDays | model.py:147 | adding days succeeds iff the result stays within the date range, and moves the date by exactly n |
| DataGenerator.HotelPrice | data_generator.py:48-52 | the hotel price (100 times the seasonal, weekend, holiday and demand factors, plus the noise) is never below the $50 floor; its range, monotonicity and holiday premium are the three lemmas below |
| DataGenerator.HotelPriceEnvelope | data_generator.py:27-52 | with the demand draw in 0.8..1.2, a hotel price lies between 96 and 374.4 plus the noise (floored at $50) |
| DataGenerator.HotelPriceMonotone | data_generator.py:45-52 | on one date a larger demand draw or more noise never lowers the hotel price |
| DataGenerator.ChristmasPremium | data_generator.py:42-52 | on December 25 the hotel price is the winter factor 1.4 times the weekend and demand factors times the premium 1.5, times 100, plus noise, floored at $50 |
| DataGenerator.FlightPrice | data_generator.py:108-112 | the flight price (300 times the seasonal, day, advance and market factors, plus the noise) is never below the $150 floor; its range and monotonicity are the two lemmas below |
| DataGenerator.FlightPriceEnvelope | data_generator.py:80-112 | with the advance draw in 0.7..1.4 and the market draw in 0.9..1.1, a flight price lies between 144.585 and 900.9 plus the noise (floored at $150) |
| DataGenerator.FlightPriceMonotone | data_generator.py:101-112 | on one date larger advance or market draws, or more noise, never lower the flight price |
| DataGenerator.FloorMonotone | data_generator.py:52 | flooring keeps the order of two prices |
| DataGenerator.HotelRecordKeepsRow | data_generator.py:54-64 | a hotel record has exactly the seven hotel columns, and two records are equal iff their rows are (no field is lost) |
| DataGenerator.FlightRecordKeepsRow | data_generator.py:114-125 | a flight record has the hotel columns plus `advance_booking_days`, and two records are equal iff their rows are |
| DataGenerator.Floor | data_generator.py:52 | the floored price is at least the floor and at least the raw price, and is one of them |
| DataGenerator.GenerateHotelData | data_generator.py:11-64 | one row per day from 2022-01-01; each row is the row of its date and draw, at least $50, with weekend flag, month and season of its date |
| DataGenerator.GenerateFlightData | data_generator.py:66-125 | as for hotels with a $150 floor; given draws from `randint(1, 90)`, every row has booking days in 1..90 |
| DataGenerator.HotelRowFields | data_generator.py:30-62 | a hotel row has at least the $50 floor, a month in 1..12, the weekend flag of its weekday and the season of its month |
| DataGenerator.FlightRowFields | data_generator.py:84-123 | a flight row has at least the $150 floor, a month in 1..12, the weekend flag, the season and booking days in 1..90 |
| DataGenerator.GetSeason | data_generator.py:127-136 | the season is one of Winter, Spring, Summer and Fall |
| DataGenerator.HotelSeasonalFactor | data_generator.py:30-36 | the hotel seasonal factor is 1.2, 1.4 or 1.6 |
| DataGenerator.HotelWeekendFactor | data_generator.py:39 | the weekend factor is 1.3 exactly on weekdays 5 and 6 and 1.0 otherwise |
| DataGenerator.HolidayFactor | data_generator.py:42 | the holiday factor is 1.5 exactly on December 25 and 1.0 on every other day |
| DataGenerator.FlightSeasonalFactor | data_generator.py:84-90 | the flight seasonal factor is 0.9, 1.2 or 1.5 |
| DataGenerator.FlightDayFactor | data_generator.py:93-99 | the flight day factor is 0.85, 1.0 or 1.3 |
| DataGenerator.FlightDayFactorByName | data_generator.py:93-99 | flights cost 0.85 on Tuesday and Wednesday, 1.3 on Friday and Sunday and 1.0 on the other days |
| DataGenerator.DateRange | data_generator.py:19-21 | every day from start to end, both included, in order |
| DataGenerator.HotelFactorBySeason | data_generator.py:30-36 | the hotel factor is 1.4 exactly in winter, 1.6 exactly in summer, 1.2 exactly in spring and fall |
| DataGenerator.WeekendFactorMatchesFlag | data_generator.py:39 | the 1.3 weekend premium applies exactly on the days flagged as weekend |
| DataGenerator.FlightFactorValues | data_generator.py:84-99 | each seasonal and day-of-week flight factor holds exactly on its listed months and weekdays |
| DataGenerator.GeneratedStartIsJanuary1 | data_generator.py:19 | the first generated date is 2022-01-01 |
| DataGenerator.GeneratedEndIsDecember31 | data_generator.py:20 | the last generated date is 2024-12-31 |
| DataGenerator.GeneratedSpan | data_generator.py:21 | the range holds 365 + 365 + 366 days |
| DataGenerator.GeneratedStartFeatures | data_generator.py:19 | 2022-01-01 is a Saturday, day 1, ISO week 52 |
| DataGenerator.GeneratedEndFeatures | data_generator.py:20 | 2024-12-31 is a Tuesday, day 366, ISO week 1 |
| App.RecType | app.py:1335-1340 | the card type is book iff the change exceeds 5%, wait iff it is below -5%, and monitor otherwise |
| App.DeltaType | app.py:1360 | the delta type is up iff the change is positive, down otherwise |
| App.RecommendationCard | app.py:1097-1103 | the title is BOOK NOW for book, WAIT for wait, and MONITOR for any other type |
| App.ConfidencePercent | app.py:1104 | the meter is 85 iff High and 45 iff Low |
| App.Savings | app.py:1408-1413 | a savings note iff wait, of current minus average; an extra-cost note iff book, of average minus current |
| App.Deal | app.py:1486-1490 | a great deal iff below 90% of the average; above average iff not a great deal and above 110% |
| App.Trend | app.py:1492-1495 | a rising trend iff the change exceeds 5%, a falling trend iff it is below -5% |
| App.ServiceModelType | app.py:1305 | the hotel model iff the service names "Hotel", the flight model otherwise |
| App.TodayRecord | app.py:1317-1326 | today's record has exactly the seven keys of the future rows |
| App.RecTypeAgrees | app.py:1335-1340 | the card type is book, wait or monitor exactly when the model says book now, wait or neutral |
| App.CurrentPriceArrow | app.py:1360 | the current-price card shows the up arrow iff the change is positive, and the down arrow otherwise, including at zero |
| App.RenderDelta | app.py:1080-1084 | markup appears iff the delta is a non-empty string; delta-up with ↑ iff the type is up, delta-down with ↓ iff it is down, and delta-neutral with → for any other type |
| App.CardFallback | app.py:1097-1103 | an unknown card type shows the monitor card; the three cards differ |
| App.ConfidenceWidths | app.py:1104 | High gives 85, Medium 65 and Low 45; the meter is always one of these, and 65 for any text but High and Low |
| App.CardShowsRecommendation | app.py:1097-1104 | the card title matches the model's action and the meter is 85 for High, 65 for Medium |
| App.SavingsPositive | app.py:1408-1413 | for a positive current price a savings note only appears on wait and an extra-cost note only on book; both amounts are positive |
| App.DealBands | app.py:1487-1490 | for a positive average: great deal iff below 90% of it, above average iff above 110%, neither in between |
| App.TrendMatchesCard | app.py:1492-1495 | the rising trend insight goes with the book card, the falling one with the wait card |
| App.TodayRecordFields | app.py:1318-1326 | today's record has the weekend flag, the season of its month, demand 105, and 30 booking days exactly for flights |
| App.ServiceNames | app.py:1228 | the hotel option contains "Hotel" and not "Flight", and the flight option the reverse |
| App.SeasonsAgree | data_generator.py:127-136 | the generator's season map and the model's season map agree on every month |
| App.TrainingFeatures | data_generator.py:54-62 | generated hotel and flight frames select the full feature list of their model |
| App.ServingFeatures | app.py:1318-1326 | today's record and the future rows select the same feature lists as training |

## Left out

- Model.PriceForecastingModel.Train: the test rows of `train_test_split` are the parameter `testRows`. The source takes ceil(0.2·n) of them in the order of a seeded shuffle; the model requires only that each part is non-empty.
- Linear regression numerics, `train_test_split`'s shuffle, MAE, R² and feature importance are left out. Training takes the fitted price function as a parameter. Only the input checks scikit-learn applies are modelled: too few samples, no features, non-numeric input, and mismatched feature names.
- Random draws are parameters. This covers `np.random.uniform`, `np.random.normal` and `random.randint` in the generator, and the ±5 demand noise of the future trend. `datetime.now()` is the `today` parameter of `App.TodayRecord`.
- Rounding to cents and to one decimal is left out, so `DataGenerator.Floor` applies the floor to the unrounded price. Floating point is exact real arithmetic.
- File I/O is left out: joblib `dump`/`load` become a `ModelData` value, and CSV export is not modelled. Console output, Streamlit rendering, HTML strings, charts and `run_demo.py` are also left out.
- Pandas timestamps are limited to the years 1677–2262. The model uses Python's full date range, 0001 to 9999.
- `pd.to_datetime` is left out: the date column holds dates already. pandas raises on text it cannot parse and reads a number as an offset from the epoch; the model instead gives missing calendar features for any cell that is not a date. Only a missing cell becomes `NaT` in pandas, and there the two agree.
- Encoding.Fit: a non-text cell in a categorical column counts as missing, and all missing cells share one class after the text labels. scikit-learn keeps `None` and `NaN` as two separate trailing classes, `None` first; that split is not modelled. A numeric label mixed with strings is not modelled either; scikit-learn would raise a TypeError for it.
- ModelPolicy.GetRecommendation requires a non-zero current price and a non-empty list of future prices. Outside that, numpy returns inf or nan, which is not modelled.
- Model.PriceForecastingModel.PredictFutureTrend requires at least `days_ahead` noise values, one per future date.
- App.SavingsPositive requires a positive current price, since for a negative price the sign of the note flips.
- The fallback of `prepare_features` only fills missing cells with `classes_[0]`, so a label the encoder has not seen still raises `ValueError` (`Encoding.EncodeColumnSucceeds`).
- `predict_future_trend` does not check `days_ahead`. A non-positive horizon makes an empty frame: its feature list is cleared, and the prediction fails.
- `save_model` stores no version number, so the saved data has none.
- The default arguments `model_type='hotel'` of the constructor and `days_ahead=7` of `predict_future_trend` are not modelled; callers always pass both.
