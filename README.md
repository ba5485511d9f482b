# Citycycle waste management, modelled in Dafny

Citycycle is a waste-collection system. Its backend receives sensor readings from street bins and does three things with them:

- it predicts when each bin will be full, with a least-squares line and with a forecaster that trains regression and ARIMA models;
- it plans nearest-neighbour collection routes from a fixed depot;
- it guards its API with bearer tokens and a numeric role hierarchy.

Its React frontend shows bins, maps, charts and forms. It sits behind a hosted identity provider, and it uses the browser's geolocation with a reverse-geocoding service.

This project models the decision logic of both halves: one Dafny module per source file.

- **Backend.** `Predictor`, `RouteOptimizer`, `AuthMiddleware`, `DataPreprocessor` and `FillLevelForecasting`.
- **Frontend.** `Bins`, `BinMap`, `Sidebar`, `AuthContext`, `ProtectedRoute`, `ApiClient`, `Signup`, `Profile`, `PredictionsPage`, `PredictiveChart`, `FeatureImportanceChart`, `ModelComparisonChart`, `Complaints`, `LocationService` and `LocationContext`.
- **Shared helpers** (filtering, a stable sort, string search) live in `Common`.

Code that updates state in place is modelled as classes whose methods state the whole new state:

- the route planner's loops;
- the forecaster with its model directory;
- the signup, profile and complaints pages;
- the location provider;
- the request interceptor.

Pure lookups and transforms are modelled as functions, with lemmas relating them.

Foreign code becomes a parameter:

- the geodesic distance;
- the learning library (fitting, importances, ARIMA, metrics);
- pandas' floating-point statistics;
- the identity provider's user, token and session;
- the browser's position report;
- the geocoding service's response.

Asynchronous handlers are modelled once the awaited call has settled, with its outcome as a parameter.

Some properties follow from composing the modules:

- **Every loaded, signed-in user is sent to `/profile`.** The adapted user object never has a `name` key (`AuthContext.AdaptedUserHasNoNameOrRole`, `ProtectedRoute.ProviderUserKeptOnProfile`).
- **The sidebar shows such a user only the four unrestricted items** (`Sidebar.ProviderUserGetsFourItems`).
- **The context's calls fail or throw.** With the real context:
  - the profile page's `requestPhoneOtp`, `verifyPhoneOtp` and `updateProfile` are undefined, so each of those calls fails and shows its default error text;
  - the signup page's `signUp` returns `undefined`, so destructuring its result throws (`Signup.SignupPage.HandleSubmit`, outcome `Undefined`).

## Model

| member | source | states |
|---|---|---|
| Predictor.Slope | backend/app/ml/predictor.py:34-44 | the slope is 0 when every hour value is the same (zero denominator) |
| Predictor.Intercept | backend/app/ml/predictor.py:46 | the fitted line passes through the point of the means |
| Predictor.PredictFillLevel | backend/app/ml/predictor.py:5-70 | the bin id of the first reading and the level of the last sorted one; one reading predicts its own level with no full time; two or more give the fitted line's value at the last hour plus `hoursAhead`, clamped to 0..100 (`ClampedLine` of the least-squares slope and intercept), and the hours-until-full rule applied to the fitted slope and the last level; a full time exactly when there are hours until full |
| Predictor.SortedReadings | backend/app/ml/predictor.py:15-17 | the readings sorted by timestamp: same length, same multiset |
| Predictor.HoursUntilFull | backend/app/ml/predictor.py:56-62 | hours until full exist iff the slope is positive and the last level is below 100; then they are positive and the line reaches exactly 100 |
| Predictor.HoursStartAtZeroAndIncrease | backend/app/ml/predictor.py:19-21 | the hour values start at 0 and never decrease |
| Predictor.CurrentIsLatest | backend/app/ml/predictor.py:15-28 | the current fill level is that of a reading with the latest timestamp |
| Predictor.SingleReading | backend/app/ml/predictor.py:24-32 | one reading predicts its own level, with no full time |
| Predictor.PredictionInRange | backend/app/ml/predictor.py:53-54 | the predicted level lies in 0..100; the bin id is the first reading's |
| Predictor.FullTimeRule | backend/app/ml/predictor.py:56-62 | with two or more readings, the full time and the hours until full exist exactly for a rising trend below 100, and the full time lies that many hours after the last reading |
| Predictor.LinearTrendIsRecovered | backend/app/ml/predictor.py:34-44 | for levels exactly on a line, least squares returns that line's slope |
| Predictor.LinearInterceptIsRecovered | backend/app/ml/predictor.py:46 | ... and its intercept |
| Predictor.ConstantLevelsPredictNoChange | backend/app/ml/predictor.py:34-46 | constant levels give slope 0 and an intercept equal to the level |
| Predictor.LinearReadingsPredictLine | backend/app/ml/predictor.py:34-54 | readings whose levels lie exactly on a·x + b (times not all equal) predict the clamped value of that line at the last hour plus `hoursAhead` |
| Predictor.ConstantReadingsPredictLevel | backend/app/ml/predictor.py:34-54 | two or more readings of one constant level predict that level, clamped, for any horizon |
| RouteOptimizer.NearestIndexIsFirstNearest | backend/app/ml/route_optimizer.py:35-42 | the scan picks a bin of minimal distance, and every earlier bin is strictly farther (strict `<` keeps the first) |
| RouteOptimizer.RemoveAtMultiset | backend/app/ml/route_optimizer.py:48 | removing the picked bin removes exactly one occurrence |
| RouteOptimizer.Tour | backend/app/ml/route_optimizer.py:33-48 | the greedy order visits as many bins as were given |
| RouteOptimizer.NearestBin | backend/app/ml/route_optimizer.py:35-42 | the inner loop returns the first nearest bin and its distance; no earlier bin equals it |
| RouteOptimizer.TourStep | backend/app/ml/route_optimizer.py:45-48 | one iteration appends the nearest bin, adds its leg and removes it |
| RouteOptimizer.GreedyTour | backend/app/ml/route_optimizer.py:27-48 | the `while unvisited` loop yields the greedy order and the sum of its legs, ending at the last bin |
| RouteOptimizer.BuildSequence | backend/app/ml/route_optimizer.py:58-68 | one record per routed bin numbered from 1, and the bin ids in route order |
| RouteOptimizer.OptimizeCollectionRoute | backend/app/ml/route_optimizer.py:9-76 | the plan: ids, total distance including the way back, duration at 30 km/h plus 5 minutes per bin, sequence |
| RouteOptimizer.EmptyPlan | backend/app/ml/route_optimizer.py:15-22 | no bins: no ids, distance 0, duration 0, empty sequence |
| RouteOptimizer.TourIsPermutation | backend/app/ml/route_optimizer.py:27-48 | the route is a permutation of the bins |
| RouteOptimizer.EachPickIsNearest | backend/app/ml/route_optimizer.py:35-47 | every pick is a first nearest bin among those still unvisited, seen from the previous stop |
| RouteOptimizer.RemainingIsInputLessPicks | backend/app/ml/route_optimizer.py:27-48 | the bins still unvisited before pick i are, as a multiset, the input bins less the first i picks of the route |
| RouteOptimizer.SequenceMatchesRoute | backend/app/ml/route_optimizer.py:58-76 | the sequence records and the bin ids follow the route, numbered 1..n |
| RouteOptimizer.TourLegsNonNegative | backend/app/ml/route_optimizer.py:44-46 | with a non-negative distance the legs sum to a non-negative total |
| RouteOptimizer.PlanBounds | backend/app/ml/route_optimizer.py:50-56 | the total distance is non-negative and the duration at least 5 minutes per bin |
| RouteOptimizer.StartsAndEndsAtDepot | backend/app/ml/route_optimizer.py:25-30 | the first pick is the bin nearest the depot, and the total includes the leg from the last bin back to the depot |
| AuthMiddleware.Get | backend/app/middleware/auth.py:26 | `dict.get` with a default |
| AuthMiddleware.VerifyToken | backend/app/middleware/auth.py:9-30 | every failure (the provider raises, or returns no user) is a 401 "Invalid token: ..."; success iff a user came back, with the role defaulting to "viewer" |
| AuthMiddleware.RoleLevel | backend/app/middleware/auth.py:49-56 | admin 3, operator 2, viewer 1, anything else 0 |
| AuthMiddleware.RoleChecker | backend/app/middleware/auth.py:45-66 | passes iff the user's level is at least the required one, returning the user; otherwise 403 with the required role |
| AuthMiddleware.HierarchyOrder | backend/app/middleware/auth.py:49-53 | admin > operator > viewer > any other role |
| AuthMiddleware.CheckIsMonotone | backend/app/middleware/auth.py:58-62 | passing a check implies passing every check of lower or equal level |
| AuthMiddleware.UnknownRequiredRoleAdmitsEveryone | backend/app/middleware/auth.py:56-62 | a required role outside the hierarchy has level 0, so every user passes |
| AuthMiddleware.UnknownUserRoleFailsKnownRoles | backend/app/middleware/auth.py:55-62 | a user role outside the hierarchy fails every known required role |
| AuthMiddleware.MissingRoleIsViewer | backend/app/middleware/auth.py:46 | a user without a role is checked as a viewer |
| AuthMiddleware.VerifiedUserWithoutRoleIsViewer | backend/app/middleware/auth.py:26 | a verified user whose metadata has no role passes exactly the checks a viewer passes |
| AuthMiddleware.GetOptionalUser | backend/app/middleware/auth.py:72-82 | no credentials or any verification failure gives None; otherwise the verified user |
| AuthMiddleware.OptionalAgreesWithMandatory | backend/app/middleware/auth.py:72-82 | the optional dependency yields a user iff the mandatory one succeeds, and the same user |
| DataPreprocessor.SetColumn | backend/app/ml/data_preprocessor.py:179 | assigning a column replaces it where it exists and appends it otherwise; other columns keep their cells |
| DataPreprocessor.DropNa | backend/app/ml/data_preprocessor.py:72 | a subsequence of the rows, each of them complete, with the same columns |
| DataPreprocessor.DropNaOfCompleteFrame | backend/app/ml/data_preprocessor.py:182 | a frame of complete rows loses nothing |
| DataPreprocessor.Shift | backend/app/ml/data_preprocessor.py:179 | row i takes row i−k's value; the first k rows are missing |
| DataPreprocessor.LagNameInjective | backend/app/ml/data_preprocessor.py:179 | different lags give different column names |
| DataPreprocessor.LagNameIsNotTarget | backend/app/ml/data_preprocessor.py:179 | a lag column never overwrites the target |
| DataPreprocessor.LagFeatures | backend/app/ml/data_preprocessor.py:163-184 | the result is a well-formed frame that keeps every original column |
| DataPreprocessor.ExtractLagFeatures | backend/app/ml/data_preprocessor.py:176-184 | the loop adding one shifted column per lag, then `dropna`, equals the specification |
| DataPreprocessor.AddLagsColumns | backend/app/ml/data_preprocessor.py:178-179 | exactly one new column per lag, after the original ones |
| DataPreprocessor.AddLagsLagCell | backend/app/ml/data_preprocessor.py:179 | the lag-k column holds the target k rows up, and is missing in the first k rows |
| DataPreprocessor.AddLagsComplete | backend/app/ml/data_preprocessor.py:178-182 | for a frame without gaps, row i is complete iff i ≥ the largest lag |
| DataPreprocessor.LagFeaturesRows | backend/app/ml/data_preprocessor.py:182 | exactly the rows from the largest lag on survive |
| DataPreprocessor.LagFeaturesLagCell | backend/app/ml/data_preprocessor.py:179-182 | after `dropna`, row j's lag-k cell is the target of original row j + max − k |
| DataPreprocessor.LagFeaturesKeptCell | backend/app/ml/data_preprocessor.py:176-182 | after `dropna`, the original columns hold the cells of original row j + max |
| DataPreprocessor.LagFeaturesLength | backend/app/ml/data_preprocessor.py:182 | the result has n − max(lags) rows |
| DataPreprocessor.HourOf | backend/app/ml/data_preprocessor.py:146 | the hour is in 0..23 |
| DataPreprocessor.DayOfWeek | backend/app/ml/data_preprocessor.py:147 | the weekday is in 0..6, Monday 0 |
| DataPreprocessor.CivilMonthDay | backend/app/ml/data_preprocessor.py:149-150 | the month is in 1..12 and the day in 1..31 |
| DataPreprocessor.TimeFeatures | backend/app/ml/data_preprocessor.py:127-160 | no timestamp column, or an empty frame: unchanged |
| DataPreprocessor.TimeFeaturesRow | backend/app/ml/data_preprocessor.py:146-158 | each row gains its hour, weekday and weekend flag (1 exactly for weekday 5 or 6) and keeps its other cells |
| DataPreprocessor.TimeFeaturesWeekly | backend/app/ml/data_preprocessor.py:146-148 | hour, weekday and weekend flag repeat every 7 days, and the weekday advances by one per day |
| DataPreprocessor.TimeFeaturesOfKnownDate | backend/app/ml/data_preprocessor.py:146-150 | a worked example, not a general property: 2024-01-06 15:00 is hour 15, a Saturday (weekend), day 6 of month 1 |
| DataPreprocessor.Present | backend/app/ml/data_preprocessor.py:204-206 | the values of a window without its missing cells: never more values than cells |
| DataPreprocessor.MeanCell | backend/app/ml/data_preprocessor.py:204-206 | the mean is missing exactly when no number is present |
| DataPreprocessor.AddRolling | backend/app/ml/data_preprocessor.py:203-210 | one window keeps every row, every column and the target's cells |
| DataPreprocessor.RollingNamesAreNotTarget | backend/app/ml/data_preprocessor.py:204-208 | the rolling column names differ from the target and from each other |
| DataPreprocessor.RollingFeatures | backend/app/ml/data_preprocessor.py:187-212 | no row is lost and every original column is kept |
| DataPreprocessor.ExtractRollingFeatures | backend/app/ml/data_preprocessor.py:200-212 | the loop over the windows equals the specification |
| DataPreprocessor.RollingColumns | backend/app/ml/data_preprocessor.py:202-210 | a rolling column exists for a window iff that window is no longer than the frame; nothing else is added |
| DataPreprocessor.MeanCellOfConstant | backend/app/ml/data_preprocessor.py:204-206 | the rolling mean of a constant level is that level |
| DataPreprocessor.Rate | backend/app/ml/data_preprocessor.py:235-236 | a missing or infinite quotient becomes 0 |
| DataPreprocessor.RateCells | backend/app/ml/data_preprocessor.py:229-236 | the first row has missing time difference and change; later rows get the change per hour |
| DataPreprocessor.RateFeatures | backend/app/ml/data_preprocessor.py:215-238 | no target, empty, or a single row: unchanged, whether or not there is a timestamp column; otherwise the original columns are kept |
| DataPreprocessor.RateFeaturesRow | backend/app/ml/data_preprocessor.py:229-236 | every row carries its rate cells and keeps its other cells |
| DataPreprocessor.MetadataCells | backend/app/ml/data_preprocessor.py:251-274 | the cells added for the keys present in the bin info |
| DataPreprocessor.BinMetadata | backend/app/ml/data_preprocessor.py:241-276 | same rows; every row gains the metadata cells |
| DataPreprocessor.BinTypeCodeIsOneHot | backend/app/ml/data_preprocessor.py:254-262 | a known bin type sets exactly one of the three flags, an unknown one none |
| DataPreprocessor.ZoneCodeRange | backend/app/ml/data_preprocessor.py:272-274 | the five zones get 1..5, anything else 0 |
| DataPreprocessor.ZoneCodeInjective | backend/app/ml/data_preprocessor.py:273 | different known zones get different codes |
| DataPreprocessor.BinMetadataRow | backend/app/ml/data_preprocessor.py:249-274 | each row carries the metadata cells and keeps its other cells |
| DataPreprocessor.ReadingRow | backend/app/ml/data_preprocessor.py:33-39 | one row per reading, with its five columns |
| DataPreprocessor.ReadingsFrame | backend/app/ml/data_preprocessor.py:41-44 | without readings the frame has no columns |
| DataPreprocessor.FillGaps | backend/app/ml/data_preprocessor.py:63-69 | a column with any value has every gap filled and its values kept; an all-missing column stays missing |
| DataPreprocessor.HandleMissingValues | backend/app/ml/data_preprocessor.py:60-74 | a well-formed frame with the same columns (its rows are described by the lemmas below) |
| DataPreprocessor.FillColumnsCell | backend/app/ml/data_preprocessor.py:66-69 | listed columns hold their filled cells; others are untouched |
| DataPreprocessor.FilledRow | backend/app/ml/data_preprocessor.py:63-69 | when every measurement has a value and the time has no gap, every row is completed with its values kept |
| DataPreprocessor.HandleMissingValuesKeepsRows | backend/app/ml/data_preprocessor.py:60-74 | under those conditions no row is dropped |
| DataPreprocessor.HandleMissingValuesDropsAll | backend/app/ml/data_preprocessor.py:72 | a measurement that no reading has empties the frame |
| DataPreprocessor.RemoveOutliers | backend/app/ml/data_preprocessor.py:76-94 | no such column or fewer than 4 rows: unchanged; otherwise a subsequence of the rows with the same columns |
| DataPreprocessor.RemoveOutliersMembership | backend/app/ml/data_preprocessor.py:81-92 | past the guard, a row survives iff its value lies in [Q1 − 3·IQR, Q3 + 3·IQR] or is exactly 0 or 100 |
| DataPreprocessor.RemoveOutliersKeepsBounds | backend/app/ml/data_preprocessor.py:88-92 | readings of exactly 0 or 100 survive whatever the quartiles |
| DataPreprocessor.CenteredMean | backend/app/ml/data_preprocessor.py:102-106 | one smoothed cell per cell |
| DataPreprocessor.SmoothReadings | backend/app/ml/data_preprocessor.py:96-108 | fewer than 3 rows: unchanged; otherwise the same columns and the same number of rows |
| DataPreprocessor.PresentOfConstant | backend/app/ml/data_preprocessor.py:102-106 | a window of one repeated value yields only that value |
| DataPreprocessor.SmoothReadingsOfConstant | backend/app/ml/data_preprocessor.py:96-108 | a constant fill level is left as it is by smoothing |
| DataPreprocessor.CleanedReadings | backend/app/ml/data_preprocessor.py:20-58 | the empty frame iff there are no readings; otherwise a frame over the five reading columns |
| DataPreprocessor.CleanedReadingsInTimeOrder | backend/app/ml/data_preprocessor.py:41-58 | the cleaned rows are in timestamp order: sorted first, then only subsequences are kept and no pass rewrites the timestamp |
| DataPreprocessor.FillMissing | backend/app/ml/data_preprocessor.py:60-74 | the method with its column loop equals `HandleMissingValues` |
| DataPreprocessor.CleanReadings | backend/app/ml/data_preprocessor.py:20-58 | the method collecting one row per reading equals `CleanedReadings` |
| DataPreprocessor.FeatureColumns | backend/app/ml/data_preprocessor.py:297 | only columns of the frame, never the target or the timestamp |
| DataPreprocessor.SplitIndex | backend/app/ml/data_preprocessor.py:303 | `int(n·(1 − test_size))`, at most n |
| DataPreprocessor.CreateTrainTestSplit | backend/app/ml/data_preprocessor.py:279-305 | None iff the frame is empty or lacks the target column |
| DataPreprocessor.TrainTestSplitPartition | backend/app/ml/data_preprocessor.py:297-305 | the training rows are the first int(n·0.8) rows, the test rows the rest; together they are the whole frame in order, and the features omit exactly the target and the timestamp |
| DataPreprocessor.TrainingShareOfTenRows | backend/app/ml/data_preprocessor.py:303 | with a 20% test share, at least 10 rows leave at least 8 training rows |
| FillLevelForecasting.PrepareData | backend/app/ml/fill_level_forecaster.py:41-76 | every remaining row is complete; a non-empty result has the fill-level and timestamp columns |
| FillLevelForecasting.Features | backend/app/ml/fill_level_forecaster.py:58-71 | the feature steps keep the fill-level and timestamp columns and a well-formed frame |
| FillLevelForecasting.Evaluate | backend/app/ml/fill_level_forecaster.py:192-209 | scoring predictions always yields metrics, never an error entry |
| FillLevelForecasting.FitRegressor | backend/app/ml/fill_level_forecaster.py:110-150 | a regressor with metrics; it has importances iff its kind is not linear regression |
| FillLevelForecasting.ArimaTraining | backend/app/ml/fill_level_forecaster.py:152-158 | fewer than 20 points gives the error entry and no model; a model, when there is one, is an ARIMA model with metrics |
| FillLevelForecasting.ArimaSplitSizes | backend/app/ml/fill_level_forecaster.py:170-175 | at least 20 points leave at least 16 for fitting and 4 for testing |
| FillLevelForecasting.TrainingSplitIsLargeEnough | backend/app/ml/fill_level_forecaster.py:94-103 | after the 10-row check the split exists with at least 8 training rows, so the 5-row check never fires |
| FillLevelForecasting.TrainedKinds | backend/app/ml/fill_level_forecaster.py:111-153 | a kind is trained iff it was requested and is a regressor kind, or is ARIMA with the library available |
| FillLevelForecasting.TrainingResults | backend/app/ml/fill_level_forecaster.py:108-158 | one metrics entry per trained kind, in the source's order; ARIMA's comes from its fit, the others' from the regressor fit |
| FillLevelForecasting.TrainedModels | backend/app/ml/fill_level_forecaster.py:110-158 | every trained regressor is replaced by the new fit, ARIMA only when its fit succeeded; every other model is kept |
| FillLevelForecasting.Round2 | backend/app/ml/fill_level_forecaster.py:272 | keeps a level in 0..100 within 0..100 |
| FillLevelForecasting.AddHours | backend/app/ml/fill_level_forecaster.py:251 | a timestamp moves forward by 3600·h seconds |
| FillLevelForecasting.FutureRow | backend/app/ml/fill_level_forecaster.py:343-349 | has the timestamp and every metadata column |
| FillLevelForecasting.FutureFeatures | backend/app/ml/fill_level_forecaster.py:351-354 | a row over exactly the stored feature columns: the future row's cell, else the last row's (not its time), else 0 |
| FillLevelForecasting.HourlyFrom | backend/app/ml/fill_level_forecaster.py:250-277 | one prediction per remaining hour, an hour apart from the start, each in 0..100 |
| FillLevelForecasting.FutureFeaturesIgnoreLastFill | backend/app/ml/fill_level_forecaster.py:259-277 | writing the predicted level and the time into the last row changes no feature when the level is not a feature column |
| FillLevelForecasting.HourlyIgnoresPredictedFill | backend/app/ml/fill_level_forecaster.py:250-277 | every hour predicts from the original last row's features at that time: the fed-back predictions are never seen |
| FillLevelForecasting.ArimaHourly | backend/app/ml/fill_level_forecaster.py:307-316 | one entry per step, the i-th at i+1 hours after the last reading, each in 0..100 |
| FillLevelForecasting.FindFullHour | backend/app/ml/fill_level_forecaster.py:283-287 | the first hour, counted from 1, whose rounded prediction reaches 100, and its time; none if no hour does |
| FillLevelForecasting.ZipImportances | backend/app/ml/fill_level_forecaster.py:377-382 | as long as the shorter list; each entry names the feature at its position |
| FillLevelForecasting.TopImportances | backend/app/ml/fill_level_forecaster.py:384-393 | min(n, 15) entries |
| FillLevelForecasting.TopImportancesRanked | backend/app/ml/fill_level_forecaster.py:384-393 | the ranking lists only given features, in decreasing importance, and leaves out only features no higher than the last one listed |
| FillLevelForecasting.FirstMin | backend/app/ml/fill_level_forecaster.py:450-452 | Python's `min`: a smallest key, with every earlier key strictly larger (a missing key counts as +∞) |
| FillLevelForecasting.KeysOf | backend/app/ml/fill_level_forecaster.py:450-452 | the key of each entry, in order |
| FillLevelForecasting.ScoreEntries | backend/app/ml/fill_level_forecaster.py:455-461 | at most one score per entry; no scores iff every entry failed |
| FillLevelForecasting.ScoreEntryIsScored | backend/app/ml/fill_level_forecaster.py:457-461 | every score is the score of an entry without an error |
| FillLevelForecasting.ScoredEntryHasScore | backend/app/ml/fill_level_forecaster.py:457-461 | every entry without an error has its score |
| FillLevelForecasting.ScoreModels | backend/app/ml/fill_level_forecaster.py:455-461 | the scoring loop equals `ScoreEntries` |
| FillLevelForecasting.Recommended | backend/app/ml/fill_level_forecaster.py:463 | None iff there are no scores |
| FillLevelForecasting.CompareModels | backend/app/ml/fill_level_forecaster.py:436-471 | an error iff there are no metrics |
| FillLevelForecasting.RecommendationIsBestScore | backend/app/ml/fill_level_forecaster.py:455-463 | no recommendation iff every model failed; otherwise a model without an error whose score no other model beats |
| FillLevelForecasting.BestRmseIsSmallest | backend/app/ml/fill_level_forecaster.py:450-466 | the best RMSE names a model with the smallest RMSE among those without an error; a failed model only when all failed, then the first |
| FillLevelForecasting.BestR2IsLargest | backend/app/ml/fill_level_forecaster.py:452-468 | the best R² names a model with the largest R² among those without an error; a failed model only when all failed, then the first |
| FillLevelForecasting.ArimaPredictions | backend/app/ml/fill_level_forecaster.py:307-316 | the loop equals `ArimaHourly` |
| FillLevelForecasting.PairImportances | backend/app/ml/fill_level_forecaster.py:377-382 | the loop equals `ZipImportances` |
| FillLevelForecasting.RegressionPredictions | backend/app/ml/fill_level_forecaster.py:247-277 | the hourly loop equals `HourlyFrom` |
| FillLevelForecasting.PredictHour | backend/app/ml/fill_level_forecaster.py:251-277 | one pass: the clipped, rounded prediction and the last row with the level and time written in |
| FillLevelForecasting.HourlyFromStep | backend/app/ml/fill_level_forecaster.py:250-277 | `HourlyFrom` unfolds by one pass |
| FillLevelForecasting.ForecastHours | backend/app/ml/fill_level_forecaster.py:239-338 | the forecast from the last prepared row: current level and time, one prediction per hour in 0..100 from the model, the last one as the predicted level, and the first full hour |
| FillLevelForecasting.ModelDirectory.constructor | backend/app/ml/fill_level_forecaster.py:37-39 | a new directory is empty |
| FillLevelForecasting.SavedEntries | backend/app/ml/fill_level_forecaster.py:398-404 | one file per model in memory except ARIMA, under this bin |
| FillLevelForecasting.Loaded | backend/app/ml/fill_level_forecaster.py:415-421 | each saved kind with a file for this bin replaces the model in memory; nothing else changes |
| FillLevelForecasting.WriteModels | backend/app/ml/fill_level_forecaster.py:398-404 | the saving loop adds exactly `SavedEntries` |
| FillLevelForecasting.ReadModels | backend/app/ml/fill_level_forecaster.py:415-421 | the loading loop yields `Loaded` |
| FillLevelForecasting.SaveThenLoad | backend/app/ml/fill_level_forecaster.py:396-429 | loading after saving restores every saved kind that was in memory; ARIMA is loaded iff it was already in memory |
| FillLevelForecasting.TrainedModelsAreValid | backend/app/ml/fill_level_forecaster.py:110-158 | training keeps the model invariant: regressors of the saved kinds, importances exactly for the tree-based ones, ARIMA only when available |
| FillLevelForecasting.SavedEntriesAreValid | backend/app/ml/fill_level_forecaster.py:398-404 | saving stores only regressors of the saved kinds, with importances exactly for the tree-based ones |
| FillLevelForecasting.LoadedIsValid | backend/app/ml/fill_level_forecaster.py:415-421 | loading keeps the model invariant |
| FillLevelForecasting.FillLevelForecaster.constructor | backend/app/ml/fill_level_forecaster.py:29-39 | no models, no feature columns, no metrics |
| FillLevelForecasting.FillLevelForecaster.SaveModels | backend/app/ml/fill_level_forecaster.py:396-411 | writes every model but ARIMA and the feature columns for this bin |
| FillLevelForecasting.FillLevelForecaster.LoadModels | backend/app/ml/fill_level_forecaster.py:413-429 | reads back the saved kinds and the saved feature columns |
| FillLevelForecasting.FillLevelForecaster.TrainModels | backend/app/ml/fill_level_forecaster.py:78-166 | an error iff the prepared frame is empty or has fewer than 10 rows, with nothing changed; otherwise results, metrics, feature columns, models and saved files as specified |
| FillLevelForecasting.FillLevelForecaster.TrainOn | backend/app/ml/fill_level_forecaster.py:97-166 | the part after the size check, with the split always present |
| FillLevelForecasting.FillLevelForecaster.Predict | backend/app/ml/fill_level_forecaster.py:211-299 | loads a missing model, and with it the saved feature columns when that file exists (otherwise the feature list stays); the metrics are kept; "not trained" or "insufficient data" errors; otherwise a forecast as `IsForecast` states |
| FillLevelForecasting.FillLevelForecaster.GetFeatureImportance | backend/app/ml/fill_level_forecaster.py:358-394 | an error for non-tree kinds with nothing changed; for tree kinds loads a missing model and the saved feature columns when that file exists, keeping the metrics; "not trained"; otherwise the top 15 importances paired with that feature list |
| Bins.ApplyFilters | frontend/src/pages/Bins.jsx:37-59 | the filtered bins are a subsequence, and a bin is kept iff its zone, type and fill band all match |
| Bins.AllFiltersShowEverything | frontend/src/pages/Bins.jsx:37-59 | with every filter on "All" nothing is removed |
| Bins.BandsAreExclusive | frontend/src/pages/Bins.jsx:48-56 | every level is in exactly one of the high, medium and low bands |
| Bins.BandsPartition | frontend/src/pages/Bins.jsx:48-56 | the high, medium and low band filters together show as many bins as there are: every bin falls in exactly one |
| Bins.FillLevelColor | frontend/src/pages/Bins.jsx:61-66 | red from 80, amber from 60, purple from 40, green below |
| Bins.RedIsHighBand | frontend/src/pages/Bins.jsx:61-66 | a bin is red iff it is in the high band |
| Bins.ShowingCounts | frontend/src/pages/Bins.jsx:180 | the shown count never exceeds the total, and equals it with every filter on "All" |
| Bins.MapBins | frontend/src/pages/Bins.jsx:195-198 | each bin gains `fill_level` = its current level or 0; nothing else changes |
| BinMap.JsRound | frontend/src/components/Map/BinMap.jsx:103 | `Math.round`: within half of the input, halves up |
| BinMap.MarkerColor | frontend/src/components/Map/BinMap.jsx:14-19 | the same thresholds as the bins page |
| BinMap.MarkerMatchesPage | frontend/src/components/Map/BinMap.jsx:14-19 | a marker has the colour the bins page gives its level |
| BinMap.PopupColor | frontend/src/components/Map/BinMap.jsx:101 | red iff the level is present and at least 80, otherwise green |
| BinMap.PopupPercent | frontend/src/components/Map/BinMap.jsx:103 | the rounded level, 0 when absent |
| BinMap.Markers | frontend/src/components/Map/BinMap.jsx:68-72 | one marker per bin at its position, coloured as the bins page colours its level, with the popup colour and percentage of its level; no bin list gives no markers |
| BinMap.PageMarkersUseCurrentLevel | frontend/src/pages/Bins.jsx:195-198 | markers for the page's bins use each bin's current level for colour and percentage |
| AuthContext.AdaptedUser | frontend/src/contexts/AuthContext.jsx:19-25 | null iff there is no provider user; exactly the keys id, email, user_metadata, fullName and avatarUrl, with their values; no name or role |
| AuthContext.ProviderValue | frontend/src/contexts/AuthContext.jsx:27-35 | loading iff not loaded; authenticated iff signed in; the adapted user |
| AuthContext.UseAuth | frontend/src/contexts/AuthContext.jsx:4-12 | never throws, because the default context `{}` is truthy; the default gives no user, not loading, not authenticated |
| AuthContext.AdaptedUserHasNoNameOrRole | frontend/src/contexts/AuthContext.jsx:19-35 | a user from the provider has no truthy name and no role |
| Sidebar.RoleOf | frontend/src/components/Layout/Sidebar.jsx:37 | `user?.role`, present iff it is a string |
| Sidebar.FilteredMenuItems | frontend/src/components/Layout/Sidebar.jsx:36-38 | a subsequence of the menu, so the order is kept |
| Sidebar.FilteredMenuMembership | frontend/src/components/Layout/Sidebar.jsx:36-38 | an item is shown iff it has no roles or lists the user's role; items without roles are always shown |
| Sidebar.NoRoleMenu | frontend/src/components/Layout/Sidebar.jsx:24-38 | without a role: Dashboard, Bins, Complaints, Profile |
| Sidebar.AdminMenu | frontend/src/components/Layout/Sidebar.jsx:24-38 | an admin sees all nine items |
| Sidebar.WorkerMenu | frontend/src/components/Layout/Sidebar.jsx:24-38 | a worker also sees Vehicles and Collections, but not Analytics, Predictions or Forecasting |
| Sidebar.ProviderUserGetsFourItems | frontend/src/components/Layout/Sidebar.jsx:36-38 | a provider user has no role and sees only the four unrestricted items |
| Sidebar.DisplayName | frontend/src/components/Layout/Sidebar.jsx:157 | the name, else the email, else "User"; never empty |
| Sidebar.ProviderUserShownByEmail | frontend/src/components/Layout/Sidebar.jsx:157 | a provider user is shown by email, or "User" |
| ProtectedRoute.Guard | frontend/src/components/ProtectedRoute.jsx:5-27 | spinner while loading; /login without a user; /profile iff a user without a name is off /profile; children iff a user has a name or is on /profile |
| ProtectedRoute.NoProviderGoesToLogin | frontend/src/components/ProtectedRoute.jsx:17-19 | outside the provider every path redirects to /login |
| ProtectedRoute.ProviderUserKeptOnProfile | frontend/src/components/ProtectedRoute.jsx:21-26 | a loaded provider user gets the page only on /profile and is redirected there from everywhere else |
| ApiClient.BearerFor | frontend/src/services/api.js:18-22 | a header iff there is a session whose token is truthy, equal to "Bearer " plus the token |
| ApiClient.BearerCarriesToken | frontend/src/services/api.js:21 | the header splits back into the prefix and the token |
| ApiClient.RequestConfig.constructor | frontend/src/services/api.js:6-11 | the configuration starts with the given headers |
| ApiClient.AttachToken | frontend/src/services/api.js:14-29 | sets Authorization iff a header exists, otherwise leaves the headers alone; logs iff fetching the token threw |
| ApiClient.HandleReply | frontend/src/services/api.js:36-49 | success passes through without logs; an error is rejected with the same error, logged first, with a warning iff the status is 401 |
| ApiClient.HandleRequestError | frontend/src/services/api.js:30-32 | a request error is rejected unchanged |
| Signup.WithField | frontend/src/pages/Signup.jsx:21-26 | the named field takes the value, the others keep theirs |
| Signup.Validate | frontend/src/pages/Signup.jsx:32-38 | valid iff the passwords match and are at least 6 UTF-16 code units long (`.length`); a mismatch is reported first |
| Signup.Utf16Length | frontend/src/pages/Signup.jsx:36 | `.length`: at least one and at most two code units per character, exactly one each when all are in the Basic Multilingual Plane |
| Signup.EmojiCountsTwice | frontend/src/pages/Signup.jsx:36 | a worked example: "abcd😀" is five characters but six code units |
| Signup.SignupPage.constructor | frontend/src/pages/Signup.jsx:7-19 | empty form with role "viewer", no error, not loading |
| Signup.SignupPage.HandleChange | frontend/src/pages/Signup.jsx:21-26 | only the form changes, by `WithField` |
| Signup.SignupPage.HandleSubmit | frontend/src/pages/Signup.jsx:28-54 | invalid: error set, no request; valid: one request, then throw on `undefined`, error and loading off on a reported error, alert and /login on success |
| Signup.UntouchedRoleIsViewer | frontend/src/pages/Signup.jsx:7-13 | without a role edit the role stays "viewer" |
| Signup.EditsKeepRole | frontend/src/pages/Signup.jsx:21-26 | edits of other fields never change the role |
| Profile.TrimStart | frontend/src/pages/Profile.jsx:26 | a suffix whose removed prefix is all spaces and which does not start with one |
| Profile.TrimEnd | frontend/src/pages/Profile.jsx:26 | a prefix whose removed suffix is all spaces and which does not end with one |
| Profile.TrimEmptyIffBlank | frontend/src/pages/Profile.jsx:26 | trimming gives "" iff the name is all spaces |
| Profile.ErrorText | frontend/src/pages/Profile.jsx:49-64 | the server's detail if truthy, else the default |
| Profile.TextOr | frontend/src/pages/Profile.jsx:9-11 | the user's string field, else "" |
| Profile.ProfilePage.constructor | frontend/src/pages/Profile.jsx:9-16 | fields from the user, step 1, no message, not saving, not a new user |
| Profile.ProfilePage.UserChanged | frontend/src/pages/Profile.jsx:18-22 | a user without a name sets the new-user flag (only a saved name clears it); nothing else changes |
| Profile.ProfilePage.HandleSaveName | frontend/src/pages/Profile.jsx:24-38 | a blank name changes nothing; otherwise the trimmed name is handed to the context's `updateProfile` (undefined with the real context, so the call fails), success clears the new-user flag, and each outcome shows its message |
| Profile.ProfilePage.HandleSendOtp | frontend/src/pages/Profile.jsx:40-53 | the phone is handed to the context's `requestPhoneOtp` (undefined with the real context, so the call fails); success moves to step 2; failure keeps the step and shows the detail or "Failed to send code." |
| Profile.ProfilePage.HandleVerifyOtp | frontend/src/pages/Profile.jsx:55-68 | phone and code are handed to the context's `verifyPhoneOtp` (undefined with the real context, so the call fails); success returns to step 1; failure keeps the step and shows the detail or "Invalid code." |
| Profile.ProfilePage.SubmitPhoneForm | frontend/src/pages/Profile.jsx:205 | step 1 sends a code, step 2 verifies one |
| Profile.ProfilePage.ChangePhoneNumber | frontend/src/pages/Profile.jsx:250 | back to step 1, nothing else changes |
| Profile.ProfilePage.HandleUpdateProfile | frontend/src/pages/Profile.jsx:70-82 | the area is handed to the context's `updateProfile` (undefined with the real context, so the call fails); the step is untouched; each outcome shows its message |
| PredictionsPage.CodeUnitSum | frontend/src/pages/Predictions.jsx:33 | the sum of a character's UTF-16 code units: the character itself below U+10000, a surrogate pair above |
| PredictionsPage.BinHashAppend | frontend/src/pages/Predictions.jsx:33 | the hash of a concatenation is the sum of the hashes |
| PredictionsPage.BinHashOrderFree | frontend/src/pages/Predictions.jsx:33 | ids with the same characters in any order have the same hash |
| PredictionsPage.ScatterFactor | frontend/src/pages/Predictions.jsx:35 | in 0..99 |
| PredictionsPage.PeakHour | frontend/src/pages/Predictions.jsx:40 | in 1..12 |
| PredictionsPage.SummaryFor | frontend/src/pages/Predictions.jsx:37-42 | waste 3800..6275, 0..6 high-risk zones, a PM peak time, confidence in [88, 98) |
| PredictionsPage.ChartFor | frontend/src/pages/Predictions.jsx:45-53 | seven fixed times; each value is its constant plus its own multiple (1, 1, 2, 3, 2, 1, 1) of the factor, so predicted minus actual is the same for every bin |
| PredictionsPage.ZoneData | frontend/src/pages/Predictions.jsx:76-82 | five zones with fixed risks, each given its share of the predicted waste rounded down |
| PredictionsPage.ZoneDataTotal | frontend/src/pages/Predictions.jsx:76-82 | the zones add up to the predicted waste or at most four less |
| PredictionsPage.OnSelection | frontend/src/pages/Predictions.jsx:28-56 | no selected bin leaves the state; otherwise summary and chart from the factor |
| PredictionsPage.OnlyTheBinMatters | frontend/src/pages/Predictions.jsx:28-56 | the time range and the previous state do not affect the values |
| PredictionsPage.RearrangedIdsLookAlike | frontend/src/pages/Predictions.jsx:33-56 | rearranged ids show identical values |
| PredictionsPage.RiskAction | frontend/src/pages/Predictions.jsx:340 | high, medium and any other risk map to their actions |
| PredictiveChart.ActualRows | frontend/src/components/PredictiveChart.jsx:23-28 | one "actual" row per reading |
| PredictiveChart.PredictedRows | frontend/src/components/PredictiveChart.jsx:29-34 | one "predicted" row per prediction |
| PredictiveChart.ChartData | frontend/src/components/PredictiveChart.jsx:22-35 | a permutation of the tagged rows, sorted by timestamp |
| PredictiveChart.RowsAreTagged | frontend/src/components/PredictiveChart.jsx:22-35 | every row is an actual row of a reading or a predicted row of a prediction, with the other value null |
| PredictiveChart.Render | frontend/src/components/PredictiveChart.jsx:73-86 | the placeholder iff both inputs are empty |
| FeatureImportanceChart.CapitaliseWords | frontend/src/components/FeatureImportance.jsx:50 | the first character of each run of word characters is upper-cased |
| FeatureImportanceChart.FormatFeatureName | frontend/src/components/FeatureImportance.jsx:47-53 | the display name has no underscore |
| FeatureImportanceChart.ReplaceFirstKeepsOut | frontend/src/components/FeatureImportance.jsx:51-52 | replacing text never introduces a character absent from both |
| FeatureImportanceChart.FormattedLength | frontend/src/components/FeatureImportance.jsx:47-53 | the length grows by one for each of "Lag" and "Rolling" found |
| FeatureImportanceChart.FormattedHour | frontend/src/components/FeatureImportance.jsx:47-53 | a worked example: "hour" is shown as "Hour" |
| FeatureImportanceChart.FormattedLag | frontend/src/components/FeatureImportance.jsx:47-53 | a worked example: "lag_1" is shown as "Lag- 1" |
| FeatureImportanceChart.BarColor | frontend/src/components/FeatureImportance.jsx:56-60 | green above 10, blue above 5, gray otherwise |
| FeatureImportanceChart.BarsFor | frontend/src/components/FeatureImportance.jsx:37-44 | the first ten features, as percentages, ranked from 1 |
| FeatureImportanceChart.Render | frontend/src/components/FeatureImportance.jsx:19-32 | the placeholder iff there is no data, no feature list or an empty one |
| FeatureImportanceChart.BarsKeepDescendingOrder | frontend/src/components/FeatureImportance.jsx:37-44 | features that arrive in decreasing importance are charted that way, rank 1 first |
| ModelComparisonChart.Capitalise | frontend/src/components/ModelComparison.jsx:41 | first character upper-cased, the rest kept |
| ModelComparisonChart.GroupFor | frontend/src/components/ModelComparison.jsx:40-46 | missing metrics default to 0; R² in percent; recommended iff the key is the recommended model |
| ModelComparisonChart.GroupsFor | frontend/src/components/ModelComparison.jsx:38-47 | one group per model without an error, in order |
| ModelComparisonChart.Render | frontend/src/components/ModelComparison.jsx:20-33 | the placeholder iff there is no data or no metrics |
| ModelComparisonChart.AtMostOneRecommended | frontend/src/components/ModelComparison.jsx:46 | at most one group is flagged as recommended |
| ModelComparisonChart.FailedModelsAreDropped | frontend/src/components/ModelComparison.jsx:39 | a model is charted iff it has no error |
| Complaints.StatusColor | frontend/src/pages/Complaints.jsx:51-59 | red iff open, amber iff in_progress, green iff resolved, blue otherwise |
| Complaints.UrgencyColor | frontend/src/pages/Complaints.jsx:61-68 | red iff high, amber iff medium, blue otherwise (never green) |
| Complaints.Label | frontend/src/pages/Complaints.jsx:263-270 | underscores become spaces, nothing else changes, the length is kept |
| Complaints.LabelIdempotent | frontend/src/pages/Complaints.jsx:263-270 | a label is its own label; a value without underscores is unchanged |
| Complaints.ComplaintsPage.constructor | frontend/src/pages/Complaints.jsx:8-19 | form hidden, default contents, the list fetched once |
| Complaints.ComplaintsPage.ToggleForm | frontend/src/pages/Complaints.jsx:118 | flips the form's visibility only |
| Complaints.ComplaintsPage.Edit | frontend/src/pages/Complaints.jsx:149-214 | the edited field takes the value, the rest is kept |
| Complaints.ComplaintsPage.HandleSubmit | frontend/src/pages/Complaints.jsx:33-49 | the form is sent; success hides it, resets it to the defaults and fetches again; failure changes nothing else |
| LocationService.ErrorMessage | frontend/src/services/locationService.js:26-37 | codes 1, 2 and 3 get their messages; any other code is "An unknown error occurred" |
| LocationService.GetCurrentLocation | frontend/src/services/locationService.js:11-47 | unsupported rejects with its message; a position resolves to its coordinates; an error rejects with the code's message |
| LocationService.DeniedExactlyForPermissionError | frontend/src/services/locationService.js:13-38 | a rejection message contains "denied" iff the browser reported the permission error |
| LocationService.FirstTruthy | frontend/src/services/locationService.js:75-82 | the first truthy field with all earlier ones falsy, else the fallback |
| LocationService.Locality | frontend/src/services/locationService.js:75-82 | never empty |
| LocationService.ReverseGeocode | frontend/src/services/locationService.js:55-89 | never rejects and never empty: "Local Area" on any failure or a missing address, "Unknown Area" for a non-object address, else the locality |
| LocationService.SuburbWins | frontend/src/services/locationService.js:75 | a truthy suburb is the name |
| LocationService.NoLocalityField | frontend/src/services/locationService.js:75-82 | no truthy field gives "Unknown Area" |
| LocationContext.LocationProvider.constructor | frontend/src/contexts/LocationContext.jsx:7-11 | no coordinates, "Global View", loading, no error, "prompt" |
| LocationContext.LocationProvider.UpdateLocation | frontend/src/contexts/LocationContext.jsx:13-33 | success stores coordinates, grants, sets the geocoded name and clears the error; failure sets the error and denies iff the message has "denied", which happens iff the permission error was reported; loading ends; the name is never empty and "granted" implies coordinates |
| LocationContext.UseLocation | frontend/src/contexts/LocationContext.jsx:55-61 | throws iff outside a provider, otherwise the provider's value |

## Left out

- Floating point: all numbers are exact reals. NaN and infinities are not modelled, except where the source maps them to 0 or drops them (`fill_rate`, `dropna`, the missing cell).
- Python's `round` rounds binary floats half to even. `FillLevelForecasting.Round2`, `Round4` and `Evaluate` round halves up. `Predictor` and `RouteOptimizer` leave out their final `round(..., 2)`.
- The learning library is a parameter, and so are the ARIMA fit and forecast. This covers `LinearRegression`, the tree and forest regressors, their importances and the RMSE/MAE/R²/accuracy formulas. The geodesic distance, pandas' quantiles, interpolation and standard deviation, and sine/cosine are parameters too.
- `DataPreprocessor.normalize_features` (the scaler) and the random (`temporal=False`) split are not modelled. The forecaster always uses the temporal split.
- The joblib files and the model directory on disk are a map held by `FillLevelForecasting.ModelDirectory`. File I/O itself is left out.
- The provider's `get_user`, the identity provider's hooks and session token, the browser's geolocation, `fetch` and JSON parsing are parameters. Logging is recorded only where a contract mentions it.
- Transient states while a call is pending are not modelled. Each asynchronous handler is modelled after its awaited call has settled. Examples: `isSaving` and the cleared message in Profile, `loading` in Signup and in the location provider.
- React rendering, styling, effects re-running and navigation beyond the target path are left out. Date and number formatting (`toFixed`, `toLocaleString`) is left out. So are the complaint list's contents and its loading spinner.
- Colour and label lookups on object literals ignore JavaScript prototype keys such as `"constructor"`.
- `Common.UpperChar` upper-cases ASCII letters only. `Profile.Trim` removes only space, tab, newline and carriage return.
- DataPreprocessor.RollingFeatures: requires every window to be at least 1. pandas raises for a window of 0 or less, and that error path is not modelled. The same holds for `DataPreprocessor.ExtractRollingFeatures`.
- DataPreprocessor.CleanedReadings: sorts the readings with a stable sort. pandas' `sort_values` defaults to quicksort, which is not stable, so the order of readings with equal timestamps may differ.
- FeatureImportanceChart.BarColor: the page colours the percentage after `toFixed(2)` and `parseFloat`. The model colours the unrounded percentage, so a value just above 5 or 10 that rounds down to it (10.004 shows as 10.00, blue) gets a different colour.
- PredictiveChart.ChartData: the order of rows with equal timestamps is not stated. The sort is stable, but the contract gives only sortedness and the permutation.
- Timestamps in the chart are already milliseconds. Parsing date strings, and invalid dates, are left out.
- `parseFloat` of a latitude or longitude input, including NaN, is not modelled. Edits take the number directly.
- The Predictor's route-level minimum of five readings is not modelled. The function itself needs one reading and requires it. The forecaster's `hoursAhead` must be at least 1, as the API route enforces.
- The forecaster's branch for fewer than five training rows never fires after the ten-row check, and the importances check never fires for tree-based models. Both are proved or argued, not modelled as reachable paths.
