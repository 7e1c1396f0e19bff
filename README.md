# Uber fare dashboard — Dafny model

A Dafny model of the decision-bearing core of `app.py`, a Streamlit dashboard that estimates an Uber fare.

- **Selection** (`SessionSelection`): the session keeps an optional pickup and an optional dropoff. A map click fills the pickup first, then the dropoff, and is ignored once both are stored. The reset button clears both. `SelectionState` is a class whose two fields `Click` and `Reset` update in place.
- **Coordinates** (`Resolver`): four manual text fields are parsed with `float()`. Each endpoint's pair is overwritten by the stored click when either of its manual values is absent. A prediction runs only when all four values are present.
- **Route reply** (`Routing`): the first route of the routing service's reply gives metres, which become kilometres, and a `[lon, lat]` polyline, which becomes `(lat, lon)`. A missing route, or one shorter than 0.1 km, falls back to the straight-line distance in degrees times 111. The drawn polyline is the route's coordinates when there are any, else the two endpoints.
- **Feature row** (`Features`, `Encoding`): a one-row table is modelled as a sequence of named columns, with pandas' column read, assignment, drop, concatenation and selection. The 12-column input row is built, then the season is ordinal-encoded and the four nominal columns are replaced by their one-hot indicators. The three numeric columns are scaled, and the table is reordered to the model's recorded column list.
- **Fare** (`Fare`): the prediction is floored at 3.0.
- **Dashboard** (`Dashboard`): one script pass chains the steps above and produces the estimate shown to the user.

The fitted encoders, the scaler and the model enter as an `Artifacts` value of functions. So do `float()` (a `string -> Option<real>` parser), `np.sqrt` (a `real -> real` function, constrained by `IsSquareRoot` where a lemma needs it) and the HTTP call (a function from the ride to the decoded reply, `None` when the request raised).

## Model

| member | source | states |
|---|---|---|
| SessionSelection.AfterClick | app.py:86-91 | a click stores `p` as pickup when none is stored, leaving dropoff as it was; otherwise it stores `p` as dropoff when none is stored; a stored point is never overwritten; after any click a dropoff is never stored without a pickup |
| SessionSelection.FullSelectionIgnoresClicks | app.py:86-91 | once both points are stored, any sequence of clicks leaves the selection unchanged |
| SessionSelection.ClicksFromEmpty | app.py:49-91 | from a fresh session, one click gives (first, none) and two or more clicks give (first, second) |
| SessionSelection.ClicksKeepStoredPoints | app.py:86-91 | across any sequence of clicks, a stored point keeps its value and the selection stays well formed |
| SessionSelection.SelectionState.constructor | app.py:49-52 | a new session holds neither point |
| SessionSelection.SelectionState.Click | app.py:82-91 | the stored points become the one-click transition of the old ones |
| SessionSelection.SelectionState.Reset | app.py:172-174 | whatever the prior state, both points become absent |
| Resolver.ManualCoordinate | app.py:96-105 | an empty field is absent without being parsed; a non-empty field is present exactly when it parses, with the parsed value |
| Resolver.ResolvePoint | app.py:107-112 | the manual pair is used when both fields are non-empty and parse; otherwise a stored click supplies both components; with neither, a component stays absent; both components are present iff there is a complete manual pair or a stored click |
| Resolver.ResolveCoordinates | app.py:102-112 | the four variables, overwritten step by step, end equal to the per-endpoint resolution |
| Resolver.ResolvedTrip | app.py:114 | a ride exists iff all four values are present, with those values as its endpoints |
| Resolver.PredictionRunsIff | app.py:102-114 | a prediction runs iff each endpoint has a complete manual pair or a stored click, and the ride prefers the manual pair over the click |
| Routing.ToLatLon | app.py:35 | the output has the reply's length and element k is element k with latitude and longitude swapped |
| Routing.DecodeReply | app.py:32-39 | a route exists iff the request succeeded and `routes` is present and non-empty; its kilometres times 1000 are the first route's metres; its polyline is that route's coordinates swapped, element by element |
| Routing.StraightLineSquared | app.py:117 | with a true square root, the fallback is non-negative and its square is 111² times the squared degree distance |
| Routing.StraightLineExample | app.py:117 | (40.0, -73.0) to (40.1, -73.1) falls back to between 15.69 and 15.71 km |
| Routing.DistanceUsed | app.py:116-117 | the routed distance is kept iff it is present and at least 0.1; otherwise the straight-line value replaces it |
| Routing.DistanceUsedNonNegative | app.py:116-117 | with a true square root the distance used is never negative, and a distance under 0.1 means the fallback was taken |
| Routing.Polyline | app.py:165 | the polyline is never empty: it is the route's coordinates when the list is non-empty, else the two endpoints |
| Routing.ShortRouteKeepsItsPolyline | app.py:116-165 | a route shorter than 0.1 km has its distance replaced but still draws its own coordinates |
| Routing.FailedRequestFallsBack | app.py:115-117 | a failed request uses the straight-line distance and draws the straight segment |
| Features.Lookup | app.py:140 | reading a column finds nothing iff the name is not a column; otherwise the value of a column of that name |
| Features.Assign | app.py:141 | assigning a column keeps an existing column's position, or appends a new one |
| Features.AssignLookup | app.py:141 | after assignment the column reads the new value, and every other column reads as before |
| Features.Drop | app.py:148 | dropping keeps exactly the columns whose names are not dropped, and no dropped name remains |
| Features.NamesDrop | app.py:148 | the names after a drop are the old names minus the dropped ones, in order |
| Features.DropLookup | app.py:148 | a name that is not dropped reads the same value after the drop as before |
| Features.LookupAppend | app.py:148 | in a concatenation, a name of the left table reads its left value, else the right table's |
| Features.Generated | app.py:147 | the generated columns carry the generated names, each with its indicator |
| Features.Select | app.py:156 | selection succeeds iff every requested name is a column; the result has exactly the requested names, in order, each with the table's value for it; otherwise it fails naming a missing column |
| Features.RawFeatureNamesDistinct | app.py:121-135 | the 12 keys of the input dictionary are distinct |
| Features.InputRow | app.py:121-136 | the row has the 12 keys of the dictionary, in the order the literal lists them |
| Features.InputRowValues | app.py:121-129 | the first eight columns read the passenger count, the distance used, the year, the season, the month, the day-of-week and hour widget values (lines 63-64) and the hour category |
| Features.InputRowCoordinates | app.py:130-133 | `pickup_lat`, `pickup_lon`, `dropoff_lat` and `dropoff_lon` read the resolved ride's pickup and dropoff coordinates |
| Encoding.OrdinalStep | app.py:140-141 | a missing season column or an unknown season fails; otherwise the season reads its rank and nothing else changes |
| Encoding.OneHotStep | app.py:144-148 | a missing nominal column, an unknown category or an indicator count that differs from the generated names fails; otherwise the names are the kept names followed by the generated ones, the other columns read as before, and no nominal column survives when the generated names avoid them |
| Encoding.DropAppendLookup | app.py:148 | after the drop and append, a column that is neither a source nor generated reads as before |
| Encoding.ScaleStep | app.py:151-153 | a missing numeric column fails; otherwise the three columns read the scaler's output, in order, and nothing else changes |
| Encoding.AssignScaled | app.py:151 | the three scaled values land in their columns and no other column changes |
| Encoding.EncodedRow | app.py:156 | on success the columns are exactly the model's list, in order, each with the prepared table's value for it; a step's error passes through unchanged; once the steps succeed, it fails iff a listed name is missing, and then with `MissingColumn` of a listed name the table lacks |
| Encoding.EncodeFrame | app.py:136-156 | the table overwritten step by step ends equal to the encoded row, with the model's column list |
| Encoding.KeptAfterDrop | app.py:148 | removing the four nominal names from the 12 raw names leaves the eight kept ones, in order |
| Encoding.DroppedRawNames | app.py:148 | dropping the nominal columns from a raw table leaves the eight kept columns |
| Encoding.EncodedNames | app.py:144-148 | after the one-hot step on a raw table, the names are the kept ones followed by the generated ones, and the scaled columns are still present |
| Encoding.SeasonKeepsSources | app.py:140-141 | with a season the encoder accepts, the season step succeeds, keeps the column names and leaves the four nominal columns reading as before |
| Encoding.SourceValues | app.py:145 | reading the nominal columns yields their values in `ohe_cols` order |
| Encoding.OneHotOutcome | app.py:144-148 | with the four nominal values present, the one-hot step succeeds iff the encoder accepts them, in `ohe_cols` order, and returns one indicator per generated name |
| Encoding.PreparedRawRow | app.py:140-153 | on a raw table the three steps fail iff an encoder rejects a value or the indicator count is wrong; on success the names are the kept ones followed by the generated ones |
| Encoding.PreparedInputRow | app.py:121-153 | on the row built from a request, the three steps succeed iff the ordinal encoder accepts the season and the one-hot encoder accepts (month, weekday, hour, hour category) with one indicator per generated name; the names are then the eight kept ones followed by the generated ones |
| Fare.FareFloor | app.py:159 | the fare is at least 3.0 and at least the prediction, and is one of the two |
| Fare.FareFloorCases | app.py:159 | a prediction of at least 3.0 is shown unchanged; a lower one shows 3.0 |
| Fare.FareFloorMonotone | app.py:159 | a higher prediction never shows a lower fare, and flooring twice changes nothing |
| Dashboard.FareEstimate | app.py:115-169 | a resolved ride is never withheld; every estimate has a fare of at least 3.0 and a non-empty polyline |
| Dashboard.EstimateOutcome | app.py:115-169 | a resolved ride fails iff encoding its feature row (built with the distance used) fails, with that error; otherwise the estimate reports the distance used, its fare is `max(prediction, 3.0)` of the model's prediction on the encoded row (so exactly 3.0 below the floor and the prediction itself above it), and its polyline is the route's coordinates when there are any, else the two endpoints |
| Dashboard.FallbackDistance | app.py:116-117 | the distance the script ends with is the routed one when present and at least 0.1 km, else the straight-line value |
| Dashboard.EstimateRide | app.py:115-169 | routing, fallback, encoding and flooring, run step by step, give the outcome `FareEstimate` describes |
| Dashboard.PredictFare | app.py:114-169 | nothing is predicted iff some coordinate is missing; otherwise the outcome is the estimate for the ride from the fetched reply; every estimate has a fare of at least 3.0 and a non-empty polyline |
| Dashboard.ClickedRide | app.py:82-114 | with empty manual fields, a fresh session resolves a ride iff it has had at least two clicks, going from the first click to the second |
| Dashboard.CaptureClick | app.py:82-91 | a reported click is applied to the stored points; without one they are unchanged |
| Dashboard.Rerun | app.py:82-175 | one pass applies the click; nothing is predicted iff resolving the manual fields against the updated selection leaves a coordinate missing, and a resolved ride gets exactly the `FareEstimate` outcome for the reply fetched for it; every estimate has a fare of at least 3.0 and a non-empty polyline; pressing reset leaves both points absent unless the pass failed, since an encoding error stops the script before the reset is reached; otherwise the updated selection is kept |

## Left out

- Streamlit widgets, layout, messages and `st.rerun()`: these are presentation. The widget values enter as a `RideRequest` and a `ManualInput`.
- Streamlit keeps re-delivering the last map click on later reruns. Each `Click` is one event here, and that persistence is not modelled.
- Folium map construction and rendering (lines 77-79, 162-167) are presentation. Only the polyline's points are modelled.
- The HTTP GET to the routing service is network I/O: its URL, which lists both endpoints longitude first, its timeout and its exception handling (lines 28-31, 40-42). The decoded reply is an input, and `None` stands for a request that raised. A reply whose route lacks "distance" or "geometry" raises inside the `try` and is folded into `None`, which is not modelled separately.
- Pickle loading of the model and preprocessors (lines 12-24) is file I/O.
- The fitted scikit-learn objects are not modelled. `ordinal_encoder.transform` (including the `astype` cast of line 140), `ohe.transform`, `get_feature_names_out`, `scaler.transform`, `model.predict` and `feature_names_in_` enter as fields of `Artifacts`.
- IEEE floating point is not modelled: values are `real`, so 0.1 and 111 are exact and there is no NaN.
- `Fare.FareFloor`: does not model `max` with a NaN prediction, where Python returns the NaN; reals have no NaN.
- Python's `float()` grammar is not modelled; it is a parser parameter.
- `np.sqrt` is a parameter. The lemmas that need it assume only that it returns the non-negative square root.
- `Features.Lookup`: pandas would return every column of a duplicated name; the model reads the first. The input row's 12 names are distinct (`Features.RawFeatureNamesDistinct`). Duplicates could only come from generated names that repeat a kept name, and the model does not rule those out.
- `Encoding.OneHotStep`: the claim that no nominal column survives is stated only when the generated names avoid the four source names, because the generated names are opaque.
- Three kinds of exception end the pass with an `Error` (`Dashboard.Failed`): a missing column (pandas' `KeyError`), a value the ordinal or one-hot encoder does not know, and one-hot output whose width differs from the generated names. The rest of the script, including the reset button, does not run; Streamlit's display of the traceback is not modelled.
- `scaler.transform` (line 151) and `model.predict` (line 158) are the total functions `Artifacts.scale` and `Artifacts.predict`, so an exception either raises is not modelled.
- A failing `astype` cast at line 140 is not told apart from the ordinal encoder rejecting the season: both give `UnknownCategory(OrdinalEncoder)`.
- The `drop` of line 148 cannot raise here: the four columns have just been read at line 145, and a missing one fails there first.
- At line 108, `if st.session_state.pickup:` tests a stored 2-tuple, which is always truthy, so it is modelled as "a point is stored".
