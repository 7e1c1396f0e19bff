/**
 * The encoding pipeline (app.py lines 140-156): ordinal-encode the season,
 * replace the four nominal columns by their one-hot indicators, scale the
 * three numeric columns, and reorder to the model's recorded column list.
 * The fitted encoders, the scaler and the model are seen only through what
 * they compute; their internals are not part of this model.
 */
module Encoding {
  import opened Wrappers
  import opened Geo
  import opened Features

  /** The fitted artifacts loaded at start-up (lines 12-20). */
  datatype Artifacts = Artifacts(
    // `ordinal_encoder.transform` on the season, after casting it to the vocabulary's type;
    // `None` when the category is unknown
    ordinal: Value -> Option<real>,
    // `ohe.transform` on the four nominal values; `None` when a category is unknown
    oneHot: seq<Value> -> Option<seq<real>>,
    // `ohe.get_feature_names_out(ohe_cols)`
    oneHotNames: seq<string>,
    // `scaler.transform` on (passenger_count, dist, pickup_year)
    scale: (Value, Value, Value) -> (real, real, real),
    // `model.feature_names_in_`
    featureNamesIn: seq<string>,
    // `model.predict` on the one-row table, first element
    predict: Row -> real)

  const SeasonColumn: string := "pickup_season"

  /** `ohe_cols` (line 144). */
  const OneHotSources: seq<string> := ["pickup_month", "pickup_weekday", "pickup_hour", "pickup_hour_category"]

  /** The columns the scaler rewrites (lines 151-153). */
  const ScaledColumns: seq<string> := ["passenger_count", "dist", "pickup_year"]

  /** The raw columns that survive the one-hot step, in order. */
  const KeptColumns: seq<string> := [
    "passenger_count", "dist", "pickup_year", "pickup_season",
    "pickup_lat", "pickup_lon", "dropoff_lat", "dropoff_lon"]

  /**
   * Lines 140-141: the season column is replaced by its ordinal rank; a missing
   * column or an unknown category fails, and no other column changes.
   */
  function OrdinalStep(art: Artifacts, row: Row): (r: Result<Row, Error>)
    ensures SeasonColumn !in Names(row) ==> r == Failure(MissingColumn(SeasonColumn))
    ensures SeasonColumn in Names(row) ==>
      var rank := art.ordinal(Lookup(row, SeasonColumn).value);
      && (rank.None? ==> r == Failure(UnknownCategory(OrdinalEncoder)))
      && (rank.Some? ==>
            && r.Success?
            && Names(r.value) == Names(row)
            && Lookup(r.value, SeasonColumn) == Some(Num(rank.value))
            && forall n :: n != SeasonColumn ==> Lookup(r.value, n) == Lookup(row, n))
  {
    var season :- Select(row, [SeasonColumn]);
    var rank := art.ordinal(season[0].value);
    if rank.None? then
      Failure(UnknownCategory(OrdinalEncoder))
    else
      AssignLookup(row, SeasonColumn, Num(rank.value));
      Success(Assign(row, SeasonColumn, Num(rank.value)))
  }

  /** Lines 147-148 once the indicators are known: drop the sources, append the generated columns. */
  function ReplaceSources(row: Row, names: seq<string>, indicators: seq<real>): Row
    requires |names| == |indicators|
  {
    Drop(row, OneHotSources) + Generated(names, indicators)
  }

  /** In `kept + extra`, the columns of `extra` follow the kept ones. */
  lemma AppendedAt(kept: Row, extra: Row)
    ensures |kept| <= |kept + extra|
    ensures (kept + extra)[|kept|..] == extra
  {
  }

  /** After the drop/append, a column that is neither a source nor generated reads as before. */
  lemma DropAppendLookup(row: Row, extra: Row)
    ensures forall n :: n !in OneHotSources && n !in Names(extra) ==>
      Lookup(Drop(row, OneHotSources) + extra, n) == Lookup(row, n)
  {
    forall n | n !in OneHotSources && n !in Names(extra)
      ensures Lookup(Drop(row, OneHotSources) + extra, n) == Lookup(row, n)
    {
      LookupAppend(Drop(row, OneHotSources), extra, n);
      DropLookup(row, OneHotSources, n);
    }
  }

  /**
   * Lines 144-148: the four nominal columns are read (missing: error), encoded
   * (unknown category: error), and replaced by the generated columns, which are
   * appended after the remaining raw columns.
   */
  function OneHotStep(art: Artifacts, row: Row): (r: Result<Row, Error>)
    ensures var sources := Select(row, OneHotSources);
      && (sources.Failure? ==> r == Failure(sources.error))
      && (sources.Success? ==>
            var indicators := art.oneHot(Values(sources.value));
            && (indicators.None? ==> r == Failure(UnknownCategory(OneHotEncoder)))
            && (indicators.Some? && |indicators.value| != |art.oneHotNames| ==> r == Failure(ShapeMismatch))
            && (indicators.Some? && |indicators.value| == |art.oneHotNames| ==>
                  && r.Success?
                  && Names(r.value) == Names(Drop(row, OneHotSources)) + art.oneHotNames
                  && |Drop(row, OneHotSources)| <= |r.value|
                  && r.value[|Drop(row, OneHotSources)|..] == Generated(art.oneHotNames, indicators.value)))
    ensures r.Success? ==> Names(r.value) == Names(Drop(row, OneHotSources)) + art.oneHotNames
    ensures r.Success? ==>
      forall n :: n !in OneHotSources && n !in art.oneHotNames ==> Lookup(r.value, n) == Lookup(row, n)
    ensures r.Success? && (forall n :: n in art.oneHotNames ==> n !in OneHotSources) ==>
      forall n :: n in OneHotSources ==> n !in Names(r.value)
  {
    var sources :- Select(row, OneHotSources);
    var indicators := art.oneHot(Values(sources));
    if indicators.None? then
      Failure(UnknownCategory(OneHotEncoder))
    else if |indicators.value| != |art.oneHotNames| then
      Failure(ShapeMismatch)
    else
      var kept, generated := Drop(row, OneHotSources), Generated(art.oneHotNames, indicators.value);
      NamesAppend(kept, generated);
      DropAppendLookup(row, generated);
      AppendedAt(kept, generated);
      Success(ReplaceSources(row, art.oneHotNames, indicators.value))
  }

  /**
   * Lines 151-153: passenger_count, dist and pickup_year are replaced by the
   * scaler's output; a missing one fails, and no other column changes.
   */
  function ScaleStep(art: Artifacts, row: Row): (r: Result<Row, Error>)
    ensures var nums := Select(row, ScaledColumns);
      && (nums.Failure? ==> r == Failure(nums.error))
      && (nums.Success? ==>
            var scaled := art.scale(
              Lookup(row, "passenger_count").value, Lookup(row, "dist").value, Lookup(row, "pickup_year").value);
            && r.Success?
            && Names(r.value) == Names(row)
            && Lookup(r.value, "passenger_count") == Some(Num(scaled.0))
            && Lookup(r.value, "dist") == Some(Num(scaled.1))
            && Lookup(r.value, "pickup_year") == Some(Num(scaled.2))
            && forall n :: n !in ScaledColumns ==> Lookup(r.value, n) == Lookup(row, n))
    ensures r.Success? ==> Names(r.value) == Names(row)
  {
    var nums := Select(row, ScaledColumns);
    if nums.Failure? then
      Failure(nums.error)
    else
      ScaledPresent(row);
      var scaled := art.scale(
        Lookup(row, "passenger_count").value, Lookup(row, "dist").value, Lookup(row, "pickup_year").value);
      Success(AssignScaled(row, scaled))
  }

  /** When the three numeric columns are present, each of them reads a value. */
  lemma ScaledPresent(row: Row)
    requires forall n :: n in ScaledColumns ==> n in Names(row)
    ensures Lookup(row, "passenger_count").Some?
    ensures Lookup(row, "dist").Some?
    ensures Lookup(row, "pickup_year").Some?
  {
    assert ScaledColumns[0] in ScaledColumns && ScaledColumns[1] in ScaledColumns && ScaledColumns[2] in ScaledColumns;
  }

  /** Line 151's assignment: the three scaled values overwrite their columns. */
  function AssignScaled(row: Row, scaled: (real, real, real)): (r: Row)
    requires forall n :: n in ScaledColumns ==> n in Names(row)
    ensures Names(r) == Names(row)
    ensures Lookup(r, "passenger_count") == Some(Num(scaled.0))
    ensures Lookup(r, "dist") == Some(Num(scaled.1))
    ensures Lookup(r, "pickup_year") == Some(Num(scaled.2))
    ensures forall n :: n !in ScaledColumns ==> Lookup(r, n) == Lookup(row, n)
  {
    assert ScaledColumns[0] in ScaledColumns && ScaledColumns[1] in ScaledColumns && ScaledColumns[2] in ScaledColumns;
    var r1 := Assign(row, "passenger_count", Num(scaled.0));
    var r2 := Assign(r1, "dist", Num(scaled.1));
    var r3 := Assign(r2, "pickup_year", Num(scaled.2));
    AssignLookupAt(row, "passenger_count", Num(scaled.0), "passenger_count");
    AssignLookupAt(r1, "dist", Num(scaled.1), "passenger_count");
    AssignLookupAt(r2, "pickup_year", Num(scaled.2), "passenger_count");
    AssignLookupAt(r1, "dist", Num(scaled.1), "dist");
    AssignLookupAt(r2, "pickup_year", Num(scaled.2), "dist");
    AssignLookupAt(r2, "pickup_year", Num(scaled.2), "pickup_year");
    AssignScaledKeepsOthers(row, scaled);
    r3
  }

  lemma AssignScaledKeepsOthers(row: Row, scaled: (real, real, real))
    ensures forall n :: n !in ScaledColumns ==>
      Lookup(Assign(Assign(Assign(row, "passenger_count", Num(scaled.0)), "dist", Num(scaled.1)), "pickup_year", Num(scaled.2)), n)
      == Lookup(row, n)
  {
    var r1 := Assign(row, "passenger_count", Num(scaled.0));
    var r2 := Assign(r1, "dist", Num(scaled.1));
    forall n | n !in ScaledColumns
      ensures Lookup(Assign(r2, "pickup_year", Num(scaled.2)), n) == Lookup(row, n)
    {
      AssignLookupAt(row, "passenger_count", Num(scaled.0), n);
      AssignLookupAt(r1, "dist", Num(scaled.1), n);
      AssignLookupAt(r2, "pickup_year", Num(scaled.2), n);
    }
  }

  /** The table after the three encoding steps, before the final reorder. */
  function PreparedRow(art: Artifacts, raw: Row): Result<Row, Error>
  {
    var seasoned :- OrdinalStep(art, raw);
    var encoded :- OneHotStep(art, seasoned);
    ScaleStep(art, encoded)
  }

  /**
   * Line 156: the prepared table reordered to `feature_names_in_`. On success
   * the columns are exactly the model's list, in its order, each with the
   * prepared table's value for that name. A step's error passes through
   * unchanged; once the steps succeed, the reorder fails exactly when the model
   * names a column the table lacks, and then with `MissingColumn` of such a name.
   */
  function EncodedRow(art: Artifacts, raw: Row): (r: Result<Row, Error>)
    ensures r.Success? ==> PreparedRow(art, raw).Success?
    ensures r.Success? ==> Names(r.value) == art.featureNamesIn
    ensures r.Success? ==> forall k :: 0 <= k < |r.value| ==>
      Lookup(PreparedRow(art, raw).value, art.featureNamesIn[k]) == Some(r.value[k].value)
    ensures PreparedRow(art, raw).Success? ==>
      (r.Failure? <==> exists n :: n in art.featureNamesIn && n !in Names(PreparedRow(art, raw).value))
    ensures PreparedRow(art, raw).Failure? ==> r == Failure(PreparedRow(art, raw).error)
    ensures PreparedRow(art, raw).Success? && r.Failure? ==>
      r.error.MissingColumn? && r.error.name in art.featureNamesIn
      && r.error.name !in Names(PreparedRow(art, raw).value)
  {
    var prepared :- PreparedRow(art, raw);
    Select(prepared, art.featureNamesIn)
  }

  /**
   * Lines 136-156 as the source runs them: one table value, overwritten step
   * by step, then reordered.
   */
  method EncodeFrame(art: Artifacts, raw: Row) returns (r: Result<Row, Error>)
    ensures r == EncodedRow(art, raw)
    ensures r.Success? ==> Names(r.value) == art.featureNamesIn
  {
    var frame := raw;

    var season := Select(frame, [SeasonColumn]);
    if season.Failure? {
      assert OrdinalStep(art, raw) == Failure(season.error);
      return Failure(season.error);
    }
    var rank := art.ordinal(season.value[0].value);
    if rank.None? {
      assert OrdinalStep(art, raw) == Failure(UnknownCategory(OrdinalEncoder));
      return Failure(UnknownCategory(OrdinalEncoder));
    }
    frame := Assign(frame, SeasonColumn, Num(rank.value));
    assert OrdinalStep(art, raw) == Success(frame);
    ghost var seasoned := frame;

    var sources := Select(frame, OneHotSources);
    if sources.Failure? {
      assert OneHotStep(art, seasoned) == Failure(sources.error);
      return Failure(sources.error);
    }
    var indicators := art.oneHot(Values(sources.value));
    if indicators.None? {
      assert OneHotStep(art, seasoned) == Failure(UnknownCategory(OneHotEncoder));
      return Failure(UnknownCategory(OneHotEncoder));
    }
    if |indicators.value| != |art.oneHotNames| {
      assert OneHotStep(art, seasoned) == Failure(ShapeMismatch);
      return Failure(ShapeMismatch);
    }
    frame := Drop(frame, OneHotSources) + Generated(art.oneHotNames, indicators.value);
    assert OneHotStep(art, seasoned) == Success(frame);
    ghost var encoded := frame;

    var nums := Select(frame, ScaledColumns);
    if nums.Failure? {
      assert ScaleStep(art, encoded) == Failure(nums.error);
      return Failure(nums.error);
    }
    assert Lookup(frame, ScaledColumns[0]) == Some(nums.value[0].value);
    assert Lookup(frame, ScaledColumns[1]) == Some(nums.value[1].value);
    assert Lookup(frame, ScaledColumns[2]) == Some(nums.value[2].value);
    var scaled := art.scale(nums.value[0].value, nums.value[1].value, nums.value[2].value);
    frame := AssignScaled(frame, scaled);
    assert ScaleStep(art, encoded) == Success(frame);

    r := Select(frame, art.featureNamesIn);
  }

  /** The raw columns left by the one-hot drop are the eight kept ones. */
  lemma KeptAfterDrop()
    ensures Without(RawFeatureNames, OneHotSources) == KeptColumns
  {
    var names := RawFeatureNames;
    var front, middle, back := names[..4], names[4..8], names[8..];
    assert names == front + middle + back;
    assert middle == OneHotSources;
    assert front + back == KeptColumns;
    WithoutMiddle(front, middle, back, OneHotSources);
  }

  /** Reading the four nominal columns yields their values in `ohe_cols` order. */
  lemma SourceValues(row: Row, month: Value, weekday: Value, hour: Value, category: Value)
    requires Lookup(row, "pickup_month") == Some(month)
    requires Lookup(row, "pickup_weekday") == Some(weekday)
    requires Lookup(row, "pickup_hour") == Some(hour)
    requires Lookup(row, "pickup_hour_category") == Some(category)
    ensures Select(row, OneHotSources).Success?
    ensures Values(Select(row, OneHotSources).value) == [month, weekday, hour, category]
  {
    var selected := Select(row, OneHotSources);
    assert selected.Success? by {
      forall n | n in OneHotSources ensures n in Names(row) {
        assert n == "pickup_month" || n == "pickup_weekday" || n == "pickup_hour" || n == "pickup_hour_category";
      }
    }
    var values := Values(selected.value);
    assert values[0] == month by {
      assert Lookup(row, OneHotSources[0]) == Some(selected.value[0].value);
    }
    assert values[1] == weekday by {
      assert Lookup(row, OneHotSources[1]) == Some(selected.value[1].value);
    }
    assert values[2] == hour by {
      assert Lookup(row, OneHotSources[2]) == Some(selected.value[2].value);
    }
    assert values[3] == category by {
      assert Lookup(row, OneHotSources[3]) == Some(selected.value[3].value);
    }
  }

  /** The season step reads a present season column, and leaves the nominal columns as they were. */
  lemma SeasonKeepsSources(art: Artifacts, raw: Row, season: Value)
    requires Lookup(raw, SeasonColumn) == Some(season)
    requires art.ordinal(season).Some?
    ensures OrdinalStep(art, raw).Success?
    ensures Names(OrdinalStep(art, raw).value) == Names(raw)
    ensures Lookup(OrdinalStep(art, raw).value, "pickup_month") == Lookup(raw, "pickup_month")
    ensures Lookup(OrdinalStep(art, raw).value, "pickup_weekday") == Lookup(raw, "pickup_weekday")
    ensures Lookup(OrdinalStep(art, raw).value, "pickup_hour") == Lookup(raw, "pickup_hour")
    ensures Lookup(OrdinalStep(art, raw).value, "pickup_hour_category") == Lookup(raw, "pickup_hour_category")
  {
    assert |"pickup_month"| != |SeasonColumn| && |"pickup_weekday"| != |SeasonColumn|;
    assert |"pickup_hour"| != |SeasonColumn| && |"pickup_hour_category"| != |SeasonColumn|;
  }

  /** With the four nominal values present, the one-hot step succeeds iff the encoder accepts them with the expected indicator count. */
  lemma OneHotOutcome(art: Artifacts, row: Row, month: Value, weekday: Value, hour: Value, category: Value)
    requires Lookup(row, "pickup_month") == Some(month)
    requires Lookup(row, "pickup_weekday") == Some(weekday)
    requires Lookup(row, "pickup_hour") == Some(hour)
    requires Lookup(row, "pickup_hour_category") == Some(category)
    ensures var indicators := art.oneHot([month, weekday, hour, category]);
      OneHotStep(art, row).Success? <==> indicators.Some? && |indicators.value| == |art.oneHotNames|
  {
    SourceValues(row, month, weekday, hour, category);
    var indicators := art.oneHot([month, weekday, hour, category]);
    assert art.oneHot(Values(Select(row, OneHotSources).value)) == indicators;
    if indicators.None? {
      assert OneHotStep(art, row) == Failure(UnknownCategory(OneHotEncoder));
    } else if |indicators.value| != |art.oneHotNames| {
      assert OneHotStep(art, row) == Failure(ShapeMismatch);
    }
  }

  /** Dropping the one-hot sources from the raw columns leaves the eight kept ones. */
  lemma DroppedRawNames(row: Row)
    requires Names(row) == RawFeatureNames
    ensures Names(Drop(row, OneHotSources)) == KeptColumns
  {
    NamesDrop(row, OneHotSources);
    KeptAfterDrop();
  }

  /** The scaled columns are among the kept ones. */
  lemma ScaledAreKept(names: seq<string>, generated: seq<string>)
    requires names == KeptColumns + generated
    ensures forall n :: n in ScaledColumns ==> n in names
  {
    assert names[0] == ScaledColumns[0] && names[1] == ScaledColumns[1] && names[2] == ScaledColumns[2];
  }

  /** The one-hot step on a table with the raw columns leaves the kept columns, then the generated ones. */
  lemma EncodedNames(art: Artifacts, seasoned: Row, encoded: Row)
    requires Names(seasoned) == RawFeatureNames
    requires OneHotStep(art, seasoned) == Success(encoded)
    ensures Names(encoded) == KeptColumns + art.oneHotNames
    ensures forall n :: n in ScaledColumns ==> n in Names(encoded)
  {
    DroppedRawNames(seasoned);
    ScaledAreKept(Names(encoded), art.oneHotNames);
  }

  /**
   * On a table with the raw columns, the three steps fail only when an encoder
   * rejects a value or the indicator count differs from the number of generated
   * names; the one-hot encoder sees the four nominal values in `ohe_cols` order,
   * and the prepared table holds the eight kept raw columns followed by the
   * generated ones.
   */
  lemma PreparedRawRow(art: Artifacts, raw: Row, season: Value, month: Value, weekday: Value, hour: Value, category: Value)
    requires Names(raw) == RawFeatureNames
    requires Lookup(raw, SeasonColumn) == Some(season)
    requires Lookup(raw, "pickup_month") == Some(month)
    requires Lookup(raw, "pickup_weekday") == Some(weekday)
    requires Lookup(raw, "pickup_hour") == Some(hour)
    requires Lookup(raw, "pickup_hour_category") == Some(category)
    ensures var prepared := PreparedRow(art, raw);
      var indicators := art.oneHot([month, weekday, hour, category]);
      && (prepared.Success? <==>
            art.ordinal(season).Some? && indicators.Some? && |indicators.value| == |art.oneHotNames|)
      && (prepared.Success? ==> Names(prepared.value) == KeptColumns + art.oneHotNames)
  {
    var ordinal := OrdinalStep(art, raw);
    if ordinal.Failure? {
      assert PreparedRow(art, raw) == Failure(ordinal.error);
    } else {
      SeasonKeepsSources(art, raw, season);
      var seasoned := ordinal.value;
      OneHotOutcome(art, seasoned, month, weekday, hour, category);
      var oneHot := OneHotStep(art, seasoned);
      if oneHot.Failure? {
        assert PreparedRow(art, raw) == Failure(oneHot.error);
      } else {
        EncodedNames(art, seasoned, oneHot.value);
        var scaled := ScaleStep(art, oneHot.value);
        assert scaled.Success? && Names(scaled.value) == Names(oneHot.value);
        assert PreparedRow(art, raw) == scaled;
      }
    }
  }

  /**
   * On the table built from a request, the three steps fail only when an
   * encoder rejects a value; the one-hot encoder sees the month, the values of
   * the day-of-week and hour widgets, and the hour category; the prepared table
   * holds the eight kept raw columns followed by the generated ones.
   */
  lemma PreparedInputRow(art: Artifacts, req: RideRequest, distKm: real, t: Trip, raw: Row)
    requires raw == InputRow(req, distKm, t)
    ensures var prepared := PreparedRow(art, raw);
      var indicators := art.oneHot([Int(req.pickupMonth), Int(req.dayOfWeek), Int(req.hour), Category(req.pickupHourCategory)]);
      && (prepared.Success? <==>
            art.ordinal(Category(req.pickupSeason)).Some? && indicators.Some? && |indicators.value| == |art.oneHotNames|)
      && (prepared.Success? ==> Names(prepared.value) == KeptColumns + art.oneHotNames)
  {
    ReadsSeason(req, distKm, t); ReadsMonth(req, distKm, t); ReadsWeekday(req, distKm, t);
    ReadsHour(req, distKm, t); ReadsHourCategory(req, distKm, t);
    PreparedRawRow(art, raw, Category(req.pickupSeason),
      Int(req.pickupMonth), Int(req.dayOfWeek), Int(req.hour), Category(req.pickupHourCategory));
  }
}
