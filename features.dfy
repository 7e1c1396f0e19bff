/**
 * The one-row feature table (app.py lines 57-65 and 121-136) and the column
 * operations the encoding steps perform on it: reading a column, assigning a
 * column, dropping columns and selecting columns by name.
 */
module Features {
  import opened Wrappers
  import opened Geo

  /** A cell of the table: an integer widget value, a real, or a category label. */
  datatype Value = Int(i: int) | Num(x: real) | Category(text: string)

  /** A named column of the one-row table. */
  datatype Column = Column(name: string, value: Value)

  /** The one-row table, its columns in order. */
  type Row = seq<Column>

  /** The fitted encoder that rejected a value. */
  datatype Encoder = OrdinalEncoder | OneHotEncoder

  /** The ways preparing a row can fail. */
  datatype Error =
    | MissingColumn(name: string)       // a column is selected that the table lacks (pandas KeyError)
    | UnknownCategory(encoder: Encoder) // an encoder meets a value outside its vocabulary
    | ShapeMismatch                     // the indicator columns and their names differ in number

  /** The column names, in order. */
  function Names(row: Row): (r: seq<string>)
    ensures |r| == |row|
    ensures forall k :: 0 <= k < |row| ==> r[k] == row[k].name
  {
    if row == [] then [] else [row[0].name] + Names(row[1..])
  }

  /** The cell values, in order. */
  function Values(row: Row): (r: seq<Value>)
    ensures |r| == |row|
    ensures forall k :: 0 <= k < |row| ==> r[k] == row[k].value
  {
    if row == [] then [] else [row[0].value] + Values(row[1..])
  }

  /** `df[name]`: the value of the first column called `name`, absent when there is none. */
  function Lookup(row: Row, name: string): (r: Option<Value>)
    ensures r.None? <==> name !in Names(row)
    ensures r.Some? ==> Column(name, r.value) in row
  {
    if row == [] then None
    else if row[0].name == name then Some(row[0].value)
    else Lookup(row[1..], name)
  }

  /** Every column called `name` gets value `v`; the others are untouched. */
  function ReplaceAll(row: Row, name: string, v: Value): (r: Row)
    ensures Names(r) == Names(row)
  {
    if row == [] then []
    else [if row[0].name == name then Column(name, v) else row[0]] + ReplaceAll(row[1..], name, v)
  }

  /** `df[name] = v`: an existing column is overwritten in place, a new one is appended. */
  function Assign(row: Row, name: string, v: Value): (r: Row)
    ensures name in Names(row) ==> Names(r) == Names(row)
    ensures name !in Names(row) ==> Names(r) == Names(row) + [name]
  {
    if name in Names(row) then ReplaceAll(row, name, v) else row + [Column(name, v)]
  }

  /** `df.drop(columns=names)`: the columns whose name is not in `names`, in order. */
  function Drop(row: Row, names: seq<string>): (r: Row)
    ensures forall c :: c in r <==> c in row && c.name !in names
    ensures forall n :: n in names ==> n !in Names(r)
  {
    if row == [] then []
    else (if row[0].name in names then [] else [row[0]]) + Drop(row[1..], names)
  }

  /** The names of `names` that are not in `removed`, in order. */
  function Without(names: seq<string>, removed: seq<string>): seq<string>
  {
    if names == [] then []
    else (if names[0] in removed then [] else [names[0]]) + Without(names[1..], removed)
  }

  lemma {:induction false} WithoutAppend(a: seq<string>, b: seq<string>, removed: seq<string>)
    ensures Without(a + b, removed) == Without(a, removed) + Without(b, removed)
  {
    if a != [] {
      assert (a + b)[1..] == a[1..] + b;
      WithoutAppend(a[1..], b, removed);
    } else {
      assert a + b == b;
    }
  }

  /** Removing names none of which occurs changes nothing; removing all of them leaves nothing. */
  lemma {:induction false} WithoutExtremes(names: seq<string>, removed: seq<string>)
    ensures (forall n :: n in names ==> n !in removed) ==> Without(names, removed) == names
    ensures (forall n :: n in names ==> n in removed) ==> Without(names, removed) == []
  {
    if names != [] {
      assert forall n :: n in names[1..] ==> n in names;
      WithoutExtremes(names[1..], removed);
      assert names == [names[0]] + names[1..];
    }
  }

  /** Removing a middle block of removed names keeps the two blocks around it. */
  lemma WithoutMiddle(front: seq<string>, middle: seq<string>, back: seq<string>, removed: seq<string>)
    requires forall n :: n in front ==> n !in removed
    requires forall n :: n in middle ==> n in removed
    requires forall n :: n in back ==> n !in removed
    ensures Without(front + middle + back, removed) == front + back
  {
    WithoutExtremes(front, removed);
    WithoutExtremes(middle, removed);
    WithoutExtremes(back, removed);
    WithoutAppend(front + middle, back, removed);
    WithoutAppend(front, middle, removed);
  }

  /** Dropping columns drops exactly their names from the name list. */
  lemma {:induction false} NamesDrop(row: Row, names: seq<string>)
    ensures Names(Drop(row, names)) == Without(Names(row), names)
  {
    if row != [] {
      NamesDrop(row[1..], names);
      assert Names(row)[1..] == Names(row[1..]);
      NamesAppend(if row[0].name in names then [] else [row[0]], Drop(row[1..], names));
    }
  }

  /** The generated columns of the one-hot step: one per name, each holding its indicator. */
  function Generated(names: seq<string>, indicators: seq<real>): (r: Row)
    requires |names| == |indicators|
    ensures Names(r) == names
    ensures forall k :: 0 <= k < |r| ==> r[k] == Column(names[k], Num(indicators[k]))
  {
    if names == [] then []
    else [Column(names[0], Num(indicators[0]))] + Generated(names[1..], indicators[1..])
  }

  /**
   * `df[names]`: the table restricted and reordered to exactly `names`, each
   * column carrying the input's value for that name; columns not named are
   * dropped, and a name the table lacks is an error.
   */
  function Select(row: Row, names: seq<string>): (r: Result<Row, Error>)
    ensures r.Success? <==> forall n :: n in names ==> n in Names(row)
    ensures r.Success? ==> Names(r.value) == names
    ensures r.Success? ==> forall k :: 0 <= k < |names| ==> Lookup(row, names[k]) == Some(r.value[k].value)
    ensures r.Failure? ==> r.error.MissingColumn? && r.error.name in names && r.error.name !in Names(row)
  {
    if names == [] then Success([])
    else
      match Lookup(row, names[0])
      case None =>
        assert names[0] in names;
        Failure(MissingColumn(names[0]))
      case Some(v) =>
        match Select(row, names[1..])
        case Failure(e) =>
          assert e.name in names[1..] && e.name !in Names(row);
          assert e.name in names;
          Failure(e)
        case Success(rest) => Success([Column(names[0], v)] + rest)
  }

  lemma {:induction false} NamesAppend(a: Row, b: Row)
    ensures Names(a + b) == Names(a) + Names(b)
  {
    if a != [] {
      assert (a + b)[1..] == a[1..] + b;
      NamesAppend(a[1..], b);
    }
  }

  /** Reading a column of two tables placed side by side finds it in the left one first. */
  lemma {:induction false} LookupAppend(a: Row, b: Row, n: string)
    ensures Lookup(a + b, n) == if n in Names(a) then Lookup(a, n) else Lookup(b, n)
  {
    if a == [] {
      assert a + b == b;
    } else {
      assert (a + b)[0] == a[0];
      if a[0].name == n {
        assert Names(a)[0] == n;
      } else {
        assert (a + b)[1..] == a[1..] + b;
        assert n in Names(a) <==> n in Names(a[1..]);
        LookupAppend(a[1..], b, n);
      }
    }
  }

  lemma {:induction false} ReplaceAllLookup(row: Row, name: string, v: Value, n: string)
    ensures Lookup(ReplaceAll(row, name, v), n) ==
      if n == name && name in Names(row) then Some(v) else Lookup(row, n)
  {
    if row != [] {
      ReplaceAllLookup(row[1..], name, v, n);
    }
  }

  /** After `df[name] = v`, column `name` reads `v` and every other column reads as before. */
  lemma AssignLookupAt(row: Row, name: string, v: Value, n: string)
    ensures Lookup(Assign(row, name, v), n) == if n == name then Some(v) else Lookup(row, n)
  {
    if name in Names(row) {
      ReplaceAllLookup(row, name, v, n);
    } else {
      LookupAppend(row, [Column(name, v)], n);
    }
  }

  /** `AssignLookupAt` for every column name at once. */
  lemma AssignLookup(row: Row, name: string, v: Value)
    ensures forall n :: Lookup(Assign(row, name, v), n) == if n == name then Some(v) else Lookup(row, n)
  {
    forall n
      ensures Lookup(Assign(row, name, v), n) == if n == name then Some(v) else Lookup(row, n)
    {
      AssignLookupAt(row, name, v, n);
    }
  }

  /** Dropping columns leaves every other column readable with its old value. */
  lemma {:induction false} DropLookup(row: Row, names: seq<string>, n: string)
    requires n !in names
    ensures Lookup(Drop(row, names), n) == Lookup(row, n)
  {
    if row != [] {
      var rest := Drop(row[1..], names);
      DropLookup(row[1..], names, n);
      if row[0].name in names {
        assert Drop(row, names) == rest;
      } else {
        assert Drop(row, names) == [row[0]] + rest;
        assert ([row[0]] + rest)[1..] == rest;
      }
    }
  }

  /** No two columns share a name. */
  predicate Distinct(names: seq<string>)
  {
    forall i, j :: 0 <= i < j < |names| ==> names[i] != names[j]
  }

  /** In a table without repeated names, each column is found by its own name. */
  lemma {:induction false} LookupAt(row: Row, k: nat)
    requires k < |row|
    requires Distinct(Names(row))
    ensures Lookup(row, row[k].name) == Some(row[k].value)
  {
    if k > 0 {
      assert Names(row[1..]) == Names(row)[1..];
      LookupAt(row[1..], k - 1);
    }
  }

  /** The widget values of one request (lines 57-65); the coordinates and distance come separately. */
  datatype RideRequest = RideRequest(
    passengerCount: int,
    hour: int,
    dayOfWeek: int,
    pickupYear: int,
    pickupSeason: string,
    pickupMonth: int,
    pickupHourCategory: string)

  /** The columns of `input_dict`, in the order the dictionary literal lists them. */
  const RawFeatureNames: seq<string> := [
    "passenger_count", "dist", "pickup_year", "pickup_season", "pickup_month", "pickup_weekday",
    "pickup_hour", "pickup_hour_category", "pickup_lat", "pickup_lon", "dropoff_lat", "dropoff_lon"]

  lemma RawFeatureNamesDistinct()
    ensures Distinct(RawFeatureNames)
  {
  }

  /** The columns named `names`, in order, carrying `values`. */
  function Columns(names: seq<string>, values: seq<Value>): (r: Row)
    requires |names| == |values|
    ensures Names(r) == names
    ensures |r| == |names|
    ensures forall k :: 0 <= k < |r| ==> r[k] == Column(names[k], values[k])
    decreases |names|
  {
    if names == [] then []
    else
      var rest := Columns(names[1..], values[1..]);
      assert Names([Column(names[0], values[0])] + rest) == [names[0]] + Names(rest) by {
        assert ([Column(names[0], values[0])] + rest)[1..] == rest;
      }
      [Column(names[0], values[0])] + rest
  }

  /** The values of `input_dict`, in the order of `RawFeatureNames`. */
  function RawValues(req: RideRequest, distKm: real, t: Trip): (v: seq<Value>)
    ensures |v| == |RawFeatureNames|
  {
    [Int(req.passengerCount), Num(distKm), Int(req.pickupYear), Category(req.pickupSeason),
     Int(req.pickupMonth), Int(req.dayOfWeek), Int(req.hour), Category(req.pickupHourCategory),
     Num(t.pickup.lat), Num(t.pickup.lon), Num(t.dropoff.lat), Num(t.dropoff.lon)]
  }

  /**
   * Lines 121-136: the raw one-row table, with the 12 keys of `input_dict` in
   * the order the dictionary literal lists them. `InputRowValues` and
   * `InputRowCoordinates` state what each column reads.
   */
  function InputRow(req: RideRequest, distKm: real, t: Trip): (r: Row)
    ensures Names(r) == RawFeatureNames
  {
    Columns(RawFeatureNames, RawValues(req, distKm, t))
  }

  /** The column at position `k` of the raw row is read by its name. */
  lemma InputRowLookup(req: RideRequest, distKm: real, t: Trip, k: nat, name: string, v: Value)
    requires k < |RawFeatureNames|
    requires RawFeatureNames[k] == name && RawValues(req, distKm, t)[k] == v
    ensures Lookup(InputRow(req, distKm, t), name) == Some(v)
  {
    RawFeatureNamesDistinct();
    LookupAt(InputRow(req, distKm, t), k);
  }

  // One lemma per column: the solver handles a single read of a named column
  // cheaply, and several reads proved together expensively.

  lemma ReadsPassengers(req: RideRequest, distKm: real, t: Trip)
    ensures Lookup(InputRow(req, distKm, t), "passenger_count") == Some(Int(req.passengerCount))
  {
    InputRowLookup(req, distKm, t, 0, "passenger_count", Int(req.passengerCount));
  }

  lemma ReadsDist(req: RideRequest, distKm: real, t: Trip)
    ensures Lookup(InputRow(req, distKm, t), "dist") == Some(Num(distKm))
  {
    InputRowLookup(req, distKm, t, 1, "dist", Num(distKm));
  }

  lemma ReadsYear(req: RideRequest, distKm: real, t: Trip)
    ensures Lookup(InputRow(req, distKm, t), "pickup_year") == Some(Int(req.pickupYear))
  {
    InputRowLookup(req, distKm, t, 2, "pickup_year", Int(req.pickupYear));
  }

  lemma ReadsSeason(req: RideRequest, distKm: real, t: Trip)
    ensures Lookup(InputRow(req, distKm, t), "pickup_season") == Some(Category(req.pickupSeason))
  {
    InputRowLookup(req, distKm, t, 3, "pickup_season", Category(req.pickupSeason));
  }

  lemma ReadsMonth(req: RideRequest, distKm: real, t: Trip)
    ensures Lookup(InputRow(req, distKm, t), "pickup_month") == Some(Int(req.pickupMonth))
  {
    InputRowLookup(req, distKm, t, 4, "pickup_month", Int(req.pickupMonth));
  }

  lemma ReadsWeekday(req: RideRequest, distKm: real, t: Trip)
    ensures Lookup(InputRow(req, distKm, t), "pickup_weekday") == Some(Int(req.dayOfWeek))
  {
    InputRowLookup(req, distKm, t, 5, "pickup_weekday", Int(req.dayOfWeek));
  }

  lemma ReadsHour(req: RideRequest, distKm: real, t: Trip)
    ensures Lookup(InputRow(req, distKm, t), "pickup_hour") == Some(Int(req.hour))
  {
    InputRowLookup(req, distKm, t, 6, "pickup_hour", Int(req.hour));
  }

  lemma ReadsHourCategory(req: RideRequest, distKm: real, t: Trip)
    ensures Lookup(InputRow(req, distKm, t), "pickup_hour_category") == Some(Category(req.pickupHourCategory))
  {
    InputRowLookup(req, distKm, t, 7, "pickup_hour_category", Category(req.pickupHourCategory));
  }

  lemma ReadsPickupLat(req: RideRequest, distKm: real, t: Trip)
    ensures Lookup(InputRow(req, distKm, t), "pickup_lat") == Some(Num(t.pickup.lat))
  {
    InputRowLookup(req, distKm, t, 8, "pickup_lat", Num(t.pickup.lat));
  }

  lemma ReadsPickupLon(req: RideRequest, distKm: real, t: Trip)
    ensures Lookup(InputRow(req, distKm, t), "pickup_lon") == Some(Num(t.pickup.lon))
  {
    InputRowLookup(req, distKm, t, 9, "pickup_lon", Num(t.pickup.lon));
  }

  lemma ReadsDropoffLat(req: RideRequest, distKm: real, t: Trip)
    ensures Lookup(InputRow(req, distKm, t), "dropoff_lat") == Some(Num(t.dropoff.lat))
  {
    InputRowLookup(req, distKm, t, 10, "dropoff_lat", Num(t.dropoff.lat));
  }

  lemma ReadsDropoffLon(req: RideRequest, distKm: real, t: Trip)
    ensures Lookup(InputRow(req, distKm, t), "dropoff_lon") == Some(Num(t.dropoff.lon))
  {
    InputRowLookup(req, distKm, t, 11, "dropoff_lon", Num(t.dropoff.lon));
  }

  /**
   * Lines 122-129: the request's columns read the widget values and the
   * distance used; `pickup_weekday` and `pickup_hour` carry the day-of-week and
   * hour widgets' values (lines 63-64).
   */
  lemma InputRowValues(req: RideRequest, distKm: real, t: Trip)
    ensures var r := InputRow(req, distKm, t);
      && Lookup(r, "passenger_count") == Some(Int(req.passengerCount))
      && Lookup(r, "dist") == Some(Num(distKm))
      && Lookup(r, "pickup_year") == Some(Int(req.pickupYear))
      && Lookup(r, "pickup_season") == Some(Category(req.pickupSeason))
      && Lookup(r, "pickup_month") == Some(Int(req.pickupMonth))
      && Lookup(r, "pickup_weekday") == Some(Int(req.dayOfWeek))
      && Lookup(r, "pickup_hour") == Some(Int(req.hour))
      && Lookup(r, "pickup_hour_category") == Some(Category(req.pickupHourCategory))
  {
    ReadsPassengers(req, distKm, t);
    ReadsDist(req, distKm, t);
    ReadsYear(req, distKm, t);
    ReadsSeason(req, distKm, t);
    ReadsMonth(req, distKm, t);
    ReadsWeekday(req, distKm, t);
    ReadsHour(req, distKm, t);
    ReadsHourCategory(req, distKm, t);
  }

  /** Lines 130-133: the four coordinate columns read the resolved ride's endpoints. */
  lemma InputRowCoordinates(req: RideRequest, distKm: real, t: Trip)
    ensures var r := InputRow(req, distKm, t);
      && Lookup(r, "pickup_lat") == Some(Num(t.pickup.lat))
      && Lookup(r, "pickup_lon") == Some(Num(t.pickup.lon))
      && Lookup(r, "dropoff_lat") == Some(Num(t.dropoff.lat))
      && Lookup(r, "dropoff_lon") == Some(Num(t.dropoff.lon))
  {
    ReadsPickupLat(req, distKm, t);
    ReadsPickupLon(req, distKm, t);
    ReadsDropoffLat(req, distKm, t);
    ReadsDropoffLon(req, distKm, t);
  }
}
