/**
 * The pickup/dropoff selection kept in the session between reruns
 * (app.py lines 49-52, 82-91 and 172-174). A captured map click fills the
 * pickup first, then the dropoff, and is ignored once both are stored; the
 * reset button clears both.
 */
module SessionSelection {
  import opened Wrappers
  import opened Geo

  /** The two optional points stored in the session. */
  datatype Selection = Selection(pickup: Option<Point>, dropoff: Option<Point>)

  /** The state a new session starts in, and the state reset returns to. */
  const Empty: Selection := Selection(None, None)

  /** A dropoff is never stored without a pickup. */
  predicate WellFormed(s: Selection) {
    s.dropoff.Some? ==> s.pickup.Some?
  }

  /** The selection after one captured click at `p`. */
  function AfterClick(s: Selection, p: Point): (r: Selection)
    // a stored point is never overwritten
    ensures s.pickup.Some? ==> r.pickup == s.pickup
    ensures s.dropoff.Some? ==> r.dropoff == s.dropoff
    // the click fills the first empty slot, pickup before dropoff
    ensures s.pickup.None? ==> r.pickup == Some(p) && r.dropoff == s.dropoff
    ensures s.pickup.Some? && s.dropoff.None? ==> r.dropoff == Some(p)
    ensures WellFormed(r)
  {
    if s.pickup.None? then Selection(Some(p), s.dropoff)
    else if s.dropoff.None? then Selection(s.pickup, Some(p))
    else s
  }

  /** The selection after a sequence of clicks, one event each, in order. */
  function AfterClicks(s: Selection, ps: seq<Point>): Selection
    decreases |ps|
  {
    if ps == [] then s else AfterClicks(AfterClick(s, ps[0]), ps[1..])
  }

  /** Once both points are stored, no further click changes anything. */
  lemma {:induction false} FullSelectionIgnoresClicks(s: Selection, ps: seq<Point>)
    requires s.pickup.Some? && s.dropoff.Some?
    ensures AfterClicks(s, ps) == s
    decreases |ps|
  {
    if ps != [] {
      FullSelectionIgnoresClicks(AfterClick(s, ps[0]), ps[1..]);
    }
  }

  /**
   * From a fresh (or freshly reset) session, the first click becomes the
   * pickup, the second the dropoff, and every later click is ignored.
   */
  lemma {:induction false} ClicksFromEmpty(ps: seq<Point>)
    ensures |ps| == 1 ==> AfterClicks(Empty, ps) == Selection(Some(ps[0]), None)
    ensures |ps| >= 2 ==> AfterClicks(Empty, ps) == Selection(Some(ps[0]), Some(ps[1]))
  {
    if |ps| == 1 {
      assert AfterClicks(Empty, ps) == AfterClicks(Selection(Some(ps[0]), None), []);
    } else if |ps| >= 2 {
      var full := Selection(Some(ps[0]), Some(ps[1]));
      assert ps[1..][1..] == ps[2..];
      assert AfterClicks(Empty, ps) == AfterClicks(full, ps[2..]);
      FullSelectionIgnoresClicks(full, ps[2..]);
    }
  }

  /** Whatever clicks follow, a stored point keeps its value and the selection stays well formed. */
  lemma {:induction false} ClicksKeepStoredPoints(s: Selection, ps: seq<Point>)
    ensures s.pickup.Some? ==> AfterClicks(s, ps).pickup == s.pickup
    ensures s.dropoff.Some? ==> AfterClicks(s, ps).dropoff == s.dropoff
    ensures WellFormed(s) ==> WellFormed(AfterClicks(s, ps))
    decreases |ps|
  {
    if ps != [] {
      ClicksKeepStoredPoints(AfterClick(s, ps[0]), ps[1..]);
    }
  }

  /** The session's `pickup`/`dropoff` entries, updated in place by clicks and by reset. */
  class SelectionState {
    var pickup: Option<Point>
    var dropoff: Option<Point>

    /** The current selection as a value. */
    function State(): Selection
      reads this
    {
      Selection(pickup, dropoff)
    }

    predicate Valid()
      reads this
    {
      WellFormed(State())
    }

    /** A new session: both entries start absent (lines 49-52). */
    constructor ()
      ensures Valid() && State() == Empty
    {
      pickup := None;
      dropoff := None;
    }

    /** One captured map click at `p` (lines 86-91). */
    method Click(p: Point)
      modifies this
      ensures Valid()
      ensures State() == AfterClick(old(State()), p)
    {
      if pickup.None? {
        pickup := Some(p);
      } else if dropoff.None? {
        dropoff := Some(p);
      }
    }

    /** The reset button (lines 172-174): both entries become absent. */
    method Reset()
      modifies this
      ensures Valid() && State() == Empty
    {
      pickup := None;
      dropoff := None;
    }
  }
}
