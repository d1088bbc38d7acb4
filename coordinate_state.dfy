/**
 * The coordinate held in the session across reruns (app.py lines 116-131):
 * the stored latitude and longitude are set to a default only when absent, a
 * map click then overwrites both, and the number inputs show the stored pair.
 */
module CoordinateState {
  import opened Wrappers

  /** The default location, used when the session holds no coordinate yet. */
  const DefaultLat: real := 37.8199
  const DefaultLon: real := -122.4783

  /** A point as the map's `last_clicked` reports it: `lat` and `lng`. */
  datatype Coord = Coord(lat: real, lng: real)

  /** The pair stored after one rerun, given the pair stored before it (if any) and the click. */
  function Reconcile(stored: Option<Coord>, click: Option<Coord>): (now: Coord)
    ensures click.Some? ==> now == click.value
    ensures click.None? && stored.Some? ==> now == stored.value
    ensures click.None? && stored.None? ==> now == Coord(DefaultLat, DefaultLon)
  {
    match click
    case Some(c) => c
    case None => if stored.Some? then stored.value else Coord(DefaultLat, DefaultLon)
  }

  /** The stored pair after a run of reruns, one per entry of clicks. */
  function Replay(stored: Option<Coord>, clicks: seq<Option<Coord>>): (final: Option<Coord>)
    ensures clicks == [] ==> final == stored
    ensures clicks != [] ==> final.Some?
    decreases |clicks|
  {
    if clicks == [] then stored
    else Replay(Some(Reconcile(stored, clicks[0])), clicks[1..])
  }

  /** The last click of a run of reruns, if any rerun carried one. */
  function LastClick(clicks: seq<Option<Coord>>): (last: Option<Coord>) {
    if clicks == [] then None
    else
      match LastClick(clicks[1..])
      case Some(c) => Some(c)
      case None => clicks[0]
  }

  /**
   * Last writer wins: after at least one rerun the session holds the last click;
   * without any click it holds what it held before, or the default if it held nothing.
   */
  lemma {:induction false} LastClickWins(stored: Option<Coord>, clicks: seq<Option<Coord>>)
    requires clicks != []
    decreases |clicks|
    ensures LastClick(clicks).Some? ==> Replay(stored, clicks) == LastClick(clicks)
    ensures LastClick(clicks).None? && stored.Some? ==> Replay(stored, clicks) == stored
    ensures LastClick(clicks).None? && stored.None? ==>
              Replay(stored, clicks) == Some(Coord(DefaultLat, DefaultLon))
  {
    if |clicks| > 1 {
      LastClickWins(Some(Reconcile(stored, clicks[0])), clicks[1..]);
    }
  }

  /** Reruns without a click never replace a stored coordinate with the default. */
  lemma NoClickKeepsStored(c: Coord, reruns: nat)
    ensures Replay(Some(c), seq(reruns, _ => None)) == Some(c)
  {
    var clicks: seq<Option<Coord>> := seq(reruns, _ => None);
    if reruns > 0 {
      assert forall k :: 0 <= k < |clicks| ==> clicks[k] == None;
      NoClicksHasNoLast(clicks);
      LastClickWins(Some(c), clicks);
    }
  }

  lemma {:induction false} NoClicksHasNoLast(clicks: seq<Option<Coord>>)
    requires forall k :: 0 <= k < |clicks| ==> clicks[k] == None
    ensures LastClick(clicks) == None
  {
    if clicks != [] {
      NoClicksHasNoLast(clicks[1..]);
    }
  }

  /** `st.session_state`, restricted to its `lat` and `lon` entries. */
  class Session {
    var lat: Option<real>
    var lon: Option<real>

    /** The two entries are written together, so either both are present or neither is. */
    ghost predicate Valid()
      reads this
    {
      lat.Some? <==> lon.Some?
    }

    ghost function Stored(): Option<Coord>
      reads this
      requires Valid()
    {
      if lat.Some? then Some(Coord(lat.value, lon.value)) else None
    }

    /** A new browser session stores no coordinate. */
    constructor ()
      ensures Valid() && Stored() == None
    {
      lat, lon := None, None;
    }

    /**
     * One rerun of the script: store the default when `lat` is absent, then let a
     * click overwrite both entries; returns the pair the number inputs start from.
     */
    method Rerun(click: Option<Coord>) returns (shown: Coord)
      requires Valid()
      modifies this
      ensures Valid() && Stored() == Some(shown)
      ensures shown == Reconcile(old(Stored()), click)
      ensures click.Some? ==> lat == Some(click.value.lat) && lon == Some(click.value.lng)
      ensures click.None? && old(lat).Some? ==> lat == old(lat) && lon == old(lon)
      ensures click.None? && old(lat).None? ==> lat == Some(DefaultLat) && lon == Some(DefaultLon)
    {
      if lat.None? {
        lat := Some(DefaultLat);
        lon := Some(DefaultLon);
      }
      if click.Some? {
        lat := Some(click.value.lat);
        lon := Some(click.value.lng);
      }
      shown := Coord(lat.value, lon.value);
    }
  }

  /**
   * The reruns Streamlit performs on one browser session, one per entry of
   * clicks: the session ends up storing what Replay gives, so LastClickWins and
   * NoClickKeepsStored hold of the class as well.
   */
  method RunReruns(session: Session, clicks: seq<Option<Coord>>)
    requires session.Valid()
    modifies session
    ensures session.Valid() && session.Stored() == Replay(old(session.Stored()), clicks)
  {
    var i := 0;
    while i < |clicks|
      invariant 0 <= i <= |clicks| && session.Valid()
      invariant Replay(old(session.Stored()), clicks) == Replay(session.Stored(), clicks[i..])
    {
      assert clicks[i..][1..] == clicks[i + 1..];
      var _ := session.Rerun(clicks[i]);
      i := i + 1;
    }
  }

  /** Two reruns: a click is kept by a later rerun without one, and a later click replaces it. */
  method ClickThenRerun(c: Coord, d: Coord) returns (first: Coord, second: Coord, third: Coord)
    ensures first == c && second == c && third == d
  {
    var session := new Session();
    first := session.Rerun(Some(c));
    second := session.Rerun(None);
    third := session.Rerun(Some(d));
  }
}
