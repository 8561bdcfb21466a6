/** `search_repeaters_by_location` and `search_repeaters_by_callsign`
    (`src/aprs_assistant/_repeaters.py`). The database is `None` when its
    file is absent; otherwise it is the table, in the order SQLite yields
    rows. */
module RepeaterSearch {
  import opened Wrappers
  import opened Seqs
  import opened Repeaters
  import opened RepeaterSort
  import opened SqlLike

  /** What a search returns: `None` (no database file), the exception a NULL
      mode raises under a mode filter, or the list of repeaters. */
  datatype SearchOutcome = NoDatabase | ModeTypeError | Found(results: seq<Repeater>)

  // ---------------------------------------------------------------------
  // The query box

  /** Latitude and longitude bounds, in degrees. */
  datatype Box = Box(south: real, north: real, west: real, east: real)

  /** `latitude BETWEEN south AND north AND longitude BETWEEN west AND east`. */
  predicate InBox(b: Box, lat: real, lon: real) {
    b.south <= lat <= b.north && b.west <= lon <= b.east
  }

  /** A box that went round a pole or across the antimeridian is opened up to
      the whole latitude or longitude range. */
  function Widen(b: Box): (r: Box)
    ensures r.south <= r.north && r.west <= r.east
    ensures b.south > b.north ==> r.south == -90.0 && r.north == 90.0
    ensures b.south <= b.north ==> r.south == b.south && r.north == b.north
    ensures b.west > b.east ==> r.west == -180.0 && r.east == 180.0
    ensures b.west <= b.east ==> r.west == b.west && r.east == b.east
    ensures forall lat, lon :: InBox(b, lat, lon) ==> InBox(r, lat, lon)
  {
    var lat := if b.south > b.north then Box(-90.0, 90.0, b.west, b.east) else b;
    if lat.west > lat.east then lat.(west := -180.0, east := 180.0) else lat
  }

  function InBoxRow(b: Box): Record -> bool {
    (row: Record) => InBox(b, row.latitude, row.longitude)
  }

  /** The rows the box query fetches. */
  function BoxRows(table: seq<Record>, b: Box): seq<Record> {
    Filter(table, InBoxRow(b))
  }

  // ---------------------------------------------------------------------
  // Search by location

  const DefaultMaxDistance: real := 80.0

  /** Arguments of `search_repeaters_by_location`. The box is the one the
      source derives from the origin and `max_distance` by `inverse_haversine`. */
  datatype LocationQuery = LocationQuery(
    lat: real,
    lon: real,
    maxDistance: real,
    box: Box,
    modes: Option<ModeArg>,
    bands: Option<BandSpec>)

  function LocationScreening(q: LocationQuery): Screening {
    Screening(Some((q.lat, q.lon)), Some(q.maxDistance), ModeList(q.modes), BandList(q.bands))
  }

  /** Every survivor carries a distance exactly when the search has an origin,
      and passes every check. */
  lemma SurvivorsFacts(rows: seq<Record>, sc: Screening, dist: Metric, matches: Matcher)
    requires Survivors(rows, sc, dist, matches).Some?
    ensures forall i :: 0 <= i < |Survivors(rows, sc, dist, matches).value| ==>
      var r := Survivors(rows, sc, dist, matches).value[i];
      (r.distance.Some? <==> sc.origin.Some?) && Screen(r, sc, matches) == Pass
  {
    SurvivorsAreFiltered(rows, sc, dist, matches);
    var all := AnnotateAll(rows, sc.origin, dist);
    var kept := Survivors(rows, sc, dist, matches).value;
    FilterMembers(all, Passes(sc, matches));
    forall i | 0 <= i < |kept|
      ensures (kept[i].distance.Some? <==> sc.origin.Some?) && Screen(kept[i], sc, matches) == Pass
    {
      assert kept[i] in all && Passes(sc, matches)(kept[i]);
      var j :| 0 <= j < |all| && all[j] == kept[i];
    }
  }

  /** The result of a location search, as a function of its inputs. */
  function LocationSearch(db: Option<seq<Record>>, q: LocationQuery, dist: Metric, matches: Matcher): SearchOutcome {
    if db.None? then NoDatabase
    else
      var sc := LocationScreening(q);
      var rows := BoxRows(db.value, Widen(q.box));
      match Survivors(rows, sc, dist, matches)
      case None => ModeTypeError
      case Some(kept) =>
        SurvivorsFacts(rows, sc, dist, matches);
        Found(SortByDistance(kept))
  }

  /** `search_repeaters_by_location`. */
  method SearchByLocation(db: Option<seq<Record>>, q: LocationQuery, dist: Metric, matches: Matcher)
    returns (out: SearchOutcome)
    ensures out == LocationSearch(db, q, dist, matches)
    ensures out.NoDatabase? <==> db.None?
    ensures out.Found? ==> forall i :: 0 <= i < |out.results| ==>
      out.results[i].distance.Some? && out.results[i].distance.value <= q.maxDistance
    ensures out.Found? ==> Sorted(out.results)
  {
    if db.None? {
      return NoDatabase;
    }
    var bands: Option<seq<Band>> := None;
    if q.bands.Some? {
      var flat := FlattenBands(q.bands.value, []);
      assert [] + Leaves(q.bands.value) == Leaves(q.bands.value);
      bands := Some(flat);
    }
    var modes := ModeList(q.modes);
    var box := Widen(q.box);
    var rows := BoxRows(db.value, box);
    var sc := Screening(Some((q.lat, q.lon)), Some(q.maxDistance), modes, bands);
    assert sc == LocationScreening(q);
    var scanned := Scan(rows, sc, dist, matches);
    if scanned.None? {
      return ModeTypeError;
    }
    SurvivorsFacts(rows, sc, dist, matches);
    var sorted := SortResults(scanned.value);
    out := Found(sorted);
    LocationWithinRadius(db, q, dist, matches);
  }

  /** No repeater farther than `max_distance` is ever returned. */
  lemma LocationWithinRadius(db: Option<seq<Record>>, q: LocationQuery, dist: Metric, matches: Matcher)
    requires LocationSearch(db, q, dist, matches).Found?
    ensures var rs := LocationSearch(db, q, dist, matches).results;
      forall i :: 0 <= i < |rs| ==> rs[i].distance.Some? && rs[i].distance.value <= q.maxDistance
  {
    var sc := LocationScreening(q);
    var rows := BoxRows(db.value, Widen(q.box));
    SurvivorsFacts(rows, sc, dist, matches);
    var kept := Survivors(rows, sc, dist, matches).value;
    var rs := LocationSearch(db, q, dist, matches).results;
    SortPermutes(kept);
    forall i | 0 <= i < |rs| ensures rs[i].distance.Some? && rs[i].distance.value <= q.maxDistance {
      assert rs[i] in multiset(rs);
      assert rs[i] in multiset(kept);
      var j :| 0 <= j < |kept| && kept[j] == rs[i];
    }
  }

  /** The result is the candidates that pass the distance, mode and band
      checks, reordered by non-decreasing distance; repeaters at equal
      distance keep the order the query fetched them in. */
  lemma {:induction false} LocationResultsSortedPermutation(db: Option<seq<Record>>, q: LocationQuery, dist: Metric, matches: Matcher)
    requires LocationSearch(db, q, dist, matches).Found?
    ensures var rs := LocationSearch(db, q, dist, matches).results;
      var passing := Filter(AnnotateAll(BoxRows(db.value, Widen(q.box)), Some((q.lat, q.lon)), dist), Passes(LocationScreening(q), matches));
      && HasDistances(rs) && Sorted(rs)
      && multiset(rs) == multiset(passing)
      && forall d :: Filter(rs, AtDistance(d)) == Filter(passing, AtDistance(d))
  {
    var sc := LocationScreening(q);
    var rows := BoxRows(db.value, Widen(q.box));
    SurvivorsFacts(rows, sc, dist, matches);
    SurvivorsAreFiltered(rows, sc, dist, matches);
    var kept := Survivors(rows, sc, dist, matches).value;
    SortedBySortByDistance(kept);
    SortPermutes(kept);
    forall d | true ensures Filter(SortByDistance(kept), AtDistance(d)) == Filter(kept, AtDistance(d)) {
      SortStable(kept, d);
    }
  }

  /** Membership in an annotated, screened selection of table rows. */
  lemma SelectedMembership(table: seq<Record>, sel: Record -> bool, origin: Option<Coord>, dist: Metric,
                           p: Repeater -> bool, x: Repeater)
    ensures x in Filter(AnnotateAll(Filter(table, sel), origin, dist), p) <==>
      exists i :: 0 <= i < |table| && sel(table[i]) && x == Annotate(table[i], origin, dist) && p(x)
  {
    var kept := Filter(AnnotateAll(Filter(table, sel), origin, dist), p);
    if x in kept {
      var i :| 0 <= i < |kept| && kept[i] == x;
      SelectedFrom(table, sel, origin, dist, p, i);
    }
    if exists i :: 0 <= i < |table| && sel(table[i]) && x == Annotate(table[i], origin, dist) && p(x) {
      var i :| 0 <= i < |table| && sel(table[i]) && x == Annotate(table[i], origin, dist) && p(x);
      SelectedIncludes(table, sel, origin, dist, p, i);
    }
  }

  lemma SelectedFrom(table: seq<Record>, sel: Record -> bool, origin: Option<Coord>, dist: Metric,
                     p: Repeater -> bool, i: nat)
    requires i < |Filter(AnnotateAll(Filter(table, sel), origin, dist), p)|
    ensures var x := Filter(AnnotateAll(Filter(table, sel), origin, dist), p)[i];
      exists k :: 0 <= k < |table| && sel(table[k]) && x == Annotate(table[k], origin, dist) && p(x)
  {
    var rows := Filter(table, sel);
    var all := AnnotateAll(rows, origin, dist);
    FilterPicks(all, p, i);
    var x := Filter(all, p)[i];
    var j :| 0 <= j < |all| && all[j] == x;
    FilterPicks(table, sel, j);
    var k :| 0 <= k < |table| && table[k] == rows[j];
    assert sel(table[k]) && x == Annotate(table[k], origin, dist);
  }

  lemma SelectedIncludes(table: seq<Record>, sel: Record -> bool, origin: Option<Coord>, dist: Metric,
                         p: Repeater -> bool, i: nat)
    requires i < |table| && sel(table[i]) && p(Annotate(table[i], origin, dist))
    ensures Annotate(table[i], origin, dist) in Filter(AnnotateAll(Filter(table, sel), origin, dist), p)
  {
    var rows := Filter(table, sel);
    var all := AnnotateAll(rows, origin, dist);
    FilterKeeps(table, sel, i);
    var j :| 0 <= j < |rows| && rows[j] == table[i];
    assert all[j] == Annotate(table[i], origin, dist);
    FilterKeeps(all, p, j);
  }


  /** A repeater is returned exactly when its row lies in the widened box and
      passes every check, annotated with its distance from the origin. */
  lemma LocationMembership(db: Option<seq<Record>>, q: LocationQuery, dist: Metric, matches: Matcher, x: Repeater)
    requires LocationSearch(db, q, dist, matches).Found?
    ensures x in LocationSearch(db, q, dist, matches).results <==>
      exists i :: 0 <= i < |db.value|
        && InBox(Widen(q.box), db.value[i].latitude, db.value[i].longitude)
        && x == Annotate(db.value[i], Some((q.lat, q.lon)), dist)
        && Screen(x, LocationScreening(q), matches) == Pass
  {
    LocationResultsSortedPermutation(db, q, dist, matches);
    var rs := LocationSearch(db, q, dist, matches).results;
    var passing := Filter(AnnotateAll(BoxRows(db.value, Widen(q.box)), Some((q.lat, q.lon)), dist), Passes(LocationScreening(q), matches));
    assert x in rs <==> x in multiset(passing);
    SelectedMembership(db.value, InBoxRow(Widen(q.box)), Some((q.lat, q.lon)), dist, Passes(LocationScreening(q), matches), x);
  }

  /** A check raises exactly when it reaches a row with a NULL mode while a
      non-empty pattern list is in force. */
  lemma ScreenFaultIff(rep: Repeater, sc: Screening, matches: Matcher)
    ensures Screen(rep, sc, matches) == Fault <==>
      && !(sc.cutoff.Some? && rep.distance.Some? && rep.distance.value > sc.cutoff.value)
      && sc.modes.Some? && sc.modes.value != [] && rep.row.mode.None?
  {
  }

  /** The location search raises exactly when a fetched row within range has
      a NULL mode and a non-empty mode list was given. */
  lemma LocationFailsIff(db: Option<seq<Record>>, q: LocationQuery, dist: Metric, matches: Matcher)
    requires db.Some?
    ensures LocationSearch(db, q, dist, matches) == ModeTypeError <==>
      var rows := BoxRows(db.value, Widen(q.box));
      exists i :: 0 <= i < |rows|
        && dist((q.lat, q.lon), (rows[i].latitude, rows[i].longitude)) <= q.maxDistance
        && rows[i].mode.None?
        && ModeList(q.modes).Some? && ModeList(q.modes).value != []
  {
    var rows := BoxRows(db.value, Widen(q.box));
    SurvivorsFailIff(rows, LocationScreening(q), dist, matches);
  }

  /** A bare mode string behaves as a list holding just that string. */
  lemma BarePatternIsOneElementList(db: Option<seq<Record>>, q: LocationQuery, p: string, dist: Metric, matches: Matcher)
    ensures LocationSearch(db, q.(modes := Some(Pattern(p))), dist, matches)
         == LocationSearch(db, q.(modes := Some(Patterns([p]))), dist, matches)
  {
  }

  /** Across the antimeridian the box spans every longitude, so a row inside
      the latitude bounds is fetched whatever its longitude. */
  lemma AntimeridianRowFetched(table: seq<Record>, b: Box, i: nat)
    requires b.west > b.east && b.south <= b.north
    requires i < |table| && b.south <= table[i].latitude <= b.north
    requires -180.0 <= table[i].longitude <= 180.0
    ensures table[i] in BoxRows(table, Widen(b))
  {
    assert InBoxRow(Widen(b))(table[i]);
    FilterMembers(table, InBoxRow(Widen(b)));
  }

  /** Over a pole the box spans every latitude and every longitude in range. */
  lemma PoleRowFetched(table: seq<Record>, b: Box, i: nat)
    requires b.south > b.north
    requires i < |table| && -90.0 <= table[i].latitude <= 90.0
    requires b.west <= table[i].longitude <= b.east || (b.west > b.east && -180.0 <= table[i].longitude <= 180.0)
    ensures table[i] in BoxRows(table, Widen(b))
  {
    assert InBoxRow(Widen(b))(table[i]);
    FilterMembers(table, InBoxRow(Widen(b)));
  }

  // ---------------------------------------------------------------------
  // Search by callsign

  /** Arguments of `search_repeaters_by_callsign`. */
  datatype CallsignQuery = CallsignQuery(
    callsign: string,
    lat: Option<real>,
    lon: Option<real>,
    modes: Option<ModeArg>,
    bands: Option<BandSpec>)

  /** Distances are measured only when both coordinates are given. */
  function Origin(q: CallsignQuery): Option<Coord> {
    if q.lat.Some? && q.lon.Some? then Some((q.lat.value, q.lon.value)) else None
  }

  function LikeRow(pattern: string): Record -> bool {
    (row: Record) => row.callsign.Some? && Like(pattern, row.callsign.value)
  }

  /** The rows `callsign LIKE ? || '%'` fetches. */
  function CallsignRows(table: seq<Record>, callsign: string): seq<Record> {
    Filter(table, LikeRow(callsign + "%"))
  }

  /** No distance cut-off: proximity only orders the result. */
  function CallsignScreening(q: CallsignQuery): Screening {
    Screening(Origin(q), None, ModeList(q.modes), BandList(q.bands))
  }

  /** The result of a callsign search, as a function of its inputs. */
  function CallsignSearch(db: Option<seq<Record>>, q: CallsignQuery, dist: Metric, matches: Matcher): SearchOutcome {
    if db.None? then NoDatabase
    else
      var sc := CallsignScreening(q);
      var rows := CallsignRows(db.value, q.callsign);
      match Survivors(rows, sc, dist, matches)
      case None => ModeTypeError
      case Some(kept) =>
        if Origin(q).None? then Found(kept)
        else
          SurvivorsFacts(rows, sc, dist, matches);
          Found(SortByDistance(kept))
  }

  /** `search_repeaters_by_callsign`. */
  method SearchByCallsign(db: Option<seq<Record>>, q: CallsignQuery, dist: Metric, matches: Matcher)
    returns (out: SearchOutcome)
    ensures out == CallsignSearch(db, q, dist, matches)
    ensures out.NoDatabase? <==> db.None?
    ensures out.Found? ==> forall i :: 0 <= i < |out.results| ==>
      (out.results[i].distance.Some? <==> q.lat.Some? && q.lon.Some?)
  {
    if db.None? {
      return NoDatabase;
    }
    var bands: Option<seq<Band>> := None;
    if q.bands.Some? {
      var flat := FlattenBands(q.bands.value, []);
      assert [] + Leaves(q.bands.value) == Leaves(q.bands.value);
      bands := Some(flat);
    }
    var modes := ModeList(q.modes);
    var origin: Option<Coord> := None;
    if q.lat.Some? && q.lon.Some? {
      origin := Some((q.lat.value, q.lon.value));
    }
    var rows := CallsignRows(db.value, q.callsign);
    var sc := Screening(origin, None, modes, bands);
    assert sc == CallsignScreening(q);
    var scanned := Scan(rows, sc, dist, matches);
    if scanned.None? {
      return ModeTypeError;
    }
    SurvivorsFacts(rows, sc, dist, matches);
    var results := scanned.value;
    if origin.Some? {
      results := SortResults(results);
    }
    out := Found(results);
    CallsignDistances(db, q, dist, matches);
  }

  /** `distance` is set on every result when both coordinates were given,
      and on none otherwise. */
  lemma CallsignDistances(db: Option<seq<Record>>, q: CallsignQuery, dist: Metric, matches: Matcher)
    requires CallsignSearch(db, q, dist, matches).Found?
    ensures var rs := CallsignSearch(db, q, dist, matches).results;
      forall i :: 0 <= i < |rs| ==> (rs[i].distance.Some? <==> q.lat.Some? && q.lon.Some?)
  {
    var sc := CallsignScreening(q);
    var rows := CallsignRows(db.value, q.callsign);
    SurvivorsFacts(rows, sc, dist, matches);
    var kept := Survivors(rows, sc, dist, matches).value;
    var rs := CallsignSearch(db, q, dist, matches).results;
    if Origin(q).Some? {
      SortPermutes(kept);
    }
    forall i | 0 <= i < |rs| ensures rs[i].distance.Some? <==> q.lat.Some? && q.lon.Some? {
      assert rs[i] in multiset(rs);
      assert rs[i] in multiset(kept);
      var j :| 0 <= j < |kept| && kept[j] == rs[i];
    }
  }

  /** Without both coordinates the result keeps the fetched order; with
      them it is sorted by distance, stably. Either way it holds exactly the
      fetched rows that pass the mode and band checks. */
  lemma {:induction false} CallsignResultOrder(db: Option<seq<Record>>, q: CallsignQuery, dist: Metric, matches: Matcher)
    requires CallsignSearch(db, q, dist, matches).Found?
    ensures var rs := CallsignSearch(db, q, dist, matches).results;
      var passing := Filter(AnnotateAll(CallsignRows(db.value, q.callsign), Origin(q), dist), Passes(CallsignScreening(q), matches));
      && multiset(rs) == multiset(passing)
      && (Origin(q).None? ==> rs == passing)
      && (Origin(q).Some? ==> HasDistances(rs) && Sorted(rs) && forall d :: Filter(rs, AtDistance(d)) == Filter(passing, AtDistance(d)))
  {
    var sc := CallsignScreening(q);
    var rows := CallsignRows(db.value, q.callsign);
    SurvivorsFacts(rows, sc, dist, matches);
    SurvivorsAreFiltered(rows, sc, dist, matches);
    var kept := Survivors(rows, sc, dist, matches).value;
    if Origin(q).Some? {
      SortedBySortByDistance(kept);
      SortPermutes(kept);
      forall d | true ensures Filter(SortByDistance(kept), AtDistance(d)) == Filter(kept, AtDistance(d)) {
        SortStable(kept, d);
      }
    }
  }

  /** A repeater is returned exactly when its callsign matches the pattern
      and it passes the mode and band checks; its distance plays no part. */
  lemma CallsignMembership(db: Option<seq<Record>>, q: CallsignQuery, dist: Metric, matches: Matcher, x: Repeater)
    requires CallsignSearch(db, q, dist, matches).Found?
    ensures x in CallsignSearch(db, q, dist, matches).results <==>
      exists i :: 0 <= i < |db.value|
        && db.value[i].callsign.Some? && Like(q.callsign + "%", db.value[i].callsign.value)
        && x == Annotate(db.value[i], Origin(q), dist)
        && ModeVerdict(ModeList(q.modes), x.row.mode, matches) == Pass
        && BandOk(BandList(q.bands), x.row.frequency)
  {
    CallsignResultOrder(db, q, dist, matches);
    var rs := CallsignSearch(db, q, dist, matches).results;
    var passing := Filter(AnnotateAll(CallsignRows(db.value, q.callsign), Origin(q), dist), Passes(CallsignScreening(q), matches));
    assert x in rs <==> x in multiset(passing);
    SelectedMembership(db.value, LikeRow(q.callsign + "%"), Origin(q), dist, Passes(CallsignScreening(q), matches), x);
    CallsignScreen(q, matches, x);
  }

  /** With no cut-off, only the mode and band checks decide. */
  lemma CallsignScreen(q: CallsignQuery, matches: Matcher, x: Repeater)
    ensures Passes(CallsignScreening(q), matches)(x) <==>
      ModeVerdict(ModeList(q.modes), x.row.mode, matches) == Pass && BandOk(BandList(q.bands), x.row.frequency)
  {
  }

  /** Every result's callsign starts with the searched string, ignoring ASCII
      case, when that string holds no `LIKE` wildcard. */
  lemma CallsignResultsStartWith(db: Option<seq<Record>>, q: CallsignQuery, dist: Metric, matches: Matcher)
    requires CallsignSearch(db, q, dist, matches).Found?
    requires Literal(q.callsign)
    ensures forall r :: r in CallsignSearch(db, q, dist, matches).results ==>
      r.row.callsign.Some? && StartsWithIgnoringCase(r.row.callsign.value, q.callsign)
  {
    forall r | r in CallsignSearch(db, q, dist, matches).results
      ensures r.row.callsign.Some? && StartsWithIgnoringCase(r.row.callsign.value, q.callsign)
    {
      CallsignMembership(db, q, dist, matches, r);
      LiteralPrefixLike(q.callsign, r.row.callsign.value);
    }
  }
}
