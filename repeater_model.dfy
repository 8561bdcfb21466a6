/** The data of the repeater directory (`src/aprs_assistant/_repeaters.py`)
    and the per-row checks both searches run over the rows a query fetched:
    distance cut-off, mode patterns and frequency bands. */
module Repeaters {
  import opened Wrappers
  import opened Seqs

  /** One row of the `Repeaters` table. Text columns may hold SQL NULL,
      because ingestion stores `None` for a JSON `null`. Frequencies and
      offsets are in Hz; coordinates in degrees. */
  datatype Record = Record(
    id: int,
    callsign: Option<string>,
    latitude: real,
    longitude: real,
    city: Option<string>,
    category: Option<string>,
    internetNode: Option<string>,
    mode: Option<string>,
    encode: Option<string>,
    decode: Option<string>,
    frequency: int,
    offset: int,
    description: Option<string>,
    power: Option<string>,
    operational: bool,
    restriction: Option<string>)

  /** The `Repeater` named tuple handed to callers: a row plus its distance
      in km from the query origin, `None` when the query had no origin. */
  datatype Repeater = Repeater(row: Record, distance: Option<real>)

  /** (latitude, longitude) in degrees. */
  type Coord = (real, real)

  /** Great-circle distance in km, supplied by the caller (haversine). */
  type Metric = (Coord, Coord) -> real

  /** `re.search(pattern, text)` succeeds: the regular-expression engine is a parameter. */
  type Matcher = (string, string) -> bool

  // Mode patterns exported by the module (regular expressions over `mode`).
  const ModeFm: string := "^FM$"
  const ModeDmr: string := "DMR"
  const ModeYsf: string := "YSF"
  const ModeDStar: string := "D\\-?STAR"

  /** A frequency range in MHz, inclusive at both ends. */
  datatype Band = Band(low: real, high: real)

  /** The `bands` argument: a band, or a list nesting bands to any depth. */
  datatype BandSpec = Range(band: Band) | Nested(items: seq<BandSpec>)

  const Band2m: BandSpec := Nested([Range(Band(144.0, 148.0))])
  const Band1_25m: BandSpec := Nested([Range(Band(219.0, 225.0))])
  const Band70cm: BandSpec := Nested([Range(Band(420.0, 450.0))])
  const BandGmrs: BandSpec := Nested([Range(Band(462.55, 462.725)), Range(Band(467.55, 467.725))])

  /** The `modes` argument: one pattern, or a list of them. */
  datatype ModeArg = Pattern(pattern: string) | Patterns(patterns: seq<string>)

  /** A bare pattern is wrapped in a one-element list. */
  function ModeList(modes: Option<ModeArg>): Option<seq<string>> {
    match modes
    case None => None
    case Some(Pattern(p)) => Some([p])
    case Some(Patterns(ps)) => Some(ps)
  }

  // ---------------------------------------------------------------------
  // Flattening nested bands

  /** The bands of a `BandSpec`, left to right. */
  function Leaves(b: BandSpec): seq<Band>
    decreases b
  {
    match b
    case Range(x) => [x]
    case Nested(items) => LeavesOf(items)
  }

  function LeavesOf(items: seq<BandSpec>): seq<Band>
    decreases items
  {
    if items == [] then [] else Leaves(items[0]) + LeavesOf(items[1..])
  }

  /** A band occurs somewhere inside a `BandSpec`. */
  predicate Occurs(x: Band, b: BandSpec)
    decreases b
  {
    match b
    case Range(y) => x == y
    case Nested(items) => exists i :: 0 <= i < |items| && Occurs(x, items[i])
  }

  lemma {:induction false} LeavesOfSnoc(items: seq<BandSpec>, last: BandSpec)
    ensures LeavesOf(items + [last]) == LeavesOf(items) + Leaves(last)
    decreases |items|
  {
    if items == [] {
      assert [last][1..] == [];
    } else {
      assert (items + [last])[1..] == items[1..] + [last];
      LeavesOfSnoc(items[1..], last);
    }
  }

  /** Flattening loses no band and invents none. */
  lemma {:induction false} LeavesAreOccurrences(x: Band, b: BandSpec)
    ensures x in Leaves(b) <==> Occurs(x, b)
    decreases b, 1
  {
    match b
    case Range(y) =>
    case Nested(items) =>
      LeavesOfAreOccurrences(x, items);
  }

  lemma {:induction false} LeavesOfAreOccurrences(x: Band, items: seq<BandSpec>)
    ensures x in LeavesOf(items) <==> exists i :: 0 <= i < |items| && Occurs(x, items[i])
    decreases items, 0
  {
    if items != [] {
      LeavesAreOccurrences(x, items[0]);
      LeavesOfAreOccurrences(x, items[1..]);
      if x in LeavesOf(items[1..]) {
        var i :| 0 <= i < |items[1..]| && Occurs(x, items[1..][i]);
        assert Occurs(x, items[i + 1]);
      }
      if exists i :: 0 <= i < |items| && Occurs(x, items[i]) {
        var i :| 0 <= i < |items| && Occurs(x, items[i]);
        if i > 0 {
          assert Occurs(x, items[1..][i - 1]);
        }
      }
    }
  }

  /** A plain list of bands flattens to itself, in order. */
  lemma {:induction false} FlatListLeaves(bands: seq<Band>)
    ensures LeavesOf(seq(|bands|, i requires 0 <= i < |bands| => Range(bands[i]))) == bands
  {
    if bands != [] {
      var items := seq(|bands|, i requires 0 <= i < |bands| => Range(bands[i]));
      assert items[1..] == seq(|bands[1..]|, i requires 0 <= i < |bands[1..]| => Range(bands[1..][i]));
      FlatListLeaves(bands[1..]);
    }
  }

  /** `_flatten_bands(b, lst)`: appends the leaves of `b` to the list `lst`. */
  method FlattenBands(b: BandSpec, lst: seq<Band>) returns (out: seq<Band>)
    ensures out == lst + Leaves(b)
    decreases b
  {
    match b
    case Range(x) =>
      out := lst + [x];
    case Nested(items) =>
      out := lst;
      for k := 0 to |items|
        invariant out == lst + LeavesOf(items[..k])
      {
        assert items[..k + 1] == items[..k] + [items[k]];
        LeavesOfSnoc(items[..k], items[k]);
        out := FlattenBands(items[k], out);
      }
      assert items[..|items|] == items;
  }

  /** The flattened band list, or `None` when no bands were given. */
  function BandList(bands: Option<BandSpec>): Option<seq<Band>> {
    if bands.None? then None else Some(Leaves(bands.value))
  }

  // ---------------------------------------------------------------------
  // Per-row checks

  /** `lf <= frequency <= hf` with the band edges scaled from MHz to Hz. */
  predicate InBand(b: Band, frequency: int) {
    b.low * 1000000.0 <= frequency as real <= b.high * 1000000.0
  }

  predicate BandOk(bands: Option<seq<Band>>, frequency: int) {
    bands.None? || exists i :: 0 <= i < |bands.value| && InBand(bands.value[i], frequency)
  }

  /** Outcome of checking one row: kept, skipped by `continue`, or an
      exception that ends the search. */
  datatype Verdict = Pass | Skip | Fault

  /** The mode check. An empty pattern list keeps nothing; a NULL mode makes
      the first `re.search` raise `TypeError`. */
  function ModeVerdict(modes: Option<seq<string>>, mode: Option<string>, matches: Matcher): Verdict {
    if modes.None? then Pass
    else if modes.value == [] then Skip
    else if mode.None? then Fault
    else if exists i :: 0 <= i < |modes.value| && matches(modes.value[i], mode.value) then Pass
    else Skip
  }

  /** The loop over mode patterns, stopping at the first match. */
  method CheckMode(patterns: seq<string>, mode: Option<string>, matches: Matcher) returns (v: Verdict)
    ensures v == Fault <==> patterns != [] && mode.None?
    ensures v == Pass <==> mode.Some? && exists i :: 0 <= i < |patterns| && matches(patterns[i], mode.value)
    ensures v == ModeVerdict(Some(patterns), mode, matches)
  {
    var found := false;
    var k := 0;
    while k < |patterns|
      invariant 0 <= k <= |patterns|
      invariant !found
      invariant mode.Some? || k == 0
      invariant forall j :: 0 <= j < k ==> !matches(patterns[j], mode.value)
    {
      if mode.None? {
        return Fault;
      }
      if matches(patterns[k], mode.value) {
        found := true;
        break;
      }
      k := k + 1;
    }
    v := if found then Pass else Skip;
  }

  /** The loop over bands, stopping at the first band holding the frequency. */
  method CheckBand(bands: seq<Band>, frequency: int) returns (found: bool)
    ensures found <==> exists i :: 0 <= i < |bands| && InBand(bands[i], frequency)
  {
    found := false;
    var k := 0;
    while k < |bands|
      invariant 0 <= k <= |bands|
      invariant !found
      invariant forall j :: 0 <= j < k ==> !InBand(bands[j], frequency)
    {
      var lf := bands[k].low * 1000000.0;
      var hf := bands[k].high * 1000000.0;
      if lf <= frequency as real && frequency as real <= hf {
        found := true;
        break;
      }
      k := k + 1;
    }
  }

  /** What one search applies to every fetched row: the origin distances are
      measured from, the distance cut-off, and the two filters. */
  datatype Screening = Screening(
    origin: Option<Coord>,
    cutoff: Option<real>,
    modes: Option<seq<string>>,
    bands: Option<seq<Band>>)

  /** The `Repeater` built from a row: its distance is measured only when
      there is an origin. */
  function Annotate(row: Record, origin: Option<Coord>, dist: Metric): Repeater {
    Repeater(row, if origin.None? then None else Some(dist(origin.value, (row.latitude, row.longitude))))
  }

  function AnnotateAll(rows: seq<Record>, origin: Option<Coord>, dist: Metric): (reps: seq<Repeater>)
    ensures |reps| == |rows|
  {
    seq(|rows|, i requires 0 <= i < |rows| => Annotate(rows[i], origin, dist))
  }

  /** The checks in source order: distance, then mode, then band. */
  function Screen(rep: Repeater, sc: Screening, matches: Matcher): Verdict {
    if sc.cutoff.Some? && rep.distance.Some? && rep.distance.value > sc.cutoff.value then Skip
    else
      match ModeVerdict(sc.modes, rep.row.mode, matches)
      case Fault => Fault
      case Skip => Skip
      case Pass => if BandOk(sc.bands, rep.row.frequency) then Pass else Skip
  }

  function Passes(sc: Screening, matches: Matcher): Repeater -> bool {
    rep => Screen(rep, sc, matches) == Pass
  }

  /** The list the fetch loop builds, or `None` if a check raised. */
  function Survivors(rows: seq<Record>, sc: Screening, dist: Metric, matches: Matcher): Option<seq<Repeater>>
    decreases |rows|
  {
    if rows == [] then Some([])
    else
      match Survivors(rows[..|rows| - 1], sc, dist, matches)
      case None => None
      case Some(kept) =>
        var rep := Annotate(rows[|rows| - 1], sc.origin, dist);
        match Screen(rep, sc, matches)
        case Fault => None
        case Skip => Some(kept)
        case Pass => Some(kept + [rep])
  }

  /** Once a check has raised, later rows cannot undo it. */
  lemma {:induction false} FaultPersists(rows: seq<Record>, i: nat, sc: Screening, dist: Metric, matches: Matcher)
    requires i <= |rows|
    requires Survivors(rows[..i], sc, dist, matches).None?
    ensures Survivors(rows, sc, dist, matches).None?
    decreases |rows| - i
  {
    if i < |rows| {
      assert rows[..i + 1][..i] == rows[..i];
      FaultPersists(rows, i + 1, sc, dist, matches);
    } else {
      assert rows[..i] == rows;
    }
  }

  /** The search fails exactly when some fetched row makes a check raise. */
  lemma {:induction false} SurvivorsFailIff(rows: seq<Record>, sc: Screening, dist: Metric, matches: Matcher)
    ensures Survivors(rows, sc, dist, matches).None?
        <==> exists i :: 0 <= i < |rows| && Screen(Annotate(rows[i], sc.origin, dist), sc, matches) == Fault
    decreases |rows|
  {
    if rows != [] {
      var init := rows[..|rows| - 1];
      SurvivorsFailIff(init, sc, dist, matches);
      if exists i :: 0 <= i < |init| && Screen(Annotate(init[i], sc.origin, dist), sc, matches) == Fault {
        var i :| 0 <= i < |init| && Screen(Annotate(init[i], sc.origin, dist), sc, matches) == Fault;
        assert rows[i] == init[i];
      }
      if exists i :: 0 <= i < |rows| && Screen(Annotate(rows[i], sc.origin, dist), sc, matches) == Fault {
        var i :| 0 <= i < |rows| && Screen(Annotate(rows[i], sc.origin, dist), sc, matches) == Fault;
        if i < |init| {
          assert init[i] == rows[i];
        }
      }
    }
  }

  /** Without a failure the result is the annotated rows that pass every
      check, in fetch order. */
  lemma {:induction false} SurvivorsAreFiltered(rows: seq<Record>, sc: Screening, dist: Metric, matches: Matcher)
    requires Survivors(rows, sc, dist, matches).Some?
    ensures Survivors(rows, sc, dist, matches).value == Filter(AnnotateAll(rows, sc.origin, dist), Passes(sc, matches))
    decreases |rows|
  {
    if rows != [] {
      var init := rows[..|rows| - 1];
      var last := Annotate(rows[|rows| - 1], sc.origin, dist);
      SurvivorsAreFiltered(init, sc, dist, matches);
      assert AnnotateAll(rows, sc.origin, dist) == AnnotateAll(init, sc.origin, dist) + [last];
      FilterSnoc(AnnotateAll(init, sc.origin, dist), last, Passes(sc, matches));
    }
  }

  /** The `for row in rows` loop: build each `Repeater`, `continue` past
      rows failing a check, append the rest. `None` when a check raised. */
  method Scan(rows: seq<Record>, sc: Screening, dist: Metric, matches: Matcher) returns (out: Option<seq<Repeater>>)
    ensures out == Survivors(rows, sc, dist, matches)
    ensures out.Some? ==> forall i :: 0 <= i < |out.value| ==> Screen(out.value[i], sc, matches) == Pass
  {
    var results: seq<Repeater> := [];
    for i := 0 to |rows|
      invariant Survivors(rows[..i], sc, dist, matches) == Some(results)
      invariant forall j :: 0 <= j < |results| ==> Screen(results[j], sc, matches) == Pass
    {
      assert rows[..i + 1][..i] == rows[..i];
      var record := Annotate(rows[i], sc.origin, dist);
      if sc.cutoff.Some? && record.distance.Some? && record.distance.value > sc.cutoff.value {
        continue;
      }
      if sc.modes.Some? {
        var v := CheckMode(sc.modes.value, record.row.mode, matches);
        if v == Fault {
          FaultPersists(rows, i + 1, sc, dist, matches);
          return None;
        }
        if v == Skip {
          continue;
        }
      }
      if sc.bands.Some? {
        var found := CheckBand(sc.bands.value, record.row.frequency);
        if !found {
          continue;
        }
      }
      results := results + [record];
    }
    assert rows[..|rows|] == rows;
    out := Some(results);
  }
}
