/** Building the repeater table from the parsed JSON file
    (`tools/parse_repeaters/create_db.py`): every record is normalised,
    bound to the sixteen parameters of one `INSERT`, and inserted in turn
    into a table whose primary key is `id`; the transaction is committed once,
    after the last record, so a failing record leaves nothing committed. */
module Ingest {
  import opened Wrappers
  import opened PyText

  /** A value of the parsed JSON file, as `json.loads` hands it over. */
  datatype Json =
    | JNull
    | JBool(b: bool)
    | JInt(i: int)
    | JReal(r: real)
    | JText(s: string)
    | JArray(items: seq<Json>)
    | JObject(fields: map<string, Json>)

  /** One element of the top-level JSON list: a dictionary, seen through the
      keys the script reads (`Key` gives each one's spelling); other keys
      are never looked at. */
  type JsonRecord = map<Field, Json>

  /** A value as SQLite stores it. */
  datatype SqlValue = SqlNull | SqlInt(n: int) | SqlReal(x: real) | SqlText(t: string)

  // ---------------------------------------------------------------------
  // _strip and _upper

  /** `_strip(s)`: `None` stays `None`, text loses its surrounding
      whitespace; any other value has no `strip` method (`None` here,
      an `AttributeError` in the script). */
  function StripValue(v: Json): Option<Json>
  {
    match v
    case JNull => Some(JNull)
    case JText(s) => Some(JText(Strip(s)))
    case _ => None
  }

  /** `_upper(s)`: like `_strip`, then upper-cased. */
  function UpperValue(v: Json): Option<Json>
  {
    match v
    case JNull => Some(JNull)
    case JText(s) => Some(JText(Upper(Strip(s))))
    case _ => None
  }

  /** `_strip` and `_upper` accept exactly `None` and text, and map `None`
      to `None`. */
  lemma NoneStaysNone(v: Json)
    ensures StripValue(v).Some? <==> v.JNull? || v.JText?
    ensures UpperValue(v).Some? <==> v.JNull? || v.JText?
    ensures v.JNull? ==> StripValue(v) == Some(JNull) && UpperValue(v) == Some(JNull)
    ensures v.JText? ==> StripValue(v).value.JText? && UpperValue(v).value.JText?
  {
  }

  /** What `_strip` keeps of a text: the text with its leading and trailing
      whitespace cut off, and nothing else removed. */
  lemma StripKeepsInner(s: string)
    ensures StripValue(JText(s)).value.JText?
    ensures var t := StripValue(JText(s)).value.s;
      && Trimmed(t)
      && exists k :: 0 <= k <= |s| - |t| && t == s[k..k + |t|] && AllSpace(s[..k]) && AllSpace(s[k + |t|..])
  {
    StripIsInfix(s);
  }

  /** `_upper` returns trimmed text without a lower-case letter, of the same
      length as the stripped input, which it equals up to letter case. */
  lemma UpperShape(s: string)
    ensures UpperValue(JText(s)).value.JText?
    ensures var u := UpperValue(JText(s)).value.s;
      && Trimmed(u)
      && |u| == |Strip(s)|
      && (forall i :: 0 <= i < |u| ==> !IsLowerAscii(u[i]) && SameLetter(u[i], Strip(s)[i]))
  {
    UpperKeepsTrimmed(Strip(s));
    UpperSameLetters(Strip(s));
    UpperLetters(Strip(s));
  }

  /** `_upper` is idempotent: normalising a normalised value changes nothing. */
  lemma UpperIdempotentValue(v: Json)
    requires UpperValue(v).Some?
    ensures UpperValue(UpperValue(v).value) == UpperValue(v)
  {
    if v.JText? {
      var t := Strip(v.s);
      StripUpperCommute(t);
      StripIdempotent(v.s);
      UpperIdempotent(t);
      calc {
        Upper(Strip(Upper(t)));
        Upper(Upper(Strip(t)));
        Upper(Upper(t));
        Upper(t);
      }
    }
  }

  /** `_strip` is idempotent too. */
  lemma StripIdempotentValue(v: Json)
    requires StripValue(v).Some?
    ensures StripValue(StripValue(v).value) == StripValue(v)
  {
    if v.JText? {
      StripIdempotent(v.s);
    }
  }

  // ---------------------------------------------------------------------
  // The parameters of the INSERT statement

  /** How a JSON field becomes a parameter. */
  datatype Conversion = AsIs | Stripped | Uppercased

  /** The fields of a record, in the order of the parameter tuple. */
  datatype Field =
    | Id | Callsign | Latitude | Longitude | City | Group | InternetNode | Mode
    | Encode | Decode | Frequency | Offset | Description | Power | Operational | Restriction

  /** The JSON key a field is read from. */
  function Key(f: Field): string {
    match f
    case Id => "id"
    case Callsign => "callsign"
    case Latitude => "latitude"
    case Longitude => "longitude"
    case City => "city"
    case Group => "group"
    case InternetNode => "internet_node"
    case Mode => "mode"
    case Encode => "encode"
    case Decode => "decode"
    case Frequency => "frequency"
    case Offset => "offset"
    case Description => "description"
    case Power => "power"
    case Operational => "operational"
    case Restriction => "restriction"
  }

  /** The conversion `insert_repeater_record` applies to a field: `_upper`
      for `callsign`, `group` and `mode`, `_strip` for the other text
      fields, none for the key, coordinates, frequencies and flag. */
  function ConversionOf(f: Field): Conversion {
    match f
    case Callsign | Group | Mode => Uppercased
    case Id | Latitude | Longitude | Frequency | Offset | Operational => AsIs
    case _ => Stripped
  }

  /** The number of parameters (and of columns). */
  const Arity: nat := 16

  /** The field at position `k` of the parameter tuple. */
  function FieldAt(k: nat): Field
    requires k < Arity
  {
    match k
    case 0 => Id
    case 1 => Callsign
    case 2 => Latitude
    case 3 => Longitude
    case 4 => City
    case 5 => Group
    case 6 => InternetNode
    case 7 => Mode
    case 8 => Encode
    case 9 => Decode
    case 10 => Frequency
    case 11 => Offset
    case 12 => Description
    case 13 => Power
    case 14 => Operational
    case _ => Restriction
  }

  /** A row of the table: one value per column. */
  type Row = r: seq<SqlValue> | |r| == Arity witness seq(Arity, _ => SqlNull)

  /** Why inserting a record failed. */
  datatype IngestError =
    | MissingKey(key: string)       // KeyError while building the tuple
    | NoStrip(key: string)          // AttributeError: `strip` on a value that is not text
    | Unbindable(position: nat)     // sqlite3 cannot bind the 1-based parameter
    | DuplicateId(id: SqlValue)     // IntegrityError: the primary key is taken

  function Convert(v: Json, c: Conversion): Option<Json> {
    match c
    case AsIs => Some(v)
    case Stripped => StripValue(v)
    case Uppercased => UpperValue(v)
  }

  /** Element `k` of the parameter tuple: the record's field, converted,
      or the `KeyError` or `AttributeError` computing it raises. */
  function Item(record: JsonRecord, k: nat): Result<Json, IngestError>
    requires k < Arity
  {
    var f := FieldAt(k);
    if f !in record then Err(MissingKey(Key(f)))
    else match Convert(record[f], ConversionOf(f))
      case None => Err(NoStrip(Key(f)))
      case Some(v) => Ok(v)
  }

  /** The elements of the parameter tuple. */
  function Items(record: JsonRecord): seq<Result<Json, IngestError>> {
    seq(Arity, k requires 0 <= k < Arity => Item(record, k))
  }

  /** Python builds a tuple left to right: from position `k` on, the values,
      or the first error. */
  function Collect<T>(items: seq<Result<T, IngestError>>, k: nat): (r: Result<seq<T>, IngestError>)
    requires k <= |items|
    ensures r.Ok? ==> |r.value| == |items| - k
    decreases |items| - k
  {
    if k == |items| then Ok([])
    else match items[k]
      case Err(e) => Err(e)
      case Ok(v) =>
        match Collect(items, k + 1)
        case Err(e) => Err(e)
        case Ok(vs) => Ok([v] + vs)
  }

  /** The largest and smallest integers SQLite stores. */
  const MinInt64: int := -0x8000_0000_0000_0000
  const MaxInt64: int := 0x7FFF_FFFF_FFFF_FFFF

  /** Binding one Python value: `bool` is bound as the integer 0 or 1, and
      integers outside 64 bits, lists and dictionaries cannot be bound. */
  function Bind(v: Json): (r: Option<SqlValue>)
    ensures r.Some? <==> !(v.JArray? || v.JObject? || (v.JInt? && !(MinInt64 <= v.i <= MaxInt64)))
  {
    match v
    case JNull => Some(SqlNull)
    case JBool(b) => Some(SqlInt(if b then 1 else 0))
    case JInt(i) => if MinInt64 <= i <= MaxInt64 then Some(SqlInt(i)) else None
    case JReal(x) => Some(SqlReal(x))
    case JText(s) => Some(SqlText(s))
    case _ => None
  }

  /** Binds the parameters from position `k` (0-based) on, in order; the
      first one SQLite cannot bind ends it. */
  function BindFrom(vs: seq<Json>, k: nat): (r: Result<seq<SqlValue>, IngestError>)
    requires k <= |vs|
    ensures r.Ok? ==> |r.value| == |vs| - k
    decreases |vs| - k
  {
    if k == |vs| then Ok([])
    else match Bind(vs[k])
      case None => Err(Unbindable(k + 1))
      case Some(x) =>
        match BindFrom(vs, k + 1)
        case Err(e) => Err(e)
        case Ok(xs) => Ok([x] + xs)
  }

  /** The row `insert_repeater_record` hands to SQLite for a record, or why
      it fails before the table is consulted. */
  function Prepare(record: JsonRecord): Result<Row, IngestError> {
    match Collect(Items(record), 0)
    case Err(e) => Err(e)
    case Ok(vs) =>
      match BindFrom(vs, 0)
      case Err(e) => Err(e)
      case Ok(row) => Ok(row)
  }

  /** The primary key's column. */
  function IdOf(row: Row): SqlValue {
    row[0]
  }

  /** Two keys clash: SQLite compares numbers by value whatever their
      storage class, texts by their characters, and never equates a NULL
      with anything (an `INT PRIMARY KEY` column accepts several NULLs). */
  predicate SameKey(a: SqlValue, b: SqlValue) {
    match (a, b)
    case (SqlInt(m), SqlInt(n)) => m == n
    case (SqlInt(m), SqlReal(y)) => m as real == y
    case (SqlReal(x), SqlInt(n)) => x == n as real
    case (SqlReal(x), SqlReal(y)) => x == y
    case (SqlText(s), SqlText(t)) => s == t
    case _ => false
  }

  predicate KeyTaken(table: seq<Row>, id: SqlValue) {
    exists k :: 0 <= k < |table| && SameKey(IdOf(table[k]), id)
  }

  /** Inserting a prepared row (or the error that preparing it raised)
      into the table: the primary key must be free. */
  function Append(table: seq<Row>, prepared: Result<Row, IngestError>): Result<seq<Row>, IngestError> {
    match prepared
    case Err(e) => Err(e)
    case Ok(row) => if KeyTaken(table, IdOf(row)) then Err(DuplicateId(IdOf(row))) else Ok(table + [row])
  }

  /** `insert_repeater_record` on a table: the new table, or the error. */
  function InsertInto(table: seq<Row>, record: JsonRecord): Result<seq<Row>, IngestError> {
    Append(table, Prepare(record))
  }

  /** The insert loop over the prepared rows: the table it leaves, or the
      first error. */
  function Run(prepared: seq<Result<Row, IngestError>>): Result<seq<Row>, IngestError>
    decreases |prepared|
  {
    if prepared == [] then Ok([])
    else match Run(prepared[..|prepared| - 1])
      case Err(e) => Err(e)
      case Ok(table) => Append(table, prepared[|prepared| - 1])
  }

  /** What `insert_repeater_record` prepares for each record. */
  function Prepared(records: seq<JsonRecord>): seq<Result<Row, IngestError>> {
    seq(|records|, i requires 0 <= i < |records| => Prepare(records[i]))
  }

  /** The insert loop over the records. */
  function Build(records: seq<JsonRecord>): Result<seq<Row>, IngestError> {
    Run(Prepared(records))
  }

  // ---------------------------------------------------------------------
  // The database connection

  /** The SQLite connection: `rows` is the table as the connection sees it,
      including inserts not yet committed; `saved` is what the file holds. */
  class Database {
    var rows: seq<Row>
    var saved: seq<Row>

    /** A freshly created, empty table. */
    constructor()
      ensures rows == [] && saved == []
    {
      rows := [];
      saved := [];
    }

    /** `cursor.execute(insert_query, ...)` for one record: the statement
        searches the primary key and appends the row, or fails and leaves
        the table as it was. */
    method Insert(record: JsonRecord) returns (err: Option<IngestError>)
      modifies this
      ensures saved == old(saved)
      ensures InsertInto(old(rows), record).Ok? <==> err.None?
      ensures err.None? ==> rows == InsertInto(old(rows), record).value
      ensures err.Some? ==> rows == old(rows) && err.value == InsertInto(old(rows), record).error
    {
      var prepared := Prepare(record);
      if prepared.Err? {
        return Some(prepared.error);
      }
      var id := IdOf(prepared.value);
      var taken := Lookup(rows, id);
      if taken {
        return Some(DuplicateId(id));
      }
      rows := rows + [prepared.value];
      return None;
    }

    /** `conn.commit()`. */
    method Commit()
      modifies this
      ensures rows == old(rows) && saved == rows
    {
      saved := rows;
    }
  }

  /** The primary-key search: whether some row of `table` holds `id`. */
  method Lookup(table: seq<Row>, id: SqlValue) returns (taken: bool)
    ensures taken == KeyTaken(table, id)
  {
    var k := 0;
    while k < |table|
      invariant 0 <= k <= |table|
      invariant forall j :: 0 <= j < k ==> !SameKey(IdOf(table[j]), id)
    {
      if SameKey(IdOf(table[k]), id) {
        return true;
      }
      k := k + 1;
    }
    return false;
  }

  /** The script: create the table, insert every record in order, then
      commit once. The first failing record ends the script before the
      commit, so the file holds an empty table. */
  method Ingest(records: seq<JsonRecord>) returns (db: Database, err: Option<IngestError>)
    ensures fresh(db)
    ensures Build(records).Ok? <==> err.None?
    ensures err.None? ==> db.saved == Build(records).value
    ensures err.Some? ==> err.value == Build(records).error && db.saved == []
  {
    db := new Database();
    var i := 0;
    while i < |records|
      invariant 0 <= i <= |records|
      invariant Build(records[..i]) == Ok(db.rows) && db.saved == []
    {
      BuildStep(records, i);
      err := db.Insert(records[i]);
      if err.Some? {
        BuildStops(records, i + 1, err.value);
        return;
      }
      i := i + 1;
    }
    assert records[..i] == records;
    db.Commit();
    err := None;
  }

  /** Preparing a prefix of the records prepares a prefix of the rows. */
  lemma PreparedPrefix(records: seq<JsonRecord>, n: nat)
    requires n <= |records|
    ensures Prepared(records[..n]) == Prepared(records)[..n]
  {
  }

  /** One more record: the run so far, continued by that record's insert. */
  lemma BuildStep(records: seq<JsonRecord>, i: nat)
    requires i < |records|
    ensures Build(records[..i + 1]) ==
      match Build(records[..i])
      case Err(e) => Err(e)
      case Ok(table) => InsertInto(table, records[i])
  {
    var ps := Prepared(records[..i + 1]);
    PreparedPrefix(records, i + 1);
    PreparedPrefix(records, i);
    assert ps[..i] == Prepared(records[..i]);
  }

  /** Once a prefix of the rows fails, the whole run fails the same way. */
  lemma {:induction false} RunStops(ps: seq<Result<Row, IngestError>>, n: nat, e: IngestError)
    requires n <= |ps| && Run(ps[..n]) == Err(e)
    ensures Run(ps) == Err(e)
    decreases |ps| - n
  {
    if n == |ps| {
      assert ps[..n] == ps;
    } else {
      assert ps[..n + 1][..n] == ps[..n];
      RunStops(ps, n + 1, e);
    }
  }

  /** Once a prefix of the records fails, the whole run fails the same way. */
  lemma BuildStops(records: seq<JsonRecord>, n: nat, e: IngestError)
    requires n <= |records| && Build(records[..n]) == Err(e)
    ensures Build(records) == Err(e)
  {
    PreparedPrefix(records, n);
    RunStops(Prepared(records), n, e);
  }

  /** A successful run holds every prepared row, in order. */
  lemma {:induction false} RunRows(ps: seq<Result<Row, IngestError>>)
    requires Run(ps).Ok?
    ensures |Run(ps).value| == |ps|
    ensures forall i :: 0 <= i < |ps| ==> ps[i].Ok? && Run(ps).value[i] == ps[i].value
    decreases |ps|
  {
    if ps != [] {
      var init := ps[..|ps| - 1];
      RunRows(init);
      forall i | 0 <= i < |ps| - 1 ensures ps[i].Ok? && Run(ps).value[i] == ps[i].value {
        assert init[i] == ps[i];
      }
    }
  }

  // ---------------------------------------------------------------------
  // Properties of the run

  /** A successful run inserts exactly one row per record, in input order,
      each the row `insert_repeater_record` prepares for it. */
  lemma OneRowPerRecord(records: seq<JsonRecord>)
    requires Build(records).Ok?
    ensures |Build(records).value| == |records|
    ensures forall i :: 0 <= i < |records| ==> Prepare(records[i]).Ok? && Build(records).value[i] == Prepare(records[i]).value
  {
    var ps := Prepared(records);
    RunRows(ps);
    forall i | 0 <= i < |records|
      ensures Prepare(records[i]).Ok? && Build(records).value[i] == Prepare(records[i]).value
    {
      assert ps[i] == Prepare(records[i]);
    }
  }

  /** Two records that prepare to the same non-NULL key cannot both be
      inserted: the run fails. */
  lemma DuplicateIdFails(records: seq<JsonRecord>, i: nat, j: nat)
    requires i < j < |records|
    requires Prepare(records[i]).Ok? && Prepare(records[j]).Ok?
    requires SameKey(IdOf(Prepare(records[i]).value), IdOf(Prepare(records[j]).value))
    ensures Build(records).Err?
  {
    var ps := Prepared(records);
    assert ps[i] == Prepare(records[i]) && ps[j] == Prepare(records[j]);
    RunDuplicate(ps, i, j);
  }

  lemma RunDuplicate(ps: seq<Result<Row, IngestError>>, i: nat, j: nat)
    requires i < j < |ps| && ps[i].Ok? && ps[j].Ok?
    requires SameKey(IdOf(ps[i].value), IdOf(ps[j].value))
    ensures Run(ps).Err?
  {
    var b := ps[..j + 1];
    assert b[..j] == ps[..j];
    if Run(ps[..j]).Ok? {
      var table := Run(ps[..j]).value;
      RunRows(ps[..j]);
      assert ps[..j][i] == ps[i];
      assert KeyTaken(table, IdOf(ps[j].value));
      assert Run(b) == Err(DuplicateId(IdOf(ps[j].value)));
    }
    RunStops(ps, j + 1, Run(b).error);
  }

  /** A record whose key is NULL never clashes, whatever the table holds. */
  lemma NullIdNeverClashes(table: seq<Row>, record: JsonRecord)
    requires Prepare(record).Ok? && IdOf(Prepare(record).value) == SqlNull
    ensures InsertInto(table, record) == Ok(table + [Prepare(record).value])
  {
  }

  /** A record without one of the keys the statement reads fails the run,
      so nothing is committed. */
  lemma MissingKeyAborts(records: seq<JsonRecord>, i: nat, f: Field)
    requires i < |records| && f !in records[i]
    ensures Build(records).Err?
  {
    var items := Items(records[i]);
    assert items[PositionOf(f)] == Item(records[i], PositionOf(f));
    CollectFails(items, 0, PositionOf(f));
    if Build(records).Ok? {
      OneRowPerRecord(records);
    }
  }

  /** A failing element makes the whole tuple fail. */
  lemma {:induction false} CollectFails<T>(items: seq<Result<T, IngestError>>, k: nat, p: nat)
    requires k <= p < |items| && items[p].Err?
    ensures Collect(items, k).Err?
    decreases p - k
  {
    if k < p {
      CollectFails(items, k + 1, p);
    }
  }

  /** A tuple that builds holds every element's value in place. */
  lemma {:induction false} CollectAt<T>(items: seq<Result<T, IngestError>>, k: nat, i: nat)
    requires k <= i < |items| && Collect(items, k).Ok?
    ensures items[i] == Ok(Collect(items, k).value[i - k])
    decreases i - k
  {
    if k < i {
      CollectAt(items, k + 1, i);
    }
  }

  /** Binding at one position. */
  lemma {:induction false} BindAt(vs: seq<Json>, k: nat, i: nat)
    requires k <= i < |vs| && BindFrom(vs, k).Ok?
    ensures Bind(vs[i]) == Some(BindFrom(vs, k).value[i - k])
    decreases i - k
  {
    if k < i {
      BindAt(vs, k + 1, i);
    }
  }

  /** Column by column, a prepared row holds the record's value as it is
      (`id`, `latitude`, `longitude`, `frequency`, `offset`, `operational`),
      stripped (`city`, `internet_node`, `encode`, `decode`, `description`,
      `power`, `restriction`) or stripped and upper-cased (`callsign`,
      `group` into `category`, `mode`), bound as SQLite stores it. */
  lemma FieldMapping(record: JsonRecord)
    requires Prepare(record).Ok?
    ensures forall i :: 0 <= i < Arity ==>
      var f := FieldAt(i);
      && f in record
      && Convert(record[f], ConversionOf(f)).Some?
      && Bind(Convert(record[f], ConversionOf(f)).value) == Some(Prepare(record).value[i])
  {
    var items := Items(record);
    var vs := Collect(items, 0).value;
    forall i | 0 <= i < Arity
      ensures var f := FieldAt(i);
        && f in record
        && Convert(record[f], ConversionOf(f)).Some?
        && Bind(Convert(record[f], ConversionOf(f)).value) == Some(Prepare(record).value[i])
    {
      assert items[i] == Item(record, i);
      CollectAt(items, 0, i);
      BindAt(vs, 0, i);
    }
  }

  /** The normalised columns: `callsign`, `category` and `mode` hold NULL or
      trimmed text with no lower-case letter; the other text columns NULL
      or trimmed text. */
  lemma NormalisedColumns(record: JsonRecord)
    requires Prepare(record).Ok?
    ensures forall i :: 0 <= i < Arity && ConversionOf(FieldAt(i)) != AsIs ==>
      Normalised(Prepare(record).value[i], ConversionOf(FieldAt(i)) == Uppercased)
  {
    FieldMapping(record);
    var row := Prepare(record).value;
    forall i | 0 <= i < Arity && ConversionOf(FieldAt(i)) != AsIs
      ensures Normalised(row[i], ConversionOf(FieldAt(i)) == Uppercased)
    {
      var v := record[FieldAt(i)];
      if v.JText? {
        StripKeepsInner(v.s);
        UpperShape(v.s);
      }
    }
  }

  /** NULL, or trimmed text, upper-case when `upper`. */
  predicate Normalised(x: SqlValue, upper: bool) {
    || x == SqlNull
    || (x.SqlText? && Trimmed(x.t) && (upper ==> forall k :: 0 <= k < |x.t| ==> !IsLowerAscii(x.t[k])))
  }

  /** Where a field sits in the parameter tuple. */
  function PositionOf(f: Field): (k: nat)
    ensures k < Arity && FieldAt(k) == f
  {
    match f
    case Id => 0 case Callsign => 1 case Latitude => 2 case Longitude => 3
    case City => 4 case Group => 5 case InternetNode => 6 case Mode => 7
    case Encode => 8 case Decode => 9 case Frequency => 10 case Offset => 11
    case Description => 12 case Power => 13 case Operational => 14 case Restriction => 15
  }

  /** Every field is bound exactly once: positions and fields correspond
      one to one. */
  lemma EachFieldOnce()
    ensures forall i :: 0 <= i < Arity ==> PositionOf(FieldAt(i)) == i
  {
    forall i | 0 <= i < Arity ensures PositionOf(FieldAt(i)) == i {
    }
  }
}
