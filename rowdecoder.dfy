/**
 * The `process_rows!` normaliser: every cell of a fetched row becomes a JSON
 * value chosen by an exact, case-sensitive match on the engine-reported type
 * name; a typed read that fails degrades to `null`.
 *
 * A cell is modelled by the outcomes of the typed reads the driver would
 * perform on it (`try_get::<T>` succeeded with a value, or failed).
 */
module RowDecoder {

  import opened Outcomes
  import opened Text
  import opened Json
  import opened Models

  // ---------------------------------------------------------------------
  // Calendar values and their `format` renderings

  type I64 = i: int | I64Min <= i <= I64Max

  datatype NaiveDate = NaiveDate(year: int, month: int, day: int)
  /**
   * A time of day to the nanosecond. As in chrono, `nano` may reach past one
   * second (up to 1_999_999_999) to represent a leap second.
   */
  datatype NaiveTime = NaiveTime(hour: int, minute: int, second: int, nano: int)
  datatype NaiveDateTime = NaiveDateTime(date: NaiveDate, time: NaiveTime)

  /** Dates whose year `%Y` renders as four digits without a sign. */
  predicate ValidDate(d: NaiveDate)
  {
    0 <= d.year <= 9999 && 1 <= d.month <= 12 && 1 <= d.day <= 31
  }

  predicate ValidTime(t: NaiveTime)
  {
    0 <= t.hour < 24 && 0 <= t.minute < 60 && 0 <= t.second < 60 &&
    0 <= t.nano < 2 * NanosPerSecond
  }

  const NanosPerSecond: int := 1_000_000_000

  type Date = d: NaiveDate | ValidDate(d) witness NaiveDate(1970, 1, 1)
  type Time = t: NaiveTime | ValidTime(t) witness NaiveTime(0, 0, 0, 0)
  type DateTime = dt: NaiveDateTime | ValidDate(dt.date) && ValidTime(dt.time)
    witness NaiveDateTime(NaiveDate(1970, 1, 1), NaiveTime(0, 0, 0, 0))

  function Pad2(n: nat): (s: string)
    requires n < 100
    ensures |s| == 2
  {
    [DigitChar(n / 10), DigitChar(n % 10)]
  }

  function Pad4(n: nat): (s: string)
    requires n < 10000
    ensures |s| == 4
  {
    Pad2(n / 100) + Pad2(n % 100)
  }

  /** `%Y-%m-%d`. */
  function FormatDate(d: Date): (s: string)
    ensures |s| == 10
  {
    Pad4(d.year) + "-" + Pad2(d.month) + "-" + Pad2(d.day)
  }

  /**
   * The second `%S` shows: the whole second plus the whole seconds held in
   * `nano`, so the fraction is dropped and a leap second at :59 shows as 60.
   */
  function ShownSecond(t: Time): (s: nat)
    ensures s <= 60
    ensures s == t.second <==> t.nano < NanosPerSecond
  {
    t.second + t.nano / NanosPerSecond
  }

  /** The whole-second reading `%H:%M:%S` carries of a time. */
  function Clock(t: Time): NaiveTime
  {
    NaiveTime(t.hour, t.minute, ShownSecond(t), 0)
  }

  /** A timestamp cut to the whole second its text shows. */
  function WholeSeconds(dt: DateTime): NaiveDateTime
  {
    NaiveDateTime(dt.date, Clock(dt.time))
  }

  /** `%H:%M:%S`. */
  function FormatTime(t: Time): (s: string)
    ensures |s| == 8
  {
    Pad2(t.hour) + ":" + Pad2(t.minute) + ":" + Pad2(ShownSecond(t))
  }

  /** `%Y-%m-%d %H:%M:%S`. */
  function FormatDateTime(dt: DateTime): (s: string)
    ensures |s| == 19
  {
    FormatDate(dt.date) + " " + FormatTime(dt.time)
  }

  /** `%Y-%m-%d %H:%M:%S %Z` of a `DateTime<Utc>`: the zone is named `UTC`. */
  function FormatUtc(dt: DateTime): (s: string)
    ensures |s| == 23
  {
    FormatDateTime(dt) + " UTC"
  }

  // Reading the renderings back

  function Digits2(s: string, i: nat): Option<nat>
  {
    if i + 2 <= |s| && IsDigit(s[i]) && IsDigit(s[i + 1])
    then Some(DigitValue(s[i]) * 10 + DigitValue(s[i + 1]))
    else None
  }

  function Digits4(s: string, i: nat): Option<nat>
  {
    if i + 4 <= |s| && Digits2(s, i).Some? && Digits2(s, i + 2).Some?
    then Some(Digits2(s, i).value * 100 + Digits2(s, i + 2).value)
    else None
  }

  function ParseDate(s: string): Option<NaiveDate>
  {
    if |s| == 10 && s[4] == '-' && s[7] == '-'
       && Digits4(s, 0).Some? && Digits2(s, 5).Some? && Digits2(s, 8).Some?
    then Some(NaiveDate(Digits4(s, 0).value, Digits2(s, 5).value, Digits2(s, 8).value))
    else None
  }

  function ParseTime(s: string): Option<NaiveTime>
  {
    if |s| == 8 && s[2] == ':' && s[5] == ':'
       && Digits2(s, 0).Some? && Digits2(s, 3).Some? && Digits2(s, 6).Some?
    then Some(NaiveTime(Digits2(s, 0).value, Digits2(s, 3).value, Digits2(s, 6).value, 0))
    else None
  }

  function ParseDateTime(s: string): Option<NaiveDateTime>
  {
    if |s| == 19 && s[10] == ' ' && ParseDate(s[..10]).Some? && ParseTime(s[11..]).Some?
    then Some(NaiveDateTime(ParseDate(s[..10]).value, ParseTime(s[11..]).value))
    else None
  }

  function ParseUtc(s: string): Option<NaiveDateTime>
  {
    if |s| == 23 && s[19..] == " UTC" then ParseDateTime(s[..19]) else None
  }

  lemma Pad2RoundTrip(n: nat, s: string, i: nat)
    requires n < 100 && i + 2 <= |s| && s[i..i + 2] == Pad2(n)
    ensures Digits2(s, i) == Some(n)
  {
    assert s[i] == Pad2(n)[0] && s[i + 1] == Pad2(n)[1];
  }

  lemma Pad4RoundTrip(n: nat, s: string, i: nat)
    requires n < 10000 && i + 4 <= |s| && s[i..i + 4] == Pad4(n)
    ensures Digits4(s, i) == Some(n)
  {
    assert s[i..i + 2] == s[i..i + 4][..2] == Pad4(n)[..2] == Pad2(n / 100);
    assert s[i + 2..i + 4] == s[i..i + 4][2..] == Pad4(n)[2..] == Pad2(n % 100);
    Pad2RoundTrip(n / 100, s, i);
    Pad2RoundTrip(n % 100, s, i + 2);
  }

  lemma {:induction false} DateRoundTrip(d: Date)
    ensures ParseDate(FormatDate(d)) == Some(d)
  {
    var s := FormatDate(d);
    assert s[0..4] == Pad4(d.year);
    assert s[5..7] == Pad2(d.month);
    assert s[8..10] == Pad2(d.day);
    Pad4RoundTrip(d.year, s, 0);
    Pad2RoundTrip(d.month, s, 5);
    Pad2RoundTrip(d.day, s, 8);
  }

  /**
   * The time text reads back as the hour, the minute and the shown second,
   * with no fraction: exactly the time itself when it has no sub-second part.
   */
  lemma {:induction false} TimeRoundTrip(t: Time)
    ensures ParseTime(FormatTime(t)) == Some(Clock(t))
    ensures ParseTime(FormatTime(t)) == Some(t) <==> t.nano == 0
  {
    var s := FormatTime(t);
    assert s[0..2] == Pad2(t.hour);
    assert s[3..5] == Pad2(t.minute);
    assert s[6..8] == Pad2(ShownSecond(t));
    Pad2RoundTrip(t.hour, s, 0);
    Pad2RoundTrip(t.minute, s, 3);
    Pad2RoundTrip(ShownSecond(t), s, 6);
  }

  /** The timestamp text reads back as its date and the clock reading of its time. */
  lemma {:induction false} DateTimeRoundTrip(dt: DateTime)
    ensures ParseDateTime(FormatDateTime(dt)) == Some(WholeSeconds(dt))
    ensures ParseDateTime(FormatDateTime(dt)) == Some(dt) <==> dt.time.nano == 0
  {
    var s := FormatDateTime(dt);
    assert s[..10] == FormatDate(dt.date);
    assert s[11..] == FormatTime(dt.time);
    DateRoundTrip(dt.date);
    TimeRoundTrip(dt.time);
  }

  lemma {:induction false} UtcRoundTrip(dt: DateTime)
    ensures ParseUtc(FormatUtc(dt)) == Some(WholeSeconds(dt))
    ensures ParseUtc(FormatUtc(dt)) == Some(dt) <==> dt.time.nano == 0
  {
    var s := FormatUtc(dt);
    assert s[..19] == FormatDateTime(dt);
    assert s[19..] == " UTC";
    DateTimeRoundTrip(dt);
  }

  // ---------------------------------------------------------------------
  // Cells and the type-name dispatch

  /** The outcome of each typed read the driver can perform on a cell. */
  datatype Reads = Reads(
    asString: Option<string>,
    asI64: Option<I64>,
    asF64: Option<real>,
    asBool: Option<bool>,
    asNaiveDateTime: Option<DateTime>,
    asUtcDateTime: Option<DateTime>,
    asDate: Option<Date>,
    asTime: Option<Time>)

  /** One column of one fetched row: its name, reported type name and reads. */
  datatype Cell = Cell(name: string, typeName: string, read: Reads)

  /** The target JSON kind a type name selects. */
  datatype Kind =
    | TextKind | IntegerKind | FloatKind | BooleanKind
    | DateTimeKind | TimestampTzKind | DateKind | TimeKind | OtherKind

  /** Exact, case-sensitive match on the type name (no folding). */
  function KindOf(typeName: string): Kind
  {
    if typeName in ["TEXT", "VARCHAR", "CHAR", "BPCHAR"] then TextKind
    else if typeName in ["INTEGER", "INT", "BIGINT", "INT2", "INT4", "INT8"] then IntegerKind
    else if typeName in ["REAL", "FLOAT", "DOUBLE", "FLOAT4", "FLOAT8"] then FloatKind
    else if typeName in ["BOOLEAN", "BOOL"] then BooleanKind
    else if typeName in ["DATETIME", "TIMESTAMP"] then DateTimeKind
    else if typeName == "TIMESTAMPTZ" then TimestampTzKind
    else if typeName == "DATE" then DateKind
    else if typeName == "TIME" then TimeKind
    else OtherKind
  }

  /** Whether the read (or, for TIMESTAMPTZ, either read) that `kind` uses succeeds. */
  predicate Readable(kind: Kind, r: Reads)
  {
    match kind
    case TextKind => r.asString.Some?
    case IntegerKind => r.asI64.Some?
    case FloatKind => r.asF64.Some?
    case BooleanKind => r.asBool.Some?
    case DateTimeKind => r.asNaiveDateTime.Some?
    case TimestampTzKind => r.asUtcDateTime.Some? || r.asNaiveDateTime.Some?
    case DateKind => r.asDate.Some?
    case TimeKind => r.asTime.Some?
    case OtherKind => r.asString.Some?
  }

  /**
   * `v` holds the value of the read `kind` uses: the string, number or
   * boolean itself, or a text that reads back as the calendar value cut to
   * whole seconds (`Clock`). TIMESTAMPTZ prefers the zone-aware read.
   */
  predicate Denotes(v: Json, kind: Kind, r: Reads)
  {
    match kind
    case TextKind => r.asString.Some? && v == JString(r.asString.value)
    case IntegerKind => r.asI64.Some? && v == JInt(r.asI64.value)
    case FloatKind => r.asF64.Some? && v == JFloat(r.asF64.value)
    case BooleanKind => r.asBool.Some? && v == JBool(r.asBool.value)
    case DateTimeKind =>
      v.JString? && r.asNaiveDateTime.Some? && ParseDateTime(v.s) == Some(WholeSeconds(r.asNaiveDateTime.value))
    case TimestampTzKind =>
      v.JString? &&
      if r.asUtcDateTime.Some? then ParseUtc(v.s) == Some(WholeSeconds(r.asUtcDateTime.value))
      else r.asNaiveDateTime.Some? && ParseDateTime(v.s) == Some(WholeSeconds(r.asNaiveDateTime.value))
    case DateKind => v.JString? && r.asDate.Some? && ParseDate(v.s) == Some(r.asDate.value)
    case TimeKind => v.JString? && r.asTime.Some? && ParseTime(v.s) == Some(Clock(r.asTime.value))
    case OtherKind => r.asString.Some? && v == JString(r.asString.value)
  }

  /** The normalised value of one cell. */
  function DecodeCell(c: Cell): (v: Json)
    ensures v == JNull <==> !Readable(KindOf(c.typeName), c.read)
    ensures v != JNull ==> Denotes(v, KindOf(c.typeName), c.read)
  {
    var r := c.read;
    match KindOf(c.typeName)
    case TextKind => if r.asString.Some? then JString(r.asString.value) else JNull
    case IntegerKind => if r.asI64.Some? then JInt(r.asI64.value) else JNull
    case FloatKind => if r.asF64.Some? then JFloat(r.asF64.value) else JNull
    case BooleanKind => if r.asBool.Some? then JBool(r.asBool.value) else JNull
    case DateTimeKind =>
      if r.asNaiveDateTime.Some? then
        DateTimeRoundTrip(r.asNaiveDateTime.value);
        JString(FormatDateTime(r.asNaiveDateTime.value))
      else JNull
    case TimestampTzKind =>
      if r.asUtcDateTime.Some? then
        UtcRoundTrip(r.asUtcDateTime.value);
        JString(FormatUtc(r.asUtcDateTime.value))
      else if r.asNaiveDateTime.Some? then
        DateTimeRoundTrip(r.asNaiveDateTime.value);
        JString(FormatDateTime(r.asNaiveDateTime.value))
      else JNull
    case DateKind =>
      if r.asDate.Some? then
        DateRoundTrip(r.asDate.value);
        JString(FormatDate(r.asDate.value))
      else JNull
    case TimeKind =>
      if r.asTime.Some? then
        TimeRoundTrip(r.asTime.value);
        JString(FormatTime(r.asTime.value))
      else JNull
    case OtherKind => if r.asString.Some? then JString(r.asString.value) else JNull
  }

  // ---------------------------------------------------------------------
  // Rows

  /** The column names of a row, in order. */
  function Names(cells: seq<Cell>): (ns: seq<string>)
    ensures |ns| == |cells| && forall k | 0 <= k < |cells| :: ns[k] == cells[k].name
  {
    seq(|cells|, k requires 0 <= k < |cells| => cells[k].name)
  }

  /** The object built by inserting each cell's value under its name, in order. */
  function RowObject(cells: seq<Cell>): seq<Field>
  {
    if cells == [] then []
    else
      var last := cells[|cells| - 1];
      Insert(RowObject(cells[..|cells| - 1]), last.name, DecodeCell(last))
  }

  /** Index of the last cell named `key`. */
  function LastNamed(cells: seq<Cell>, key: string): (i: Option<nat>)
    ensures i.Some? ==>
      i.value < |cells| && cells[i.value].name == key &&
      forall k | i.value < k < |cells| :: cells[k].name != key
    ensures i.None? ==> forall k | 0 <= k < |cells| :: cells[k].name != key
  {
    if cells == [] then None
    else if cells[|cells| - 1].name == key then Some(|cells| - 1)
    else LastNamed(cells[..|cells| - 1], key)
  }

  /** A row object has one key per distinct column name. */
  lemma {:induction false} RowObjectKeys(cells: seq<Cell>)
    ensures DistinctKeys(RowObject(cells))
    ensures forall k :: k in Keys(RowObject(cells)) <==> k in Names(cells)
  {
    if cells != [] {
      var init := cells[..|cells| - 1];
      var last := cells[|cells| - 1];
      RowObjectKeys(init);
      InsertKeys(RowObject(init), last.name, DecodeCell(last));
      assert Names(cells) == Names(init) + [last.name];
    }
  }

  /** When column names collide, the last column wins. */
  lemma {:induction false} RowObjectLookup(cells: seq<Cell>, key: string)
    ensures Lookup(RowObject(cells), key) ==
      match LastNamed(cells, key)
      case None => None
      case Some(i) => Some(DecodeCell(cells[i]))
  {
    if cells != [] {
      var init := cells[..|cells| - 1];
      var last := cells[|cells| - 1];
      RowObjectLookup(init, key);
      InsertLookup(RowObject(init), last.name, DecodeCell(last), key);
    }
  }

  /** `process_rows!`. */
  function ProcessRows(rows: seq<seq<Cell>>): (r: QueryResult)
    ensures rows == [] ==> r == QueryResult([], [], 0)
    ensures r.rowsAffected == 0
    ensures rows != [] ==> r.columns == Names(rows[0])
    ensures |r.rows| == |rows|
    ensures forall i | 0 <= i < |rows| :: r.rows[i].JObject?
  {
    if rows == [] then QueryResult([], [], 0)
    else
      QueryResult(Names(rows[0]),
                  seq(|rows|, i requires 0 <= i < |rows| => JObject(RowObject(rows[i]))),
                  0)
  }

  /**
   * Every result row maps each of its column names to the decoded value of
   * the last cell carrying that name, and has no other key.
   */
  lemma ProcessedRow(rows: seq<seq<Cell>>, i: nat, key: string)
    requires i < |rows|
    ensures var obj := ProcessRows(rows).rows[i].fields;
      DistinctKeys(obj) &&
      (key in Keys(obj) <==> key in Names(rows[i])) &&
      Lookup(obj, key) ==
        match LastNamed(rows[i], key)
        case None => None
        case Some(j) => Some(DecodeCell(rows[i][j]))
  {
    RowObjectKeys(rows[i]);
    RowObjectLookup(rows[i], key);
  }
}
