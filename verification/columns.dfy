/** How a decoded JSON value becomes a column value when the import and restore code builds a
    row (`Task(title=data.get('title'), ...)`), how a column value is written back out, and how
    a JSON array becomes a run of rows with consecutive fresh ids.
    The ORM leaves a None attribute out of the INSERT, so a column with a default takes the
    default and a NOT NULL column without one makes the flush fail. */
module Columns {
  import opened Wrappers
  import opened Json
  import opened DateTimes

  /** A NOT NULL string column without default (`title`, `username`, `email`). */
  function RequiredString(j: Json): (r: Result<string>)
    ensures r.Ok? <==> j.JStr?
    ensures r.Ok? ==> r.value == j.s
  {
    match j
    case JStr(s) => Ok(s)
    case _ => Err
  }

  /** A nullable string column (`description`, `password_hash`, `full_name`, `bio`). */
  function NullableString(j: Json): (r: Result<Option<string>>)
    ensures j.JNull? ==> r == Ok(None)
    ensures j.JStr? ==> r == Ok(Some(j.s))
    ensures !j.JNull? && !j.JStr? ==> r.Err?
  {
    match j
    case JNull => Ok(None)
    case JStr(s) => Ok(Some(s))
    case _ => Err
  }

  /** A NOT NULL string column with a default (`priority`): None takes the default. */
  function StringWithDefault(j: Json, default: string): (r: Result<string>)
    ensures j.JNull? ==> r == Ok(default)
    ensures j.JStr? ==> r == Ok(j.s)
    ensures !j.JNull? && !j.JStr? ==> r.Err?
  {
    match j
    case JNull => Ok(default)
    case JStr(s) => Ok(s)
    case _ => Err
  }

  /** A Boolean column with a default (`completed`): None takes the default; SQLAlchemy's
      Boolean type accepts True, False, 1 and 0 and refuses every other value. */
  function BooleanWithDefault(j: Json, default: bool): (r: Result<bool>)
    ensures j.JNull? ==> r == Ok(default)
    ensures j.JBool? ==> r == Ok(j.b)
    ensures r.Ok? ==> j.JNull? || j.JBool? || (j.JNum? && (j.n == 0 || j.n == 1))
    ensures j.JNum? ==> (r.Ok? <==> j.n == 0 || j.n == 1)
    ensures j.JNum? && (j.n == 0 || j.n == 1) ==> r == Ok(j.n == 1)
  {
    match j
    case JNull => Ok(default)
    case JBool(b) => Ok(b)
    case JNum(n) => if n == 0 then Ok(false) else if n == 1 then Ok(true) else Err
    case _ => Err
  }

  /** An SQLite INTEGER is a signed 64-bit value; the driver refuses to bind a Python int
      outside that range (OverflowError), which makes the flush fail. */
  const INT64_MIN: int := -0x8000_0000_0000_0000
  const INT64_MAX: int := 0x7FFF_FFFF_FFFF_FFFF

  predicate FitsInt64(n: int)
  {
    INT64_MIN <= n <= INT64_MAX
  }

  /** A NOT NULL integer column without default (`task.user_id`). */
  function RequiredInt(j: Json): (r: Result<int>)
    ensures r.Ok? <==> j.JNum? && FitsInt64(j.n)
    ensures r.Ok? ==> r.value == j.n
  {
    match j
    case JNum(n) => if FitsInt64(n) then Ok(n) else Err
    case _ => Err
  }

  /** A nullable integer column (`profile.user_id`). */
  function NullableInt(j: Json): (r: Result<Option<int>>)
    ensures j.JNull? ==> r == Ok(None)
    ensures j.JNum? && FitsInt64(j.n) ==> r == Ok(Some(j.n))
    ensures j.JNum? && !FitsInt64(j.n) ==> r.Err?
    ensures !j.JNull? && !j.JNum? ==> r.Err?
  {
    match j
    case JNull => Ok(None)
    case JNum(n) => if FitsInt64(n) then Ok(Some(n)) else Err
    case _ => Err
  }

  /** `datetime.fromisoformat(v) if v else None`: a falsy value gives no datetime, a truthy
      string must parse, any other truthy value raises TypeError. */
  function IsoDateTime(j: Json): (r: Result<Option<DateTime>>)
    ensures !Truthy(j) ==> r == Ok(None)
    ensures Truthy(j) ==> (r.Ok? <==> j.JStr? && FromIsoFormat(j.s).Some?)
    ensures Truthy(j) && r.Ok? ==> j.JStr? && r.value.Some? && FromIsoFormat(j.s) == r.value
  {
    if !Truthy(j) then Ok(None)
    else match j
      case JStr(s) => (match FromIsoFormat(s) case Some(t) => Ok(Some(t)) case None => Err)
      case _ => Err
  }

  // ---------------------------------------------------------------- writing values out

  function OptionalString(s: Option<string>): Json
  {
    match s
    case Some(v) => JStr(v)
    case None => JNull
  }

  function OptionalInt(n: Option<int>): Json
  {
    match n
    case Some(v) => JNum(v)
    case None => JNull
  }

  /** `value.isoformat() if value else None`. */
  function OptionalIso(t: Option<DateTime>): Json
  {
    match t
    case Some(v) => JStr(IsoFormat(v))
    case None => JNull
  }

  lemma NullableStringRoundTrip(s: Option<string>)
    ensures NullableString(OptionalString(s)) == Ok(s)
  {
  }

  /** Any integer an INTEGER column can hold reads back unchanged. */
  lemma NullableIntRoundTrip(n: Option<int>)
    requires n.Some? ==> FitsInt64(n.value)
    ensures NullableInt(OptionalInt(n)) == Ok(n)
  {
  }

  /** What backup and export write for a datetime reads back as the same datetime. */
  lemma IsoDateTimeRoundTrip(t: Option<DateTime>)
    ensures IsoDateTime(OptionalIso(t)) == Ok(t)
  {
    if t.Some? {
      IsoRoundTrip(t.value);
    }
  }

  // ---------------------------------------------------------------- rows from an array

  /** One row per element, in order, the k-th row built with id `base + k` (the ids SQLite
      hands out to consecutive inserts); an element that cannot be built fails the whole run. */
  function BuildRows<T>(elems: seq<Json>, build: (Json, nat) -> Result<T>, base: nat): (r: Result<seq<T>>)
    ensures r.Ok? ==> |r.value| == |elems|
    decreases |elems|
  {
    if elems == [] then Ok([])
    else match BuildRows(elems[..|elems| - 1], build, base)
      case Err => Err
      case Ok(rows) =>
        match build(elems[|elems| - 1], base + |elems| - 1)
        case Err => Err
        case Ok(row) => Ok(rows + [row])
  }

  /** The run succeeds exactly when every element builds, and then each row is its element's. */
  lemma {:induction false} BuildRowsSpec<T>(elems: seq<Json>, build: (Json, nat) -> Result<T>, base: nat)
    ensures BuildRows(elems, build, base).Ok? <==> forall k :: 0 <= k < |elems| ==> build(elems[k], base + k).Ok?
    ensures BuildRows(elems, build, base).Ok? ==>
      forall k :: 0 <= k < |elems| ==> build(elems[k], base + k) == Ok(BuildRows(elems, build, base).value[k])
    decreases |elems|
  {
    if elems != [] {
      var init := elems[..|elems| - 1];
      BuildRowsSpec(init, build, base);
      assert forall k :: 0 <= k < |init| ==> init[k] == elems[k];
    }
  }

  /** One more element that builds extends the rows of the prefix by its row. */
  lemma BuildRowsExtend<T>(elems: seq<Json>, build: (Json, nat) -> Result<T>, base: nat, i: nat, rows: seq<T>, row: T)
    requires i < |elems| && BuildRows(elems[..i], build, base) == Ok(rows)
    requires build(elems[i], base + i) == Ok(row)
    ensures BuildRows(elems[..i + 1], build, base) == Ok(rows + [row])
  {
    assert elems[..i + 1][..i] == elems[..i];
  }

  /** One element that does not build fails the whole run. */
  lemma BuildRowsStops<T>(elems: seq<Json>, build: (Json, nat) -> Result<T>, base: nat, i: nat)
    requires i < |elems| && build(elems[i], base + i).Err?
    ensures BuildRows(elems, build, base).Err?
  {
    BuildRowsSpec(elems, build, base);
  }

  /** Rows that each build from their element are exactly what the run builds. */
  lemma BuildRowsExact<T>(elems: seq<Json>, build: (Json, nat) -> Result<T>, base: nat, rows: seq<T>)
    requires |rows| == |elems|
    requires forall k :: 0 <= k < |elems| ==> build(elems[k], base + k) == Ok(rows[k])
    ensures BuildRows(elems, build, base) == Ok(rows)
  {
    BuildRowsSpec(elems, build, base);
    var built := BuildRows(elems, build, base);
    assert built.Ok?;
    forall k | 0 <= k < |rows| ensures built.value[k] == rows[k] {
      assert Ok(built.value[k]) == build(elems[k], base + k);
    }
    assert built.value == rows;
  }
}
