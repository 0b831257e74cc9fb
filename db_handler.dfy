/** The data-access gateway (`DBHandler`): the generic configuration-flag
    lookup, the `IN (...)` placeholder list of the unit-count query, and the
    coalescing of empty results and database errors in `execute_query`.

    The SQL text, the relational semantics and the connection pool are not
    modelled: a query is its shape (which table and field, whether it is
    filtered, its parameters), and what the database answers is an input. */
module DbHandler {
  import opened Common

  /** A cell of a result row. */
  datatype Value = Int(i: int) | Str(s: string) | Null

  /** A result row, as the dictionary cursor returns it: column name to value. */
  type Row = map<string, Value>

  /** A result table (a data frame); `[]` is `pd.DataFrame()`. */
  type Table = seq<Row>

  /** What the database did with one query. */
  datatype DbOutcome = Fetched(rows: Table) | DbError(message: string)

  /** The shape of a statement. The fixed queries (operation types, customers,
      payment methods, ...) are only named. */
  datatype Statement =
    | SelectField(table: string, field: string, whereField: Option<string>)
    | UnitCounts(placeholders: string)
    | Named(name: string)

  datatype Query = Query(stmt: Statement, params: seq<Value>)

  /** The gateway's own configuration: the port falls back to 3306. */
  datatype Config = Config(port: Option<int>, poolSize: int)

  const DefaultPort := 3306

  /** The text that makes `check_field_value` drop its condition. */
  const ParameterMarker := "parametro"

  /** The statement `check_field_value` issues. */
  function FieldQuery(table: string, field: string, conditionField: Option<string>, conditionValue: Value): (q: Query)
    ensures q.stmt.SelectField? && q.stmt.table == table && q.stmt.field == field
    ensures q.stmt.whereField.Some? <==> (conditionField.Some? && !HasSubstring(field, ParameterMarker))
    ensures q.stmt.whereField.Some? ==> q.stmt.whereField == conditionField && q.params == [conditionValue]
    ensures q.stmt.whereField.None? ==> q.params == []
  {
    if conditionField.Some? && !HasSubstring(field, ParameterMarker) then
      Query(SelectField(table, field, conditionField), [conditionValue])
    else
      Query(SelectField(table, field, None), [])
  }

  /** Every row of a result carries the column that was selected. */
  ghost predicate HasColumn(t: Table, field: string) {
    forall i :: 0 <= i < |t| ==> field in t[i]
  }

  /** `df.iloc[0][field]` if the frame has a row, otherwise `None`. */
  function FirstField(t: Table, field: string): (v: Option<Value>)
    requires HasColumn(t, field)
    ensures v.None? <==> t == []
    ensures v.Some? ==> v.value == t[0][field]
  {
    if t == [] then None else Some(t[0][field])
  }

  /** `','.join(['%s'] * n)`. */
  function Placeholders(n: nat): string
  {
    if n == 0 then "" else if n == 1 then "%s" else Placeholders(n - 1) + ",%s"
  }

  /** The placeholder list holds exactly `n` markers `%s`, one every three
      characters, separated by single commas. */
  lemma {:induction false} PlaceholdersShape(n: nat)
    ensures n == 0 ==> Placeholders(n) == ""
    ensures n > 0 ==> |Placeholders(n)| == 3 * n - 1
    ensures forall i :: 0 <= i < n ==> 3 * i + 2 <= |Placeholders(n)| && Placeholders(n)[3 * i..3 * i + 2] == "%s"
    ensures forall i :: 0 <= i < n - 1 ==> Placeholders(n)[3 * i + 2] == ','
  {
    if n > 1 {
      PlaceholdersShape(n - 1);
      var p, q := Placeholders(n - 1), Placeholders(n);
      assert q == p + ",%s";
      forall i | 0 <= i < n ensures 3 * i + 2 <= |q| && q[3 * i..3 * i + 2] == "%s" {
        if i < n - 1 { assert q[3 * i..3 * i + 2] == p[3 * i..3 * i + 2]; }
        else { assert q[3 * i..3 * i + 2] == q[|q| - 2..]; }
      }
      forall i | 0 <= i < n - 1 ensures q[3 * i + 2] == ',' {
        if i < n - 2 { assert q[3 * i + 2] == p[3 * i + 2]; }
      }
    }
  }

  /** The product codes as query parameters, in input order. */
  function CodeParams(codes: seq<string>): (ps: seq<Value>)
    ensures |ps| == |codes| && forall i :: 0 <= i < |codes| ==> ps[i] == Str(codes[i])
  {
    seq(|codes|, i requires 0 <= i < |codes| => Str(codes[i]))
  }

  /** `execute_query`'s coalescing: the rows fetched, or an empty table both
      when there were none and when the database failed. */
  function Coalesce(outcome: DbOutcome): (t: Table)
    ensures outcome.Fetched? ==> t == outcome.rows
    ensures outcome.DbError? ==> t == []
  {
    match outcome
    case Fetched(rows) => rows
    case DbError(_) => []
  }

  /** A database error and a query without rows cannot be told apart. */
  lemma ErrorLooksLikeNoRows(message: string)
    ensures Coalesce(DbError(message)) == Coalesce(Fetched([]))
  {
  }

  class DBHandler {
    const port: int
    const poolSize: int

    /** `__init__`: builds the pool from the configuration (a failure to
        connect is the caller's oracle, see EntryPoint). */
    constructor (config: Config)
      ensures port == (if config.port.Some? then config.port.value else DefaultPort)
      ensures poolSize == config.poolSize
    {
      port := if config.port.Some? then config.port.value else DefaultPort;
      poolSize := config.poolSize;
    }

    /** `execute_query`: the rows the query fetched; an error is swallowed
        and gives an empty table. */
    method ExecuteQuery(q: Query, outcome: DbOutcome) returns (t: Table)
      ensures t == [] <==> (outcome.DbError? || outcome.rows == [])
      ensures t != [] ==> outcome.Fetched? && t == outcome.rows
    {
      match outcome {
        case Fetched(rows) => t := rows;
        case DbError(_) => t := [];
      }
    }

    /** `check_field_value`: issue the lookup and return the first row's
        field, or `None` when no row came back (or the query failed). */
    method CheckFieldValue(table: string, field: string, conditionField: Option<string>,
                           conditionValue: Value, outcome: DbOutcome)
      returns (q: Query, v: Option<Value>)
      requires outcome.Fetched? ==> HasColumn(outcome.rows, field)
      ensures q == FieldQuery(table, field, conditionField, conditionValue)
      ensures v.None? <==> (outcome.DbError? || outcome.rows == [])
      ensures v.Some? ==> outcome.Fetched? && v.value == outcome.rows[0][field]
    {
      q := FieldQuery(table, field, conditionField, conditionValue);
      var t := ExecuteQuery(q, outcome);
      v := FirstField(t, field);
    }

    /** `get_product_unit_counts`: no query at all for an empty list;
        otherwise one query with a placeholder per code and the codes as
        parameters, in input order. */
    method GetProductUnitCounts(codes: seq<string>, outcome: DbOutcome)
      returns (q: Option<Query>, t: Table)
      ensures codes == [] ==> q.None? && t == []
      ensures codes != [] ==> q == Some(Query(UnitCounts(Placeholders(|codes|)), CodeParams(codes)))
      ensures codes != [] ==> t == Coalesce(outcome)
    {
      if codes == [] {
        return None, [];
      }
      q := Some(Query(UnitCounts(Placeholders(|codes|)), CodeParams(codes)));
      t := ExecuteQuery(q.value, outcome);
    }
  }
}
