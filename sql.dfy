/** What the handlers exchange with the connection pool: typed positional
    parameters, result rows as lists of named columns, query outcomes, and the
    HTTP responses the handlers send back. */
module Sql {
  import opened Js

  /** The `TYPES` tags of the SQL driver that the handlers use. */
  datatype SqlType = Int | NVarChar | VarChar | Date | Bit | Float

  /** The value bound to a parameter. `new Date(v)`, `parseFloat(v)` and
      `JSON.stringify(v)` are kept symbolic: the model does not evaluate them. */
  datatype ParamValue = Plain(v: Value) | DateOf(v: Value) | FloatOf(v: Value) | JsonOf(v: Value)

  datatype Param = Param(ty: SqlType, value: ParamValue)

  /** One column of a result row, with the column name its metadata carries. */
  datatype Column = Column(colName: string, value: Value)

  type Row = seq<Column>

  datatype Error = Error(message: string)

  datatype Result<T> = Ok(value: T) | Err(error: Error)

  /** A statement the handler hands to `executeQuery`, with its parameter list. */
  datatype Query = Query(statement: string, params: seq<Param>)

  /** The status code and the `message` (or `error`) text of a JSON response. */
  datatype Response = Response(status: nat, message: string)

  function P(ty: SqlType, v: Value): Param {
    Param(ty, Plain(v))
  }

  /** `result[0][0].value`: None where the expression throws a TypeError, that
      is when there is no row or the first row has no column. */
  function FirstValue(rows: seq<Row>): (r: Option<Value>)
    ensures r.Some? <==> |rows| > 0 && |rows[0]| > 0
    ensures r.Some? ==> r.value == rows[0][0].value
  {
    if |rows| > 0 && |rows[0]| > 0 then Some(rows[0][0].value) else None
  }

  /** The value of the last column called `name`: what a dictionary filled by
      `columns.forEach(c => d[c.metadata.colName] = c)` holds under `name`. */
  function LastNamed(cols: seq<Column>, name: string): Option<Value> {
    if cols == [] then None
    else if cols[|cols| - 1].colName == name then Some(cols[|cols| - 1].value)
    else LastNamed(cols[..|cols| - 1], name)
  }

  /** `LastNamed` finds a column of that name iff there is one, and the one it
      finds has no later namesake. */
  lemma {:induction false} LastNamedFinds(cols: seq<Column>, name: string)
    ensures LastNamed(cols, name).Some? <==> exists i :: 0 <= i < |cols| && cols[i].colName == name
    ensures LastNamed(cols, name).Some? ==>
              exists i :: 0 <= i < |cols| && cols[i].colName == name && cols[i].value == LastNamed(cols, name).value &&
                          forall j :: i < j < |cols| ==> cols[j].colName != name
    decreases |cols|
  {
    if cols != [] {
      var n := |cols| - 1;
      if cols[n].colName == name {
        assert cols[n].value == LastNamed(cols, name).value;
      } else {
        var init := cols[..n];
        LastNamedFinds(init, name);
        if LastNamed(init, name).Some? {
          var i :| 0 <= i < |init| && init[i].colName == name && init[i].value == LastNamed(init, name).value &&
                   forall j :: i < j < |init| ==> init[j].colName != name;
          assert cols[i] == init[i];
          forall j | i < j < |cols|
            ensures cols[j].colName != name
          {
            if j < n {
              assert cols[j] == init[j];
            }
          }
        } else {
          forall i | 0 <= i < |cols|
            ensures cols[i].colName != name
          {
            if i < n {
              assert cols[i] == init[i];
            }
          }
        }
      }
    }
  }

  /** Conversely, the last column of a name is the one `LastNamed` finds. */
  lemma {:induction false} LastNamedIsLast(cols: seq<Column>, name: string, i: nat)
    requires i < |cols| && cols[i].colName == name
    requires forall j :: i < j < |cols| ==> cols[j].colName != name
    ensures LastNamed(cols, name) == Some(cols[i].value)
    decreases |cols|
  {
    if i < |cols| - 1 {
      var init := cols[..|cols| - 1];
      assert init[i] == cols[i];
      LastNamedIsLast(init, name, i);
    }
  }

  /** The `forEach` loop that keys a result row by column name; a later column
      with the same name overwrites an earlier one. */
  method KeyByColName(cols: seq<Column>) returns (m: map<string, Value>)
    ensures forall k :: LastNamed(cols, k) == (if k in m then Some(m[k]) else None)
  {
    m := map[];
    for i := 0 to |cols|
      invariant forall k :: LastNamed(cols[..i], k) == (if k in m then Some(m[k]) else None)
    {
      m := m[cols[i].colName := cols[i].value];
      assert cols[..i + 1][..i] == cols[..i];
    }
    assert cols[..|cols|] == cols;
  }

  /** `d[name]` for the dictionary above: `undefined` when absent. */
  function Lookup(m: map<string, Value>, name: string): Value {
    if name in m then m[name] else Undefined
  }
}
