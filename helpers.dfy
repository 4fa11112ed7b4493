/** The generic query builders every model uses (src/models/_helpers.js):
    `insert`, `update` and `getAll` build a parameterised SQL text and its
    values; `getById` and `deleteById` give null when no row matches. The
    database's column list (what `getExistingColumns` and `hasColumn` read
    from information_schema) is a parameter. */
module Helpers {
  import opened Values
  import opened Strings
  import Schemas

  // ---------------------------------------------------------------- placeholders

  /** The positional parameter `$n`. */
  function Placeholder(n: nat): string
  {
    "$" + NatToString(n)
  }

  /** `$from, $from+1, ...`, `count` of them. */
  function Placeholders(from: nat, count: nat): (ps: seq<string>)
    ensures |ps| == count
    ensures forall i :: 0 <= i < count ==> ps[i] == Placeholder(from + i)
    decreases count
  {
    if count == 0 then [] else [Placeholder(from)] + Placeholders(from + 1, count - 1)
  }

  predicate AllDigits(s: string)
  {
    forall i :: 0 <= i < |s| ==> '0' <= s[i] <= '9'
  }

  /** The value PostgreSQL binds to a placeholder text, given the values
      array of the query: `$n` is the n-th value, counting from 1. */
  function Bind(values: seq<Value>, placeholder: string): Option<Value>
  {
    if |placeholder| >= 2 && placeholder[0] == '$' && AllDigits(placeholder[1..]) then
      var n := ParseNat(placeholder[1..]);
      if 1 <= n <= |values| then Some(values[n - 1]) else None
    else None
  }

  /** `$(i+1)` names the value at index i. */
  lemma PlaceholderBinds(values: seq<Value>, i: nat)
    requires i < |values|
    ensures Bind(values, Placeholder(i + 1)) == Some(values[i])
  {
    var p := Placeholder(i + 1);
    assert p[1..] == NatToString(i + 1);
    ParseNatToString(i + 1);
  }

  /** The LIMIT and OFFSET placeholders `$(|params|+1)` and `$(|params|+2)`
      name the two values appended after the caller's parameters, and the
      caller's own `$1..$|params|` still name theirs. */
  lemma TrailingPlaceholdersBind(params: seq<Value>, limit: Value, offset: Value)
    ensures Bind(params + [limit, offset], Placeholder(|params| + 1)) == Some(limit)
    ensures Bind(params + [limit, offset], Placeholder(|params| + 2)) == Some(offset)
    ensures forall i :: 0 <= i < |params| ==> Bind(params + [limit, offset], Placeholder(i + 1)) == Some(params[i])
  {
    var values := params + [limit, offset];
    PlaceholderBinds(values, |params|);
    PlaceholderBinds(values, |params| + 1);
    forall i | 0 <= i < |params| ensures Bind(values, Placeholder(i + 1)) == Some(params[i]) {
      PlaceholderBinds(values, i);
    }
  }

  // ---------------------------------------------------------------- column filtering

  /** `a` is `b` with some elements left out, in the same order. */
  predicate IsSubsequence(a: seq<string>, b: seq<string>)
  {
    if a == [] then true
    else if b == [] then false
    else (a[0] == b[0] && IsSubsequence(a[1..], b[1..])) || IsSubsequence(a, b[1..])
  }

  /** `keys.filter((k) => existing.includes(k))`: the payload keys that are
      columns of the table, in payload order. */
  function KeepColumns(keys: seq<string>, columns: seq<string>): (kept: seq<string>)
    ensures forall k :: k in kept <==> k in keys && k in columns
    ensures IsSubsequence(kept, keys)
  {
    if keys == [] then []
    else
      var rest := KeepColumns(keys[1..], columns);
      assert forall k :: k in keys <==> k == keys[0] || k in keys[1..];
      if keys[0] in columns then
        assert ([keys[0]] + rest)[1..] == rest;
        [keys[0]] + rest
      else
        rest
  }

  // ---------------------------------------------------------------- insert

  datatype InsertQuery = InsertQuery(table: string, columns: seq<string>, values: seq<Value>)
  {
    /** `INSERT INTO table (c1, ..., cn) VALUES ($1, ..., $n) RETURNING *` */
    function Text(): string
    {
      "INSERT INTO " + table + " (" + JoinWith(columns, ", ") + ") VALUES ("
        + JoinWith(Placeholders(1, |columns|), ", ") + ") RETURNING *"
    }
  }

  /** The values of the kept keys, in the same order. */
  function ValuesOf(data: Record, keys: seq<string>): (vs: seq<Value>)
    ensures |vs| == |keys|
    ensures forall i :: 0 <= i < |keys| ==> vs[i] == Get(data, keys[i])
  {
    if keys == [] then [] else [Get(data, keys[0])] + ValuesOf(data, keys[1..])
  }

  /** `insert(table, data)` up to the query: data must be given, pass
      `validate` with requireAll, have keys, and keep at least one column. */
  function InsertPlan(table: string, data: Option<Record>, columns: seq<string>, host: Host): (r: Result<InsertQuery>)
    ensures data.None? ==> r == Err("No data provided")
    ensures data.Some? && Schemas.Validate(table, data.value, true, host).Some? ==>
      r == Err(Schemas.Validate(table, data.value, true, host).value.Message())
    ensures data.Some? && Schemas.Validate(table, data.value, true, host).None? && data.value == [] ==>
      r == Err("No data provided for insert")
    ensures r.Ok? <==> (data.Some? && Schemas.Validate(table, data.value, true, host).None?
      && KeepColumns(Keys(data.value), columns) != [])
    ensures r.Ok? ==> (r.value.table == table && r.value.columns == KeepColumns(Keys(data.value), columns)
      && |r.value.values| == |r.value.columns|
      && forall i :: 0 <= i < |r.value.columns| ==> r.value.values[i] == Get(data.value, r.value.columns[i]))
  {
    match data
    case None => Err("No data provided")
    case Some(d) =>
      match Schemas.Validate(table, d, true, host)
      case Some(e) => Err(e.Message())
      case None =>
        var keys := Keys(d);
        if |keys| == 0 then Err("No data provided for insert")
        else
          var valid := KeepColumns(keys, columns);
          if |valid| == 0 then Err("No valid columns provided for insert")
          else Ok(InsertQuery(table, valid, ValuesOf(d, valid)))
  }

  /** In an insert, column i is written with placeholder `$(i+1)`, which
      binds the payload's value for that column. */
  lemma InsertPlaceholdersLineUp(q: InsertQuery, data: Record)
    requires |q.values| == |q.columns|
    requires forall i :: 0 <= i < |q.columns| ==> q.values[i] == Get(data, q.columns[i])
    ensures forall i :: 0 <= i < |q.columns| ==>
      Bind(q.values, Placeholders(1, |q.columns|)[i]) == Some(Get(data, q.columns[i]))
  {
    forall i | 0 <= i < |q.columns|
      ensures Bind(q.values, Placeholders(1, |q.columns|)[i]) == Some(Get(data, q.columns[i]))
    {
      PlaceholderBinds(q.values, i);
    }
  }

  // ---------------------------------------------------------------- update

  datatype UpdateQuery = UpdateQuery(table: string, id: string, columns: seq<string>, values: seq<Value>)
  {
    /** `k1=$2, ..., kn=$(n+1)` */
    function SetList(): string
    {
      JoinWith(Assignments(columns, 2), ", ")
    }

    /** `UPDATE table SET k1=$2, ... WHERE id=$1 RETURNING *` */
    function Text(): string
    {
      "UPDATE " + table + " SET " + SetList() + " WHERE id=$1 RETURNING *"
    }

    /** The (column, value) pairs the update writes. */
    function Written(): seq<(string, Value)>
      requires |values| == |columns| + 1
    {
      seq(|columns|, i requires 0 <= i < |columns| => (columns[i], values[i + 1]))
    }
  }

  /** `k=$n` for each key, numbering from `from`. */
  function Assignments(keys: seq<string>, from: nat): (r: seq<string>)
    ensures |r| == |keys|
    ensures forall i :: 0 <= i < |keys| ==> r[i] == keys[i] + "=" + Placeholder(from + i)
  {
    if keys == [] then [] else [keys[0] + "=" + Placeholder(from)] + Assignments(keys[1..], from + 1)
  }

  /** `update(table, id, data)` up to the query: there must be keys, the
      payload must pass `validate` without requireAll, and at least one key
      must be a column. */
  function UpdatePlan(table: string, id: string, data: Option<Record>, columns: seq<string>, host: Host): (r: Result<UpdateQuery>)
    ensures (data.None? || data.value == []) ==> r == Err("No data provided for update")
    ensures data.Some? && data.value != [] && Schemas.Validate(table, data.value, false, host).Some? ==>
      r == Err(Schemas.Validate(table, data.value, false, host).value.Message())
    ensures r.Ok? <==> (data.Some? && data.value != [] && Schemas.Validate(table, data.value, false, host).None?
      && KeepColumns(Keys(data.value), columns) != [])
    ensures r.Ok? ==> (r.value.table == table && r.value.id == id
      && r.value.columns == KeepColumns(Keys(data.value), columns)
      && |r.value.values| == |r.value.columns| + 1 && r.value.values[0] == Str(id)
      && forall i :: 0 <= i < |r.value.columns| ==> r.value.values[i + 1] == Get(data.value, r.value.columns[i]))
  {
    var d := if data.Some? then data.value else [];
    var keys := Keys(d);
    if |keys| == 0 then Err("No data provided for update")
    else
      match Schemas.Validate(table, d, false, host)
      case Some(e) => Err(e.Message())
      case None =>
        var valid := KeepColumns(keys, columns);
        if |valid| == 0 then Err("No valid columns provided for update")
        else Ok(UpdateQuery(table, id, valid, [Str(id)] + ValuesOf(d, valid)))
  }

  /** In an update, `$1` binds the id and the key at index i is set from
      `$(i+2)`, which binds the payload's value for that key. */
  lemma UpdatePlaceholdersLineUp(q: UpdateQuery, data: Record)
    requires |q.values| == |q.columns| + 1 && q.values[0] == Str(q.id)
    requires forall i :: 0 <= i < |q.columns| ==> q.values[i + 1] == Get(data, q.columns[i])
    ensures Bind(q.values, "$1") == Some(Str(q.id))
    ensures forall i :: 0 <= i < |q.columns| ==>
      Assignments(q.columns, 2)[i] == q.columns[i] + "=" + Placeholder(i + 2)
      && Bind(q.values, Placeholder(i + 2)) == Some(Get(data, q.columns[i]))
  {
    PlaceholderBinds(q.values, 0);
    assert Placeholder(1) == "$1";
    forall i | 0 <= i < |q.columns| ensures Bind(q.values, Placeholder(i + 2)) == Some(Get(data, q.columns[i])) {
      PlaceholderBinds(q.values, i + 1);
    }
  }

  // ---------------------------------------------------------------- getAll

  /** The options object of `getAll`; an undefined `limit` or `offset` takes
      its default. */
  datatype ListOptions = ListOptions(limit: Value, offset: Value, where: string, params: seq<Value>)

  const DefaultLimit := 100
  const DefaultOffset := 0

  function OrDefault(v: Value, default: int): Value
  {
    if v == Undefined then Num(default) else v
  }

  /** `getAll(table, opts)`: builds the SELECT text step by step, ordering by
      created_at when the table has that column and by id otherwise. */
  method ListQuery(table: string, opts: ListOptions, hasCreatedAt: bool) returns (text: string, values: seq<Value>)
    ensures values == opts.params + [OrDefault(opts.limit, DefaultLimit), OrDefault(opts.offset, DefaultOffset)]
    ensures Bind(values, Placeholder(|opts.params| + 1)) == Some(OrDefault(opts.limit, DefaultLimit))
    ensures Bind(values, Placeholder(|opts.params| + 2)) == Some(OrDefault(opts.offset, DefaultOffset))
    ensures text == "SELECT * FROM " + table
      + (if opts.where != "" then " WHERE " + opts.where else "")
      + " ORDER BY " + (if hasCreatedAt then "created_at" else "id")
      + " DESC LIMIT " + Placeholder(|opts.params| + 1) + " OFFSET " + Placeholder(|opts.params| + 2)
  {
    var limit := OrDefault(opts.limit, DefaultLimit);
    var offset := OrDefault(opts.offset, DefaultOffset);
    text := "SELECT * FROM " + table;
    if opts.where != "" {
      text := text + (" WHERE " + opts.where);
    }
    assert text == "SELECT * FROM " + table + (if opts.where != "" then " WHERE " + opts.where else "");
    if hasCreatedAt {
      text := text + " ORDER BY " + "created_at"
        + " DESC LIMIT " + Placeholder(|opts.params| + 1) + " OFFSET " + Placeholder(|opts.params| + 2);
    } else {
      text := text + " ORDER BY " + "id"
        + " DESC LIMIT " + Placeholder(|opts.params| + 1) + " OFFSET " + Placeholder(|opts.params| + 2);
    }
    values := opts.params + [limit, offset];
    TrailingPlaceholdersBind(opts.params, limit, offset);
  }

  // ---------------------------------------------------------------- getById / deleteById

  /** `rows[0] || null` of a lookup by primary key. */
  function FindRow<T>(rows: map<string, T>, id: string): (r: Option<T>)
    ensures r.None? <==> id !in rows
    ensures r.Some? ==> r.value == rows[id]
  {
    if id in rows then Some(rows[id]) else None
  }
}
