/**
 * The statement builders of the database query tools: the WHERE, SET,
 * LIMIT/OFFSET and INSERT clauses and the parameter dicts that go with
 * them, and the reading of the single-value results of the count and
 * last-insert-id queries.
 *
 * Running a statement is not modelled: the builders return the SQL text and
 * the parameters they would hand to the database, and the result rows of
 * the two single-value queries are inputs.
 */
module QueryTools {
  import opened Wrappers
  import Text
  import OrderedDict

  /** A statement as handed to the database: SQL text with named parameters. */
  datatype Statement<V> = Statement(sql: string, params: OrderedDict.Dict<string, V>)

  /** A result row: column name to value. */
  type Row = map<string, int>

  // ----- Clauses -----

  /** `"{key} = :{prefix}{key}"`. */
  function Equality(key: string, prefix: string): string
  {
    key + " = :" + prefix + key
  }

  /** One equality per key, in order. */
  function Equalities(keys: seq<string>, prefix: string): (cs: seq<string>)
    ensures |cs| == |keys|
    ensures forall i :: 0 <= i < |keys| ==> cs[i] == Equality(keys[i], prefix)
  {
    seq(|keys|, i requires 0 <= i < |keys| => Equality(keys[i], prefix))
  }

  /** `" AND ".join(clauses) if clauses else "1=1"`. */
  function WhereClause(keys: seq<string>, prefix: string): string
  {
    if |keys| == 0 then "1=1" else Text.Join(Equalities(keys, prefix), " AND ")
  }

  /** A joined list is at least as long as its first part. */
  lemma JoinCoversFirst(parts: seq<string>, sep: string)
    requires |parts| >= 1
    ensures |Text.Join(parts, sep)| >= |parts[0]|
  {
  }

  /** The WHERE clause is the always-true `1=1` exactly when there are no conditions. */
  lemma WhereTrivialIffNoConditions(keys: seq<string>, prefix: string)
    ensures WhereClause(keys, prefix) == "1=1" <==> |keys| == 0
  {
    if |keys| > 0 {
      JoinCoversFirst(Equalities(keys, prefix), " AND ");
      assert |Equality(keys[0], prefix)| >= 4;
    }
  }

  /** `f" LIMIT {limit}"` for a truthy limit, nothing otherwise. */
  function LimitPart(limit: Option<int>): string
  {
    if limit.Some? && limit.value != 0 then " LIMIT " + Text.IntToString(limit.value) else ""
  }

  /** `f" OFFSET {offset}"` for a truthy offset, nothing otherwise. */
  function OffsetPart(offset: Option<int>): string
  {
    if offset.Some? && offset.value != 0 then " OFFSET " + Text.IntToString(offset.value) else ""
  }

  /** The LIMIT and OFFSET suffix: each only for a truthy value, LIMIT first. */
  function Paging(limit: Option<int>, offset: Option<int>): string
  {
    LimitPart(limit) + OffsetPart(offset)
  }

  /**
   * The suffix in each of the four cases: LIMIT exactly for a truthy limit,
   * OFFSET exactly for a truthy offset, LIMIT before OFFSET, and a limit or
   * offset of 0 adds nothing.
   */
  lemma PagingSpec(limit: Option<int>, offset: Option<int>)
    ensures var p := Paging(limit, offset);
            var hasLimit := limit.Some? && limit.value != 0;
            var hasOffset := offset.Some? && offset.value != 0;
            && (hasLimit && hasOffset ==>
                  p == " LIMIT " + Text.IntToString(limit.value) + " OFFSET " + Text.IntToString(offset.value))
            && (hasLimit && !hasOffset ==> p == " LIMIT " + Text.IntToString(limit.value))
            && (!hasLimit && hasOffset ==> p == " OFFSET " + Text.IntToString(offset.value))
            && (!hasLimit && !hasOffset ==> p == "")
  {
    var hasLimit := limit.Some? && limit.value != 0;
    var hasOffset := offset.Some? && offset.value != 0;
    if hasLimit && hasOffset {
      Text.AppendAssoc(" LIMIT " + Text.IntToString(limit.value), " OFFSET ", Text.IntToString(offset.value));
    }
  }

  /** The dict with every key prefixed. */
  function Prefixed<V>(d: OrderedDict.Dict<string, V>, prefix: string): (r: OrderedDict.Dict<string, V>)
    ensures |r| == |d|
    ensures forall i :: 0 <= i < |d| ==> r[i] == (prefix + d[i].0, d[i].1)
  {
    seq(|d|, i requires 0 <= i < |d| => (prefix + d[i].0, d[i].1))
  }

  /** Looking up a prefixed key finds the original entry's value. */
  lemma {:induction false} GetPrefixed<V>(d: OrderedDict.Dict<string, V>, prefix: string, k: string)
    ensures OrderedDict.Get(Prefixed(d, prefix), prefix + k) == OrderedDict.Get(d, k)
  {
    if d != [] {
      assert Prefixed(d, prefix)[1..] == Prefixed(d[1..], prefix);
      assert (prefix + d[0].0)[|prefix|..] == d[0].0;
      assert (prefix + k)[|prefix|..] == k;
      GetPrefixed(d[1..], prefix, k);
    }
  }

  /** Every key of a prefixed dict starts with the prefix. */
  lemma PrefixedKeys<V>(d: OrderedDict.Dict<string, V>, prefix: string)
    ensures forall k :: k in OrderedDict.Keys(Prefixed(d, prefix)) ==> |prefix| <= |k| && k[..|prefix|] == prefix
  {
    forall k | k in OrderedDict.Keys(Prefixed(d, prefix)) ensures |prefix| <= |k| && k[..|prefix|] == prefix {
      var i :| 0 <= i < |d| && OrderedDict.Keys(Prefixed(d, prefix))[i] == k;
      assert k == prefix + d[i].0;
    }
  }

  /** Prefixing keeps the keys distinct. */
  lemma PrefixedNoDup<V>(d: OrderedDict.Dict<string, V>, prefix: string)
    requires OrderedDict.NoDupKeys(d)
    ensures OrderedDict.NoDupKeys(Prefixed(d, prefix))
  {
    var r := Prefixed(d, prefix);
    forall i, j | 0 <= i < j < |r| ensures r[i].0 != r[j].0 {
      assert r[i].0[|prefix|..] == d[i].0;
      assert r[j].0[|prefix|..] == d[j].0;
    }
  }

  // ----- search_records / delete_record -----

  /** The SELECT statement `search_records` issues. */
  function SearchSql(table: string, keys: seq<string>, limit: Option<int>, offset: Option<int>): string
  {
    "SELECT * FROM " + table + " WHERE " + WhereClause(keys, "") + Paging(limit, offset)
  }

  /**
   * The loop `search_records`, `update_record` and `delete_record` share:
   * one `"{key} = :{prefix}{key}"` clause per entry, in order, and the
   * parameter dict holding each value under its prefixed key.
   */
  method EqualityClauses<V>(d: OrderedDict.Dict<string, V>, prefix: string)
    returns (clauses: seq<string>, params: OrderedDict.Dict<string, V>)
    requires OrderedDict.NoDupKeys(d)
    ensures clauses == Equalities(OrderedDict.Keys(d), prefix)
    ensures params == Prefixed(d, prefix)
  {
    ghost var all := Prefixed(d, prefix);
    PrefixedNoDup(d, prefix);
    clauses := [];
    params := [];
    var i := 0;
    while i < |d|
      invariant 0 <= i <= |d|
      invariant |clauses| == i
      invariant forall k :: 0 <= k < i ==> clauses[k] == Equality(d[k].0, prefix)
      invariant params == all[..i]
    {
      var (key, value) := d[i];
      clauses := clauses + [key + " = :" + prefix + key];
      OrderedDict.PutNext(all, i);
      params := OrderedDict.Put(params, prefix + key, value);
      i := i + 1;
    }
    assert all[..i] == all;
  }

  /** Prefixing with nothing changes nothing. */
  lemma PrefixedEmpty<V>(d: OrderedDict.Dict<string, V>)
    ensures Prefixed(d, "") == d
  {
    assert forall i :: 0 <= i < |d| ==> "" + d[i].0 == d[i].0;
  }

  /** The paging step of `search_records`: LIMIT for a truthy limit, then OFFSET for a truthy offset. */
  method AppendPaging(query: string, limit: Option<int>, offset: Option<int>) returns (q: string)
    ensures q == query + Paging(limit, offset)
  {
    q := query;
    if limit.Some? && limit.value != 0 {
      q := q + LimitPart(limit);
    }
    assert q == query + LimitPart(limit);
    if offset.Some? && offset.value != 0 {
      q := q + OffsetPart(offset);
    }
    Text.AppendAssoc(query, LimitPart(limit), OffsetPart(offset));
  }

  /** `search_records`, up to issuing the statement: the parameters are exactly the conditions, in order. */
  method SearchRecords<V>(table: string, conditions: OrderedDict.Dict<string, V>, limit: Option<int>, offset: Option<int>)
    returns (st: Statement<V>)
    requires OrderedDict.NoDupKeys(conditions)
    ensures st == Statement(SearchSql(table, OrderedDict.Keys(conditions), limit, offset), conditions)
  {
    var whereClauses, params := EqualityClauses(conditions, "");
    PrefixedEmpty(conditions);
    var whereClause := if |whereClauses| > 0 then Text.Join(whereClauses, " AND ") else "1=1";
    var query := "SELECT * FROM " + table + " WHERE " + whereClause;
    query := AppendPaging(query, limit, offset);
    st := Statement(query, params);
  }

  /** `delete_record`, up to issuing the statement; without conditions it deletes `WHERE 1=1`. */
  method DeleteRecord<V>(table: string, conditions: OrderedDict.Dict<string, V>) returns (st: Statement<V>)
    requires OrderedDict.NoDupKeys(conditions)
    ensures st == Statement("DELETE FROM " + table + " WHERE " + WhereClause(OrderedDict.Keys(conditions), ""), conditions)
    ensures conditions == [] ==> st.sql == "DELETE FROM " + table + " WHERE 1=1"
  {
    var whereClauses, params := EqualityClauses(conditions, "");
    PrefixedEmpty(conditions);
    var whereClause := if |whereClauses| > 0 then Text.Join(whereClauses, " AND ") else "1=1";
    st := Statement("DELETE FROM " + table + " WHERE " + whereClause, params);
  }

  // ----- update_record -----

  /** The parameters of `update_record`: the data under `set_` keys, then the conditions under `where_` keys. */
  function UpdateParams<V>(data: OrderedDict.Dict<string, V>, conditions: OrderedDict.Dict<string, V>)
    : OrderedDict.Dict<string, V>
  {
    Prefixed(data, "set_") + Prefixed(conditions, "where_")
  }

  /** The UPDATE statement `update_record` issues. */
  function UpdateSql(table: string, dataKeys: seq<string>, conditionKeys: seq<string>): string
  {
    "UPDATE " + table + " SET " + Text.Join(Equalities(dataKeys, "set_"), ", ")
      + " WHERE " + WhereClause(conditionKeys, "where_")
  }

  /** The `set_` keys and the `where_` keys never clash, so the parameters have distinct keys. */
  lemma UpdateParamsNoDup<V>(data: OrderedDict.Dict<string, V>, conditions: OrderedDict.Dict<string, V>)
    requires OrderedDict.NoDupKeys(data) && OrderedDict.NoDupKeys(conditions)
    ensures OrderedDict.NoDupKeys(UpdateParams(data, conditions))
  {
    var s := Prefixed(data, "set_");
    var w := Prefixed(conditions, "where_");
    PrefixedNoDup(data, "set_");
    PrefixedNoDup(conditions, "where_");
    var p := s + w;
    forall i, j | 0 <= i < j < |p| ensures p[i].0 != p[j].0 {
      if i < |s| && j >= |s| {
        assert p[i].0 == "set_" + data[i].0;
        assert p[j].0 == "where_" + conditions[j - |s|].0;
        assert p[i].0[0] == 's' && p[j].0[0] == 'w';
      } else if j < |s| {
        assert p[i] == s[i] && p[j] == s[j];
      } else {
        assert p[i] == w[i - |s|] && p[j] == w[j - |s|];
      }
    }
  }

  /** Every data value is found under its `set_` key. */
  lemma UpdateParamsSetLookup<V>(data: OrderedDict.Dict<string, V>, conditions: OrderedDict.Dict<string, V>, k: string)
    ensures OrderedDict.Get(UpdateParams(data, conditions), "set_" + k) == OrderedDict.Get(data, k)
  {
    var s := Prefixed(data, "set_");
    var w := Prefixed(conditions, "where_");
    OrderedDict.GetAppend(s, w, "set_" + k);
    GetPrefixed(data, "set_", k);
    if "set_" + k !in OrderedDict.Keys(s) {
      PrefixedKeys(conditions, "where_");
      assert ("set_" + k)[0] == 's';
      assert "set_" + k !in OrderedDict.Keys(w);
    }
  }

  /**
   * Every condition value is found under its `where_` key, even when the
   * same column is also updated.
   */
  lemma UpdateParamsWhereLookup<V>(data: OrderedDict.Dict<string, V>, conditions: OrderedDict.Dict<string, V>, k: string)
    ensures OrderedDict.Get(UpdateParams(data, conditions), "where_" + k) == OrderedDict.Get(conditions, k)
  {
    var s := Prefixed(data, "set_");
    PrefixedKeys(data, "set_");
    assert ("where_" + k)[..4] == "wher";
    OrderedDict.GetAppend(s, Prefixed(conditions, "where_"), "where_" + k);
    GetPrefixed(conditions, "where_", k);
  }

  /** `update_record`, up to issuing the statement. */
  method UpdateRecord<V>(table: string, data: OrderedDict.Dict<string, V>, conditions: OrderedDict.Dict<string, V>)
    returns (st: Statement<V>)
    requires OrderedDict.NoDupKeys(data) && OrderedDict.NoDupKeys(conditions)
    ensures st == Statement(UpdateSql(table, OrderedDict.Keys(data), OrderedDict.Keys(conditions)),
                            UpdateParams(data, conditions))
  {
    var setClauses, setParams := EqualityClauses(data, "set_");
    var whereClauses, whereParams := EqualityClauses(conditions, "where_");
    var params := setParams + whereParams;
    var setClause := Text.Join(setClauses, ", ");
    var whereClause := if |whereClauses| > 0 then Text.Join(whereClauses, " AND ") else "1=1";
    st := Statement("UPDATE " + table + " SET " + setClause + " WHERE " + whereClause, params);
  }

  // ----- insert_record / get_table_count -----

  /** `":{key}"` for every key, in order. */
  function Placeholders(keys: seq<string>): (ps: seq<string>)
    ensures |ps| == |keys|
    ensures forall i :: 0 <= i < |keys| ==> ps[i] == ":" + keys[i]
  {
    seq(|keys|, i requires 0 <= i < |keys| => ":" + keys[i])
  }

  /**
   * The INSERT statement `insert_record` issues: the columns and the
   * placeholders both list the data's keys in the data's order, and the
   * parameters are the data itself.
   */
  function InsertStatement<V>(table: string, data: OrderedDict.Dict<string, V>): (st: Statement<V>)
    ensures st.params == data
    ensures data == [] ==> st.sql == "INSERT INTO " + table + " () VALUES ()"
    ensures data != [] ==>
      var keys := OrderedDict.Keys(data);
      st.sql == "INSERT INTO " + table + " (" + Text.Join(keys, ", ") + ") VALUES (" + (":" + Text.Join(keys, ", :")) + ")"
  {
    var keys := OrderedDict.Keys(data);
    PlaceholdersMatchColumns(keys, ", ");
    assert ", " + ":" == ", :";
    Statement("INSERT INTO " + table + " (" + Text.Join(keys, ", ") + ") VALUES ("
                + Text.Join(Placeholders(keys), ", ") + ")", data)
  }

  /**
   * The placeholder list is the column list with a `:` before the first
   * column and after every separator, so it is one character longer per
   * column.
   */
  lemma {:induction false} PlaceholdersMatchColumns(keys: seq<string>, sep: string)
    ensures keys == [] ==> Text.Join(Placeholders(keys), sep) == ""
    ensures keys != [] ==> Text.Join(Placeholders(keys), sep) == ":" + Text.Join(keys, sep + ":")
    ensures |Text.Join(Placeholders(keys), sep)| == |Text.Join(keys, sep)| + |keys|
  {
    if |keys| > 1 {
      PlaceholdersMatchColumns(keys[1..], sep);
      assert Placeholders(keys)[1..] == Placeholders(keys[1..]);
    }
  }

  /** `SELECT COUNT(*) as count FROM {table}`. */
  function CountSql(table: string): string
  {
    "SELECT COUNT(*) as count FROM " + table
  }

  const LastInsertIdSql: string := "SELECT LAST_INSERT_ID() as id"

  /**
   * `result[0][column] if result else 0`: the first row's value, 0 without
   * rows, and the `KeyError` when the first row lacks the column.
   */
  function FirstValue(rows: seq<Row>, column: string): (r: Result<int>)
    ensures rows == [] ==> r == Ok(0)
    ensures rows != [] && column in rows[0] ==> r == Ok(rows[0][column])
    ensures r.Err? <==> rows != [] && column !in rows[0]
  {
    if rows == [] then Ok(0)
    else if column in rows[0] then Ok(rows[0][column])
    else Err("'" + column + "'")
  }

  /** `get_table_count`: the count the count query returns, given its rows. */
  function GetTableCount(rows: seq<Row>): (r: Result<int>)
    ensures rows == [] ==> r == Ok(0)
    ensures rows != [] && "count" in rows[0] ==> r == Ok(rows[0]["count"])
    ensures r.Err? <==> rows != [] && "count" !in rows[0]
  {
    FirstValue(rows, "count")
  }

  /** `insert_record`'s return: the id the last-insert-id query returns, given its rows. */
  function InsertedId(rows: seq<Row>): (r: Result<int>)
    ensures rows == [] ==> r == Ok(0)
    ensures rows != [] && "id" in rows[0] ==> r == Ok(rows[0]["id"])
    ensures r.Err? <==> rows != [] && "id" !in rows[0]
  {
    FirstValue(rows, "id")
  }
}
