/** The browser client's `TableQuery`: a builder whose setters change the
    query in place and return it, and `execute`, which lays the query out
    as URL parameters and shapes the rows the database endpoint returns.
    Values given to `eq` are taken already converted with `String(value)`. */
module QueryBuilder {
  import opened Js

  /** One `{ [field]: value }` condition added by `eq`. */
  datatype Condition = Condition(field: string, value: string)

  datatype Ordering = Ordering(field: string, ascending: bool)

  /** One `params.append(key, value)`. */
  datatype Param = Param(key: string, value: string)

  /** A row of a table, by column. */
  type Row = map<string, string>

  /** What the endpoint answers: the rows, a non-OK status with an optional
      `error` text, or a network failure with its message. */
  datatype DbResponse =
    | DbRows(rows: seq<Row>)
    | DbRefused(error: Option<string>)
    | DbUnreachable(message: string)

  /** The `{ data, error }` pair `execute` resolves to. */
  datatype QueryResult =
    | Many(rows: seq<Row>)          // data is the whole array
    | One(row: Option<Row>)         // data is the first row, or null
    | QueryFailed(message: string)  // data is null

  /** The parameters for the conditions, in the order `eq` was called. */
  function ConditionParams(conds: seq<Condition>): (r: seq<Param>)
    ensures |r| == |conds|
    ensures forall i :: 0 <= i < |conds| ==> r[i].key == conds[i].field && r[i].value == conds[i].value
  {
    if conds == [] then [] else ConditionParams(conds[..|conds| - 1]) + [Param(conds[|conds| - 1].field, conds[|conds| - 1].value)]
  }

  function OrderParams(o: Option<Ordering>): seq<Param>
  {
    match o
    case None => []
    case Some(ord) => [Param("orderBy", ord.field), Param("order", if ord.ascending then "asc" else "desc")]
  }

  /** `if (this.limitValue)`: an unset limit and a limit of 0 are both skipped. */
  function LimitParams(l: Option<int>): seq<Param>
  {
    if l.Some? && l.value != 0 then [Param("limit", NumText(l.value))] else []
  }

  /** All parameters of a query: conditions, then ordering, then limit. */
  function QueryParams(conds: seq<Condition>, o: Option<Ordering>, l: Option<int>): seq<Param>
  {
    ConditionParams(conds) + OrderParams(o) + LimitParams(l)
  }

  /** The layout of the parameters: one per condition in call order, then
      `orderBy` and `order` exactly when an ordering is set, and `limit` last
      exactly when the limit is set and non-zero. */
  lemma ParamsLayout(conds: seq<Condition>, o: Option<Ordering>, l: Option<int>)
    ensures var p := QueryParams(conds, o, l);
            && |p| == |conds| + (if o.Some? then 2 else 0) + (if l.Some? && l.value != 0 then 1 else 0)
            && (forall i :: 0 <= i < |conds| ==> p[i] == Param(conds[i].field, conds[i].value))
            && (o.Some? ==> p[|conds|] == Param("orderBy", o.value.field)
                            && p[|conds| + 1].key == "order"
                            && (p[|conds| + 1].value == "asc" <==> o.value.ascending))
            && (l.Some? && l.value != 0 ==> p[|p| - 1] == Param("limit", NumText(l.value)))
  {
    var p := QueryParams(conds, o, l);
    var c := ConditionParams(conds);
    forall i | 0 <= i < |conds| ensures p[i] == Param(conds[i].field, conds[i].value) {
      assert p[i] == c[i];
    }
  }

  /** How `execute` shapes the answer: any failure becomes the error
      message; with a limit of exactly 1 the data is the first row or null. */
  function Shape(response: DbResponse, limitValue: Option<int>): (r: QueryResult)
    ensures response.DbRows? && limitValue == Some(1) ==>
              r == One(if |response.rows| == 0 then None else Some(response.rows[0]))
    ensures response.DbRows? && limitValue != Some(1) ==> r == Many(response.rows)
    ensures response.DbRefused? ==>
              r == QueryFailed(if response.error.Some? && response.error.value != "" then response.error.value
                               else "Database query failed")
  {
    match response
    case DbRows(rows) =>
      if limitValue == Some(1) then One(if |rows| > 0 then Some(rows[0]) else None) else Many(rows)
    case DbRefused(error) =>
      QueryFailed(if error.Some? && error.value != "" then error.value else "Database query failed")
    case DbUnreachable(message) => QueryFailed(message)
  }

  class TableQuery {
    var table: string
    var selectFields: string
    var whereConditions: seq<Condition>
    var limitValue: Option<int>
    var orderByField: Option<Ordering>

    /** A fresh query selects '*' with no conditions, no limit and no order. */
    constructor(table: string)
      ensures this.table == table && selectFields == "*" && whereConditions == []
      ensures limitValue == None && orderByField == None
    {
      this.table := table;
      selectFields := "*";
      whereConditions := [];
      limitValue := None;
      orderByField := None;
    }

    method Select(fields: string) returns (q: TableQuery)
      modifies this
      ensures q == this && selectFields == fields
      ensures table == old(table) && whereConditions == old(whereConditions)
      ensures limitValue == old(limitValue) && orderByField == old(orderByField)
    {
      selectFields := fields;
      q := this;
    }

    /** `eq` appends one condition after the earlier ones. */
    method Eq(field: string, value: string) returns (q: TableQuery)
      modifies this
      ensures q == this && whereConditions == old(whereConditions) + [Condition(field, value)]
      ensures table == old(table) && selectFields == old(selectFields)
      ensures limitValue == old(limitValue) && orderByField == old(orderByField)
    {
      whereConditions := whereConditions + [Condition(field, value)];
      q := this;
    }

    method Limit(count: int) returns (q: TableQuery)
      modifies this
      ensures q == this && limitValue == Some(count)
      ensures table == old(table) && selectFields == old(selectFields)
      ensures whereConditions == old(whereConditions) && orderByField == old(orderByField)
    {
      limitValue := Some(count);
      q := this;
    }

    /** The order is ascending unless `ascending: false` is passed. */
    method Order(field: string, ascending: Option<bool>) returns (q: TableQuery)
      modifies this
      ensures q == this && orderByField == Some(Ordering(field, ascending != Some(false)))
      ensures table == old(table) && selectFields == old(selectFields)
      ensures whereConditions == old(whereConditions) && limitValue == old(limitValue)
    {
      orderByField := Some(Ordering(field, ascending != Some(false)));
      q := this;
    }

    /** `single()` is a limit of 1. */
    method Single() returns (q: TableQuery)
      modifies this
      ensures q == this && limitValue == Some(1)
      ensures table == old(table) && selectFields == old(selectFields)
      ensures whereConditions == old(whereConditions) && orderByField == old(orderByField)
    {
      limitValue := Some(1);
      q := this;
    }

    /** The parameter list `execute` builds, one `append` at a time. */
    method Params() returns (params: seq<Param>)
      ensures params == QueryParams(whereConditions, orderByField, limitValue)
    {
      params := [];
      var i := 0;
      while i < |whereConditions|
        invariant 0 <= i <= |whereConditions|
        invariant params == ConditionParams(whereConditions[..i])
      {
        var condition := whereConditions[i];
        assert whereConditions[..i + 1] == whereConditions[..i] + [condition];
        params := params + [Param(condition.field, condition.value)];
        i := i + 1;
      }
      assert whereConditions[..i] == whereConditions;
      if orderByField.Some? {
        params := params + [Param("orderBy", orderByField.value.field)];
        params := params + [Param("order", if orderByField.value.ascending then "asc" else "desc")];
      }
      if limitValue.Some? && limitValue.value != 0 {
        params := params + [Param("limit", NumText(limitValue.value))];
      }
    }

    /** `execute`: the parameters sent and the result for the endpoint's
        answer. */
    method Execute(response: DbResponse) returns (params: seq<Param>, result: QueryResult)
      ensures params == QueryParams(whereConditions, orderByField, limitValue)
      ensures result == Shape(response, limitValue)
    {
      params := Params();
      result := Shape(response, limitValue);
    }
  }

  /** `single()` on a fresh query: the parameters are just `limit=1`, and the
      data is the first row, or null when there is none. */
  method SingleRow(table: string, response: DbResponse) returns (params: seq<Param>, result: QueryResult)
    ensures params == [Param("limit", "1")]
    ensures response.DbRows? ==>
              result == One(if |response.rows| == 0 then None else Some(response.rows[0]))
  {
    var q := new TableQuery(table);
    q := q.Single();
    params, result := q.Execute(response);
    assert NumText(1) == "1";
  }

  /** Conditions come out in call order, before the ordering and limit set
      earlier: `eq(a).order(f).eq(b).limit(n)` yields a, b, orderBy, order, limit. */
  method ChainedQuery(table: string, a: Condition, f: string, b: Condition, n: int)
    returns (params: seq<Param>)
    requires n != 0
    ensures params == [Param(a.field, a.value), Param(b.field, b.value),
                       Param("orderBy", f), Param("order", "asc"), Param("limit", NumText(n))]
  {
    var q := new TableQuery(table);
    q := q.Eq(a.field, a.value);
    q := q.Order(f, None);
    q := q.Eq(b.field, b.value);
    q := q.Limit(n);
    params := q.Params();
    assert q.whereConditions == [a, b];
  }
}
