/** Parameterised WHERE clauses as the handlers assemble them: a condition
    names a column, a comparison and a placeholder `$k`, and `$k` stands for
    the k-th value of the parameter list sent with the query. A row is a map
    from the columns the query can see to their values. */
module Query {

  import opened Tables

  datatype Param = Text(text: string) | Number(number: real)

  datatype Column = Category | Status | Barangay | Price | Rating | ProductId | FarmerId

  /** `=`, `>=` and `<=`. */
  datatype Op = Eq | AtLeast | AtMost

  datatype Condition = Condition(column: Column, op: Op, placeholder: nat)

  type Row = map<Column, Param>

  /** Placeholders `$first`, `$first+1`, ... in order, and exactly as many values
      as the highest placeholder refers to. */
  ghost predicate Numbered(conds: seq<Condition>, values: seq<Param>, first: nat)
  {
    && first >= 1
    && |values| == first - 1 + |conds|
    && forall i :: 0 <= i < |conds| ==> conds[i].placeholder == first + i
  }

  predicate Compare(a: Param, op: Op, b: Param)
  {
    match op
    case Eq => a == b
    case AtLeast => a.Number? && b.Number? && a.number >= b.number
    case AtMost => a.Number? && b.Number? && a.number <= b.number
  }

  /** One condition of the WHERE clause, evaluated on one row. */
  predicate Holds(c: Condition, values: seq<Param>, row: Row)
  {
    && 1 <= c.placeholder <= |values|
    && c.column in row
    && Compare(row[c.column], c.op, values[c.placeholder - 1])
  }

  /** The whole conjunction of appended conditions. */
  predicate Selects(conds: seq<Condition>, values: seq<Param>, row: Row)
  {
    forall i :: 0 <= i < |conds| ==> Holds(conds[i], values, row)
  }

  /** Appending one condition and its value leaves the earlier conditions'
      meaning alone: their placeholders still point at the same values. */
  lemma PushCondition(conds: seq<Condition>, values: seq<Param>, c: Condition, v: Param)
    requires forall i :: 0 <= i < |conds| ==> 1 <= conds[i].placeholder <= |values|
    ensures forall row :: (Selects(conds + [c], values + [v], row)
      <==> Selects(conds, values, row) && Holds(c, values + [v], row))
  {
    forall row ensures Selects(conds + [c], values + [v], row)
      <==> Selects(conds, values, row) && Holds(c, values + [v], row)
    {
      forall i | 0 <= i < |conds| ensures Holds(conds[i], values + [v], row) == Holds(conds[i], values, row) {
        assert (values + [v])[conds[i].placeholder - 1] == values[conds[i].placeholder - 1];
      }
      assert forall i :: 0 <= i < |conds| ==> (conds + [c])[i] == conds[i];
      assert (conds + [c])[|conds|] == c;
    }
  }

  /** One optional filter of a handler: the column, the comparison and the
      value of its condition. */
  type Clause = (Column, Op, Param)

  predicate ClauseHolds(clause: Clause, row: Row)
  {
    clause.0 in row && Compare(row[clause.0], clause.1, clause.2)
  }

  /** The first n filters of a handler's fixed list hold on the row (an
      absent filter holds trivially). */
  predicate FirstClauses(clauses: seq<Option<Clause>>, n: nat, row: Row)
  {
    forall k :: 0 <= k < n && k < |clauses| && clauses[k].Some? ==> ClauseHolds(clauses[k].value, row)
  }

  /** Taking the n-th filter into account: an absent filter leaves the WHERE
      clause alone, a present one appends its condition with the next
      placeholder and its value, and either way the WHERE clause then selects
      the rows on which the first n + 1 filters hold. */
  lemma AppendClause(clauses: seq<Option<Clause>>, n: nat, conds: seq<Condition>, values: seq<Param>,
                     conds': seq<Condition>, values': seq<Param>)
    requires n < |clauses| && Numbered(conds, values, 1)
    requires forall row :: Selects(conds, values, row) <==> FirstClauses(clauses, n, row)
    requires clauses[n].None? ==> conds' == conds && values' == values
    requires clauses[n].Some? ==>
      && conds' == conds + [Condition(clauses[n].value.0, clauses[n].value.1, |values| + 1)]
      && values' == values + [clauses[n].value.2]
    ensures Numbered(conds', values', 1)
    ensures forall row :: Selects(conds', values', row) <==> FirstClauses(clauses, n + 1, row)
  {
    forall row ensures FirstClauses(clauses, n + 1, row) <==> (FirstClauses(clauses, n, row)
      && (clauses[n].Some? ==> ClauseHolds(clauses[n].value, row)))
    {
    }
    if clauses[n].Some? {
      var c := Condition(clauses[n].value.0, clauses[n].value.1, |values| + 1);
      PushCondition(conds, values, c, clauses[n].value.2);
      forall row ensures Holds(c, values', row) <==> ClauseHolds(clauses[n].value, row) {
      }
    }
  }

  /** No condition selects every row, as no filter does. */
  lemma NoClauses(clauses: seq<Option<Clause>>)
    ensures forall row :: Selects([], [], row) <==> FirstClauses(clauses, 0, row)
  {
  }

  /** Appends condition c, whose placeholder is the next free one, with its
      value v. */
  method Push(conds: seq<Condition>, values: seq<Param>, c: Condition, v: Param)
    returns (conds': seq<Condition>, values': seq<Param>)
    requires Numbered(conds, values, 1) && c.placeholder == |values| + 1
    ensures conds' == conds + [c] && values' == values + [v]
    ensures Numbered(conds', values', 1)
  {
    conds', values' := conds + [c], values + [v];
  }
}
