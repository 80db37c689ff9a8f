/** The dynamic `UPDATE … SET` statements the backend builds: a list of column
    assignments, each either `column = $i` or `column = CURRENT_TIMESTAMP`, a
    `WHERE` list of `column = $j` conditions, and the positional parameter list
    that the placeholders index into. The builder mirrors the `updateFields.push`
    / `values.push` / `valueIndex++` pattern of the source. */
module SqlUpdate {
  import opened Credentials

  /** A value bound to a placeholder. */
  datatype SqlValue =
    | SText(text: string)
    | SNull
    | SBool(flag: bool)
    | SInt(number: int)
    | SHash(hash: PasswordHash)
    | STextArray(items: seq<string>)

  datatype Assignment<C> = Param(column: C, index: nat) | CurrentTimestamp(column: C)

  datatype Condition<C> = Condition(column: C, index: nat)

  datatype Statement<C> = Update(assignments: seq<Assignment<C>>, where: seq<Condition<C>>, values: seq<SqlValue>)

  /** The placeholder numbers of the SET list, left to right. */
  function Placeholders<C>(a: seq<Assignment<C>>): seq<nat> {
    if a == [] then []
    else Placeholders(a[..|a| - 1]) + (if a[|a| - 1].Param? then [a[|a| - 1].index] else [])
  }

  function ConditionIndices<C>(w: seq<Condition<C>>): (r: seq<nat>)
    ensures |r| == |w|
    ensures forall k :: 0 <= k < |w| ==> r[k] == w[k].index
  {
    if w == [] then [] else [w[0].index] + ConditionIndices(w[1..])
  }

  /** The numbers `1, 2, …, |p|` in order. */
  ghost predicate Consecutive(p: seq<nat>) {
    forall k :: 0 <= k < |p| ==> p[k] == k + 1
  }

  /** Every placeholder, read left to right through SET and WHERE, is the next
      number, and there are exactly as many as bound values: `$i` is bound to
      `values[i-1]`. */
  ghost predicate WellFormed<C>(st: Statement<C>) {
    var p := Placeholders(st.assignments) + ConditionIndices(st.where);
    |p| == |st.values| && Consecutive(p)
  }

  /** What a statement assigns to one column. */
  datatype Rhs = Keep | Value(value: SqlValue) | Now

  /** The right-hand side for `c`; on repeated columns the last assignment wins. */
  function RhsOf<C(==)>(a: seq<Assignment<C>>, values: seq<SqlValue>, c: C): Rhs {
    if a == [] then Keep
    else
      var last := a[|a| - 1];
      if last.column != c then RhsOf(a[..|a| - 1], values, c)
      else match last
        case CurrentTimestamp(_) => Now
        case Param(_, i) => if 1 <= i <= |values| then Value(values[i - 1]) else Keep
  }

  /** A row is targeted when each WHERE column holds the value bound to its placeholder. */
  predicate Targets<C>(st: Statement<C>, field: C -> SqlValue) {
    forall k :: 0 <= k < |st.where| ==>
      1 <= st.where[k].index <= |st.values| && field(st.where[k].column) == st.values[st.where[k].index - 1]
  }

  ghost predicate IndicesBelow<C>(a: seq<Assignment<C>>, n: nat) {
    forall k :: 0 <= k < |a| && a[k].Param? ==> 1 <= a[k].index <= n
  }

  /** Binding more values after the used ones changes no right-hand side. */
  lemma {:induction false} RhsOfExtend<C>(a: seq<Assignment<C>>, values: seq<SqlValue>, extra: seq<SqlValue>, c: C)
    requires IndicesBelow(a, |values|)
    ensures RhsOf(a, values + extra, c) == RhsOf(a, values, c)
  {
    if a != [] {
      var last := a[|a| - 1];
      if last.column != c {
        RhsOfExtend(a[..|a| - 1], values, extra, c);
      } else if last.Param? {
        assert (values + extra)[last.index - 1] == values[last.index - 1];
      }
    }
  }

  /** `columns[0] = $first AND columns[1] = $first+1 …` */
  function Conditions<C>(columns: seq<C>, first: nat): (w: seq<Condition<C>>)
    ensures |w| == |columns|
    ensures forall k :: 0 <= k < |columns| ==> w[k] == Condition(columns[k], first + k)
  {
    if columns == [] then [] else [Condition(columns[0], first)] + Conditions(columns[1..], first + 1)
  }

  /** Conditions numbered after the SET list's placeholders complete a well-formed statement. */
  lemma WhereWellFormed<C>(a: seq<Assignment<C>>, values: seq<SqlValue>, columns: seq<C>, keys: seq<SqlValue>)
    requires |Placeholders(a)| == |values| && Consecutive(Placeholders(a)) && |columns| == |keys|
    ensures WellFormed(Update(a, Conditions(columns, |values| + 1), values + keys))
  {
    var where := Conditions(columns, |values| + 1);
    var p := Placeholders(a) + ConditionIndices(where);
    forall k | 0 <= k < |p| ensures p[k] == k + 1 {
      if k >= |values| {
        assert p[k] == ConditionIndices(where)[k - |values|] == where[k - |values|].index;
      } else {
        assert p[k] == Placeholders(a)[k];
      }
    }
  }

  /** The SET list under construction: the `updateFields` and `values` arrays of
      the source, whose `valueIndex` is always one past the last bound value. */
  datatype Builder<C(==,!new)> = Builder(assignments: seq<Assignment<C>>, values: seq<SqlValue>) {

    /** Every placeholder so far is the next number and names a bound value. */
    ghost predicate Valid() {
      |Placeholders(assignments)| == |values| && Consecutive(Placeholders(assignments))
      && IndicesBelow(assignments, |values|)
    }

    function ValueIndex(): nat {
      |values| + 1
    }

    /** `updateFields.push(column + " = $" + valueIndex++); values.push(v)` */
    method Push(c: C, v: SqlValue) returns (r: Builder<C>)
      requires Valid()
      ensures r.Valid()
      ensures r.assignments == assignments + [Param(c, ValueIndex())] && r.values == values + [v]
      ensures forall d :: RhsOf(r.assignments, r.values, d) == if d == c then Value(v) else RhsOf(assignments, values, d)
    {
      r := Builder(assignments + [Param(c, ValueIndex())], values + [v]);
      assert r.assignments[..|r.assignments| - 1] == assignments;
      forall d | d != c ensures RhsOf(r.assignments, r.values, d) == RhsOf(assignments, values, d) {
        RhsOfExtend(assignments, values, [v], d);
      }
    }

    /** `updateFields.push(column + " = CURRENT_TIMESTAMP")` */
    method PushNow(c: C) returns (r: Builder<C>)
      requires Valid()
      ensures r.Valid()
      ensures r.assignments == assignments + [CurrentTimestamp(c)] && r.values == values
      ensures forall d :: RhsOf(r.assignments, r.values, d) == if d == c then Now else RhsOf(assignments, values, d)
    {
      r := Builder(assignments + [CurrentTimestamp(c)], values);
      assert r.assignments[..|r.assignments| - 1] == assignments;
    }

    /** Appends `WHERE columns[0] = $n AND columns[1] = $n+1 …`, binding `keys`. */
    method Where(columns: seq<C>, keys: seq<SqlValue>) returns (st: Statement<C>)
      requires Valid() && |columns| == |keys|
      ensures WellFormed(st)
      ensures st.assignments == assignments && st.values == values + keys
      ensures |st.where| == |columns|
      ensures forall k :: 0 <= k < |columns| ==> st.where[k] == Condition(columns[k], ValueIndex() + k)
      ensures forall c :: RhsOf(st.assignments, st.values, c) == RhsOf(assignments, values, c)
    {
      WhereWellFormed(assignments, values, columns, keys);
      forall c ensures RhsOf(assignments, values + keys, c) == RhsOf(assignments, values, c) {
        RhsOfExtend(assignments, values, keys, c);
      }
      st := Update(assignments, Conditions(columns, ValueIndex()), values + keys);
    }
  }

  /** One `if (…) { updateFields.push(`column = $n`); values.push(value); }` block:
      the column it sets, whether its condition holds, and the value it binds. */
  datatype Field<C> = Field(column: C, present: bool, value: SqlValue)

  /** What running `fields` in order assigns to `c`: the value of the last block
      for `c` whose condition holds, or nothing. */
  function LastFor<C(==)>(fields: seq<Field<C>>, c: C): Rhs {
    if fields == [] then Keep
    else
      var f := fields[|fields| - 1];
      if f.column == c && f.present then Value(f.value) else LastFor(fields[..|fields| - 1], c)
  }

  /** No two blocks set the same column. */
  ghost predicate DistinctColumns<C>(fields: seq<Field<C>>) {
    forall j, k :: 0 <= j < k < |fields| ==> fields[j].column != fields[k].column
  }

  /** With one block per column, a column's block alone decides what it is assigned. */
  lemma {:induction false} LastForAt<C>(fields: seq<Field<C>>, i: nat)
    requires DistinctColumns(fields) && i < |fields|
    ensures LastFor(fields, fields[i].column) == if fields[i].present then Value(fields[i].value) else Keep
  {
    var init := fields[..|fields| - 1];
    if i < |fields| - 1 {
      assert init[i] == fields[i];
      LastForAt(init, i);
    } else {
      LastForAbsent(init, fields[i].column);
    }
  }

  /** A column no block sets is left alone. */
  lemma {:induction false} LastForAbsent<C>(fields: seq<Field<C>>, c: C)
    requires forall k :: 0 <= k < |fields| ==> fields[k].column != c
    ensures LastFor(fields, c) == Keep
  {
    if fields != [] {
      LastForAbsent(fields[..|fields| - 1], c);
    }
  }

  /** `const updateFields = []; const values = []; let valueIndex = 1;` followed by
      the blocks `fields`, in order. */
  method SetList<C(==,!new)>(fields: seq<Field<C>>) returns (b: Builder<C>)
    ensures b.Valid()
    ensures forall c :: RhsOf(b.assignments, b.values, c) == LastFor(fields, c)
  {
    b := Builder([], []);
    for i := 0 to |fields|
      invariant b.Valid()
      invariant forall c :: RhsOf(b.assignments, b.values, c) == LastFor(fields[..i], c)
    {
      assert fields[..i + 1][..i] == fields[..i];
      if fields[i].present {
        b := b.Push(fields[i].column, fields[i].value);
      }
    }
    assert fields[..|fields|] == fields;
  }
}
