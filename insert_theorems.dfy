/**
 * What one call of `insert` does, and the vocabulary the loader theorems
 * share: a run of rows the server accepts one after another, and the
 * tables after such a run.
 */
module InsertTheorems {
  import opened JavaLang
  import opened Store
  import opened Loaders

  /** The server accepts each of `rows` into `tb` in turn, starting from `t`. */
  predicate InsertsAll(acc: Oracle, tb: Table, t: Tables, rows: seq<Row>)
    decreases |rows|
  {
    rows == [] || (acc(tb, t.Get(tb), rows[0]) && InsertsAll(acc, tb, t.Append(tb, rows[0]), rows[1..]))
  }

  lemma InsertsAllCons(acc: Oracle, tb: Table, t: Tables, row: Row, rows: seq<Row>)
    ensures InsertsAll(acc, tb, t, [row] + rows) <==> acc(tb, t.Get(tb), row) && InsertsAll(acc, tb, t.Append(tb, row), rows)
  {
    assert ([row] + rows)[0] == row && ([row] + rows)[1..] == rows;
  }

  /** The tables with `rows` added to the end of `tb`. */
  function AppendAll(t: Tables, tb: Table, rows: seq<Row>): (r: Tables)
    ensures r.Get(tb) == t.Get(tb) + rows
    ensures tb != Escena ==> r.escena == t.escena
    ensures tb != Protagoniza ==> r.protagoniza == t.protagoniza
    ensures tb != Rival ==> r.rival == t.rival
  {
    match tb
    case Escena => t.(escena := t.escena + rows)
    case Protagoniza => t.(protagoniza := t.protagoniza + rows)
    case Rival => t.(rival := t.rival + rows)
  }

  lemma AppendAllCons(t: Tables, tb: Table, row: Row, rows: seq<Row>)
    ensures AppendAll(t.Append(tb, row), tb, rows) == AppendAll(t, tb, [row] + rows)
  {
    assert t.Get(tb) + [row] + rows == t.Get(tb) + ([row] + rows);
  }

  /** Binding every value of `values` from parameter 1 on writes exactly the parsed row. */
  lemma BindAll(values: seq<string>, params: Params)
    requires |values| <= |params| && IntsOf(values).Some?
    ensures BindInts(values, params, 0).out == Normal(true)
    ensures BindInts(values, params, 0).params == Overlaid(params, 0, IntsOf(values).value)
  {
    assert values[0..] == values;
    BindIntsOutcome(values, params, 0);
    BindIntsParams(values, params, 0);
  }

  /**
   * With one value per parameter and every value an integer, insert binds
   * exactly those values, whatever an earlier call left bound, and executes
   * that row: true and the row added when the server accepts it, false and
   * nothing changed otherwise.
   */
  lemma InsertBindsValues(acc: Oracle, t: Tables, st: Statement, params: Params, values: seq<string>)
    requires |values| == st.arity == |params| && IntsOf(values).Some?
    ensures var s := InsertSpec(acc, t, st, params, values);
      var row := IntsOf(values).value;
      Bound(s.params) == Some(row) &&
      s.out == Normal(acc(st.table, t.Get(st.table), row)) &&
      s.tables == if s.out.value then t.Append(st.table, row) else t
  {
    BindAll(values, params);
    var row := IntsOf(values).value;
    var p := Overlaid(params, 0, row);
    assert forall k :: 0 <= k < |p| ==> p[k] == Some(row[k]);
    var r := Bound(p).value;
    assert r == row;
  }

  /** One insert adds at most one row, the row it leaves bound, and only when it returns true. */
  lemma InsertFrame(acc: Oracle, t: Tables, st: Statement, params: Params, values: seq<string>)
    requires |params| == st.arity
    ensures var s := InsertSpec(acc, t, st, params, values);
      |s.params| == |params| &&
      (s.out == Normal(true) ==> (Bound(s.params).Some? &&
        Accepted(acc, t, st, Bound(s.params).value) && s.tables == t.Append(st.table, Bound(s.params).value))) &&
      (s.out != Normal(true) ==> s.tables == t)
  {
    assert values[0..] == values;
    BindIntsOutcome(values, params, 0);
  }

  /** An insert that returns true had an integer for each value and no more values than parameters. */
  lemma InsertParsed(acc: Oracle, t: Tables, st: Statement, params: Params, values: seq<string>)
    requires |params| == st.arity && InsertSpec(acc, t, st, params, values).out == Normal(true)
    ensures |values| <= |params| && IntsOf(values).Some?
  {
    assert values[0..] == values;
    BindIntsOutcome(values, params, 0);
  }

  /**
   * One insert adds at most one row, to the statement's table. It throws
   * only NumberFormatException, for a value that is not an integer; it
   * returns true only when every value parsed, there were no more values
   * than parameters, and the row then bound was accepted and added.
   */
  lemma InsertOutcome(acc: Oracle, t: Tables, st: Statement, params: Params, values: seq<string>)
    requires |params| == st.arity
    ensures var s := InsertSpec(acc, t, st, params, values); |s.params| == |params|
    ensures var s := InsertSpec(acc, t, st, params, values);
      s.out.Thrown? <==> exists k :: 0 <= k < |values| && k <= |params| && ParseInt(values[k]).None?
    ensures var s := InsertSpec(acc, t, st, params, values);
      s.out.Thrown? ==> s.out.exception == NumberFormatException
    ensures var s := InsertSpec(acc, t, st, params, values);
      s.out == Normal(true) ==> (|values| <= |params| && IntsOf(values).Some? && Bound(s.params).Some? &&
        Accepted(acc, t, st, Bound(s.params).value) && s.tables == t.Append(st.table, Bound(s.params).value))
    ensures var s := InsertSpec(acc, t, st, params, values); s.out != Normal(true) ==> s.tables == t
  {
    assert values[0..] == values;
    BindIntsOutcome(values, params, 0);
    var s := InsertSpec(acc, t, st, params, values);
    if s.out.Thrown? {
      var k := BindThrowsAt(values, params, 0);
    }
    if k :| 0 <= k < |values| && k <= |params| && ParseInt(values[k]).None? {
      BindNoParse(values, params, 0, k);
    }
  }

  /** Binding from index `i` throws when a value it reaches does not parse. */
  lemma {:induction false} BindNoParse(values: seq<string>, params: Params, i: nat, k: nat)
    requires i <= k < |values| && k <= |params| && ParseInt(values[k]).None?
    ensures BindInts(values, params, i).out.Thrown?
    decreases k - i
  {
    var v := ParseInt(values[i]);
    if v.Some? && i < k {
      BindNoParse(values, params[i := Some(IntValue(v.value))], i + 1, k);
    }
  }

  /** When binding from index `i` throws, it reached a value that does not parse. */
  lemma {:induction false} BindThrowsAt(values: seq<string>, params: Params, i: nat) returns (k: nat)
    requires i <= |params| && BindInts(values, params, i).out.Thrown?
    ensures i <= k < |values| && k <= |params| && ParseInt(values[k]).None?
    decreases |values| - i
  {
    var v := ParseInt(values[i]);
    if v.None? {
      k := i;
    } else {
      k := BindThrowsAt(values, params[i := Some(IntValue(v.value))], i + 1);
    }
  }

  /**
   * From freshly cleared parameters, insert succeeds exactly when the line
   * has one integer per parameter and the server accepts that row, which is
   * then the one added.
   */
  lemma InsertClearedExact(acc: Oracle, t: Tables, st: Statement, values: seq<string>)
    ensures var s := InsertSpec(acc, t, st, Unbound(st.arity), values);
      s.out == Normal(true) <==>
        |values| == st.arity && IntsOf(values).Some? && acc(st.table, t.Get(st.table), IntsOf(values).value)
    ensures var s := InsertSpec(acc, t, st, Unbound(st.arity), values);
      s.out == Normal(true) ==> s.tables == t.Append(st.table, IntsOf(values).value)
  {
    var params := Unbound(st.arity);
    var s := InsertSpec(acc, t, st, params, values);
    InsertOutcome(acc, t, st, params, values);
    if |values| < st.arity && IntsOf(values).Some? {
      ClearedBindingShort(values, st.arity);
    }
    if |values| == st.arity && IntsOf(values).Some? {
      InsertBindsValues(acc, t, st, params, values);
    }
  }

  /** From cleared parameters, fewer values than parameters leave a parameter unset. */
  lemma ClearedBindingShort(values: seq<string>, arity: nat)
    requires |values| < arity && IntsOf(values).Some?
    ensures Bound(BindInts(values, Unbound(arity), 0).params).None?
  {
    BindAll(values, Unbound(arity));
    var p := Overlaid(Unbound(arity), 0, IntsOf(values).value);
    assert p[|values|] == None;
  }

  /**
   * Binding does not look at the tables: an insert that returned true on
   * some tables binds the same row on any others, and executes it there.
   */
  lemma InsertRerun(acc: Oracle, t: Tables, t': Tables, st: Statement, params: Params, values: seq<string>)
    requires InsertSpec(acc, t, st, params, values).out == Normal(true)
    ensures var s, s' := InsertSpec(acc, t, st, params, values), InsertSpec(acc, t', st, params, values);
      s'.params == s.params && Bound(s.params).Some? &&
      s' == Insertion(Executed(acc, t', st, Bound(s.params).value).out, Executed(acc, t', st, Bound(s.params).value).tables, s.params)
  {
  }
}
