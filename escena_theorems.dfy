/**
 * What loadEscenas promises: the lines it counts are the rows it adds,
 * a line with the wrong number of fields is skipped, and the only thing
 * that stops it early is a numeric field that does not parse. The
 * corrected loader never stops early and loads exactly the well-formed
 * lines.
 */
module EscenaTheorems {
  import opened JavaLang
  import opened Store
  import opened Loaders
  import opened InsertTheorems

  /** A line insertEscena turns into a row: four fields, the three numeric ones integers. */
  predicate IsScene(line: string)
  {
    var values := Split(line, ';');
    |values| == 4 && SceneRow(values).Some?
  }

  function SceneOf(line: string): Row
    requires IsScene(line)
  {
    SceneRow(Split(line, ';')).value
  }

  /** A line on which insertEscena throws: four fields, a numeric one not an integer. */
  predicate BadNumber(line: string)
  {
    var values := Split(line, ';');
    |values| == 4 && SceneRow(values).None?
  }

  /** The rows of the well-formed lines of `lines`, in order. */
  function SceneRows(lines: seq<string>): seq<Row>
    decreases |lines|
  {
    if lines == [] then []
    else (if IsScene(lines[0]) then [SceneOf(lines[0])] else []) + SceneRows(lines[1..])
  }

  /** One insertEscena leaves the tables as they were or adds one row to escena and returns true. */
  lemma InsertEscenaStep(acc: Oracle, t: Tables, line: string)
    ensures var s := InsertEscenaSpec(acc, t, line);
      s.tables == t || (s.out == Normal(true) && s.tables.protagoniza == t.protagoniza && s.tables.rival == t.rival &&
        |s.tables.escena| == |t.escena| + 1 && s.tables.escena[..|t.escena|] == t.escena)
  {
  }

  /**
   * The loop adds rows to escena only, never takes one away, and a count it
   * returns is the number of rows it added; it throws only
   * NumberFormatException.
   */
  lemma {:induction false} EscenasCount(acc: Oracle, t: Tables, lines: seq<string>)
    ensures var r := EscenasLoop(acc, t, lines);
      r.tables.protagoniza == t.protagoniza && r.tables.rival == t.rival &&
      |t.escena| <= |r.tables.escena| <= |t.escena| + |lines| && r.tables.escena[..|t.escena|] == t.escena
    ensures var r := EscenasLoop(acc, t, lines);
      r.out.Normal? ==> r.out.value == |r.tables.escena| - |t.escena|
    ensures var r := EscenasLoop(acc, t, lines);
      r.out.Thrown? ==> r.out.exception == NumberFormatException
    decreases |lines|
  {
    if lines != [] {
      var s := InsertEscenaSpec(acc, t, lines[0]);
      InsertEscenaStep(acc, t, lines[0]);
      EscenasCount(acc, s.tables, lines[1..]);
      var r := EscenasLoop(acc, s.tables, lines[1..]);
      assert r.tables.escena[..|t.escena|] == r.tables.escena[..|s.tables.escena|][..|t.escena|];
    }
  }

  /** The loop over `lines[i..]` throws when one of those lines has a bad number. */
  lemma {:induction false} EscenasThrowOn(acc: Oracle, t: Tables, lines: seq<string>, i: nat, k: nat)
    requires i <= k < |lines| && BadNumber(lines[k])
    ensures EscenasLoop(acc, t, lines[i..]).out.Thrown?
    decreases k - i
  {
    EscenasLoopAt(acc, t, lines, i);
    var s := InsertEscenaSpec(acc, t, lines[i]);
    if s.out.Normal? {
      EscenasThrowOn(acc, s.tables, lines, i + 1, k);
    }
  }

  /** When the loop over `lines[i..]` throws, one of those lines has a bad number. */
  lemma {:induction false} EscenasThrownAt(acc: Oracle, t: Tables, lines: seq<string>, i: nat) returns (k: nat)
    requires i <= |lines| && EscenasLoop(acc, t, lines[i..]).out.Thrown?
    ensures i <= k < |lines| && BadNumber(lines[k])
    decreases |lines| - i
  {
    if i < |lines| {
      EscenasLoopAt(acc, t, lines, i);
      var s := InsertEscenaSpec(acc, t, lines[i]);
      if s.out.Thrown? {
        k := i;
      } else {
        k := EscenasThrownAt(acc, s.tables, lines, i + 1);
      }
    }
  }

  /** The loop throws exactly when some line has four fields and a numeric one that does not parse. */
  lemma EscenasThrows(acc: Oracle, t: Tables, lines: seq<string>)
    ensures EscenasLoop(acc, t, lines).out.Thrown? <==> exists k :: 0 <= k < |lines| && BadNumber(lines[k])
  {
    assert lines[0..] == lines;
    if EscenasLoop(acc, t, lines).out.Thrown? {
      var k := EscenasThrownAt(acc, t, lines, 0);
    }
    if k :| 0 <= k < |lines| && BadNumber(lines[k]) {
      EscenasThrowOn(acc, t, lines, 0, k);
    }
  }

  /** When reading `a` throws, reading `a + b` throws the same way, with the same tables. */
  lemma {:induction false} EscenasAppendThrown(acc: Oracle, t: Tables, a: seq<string>, b: seq<string>)
    requires EscenasLoop(acc, t, a).out.Thrown?
    ensures EscenasLoop(acc, t, a + b) == EscenasLoop(acc, t, a)
    decreases |a|
  {
    assert (a + b)[0] == a[0] && (a + b)[1..] == a[1..] + b;
    var s0 := InsertEscenaSpec(acc, t, a[0]);
    if s0.out.Normal? {
      EscenasAppendThrown(acc, s0.tables, a[1..], b);
    }
  }

  /**
   * When reading `a` returns normally, reading `a + b` goes on with `b`
   * from the tables `a` left, and counts the lines of both.
   */
  lemma {:induction false} EscenasAppendNormal(acc: Oracle, t: Tables, a: seq<string>, b: seq<string>)
    requires EscenasLoop(acc, t, a).out.Normal?
    ensures var r := EscenasLoop(acc, t, a);
      var s := EscenasLoop(acc, r.tables, b);
      EscenasLoop(acc, t, a + b) == Step(Plus(s.out, r.out.value), s.tables)
    decreases |a|
  {
    if a == [] {
      assert a + b == b;
      var s := EscenasLoop(acc, t, b);
      assert Plus(s.out, 0) == s.out;
    } else {
      assert (a + b)[0] == a[0] && (a + b)[1..] == a[1..] + b;
      var s0 := InsertEscenaSpec(acc, t, a[0]);
      var inc := if s0.out.value then 1 else 0;
      EscenasAppendNormal(acc, s0.tables, a[1..], b);
      var r' := EscenasLoop(acc, s0.tables, a[1..]);
      assert EscenasLoop(acc, t, a) == Step(Plus(r'.out, inc), r'.tables);
      var s := EscenasLoop(acc, r'.tables, b);
      var whole := EscenasLoop(acc, s0.tables, a[1..] + b);
      assert whole == Step(Plus(s.out, r'.out.value), s.tables);
      assert EscenasLoop(acc, t, a + b) == Step(Plus(whole.out, inc), whole.tables);
      PlusPlus(s.out, r'.out.value, inc);
      assert EscenasLoop(acc, t, a).out.value == r'.out.value + inc;
    }
  }

  /** A line without four fields is passed over: insertEscena returns false and changes nothing. */
  lemma EscenasSkipsWrongArity(acc: Oracle, t: Tables, line: string, rest: seq<string>)
    requires |Split(line, ';')| != 4
    ensures EscenasLoop(acc, t, [line] + rest) == EscenasLoop(acc, t, rest)
  {
    assert ([line] + rest)[1..] == rest;
    var r := EscenasLoop(acc, t, rest);
    assert Plus(r.out, 0) == r.out;
  }

  /**
   * When no line has a bad number and the server accepts the scene rows,
   * the loop adds exactly the rows of the well-formed lines and returns
   * their number.
   */
  lemma {:induction false} EscenasLoadsAll(acc: Oracle, t: Tables, lines: seq<string>)
    requires forall k :: 0 <= k < |lines| ==> !BadNumber(lines[k])
    requires InsertsAll(acc, Escena, t, SceneRows(lines))
    ensures EscenasLoop(acc, t, lines) == Step(Normal(|SceneRows(lines)|), AppendAll(t, Escena, SceneRows(lines)))
    decreases |lines|
  {
    if lines != [] {
      assert !BadNumber(lines[0]);
      assert forall k :: 0 <= k < |lines| - 1 ==> lines[1..][k] == lines[k + 1];
      var rest := SceneRows(lines[1..]);
      if IsScene(lines[0]) {
        var row := SceneOf(lines[0]);
        assert SceneRows(lines) == [row] + rest;
        assert ([row] + rest)[1..] == rest;
        var t' := t.Append(Escena, row);
        EscenasLoadsAll(acc, t', lines[1..]);
        AppendAllCons(t, Escena, row, rest);
      } else {
        assert SceneRows(lines) == rest;
        EscenasLoadsAll(acc, t, lines[1..]);
        var r := EscenasLoop(acc, t, lines[1..]);
        assert Plus(r.out, 0) == r.out;
      }
    }
  }

  /** loadEscenas: 0 for a file it cannot open; otherwise what the loop promises. */
  lemma LoadEscenasOutcome(acc: Oracle, t: Tables, file: Option<seq<string>>)
    ensures file.None? ==> LoadEscenasSpec(acc, t, file) == Step(Normal(0), t)
    ensures var r := LoadEscenasSpec(acc, t, file);
      r.tables.protagoniza == t.protagoniza && r.tables.rival == t.rival &&
      |t.escena| <= |r.tables.escena| && r.tables.escena[..|t.escena|] == t.escena &&
      (r.out.Normal? ==> r.out.value == |r.tables.escena| - |t.escena|)
    ensures LoadEscenasSpec(acc, t, file).out.Thrown? <==>
      file.Some? && exists k :: 0 <= k < |file.value| && BadNumber(file.value[k])
  {
    if file.Some? {
      EscenasCount(acc, t, file.value);
      EscenasThrows(acc, t, file.value);
    }
  }

  /**
   * The corrected loop never throws, adds rows to escena only, and returns
   * the number it added.
   */
  lemma {:induction false} EscenasSkippingCount(acc: Oracle, t: Tables, lines: seq<string>)
    ensures var r := EscenasSkippingLoop(acc, t, lines);
      r.out.Normal? && r.out.value == |r.tables.escena| - |t.escena| &&
      r.tables.protagoniza == t.protagoniza && r.tables.rival == t.rival &&
      |t.escena| <= |r.tables.escena| <= |t.escena| + |lines| && r.tables.escena[..|t.escena|] == t.escena
    decreases |lines|
  {
    if lines != [] {
      var s := InsertEscenaCheckedSpec(acc, t, lines[0]);
      InsertEscenaStep(acc, t, lines[0]);
      EscenasSkippingCount(acc, s.tables, lines[1..]);
      var r := EscenasSkippingLoop(acc, s.tables, lines[1..]);
      assert r.tables.escena[..|t.escena|] == r.tables.escena[..|s.tables.escena|][..|t.escena|];
    }
  }

  /** Where the loop as written returns normally, the corrected loop does the same. */
  lemma {:induction false} EscenasSkippingAgrees(acc: Oracle, t: Tables, lines: seq<string>)
    requires EscenasLoop(acc, t, lines).out.Normal?
    ensures EscenasSkippingLoop(acc, t, lines) == EscenasLoop(acc, t, lines)
    decreases |lines|
  {
    if lines != [] {
      var s := InsertEscenaSpec(acc, t, lines[0]);
      EscenasSkippingAgrees(acc, s.tables, lines[1..]);
    }
  }

  /** The corrected loop passes over every line that is not a well-formed scene. */
  lemma EscenasSkippingSkips(acc: Oracle, t: Tables, line: string, rest: seq<string>)
    requires !IsScene(line)
    ensures EscenasSkippingLoop(acc, t, [line] + rest) == EscenasSkippingLoop(acc, t, rest)
  {
    assert ([line] + rest)[1..] == rest;
    var r := EscenasSkippingLoop(acc, t, rest);
    assert Plus(r.out, 0) == r.out;
  }

  /** The corrected loop over a well-formed first line the server accepts adds its row before those of the rest. */
  lemma EscenasSkippingTakes(acc: Oracle, t: Tables, lines: seq<string>, row: Row, rest: seq<Row>)
    requires lines != [] && IsScene(lines[0]) && row == SceneOf(lines[0]) && acc(Escena, t.escena, row)
    requires EscenasSkippingLoop(acc, t.Append(Escena, row), lines[1..]) ==
      Step(Normal(|rest|), AppendAll(t.Append(Escena, row), Escena, rest))
    ensures EscenasSkippingLoop(acc, t, lines) == Step(Normal(|[row] + rest|), AppendAll(t, Escena, [row] + rest))
  {
    AppendAllCons(t, Escena, row, rest);
  }

  /**
   * When the server accepts the scene rows, the corrected loop adds exactly
   * the rows of the well-formed lines, whatever else the file holds.
   */
  lemma {:induction false} EscenasSkippingLoadsAll(acc: Oracle, t: Tables, lines: seq<string>)
    requires InsertsAll(acc, Escena, t, SceneRows(lines))
    ensures EscenasSkippingLoop(acc, t, lines) ==
      Step(Normal(|SceneRows(lines)|), AppendAll(t, Escena, SceneRows(lines)))
    decreases |lines|
  {
    if lines != [] {
      var rest := SceneRows(lines[1..]);
      if IsScene(lines[0]) {
        var row := SceneOf(lines[0]);
        assert SceneRows(lines) == [row] + rest;
        assert ([row] + rest)[1..] == rest;
        EscenasSkippingLoadsAll(acc, t.Append(Escena, row), lines[1..]);
        EscenasSkippingTakes(acc, t, lines, row, rest);
      } else {
        assert SceneRows(lines) == rest;
        EscenasSkippingLoadsAll(acc, t, lines[1..]);
        var r := EscenasSkippingLoop(acc, t, lines[1..]);
        assert Plus(r.out, 0) == r.out;
      }
    }
  }
}
