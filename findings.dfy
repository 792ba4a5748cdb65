/**
 * Files on which the loaders as written do not do what their documentation
 * says, each run through the model as written and through the corrected
 * model.
 */
module Findings {
  import opened JavaLang
  import opened Store
  import opened Dedup
  import opened Loaders
  import opened InsertTheorems
  import opened EscenaTheorems
  import opened ProtagonizaTheorems
  import opened TransactionTheorems

  /** A server that accepts every row. */
  const AcceptAll: Oracle := (tb: Table, rows: seq<Row>, row: Row) => true

  /** A server that enforces nothing but rival's primary key. */
  const RivalUnique: Oracle := (tb: Table, rows: seq<Row>, row: Row) => tb != Rival || row !in rows

  const Empty := Tables([], [], [])

  lemma RivalUniqueIsKeyed()
    ensures RivalKeyed(RivalUnique)
  {
  }

  /** Integer.parseInt of a single digit. */
  lemma ParseDigit(s: string)
    requires |s| == 1 && IsDigit(s[0])
    ensures ParseInt(s) == Some(s[0] as int - '0' as int)
  {
    assert s[..0] == [] && IsDecimal(s) && s[0] != '-' && s[0] != '+';
    assert DigitsValue(s) == DigitsValue(s[..0]) * 10 + (s[0] as int - '0' as int);
  }

  lemma ParseTen()
    ensures ParseInt("10") == Some(10)
  {
    assert IsDecimal("10");
    assert "10"[..1] == "1";
    assert DigitsValue("1") == 1;
  }

  // loadEscenas: a duration that is not an integer.

  const BadScene := ["1;2;Intro;five", "1;3;Fight;10"]

  lemma IntroSplits()
    ensures Split("1;2;Intro;five", ';') == ["1", "2", "Intro", "five"]
  {
    var f := ["1", "2", "Intro", "five"];
    assert Join(f, ';') == "1;2;Intro;five";
    SplitJoin(f, ';');
  }

  lemma FightSplits()
    ensures Split("1;3;Fight;10", ';') == ["1", "3", "Fight", "10"]
  {
    var f := ["1", "3", "Fight", "10"];
    assert Join(f, ';') == "1;3;Fight;10";
    SplitJoin(f, ';');
  }

  /**
   * As written, the NumberFormatException of the first line leaves
   * loadEscenas: nothing is loaded, and the valid second line is lost.
   */
  lemma LoadEscenasAborts()
    ensures LoadEscenasSpec(AcceptAll, Empty, Some(BadScene)) == Step(Thrown(NumberFormatException), Empty)
  {
    IntroSplits();
    assert ParseInt("five") == None;
  }

  lemma IntroSkipped()
    ensures InsertEscenaCheckedSpec(AcceptAll, Empty, "1;2;Intro;five") == Step(Normal(false), Empty)
  {
    IntroSplits();
    assert ParseInt("five") == None;
  }

  lemma FightRow()
    ensures SceneRow(["1", "3", "Fight", "10"]) == Some([IntValue(1), IntValue(3), TextValue("Fight"), IntValue(10)])
  {
    ParseTen();
    ParseDigit("1");
    ParseDigit("3");
  }

  lemma FightInserted()
    ensures InsertEscenaCheckedSpec(AcceptAll, Empty, "1;3;Fight;10") ==
      Step(Normal(true), Tables([[IntValue(1), IntValue(3), TextValue("Fight"), IntValue(10)]], [], []))
  {
    FightSplits();
    FightRow();
  }

  /** The corrected loader counts the first line as not inserted and loads the second. */
  lemma LoadEscenasSkippingLoadsRest()
    ensures LoadEscenasSkippingSpec(AcceptAll, Empty, Some(BadScene)) ==
      Step(Normal(1), Tables([[IntValue(1), IntValue(3), TextValue("Fight"), IntValue(10)]], [], []))
  {
    IntroSkipped();
    FightInserted();
    assert BadScene[1..] == ["1;3;Fight;10"] && BadScene[1..][1..] == [];
  }

  // loadProtagoniza: a line whose hero is not an integer, after one that went in.

  const HalfBadAssoc := ["1;2;3", "x;2;3"]

  const Row123 := [IntValue(1), IntValue(2), IntValue(3)]

  lemma OneTwoThreeSplits()
    ensures Split("1;2;3", ';') == ["1", "2", "3"]
  {
    var f := ["1", "2", "3"];
    assert Join(f, ';') == "1;2;3";
    SplitJoin(f, ';');
  }

  lemma XTwoThreeSplits()
    ensures Split("x;2;3", ';') == ["x", "2", "3"]
  {
    var f := ["x", "2", "3"];
    assert Join(f, ';') == "x;2;3";
    SplitJoin(f, ';');
  }

  lemma OneTwoThreeInts()
    ensures IntsOf(["1", "2", "3"]) == Some(Row123)
  {
    var v := ["1", "2", "3"];
    ParseDigit(v[0]);
    ParseDigit(v[1]);
    ParseDigit(v[2]);
    var r := IntsOf(v).value;
    assert r[0] == IntValue(1) && r[1] == IntValue(2) && r[2] == IntValue(3);
    assert r == Row123;
  }

  /** The first line, from unset parameters, is bound in full and goes in. */
  lemma FirstAssocInserted(params: Params)
    requires params == Unbound(3)
    ensures InsertSpec(AcceptAll, Empty, InsertIntoProtagoniza, params, ["1", "2", "3"]) ==
      Insertion(Normal(true), Tables([], [Row123], []), [Some(IntValue(1)), Some(IntValue(2)), Some(IntValue(3))])
  {
    var values := ["1", "2", "3"];
    OneTwoThreeInts();
    InsertBindsValues(AcceptAll, Empty, InsertIntoProtagoniza, params, values);
    InsertFrame(AcceptAll, Empty, InsertIntoProtagoniza, params, values);
  }

  /** The read loop adds the first row, then throws on the second line. */
  lemma HalfBadLoopThrows(lines: seq<string>)
    requires lines == HalfBadAssoc
    ensures var p := PrimaryLoop(AcceptAll, Empty, Unbound(3), lines, [], false);
      p.out == Thrown(NumberFormatException) && p.tables == Tables([], [Row123], [])
  {
    OneTwoThreeSplits();
    XTwoThreeSplits();
    FirstAssocInserted(Unbound(3));
    assert lines[1..] == ["x;2;3"] && lines[1..][1..] == [];
    assert ParseInt("x") == None;
  }

  /**
   * As written, the exception on the second line escapes loadProtagoniza
   * after the first row went in, and the finally block commits that row,
   * although the documentation promises that a failure inserts none.
   */
  lemma LoadProtagonizaKeepsPartial()
    ensures LoadProtagonizaSpec(AcceptAll, Empty, Some(HalfBadAssoc)) ==
      Step(Thrown(NumberFormatException), Tables([], [Row123], []))
  {
    var p := InsertProtagonizaSpec(AcceptAll, Empty, Unbound(3), Some(HalfBadAssoc), [], false);
    HalfBadLoopThrows(HalfBadAssoc);
    AfterPrimaryThrown(AcceptAll, Empty, p, false);
  }

  /** The corrected loader leaves the tables untouched and returns 0. */
  lemma AtomicRollsBackPartial()
    ensures LoadProtagonizaAtomicSpec(AcceptAll, Empty, Some(HalfBadAssoc)) == Step(Normal(0), Empty)
  {
    XTwoThreeSplits();
    assert ParseInt("x") == None;
    assert !IsAssoc(HalfBadAssoc[1]);
    AtomicRejects(AcceptAll, Empty, Some(HalfBadAssoc));
  }

  // loadProtagoniza: a short line after a full one.

  const ShortAssoc := ["1;2;3", "4;5"]

  const Set123: Params := [Some(IntValue(1)), Some(IntValue(2)), Some(IntValue(3))]

  /** What the first line leaves in the parameters of both example files. */
  lemma FirstAssocParams()
    ensures InsertSpec(AcceptAll, Empty, InsertIntoProtagoniza, Unbound(3), ["1", "2", "3"]) ==
      Insertion(Normal(true), Tables([], [Row123], []), Set123)
  {
    FirstAssocInserted(Unbound(3));
  }

  lemma FourFiveSplits()
    ensures Split("4;5", ';') == ["4", "5"]
  {
    var f := ["4", "5"];
    assert Join(f, ';') == "4;5";
    SplitJoin(f, ';');
  }

  lemma OneTwoKeySplits()
    ensures Split("1,2", ',') == ["1", "2"]
  {
    var f := ["1", "2"];
    assert Join(f, ',') == "1,2";
    SplitJoin(f, ',');
  }

  lemma FourFiveKeySplits()
    ensures Split("4,5", ',') == ["4", "5"]
  {
    var f := ["4", "5"];
    assert Join(f, ',') == "4,5";
    SplitJoin(f, ',');
  }

  /** Two one-digit integers. */
  lemma TwoDigitInts(v: seq<string>)
    requires |v| == 2 && |v[0]| == 1 && |v[1]| == 1 && IsDigit(v[0][0]) && IsDigit(v[1][0])
    ensures IntsOf(v) == Some([IntValue(v[0][0] as int - '0' as int), IntValue(v[1][0] as int - '0' as int)])
  {
    ParseDigit(v[0]);
    ParseDigit(v[1]);
    var r := IntsOf(v).value;
    assert r == [IntValue(v[0][0] as int - '0' as int), IntValue(v[1][0] as int - '0' as int)];
  }

  /** The row a fully set parameter list spells. */
  lemma BoundTo(params: Params, row: Row)
    requires |params| == |row| && forall k :: 0 <= k < |row| ==> params[k] == Some(row[k])
    ensures Bound(params) == Some(row)
  {
    var r := Bound(params).value;
    assert r == row;
  }

  /** One line of the read loop that inserts and has a hero and a villain: it goes on to the next. */
  lemma PrimaryStep(acc: Oracle, t: Tables, params: Params, lines: seq<string>, keys: seq<string>, corrected: bool,
                    values: seq<string>, s: Insertion)
    requires lines != [] && values == Split(lines[0], ';') && |values| >= 2
    requires s == InsertSpec(acc, t, InsertIntoProtagoniza, Cleared(params, corrected), values) && s.out == Normal(true)
    ensures PrimaryLoop(acc, t, params, lines, keys, corrected) ==
      PrimaryLoop(acc, s.tables, s.params, lines[1..], AddIfAbsent(keys, KeyOf(values, corrected)), corrected)
  {
  }

  /** One key of the rival loop that inserts: it goes on to the next. */
  lemma RivalStep(acc: Oracle, t: Tables, params: Params, keys: seq<string>, corrected: bool, s: Insertion)
    requires keys != []
    requires s == InsertSpec(acc, t, InsertIntoRival, Cleared(params, corrected), Split(keys[0], ',')) && s.out == Normal(true)
    ensures RivalLoop(acc, t, params, keys, corrected) == RivalLoop(acc, s.tables, s.params, keys[1..], corrected)
  {
  }

  /**
   * With two values, insert sets parameters 1 and 2 and leaves parameter 3
   * as the first line set it: the row executed is (4, 5, 3).
   */
  lemma StaleRowInserted(t: Tables, params: Params)
    requires t == Tables([], [Row123], []) && params == Set123
    ensures InsertSpec(AcceptAll, t, InsertIntoProtagoniza, params, ["4", "5"]) ==
      Insertion(Normal(true), Tables([], [Row123, [IntValue(4), IntValue(5), IntValue(3)]], []),
                [Some(IntValue(4)), Some(IntValue(5)), Some(IntValue(3))])
  {
    var values := ["4", "5"];
    TwoDigitInts(values);
    BindAll(values, params);
    var p := Overlaid(params, 0, [IntValue(4), IntValue(5)]);
    assert p == [Some(IntValue(4)), Some(IntValue(5)), Some(IntValue(3))];
    BoundTo(p, [IntValue(4), IntValue(5), IntValue(3)]);
  }

  lemma FirstKey()
    ensures AddIfAbsent([], KeyOf(["1", "2", "3"], false)) == ["1,2"]
  {
    var k := KeyOf(["1", "2", "3"], false);
    assert k == "1" + "," + "2";
    assert k == "1,2";
  }

  lemma SecondKey()
    ensures AddIfAbsent(["1,2"], KeyOf(["4", "5"], false)) == ["1,2", "4,5"]
  {
    var k := KeyOf(["4", "5"], false);
    assert k == "4" + "," + "5";
    assert k == "4,5";
    assert k[0] != "1,2"[0];
    assert k !in ["1,2"];
  }

  /** The read loop goes through both lines and records the keys "1,2" and "4,5". */
  lemma ShortLoopInserts(lines: seq<string>)
    requires lines == ShortAssoc
    ensures PrimaryLoop(AcceptAll, Empty, Unbound(3), lines, [], false) ==
      Primary(Normal(true), Tables([], [Row123, [IntValue(4), IntValue(5), IntValue(3)]], []),
              [Some(IntValue(4)), Some(IntValue(5)), Some(IntValue(3))], ["1,2", "4,5"])
  {
    var t1 := Tables([], [Row123], []);
    OneTwoThreeSplits();
    FirstAssocParams();
    var s1 := Insertion(Normal(true), t1, Set123);
    PrimaryStep(AcceptAll, Empty, Unbound(3), lines, [], false, ["1", "2", "3"], s1);
    FirstKey();
    FourFiveSplits();
    StaleRowInserted(t1, Set123);
    var s2 := InsertSpec(AcceptAll, t1, InsertIntoProtagoniza, Set123, ["4", "5"]);
    PrimaryStep(AcceptAll, t1, Set123, lines[1..], ["1,2"], false, ["4", "5"], s2);
    SecondKey();
    assert lines[1..][1..] == [];
  }

  /** An insert with one integer per parameter, of a row the server accepts. */
  lemma InsertsParsedRow(acc: Oracle, t: Tables, st: Statement, params: Params, values: seq<string>, row: Row)
    requires |values| == st.arity == |params| && IntsOf(values) == Some(row) && acc(st.table, t.Get(st.table), row)
    ensures var s := InsertSpec(acc, t, st, params, values);
      s.out == Normal(true) && s.tables == t.Append(st.table, row) && |s.params| == st.arity
  {
    InsertBindsValues(acc, t, st, params, values);
    InsertFrame(acc, t, st, params, values);
  }

  /** The rival loop inserts the pair (1, 2), then (4, 5). */
  lemma ShortRivalsInserted(t: Tables, keys: seq<string>)
    requires keys == ["1,2", "4,5"]
    ensures RivalLoop(AcceptAll, t, Unbound(2), keys, false).out == Normal(true)
    ensures RivalLoop(AcceptAll, t, Unbound(2), keys, false).tables ==
      t.Append(Rival, [IntValue(1), IntValue(2)]).Append(Rival, [IntValue(4), IntValue(5)])
  {
    var r1, r2 := [IntValue(1), IntValue(2)], [IntValue(4), IntValue(5)];
    OneTwoKeySplits();
    TwoDigitInts(["1", "2"]);
    var s1 := InsertSpec(AcceptAll, t, InsertIntoRival, Unbound(2), ["1", "2"]);
    InsertsParsedRow(AcceptAll, t, InsertIntoRival, Unbound(2), ["1", "2"], r1);
    RivalStep(AcceptAll, t, Unbound(2), keys, false, s1);
    FourFiveKeySplits();
    TwoDigitInts(["4", "5"]);
    var s2 := InsertSpec(AcceptAll, s1.tables, InsertIntoRival, s1.params, ["4", "5"]);
    InsertsParsedRow(AcceptAll, s1.tables, InsertIntoRival, s1.params, ["4", "5"], r2);
    RivalStep(AcceptAll, s1.tables, s1.params, keys[1..], false, s2);
    assert keys[1..][1..] == [];
  }

  /**
   * As written, the short line is stored as (4, 5, 3), with the movie of the
   * line before it, instead of being refused; both pairs go into rival.
   */
  lemma LoadProtagonizaStaleParameter()
    ensures LoadProtagonizaSpec(AcceptAll, Empty, Some(ShortAssoc)) ==
      Step(Normal(4), Tables([], [Row123, [IntValue(4), IntValue(5), IntValue(3)]],
                             [[IntValue(1), IntValue(2)], [IntValue(4), IntValue(5)]]))
  {
    var p := InsertProtagonizaSpec(AcceptAll, Empty, Unbound(3), Some(ShortAssoc), [], false);
    ShortLoopInserts(ShortAssoc);
    ShortAfterPrimary(p);
  }

  /** The rest of the try block, once the read loop has gone through both lines. */
  lemma ShortAfterPrimary(p: Primary<int>)
    requires p.out == Normal(2) && p.keys == ["1,2", "4,5"]
    requires p.tables == Tables([], [Row123, [IntValue(4), IntValue(5), IntValue(3)]], [])
    ensures AfterPrimary(AcceptAll, Empty, p, false) ==
      Step(Normal(4), Tables([], [Row123, [IntValue(4), IntValue(5), IntValue(3)]],
                             [[IntValue(1), IntValue(2)], [IntValue(4), IntValue(5)]]))
  {
    AfterPrimaryNormal(AcceptAll, Empty, p, false, 2);
    ShortRivalsInserted(p.tables, p.keys);
  }

  /** The corrected loader, whose insert clears the parameters first, refuses the file as a whole. */
  lemma AtomicRefusesShortLine()
    ensures LoadProtagonizaAtomicSpec(AcceptAll, Empty, Some(ShortAssoc)) == Step(Normal(0), Empty)
  {
    FourFiveSplits();
    assert !IsAssoc(ShortAssoc[1]);
    AtomicRejects(AcceptAll, Empty, Some(ShortAssoc));
  }

  // loadProtagoniza: one pair written two ways, against rival's primary key.

  const PaddedAssoc := ["5;7;1", "05;7;2"]

  const Row571 := [IntValue(5), IntValue(7), IntValue(1)]
  const Row572 := [IntValue(5), IntValue(7), IntValue(2)]
  const Pair57 := [IntValue(5), IntValue(7)]

  lemma ParseZeroFive()
    ensures ParseInt("05") == Some(5)
  {
    assert IsDecimal("05");
    assert "05"[..1] == "0";
    assert DigitsValue("0") == 0;
  }

  lemma FiveSevenOneSplits()
    ensures Split("5;7;1", ';') == ["5", "7", "1"]
  {
    var f := ["5", "7", "1"];
    assert Join(f, ';') == "5;7;1";
    SplitJoin(f, ';');
  }

  lemma ZeroFiveSevenTwoSplits()
    ensures Split("05;7;2", ';') == ["05", "7", "2"]
  {
    var f := ["05", "7", "2"];
    assert Join(f, ';') == "05;7;2";
    SplitJoin(f, ';');
  }

  lemma FiveSevenKeySplits()
    ensures Split("5,7", ',') == ["5", "7"]
  {
    var f := ["5", "7"];
    assert Join(f, ',') == "5,7";
    SplitJoin(f, ',');
  }

  lemma ZeroFiveSevenKeySplits()
    ensures Split("05,7", ',') == ["05", "7"]
  {
    var f := ["05", "7"];
    assert Join(f, ',') == "05,7";
    SplitJoin(f, ',');
  }

  /** Three values that parse, to the row they spell. */
  lemma ThreeInts(v: seq<string>, a: int, b: int, c: int)
    requires |v| == 3 && ParseInt(v[0]) == Some(a) && ParseInt(v[1]) == Some(b) && ParseInt(v[2]) == Some(c)
    ensures IntsOf(v) == Some([IntValue(a), IntValue(b), IntValue(c)])
  {
    var r := IntsOf(v).value;
    assert r[0] == IntValue(a) && r[1] == IntValue(b) && r[2] == IntValue(c);
    assert r == [IntValue(a), IntValue(b), IntValue(c)];
  }

  /** Two values that parse, to the row they spell. */
  lemma TwoInts(v: seq<string>, a: int, b: int)
    requires |v| == 2 && ParseInt(v[0]) == Some(a) && ParseInt(v[1]) == Some(b)
    ensures IntsOf(v) == Some([IntValue(a), IntValue(b)])
  {
    var r := IntsOf(v).value;
    assert r == [IntValue(a), IntValue(b)];
  }

  lemma FirstPaddedInts()
    ensures IntsOf(["5", "7", "1"]) == Some(Row571)
  {
    ParseDigit("5");
    ParseDigit("7");
    ParseDigit("1");
    ThreeInts(["5", "7", "1"], 5, 7, 1);
  }

  lemma SecondPaddedInts()
    ensures IntsOf(["05", "7", "2"]) == Some(Row572)
  {
    ParseZeroFive();
    ParseDigit("7");
    ParseDigit("2");
    ThreeInts(["05", "7", "2"], 5, 7, 2);
  }

  lemma FirstPaddedLine()
    ensures IsAssoc("5;7;1") && AssocOf("5;7;1") == Row571
  {
    FiveSevenOneSplits();
    FirstPaddedInts();
  }

  lemma SecondPaddedLine()
    ensures IsAssoc("05;7;2") && AssocOf("05;7;2") == Row572
  {
    ZeroFiveSevenTwoSplits();
    SecondPaddedInts();
  }

  lemma PaddedKeys()
    ensures AddIfAbsent([], KeyOf(["5", "7", "1"], false)) == ["5,7"]
    ensures AddIfAbsent(["5,7"], KeyOf(["05", "7", "2"], false)) == ["5,7", "05,7"]
  {
    var k := KeyOf(["5", "7", "1"], false);
    assert k == "5" + "," + "7";
    assert k == "5,7";
    var k' := KeyOf(["05", "7", "2"], false);
    assert k' == "05" + "," + "7";
    assert k' == "05,7";
    assert k'[0] != "5,7"[0];
    assert k' !in ["5,7"];
  }

  /** The read loop goes through both lines and records the keys "5,7" and "05,7". */
  lemma PaddedLoopInserts(lines: seq<string>)
    requires lines == PaddedAssoc
    ensures var p := PrimaryLoop(RivalUnique, Empty, Unbound(3), lines, [], false);
      p.out == Normal(true) && p.tables.rival == [] && p.keys == ["5,7", "05,7"]
  {
    FirstPaddedInts();
    SecondPaddedInts();
    FiveSevenOneSplits();
    ZeroFiveSevenTwoSplits();
    var s1 := InsertSpec(RivalUnique, Empty, InsertIntoProtagoniza, Unbound(3), ["5", "7", "1"]);
    InsertsParsedRow(RivalUnique, Empty, InsertIntoProtagoniza, Unbound(3), ["5", "7", "1"], Row571);
    PrimaryStep(RivalUnique, Empty, Unbound(3), lines, [], false, ["5", "7", "1"], s1);
    var s2 := InsertSpec(RivalUnique, s1.tables, InsertIntoProtagoniza, s1.params, ["05", "7", "2"]);
    InsertsParsedRow(RivalUnique, s1.tables, InsertIntoProtagoniza, s1.params, ["05", "7", "2"], Row572);
    PaddedKeys();
    PrimaryStep(RivalUnique, s1.tables, s1.params, lines[1..], ["5,7"], false, ["05", "7", "2"], s2);
    assert lines[1..][1..] == [];
  }

  /** A key of the rival loop whose insert does not return true ends the loop with that insert. */
  lemma RivalStopsAt(acc: Oracle, t: Tables, params: Params, keys: seq<string>, corrected: bool, s: Insertion)
    requires keys != []
    requires s == InsertSpec(acc, t, InsertIntoRival, Cleared(params, corrected), Split(keys[0], ',')) && s.out != Normal(true)
    ensures RivalLoop(acc, t, params, keys, corrected) == s
  {
  }

  /** The pair (5, 7) goes in under "5,7", and the server refuses it again under "05,7". */
  lemma PaddedRivalsRefused(t: Tables, keys: seq<string>)
    requires t.rival == [] && keys == ["5,7", "05,7"]
    ensures RivalLoop(RivalUnique, t, Unbound(2), keys, false).out == Normal(false)
  {
    FiveSevenKeySplits();
    ParseDigit("5");
    ParseDigit("7");
    TwoInts(["5", "7"], 5, 7);
    var s1 := InsertSpec(RivalUnique, t, InsertIntoRival, Unbound(2), ["5", "7"]);
    InsertsParsedRow(RivalUnique, t, InsertIntoRival, Unbound(2), ["5", "7"], Pair57);
    RivalStep(RivalUnique, t, Unbound(2), keys, false, s1);
    ZeroFiveSevenKeySplits();
    ParseZeroFive();
    TwoInts(["05", "7"], 5, 7);
    var s2 := InsertSpec(RivalUnique, s1.tables, InsertIntoRival, s1.params, ["05", "7"]);
    InsertBindsValues(RivalUnique, s1.tables, InsertIntoRival, s1.params, ["05", "7"]);
    assert s1.tables.Get(Rival) == [Pair57];
    RivalStopsAt(RivalUnique, s1.tables, s1.params, keys[1..], false, s2);
  }

  /**
   * As written, the two spellings of the pair give two keys, the rival
   * table's primary key refuses the second insert, and the whole file is
   * rolled back: 0, although both associations are valid.
   */
  lemma LoadProtagonizaRefusesPaddedPair()
    ensures LoadProtagonizaSpec(RivalUnique, Empty, Some(PaddedAssoc)) == Step(Normal(0), Empty)
  {
    var p := InsertProtagonizaSpec(RivalUnique, Empty, Unbound(3), Some(PaddedAssoc), [], false);
    PaddedLoopInserts(PaddedAssoc);
    AfterPrimaryNormal(RivalUnique, Empty, p, false, 2);
    PaddedRivalsRefused(p.tables, p.keys);
  }

  lemma TwoAllAssoc(a: string, b: string)
    requires IsAssoc(a) && IsAssoc(b)
    ensures AllAssoc([a, b])
  {
  }

  /** The rows of a two-line file of associations. */
  lemma TwoAssocRows(a: string, b: string, r0: Row, r1: Row)
    requires IsAssoc(a) && IsAssoc(b) && AssocOf(a) == r0 && AssocOf(b) == r1
    ensures AllAssoc([a, b]) && AssocRows([a, b]) == [r0, r1] && PairRows([a, b]) == [r0[..2], r1[..2]]
  {
    TwoAllAssoc(a, b);
    TwoAssocRowsAre(a, b, r0, r1);
    TwoPairRowsAre(a, b, r0, r1);
  }

  lemma TwoAssocRowsAre(a: string, b: string, r0: Row, r1: Row)
    requires IsAssoc(a) && IsAssoc(b) && AllAssoc([a, b]) && AssocOf(a) == r0 && AssocOf(b) == r1
    ensures AssocRows([a, b]) == [r0, r1]
  {
    assert AssocRows([a, b])[0] == r0;
  }

  lemma TwoPairRowsAre(a: string, b: string, r0: Row, r1: Row)
    requires IsAssoc(a) && IsAssoc(b) && AllAssoc([a, b]) && AssocOf(a) == r0 && AssocOf(b) == r1
    ensures PairRows([a, b]) == [r0[..2], r1[..2]]
  {
    assert PairRows([a, b])[0] == r0[..2];
  }

  /** Both lines are associations, and the same pair. */
  lemma PaddedRows(lines: seq<string>)
    requires lines == PaddedAssoc
    ensures AllAssoc(lines) && AssocRows(lines) == [Row571, Row572] && PairRows(lines) == [Pair57, Pair57]
  {
    FirstPaddedLine();
    SecondPaddedLine();
    TwoAssocRows("5;7;1", "05;7;2", Row571, Row572);
    PaddedPairs();
  }

  lemma PaddedPairs()
    ensures Row571[..2] == Pair57 && Row572[..2] == Pair57
  {
  }

  lemma DistinctRepeated(x: Row)
    ensures Distinct([x, x]) == [x]
  {
    assert [x, x][..1] == [x] && [x][..0] == [];
    assert Distinct([x]) == [x];
  }

  /** The server accepts both associations, then the one pair. */
  lemma PaddedInsertable(assocs: seq<Row>, pairs: seq<Row>)
    requires assocs == [Row571, Row572] && pairs == [Pair57]
    ensures InsertsAll(RivalUnique, Protagoniza, Empty, assocs)
    ensures InsertsAll(RivalUnique, Rival, AppendAll(Empty, Protagoniza, assocs), pairs)
  {
    InsertsAllCons(RivalUnique, Protagoniza, Empty, Row571, [Row572]);
    InsertsAllCons(RivalUnique, Protagoniza, Empty.Append(Protagoniza, Row571), Row572, []);
    InsertsAllCons(RivalUnique, Rival, AppendAll(Empty, Protagoniza, assocs), Pair57, []);
  }

  /**
   * The corrected loader compares the pair as integers, inserts it once, and
   * loads the file: two associations and one pair, 3 returned.
   */
  lemma AtomicLoadsPaddedPair()
    ensures LoadProtagonizaAtomicSpec(RivalUnique, Empty, Some(PaddedAssoc)) ==
      Step(Normal(3), Tables([], [Row571, Row572], [Pair57]))
  {
    var lines := PaddedAssoc;
    var assocs, pairs := [Row571, Row572], [Pair57];
    PaddedRows(lines);
    DistinctRepeated(Pair57);
    PaddedInsertable(assocs, pairs);
    AtomicLoads(RivalUnique, Empty, lines, assocs, pairs);
    AppendedToEmpty(assocs, pairs);
  }

  lemma AppendedToEmpty(assocs: seq<Row>, pairs: seq<Row>)
    ensures Committed(Empty, assocs, pairs) == Step(Normal(|assocs| + |pairs|), Tables([], assocs, pairs))
  {
    assert [] + assocs == assocs && [] + pairs == pairs;
  }
}
