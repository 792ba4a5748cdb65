/**
 * The two bulk loaders of SuperheroesDatabase and their helpers.
 *
 * Each Java method appears twice: as a function over the session's tables
 * (what the call returns, or throws, and the tables it leaves), and as a
 * method of `SuperheroesDatabase` that takes the same steps as the Java code
 * on a `Connection` and is proved to agree with that function. The
 * properties the loaders promise are proved about the functions in modules
 * InsertTheorems, EscenaTheorems, ProtagonizaTheorems and
 * TransactionTheorems.
 */
module Loaders {
  import opened JavaLang
  import opened Store
  import opened Dedup

  /** The INSERT statements the loaders prepare: table and number of parameters. */
  const InsertIntoEscena := Statement(Escena, 4)
  const InsertIntoProtagoniza := Statement(Protagoniza, 3)
  const InsertIntoRival := Statement(Rival, 2)

  /** An outcome together with the session's tables after it. */
  datatype Step<+T> = Step(out: Outcome<T>, tables: Tables)

  /** Adds `n` to a count that was returned normally. */
  function Plus(out: Outcome<int>, n: int): Outcome<int>
  {
    match out
    case Normal(c) => Normal(c + n)
    case Thrown(e) => out
  }

  /** The integers `values` spell, when every one of them parses. */
  function IntsOf(values: seq<string>): (r: Option<Row>)
    ensures r.Some? <==> forall k :: 0 <= k < |values| ==> ParseInt(values[k]).Some?
    ensures r.Some? ==> (|r.value| == |values| &&
      forall k :: 0 <= k < |values| ==> r.value[k] == IntValue(ParseInt(values[k]).value))
    decreases |values|
  {
    if values == [] then Some([])
    else
      match (ParseInt(values[0]), IntsOf(values[1..]))
      case (Some(v), Some(rest)) => Some([IntValue(v)] + rest)
      case _ => None
  }

  /** How binding ended, and the parameters it left set. */
  datatype Binding = Binding(out: Outcome<bool>, params: Params)

  /**
   * The loop of `insert` from index `i` on: pst.setInt(i + 1,
   * Integer.parseInt(values[i])) for each remaining i in turn. Thrown when a
   * value does not parse, Normal(false) when parameter i + 1 does not exist
   * (an SQLException, which `insert` catches), Normal(true) when every value
   * was bound.
   */
  function BindInts(values: seq<string>, params: Params, i: nat): Binding
    decreases |values| - i
  {
    if i >= |values| then Binding(Normal(true), params)
    else
      match ParseInt(values[i])
      case None => Binding(Thrown(NumberFormatException), params)
      case Some(v) =>
        if i >= |params| then Binding(Normal(false), params)
        else BindInts(values, params[i := Some(IntValue(v))], i + 1)
  }

  /** IntsOf one value more. */
  lemma IntsOfFrom(values: seq<string>, i: nat)
    requires i < |values|
    ensures var v, rest := ParseInt(values[i]), IntsOf(values[i + 1..]);
      IntsOf(values[i..]) == if v.Some? && rest.Some? then Some([IntValue(v.value)] + rest.value) else None
  {
    assert values[i..][0] == values[i] && values[i..][1..] == values[i + 1..];
  }

  /**
   * Binding from index `i` fails with NumberFormatException only when a value
   * does not parse, fails with an SQL error only when there are more values
   * than parameters, and otherwise succeeds.
   */
  lemma {:induction false} BindIntsOutcome(values: seq<string>, params: Params, i: nat)
    requires i <= |values| && i <= |params|
    ensures var b := BindInts(values, params, i); |b.params| == |params|
    ensures var b := BindInts(values, params, i);
      b.out.Thrown? ==> b.out.exception == NumberFormatException && IntsOf(values[i..]).None?
    ensures var b := BindInts(values, params, i);
      b.out == Normal(true) <==> |values| <= |params| && IntsOf(values[i..]).Some?
    ensures var b := BindInts(values, params, i); b.out == Normal(false) ==> |values| > |params|
    decreases |values| - i
  {
    if i < |values| {
      IntsOfFrom(values, i);
      var v := ParseInt(values[i]);
      if v.Some? && i < |params| {
        BindIntsOutcome(values, params[i := Some(IntValue(v.value))], i + 1);
      }
    }
  }

  /** `params` with parameters i + 1 to i + |row| set to the values of `row`. */
  function Overlaid(params: Params, i: nat, row: Row): (p: Params)
    ensures |p| == |params|
  {
    seq(|params|, k requires 0 <= k < |params| => if i <= k < i + |row| then Some(row[k - i]) else params[k])
  }

  /**
   * A binding that succeeds overwrites parameters i + 1 to |values| with the
   * parsed values and leaves the others as they were.
   */
  lemma {:induction false} BindIntsParams(values: seq<string>, params: Params, i: nat)
    requires i <= |values| && i <= |params|
    requires BindInts(values, params, i).out == Normal(true)
    ensures IntsOf(values[i..]).Some?
    ensures BindInts(values, params, i).params == Overlaid(params, i, IntsOf(values[i..]).value)
    decreases |values| - i
  {
    BindIntsOutcome(values, params, i);
    if i < |values| {
      IntsOfFrom(values, i);
      var v := ParseInt(values[i]).value;
      var p' := params[i := Some(IntValue(v))];
      assert BindInts(values, params, i) == BindInts(values, p', i + 1);
      BindIntsParams(values, p', i + 1);
      var row, rest := IntsOf(values[i..]).value, IntsOf(values[i + 1..]).value;
      assert row == [IntValue(v)] + rest;
      var a, b := Overlaid(p', i + 1, rest), Overlaid(params, i, row);
      forall k | 0 <= k < |params| ensures a[k] == b[k] {
        if i < k < i + |row| {
          assert row[k - i] == rest[k - i - 1];
        }
      }
      assert a == b;
    } else {
      assert Overlaid(params, i, []) == params;
    }
  }

  /** executeUpdate of `st` with `row` bound. */
  function Executed(acc: Oracle, t: Tables, st: Statement, row: Row): Step<bool>
  {
    var ok := Accepted(acc, t, st, row);
    Step(Normal(ok), if ok then t.Append(st.table, row) else t)
  }

  /** An outcome, the tables after it, and the parameters left set on the statement. */
  datatype Insertion = Insertion(out: Outcome<bool>, tables: Tables, params: Params)

  /**
   * insert(pst, values): bind every value as an int, then execute; a
   * parameter that neither this call nor an earlier one set makes
   * executeUpdate raise an SQLException, so false.
   */
  function InsertSpec(acc: Oracle, t: Tables, st: Statement, params: Params, values: seq<string>): Insertion
  {
    var b := BindInts(values, params, 0);
    if b.out != Normal(true) then Insertion(b.out, t, b.params)
    else
      match Bound(b.params)
      case None => Insertion(Normal(false), t, b.params)
      case Some(row) =>
        var s := Executed(acc, t, st, row);
        Insertion(s.out, s.tables, b.params)
  }

  /** The parameters `insert` starts from: the corrected `insert` clears them first. */
  function Cleared(params: Params, corrected: bool): Params
  {
    if corrected then Unbound(|params|) else params
  }

  /** The row insertEscena binds from four fields: movie, order, title, minutes. */
  function SceneRow(values: seq<string>): Option<Row>
    requires |values| == 4
  {
    match (ParseInt(values[0]), ParseInt(values[1]), ParseInt(values[3]))
    case (Some(movie), Some(order), Some(minutes)) =>
      Some([IntValue(movie), IntValue(order), TextValue(values[2]), IntValue(minutes)])
    case _ => None
  }

  /** insertEscena(linea, pst). */
  function InsertEscenaSpec(acc: Oracle, t: Tables, line: string): Step<bool>
  {
    var values := Split(line, ';');
    if |values| != 4 then Step(Normal(false), t)
    else
      match SceneRow(values)
      case None => Step(Thrown(NumberFormatException), t)
      case Some(row) => Executed(acc, t, InsertIntoEscena, row)
  }

  lemma PlusPlus(out: Outcome<int>, m: int, n: int)
    ensures Plus(Plus(out, m), n) == Plus(out, m + n)
  {
  }

  /** The read loop of loadEscenas over `lines`, counting the lines inserted. */
  function EscenasLoop(acc: Oracle, t: Tables, lines: seq<string>): Step<int>
    decreases |lines|
  {
    if lines == [] then Step(Normal(0), t)
    else
      var s := InsertEscenaSpec(acc, t, lines[0]);
      match s.out
      case Thrown(e) => Step(Thrown(e), s.tables)
      case Normal(ok) =>
        var rest := EscenasLoop(acc, s.tables, lines[1..]);
        Step(Plus(rest.out, if ok then 1 else 0), rest.tables)
  }

  lemma EscenasLoopAt(acc: Oracle, t: Tables, lines: seq<string>, i: nat)
    requires i < |lines|
    ensures var s := InsertEscenaSpec(acc, t, lines[i]);
      s.out.Thrown? ==> EscenasLoop(acc, t, lines[i..]) == Step(Thrown(s.out.exception), s.tables)
    ensures var s := InsertEscenaSpec(acc, t, lines[i]);
      var rest := EscenasLoop(acc, s.tables, lines[i + 1..]);
      s.out.Normal? ==> EscenasLoop(acc, t, lines[i..]) == Step(Plus(rest.out, if s.out.value then 1 else 0), rest.tables)
  {
    assert lines[i..][0] == lines[i] && lines[i..][1..] == lines[i + 1..];
  }

  /** loadEscenas: a file that cannot be opened gives 0. */
  function LoadEscenasSpec(acc: Oracle, t: Tables, file: Option<seq<string>>): Step<int>
  {
    match file
    case None => Step(Normal(0), t)
    case Some(lines) => EscenasLoop(acc, t, lines)
  }

  /** insertEscena as documented: a field that does not parse makes it return false. */
  function InsertEscenaCheckedSpec(acc: Oracle, t: Tables, line: string): Step<bool>
  {
    var s := InsertEscenaSpec(acc, t, line);
    if s.out.Thrown? then Step(Normal(false), s.tables) else s
  }

  /** The read loop of the corrected loadEscenas, which skips such lines too. */
  function EscenasSkippingLoop(acc: Oracle, t: Tables, lines: seq<string>): Step<int>
    decreases |lines|
  {
    if lines == [] then Step(Normal(0), t)
    else
      var s := InsertEscenaCheckedSpec(acc, t, lines[0]);
      var rest := EscenasSkippingLoop(acc, s.tables, lines[1..]);
      Step(Plus(rest.out, if s.out == Normal(true) then 1 else 0), rest.tables)
  }

  function LoadEscenasSkippingSpec(acc: Oracle, t: Tables, file: Option<seq<string>>): Step<int>
  {
    match file
    case None => Step(Normal(0), t)
    case Some(lines) => EscenasSkippingLoop(acc, t, lines)
  }

  /** The hero-villain key insertProtagoniza derives from a line: values[0] + "," + values[1]. */
  function PairKey(values: seq<string>): string
    requires |values| >= 2
  {
    values[0] + "," + values[1]
  }

  /**
   * The hero-villain key of the corrected loader: the two values as parsed
   * integers written back in decimal, so that "05" and "5" give one key.
   */
  function CanonicalKey(values: seq<string>): string
    requires |values| >= 2
  {
    match (ParseInt(values[0]), ParseInt(values[1]))
    case (Some(hero), Some(villain)) => Decimal(hero) + "," + Decimal(villain)
    case _ => PairKey(values)
  }

  function KeyOf(values: seq<string>, corrected: bool): string
    requires |values| >= 2
  {
    if corrected then CanonicalKey(values) else PairKey(values)
  }

  /** An outcome, the tables after it, the statement's parameters and the key list after it. */
  datatype Primary<+T> = Primary(out: Outcome<T>, tables: Tables, params: Params, keys: seq<string>)

  /**
   * The read loop of insertProtagoniza over the remaining `lines`, given the
   * statement's parameters and the keys collected so far; `out` is the final
   * value of allRight.
   */
  function PrimaryLoop(acc: Oracle, t: Tables, params: Params, lines: seq<string>, keys: seq<string>, corrected: bool): Primary<bool>
    decreases |lines|
  {
    if lines == [] then Primary(Normal(true), t, params, keys)
    else
      var values := Split(lines[0], ';');
      var s := InsertSpec(acc, t, InsertIntoProtagoniza, Cleared(params, corrected), values);
      match s.out
      case Thrown(e) => Primary(Thrown(e), s.tables, s.params, keys)
      case Normal(ok) =>
        if |values| < 2 then Primary(Thrown(ArrayIndexOutOfBoundsException), s.tables, s.params, keys)
        else
          var keys' := AddIfAbsent(keys, KeyOf(values, corrected));
          if ok then PrimaryLoop(acc, s.tables, s.params, lines[1..], keys', corrected)
          else Primary(Normal(false), s.tables, s.params, keys')
  }

  /** insertProtagoniza: the number of lines read, or -1 (file not found, or an insert failed). */
  function InsertProtagonizaSpec(acc: Oracle, t: Tables, params: Params, file: Option<seq<string>>, keys: seq<string>, corrected: bool): Primary<int>
  {
    match file
    case None => Primary(Normal(-1), t, params, keys)
    case Some(lines) =>
      var p := PrimaryLoop(acc, t, params, lines, keys, corrected);
      var out := match p.out
        case Thrown(e) => Thrown(e)
        case Normal(allRight) => Normal(if allRight then |lines| else -1);
      Primary(out, p.tables, p.params, p.keys)
  }

  /** The rival loop of loadProtagoniza: each key split on ',' and inserted, until one fails. */
  function RivalLoop(acc: Oracle, t: Tables, params: Params, keys: seq<string>, corrected: bool): Insertion
    decreases |keys|
  {
    if keys == [] then Insertion(Normal(true), t, params)
    else
      var s := InsertSpec(acc, t, InsertIntoRival, Cleared(params, corrected), Split(keys[0], ','));
      if s.out == Normal(true) then RivalLoop(acc, s.tables, s.params, keys[1..], corrected) else s
  }

  /**
   * The try block of loadProtagoniza on a session in auto-commit mode
   * holding `t`, with both statements freshly prepared: what it returns or
   * throws, and the tables the session holds afterwards.
   */
  function ProtagonizaTransaction(acc: Oracle, t: Tables, file: Option<seq<string>>, corrected: bool): Step<int>
  {
    AfterPrimary(acc, t, InsertProtagonizaSpec(acc, t, Unbound(InsertIntoProtagoniza.arity), file, [], corrected), corrected)
  }

  /** The try block once insertProtagoniza has returned or thrown `p`. */
  function AfterPrimary(acc: Oracle, t: Tables, p: Primary<int>, corrected: bool): Step<int>
  {
    match p.out
    case Thrown(e) => Step(Thrown(e), p.tables)
    case Normal(total) =>
      if total == -1 then Step(Normal(0), t)
      else AfterRivals(t, total + |p.keys|, RivalLoop(acc, p.tables, Unbound(InsertIntoRival.arity), p.keys, corrected))
  }

  /** The end of the try block once the rival loop has returned or thrown `q`: commit and `sum`, or roll back and 0. */
  function AfterRivals(t: Tables, sum: int, q: Insertion): Step<int>
  {
    match q.out
    case Thrown(e) => Step(Thrown(e), q.tables)
    case Normal(allRight) => if allRight then Step(Normal(sum), q.tables) else Step(Normal(0), t)
  }

  /** The three ways out of insertProtagoniza, for proofs that do not unfold it. */
  lemma AfterPrimaryThrown(acc: Oracle, t: Tables, p: Primary<int>, corrected: bool)
    requires p.out.Thrown?
    ensures AfterPrimary(acc, t, p, corrected) == Step(p.out, p.tables)
  {
  }

  lemma AfterPrimaryFails(acc: Oracle, t: Tables, p: Primary<int>, corrected: bool)
    requires p.out == Normal(-1)
    ensures AfterPrimary(acc, t, p, corrected) == Step(Normal(0), t)
  {
  }

  lemma AfterPrimaryNormal(acc: Oracle, t: Tables, p: Primary<int>, corrected: bool, n: int)
    requires p.out == Normal(n) && n != -1
    ensures AfterPrimary(acc, t, p, corrected) ==
      AfterRivals(t, n + |p.keys|, RivalLoop(acc, p.tables, Unbound(InsertIntoRival.arity), p.keys, corrected))
  {
  }

  /** loadProtagoniza's try block is what follows insertProtagoniza's outcome `p`. */
  lemma TransactionIs(acc: Oracle, t: Tables, file: Option<seq<string>>, corrected: bool, p: Primary<int>)
    requires p == InsertProtagonizaSpec(acc, t, Unbound(InsertIntoProtagoniza.arity), file, [], corrected)
    ensures ProtagonizaTransaction(acc, t, file, corrected) == AfterPrimary(acc, t, p, corrected)
  {
  }

  /** The try block after a read loop that read `n` lines and a rival loop that went through: commit both. */
  lemma AfterPrimaryCommits(acc: Oracle, t: Tables, p: Primary<int>, corrected: bool, n: int, q: Insertion)
    requires p.out == Normal(n) && n != -1
    requires q == RivalLoop(acc, p.tables, Unbound(InsertIntoRival.arity), p.keys, corrected) && q.out == Normal(true)
    ensures AfterPrimary(acc, t, p, corrected) == Step(Normal(n + |p.keys|), q.tables)
  {
  }

  /** The try block after a read loop that threw, failed or read `n` lines: throw, roll back, or commit both loops. */
  lemma AfterPrimaryCases(acc: Oracle, t: Tables, p: Primary<int>, corrected: bool, n: int)
    requires n != -1 && (p.out.Thrown? || p.out == Normal(-1) || p.out == Normal(n))
    ensures var r := AfterPrimary(acc, t, p, corrected);
      var q := RivalLoop(acc, p.tables, Unbound(InsertIntoRival.arity), p.keys, corrected);
      r.out.Thrown? || r == Step(Normal(0), t) ||
      (p.out == Normal(n) && q.out == Normal(true) && r == Step(Normal(n + |p.keys|), q.tables))
  {
  }

  /**
   * loadProtagoniza: what it returns or throws, and the tables it leaves.
   * The finally block switches auto-commit back on in every case, which
   * commits whatever the session then holds, so this is also what is durable.
   */
  function LoadProtagonizaSpec(acc: Oracle, t: Tables, file: Option<seq<string>>): Step<int>
  {
    ProtagonizaTransaction(acc, t, file, false)
  }

  /**
   * The corrected loadProtagoniza: `insert` clears the parameters before
   * binding, the hero-villain keys are compared as integers, and an exception
   * also rolls the transaction back and gives 0.
   */
  function LoadProtagonizaAtomicSpec(acc: Oracle, t: Tables, file: Option<seq<string>>): Step<int>
  {
    var r := ProtagonizaTransaction(acc, t, file, true);
    if r.out.Thrown? then Step(Normal(0), t) else r
  }

  /** The ArrayList<String> of hero-villain keys. */
  class StringList {
    var elems: seq<string>

    constructor ()
      ensures elems == []
    {
      elems := [];
    }

    /** ArrayList.contains: a linear scan comparing with equals. */
    method Contains(x: string) returns (found: bool)
      ensures found <==> x in elems
    {
      found := false;
      var i := 0;
      while i < |elems| && !found
        invariant 0 <= i <= |elems|
        invariant found <==> x in elems[..i]
      {
        assert elems[..i + 1] == elems[..i] + [elems[i]];
        found := elems[i] == x;
        i := i + 1;
      }
      assert elems[..|elems|] == elems;
    }

    method Add(x: string)
      modifies this
      ensures elems == old(elems) + [x]
    {
      elems := elems + [x];
    }
  }

  class SuperheroesDatabase {
    const conn: Connection

    /** Between calls the connection is open and in auto-commit mode. */
    ghost predicate Valid()
      reads this, conn
    {
      conn.Valid() && conn.autoCommit
    }

    constructor (conn: Connection)
      requires conn.Valid() && conn.autoCommit
      ensures Valid() && this.conn == conn
    {
      this.conn := conn;
    }

    method InsertEscena(line: string) returns (r: Outcome<bool>)
      requires conn.Valid()
      modifies conn
      ensures conn.Valid() && conn.autoCommit == old(conn.autoCommit)
      ensures conn.committed == if conn.autoCommit then conn.data else old(conn.committed)
      ensures Step(r, conn.data) == InsertEscenaSpec(conn.accepts, old(conn.data), line)
      ensures |Split(line, ';')| != 4 ==> r == Normal(false) && conn.data == old(conn.data)
    {
      var values := Split(line, ';');
      if |values| != 4 {
        return Normal(false);
      }
      var movie := ParseInt(values[0]);
      var order := ParseInt(values[1]);
      var minutes := ParseInt(values[3]);
      if movie.None? || order.None? || minutes.None? {
        return Thrown(NumberFormatException);
      }
      var row := [IntValue(movie.value), IntValue(order.value), TextValue(values[2]), IntValue(minutes.value)];
      var ok := conn.ExecuteUpdate(InsertIntoEscena, row);
      return Normal(ok);
    }

    /** insert(pst, values); `corrected` selects the corrected version, which calls clearParameters first. */
    method Insert(pst: PreparedStatement, values: seq<string>, corrected: bool) returns (r: Outcome<bool>)
      requires conn.Valid() && pst.Valid()
      modifies conn, pst
      ensures conn.Valid() && pst.Valid() && conn.autoCommit == old(conn.autoCommit)
      ensures conn.committed == if conn.autoCommit then conn.data else old(conn.committed)
      ensures Insertion(r, conn.data, pst.params) ==
        InsertSpec(conn.accepts, old(conn.data), pst.statement, Cleared(old(pst.params), corrected), values)
    {
      if corrected {
        pst.ClearParameters();
      }
      ghost var goal := BindInts(values, pst.params, 0);
      var i := 0;
      while i < |values|
        invariant 0 <= i <= |values| && pst.Valid()
        invariant unchanged(conn)
        invariant goal == BindInts(values, pst.params, i)
      {
        var v := ParseInt(values[i]);
        if v.None? {
          return Thrown(NumberFormatException);
        }
        var bound := pst.SetInt(i + 1, v.value);
        if !bound {
          return Normal(false);
        }
        i := i + 1;
      }
      var row := Bound(pst.params);
      if row.None? {
        return Normal(false);
      }
      var ok := conn.ExecuteUpdate(pst.statement, row.value);
      return Normal(ok);
    }

    method LoadEscenas(file: Option<seq<string>>) returns (r: Outcome<int>)
      requires Valid()
      modifies conn
      ensures Valid()
      ensures Step(r, conn.data) == LoadEscenasSpec(conn.accepts, old(conn.data), file)
    {
      if file.None? {
        return Normal(0);
      }
      var lines := file.value;
      var total := 0;
      var i := 0;
      while i < |lines|
        invariant 0 <= i <= |lines| && Valid()
        invariant var rest := EscenasLoop(conn.accepts, conn.data, lines[i..]);
          EscenasLoop(conn.accepts, old(conn.data), lines) == Step(Plus(rest.out, total), rest.tables)
      {
        EscenasLoopAt(conn.accepts, conn.data, lines, i);
        var inserted := InsertEscena(lines[i]);
        if inserted.Thrown? {
          return Thrown(inserted.exception);
        }
        PlusPlus(EscenasLoop(conn.accepts, conn.data, lines[i + 1..]).out, if inserted.value then 1 else 0, total);
        if inserted.value {
          total := total + 1;
        }
        i := i + 1;
      }
      assert lines[i..] == [];
      return Normal(total);
    }

    /** The corrected loadEscenas, whose insertEscena returns false for a field that does not parse. */
    method LoadEscenasSkipping(file: Option<seq<string>>) returns (r: int)
      requires Valid()
      modifies conn
      ensures Valid()
      ensures Step(Normal(r), conn.data) == LoadEscenasSkippingSpec(conn.accepts, old(conn.data), file)
    {
      if file.None? {
        return 0;
      }
      var lines := file.value;
      var total := 0;
      var i := 0;
      while i < |lines|
        invariant 0 <= i <= |lines| && Valid()
        invariant var rest := EscenasSkippingLoop(conn.accepts, conn.data, lines[i..]);
          EscenasSkippingLoop(conn.accepts, old(conn.data), lines) == Step(Plus(rest.out, total), rest.tables)
      {
        assert lines[i..][0] == lines[i] && lines[i..][1..] == lines[i + 1..];
        var inserted := InsertEscena(lines[i]);
        PlusPlus(EscenasSkippingLoop(conn.accepts, conn.data, lines[i + 1..]).out, if inserted == Normal(true) then 1 else 0, total);
        if inserted == Normal(true) {
          total := total + 1;
        }
        i := i + 1;
      }
      assert lines[i..] == [];
      return total;
    }

    method InsertProtagoniza(file: Option<seq<string>>, pst: PreparedStatement, supVill: StringList, corrected: bool)
      returns (r: Outcome<int>)
      requires conn.Valid() && pst.Valid() && pst.statement == InsertIntoProtagoniza
      modifies conn, pst, supVill
      ensures conn.Valid() && pst.Valid() && conn.autoCommit == old(conn.autoCommit)
      ensures conn.committed == if conn.autoCommit then conn.data else old(conn.committed)
      ensures Primary(r, conn.data, pst.params, supVill.elems) ==
        InsertProtagonizaSpec(conn.accepts, old(conn.data), old(pst.params), file, old(supVill.elems), corrected)
    {
      if file.None? {
        return Normal(-1);
      }
      var lines := file.value;
      ghost var goal := PrimaryLoop(conn.accepts, conn.data, pst.params, lines, supVill.elems, corrected);
      var total := 0;
      var allRight := true;
      while total < |lines| && allRight
        invariant 0 <= total <= |lines| && pst.Valid()
        invariant conn.Valid() && conn.autoCommit == old(conn.autoCommit)
        invariant conn.committed == if conn.autoCommit then conn.data else old(conn.committed)
        invariant allRight ==> goal == PrimaryLoop(conn.accepts, conn.data, pst.params, lines[total..], supVill.elems, corrected)
        invariant !allRight ==> goal == Primary(Normal(false), conn.data, pst.params, supVill.elems)
      {
        assert lines[total..][0] == lines[total] && lines[total..][1..] == lines[total + 1..];
        var values := Split(lines[total], ';');
        var inserted := Insert(pst, values, corrected);
        if inserted.Thrown? {
          return Thrown(inserted.exception);
        }
        allRight := inserted.value;
        total := total + 1;
        if |values| < 2 {
          return Thrown(ArrayIndexOutOfBoundsException);
        }
        var key := values[0] + "," + values[1];
        if corrected {
          var hero, villain := ParseInt(values[0]), ParseInt(values[1]);
          if hero.Some? && villain.Some? {
            key := Decimal(hero.value) + "," + Decimal(villain.value);
          }
        }
        var seen := supVill.Contains(key);
        if !seen {
          supVill.Add(key);
        }
      }
      if allRight {
        assert lines[total..] == [];
      }
      return Normal(if allRight then total else -1);
    }

    /** Lines 220-225 of loadProtagoniza: prepare the rival statement, then insert each key, split on ',', while all succeed. */
    method InsertRivals(keys: seq<string>, corrected: bool) returns (r: Outcome<bool>)
      requires conn.Valid()
      modifies conn
      ensures conn.Valid() && conn.autoCommit == old(conn.autoCommit)
      ensures conn.committed == if conn.autoCommit then conn.data else old(conn.committed)
      ensures var q := RivalLoop(conn.accepts, old(conn.data), Unbound(InsertIntoRival.arity), keys, corrected);
        r == q.out && conn.data == q.tables
    {
      var pst := new PreparedStatement(InsertIntoRival);
      ghost var goal := RivalLoop(conn.accepts, conn.data, pst.params, keys, corrected);
      var allRight := true;
      var i := 0;
      while i < |keys| && allRight
        invariant 0 <= i <= |keys| && pst.Valid() && pst.statement == InsertIntoRival
        invariant conn.Valid() && conn.autoCommit == old(conn.autoCommit)
        invariant conn.committed == if conn.autoCommit then conn.data else old(conn.committed)
        invariant allRight ==> goal == RivalLoop(conn.accepts, conn.data, pst.params, keys[i..], corrected)
        invariant !allRight ==> goal == Insertion(Normal(false), conn.data, pst.params)
      {
        assert keys[i..][0] == keys[i] && keys[i..][1..] == keys[i + 1..];
        var inserted := Insert(pst, Split(keys[i], ','), corrected);
        if inserted.Thrown? {
          return inserted;
        }
        allRight := inserted.value;
        i := i + 1;
      }
      if allRight {
        assert keys[i..] == [];
      }
      return Normal(allRight);
    }

    /**
     * The try block of loadProtagoniza, up to the commit or rollback; its
     * finally is left to the caller. `corrected` selects the corrected loader.
     */
    method LoadProtagonizaTransaction(file: Option<seq<string>>, corrected: bool) returns (r: Outcome<int>)
      requires Valid()
      modifies conn
      ensures conn.Valid() && !conn.autoCommit
      ensures Step(r, conn.data) == ProtagonizaTransaction(conn.accepts, old(conn.data), file, corrected)
      ensures conn.committed == if r.Thrown? then old(conn.data) else conn.data
    {
      ghost var t := conn.data;
      var supVill := new StringList();
      conn.SetAutoCommit(false);
      var pst := new PreparedStatement(InsertIntoProtagoniza);
      var total := InsertProtagoniza(file, pst, supVill, corrected);
      ghost var p := InsertProtagonizaSpec(conn.accepts, t, Unbound(InsertIntoProtagoniza.arity), file, [], corrected);
      assert total == p.out && conn.data == p.tables && supVill.elems == p.keys;
      if total.Thrown? {
        AfterPrimaryThrown(conn.accepts, t, p, corrected);
        return Thrown(total.exception);
      }
      r := FinishTransaction(total.value, supVill.elems, corrected, p);
    }

    /**
     * The rest of the try block once insertProtagoniza has returned `total`:
     * unless it is -1, add the number of keys and insert each key into
     * rival; then commit and return the sum, or roll back and return 0.
     */
    method FinishTransaction(total: int, keys: seq<string>, corrected: bool, ghost p: Primary<int>) returns (r: Outcome<int>)
      requires conn.Valid() && !conn.autoCommit
      requires p.out == Normal(total) && p.tables == conn.data && p.keys == keys
      modifies conn
      ensures conn.Valid() && !conn.autoCommit
      ensures Step(r, conn.data) == AfterPrimary(conn.accepts, old(conn.committed), p, corrected)
      ensures conn.committed == if r.Thrown? then old(conn.committed) else conn.data
    {
      ghost var t := conn.committed;
      var sum := total;
      var allRight := sum != -1;
      if allRight {
        sum := sum + |keys|;
        var inserted := InsertRivals(keys, corrected);
        if inserted.Thrown? {
          return Thrown(inserted.exception);
        }
        allRight := inserted.value;
        AfterPrimaryNormal(conn.accepts, t, p, corrected, total);
      } else {
        AfterPrimaryFails(conn.accepts, t, p, corrected);
      }
      if !allRight {
        conn.Rollback();
      } else {
        conn.Commit();
      }
      return Normal(if allRight then sum else 0);
    }

    method LoadProtagoniza(file: Option<seq<string>>) returns (r: Outcome<int>)
      requires Valid()
      modifies conn
      ensures Valid()
      ensures Step(r, conn.data) == LoadProtagonizaSpec(conn.accepts, old(conn.data), file)
    {
      r := LoadProtagonizaTransaction(file, false);
      conn.SetAutoCommit(true);
    }

    /**
     * The corrected loadProtagoniza: `insert` clears the parameters first, the
     * keys are compared as integers, and an exception rolls back before
     * auto-commit is restored.
     */
    method LoadProtagonizaAtomic(file: Option<seq<string>>) returns (r: Outcome<int>)
      requires Valid()
      modifies conn
      ensures Valid()
      ensures Step(r, conn.data) == LoadProtagonizaAtomicSpec(conn.accepts, old(conn.data), file)
    {
      r := LoadProtagonizaTransaction(file, true);
      if r.Thrown? {
        conn.Rollback();
        r := Normal(0);
      }
      conn.SetAutoCommit(true);
    }
  }
}
