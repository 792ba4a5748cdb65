/**
 * What loadProtagoniza promises about its transaction, as written and
 * corrected: what the value it returns counts, what is left behind when it
 * throws, all or nothing for the corrected loader, and what a second load
 * of the same file does.
 */
module TransactionTheorems {
  import opened JavaLang
  import opened Store
  import opened Dedup
  import opened Loaders
  import opened InsertTheorems
  import opened ProtagonizaTheorems

  /** insertProtagoniza returns -1, or the number of lines when each of them went in. */
  lemma InsertProtagonizaResult(acc: Oracle, t: Tables, file: Option<seq<string>>, corrected: bool)
    ensures var p := InsertProtagonizaSpec(acc, t, Unbound(InsertIntoProtagoniza.arity), file, [], corrected);
      p.tables.escena == t.escena && p.tables.rival == t.rival && t.protagoniza <= p.tables.protagoniza &&
      (file.None? ==> p.out == Normal(-1) && p.tables == t)
    ensures var p := InsertProtagonizaSpec(acc, t, Unbound(InsertIntoProtagoniza.arity), file, [], corrected);
      p.out.Normal? && p.out.value != -1 ==>
        file.Some? && p.out.value == |file.value| &&
        |p.tables.protagoniza| == |t.protagoniza| + |file.value| && p.keys == Distinct(Keys(file.value, corrected))
  {
    if file.Some? {
      var u := Unbound(InsertIntoProtagoniza.arity);
      var lines := file.value;
      PrimaryFrame(acc, t, u, lines, [], corrected);
      var p := PrimaryLoop(acc, t, u, lines, [], corrected);
      if p.out == Normal(true) {
        PrimaryCount(acc, t, u, lines, [], corrected);
        PrimaryDistinctKeys(acc, t, lines, corrected);
      }
    }
  }

  /**
   * The try block once insertProtagoniza returned the number of lines and
   * the rival loop went through: it commits both runs of rows and returns
   * the lines plus the pairs.
   */
  lemma TransactionCommits(acc: Oracle, t: Tables, lines: seq<string>, corrected: bool,
                           pi: Primary<int>, q: Insertion, assocs: seq<Row>, pairs: seq<Row>)
    requires pi == InsertProtagonizaSpec(acc, t, Unbound(InsertIntoProtagoniza.arity), Some(lines), [], corrected)
    requires pi.out == Normal(|lines|) && pi.tables == AppendAll(t, Protagoniza, assocs) && |pi.keys| == |pairs|
    requires q == RivalLoop(acc, pi.tables, Unbound(InsertIntoRival.arity), pi.keys, corrected)
    requires q.out == Normal(true) && q.tables == AppendAll(pi.tables, Rival, pairs)
    ensures ProtagonizaTransaction(acc, t, Some(lines), corrected) ==
      Step(Normal(|lines| + |pairs|), AppendAll(AppendAll(t, Protagoniza, assocs), Rival, pairs))
  {
    CommitsAppended(acc, t, pi, corrected, |lines|, q, assocs, pairs);
  }

  /** The commit after insertProtagoniza's `n` lines, written as the rows `assocs` and `pairs` appended. */
  lemma CommitsAppended(acc: Oracle, t: Tables, p: Primary<int>, corrected: bool, n: int, q: Insertion,
                        assocs: seq<Row>, pairs: seq<Row>)
    requires p.out == Normal(n) && n != -1
    requires q == RivalLoop(acc, p.tables, Unbound(InsertIntoRival.arity), p.keys, corrected) && q.out == Normal(true)
    requires p.tables == AppendAll(t, Protagoniza, assocs) && |p.keys| == |pairs| && q.tables == AppendAll(p.tables, Rival, pairs)
    ensures AfterPrimary(acc, t, p, corrected) ==
      Step(Normal(n + |pairs|), AppendAll(AppendAll(t, Protagoniza, assocs), Rival, pairs))
  {
    AfterPrimaryCommits(acc, t, p, corrected, n, q);
  }

  /**
   * When every line is well formed and the server accepts every row, then
   * every pair, loadProtagoniza (as written or corrected) inserts one row
   * per line and one per distinct key, and returns their number.
   */
  lemma TransactionLoadsAll(acc: Oracle, t: Tables, lines: seq<string>, corrected: bool, assocs: seq<Row>, pairs: seq<Row>)
    requires AllAssoc(lines) && assocs == AssocRows(lines) && pairs == RivalRows(lines, corrected)
    requires InsertsAll(acc, Protagoniza, t, assocs) && InsertsAll(acc, Rival, AppendAll(t, Protagoniza, assocs), pairs)
    ensures ProtagonizaTransaction(acc, t, Some(lines), corrected) ==
      Step(Normal(|lines| + |pairs|), AppendAll(AppendAll(t, Protagoniza, assocs), Rival, pairs))
  {
    var u := Unbound(InsertIntoProtagoniza.arity);
    PrimaryLoads(acc, t, u, lines, [], corrected);
    PrimaryDistinctKeys(acc, t, lines, corrected);
    var pi := InsertProtagonizaSpec(acc, t, u, Some(lines), [], corrected);
    var d := Distinct(Keys(lines, corrected));
    assert pi.out == Normal(|lines|) && pi.keys == d;
    KeysAreKeys(lines, corrected);
    RivalLoads(acc, pi.tables, Unbound(InsertIntoRival.arity), d, corrected);
    var q := RivalLoop(acc, pi.tables, Unbound(InsertIntoRival.arity), d, corrected);
    TransactionCommits(acc, t, lines, corrected, pi, q, assocs, pairs);
  }

  /** loadProtagoniza as written, on a file whose every line and pair is accepted. */
  lemma LoadProtagonizaLoadsAll(acc: Oracle, t: Tables, lines: seq<string>, assocs: seq<Row>, pairs: seq<Row>)
    requires AllAssoc(lines) && assocs == AssocRows(lines) && pairs == RivalRows(lines, false)
    requires InsertsAll(acc, Protagoniza, t, assocs) && InsertsAll(acc, Rival, AppendAll(t, Protagoniza, assocs), pairs)
    ensures LoadProtagonizaSpec(acc, t, Some(lines)) ==
      Step(Normal(|lines| + |pairs|), AppendAll(AppendAll(t, Protagoniza, assocs), Rival, pairs))
  {
    TransactionLoadsAll(acc, t, lines, false, assocs, pairs);
  }

  /**
   * What loadProtagoniza's value means when it returns one: rows are only
   * ever appended to protagoniza and rival, escena is untouched, and the
   * value is the number of rows added, so 0 exactly when nothing changed.
   */
  predicate Counted(t: Tables, r: Step<int>)
  {
    r.out.Normal? ==>
      r.tables.escena == t.escena && t.protagoniza <= r.tables.protagoniza && t.rival <= r.tables.rival &&
      r.out.value == (|r.tables.protagoniza| - |t.protagoniza|) + (|r.tables.rival| - |t.rival|)
  }

  /** A counted value of 0 means the tables are as they were. */
  lemma CountedZero(t: Tables, r: Step<int>)
    requires Counted(t, r) && r.out == Normal(0)
    ensures r.tables == t
  {
    assert r.tables.protagoniza == r.tables.protagoniza[..|t.protagoniza|];
    assert r.tables.rival == r.tables.rival[..|t.rival|];
  }

  lemma CountedAfterPrimary(acc: Oracle, t: Tables, p: Primary<int>, corrected: bool)
    requires p.out.Normal? && p.out.value != -1 ==>
      p.out.value >= 0 && p.tables.escena == t.escena && p.tables.rival == t.rival &&
      t.protagoniza <= p.tables.protagoniza && |p.tables.protagoniza| == |t.protagoniza| + p.out.value
    ensures Counted(t, AfterPrimary(acc, t, p, corrected))
  {
    if p.out.Normal? && p.out.value != -1 {
      RivalFrame(acc, p.tables, Unbound(InsertIntoRival.arity), p.keys, corrected);
      AfterPrimaryNormal(acc, t, p, corrected, p.out.value);
    }
  }

  /**
   * loadProtagoniza, as written or corrected, returns the number of rows it
   * added to protagoniza and rival, and 0 when the file cannot be opened.
   */
  lemma TransactionCounted(acc: Oracle, t: Tables, file: Option<seq<string>>, corrected: bool)
    ensures Counted(t, ProtagonizaTransaction(acc, t, file, corrected))
    ensures file.None? ==> ProtagonizaTransaction(acc, t, file, corrected) == Step(Normal(0), t)
  {
    InsertProtagonizaResult(acc, t, file, corrected);
    var p := InsertProtagonizaSpec(acc, t, Unbound(InsertIntoProtagoniza.arity), file, [], corrected);
    CountedAfterPrimary(acc, t, p, corrected);
  }

  /**
   * When loadProtagoniza throws, it was the read loop that threw, on some
   * line of the file; the tables are those the read loop left: the rows read
   * before that line stay in protagoniza, and nothing else changed.
   */
  lemma TransactionThrows(acc: Oracle, t: Tables, file: Option<seq<string>>, corrected: bool)
    ensures var r := ProtagonizaTransaction(acc, t, file, corrected);
      r.out.Thrown? ==>
        file.Some? && (exists k :: 0 <= k < |file.value| && Throws(file.value[k])) &&
        r.tables.escena == t.escena && r.tables.rival == t.rival && t.protagoniza <= r.tables.protagoniza
    ensures var r := ProtagonizaTransaction(acc, t, file, corrected);
      r.out.Thrown? ==>
        file.Some? &&
        var p := PrimaryLoop(acc, t, Unbound(InsertIntoProtagoniza.arity), file.value, [], corrected);
        p.out.Thrown? && r.tables == p.tables
  {
    InsertProtagonizaResult(acc, t, file, corrected);
    var p := InsertProtagonizaSpec(acc, t, Unbound(InsertIntoProtagoniza.arity), file, [], corrected);
    if file.Some? {
      var u := Unbound(InsertIntoProtagoniza.arity);
      var lines := file.value;
      if p.out.Thrown? {
        var k := PrimaryThrownAt(acc, t, u, lines, [], corrected);
        AfterPrimaryThrown(acc, t, p, corrected);
      } else if p.out.value != -1 {
        PrimaryKeys(acc, t, u, lines, [], corrected);
        RivalNoThrow(acc, p.tables, Unbound(InsertIntoRival.arity), p.keys, corrected);
        AfterPrimaryNormal(acc, t, p, corrected, p.out.value);
      }
    }
  }

  /**
   * When loadProtagoniza throws on a file, `k` is its first line that throws.
   * Every line before it went in, leaving its row in protagoniza in file
   * order right after the old rows (a well-formed line its own values), the
   * throwing line left at most its own row, and nothing is rolled back.
   */
  lemma TransactionThrowsAt(acc: Oracle, t: Tables, lines: seq<string>, corrected: bool) returns (k: nat)
    requires ProtagonizaTransaction(acc, t, Some(lines), corrected).out.Thrown?
    ensures k < |lines| && Throws(lines[k])
    ensures var r := ProtagonizaTransaction(acc, t, Some(lines), corrected);
      r.tables.escena == t.escena && r.tables.rival == t.rival && t.protagoniza <= r.tables.protagoniza &&
      |t.protagoniza| + k <= |r.tables.protagoniza| <= |t.protagoniza| + k + 1
    ensures var r := ProtagonizaTransaction(acc, t, Some(lines), corrected);
      forall j :: 0 <= j < k ==> ReadIn(lines[j], r.tables.protagoniza[|t.protagoniza| + j])
  {
    TransactionThrows(acc, t, Some(lines), corrected);
    var u := Unbound(InsertIntoProtagoniza.arity);
    k := PrimaryThrownAt(acc, t, u, lines, [], corrected);
    PrimaryFrame(acc, t, u, lines, [], corrected);
    PairsFromAll(ReadIn, lines, PrimaryLoop(acc, t, u, lines, [], corrected).tables.protagoniza, |t.protagoniza|, k);
  }

  /**
   * A file the corrected loader can load completely from `t`: every line is
   * three integers, the server accepts each association in turn, then each
   * distinct (hero, villain) pair.
   */
  predicate Loadable(acc: Oracle, t: Tables, lines: seq<string>)
  {
    AllAssoc(lines) && InsertsAll(acc, Protagoniza, t, AssocRows(lines)) &&
    InsertsAll(acc, Rival, AppendAll(t, Protagoniza, AssocRows(lines)), Distinct(PairRows(lines)))
  }

  /**
   * The try block of loadProtagoniza ends in one of three ways: it throws,
   * it rolls back and returns 0, or both loops ran to the end and it commits
   * what they left, returning the number of lines plus the number of keys
   * the read loop recorded.
   */
  lemma TransactionCases(acc: Oracle, t: Tables, lines: seq<string>, corrected: bool, p: Primary<int>, q: Insertion)
    requires p == InsertProtagonizaSpec(acc, t, Unbound(InsertIntoProtagoniza.arity), Some(lines), [], corrected)
    requires q == RivalLoop(acc, p.tables, Unbound(InsertIntoRival.arity), p.keys, corrected)
    ensures var r := ProtagonizaTransaction(acc, t, Some(lines), corrected);
      r.out.Thrown? || r == Step(Normal(0), t) ||
      (p.out == Normal(|lines|) && q.out == Normal(true) && r == Step(Normal(|lines| + |p.keys|), q.tables))
  {
    AfterPrimaryCases(acc, t, p, corrected, |lines|);
  }

  /**
   * The corrected try block commits everything only on a loadable file:
   * otherwise it throws or rolls back.
   */
  lemma CorrectedTransactionCases(acc: Oracle, t: Tables, lines: seq<string>)
    ensures var r := ProtagonizaTransaction(acc, t, Some(lines), true);
      r.out.Thrown? || r == Step(Normal(0), t) || Loadable(acc, t, lines)
  {
    var u := Unbound(InsertIntoProtagoniza.arity);
    var p := InsertProtagonizaSpec(acc, t, u, Some(lines), [], true);
    InsertProtagonizaResult(acc, t, Some(lines), true);
    if p.out.Thrown? {
      AfterPrimaryThrown(acc, t, p, true);
    } else if p.out.value == -1 {
      AfterPrimaryFails(acc, t, p, true);
    } else {
      PrimaryCleared(acc, t, u, lines, []);
      PrimaryLoads(acc, t, u, lines, [], true);
      var q := RivalLoop(acc, p.tables, Unbound(InsertIntoRival.arity), p.keys, true);
      AfterPrimaryNormal(acc, t, p, true, p.out.value);
      if q.out == Normal(true) {
        RivalCleared(acc, p.tables, Unbound(InsertIntoRival.arity), p.keys);
        CanonicalKeysDistinct(lines);
        assert Loadable(acc, t, lines);
      }
    }
  }

  /**
   * On a loadable file the corrected loadProtagoniza inserts every
   * association and every distinct pair, and returns their number.
   */
  lemma AtomicLoads(acc: Oracle, t: Tables, lines: seq<string>, assocs: seq<Row>, pairs: seq<Row>)
    requires AllAssoc(lines) && assocs == AssocRows(lines) && pairs == Distinct(PairRows(lines))
    requires InsertsAll(acc, Protagoniza, t, assocs) && InsertsAll(acc, Rival, AppendAll(t, Protagoniza, assocs), pairs)
    ensures LoadProtagonizaAtomicSpec(acc, t, Some(lines)) == Committed(t, assocs, pairs)
  {
    CanonicalKeysDistinct(lines);
    TransactionLoadsAll(acc, t, lines, true, assocs, pairs);
    CommittedIs(t, lines, assocs, pairs);
  }

  /**
   * On any other file, or one that cannot be opened, the corrected
   * loadProtagoniza leaves the tables as they were and returns 0.
   */
  lemma AtomicRejects(acc: Oracle, t: Tables, file: Option<seq<string>>)
    requires file.Some? ==> !Loadable(acc, t, file.value)
    ensures LoadProtagonizaAtomicSpec(acc, t, file) == Step(Normal(0), t)
  {
    TransactionCounted(acc, t, file, true);
    if file.Some? {
      CorrectedTransactionCases(acc, t, file.value);
    }
  }

  /**
   * What the corrected loader leaves after committing `assocs` and then the
   * distinct (hero, villain) `pairs`: both added, and their number as its
   * result.
   */
  function Committed(t: Tables, assocs: seq<Row>, pairs: seq<Row>): Step<int>
  {
    Step(Normal(|assocs| + |pairs|), AppendAll(AppendAll(t, Protagoniza, assocs), Rival, pairs))
  }

  lemma CommittedIs(t: Tables, lines: seq<string>, assocs: seq<Row>, pairs: seq<Row>)
    requires |assocs| == |lines|
    ensures Committed(t, assocs, pairs) == Step(Normal(|lines| + |pairs|), AppendAll(AppendAll(t, Protagoniza, assocs), Rival, pairs))
  {
  }

  /**
   * The corrected loadProtagoniza is all or nothing on a file it can read:
   * everything committed for a loadable file, otherwise no change and 0 (a
   * file it cannot open is `AtomicRejects`).
   */
  lemma AtomicLoadExact(acc: Oracle, t: Tables, lines: seq<string>)
    ensures Loadable(acc, t, lines) ==>
      LoadProtagonizaAtomicSpec(acc, t, Some(lines)) == Committed(t, AssocRows(lines), Distinct(PairRows(lines)))
    ensures !Loadable(acc, t, lines) ==> LoadProtagonizaAtomicSpec(acc, t, Some(lines)) == Step(Normal(0), t)
  {
    if Loadable(acc, t, lines) {
      var assocs, pairs := AssocRows(lines), Distinct(PairRows(lines));
      AtomicLoads(acc, t, lines, assocs, pairs);
    } else {
      AtomicRejects(acc, t, Some(lines));
    }
  }

  /** The rival table's primary key on (id_sup, id_villano): the server refuses a pair it already holds. */
  ghost predicate RivalKeyed(acc: Oracle)
  {
    forall rows: seq<Row>, row: Row :: row in rows ==> !acc(Rival, rows, row)
  }

  /**
   * Binding does not look at the tables, so a second read loop over lines
   * that all went in binds the same rows: it stops at a row the server now
   * refuses, or goes through and records the same keys.
   */
  lemma {:induction false} PrimaryRerun(acc: Oracle, t: Tables, t': Tables, params: Params, lines: seq<string>,
                                        keys: seq<string>, corrected: bool)
    requires PrimaryLoop(acc, t, params, lines, keys, corrected).out == Normal(true)
    ensures var p, p' := PrimaryLoop(acc, t, params, lines, keys, corrected), PrimaryLoop(acc, t', params, lines, keys, corrected);
      p'.out == Normal(false) || (p'.out == Normal(true) && p'.keys == p.keys)
    decreases |lines|
  {
    if lines != [] {
      var values := Split(lines[0], ';');
      var ps := Cleared(params, corrected);
      var s := InsertSpec(acc, t, InsertIntoProtagoniza, ps, values);
      assert s.out == Normal(true);
      InsertRerun(acc, t, t', InsertIntoProtagoniza, ps, values);
      var s' := InsertSpec(acc, t', InsertIntoProtagoniza, ps, values);
      if s'.out == Normal(true) {
        var keys' := AddIfAbsent(keys, KeyOf(values, corrected));
        PrimaryRerun(acc, s.tables, s'.tables, s.params, lines[1..], keys', corrected);
      }
    }
  }

  /**
   * A second rival loop over keys that all went in is refused at its first
   * key, whose pair the first loop left in rival.
   */
  lemma RivalRerun(acc: Oracle, t: Tables, t': Tables, params: Params, keys: seq<string>, corrected: bool)
    requires RivalKeyed(acc) && keys != [] && |params| == InsertIntoRival.arity
    requires RivalLoop(acc, t, params, keys, corrected).out == Normal(true)
    requires t'.rival == RivalLoop(acc, t, params, keys, corrected).tables.rival
    ensures RivalLoop(acc, t', params, keys, corrected).out == Normal(false)
  {
    var values := Split(keys[0], ',');
    var ps := Cleared(params, corrected);
    var s := InsertSpec(acc, t, InsertIntoRival, ps, values);
    assert s.out == Normal(true);
    InsertFrame(acc, t, InsertIntoRival, ps, values);
    RivalFrame(acc, s.tables, s.params, keys[1..], corrected);
    var row := Bound(s.params).value;
    var q := RivalLoop(acc, s.tables, s.params, keys[1..], corrected);
    assert row in t'.rival by {
      assert q.tables.rival[..|s.tables.rival|] == s.tables.rival;
      assert q.tables.rival[|t.rival|] == s.tables.rival[|t.rival|] == row;
    }
    InsertRerun(acc, t, t', InsertIntoRival, ps, values);
  }

  /**
   * Loading the same file again after a load that added rows finds a pair
   * already in rival: the second load rolls back and returns 0, as written
   * and corrected.
   */
  lemma TransactionRerun(acc: Oracle, t: Tables, lines: seq<string>, corrected: bool)
    requires RivalKeyed(acc)
    requires ProtagonizaTransaction(acc, t, Some(lines), corrected).out.Normal?
    requires ProtagonizaTransaction(acc, t, Some(lines), corrected).out.value != 0
    ensures var t1 := ProtagonizaTransaction(acc, t, Some(lines), corrected).tables;
      ProtagonizaTransaction(acc, t1, Some(lines), corrected) == Step(Normal(0), t1)
  {
    var u, v := Unbound(InsertIntoProtagoniza.arity), Unbound(InsertIntoRival.arity);
    var p1 := InsertProtagonizaSpec(acc, t, u, Some(lines), [], corrected);
    InsertProtagonizaResult(acc, t, Some(lines), corrected);
    if p1.out.Normal? && p1.out.value != -1 {
      var q1 := RivalLoop(acc, p1.tables, v, p1.keys, corrected);
      AfterPrimaryNormal(acc, t, p1, corrected, p1.out.value);
      if q1.out == Normal(true) {
        if lines != [] {
          DistinctElements(Keys(lines, corrected));
          assert Keys(lines, corrected)[0] in Distinct(Keys(lines, corrected));
        }
        var t1 := q1.tables;
        var p2 := InsertProtagonizaSpec(acc, t1, u, Some(lines), [], corrected);
        PrimaryRerun(acc, t, t1, u, lines, [], corrected);
        PrimaryFrame(acc, t1, u, lines, [], corrected);
        if p2.out.Normal? && p2.out.value != -1 {
          RivalRerun(acc, p1.tables, p2.tables, v, p1.keys, corrected);
          AfterPrimaryNormal(acc, t1, p2, corrected, p2.out.value);
        } else {
          AfterPrimaryFails(acc, t1, p2, corrected);
        }
      }
    }
  }

  /** loadProtagoniza as written, run twice on the same file: the second run adds nothing and returns 0. */
  lemma LoadProtagonizaRerun(acc: Oracle, t: Tables, lines: seq<string>)
    requires RivalKeyed(acc)
    requires LoadProtagonizaSpec(acc, t, Some(lines)).out.Normal? && LoadProtagonizaSpec(acc, t, Some(lines)).out.value != 0
    ensures var t1 := LoadProtagonizaSpec(acc, t, Some(lines)).tables;
      LoadProtagonizaSpec(acc, t1, Some(lines)) == Step(Normal(0), t1)
  {
    TransactionRerun(acc, t, lines, false);
  }

  /** The corrected loadProtagoniza, run twice on the same file: the second run adds nothing and returns 0. */
  lemma AtomicRerun(acc: Oracle, t: Tables, lines: seq<string>)
    requires RivalKeyed(acc) && LoadProtagonizaAtomicSpec(acc, t, Some(lines)).out.value != 0
    ensures var t1 := LoadProtagonizaAtomicSpec(acc, t, Some(lines)).tables;
      LoadProtagonizaAtomicSpec(acc, t1, Some(lines)) == Step(Normal(0), t1)
  {
    TransactionRerun(acc, t, lines, true);
  }
}
