/**
 * What insertProtagoniza and loadProtagoniza promise, as written and
 * corrected: the rows they add, the counts they return, when they throw,
 * and what a second run over the same file does.
 */
module ProtagonizaTheorems {
  import opened JavaLang
  import opened Store
  import opened Dedup
  import opened Loaders
  import opened InsertTheorems

  /** A line the association loader turns into a row: three fields, all integers. */
  predicate IsAssoc(line: string)
  {
    var values := Split(line, ';');
    |values| == 3 && IntsOf(values).Some?
  }

  predicate AllAssoc(lines: seq<string>)
  {
    forall k :: 0 <= k < |lines| ==> IsAssoc(lines[k])
  }

  /** The (hero, villain, movie) row of a well-formed line. */
  function AssocOf(line: string): (r: Row)
    requires IsAssoc(line)
    ensures |r| == 3
  {
    IntsOf(Split(line, ';')).value
  }

  function AssocRows(lines: seq<string>): (rows: seq<Row>)
    requires AllAssoc(lines)
    ensures |rows| == |lines|
  {
    seq(|lines|, k requires 0 <= k < |lines| => AssocOf(lines[k]))
  }

  /** The (hero, villain) pair of a well-formed line. */
  function PairRow(line: string): Row
    requires IsAssoc(line)
  {
    AssocOf(line)[..2]
  }

  function PairRows(lines: seq<string>): (rows: seq<Row>)
    requires AllAssoc(lines)
    ensures |rows| == |lines|
  {
    seq(|lines|, k requires 0 <= k < |lines| => PairRow(lines[k]))
  }

  /** The key insertProtagoniza records for a line ("" where it would throw instead). */
  function LineKey(line: string, corrected: bool): string
  {
    var values := Split(line, ';');
    if |values| >= 2 then KeyOf(values, corrected) else ""
  }

  function Keys(lines: seq<string>, corrected: bool): (keys: seq<string>)
    ensures |keys| == |lines|
  {
    seq(|lines|, k requires 0 <= k < |lines| => LineKey(lines[k], corrected))
  }

  /** A key the rival loop inserts without trouble: two integers separated by ','. */
  predicate IsKey(key: string)
  {
    var values := Split(key, ',');
    |values| == 2 && IntsOf(values).Some?
  }

  predicate AllKeys(keys: seq<string>)
  {
    forall k :: 0 <= k < |keys| ==> IsKey(keys[k])
  }

  function KeyRow(key: string): Row
    requires IsKey(key)
  {
    IntsOf(Split(key, ',')).value
  }

  function KeyRows(keys: seq<string>): (rows: seq<Row>)
    requires AllKeys(keys)
    ensures |rows| == |keys|
  {
    seq(|keys|, k requires 0 <= k < |keys| => KeyRow(keys[k]))
  }

  /**
   * A line on which the association loader throws once it reaches it: fewer
   * than two fields (values[1] is out of bounds), or a value that is not an
   * integer among those bound before setInt runs out of parameters.
   */
  predicate Throws(line: string)
  {
    var values := Split(line, ';');
    |values| < 2 || exists j :: 0 <= j < |values| && j <= InsertIntoProtagoniza.arity && ParseInt(values[j]).None?
  }

  lemma AllAssocCons(lines: seq<string>)
    requires lines != []
    ensures AllAssoc(lines) <==> IsAssoc(lines[0]) && AllAssoc(lines[1..])
  {
    var rest := lines[1..];
    if IsAssoc(lines[0]) && AllAssoc(rest) {
      forall k | 0 <= k < |lines| ensures IsAssoc(lines[k]) {
        if k > 0 {
          assert lines[k] == rest[k - 1];
        }
      }
    }
    if AllAssoc(lines) {
      forall k | 0 <= k < |rest| ensures IsAssoc(rest[k]) {
        assert rest[k] == lines[k + 1];
      }
    }
  }

  lemma AssocCons(lines: seq<string>)
    requires lines != [] && AllAssoc(lines)
    ensures IsAssoc(lines[0]) && AllAssoc(lines[1..])
    ensures AssocRows(lines) == [AssocOf(lines[0])] + AssocRows(lines[1..])
  {
    AllAssocCons(lines);
    AssocRowsTail(lines);
    HeadTail(AssocRows(lines));
  }

  lemma HeadTail<T>(s: seq<T>)
    requires s != []
    ensures s == [s[0]] + s[1..]
  {
  }

  lemma AssocRowsTail(lines: seq<string>)
    requires lines != [] && AllAssoc(lines) && AllAssoc(lines[1..])
    ensures AssocRows(lines)[1..] == AssocRows(lines[1..])
  {
    var rest := lines[1..];
    forall k | 0 <= k < |rest| ensures AssocRows(lines)[1..][k] == AssocRows(rest)[k] {
      assert rest[k] == lines[k + 1];
    }
  }

  lemma KeysCons(lines: seq<string>, corrected: bool)
    requires lines != []
    ensures Keys(lines, corrected) == [LineKey(lines[0], corrected)] + Keys(lines[1..], corrected)
  {
    var keys, rest := Keys(lines, corrected), Keys(lines[1..], corrected);
    forall k | 0 <= k < |rest| ensures keys[1..][k] == rest[k] {
      assert lines[1..][k] == lines[k + 1];
    }
    HeadTail(keys);
  }

  lemma AddAllCons(keys: seq<string>, x: string, xs: seq<string>)
    ensures AddAll(keys, [x] + xs) == AddAll(AddIfAbsent(keys, x), xs)
  {
    assert ([x] + xs)[0] == x && ([x] + xs)[1..] == xs;
  }

  /**
   * Over well-formed lines the server accepts, the read loop inserts every
   * row, in order, and records every line's key not yet recorded.
   */
  lemma {:induction false} PrimaryLoads(acc: Oracle, t: Tables, params: Params, lines: seq<string>,
                                        keys: seq<string>, corrected: bool)
    requires |params| == InsertIntoProtagoniza.arity && AllAssoc(lines)
    requires InsertsAll(acc, Protagoniza, t, AssocRows(lines))
    ensures var p := PrimaryLoop(acc, t, params, lines, keys, corrected);
      p.out == Normal(true) && p.tables == AppendAll(t, Protagoniza, AssocRows(lines)) &&
      p.keys == AddAll(keys, Keys(lines, corrected))
    decreases |lines|
  {
    if lines == [] {
      assert t.protagoniza + [] == t.protagoniza;
    } else {
      var values := Split(lines[0], ';');
      var row := AssocOf(lines[0]);
      var ps := Cleared(params, corrected);
      InsertBindsValues(acc, t, InsertIntoProtagoniza, ps, values);
      InsertOutcome(acc, t, InsertIntoProtagoniza, ps, values);
      var s := InsertSpec(acc, t, InsertIntoProtagoniza, ps, values);
      var rest := AssocRows(lines[1..]);
      AssocCons(lines);
      InsertsAllCons(acc, Protagoniza, t, row, rest);
      var keys' := AddIfAbsent(keys, KeyOf(values, corrected));
      PrimaryLoads(acc, s.tables, s.params, lines[1..], keys', corrected);
      AppendAllCons(t, Protagoniza, row, rest);
      KeysCons(lines, corrected);
      AddAllCons(keys, LineKey(lines[0], corrected), Keys(lines[1..], corrected));
    }
  }

  /**
   * The read loop adds rows to protagoniza only, at most one per line, and
   * never takes one away.
   */
  lemma {:induction false} PrimaryFrame(acc: Oracle, t: Tables, params: Params, lines: seq<string>,
                                        keys: seq<string>, corrected: bool)
    requires |params| == InsertIntoProtagoniza.arity
    ensures var p := PrimaryLoop(acc, t, params, lines, keys, corrected);
      p.tables.escena == t.escena && p.tables.rival == t.rival && |p.params| == |params| &&
      |t.protagoniza| <= |p.tables.protagoniza| <= |t.protagoniza| + |lines| &&
      p.tables.protagoniza[..|t.protagoniza|] == t.protagoniza
    decreases |lines|
  {
    if lines != [] {
      var values := Split(lines[0], ';');
      var ps := Cleared(params, corrected);
      InsertFrame(acc, t, InsertIntoProtagoniza, ps, values);
      var s := InsertSpec(acc, t, InsertIntoProtagoniza, ps, values);
      if s.out == Normal(true) && |values| >= 2 {
        var keys' := AddIfAbsent(keys, KeyOf(values, corrected));
        PrimaryFrame(acc, s.tables, s.params, lines[1..], keys', corrected);
        var p := PrimaryLoop(acc, s.tables, s.params, lines[1..], keys', corrected);
        assert p.tables.protagoniza[..|t.protagoniza|] == p.tables.protagoniza[..|s.tables.protagoniza|][..|t.protagoniza|];
      }
    }
  }

  /**
   * The read loop stops at the first line that throws or is refused: once it
   * has stopped on `a`, the lines after `a` are never read.
   */
  lemma {:induction false} PrimaryStops(acc: Oracle, t: Tables, params: Params, a: seq<string>, b: seq<string>,
                                        keys: seq<string>, corrected: bool)
    requires PrimaryLoop(acc, t, params, a, keys, corrected).out != Normal(true)
    ensures PrimaryLoop(acc, t, params, a + b, keys, corrected) == PrimaryLoop(acc, t, params, a, keys, corrected)
    decreases |a|
  {
    var values := Split(a[0], ';');
    var s := InsertSpec(acc, t, InsertIntoProtagoniza, Cleared(params, corrected), values);
    assert (a + b)[0] == a[0] && (a + b)[1..] == a[1..] + b;
    if s.out == Normal(true) && |values| >= 2 {
      PrimaryStops(acc, s.tables, s.params, a[1..], b, AddIfAbsent(keys, KeyOf(values, corrected)), corrected);
    }
  }

  /** When every line went in, the read loop added one row per line and recorded every key. */
  lemma {:induction false} PrimaryCount(acc: Oracle, t: Tables, params: Params, lines: seq<string>,
                                        keys: seq<string>, corrected: bool)
    requires |params| == InsertIntoProtagoniza.arity
    requires PrimaryLoop(acc, t, params, lines, keys, corrected).out == Normal(true)
    ensures var p := PrimaryLoop(acc, t, params, lines, keys, corrected);
      |p.tables.protagoniza| == |t.protagoniza| + |lines| && p.keys == AddAll(keys, Keys(lines, corrected))
    decreases |lines|
  {
    if lines != [] {
      var values := Split(lines[0], ';');
      var ps := Cleared(params, corrected);
      InsertFrame(acc, t, InsertIntoProtagoniza, ps, values);
      var s := InsertSpec(acc, t, InsertIntoProtagoniza, ps, values);
      var keys' := AddIfAbsent(keys, KeyOf(values, corrected));
      PrimaryCount(acc, s.tables, s.params, lines[1..], keys', corrected);
      KeysCons(lines, corrected);
      AddAllCons(keys, LineKey(lines[0], corrected), Keys(lines[1..], corrected));
    }
  }

  /** Once the corrected read loop has inserted every line, every line was well formed and accepted. */
  lemma {:induction false} PrimaryCleared(acc: Oracle, t: Tables, params: Params, lines: seq<string>, keys: seq<string>)
    requires |params| == InsertIntoProtagoniza.arity
    requires PrimaryLoop(acc, t, params, lines, keys, true).out == Normal(true)
    ensures AllAssoc(lines) && InsertsAll(acc, Protagoniza, t, AssocRows(lines))
    decreases |lines|
  {
    if lines != [] {
      var values := Split(lines[0], ';');
      InsertClearedExact(acc, t, InsertIntoProtagoniza, values);
      InsertOutcome(acc, t, InsertIntoProtagoniza, Unbound(|params|), values);
      var s := InsertSpec(acc, t, InsertIntoProtagoniza, Unbound(|params|), values);
      var keys' := AddIfAbsent(keys, KeyOf(values, true));
      PrimaryCleared(acc, s.tables, s.params, lines[1..], keys');
      assert IsAssoc(lines[0]);
      AllAssocCons(lines);
      AssocCons(lines);
      InsertsAllCons(acc, Protagoniza, t, AssocOf(lines[0]), AssocRows(lines[1..]));
    }
  }

  /** A line on which the insert of the read loop throws is a line that throws. */
  lemma InsertThrowsOn(acc: Oracle, t: Tables, params: Params, line: string, corrected: bool)
    requires |params| == InsertIntoProtagoniza.arity
    requires InsertSpec(acc, t, InsertIntoProtagoniza, Cleared(params, corrected), Split(line, ';')).out.Thrown?
    ensures Throws(line)
  {
    var values := Split(line, ';');
    var ps := Cleared(params, corrected);
    InsertOutcome(acc, t, InsertIntoProtagoniza, ps, values);
    var j :| 0 <= j < |values| && j <= |ps| && ParseInt(values[j]).None?;
  }

  /**
   * A line the read loop got past, leaving `row` bound and inserted: it did
   * not throw, and when it is a well-formed association the row is its own.
   */
  predicate ReadIn(line: string, row: Row)
  {
    !Throws(line) && (IsAssoc(line) ==> row == AssocOf(line))
  }

  /**
   * A read loop that throws has a first line. Either that line throws, and
   * the loop stops there having added at most its row, or the line went in:
   * its row was added and the loop goes on from there.
   */
  lemma PrimaryThrownStep(acc: Oracle, t: Tables, params: Params, lines: seq<string>, keys: seq<string>, corrected: bool)
      returns (first: bool, t': Tables, params': Params, keys': seq<string>)
    requires |params| == InsertIntoProtagoniza.arity
    requires PrimaryLoop(acc, t, params, lines, keys, corrected).out.Thrown?
    ensures lines != []
    ensures first ==> Throws(lines[0])
    ensures first ==>
      |t.protagoniza| <= |PrimaryLoop(acc, t, params, lines, keys, corrected).tables.protagoniza| <= |t.protagoniza| + 1
    ensures !first ==> |params'| == InsertIntoProtagoniza.arity && PrimaryLoop(acc, t', params', lines[1..], keys', corrected).out.Thrown?
    ensures !first ==>
      PrimaryLoop(acc, t, params, lines, keys, corrected) == PrimaryLoop(acc, t', params', lines[1..], keys', corrected)
    ensures !first ==> |t'.protagoniza| == |t.protagoniza| + 1 && ReadIn(lines[0], t'.protagoniza[|t.protagoniza|])
  {
    var values := Split(lines[0], ';');
    var ps := Cleared(params, corrected);
    InsertFrame(acc, t, InsertIntoProtagoniza, ps, values);
    var s := InsertSpec(acc, t, InsertIntoProtagoniza, ps, values);
    first, t', params', keys' := true, t, params, keys;
    if s.out.Thrown? {
      InsertThrowsOn(acc, t, params, lines[0], corrected);
    } else if |values| >= 2 {
      first := false;
      t', params', keys' := s.tables, s.params, AddIfAbsent(keys, KeyOf(values, corrected));
      InsertOutcome(acc, t, InsertIntoProtagoniza, ps, values);
      if IsAssoc(lines[0]) {
        InsertBindsValues(acc, t, InsertIntoProtagoniza, ps, values);
      }
    }
  }

  /**
   * When the read loop throws, it reached a line that throws; every line
   * before it went in, each leaving its row in order after the old rows
   * (which stay, PrimaryFrame), and the throwing line added at most its own.
   */
  lemma {:induction false} PrimaryThrownAt(acc: Oracle, t: Tables, params: Params, lines: seq<string>,
                                           keys: seq<string>, corrected: bool) returns (k: nat)
    requires |params| == InsertIntoProtagoniza.arity
    requires PrimaryLoop(acc, t, params, lines, keys, corrected).out.Thrown?
    ensures k < |lines| && Throws(lines[k])
    ensures var p := PrimaryLoop(acc, t, params, lines, keys, corrected);
      |t.protagoniza| + k <= |p.tables.protagoniza| <= |t.protagoniza| + k + 1
    ensures var p := PrimaryLoop(acc, t, params, lines, keys, corrected);
      PairsFrom(ReadIn, lines, p.tables.protagoniza, |t.protagoniza|, k)
    decreases |lines|
  {
    var first, t', params', keys' := PrimaryThrownStep(acc, t, params, lines, keys, corrected);
    if first {
      k := 0;
    } else {
      var k' := PrimaryThrownAt(acc, t', params', lines[1..], keys', corrected);
      k := k' + 1;
      PrimaryFrame(acc, t', params', lines[1..], keys', corrected);
      ThrownShift(lines, t.protagoniza, t'.protagoniza, PrimaryLoop(acc, t', params', lines[1..], keys', corrected).tables.protagoniza, k');
    }
  }

  /** The read loop's rows after its first line, `r'`, and after the line before them, `r`, seen from `lines` instead of `lines[1..]`. */
  lemma ThrownShift(lines: seq<string>, r: seq<Row>, r': seq<Row>, q: seq<Row>, k': nat)
    requires lines != [] && k' < |lines[1..]| && Throws(lines[1..][k'])
    requires |r'| == |r| + 1 && r' <= q && ReadIn(lines[0], r'[|r|])
    requires |r'| + k' <= |q| <= |r'| + k' + 1 && PairsFrom(ReadIn, lines[1..], q, |r'|, k')
    ensures k' + 1 < |lines| && Throws(lines[k' + 1])
    ensures |r| + k' + 1 <= |q| <= |r| + k' + 2 && PairsFrom(ReadIn, lines, q, |r|, k' + 1)
  {
    assert lines[k' + 1] == lines[1..][k'];
    assert q[|r|] == r'[|r|];
  }

  /** `P` holds of each of the `k` pairs `xs[j]`, `ys[n + j]`. */
  predicate PairsFrom<A, B>(P: (A, B) -> bool, xs: seq<A>, ys: seq<B>, n: nat, k: nat)
    requires k <= |xs| && n + k <= |ys|
    decreases k
  {
    k == 0 || (P(xs[0], ys[n]) && PairsFrom(P, xs[1..], ys, n + 1, k - 1))
  }

  /** PairsFrom, pair by pair. */
  lemma {:induction false} PairsFromAll<A, B>(P: (A, B) -> bool, xs: seq<A>, ys: seq<B>, n: nat, k: nat)
    requires k <= |xs| && n + k <= |ys|
    ensures PairsFrom(P, xs, ys, n, k) <==> forall j :: 0 <= j < k ==> P(xs[j], ys[n + j])
    decreases k
  {
    if k > 0 {
      PairsFromAll(P, xs[1..], ys, n + 1, k - 1);
      assert forall j :: 0 < j < k ==> xs[j] == xs[1..][j - 1] && n + j == n + 1 + (j - 1);
    }
  }

  /**
   * The key of a line whose first two values are integers is a key the rival
   * loop reads back as those two integers; as written it is the two values
   * verbatim, corrected it is them in canonical decimal.
   */
  lemma LineKeyIsKey(line: string, corrected: bool)
    requires var v := Split(line, ';'); |v| >= 2 && ParseInt(v[0]).Some? && ParseInt(v[1]).Some?
    ensures IsKey(LineKey(line, corrected))
    ensures var v := Split(line, ';');
      KeyRow(LineKey(line, corrected)) == [IntValue(ParseInt(v[0]).value), IntValue(ParseInt(v[1]).value)]
    ensures var v := Split(line, ';'); !corrected ==> Split(LineKey(line, corrected), ',') == v[..2]
  {
    var v := Split(line, ';');
    var a, b := ParseInt(v[0]).value, ParseInt(v[1]).value;
    if corrected {
      ParseDecimal(a);
      ParseDecimal(b);
      assert LineKey(line, corrected) == Decimal(a) + "," + Decimal(b);
      TwoIntKey(Decimal(a), Decimal(b));
    } else {
      assert LineKey(line, corrected) == v[0] + "," + v[1];
      TwoIntKey(v[0], v[1]);
    }
  }

  /** Two integers joined by ',' split back into themselves. */
  lemma TwoIntKey(x: string, y: string)
    requires ParseInt(x).Some? && ParseInt(y).Some?
    ensures Split(x + "," + y, ',') == [x, y]
    ensures IsKey(x + "," + y) && KeyRow(x + "," + y) == [IntValue(ParseInt(x).value), IntValue(ParseInt(y).value)]
  {
    ParsedHasNoDelimiter(x);
    ParsedHasNoDelimiter(y);
    var f := [x, y];
    assert Join(f, ',') == x + "," + y;
    SplitJoin(f, ',');
    assert IntsOf(f).value == [IntValue(ParseInt(x).value), IntValue(ParseInt(y).value)];
  }

  /** The canonical key of a (hero, villain) row. */
  function RowKey(r: Row): string
  {
    if |r| == 2 && r[0].IntValue? && r[1].IntValue? then Decimal(r[0].n) + "," + Decimal(r[1].n) else ""
  }

  /** Under the corrected loader a line's key is the canonical key of its pair, which reads back as the pair. */
  lemma CanonicalLineKey(line: string)
    requires IsAssoc(line)
    ensures LineKey(line, true) == RowKey(PairRow(line))
    ensures IsKey(RowKey(PairRow(line))) && KeyRow(RowKey(PairRow(line))) == PairRow(line)
  {
    LineKeyIsKey(line, true);
  }

  /** A (hero, villain) pair that its canonical key reads back as. */
  predicate ReadsBack(r: Row)
  {
    IsKey(RowKey(r)) && KeyRow(RowKey(r)) == r
  }

  /** The corrected keys of well-formed lines are the canonical keys of their pairs, which read back. */
  lemma CanonicalKeys(lines: seq<string>)
    requires AllAssoc(lines)
    ensures Keys(lines, true) == Map(RowKey, PairRows(lines))
    ensures forall k :: 0 <= k < |lines| ==> ReadsBack(PairRows(lines)[k])
  {
    var pr := PairRows(lines);
    forall k | 0 <= k < |lines| ensures LineKey(lines[k], true) == RowKey(pr[k]) && ReadsBack(pr[k]) {
      CanonicalLineKey(lines[k]);
    }
  }

  /** Pairs that read back are recovered from their keys. */
  lemma RowKeysReadBack(rows: seq<Row>)
    requires forall k :: 0 <= k < |rows| ==> ReadsBack(rows[k])
    ensures AllKeys(Map(RowKey, rows)) && KeyRows(Map(RowKey, rows)) == rows
  {
  }

  /** Deduplicating corrected keys is deduplicating the (hero, villain) pairs. */
  lemma CanonicalKeysDistinct(lines: seq<string>)
    requires AllAssoc(lines)
    ensures AllKeys(Distinct(Keys(lines, true)))
    ensures KeyRows(Distinct(Keys(lines, true))) == Distinct(PairRows(lines))
  {
    var pr := PairRows(lines);
    CanonicalKeys(lines);
    assert InjectiveOn(RowKey, pr) by {
      forall i, j | 0 <= i < |pr| && 0 <= j < |pr| && RowKey(pr[i]) == RowKey(pr[j]) ensures pr[i] == pr[j] {
        assert ReadsBack(pr[i]) && ReadsBack(pr[j]);
      }
    }
    DistinctMap(RowKey, pr);
    var d := Distinct(pr);
    forall i | 0 <= i < |d| ensures ReadsBack(d[i]) {
      assert d[i] in d;
      DistinctMember(pr, d[i]);
    }
    RowKeysReadBack(d);
  }

  /** Both loaders' keys of well-formed lines are all keys the rival loop reads back. */
  lemma KeysAreKeys(lines: seq<string>, corrected: bool)
    requires AllAssoc(lines)
    ensures AllKeys(Keys(lines, corrected)) && AllKeys(Distinct(Keys(lines, corrected)))
  {
    var ks := Keys(lines, corrected);
    forall k | 0 <= k < |lines| ensures IsKey(ks[k]) {
      assert IsAssoc(lines[k]);
      LineKeyIsKey(lines[k], corrected);
    }
    var d := Distinct(ks);
    forall i | 0 <= i < |d| ensures IsKey(d[i]) {
      assert d[i] in d;
      DistinctMember(ks, d[i]);
    }
  }

  lemma AllKeysAdd(keys: seq<string>, key: string)
    requires AllKeys(keys) && IsKey(key)
    ensures AllKeys(AddIfAbsent(keys, key))
  {
  }

  /** A read loop that inserted every line recorded only keys the rival loop reads back. */
  lemma {:induction false} PrimaryKeys(acc: Oracle, t: Tables, params: Params, lines: seq<string>,
                                       keys: seq<string>, corrected: bool)
    requires |params| == InsertIntoProtagoniza.arity && AllKeys(keys)
    requires PrimaryLoop(acc, t, params, lines, keys, corrected).out == Normal(true)
    ensures AllKeys(PrimaryLoop(acc, t, params, lines, keys, corrected).keys)
    decreases |lines|
  {
    if lines != [] {
      var values := Split(lines[0], ';');
      var ps := Cleared(params, corrected);
      InsertFrame(acc, t, InsertIntoProtagoniza, ps, values);
      InsertParsed(acc, t, InsertIntoProtagoniza, ps, values);
      var s := InsertSpec(acc, t, InsertIntoProtagoniza, ps, values);
      assert ParseInt(values[0]).Some? && ParseInt(values[1]).Some?;
      LineKeyIsKey(lines[0], corrected);
      var keys' := AddIfAbsent(keys, KeyOf(values, corrected));
      AllKeysAdd(keys, KeyOf(values, corrected));
      PrimaryKeys(acc, s.tables, s.params, lines[1..], keys', corrected);
    }
  }

  lemma AllKeysTail(keys: seq<string>)
    requires keys != [] && AllKeys(keys)
    ensures AllKeys(keys[1..])
  {
    var rest := keys[1..];
    forall k | 0 <= k < |rest| ensures IsKey(rest[k]) {
      assert rest[k] == keys[k + 1];
    }
  }

  lemma KeyRowsCons(keys: seq<string>)
    requires keys != [] && AllKeys(keys)
    ensures AllKeys(keys[1..]) && KeyRows(keys) == [KeyRow(keys[0])] + KeyRows(keys[1..])
  {
    AllKeysTail(keys);
    var rest := keys[1..];
    var rows := KeyRows(keys);
    forall k | 0 <= k < |rest| ensures rows[1..][k] == KeyRows(rest)[k] {
      assert rest[k] == keys[k + 1];
    }
    HeadTail(rows);
  }

  /** Over keys the server accepts, the rival loop inserts every pair, in order. */
  lemma {:induction false} RivalLoads(acc: Oracle, t: Tables, params: Params, keys: seq<string>, corrected: bool)
    requires |params| == InsertIntoRival.arity && AllKeys(keys)
    requires InsertsAll(acc, Rival, t, KeyRows(keys))
    ensures var q := RivalLoop(acc, t, params, keys, corrected);
      q.out == Normal(true) && q.tables == AppendAll(t, Rival, KeyRows(keys))
    decreases |keys|
  {
    if keys == [] {
      assert t.rival + [] == t.rival;
    } else {
      var values := Split(keys[0], ',');
      var row := KeyRow(keys[0]);
      var ps := Cleared(params, corrected);
      InsertBindsValues(acc, t, InsertIntoRival, ps, values);
      InsertFrame(acc, t, InsertIntoRival, ps, values);
      var s := InsertSpec(acc, t, InsertIntoRival, ps, values);
      KeyRowsCons(keys);
      var rest := KeyRows(keys[1..]);
      InsertsAllCons(acc, Rival, t, row, rest);
      RivalLoads(acc, s.tables, s.params, keys[1..], corrected);
      AppendAllCons(t, Rival, row, rest);
    }
  }

  /**
   * The rival loop stops at the first key whose insert does not return
   * true: once it has stopped on `a`, the keys after `a` are never inserted.
   */
  lemma {:induction false} RivalStops(acc: Oracle, t: Tables, params: Params, a: seq<string>, b: seq<string>, corrected: bool)
    requires RivalLoop(acc, t, params, a, corrected).out != Normal(true)
    ensures RivalLoop(acc, t, params, a + b, corrected) == RivalLoop(acc, t, params, a, corrected)
    decreases |a|
  {
    var s := InsertSpec(acc, t, InsertIntoRival, Cleared(params, corrected), Split(a[0], ','));
    assert (a + b)[0] == a[0] && (a + b)[1..] == a[1..] + b;
    if s.out == Normal(true) {
      RivalStops(acc, s.tables, s.params, a[1..], b, corrected);
    }
  }

  /**
   * The rival loop adds rows to rival only, at most one per key, and never
   * takes one away; when it returns true it added one row per key.
   */
  lemma {:induction false} RivalFrame(acc: Oracle, t: Tables, params: Params, keys: seq<string>, corrected: bool)
    requires |params| == InsertIntoRival.arity
    ensures var q := RivalLoop(acc, t, params, keys, corrected);
      q.tables.escena == t.escena && q.tables.protagoniza == t.protagoniza &&
      |t.rival| <= |q.tables.rival| <= |t.rival| + |keys| && q.tables.rival[..|t.rival|] == t.rival &&
      (q.out == Normal(true) ==> |q.tables.rival| == |t.rival| + |keys|)
    decreases |keys|
  {
    if keys != [] {
      var values := Split(keys[0], ',');
      var ps := Cleared(params, corrected);
      InsertFrame(acc, t, InsertIntoRival, ps, values);
      var s := InsertSpec(acc, t, InsertIntoRival, ps, values);
      if s.out == Normal(true) {
        RivalFrame(acc, s.tables, s.params, keys[1..], corrected);
        var q := RivalLoop(acc, s.tables, s.params, keys[1..], corrected);
        assert q.tables.rival[..|t.rival|] == q.tables.rival[..|s.tables.rival|][..|t.rival|];
      }
    }
  }

  /** Once the corrected rival loop returns true, every key was well formed and every pair accepted. */
  lemma {:induction false} RivalCleared(acc: Oracle, t: Tables, params: Params, keys: seq<string>)
    requires |params| == InsertIntoRival.arity
    requires RivalLoop(acc, t, params, keys, true).out == Normal(true)
    ensures AllKeys(keys) && InsertsAll(acc, Rival, t, KeyRows(keys))
    decreases |keys|
  {
    if keys != [] {
      var values := Split(keys[0], ',');
      InsertClearedExact(acc, t, InsertIntoRival, values);
      InsertFrame(acc, t, InsertIntoRival, Unbound(|params|), values);
      var s := InsertSpec(acc, t, InsertIntoRival, Unbound(|params|), values);
      RivalCleared(acc, s.tables, s.params, keys[1..]);
      assert IsKey(keys[0]);
      assert forall k :: 1 <= k < |keys| ==> keys[k] == keys[1..][k - 1];
      KeyRowsCons(keys);
      InsertsAllCons(acc, Rival, t, KeyRow(keys[0]), KeyRows(keys[1..]));
    }
  }

  /** The rival loop does not throw on keys it reads back. */
  lemma {:induction false} RivalNoThrow(acc: Oracle, t: Tables, params: Params, keys: seq<string>, corrected: bool)
    requires |params| == InsertIntoRival.arity && AllKeys(keys)
    ensures !RivalLoop(acc, t, params, keys, corrected).out.Thrown?
    decreases |keys|
  {
    if keys != [] {
      var values := Split(keys[0], ',');
      var ps := Cleared(params, corrected);
      InsertOutcome(acc, t, InsertIntoRival, ps, values);
      var s := InsertSpec(acc, t, InsertIntoRival, ps, values);
      if s.out == Normal(true) {
        assert forall k :: 1 <= k < |keys| ==> keys[k] == keys[1..][k - 1];
        RivalNoThrow(acc, s.tables, s.params, keys[1..], corrected);
      }
    }
  }

  /** The rival rows a load of well-formed lines inserts: one per distinct key. */
  function RivalRows(lines: seq<string>, corrected: bool): (rows: seq<Row>)
    requires AllAssoc(lines)
    ensures |rows| == |Distinct(Keys(lines, corrected))|
  {
    KeysAreKeys(lines, corrected);
    KeyRows(Distinct(Keys(lines, corrected)))
  }

  /** The key list insertProtagoniza builds from empty, once every line went in. */
  lemma PrimaryDistinctKeys(acc: Oracle, t: Tables, lines: seq<string>, corrected: bool)
    requires PrimaryLoop(acc, t, Unbound(InsertIntoProtagoniza.arity), lines, [], corrected).out == Normal(true)
    ensures PrimaryLoop(acc, t, Unbound(InsertIntoProtagoniza.arity), lines, [], corrected).keys == Distinct(Keys(lines, corrected))
  {
    PrimaryCount(acc, t, Unbound(InsertIntoProtagoniza.arity), lines, [], corrected);
    AddAllDistinct([], Keys(lines, corrected));
    assert [] + Keys(lines, corrected) == Keys(lines, corrected);
  }
}
