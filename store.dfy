/**
 * The relational store the loaders write to, reduced to what they observe:
 * three tables of rows, prepared INSERT statements, and one JDBC session
 * with its auto-commit flag, commit and rollback.
 */
module Store {
  import opened JavaLang

  datatype Value = IntValue(n: int) | TextValue(s: string)

  type Row = seq<Value>

  datatype Table = Escena | Protagoniza | Rival

  /** The rows of the tables the loaders insert into, in insertion order. */
  datatype Tables = Tables(escena: seq<Row>, protagoniza: seq<Row>, rival: seq<Row>)
  {
    function Get(t: Table): seq<Row>
    {
      match t
      case Escena => escena
      case Protagoniza => protagoniza
      case Rival => rival
    }

    /** The tables after `row` is added to `t`; the other two are untouched. */
    function Append(t: Table, row: Row): (r: Tables)
      ensures r.Get(t) == Get(t) + [row]
      ensures forall u :: u != t ==> r.Get(u) == Get(u)
    {
      match t
      case Escena => this.(escena := escena + [row])
      case Protagoniza => this.(protagoniza := protagoniza + [row])
      case Rival => this.(rival := rival + [row])
    }
  }

  /**
   * Whether the server accepts `row` into a table that currently holds
   * `rows`: stands for the primary-key, foreign-key and type checks MySQL
   * makes, which are not modelled.
   */
  type Oracle = (Table, seq<Row>, Row) -> bool

  /** A prepared INSERT statement: its table and its number of `?` parameters. */
  datatype Statement = Statement(table: Table, arity: nat)

  /** The values bound to a statement's parameters, None for one not yet set. */
  type Params = seq<Option<Value>>

  function Unbound(n: nat): (p: Params)
    ensures |p| == n && forall k :: 0 <= k < n ==> p[k] == None
  {
    seq(n, k => None)
  }

  /** The row the parameters spell when every one of them is set. */
  function Bound(params: Params): (r: Option<Row>)
    ensures r.Some? <==> forall k :: 0 <= k < |params| ==> params[k].Some?
    ensures r.Some? ==> |r.value| == |params| && forall k :: 0 <= k < |params| ==> params[k] == Some(r.value[k])
    decreases |params|
  {
    if params == [] then Some([])
    else
      match (params[0], Bound(params[1..]))
      case (Some(v), Some(rest)) => Some([v] + rest)
      case _ => None
  }

  /**
   * executeUpdate succeeds when every parameter is bound (otherwise the
   * driver raises an SQLException) and the server accepts the row.
   */
  predicate Accepted(accepts: Oracle, t: Tables, st: Statement, row: Row)
  {
    |row| == st.arity && accepts(st.table, t.Get(st.table), row)
  }

  /**
   * A PreparedStatement. A parameter keeps its value from one execution to
   * the next until it is set again or the parameters are cleared.
   */
  class PreparedStatement {
    const statement: Statement
    var params: Params

    ghost predicate Valid()
      reads this
    {
      |params| == statement.arity
    }

    /** Connection.prepareStatement: no parameter is set yet. */
    constructor (statement: Statement)
      ensures Valid() && this.statement == statement && params == Unbound(statement.arity)
    {
      this.statement := statement;
      params := Unbound(statement.arity);
    }

    /** setInt(index, n); false stands for the SQLException raised for an index out of range. */
    method SetInt(index: int, n: int) returns (ok: bool)
      modifies this
      ensures ok == (1 <= index <= |old(params)|)
      ensures params == if ok then old(params)[index - 1 := Some(IntValue(n))] else old(params)
    {
      ok := 1 <= index <= |params|;
      if ok {
        params := params[index - 1 := Some(IntValue(n))];
      }
    }

    /** clearParameters. */
    method ClearParameters()
      modifies this
      ensures params == Unbound(|old(params)|)
    {
      params := Unbound(|params|);
    }
  }

  /** One open JDBC connection. */
  class Connection {
    const accepts: Oracle
    /** What this session reads and writes, uncommitted changes included. */
    var data: Tables
    /** What is durable: the state a rollback returns to. */
    var committed: Tables
    var autoCommit: bool

    ghost predicate Valid()
      reads this
    {
      autoCommit ==> data == committed
    }

    /** A freshly opened connection is in auto-commit mode. */
    constructor (accepts: Oracle, initial: Tables)
      ensures Valid() && autoCommit
      ensures this.accepts == accepts && data == initial && committed == initial
    {
      this.accepts := accepts;
      data := initial;
      committed := initial;
      autoCommit := true;
    }

    /** PreparedStatement.executeUpdate with the parameters bound to `row`. */
    method ExecuteUpdate(st: Statement, row: Row) returns (ok: bool)
      requires Valid()
      modifies this
      ensures Valid() && autoCommit == old(autoCommit)
      ensures ok == Accepted(accepts, old(data), st, row)
      ensures data == if ok then old(data).Append(st.table, row) else old(data)
      ensures committed == if autoCommit then data else old(committed)
    {
      ok := Accepted(accepts, data, st, row);
      if ok {
        data := data.Append(st.table, row);
        if autoCommit {
          committed := data;
        }
      }
    }

    /** Connection.setAutoCommit: switching it on commits the open transaction. */
    method SetAutoCommit(on: bool)
      requires Valid()
      modifies this
      ensures Valid() && autoCommit == on && data == old(data)
      ensures committed == if on && !old(autoCommit) then data else old(committed)
    {
      if on && !autoCommit {
        committed := data;
      }
      autoCommit := on;
    }

    /** Connection.commit, which JDBC allows only outside auto-commit mode. */
    method Commit()
      requires Valid() && !autoCommit
      modifies this
      ensures Valid() && autoCommit == old(autoCommit)
      ensures data == old(data) && committed == old(data)
    {
      committed := data;
    }

    /** Connection.rollback, which JDBC allows only outside auto-commit mode. */
    method Rollback()
      requires Valid() && !autoCommit
      modifies this
      ensures Valid() && autoCommit == old(autoCommit)
      ensures data == old(committed) && committed == old(committed)
    {
      data := committed;
    }
  }
}
