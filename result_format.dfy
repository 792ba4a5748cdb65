/**
 * rsToString: the rows of a one-column result, written as
 * "{r1, r2, ..., rn}", or "{}" when there are none.
 */
module ResultFormat {
  import opened JavaLang

  /** The rows, in order, separated by ", ". */
  function Joined(rows: seq<string>): string
    decreases |rows|
  {
    if rows == [] then ""
    else if |rows| == 1 then rows[0]
    else Joined(rows[..|rows| - 1]) + ", " + rows[|rows| - 1]
  }

  function Braced(rows: seq<string>): string
  {
    "{" + Joined(rows) + "}"
  }

  /** rsToString over the rows the cursor yields. */
  method RsToString(rows: seq<string>) returns (out: string)
    ensures out == Braced(rows)
  {
    if rows == [] {
      return "{}";
    }
    out := "{" + rows[0];
    var size := |rows|;
    for i := 1 to size
      invariant out == "{" + Joined(rows[..i])
    {
      assert rows[..i + 1][..i] == rows[..i];
      out := out + ", " + rows[i];
    }
    assert rows[..size] == rows;
    return out + "}";
  }

  /** The pieces of a formatted list as split on ',': every row after the first keeps its leading space. */
  function Spaced(rows: seq<string>): seq<string>
  {
    seq(|rows|, k requires 0 <= k < |rows| => if k == 0 then rows[0] else " " + rows[k])
  }

  /** Reads a formatted list back: the text between the braces, split on ',', leading spaces dropped. */
  function Unbraced(s: string): seq<string>
  {
    if |s| < 2 || s[1..|s| - 1] == [] then []
    else
      var pieces := Pieces(s[1..|s| - 1], ',');
      seq(|pieces|, k requires 0 <= k < |pieces| =>
        if k == 0 || pieces[k] == [] then pieces[k] else pieces[k][1..])
  }

  lemma {:induction false} JoinSnoc(fields: seq<string>, x: string, d: char)
    requires fields != []
    ensures Join(fields + [x], d) == Join(fields, d) + [d] + x
    decreases |fields|
  {
    if |fields| > 1 {
      JoinSnoc(fields[1..], x, d);
      assert (fields + [x])[1..] == fields[1..] + [x];
    } else {
      assert (fields + [x])[1..] == [x];
    }
  }

  lemma {:induction false} JoinedAsJoin(rows: seq<string>)
    requires rows != []
    ensures Joined(rows) == Join(Spaced(rows), ',')
    decreases |rows|
  {
    if |rows| > 1 {
      var init := rows[..|rows| - 1];
      JoinedAsJoin(init);
      assert Spaced(rows) == Spaced(init) + [" " + rows[|rows| - 1]];
      JoinSnoc(Spaced(init), " " + rows[|rows| - 1], ',');
    }
  }

  /**
   * The format can be read back when no row contains a comma, except that
   * one empty row prints like no row at all.
   */
  lemma UnbracedBraced(rows: seq<string>)
    requires Free(rows, ',') && rows != [""]
    ensures Unbraced(Braced(rows)) == rows
  {
    var s := Braced(rows);
    assert s[1..|s| - 1] == Joined(rows);
    if rows != [] {
      JoinedAsJoin(rows);
      var sp := Spaced(rows);
      assert Free(sp, ',') by {
        forall k | 0 <= k < |sp| ensures ',' !in sp[k] {
          if k > 0 {
            assert sp[k] == " " + rows[k];
          }
        }
      }
      PiecesJoin(sp, ',');
      if |rows| > 1 {
        assert Joined(rows)[|Joined(rows[..|rows| - 1])|] == ',';
      }
      assert Joined(rows) != [];
      var back := Unbraced(s);
      assert |back| == |rows|;
      forall k | 0 <= k < |rows| ensures back[k] == rows[k] {
        if k > 0 {
          assert sp[k] == " " + rows[k] && sp[k][1..] == rows[k];
        }
      }
    }
  }

  /** Why the read-back needs its conditions: these lists print alike. */
  lemma BracedAmbiguous()
    ensures Braced([]) == Braced([""]) == "{}"
    ensures Braced(["a, b"]) == Braced(["a", "b"])
  {
    assert ["a", "b"][..1] == ["a"];
  }
}
