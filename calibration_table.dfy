/**
 * Per-subject binocular offset from the calibration table `ipd_correction.csv`.
 * Two versions exist: the copy in MR.py:388-402 averages the subject's rows of
 * the most recent session only; haploscope_utils/csv_to_binocular_offset.py:43-48
 * averages all of the subject's rows. A mean over no rows is pandas' NaN,
 * here `NoRecord`; a column that the table lacks raises KeyError, here
 * `MissingColumn`.
 */
module CalibrationTable {

  /** One row: the subject, the session number and the numeric correction columns by name. */
  datatype Row = Row(subjectName: string, session: int, cells: map<string, real>)

  /** A table: its correction columns and its rows, in file order. */
  datatype Table = Table(columns: set<string>, rows: seq<Row>)

  /** Every row has a cell in exactly the table's columns, as in a data frame. */
  predicate WellFormed(t: Table)
  {
    forall x :: x in t.rows ==> x.cells.Keys == t.columns
  }

  datatype Axis = Horizontal | Vertical

  function AxisName(axis: Axis): string
  {
    match axis
    case Horizontal => "horizontal"
    case Vertical => "vertical"
  }

  /** `"ipd_correction_%s_horizontal" % units` and its vertical twin. */
  function ColumnName(units: string, axis: Axis): string
  {
    "ipd_correction_" + units + "_" + AxisName(axis)
  }

  /** The two axes never select the same column, and distinct units select distinct columns. */
  lemma ColumnNamesDistinct(u1: string, u2: string, a1: Axis, a2: Axis)
    ensures ColumnName(u1, a1) == ColumnName(u2, a2) ==> u1 == u2 && a1 == a2
  {
    var x, y := ColumnName(u1, a1), ColumnName(u2, a2);
    var p1, p2 := "ipd_correction_" + u1 + "_", "ipd_correction_" + u2 + "_";
    var n1, n2 := AxisName(a1), AxisName(a2);
    assert x == p1 + n1 && y == p2 + n2;
    assert x[|x| - 3] == n1[|n1| - 3];
    assert y[|y| - 3] == n2[|n2| - 3];
    if x == y {
      assert |u1| == |u2|;
      assert u1 == x[15..15 + |u1|];
      assert u2 == y[15..15 + |u2|];
    }
  }

  /** `query("subject_name==@subject_name")`: the subject's rows, in order. */
  function SubjectRows(rows: seq<Row>, name: string): (r: seq<Row>)
    ensures forall i :: 0 <= i < |r| ==> r[i].subjectName == name
    ensures forall x :: x in r <==> x in rows && x.subjectName == name
  {
    if rows == [] then []
    else (if rows[0].subjectName == name then [rows[0]] else []) + SubjectRows(rows[1..], name)
  }

  /** `query("session==@max_session")`: the rows of one session, in order. */
  function SessionRows(rows: seq<Row>, session: int): (r: seq<Row>)
    ensures forall i :: 0 <= i < |r| ==> r[i].session == session
    ensures forall x :: x in r <==> x in rows && x.session == session
  {
    if rows == [] then []
    else (if rows[0].session == session then [rows[0]] else []) + SessionRows(rows[1..], session)
  }

  /** `subject_data['session'].max()` on a non-empty frame. */
  function MaxSession(rows: seq<Row>): (m: int)
    requires |rows| > 0
    ensures exists i :: 0 <= i < |rows| && rows[i].session == m
    ensures forall i :: 0 <= i < |rows| ==> rows[i].session <= m
  {
    if |rows| == 1 then rows[0].session
    else
      var rest := MaxSession(rows[1..]);
      if rows[0].session >= rest then rows[0].session else rest
  }

  /** Every row has a cell in the column. */
  predicate HasColumn(rows: seq<Row>, column: string)
  {
    forall x :: x in rows ==> column in x.cells
  }

  /** Sum of a column over rows. */
  function Sum(rows: seq<Row>, column: string): real
    requires HasColumn(rows, column)
  {
    if rows == [] then 0.0 else rows[0].cells[column] + Sum(rows[1..], column)
  }

  /** `.mean()` of a column over a non-empty set of rows. */
  function Average(rows: seq<Row>, column: string): real
    requires |rows| > 0 && HasColumn(rows, column)
  {
    Sum(rows, column) / |rows| as real
  }

  /** The two-element list `[horizontal mean, vertical mean]`. */
  datatype Offset = Offset(horizontal: real, vertical: real)

  /** What the lookup yields: a KeyError, a NaN pair, or an offset. */
  datatype Lookup = MissingColumn(column: string) | NoRecord | Found(offset: Offset)

  /** Rows with the subject and the session together: the reference for the latest-session filter. */
  function MatchingRows(rows: seq<Row>, name: string, session: int): seq<Row>
  {
    if rows == [] then []
    else (if rows[0].subjectName == name && rows[0].session == session then [rows[0]] else [])
         + MatchingRows(rows[1..], name, session)
  }

  /** Filtering by subject and then by session keeps exactly the rows that match both. */
  lemma {:induction false} FilterCompose(rows: seq<Row>, name: string, session: int)
    ensures SessionRows(SubjectRows(rows, name), session) == MatchingRows(rows, name, session)
    decreases |rows|
  {
    if rows != [] {
      FilterCompose(rows[1..], name, session);
      var head := if rows[0].subjectName == name then [rows[0]] else [];
      SessionAppend(head, SubjectRows(rows[1..], name), session);
      if rows[0].subjectName == name {
        assert SessionRows(head, session) == if rows[0].session == session then [rows[0]] else [];
      }
    }
  }

  lemma {:induction false} SessionAppend(a: seq<Row>, b: seq<Row>, session: int)
    ensures SessionRows(a + b, session) == SessionRows(a, session) + SessionRows(b, session)
    decreases |a|
  {
    if a != [] {
      assert (a + b)[1..] == a[1..] + b;
      SessionAppend(a[1..], b, session);
    } else {
      assert a + b == b;
    }
  }

  lemma {:induction false} SubjectAppend(a: seq<Row>, b: seq<Row>, name: string)
    ensures SubjectRows(a + b, name) == SubjectRows(a, name) + SubjectRows(b, name)
    decreases |a|
  {
    if a != [] {
      assert (a + b)[1..] == a[1..] + b;
      SubjectAppend(a[1..], b, name);
    } else {
      assert a + b == b;
    }
  }

  lemma RowsHaveColumns(t: Table, rows: seq<Row>, column: string)
    requires WellFormed(t) && column in t.columns
    requires forall x :: x in rows ==> x in t.rows
    ensures HasColumn(rows, column)
  {
  }

  /** The copy in MR.py:388-402: mean over the subject's most recent session. */
  function LatestSessionOffset(t: Table, subject: string, units: string): (r: Lookup)
    requires WellFormed(t)
    ensures r.MissingColumn? <==> ColumnName(units, Horizontal) !in t.columns || ColumnName(units, Vertical) !in t.columns
    ensures r.MissingColumn? ==> r.column !in t.columns
    ensures r.Found? ==> |SubjectRows(t.rows, subject)| > 0
  {
    var h, v := ColumnName(units, Horizontal), ColumnName(units, Vertical);
    if h !in t.columns then MissingColumn(h)
    else if v !in t.columns then MissingColumn(v)
    else
      var subjectData := SubjectRows(t.rows, subject);
      if |subjectData| == 0 then NoRecord
      else
        var maxSession := MaxSession(subjectData);
        var recent := SessionRows(subjectData, maxSession);
        LatestRowsExist(subjectData);
        Found(Offset(Average(recent, h), Average(recent, v)))
  }

  /** The most recent session of a non-empty set of rows has at least one row. */
  lemma LatestRowsExist(rows: seq<Row>)
    requires |rows| > 0
    ensures |SessionRows(rows, MaxSession(rows))| > 0
  {
    var i :| 0 <= i < |rows| && rows[i].session == MaxSession(rows);
    assert rows[i] in SessionRows(rows, MaxSession(rows));
  }

  /** haploscope_utils/csv_to_binocular_offset.py:43-48: mean over all of the subject's rows. */
  function AllSessionsOffset(t: Table, subject: string, units: string): (r: Lookup)
    requires WellFormed(t)
    ensures r.MissingColumn? <==> ColumnName(units, Horizontal) !in t.columns || ColumnName(units, Vertical) !in t.columns
    ensures r.MissingColumn? ==> r.column !in t.columns
    ensures r.Found? ==> |SubjectRows(t.rows, subject)| > 0
  {
    var h, v := ColumnName(units, Horizontal), ColumnName(units, Vertical);
    if h !in t.columns then MissingColumn(h)
    else if v !in t.columns then MissingColumn(v)
    else
      var rows := SubjectRows(t.rows, subject);
      if |rows| == 0 then NoRecord
      else Found(Offset(Average(rows, h), Average(rows, v)))
  }

  /** The table has no row of the subject exactly when the subject filter is empty. */
  lemma NoSubjectRows(rows: seq<Row>, subject: string)
    ensures |SubjectRows(rows, subject)| == 0 <==> forall i :: 0 <= i < |rows| ==> rows[i].subjectName != subject
  {
    if |SubjectRows(rows, subject)| == 0 {
      forall i | 0 <= i < |rows| ensures rows[i].subjectName != subject {
        assert rows[i] in rows;
      }
    }
  }

  /**
   * MR.py's offset is a KeyError when a column is missing, NaN exactly when the
   * subject has no row, and otherwise the column means over exactly the rows
   * whose subject matches and whose session is that subject's maximum.
   */
  lemma LatestSessionOffsetMeaning(t: Table, subject: string, units: string)
    requires WellFormed(t)
    ensures var r := LatestSessionOffset(t, subject, units);
            ColumnName(units, Horizontal) !in t.columns ==> r == MissingColumn(ColumnName(units, Horizontal))
    ensures var r := LatestSessionOffset(t, subject, units);
            ColumnName(units, Horizontal) in t.columns && ColumnName(units, Vertical) !in t.columns ==>
              r == MissingColumn(ColumnName(units, Vertical))
    ensures var r := LatestSessionOffset(t, subject, units);
            (ColumnName(units, Horizontal) in t.columns && ColumnName(units, Vertical) in t.columns &&
             exists i :: 0 <= i < |t.rows| && t.rows[i].subjectName == subject) ==> r.Found?
    ensures var r := LatestSessionOffset(t, subject, units);
            r.NoRecord? <==>
              ColumnName(units, Horizontal) in t.columns && ColumnName(units, Vertical) in t.columns &&
              forall i :: 0 <= i < |t.rows| ==> t.rows[i].subjectName != subject
    ensures var r := LatestSessionOffset(t, subject, units);
            r.Found? ==>
              var recent := MatchingRows(t.rows, subject, MaxSession(SubjectRows(t.rows, subject)));
              |recent| > 0 &&
              HasColumn(recent, ColumnName(units, Horizontal)) && HasColumn(recent, ColumnName(units, Vertical)) &&
              r.offset == Offset(Average(recent, ColumnName(units, Horizontal)), Average(recent, ColumnName(units, Vertical)))
  {
    NoSubjectRows(t.rows, subject);
    var s := SubjectRows(t.rows, subject);
    if |s| > 0 {
      FilterCompose(t.rows, subject, MaxSession(s));
    }
  }

  /**
   * The helper's offset is a KeyError when a column is missing, NaN exactly
   * when the subject has no row, and otherwise the column means over all of
   * the subject's rows, whatever their session.
   */
  lemma AllSessionsOffsetMeaning(t: Table, subject: string, units: string)
    requires WellFormed(t)
    ensures var r := AllSessionsOffset(t, subject, units);
            ColumnName(units, Horizontal) !in t.columns ==> r == MissingColumn(ColumnName(units, Horizontal))
    ensures var r := AllSessionsOffset(t, subject, units);
            ColumnName(units, Horizontal) in t.columns && ColumnName(units, Vertical) !in t.columns ==>
              r == MissingColumn(ColumnName(units, Vertical))
    ensures var r := AllSessionsOffset(t, subject, units);
            (ColumnName(units, Horizontal) in t.columns && ColumnName(units, Vertical) in t.columns &&
             exists i :: 0 <= i < |t.rows| && t.rows[i].subjectName == subject) ==> r.Found?
    ensures var r := AllSessionsOffset(t, subject, units);
            r.NoRecord? <==>
              ColumnName(units, Horizontal) in t.columns && ColumnName(units, Vertical) in t.columns &&
              forall i :: 0 <= i < |t.rows| ==> t.rows[i].subjectName != subject
    ensures var r := AllSessionsOffset(t, subject, units);
            r.Found? ==>
              var rows := SubjectRows(t.rows, subject);
              |rows| > 0 &&
              HasColumn(rows, ColumnName(units, Horizontal)) && HasColumn(rows, ColumnName(units, Vertical)) &&
              r.offset == Offset(Average(rows, ColumnName(units, Horizontal)), Average(rows, ColumnName(units, Vertical)))
  {
    NoSubjectRows(t.rows, subject);
  }

  /** Removing one occurrence of a row lowers the sum by that row's value. */
  lemma {:induction false} SumRemove(rows: seq<Row>, column: string, k: nat)
    requires k < |rows| && HasColumn(rows, column)
    ensures HasColumn(rows[..k] + rows[k + 1..], column)
    ensures Sum(rows, column) == rows[k].cells[column] + Sum(rows[..k] + rows[k + 1..], column)
    decreases k
  {
    var rest := rows[..k] + rows[k + 1..];
    assert forall x :: x in rest ==> x in rows;
    if k > 0 {
      SumRemove(rows[1..], column, k - 1);
      assert rows[1..][..k - 1] + rows[1..][k..] == rest[1..];
      assert rest[0] == rows[0];
    } else {
      assert rest == rows[1..];
    }
  }

  /** Taking the same element out of two equal multisets leaves equal multisets. */
  lemma MultisetRemove(a: seq<Row>, b: seq<Row>, k: nat)
    requires multiset(a) == multiset(b) && a != [] && k < |b| && b[k] == a[0]
    ensures multiset(a[1..]) == multiset(b[..k] + b[k + 1..])
  {
    var rest := b[..k] + b[k + 1..];
    assert b == b[..k] + [b[k]] + b[k + 1..];
    calc {
      multiset(b);
      multiset(b[..k]) + multiset([b[k]]) + multiset(b[k + 1..]);
      multiset(rest) + multiset{a[0]};
    }
    assert a == [a[0]] + a[1..];
    assert multiset(a) == multiset{a[0]} + multiset(a[1..]);
    forall x ensures multiset(a[1..])[x] == multiset(rest)[x] {
      assert multiset(a)[x] == multiset(b)[x];
    }
  }

  /** The sum, and so the mean, does not depend on the order of the rows. */
  lemma {:induction false} SumPermutation(a: seq<Row>, b: seq<Row>, column: string)
    requires multiset(a) == multiset(b) && HasColumn(a, column)
    ensures HasColumn(b, column)
    ensures Sum(a, column) == Sum(b, column)
    decreases |a|
  {
    forall x | x in b ensures column in x.cells {
      assert x in multiset(a);
    }
    if a != [] {
      assert a[0] in multiset(b);
      var k :| 0 <= k < |b| && b[k] == a[0];
      SumRemove(b, column, k);
      MultisetRemove(a, b, k);
      SumPermutation(a[1..], b[..k] + b[k + 1..], column);
    }
  }

  /** If every row has value `c` in the column, the mean is `c`. */
  lemma {:induction false} AverageOfConstant(rows: seq<Row>, column: string, c: real)
    requires |rows| > 0 && HasColumn(rows, column)
    requires forall i :: 0 <= i < |rows| ==> rows[i].cells[column] == c
    ensures Average(rows, column) == c
  {
    SumOfConstant(rows, column, c);
    var n, avg := |rows| as real, Average(rows, column);
    assert avg * n == n * c;
    assert (avg - c) * n == 0.0;
  }

  lemma {:induction false} SumOfConstant(rows: seq<Row>, column: string, c: real)
    requires HasColumn(rows, column)
    requires forall i :: 0 <= i < |rows| ==> rows[i].cells[column] == c
    ensures Sum(rows, column) == |rows| as real * c
    decreases |rows|
  {
    if rows != [] {
      SumOfConstant(rows[1..], column, c);
      assert (|rows| - 1) as real * c + c == |rows| as real * c;
    }
  }

  /** The filters keep row multiplicities, so permuted tables give permuted filtered rows. */
  lemma {:induction false} SubjectRowsMultiset(rows: seq<Row>, name: string, x: Row)
    ensures multiset(SubjectRows(rows, name))[x] == if x.subjectName == name then multiset(rows)[x] else 0
    decreases |rows|
  {
    if rows != [] {
      SubjectRowsMultiset(rows[1..], name, x);
      var head := if rows[0].subjectName == name then [rows[0]] else [];
      assert rows == [rows[0]] + rows[1..];
      assert multiset(rows)[x] == multiset([rows[0]])[x] + multiset(rows[1..])[x];
      assert multiset(SubjectRows(rows, name))[x] == multiset(head)[x] + multiset(SubjectRows(rows[1..], name))[x];
    }
  }

  lemma {:induction false} SessionRowsMultiset(rows: seq<Row>, session: int, x: Row)
    ensures multiset(SessionRows(rows, session))[x] == if x.session == session then multiset(rows)[x] else 0
    decreases |rows|
  {
    if rows != [] {
      SessionRowsMultiset(rows[1..], session, x);
      var head := if rows[0].session == session then [rows[0]] else [];
      assert rows == [rows[0]] + rows[1..];
      assert multiset(rows)[x] == multiset([rows[0]])[x] + multiset(rows[1..])[x];
      assert multiset(SessionRows(rows, session))[x] == multiset(head)[x] + multiset(SessionRows(rows[1..], session))[x];
    }
  }

  lemma MaxSessionOfPermutation(a: seq<Row>, b: seq<Row>)
    requires |a| > 0 && multiset(a) == multiset(b)
    ensures |b| > 0 && MaxSession(a) == MaxSession(b)
  {
    assert a[0] in multiset(b);
    var ma, mb := MaxSession(a), MaxSession(b);
    var i :| 0 <= i < |a| && a[i].session == ma;
    var j :| 0 <= j < |b| && b[j].session == mb;
    assert a[i] in multiset(b);
    assert b[j] in multiset(a);
    var i' :| 0 <= i' < |b| && b[i'] == a[i];
    var j' :| 0 <= j' < |a| && a[j'] == b[j];
  }

  /** Reordering the table's rows permutes the subject's rows. */
  lemma SubjectRowsPermuted(a: seq<Row>, b: seq<Row>, subject: string)
    requires multiset(a) == multiset(b)
    ensures multiset(SubjectRows(a, subject)) == multiset(SubjectRows(b, subject))
  {
    forall x ensures multiset(SubjectRows(a, subject))[x] == multiset(SubjectRows(b, subject))[x] {
      SubjectRowsMultiset(a, subject, x);
      SubjectRowsMultiset(b, subject, x);
    }
  }

  /** Permuted rows keep the same latest-session rows, up to order. */
  lemma LatestRowsPermuted(s: seq<Row>, s': seq<Row>)
    requires |s| > 0 && multiset(s) == multiset(s')
    ensures |s'| > 0 && MaxSession(s) == MaxSession(s')
    ensures multiset(SessionRows(s, MaxSession(s))) == multiset(SessionRows(s', MaxSession(s')))
  {
    MaxSessionOfPermutation(s, s');
    var m := MaxSession(s);
    forall x ensures multiset(SessionRows(s, m))[x] == multiset(SessionRows(s', m))[x] {
      SessionRowsMultiset(s, m, x);
      SessionRowsMultiset(s', m, x);
    }
  }

  /** Reordering the table's rows does not change the latest-session offset. */
  lemma LatestOffsetIndependentOfRowOrder(t: Table, t': Table, subject: string, units: string)
    requires WellFormed(t) && WellFormed(t')
    requires t'.columns == t.columns && multiset(t'.rows) == multiset(t.rows)
    ensures LatestSessionOffset(t', subject, units) == LatestSessionOffset(t, subject, units)
  {
    var h, v := ColumnName(units, Horizontal), ColumnName(units, Vertical);
    var s, s' := SubjectRows(t.rows, subject), SubjectRows(t'.rows, subject);
    SubjectRowsPermuted(t.rows, t'.rows, subject);
    if h in t.columns && v in t.columns && |s| > 0 {
      LatestRowsPermuted(s, s');
      var r := SessionRows(s, MaxSession(s));
      LatestRowsExist(s);
      RowsHaveColumns(t, r, h);
      RowsHaveColumns(t, r, v);
      AveragePermutation(r, SessionRows(s', MaxSession(s')), h);
      AveragePermutation(r, SessionRows(s', MaxSession(s')), v);
    }
  }

  /** The mean of a column does not depend on the order of the rows. */
  lemma AveragePermutation(a: seq<Row>, b: seq<Row>, column: string)
    requires |a| > 0 && multiset(a) == multiset(b) && HasColumn(a, column)
    ensures |b| > 0 && HasColumn(b, column) && Average(a, column) == Average(b, column)
  {
    assert |multiset(a)| == |multiset(b)|;
    SumPermutation(a, b, column);
  }

  /** Reordering the table's rows does not change the all-sessions offset. */
  lemma AllSessionsOffsetIndependentOfRowOrder(t: Table, t': Table, subject: string, units: string)
    requires WellFormed(t) && WellFormed(t')
    requires t'.columns == t.columns && multiset(t'.rows) == multiset(t.rows)
    ensures AllSessionsOffset(t', subject, units) == AllSessionsOffset(t, subject, units)
  {
    var h, v := ColumnName(units, Horizontal), ColumnName(units, Vertical);
    var s, s' := SubjectRows(t.rows, subject), SubjectRows(t'.rows, subject);
    SubjectRowsPermuted(t.rows, t'.rows, subject);
    if h in t.columns && v in t.columns && |s| > 0 {
      RowsHaveColumns(t, s, h);
      RowsHaveColumns(t, s, v);
      SumPermutation(s, s', h);
      SumPermutation(s, s', v);
    }
  }

  /** A row of another subject added to the table changes neither offset. */
  lemma OtherSubjectsIgnored(t: Table, extra: Row, subject: string, units: string)
    requires WellFormed(t) && extra.cells.Keys == t.columns && extra.subjectName != subject
    ensures WellFormed(Table(t.columns, t.rows + [extra]))
    ensures LatestSessionOffset(Table(t.columns, t.rows + [extra]), subject, units) == LatestSessionOffset(t, subject, units)
    ensures AllSessionsOffset(Table(t.columns, t.rows + [extra]), subject, units) == AllSessionsOffset(t, subject, units)
  {
    var t' := Table(t.columns, t.rows + [extra]);
    assert WellFormed(t') by {
      forall x | x in t'.rows ensures x.cells.Keys == t.columns {
        assert x in t.rows || x == extra;
      }
    }
    SubjectAppend(t.rows, [extra], subject);
    assert SubjectRows([extra], subject) == [];
    assert SubjectRows(t'.rows, subject) == SubjectRows(t.rows, subject);
  }

  /** When all of the subject's rows share one session, both versions agree. */
  lemma SingleSessionVersionsAgree(t: Table, subject: string, units: string, session: int)
    requires WellFormed(t)
    requires forall x :: x in t.rows && x.subjectName == subject ==> x.session == session
    ensures LatestSessionOffset(t, subject, units) == AllSessionsOffset(t, subject, units)
  {
    var s := SubjectRows(t.rows, subject);
    assert forall i :: 0 <= i < |s| ==> s[i].session == session by {
      forall i | 0 <= i < |s| ensures s[i].session == session {
        assert s[i] in s;
      }
    }
    SessionRowsAll(s, session);
    if |s| > 0 {
      var j :| 0 <= j < |s| && s[j].session == MaxSession(s);
    }
  }

  lemma {:induction false} SessionRowsAll(rows: seq<Row>, session: int)
    requires forall i :: 0 <= i < |rows| ==> rows[i].session == session
    ensures SessionRows(rows, session) == rows
    decreases |rows|
  {
    if rows != [] {
      SessionRowsAll(rows[1..], session);
    }
  }

  /**
   * The versions differ once a subject has two sessions: with 0.0 in session 1
   * and 2.0 in session 2, MR.py's copy gives 2.0 and the helper gives 1.0.
   */
  lemma VersionsDifferAcrossSessions()
    ensures var cols := {ColumnName("pix", Horizontal), ColumnName("pix", Vertical)};
            var r1 := Row("s01", 1, map[ColumnName("pix", Horizontal) := 0.0, ColumnName("pix", Vertical) := 0.0]);
            var r2 := Row("s01", 2, map[ColumnName("pix", Horizontal) := 2.0, ColumnName("pix", Vertical) := 2.0]);
            var t := Table(cols, [r1, r2]);
            WellFormed(t) &&
            LatestSessionOffset(t, "s01", "pix") == Found(Offset(2.0, 2.0)) &&
            AllSessionsOffset(t, "s01", "pix") == Found(Offset(1.0, 1.0))
  {
    var h, v := ColumnName("pix", Horizontal), ColumnName("pix", Vertical);
    var r1 := Row("s01", 1, map[h := 0.0, v := 0.0]);
    var r2 := Row("s01", 2, map[h := 2.0, v := 2.0]);
    var t := Table({h, v}, [r1, r2]);
    assert [r1, r2][1..] == [r2];
    assert SubjectRows([r2], "s01") == [r2];
    assert SubjectRows(t.rows, "s01") == [r1, r2];
    assert MaxSession([r1, r2]) == 2;
    assert SessionRows([r2], 2) == [r2];
    assert SessionRows([r1, r2], 2) == [r2];
    assert Sum([r2], h) == 2.0;
    assert Sum([r1, r2], h) == 2.0;
    assert Sum([r2], v) == 2.0;
    assert Sum([r1, r2], v) == 2.0;
  }
}
