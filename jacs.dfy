/**
 * `show_jacs`: the fly-light `sample` and `image` tables of the JACS
 * document database, and the publishing name the sample table reports.
 */
module Jacs {
  import opened Wrappers
  import opened Text
  import opened Values
  import opened Keys
  import opened Queries
  import opened Backend
  import opened Sections

  /** One record as its table shows it: the listed columns padded, `_id` as text, `sampleRef` without "Sample#". */
  function Shaped(row: Record, table: string): (r: Result<Record, Fault>)
    ensures r.Ok? ==> forall h :: h in JacsHeaders(table) ==> h in r.value
  {
    var padded := Pad(row, JacsHeaders(table));
    if table == "sample" then Ok(padded["_id" := Str(Format(padded["_id"]))])
    else match padded["sampleRef"]
      case Str(s) => Ok(padded["sampleRef" := Str(ReplaceAll(s, "Sample#", ""))])
      case _ => Err(AttributeFault("object has no attribute 'replace'"))
  }

  /** The cells of one record, or the fault shaping or joining it raises. */
  function JacsRow(row: Record, table: string): Result<seq<Cell>, Fault> {
    match Shaped(row, table)
    case Err(e) => Err(e)
    case Ok(shaped) => Render(shaped, JacsHeaders(table))
  }

  /**
   * A record is shown exactly when every listed column it has is text (the
   * sample table's `_id` may be anything, since it is converted); then it
   * has one cell per column, `_id` is shown converted, `sampleRef` without
   * its "Sample#" prefix, and every other column as it is or as ''.
   */
  lemma JacsRowCells(row: Record, table: string)
    ensures JacsRow(row, table).Ok? <==>
      forall h :: h in JacsHeaders(table) && h in row && !(table == "sample" && h == "_id") ==> row[h].Str?
    ensures JacsRow(row, table).Ok? ==>
      var cells := JacsRow(row, table).value;
      && |cells| == |JacsHeaders(table)|
      && (table == "sample" ==> cells[0] == Plain(if "_id" in row then Format(row["_id"]) else ""))
      && (table != "sample" ==> cells[0] == Plain(if "sampleRef" in row then ReplaceAll(Format(row["sampleRef"]), "Sample#", "") else ""))
      && forall i :: 1 <= i < |cells| ==> cells[i] == Plain(Shown(row, JacsHeaders(table)[i]))
  {
    JacsRowOk(row, table);
    if JacsRow(row, table).Ok? {
      JacsRowShown(row, table);
    }
  }

  /** The key column: `_id` on the sample table, `sampleRef` otherwise. */
  function KeyColumn(table: string): string {
    if table == "sample" then "_id" else "sampleRef"
  }

  /** Shaping fails only on a `sampleRef` that is not text. */
  lemma ShapedOk(row: Record, table: string)
    ensures KeyColumn(table) == JacsHeaders(table)[0]
    ensures Shaped(row, table).Ok? <==> table == "sample" || KeyColumn(table) !in row || row[KeyColumn(table)].Str?
  {
  }

  /** What one listed column holds once the record is shaped. */
  lemma ShapedAt(row: Record, table: string, h: string)
    requires h in JacsHeaders(table) && Shaped(row, table).Ok?
    ensures h in Shaped(row, table).value
    ensures h != KeyColumn(table) ==> Shaped(row, table).value[h] == if h in row then row[h] else Str("")
    ensures h == KeyColumn(table) ==>
      Shaped(row, table).value[h] == Str(if table == "sample" then Shown(row, h) else ReplaceAll(Shown(row, h), "Sample#", ""))
  {
  }

  /** When a record can be shown. */
  lemma JacsRowOk(row: Record, table: string)
    ensures JacsRow(row, table).Ok? <==>
      forall h :: h in JacsHeaders(table) && h in row && !(table == "sample" && h == "_id") ==> row[h].Str?
  {
    var headers := JacsHeaders(table);
    ShapedOk(row, table);
    if Shaped(row, table).Ok? {
      var shaped := Shaped(row, table).value;
      forall h | h in headers
        ensures h in shaped && (shaped[h].Str? <==> (h in row && !(table == "sample" && h == "_id") ==> row[h].Str?))
      {
        ShapedAt(row, table, h);
      }
    } else {
      assert KeyColumn(table) in headers;
    }
  }

  /** What the cells of a record that can be shown hold. */
  lemma JacsRowShown(row: Record, table: string)
    requires JacsRow(row, table).Ok?
    ensures var cells := JacsRow(row, table).value;
      && |cells| == |JacsHeaders(table)|
      && (table == "sample" ==> cells[0] == Plain(if "_id" in row then Format(row["_id"]) else ""))
      && (table != "sample" ==> cells[0] == Plain(if "sampleRef" in row then ReplaceAll(Format(row["sampleRef"]), "Sample#", "") else ""))
      && forall i :: 1 <= i < |cells| ==> cells[i] == Plain(Shown(row, JacsHeaders(table)[i]))
  {
    JacsRowKey(row, table);
    JacsRowRest(row, table);
  }

  /** The first cell: `_id` converted on the sample table, `sampleRef` without "Sample#" elsewhere. */
  lemma JacsRowKey(row: Record, table: string)
    requires JacsRow(row, table).Ok?
    ensures var cells := JacsRow(row, table).value;
      && |cells| == |JacsHeaders(table)|
      && (table == "sample" ==> cells[0] == Plain(if "_id" in row then Format(row["_id"]) else ""))
      && (table != "sample" ==> cells[0] == Plain(if "sampleRef" in row then ReplaceAll(Format(row["sampleRef"]), "Sample#", "") else ""))
  {
    ShapedOk(row, table);
    assert JacsRow(row, table) == Render(Shaped(row, table).value, JacsHeaders(table));
    ShapedAt(row, table, JacsHeaders(table)[0]);
  }

  /** Every other cell: the column as it is, or '' when absent or None. */
  lemma JacsRowRest(row: Record, table: string)
    requires JacsRow(row, table).Ok?
    ensures var cells := JacsRow(row, table).value;
      forall i :: 1 <= i < |cells| ==> cells[i] == Plain(Shown(row, JacsHeaders(table)[i]))
  {
    forall i | 1 <= i < |JacsRow(row, table).value| {
      JacsCellAt(row, table, i);
    }
  }

  /** The cell of one column after the first. */
  lemma JacsCellAt(row: Record, table: string, i: nat)
    requires JacsRow(row, table).Ok? && 1 <= i < |JacsHeaders(table)|
    ensures |JacsRow(row, table).value| == |JacsHeaders(table)|
    ensures JacsRow(row, table).value[i] == Plain(Shown(row, JacsHeaders(table)[i]))
  {
    var headers := JacsHeaders(table);
    ShapedOk(row, table);
    assert JacsRow(row, table) == Render(Shaped(row, table).value, headers);
    KeyColumnFirst(table, i);
    ShapedAt(row, table, headers[i]);
  }

  /** The converted column heads the table and appears nowhere else. */
  lemma KeyColumnFirst(table: string, i: nat)
    requires 1 <= i < |JacsHeaders(table)|
    ensures JacsHeaders(table)[i] != KeyColumn(table)
  {
  }

  /** The cells of one record, as a function of the record. */
  function RowOf(table: string): Record -> Result<seq<Cell>, Fault> {
    row => JacsRow(row, table)
  }

  /** The cells of each record, in order. */
  function JacsRows(rows: seq<Record>, table: string): seq<Result<seq<Cell>, Fault>> {
    Each(RowOf(table), rows)
  }

  /** The `i`-th entry is the `i`-th record's cells. */
  lemma JacsRowsAt(rows: seq<Record>, table: string, i: nat)
    requires i < |rows|
    ensures JacsRows(rows, table)[i] == JacsRow(rows[i], table)
  {
    EachAt(RowOf(table), rows, i);
  }

  /**
   * The rows of a non-empty result and the publishing name `show_jacs`
   * reports: every record shown, or the fault of the first that cannot be;
   * the name is the publishing-name column of the last row on the sample
   * table and '' on the image table.
   */
  function JacsShow(rows: seq<Record>, table: string): Result<(seq<seq<Cell>>, string), Fault>
    requires rows != []
  {
    match Collect(JacsRows(rows, table))
    case Err(e) => Err(e)
    case Ok(cells) => Ok((cells, LastName(rows, table)))
  }

  /** The publishing name the row loop leaves after `rows`: the last record's on the sample table, otherwise ''. */
  function LastName(rows: seq<Record>, table: string): string {
    if table == "sample" && rows != [] then NameOf(rows[|rows| - 1]) else ""
  }

  /** One more record: on the sample table its publishing name replaces the one so far. */
  lemma LastNameNext(rows: seq<Record>, table: string, i: nat)
    requires i < |rows|
    ensures LastName(rows[..i + 1], table) == if table == "sample" then NameOf(rows[i]) else ""
  {
    assert rows[..i + 1][i] == rows[i];
  }

  /** The publishing name a sample record carries once padded: its own, or ''. */
  function NameOf(row: Record): string {
    if "publishingName" in row then Format(row["publishingName"]) else ""
  }

  /**
   * On the sample table the name reported is the publishing name of the LAST
   * record, or '' when that record has none.
   */
  lemma JacsPnameIsLast(rows: seq<Record>, table: string)
    requires rows != [] && JacsShow(rows, table).Ok?
    ensures table == "sample" && "publishingName" in rows[|rows| - 1] ==>
      Str(JacsShow(rows, table).value.1) == rows[|rows| - 1]["publishingName"]
    ensures table == "sample" && "publishingName" !in rows[|rows| - 1] ==> JacsShow(rows, table).value.1 == ""
    ensures table != "sample" ==> JacsShow(rows, table).value.1 == ""
  {
    var last := rows[|rows| - 1];
    if table == "sample" && "publishingName" in last {
      JacsRowsAt(rows, table, |rows| - 1);
      assert JacsRow(last, table).Ok?;
      JacsRowStr(last, table, "publishingName");
    }
  }

  /** A record that is shown has text in every listed column it has. */
  lemma JacsRowStr(row: Record, table: string, h: string)
    requires JacsRow(row, table).Ok? && h in JacsHeaders(table) && h in row && !(table == "sample" && h == "_id")
    ensures row[h].Str?
  {
    JacsRowCells(row, table);
  }

  /** `show_jacs(key, itype, table)`: the sections it adds and the publishing name it returns. */
  function JacsLookup(env: Env, key: string, t: SearchType, table: string): (o: Outcome<(seq<Section>, string)>)
    requires t == Sample && table == "sample" ==> IsDigits(key)
    ensures o.trace == [Find("jacs", table, JacsQuery(key, t, table))]
  {
    var o := Ask(env, Find("jacs", table, JacsQuery(key, t, table)));
    if o.result.Err? then Outcome(Err(o.result.error), o.trace)
    else
      var rows := o.result.value;
      if rows == [] then Outcome(Ok(([NotFound(Name(t), key, table)], "")), o.trace)
      else match JacsShow(rows, table)
        case Err(e) => Outcome(Err(e), o.trace)
        case Ok((cells, pname)) => Outcome(Ok(([Table(table, |rows|, JacsHeaders(table), cells)], pname)), o.trace)
  }

  /** An empty answer is reported as not found in the table, with no publishing name. */
  lemma JacsNotFound(env: Env, key: string, t: SearchType, table: string)
    requires t == Sample && table == "sample" ==> IsDigits(key)
    requires env.store(Find("jacs", table, JacsQuery(key, t, table))) == Rows([])
    ensures JacsLookup(env, key, t, table).result == Ok(([NotFound(Name(t), key, table)], ""))
  {
  }

  /** A non-empty answer that can be shown yields the table and the name the rows report, after the one query. */
  lemma JacsLookupShown(env: Env, key: string, t: SearchType, table: string, rows: seq<Record>)
    requires t == Sample && table == "sample" ==> IsDigits(key)
    requires env.store(Find("jacs", table, JacsQuery(key, t, table))) == Rows(rows)
    requires rows != [] && JacsShow(rows, table).Ok?
    ensures JacsLookup(env, key, t, table).result ==
      Ok(([Table(table, |rows|, JacsHeaders(table), JacsShow(rows, table).value.0)], JacsShow(rows, table).value.1))
  {
  }

  /** No record of the table can raise a store fault: a failure to show the rows is the code's own. */
  lemma {:induction false} JacsShowLocal(rows: seq<Record>, table: string)
    requires rows != []
    ensures Local(JacsShow(rows, table))
  {
    var rs := JacsRows(rows, table);
    forall i | 0 <= i < |rs| ensures Local(rs[i]) {
      JacsRowsAt(rows, table, i);
      var padded := Pad(rows[i], JacsHeaders(table));
      if table == "sample" {
        RenderLocal(padded["_id" := Str(Format(padded["_id"]))], JacsHeaders(table));
      } else if padded["sampleRef"].Str? {
        RenderLocal(padded["sampleRef" := Str(ReplaceAll(padded["sampleRef"].s, "Sample#", ""))], JacsHeaders(table));
      }
    }
    CollectLocal(rs);
  }

  /**
   * `show_jacs` aborts on a store exception: with its one query as the
   * trace, it fails with a store fault exactly when that query raised.
   */
  lemma JacsAborts(env: Env, key: string, t: SearchType, table: string)
    requires t == Sample && table == "sample" ==> IsDigits(key)
    ensures Aborts(env, JacsLookup(env, key, t, table))
  {
    var o := Ask(env, Find("jacs", table, JacsQuery(key, t, table)));
    if o.result.Ok? && o.result.value != [] {
      JacsShowLocal(o.result.value, table);
    }
  }

  /**
   * The body of the row loop: pad the record in place, convert `_id` (taking
   * the publishing name along) or strip `sampleRef`, then join the columns.
   */
  method ShapeRow(record: Record, table: string) returns (shown: Result<seq<Cell>, Fault>, name: Option<string>)
    ensures shown == JacsRow(record, table)
    ensures table == "sample" ==> name == Some(NameOf(record))
    ensures table != "sample" ==> name.None?
  {
    var headers := JacsHeaders(table);
    var row := Pad(record, headers);
    name := None;
    if table == "sample" {
      assert headers[3] == "publishingName";
      row := row["_id" := Str(Format(row["_id"]))];
      if "publishingName" in row {
        name := Some(Format(row["publishingName"]));
      }
    } else {
      if !row["sampleRef"].Str? {
        return Err(AttributeFault("object has no attribute 'replace'")), None;
      }
      row := row["sampleRef" := Str(ReplaceAll(Format(row["sampleRef"]), "Sample#", ""))];
    }
    shown := Render(row, headers);
  }

  /** The row loop of `show_jacs`: every record shaped and joined, the publishing name taken along. */
  method ShowRows(rows: seq<Record>, table: string) returns (r: Result<(seq<seq<Cell>>, string), Fault>)
    requires rows != []
    ensures r == JacsShow(rows, table)
  {
    var cells: seq<seq<Cell>> := [];
    var pname := "";
    var i := 0;
    while i < |rows|
      invariant 0 <= i <= |rows|
      invariant Collect(JacsRows(rows[..i], table)) == Ok(cells)
      invariant pname == LastName(rows[..i], table)
    {
      var shown, name := ShapeRow(rows[i], table);
      CollectEachStep(RowOf(table), rows, i, cells);
      if shown.Err? {
        return Err(shown.error);
      }
      LastNameNext(rows, table, i);
      if name.Some? {
        pname := name.value;
      }
      cells := cells + [shown.value];
      i := i + 1;
    }
    assert rows[..|rows|] == rows;
    EachWhole(RowOf(table), rows);
    return Ok((cells, pname));
  }

  /** `show_jacs`: one query, then the not-found line or the table of rows. */
  method ShowJacs(env: Env, key: string, t: SearchType, table: string) returns (o: Outcome<(seq<Section>, string)>)
    requires t == Sample && table == "sample" ==> IsDigits(key)
    ensures o == JacsLookup(env, key, t, table)
  {
    var req := Find("jacs", table, JacsQuery(key, t, table));
    var reply := env.store(req);
    if reply.Raised? {
      return Outcome(Err(StoreFault(reply.message)), [req]);
    }
    var rows := reply.items;
    if |rows| == 0 {
      return Outcome(Ok(([NotFound(Name(t), key, table)], "")), [req]);
    }
    var shown := ShowRows(rows, table);
    if shown.Err? {
      return Outcome(Err(shown.error), [req]);
    }
    return Outcome(Ok(([Table(table, |rows|, JacsHeaders(table), shown.value.0)], shown.value.1)), [req]);
  }
}
