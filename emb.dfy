/**
 * `show_emb`: the EM body table of the JACS document database.
 */
module Emb {
  import opened Wrappers
  import opened Values
  import opened Keys
  import opened Queries
  import opened Backend
  import opened Sections

  /** A record with `_id` as the loop leaves it: `_id` converted to text, the padded columns filled with ''. */
  function EmbShaped(row: Record): Record
    requires "_id" in row
  {
    Pad(row["_id" := Str(Format(row["_id"]))], EmbPadded)
  }

  /** The cells of one record: `_id` converted to text (it must be present), the listed columns padded, then joined. */
  function EmbRow(row: Record): (r: Result<seq<Cell>, Fault>)
    ensures r.Ok? ==> |r.value| == |EmbHeaders|
  {
    if "_id" !in row then Err(KeyFault("_id"))
    else Render(EmbShaped(row), EmbHeaders)
  }

  /**
   * A record is shown exactly when it has an `_id` and a text `name`, and
   * each padded column it has is text; then `_id` is shown converted, `name`
   * as it is, and every padded column as it is or as ''.
   */
  lemma EmbRowCells(row: Record)
    ensures EmbRow(row).Ok? <==>
      && "_id" in row && "name" in row && row["name"].Str?
      && forall f :: f in EmbPadded && f in row ==> row[f].Str?
    ensures EmbRow(row).Ok? ==>
      var cells := EmbRow(row).value;
      && cells[0] == Plain(Format(row["_id"]))
      && cells[1] == Plain(row["name"].s)
      && forall i :: 2 <= i < |cells| ==> cells[i] == Plain(Shown(row, EmbHeaders[i]))
  {
    EmbRowOk(row);
    if EmbRow(row).Ok? {
      EmbRowShown(row);
    }
  }

  /** What one listed column holds once the record is shaped. */
  lemma EmbShapedAt(row: Record, h: string)
    requires "_id" in row && h in EmbHeaders
    ensures h == "_id" ==> h in EmbShaped(row) && EmbShaped(row)[h] == Str(Format(row["_id"]))
    ensures h != "_id" && h in row ==> h in EmbShaped(row) && EmbShaped(row)[h] == row[h]
    ensures h != "_id" && h !in row ==>
      if h in EmbPadded then h in EmbShaped(row) && EmbShaped(row)[h] == Str("") else h !in EmbShaped(row)
  {
  }

  /** One listed column can be joined exactly when it is `_id`, or text wherever the record has it and `name` is there. */
  lemma EmbColumnOk(row: Record, h: string)
    requires "_id" in row && h in EmbHeaders
    ensures (h in EmbShaped(row) && EmbShaped(row)[h].Str?) <==>
      (h == "_id" || ((h in row ==> row[h].Str?) && (h == "name" ==> h in row)))
  {
    EmbShapedAt(row, h);
  }

  /** When a record can be shown. */
  lemma EmbRowOk(row: Record)
    ensures EmbRow(row).Ok? <==>
      && "_id" in row && "name" in row && row["name"].Str?
      && forall f :: f in EmbPadded && f in row ==> row[f].Str?
  {
    if "_id" in row {
      if EmbRow(row).Ok? {
        EmbRowOkOnly(row);
      } else if "name" in row && row["name"].Str? && forall f :: f in EmbPadded && f in row ==> row[f].Str? {
        EmbRowOkIf(row);
      }
    }
  }

  /** A record that is shown has a text `name` and text in every padded column it has. */
  lemma EmbRowOkOnly(row: Record)
    requires "_id" in row && EmbRow(row).Ok?
    ensures "name" in row && row["name"].Str?
    ensures forall f :: f in EmbPadded && f in row ==> row[f].Str?
  {
    assert "name" in EmbHeaders;
    EmbColumnOk(row, "name");
    forall f | f in EmbPadded && f in row ensures row[f].Str? {
      assert f in EmbHeaders;
      EmbColumnOk(row, f);
    }
  }

  /** A record with a text `name` and text in every padded column it has is shown. */
  lemma EmbRowOkIf(row: Record)
    requires "_id" in row && "name" in row && row["name"].Str?
    requires forall f :: f in EmbPadded && f in row ==> row[f].Str?
    ensures EmbRow(row).Ok?
  {
    var shaped := EmbShaped(row);
    forall h | h in EmbHeaders ensures h in shaped && shaped[h].Str? {
      EmbColumnOk(row, h);
    }
  }

  /** What the cells of a record that can be shown hold. */
  lemma EmbRowShown(row: Record)
    requires EmbRow(row).Ok?
    ensures var cells := EmbRow(row).value;
      && cells[0] == Plain(Shown(row, "_id"))
      && cells[1] == Plain(Shown(row, "name"))
      && forall i :: 2 <= i < |cells| ==> cells[i] == Plain(Shown(row, EmbHeaders[i]))
  {
    var cells := EmbRow(row).value;
    assert EmbRow(row) == Render(EmbShaped(row), EmbHeaders);
    EmbShapedAt(row, EmbHeaders[0]);
    EmbShapedAt(row, EmbHeaders[1]);
    forall i | 2 <= i < |cells| ensures cells[i] == Plain(Shown(row, EmbHeaders[i])) {
      EmbShapedAt(row, EmbHeaders[i]);
      assert EmbHeaders[i] in EmbPadded;
    }
  }

  /** The cells of each record, in order. */
  function EmbRows(rows: seq<Record>): seq<Result<seq<Cell>, Fault>> {
    Each(EmbRow, rows)
  }

  /** `show_emb(key, itype)`: the sections it adds. */
  function EmbLookup(env: Env, key: string, t: SearchType): (o: Outcome<seq<Section>>)
    ensures o.trace == [Find("jacs", "emBody", EmbQuery(key, t))]
  {
    var o := Ask(env, Find("jacs", "emBody", EmbQuery(key, t)));
    if o.result.Err? then Outcome(Err(o.result.error), o.trace)
    else
      var rows := o.result.value;
      // the not-found line names a Body ID whatever the search type
      if rows == [] then Outcome(Ok([NotFound("Body ID", key, "emBody")]), o.trace)
      else match Collect(EmbRows(rows))
        case Err(e) => Outcome(Err(e), o.trace)
        case Ok(cells) => Outcome(Ok([Table("emBody", |rows|, EmbHeaders, cells)]), o.trace)
  }

  /** An empty answer is reported as a Body ID not found in emBody, whatever the search type. */
  lemma EmbNotFound(env: Env, key: string, t: SearchType)
    requires env.store(Find("jacs", "emBody", EmbQuery(key, t))) == Rows([])
    ensures EmbLookup(env, key, t).result == Ok([NotFound("Body ID", key, "emBody")])
  {
  }

  /** No record of the table can raise a store fault: a failure to show one is the code's own. */
  lemma {:induction false} EmbRowsLocal(rows: seq<Record>)
    ensures Local(Collect(EmbRows(rows)))
  {
    var rs := EmbRows(rows);
    forall i | 0 <= i < |rs| ensures Local(rs[i]) {
      EachAt(EmbRow, rows, i);
      if "_id" in rows[i] {
        RenderLocal(EmbShaped(rows[i]), EmbHeaders);
      }
    }
    CollectLocal(rs);
  }

  /**
   * `show_emb` aborts on a store exception: with its one query as the
   * trace, it fails with a store fault exactly when that query raised.
   */
  lemma EmbAborts(env: Env, key: string, t: SearchType)
    ensures Aborts(env, EmbLookup(env, key, t))
  {
    var o := Ask(env, Find("jacs", "emBody", EmbQuery(key, t)));
    if o.result.Ok? {
      EmbRowsLocal(o.result.value);
    }
  }

  /** The body of the row loop: convert `_id`, pad the listed columns in place, then join the columns. */
  method ShapeRow(record: Record) returns (shown: Result<seq<Cell>, Fault>)
    ensures shown == EmbRow(record)
  {
    if "_id" !in record {
      return Err(KeyFault("_id"));
    }
    var row := record["_id" := Str(Format(record["_id"]))];
    row := Pad(row, EmbPadded);
    shown := Render(row, EmbHeaders);
  }

  /** The row loop of `show_emb`: every record shaped and joined, up to the first that cannot be. */
  method ShowRows(rows: seq<Record>) returns (r: Result<seq<seq<Cell>>, Fault>)
    ensures r == Collect(EmbRows(rows))
  {
    var cells: seq<seq<Cell>> := [];
    var i := 0;
    while i < |rows|
      invariant 0 <= i <= |rows|
      invariant Collect(EmbRows(rows[..i])) == Ok(cells)
    {
      var shown := ShapeRow(rows[i]);
      CollectEachStep(EmbRow, rows, i, cells);
      if shown.Err? {
        return Err(shown.error);
      }
      cells := cells + [shown.value];
      i := i + 1;
    }
    EachWhole(EmbRow, rows);
    return Ok(cells);
  }

  /** `show_emb`: one query, then the not-found line or the table of rows. */
  method ShowEmb(env: Env, key: string, t: SearchType) returns (o: Outcome<seq<Section>>)
    ensures o == EmbLookup(env, key, t)
  {
    var req := Find("jacs", "emBody", EmbQuery(key, t));
    var reply := env.store(req);
    if reply.Raised? {
      return Outcome(Err(StoreFault(reply.message)), [req]);
    }
    var rows := reply.items;
    if |rows| == 0 {
      return Outcome(Ok([NotFound("Body ID", key, "emBody")]), [req]);
    }
    var shown := ShowRows(rows);
    if shown.Err? {
      return Outcome(Err(shown.error), [req]);
    }
    return Outcome(Ok([Table("emBody", |rows|, EmbHeaders, shown.value)]), [req]);
  }
}
