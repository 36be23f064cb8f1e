/**
 * `show_nmd_purl`: the neuronMetadata and publishedURL tables of the
 * NeuronBridge document database, the release and publishing names gathered
 * from their rows, and the object-store check of the last row's uploads.
 */
module NmdPurl {
  import opened Wrappers
  import opened Text
  import opened Values
  import opened Keys
  import opened Queries
  import opened Backend
  import opened S3Check
  import opened Sections

  /**
   * One record after the loop has changed it in place: the three listed
   * columns padded, and `datasetLabels` joined with ", " (or '' when absent).
   */
  function Shaped(row: Record): Result<Record, Fault> {
    var padded := Pad(row, NmdPadded);
    if "datasetLabels" in padded then
      match Texts(padded["datasetLabels"])
      case Err(e) => Err(e)
      case Ok(parts) => Ok(padded["datasetLabels" := Str(Join(parts, ", "))])
    else Ok(padded["datasetLabels" := Str("")])
  }

  /**
   * Shaping fails exactly when `datasetLabels` cannot be joined as text (a
   * number, None, or a list with an item that is not text); text is joined
   * character by character and a dictionary by its keys;
   * otherwise it keeps every column, pads the listed ones, and leaves
   * `datasetLabels` joined with ", ", or '' when the record has none.
   */
  lemma ShapedFacts(row: Record)
    ensures Shaped(row).Ok? <==> "datasetLabels" !in row || Texts(row["datasetLabels"]).Ok?
    ensures Shaped(row).Ok? ==>
      var r := Shaped(row).value;
      && row.Keys <= r.Keys
      && (forall k :: k in row && k !in NmdPadded && k != "datasetLabels" ==> r[k] == row[k])
      && (forall f :: f in NmdPadded && f !in row ==> r[f] == Str(""))
      && "datasetLabels" in r
      && r["datasetLabels"] == Str(if "datasetLabels" in row then Join(Texts(row["datasetLabels"]).value, ", ") else "")
  {
    assert "datasetLabels" !in NmdPadded;
  }

  /** Shaping leaves every column it does not pad or join as the record has it, present or not. */
  lemma ShapedKeeps(row: Record, k: string)
    requires Shaped(row).Ok? && k !in NmdPadded && k != "datasetLabels"
    ensures k in Shaped(row).value <==> k in row
    ensures k in row ==> Shaped(row).value[k] == row[k]
  {
  }

  /** The cells of one record under `headers`; the published name is read (and must exist) before the row is joined. */
  function NmdRow(row: Record, headers: seq<string>): (r: Result<seq<Cell>, Fault>)
    ensures r.Ok? ==> |r.value| == |headers| && "publishedName" in row
  {
    match Shaped(row)
    case Err(e) => Err(e)
    case Ok(shaped) =>
      ShapedKeeps(row, "publishedName");
      if "publishedName" !in shaped then Err(KeyFault("publishedName"))
      else Render(shaped, headers)
  }

  /** Once shaping succeeded, the row needs its published name and is then rendered. */
  lemma NmdRowShaped(row: Record, headers: seq<string>)
    requires Shaped(row).Ok?
    ensures NmdRow(row, headers) ==
      if "publishedName" !in row then Err(KeyFault("publishedName")) else Render(Shaped(row).value, headers)
  {
    ShapedKeeps(row, "publishedName");
  }

  /** The release a record carries: its `alpsRelease`, or None when it has none. */
  function Alps(row: Record): Value {
    if "alpsRelease" in row then row["alpsRelease"] else Null
  }

  /** The release of the first record whose `alpsRelease` is not None; None when no record has one. */
  function FirstRelease(rows: seq<Record>): Value {
    if rows == [] then Null
    else if Alps(rows[0]) != Null then Alps(rows[0])
    else FirstRelease(rows[1..])
  }

  /** Seen one more record: the release already found is kept, otherwise the record's own is taken. */
  lemma {:induction false} FirstReleaseSnoc(rows: seq<Record>, row: Record)
    ensures FirstRelease(rows + [row]) == if FirstRelease(rows) != Null then FirstRelease(rows) else Alps(row)
    decreases |rows|
  {
    if rows == [] {
      assert [row][1..] == [];
    } else {
      assert (rows + [row])[1..] == rows[1..] + [row];
      FirstReleaseSnoc(rows[1..], row);
    }
  }

  /** Once a release is found, no later record overwrites it. */
  lemma {:induction false} FirstReleaseKept(rows: seq<Record>, more: seq<Record>)
    requires FirstRelease(rows) != Null
    ensures FirstRelease(rows + more) == FirstRelease(rows)
    decreases |rows|
  {
    assert rows != [];
    assert (rows + more)[0] == rows[0];
    if Alps(rows[0]) == Null {
      assert (rows + more)[1..] == rows[1..] + more;
      FirstReleaseKept(rows[1..], more);
    }
  }

  /** The published name of a record, or None when it has none (a record that is shown always has one). */
  function PubName(row: Record): Value {
    if "publishedName" in row then row["publishedName"] else Null
  }

  /** The published names of the records, in order. */
  function PublishedNames(rows: seq<Record>): seq<Value> {
    Each(PubName, rows)
  }

  /** The cells of one record under `headers`, as a function of the record. */
  function RowOf(headers: seq<string>): Record -> Result<seq<Cell>, Fault> {
    row => NmdRow(row, headers)
  }

  /** The cells of each record under `headers`, in order. */
  function NmdRows(rows: seq<Record>, headers: seq<string>): seq<Result<seq<Cell>, Fault>> {
    Each(RowOf(headers), rows)
  }

  /** The table section, the release and the publishing names of a non-empty result, or the first record's fault. */
  datatype NmdOut = NmdOut(sections: seq<Section>, release: Value, names: Option<seq<Value>>)

  /** The rows of a non-empty result: every record shown under the headers, then the release and names it yields. */
  function NmdShow(rows: seq<Record>, t: SearchType, table: string): Result<NmdOut, Fault>
    requires rows != []
  {
    var headers := NmdHeaders(t, table);
    match Collect(NmdRows(rows, headers))
    case Err(e) => Err(e)
    case Ok(cells) =>
      Ok(NmdOut([Table(table, |rows|, headers, cells)], FirstRelease(rows), Some(Distinct(PublishedNames(rows)))))
  }

  /** The `uploaded` dictionary of the last record, when the object store is to be checked for it. */
  predicate ChecksUploads(rows: seq<Record>, table: string) {
    rows != [] && table == "publishedURL" && "uploaded" in rows[|rows| - 1] && Truthy(rows[|rows| - 1]["uploaded"])
  }

  /**
   * After the rows: when the last row has a truthy `uploaded` on
   * publishedURL, its files are checked on the object store with a fresh
   * cache and their table is added; the trace holds the probes issued.
   */
  function WithUploads(env: Env, rows: seq<Record>, table: string, out: NmdOut): Outcome<NmdOut> {
    if !ChecksUploads(rows, table) then Outcome(Ok(out), [])
    else match rows[|rows| - 1]["uploaded"]
      case Dict(files) =>
        var run := CheckAll(Fresh, files, env.probe);
        if run.fault.Some? then Outcome(Err(run.fault.value), run.heads)
        else
          var uploads := Uploads(table, run.state.outs, run.state.notFound, run.state.other);
          Outcome(Ok(out.(sections := out.sections + [uploads])), run.heads)
      case _ => Outcome(Err(AttributeFault("object has no attribute 'items'")), [])
  }

  /** `show_nmd_purl(key, itype, table)`: the sections it adds, the release and the publishing names. */
  function NmdLookup(env: Env, key: string, t: SearchType, table: string): Outcome<NmdOut> {
    var o := Ask(env, Find("neuronbridge", table, NmdQuery(key, t, table)));
    if o.result.Err? then Outcome(Err(o.result.error), o.trace)
    else
      var rows := o.result.value;
      if rows == [] then Outcome(Ok(NmdOut([NotFound(Name(t), key, table)], Null, None)), o.trace)
      else match NmdShow(rows, t, table)
        case Err(e) => Outcome(Err(e), o.trace)
        case Ok(out) =>
          var u := WithUploads(env, rows, table, out);
          Outcome(u.result, o.trace + u.trace)
  }

  /** The object-store check of the uploads only adds a section: the release and names are passed on. */
  lemma UploadsKeep(env: Env, rows: seq<Record>, table: string, out: NmdOut)
    requires WithUploads(env, rows, table, out).result.Ok?
    ensures var r := WithUploads(env, rows, table, out).result.value;
      r.release == out.release && r.names == out.names
    ensures !ChecksUploads(rows, table) ==> WithUploads(env, rows, table, out) == Outcome(Ok(out), [])
  {
  }

  /**
   * A lookup that succeeds returns the release of the first record that has
   * one and each publishing name once, in first-seen order; an empty answer
   * returns None for both. Only publishedURL probes the object store.
   */
  lemma NmdCarries(env: Env, key: string, t: SearchType, table: string, rows: seq<Record>)
    requires env.store(Find("neuronbridge", table, NmdQuery(key, t, table))) == Rows(rows)
    requires NmdLookup(env, key, t, table).result.Ok?
    ensures var out := NmdLookup(env, key, t, table).result.value;
      && out.names == (if rows == [] then None else Some(Distinct(PublishedNames(rows))))
      && out.release == (if rows == [] then Null else FirstRelease(rows))
    ensures table != "publishedURL" || rows == [] ==>
      NmdLookup(env, key, t, table).trace == [Find("neuronbridge", table, NmdQuery(key, t, table))]
  {
    if rows != [] {
      UploadsKeep(env, rows, table, NmdShow(rows, t, table).value);
    }
  }

  /** An empty answer is reported as not found in the table, with no release and no names. */
  lemma NmdNotFound(env: Env, key: string, t: SearchType, table: string)
    requires env.store(Find("neuronbridge", table, NmdQuery(key, t, table))) == Rows([])
    ensures NmdLookup(env, key, t, table).result == Ok(NmdOut([NotFound(Name(t), key, table)], Null, None))
  {
  }

  /** No record of the table can raise a store fault: a failure to show the rows is the code's own. */
  lemma {:induction false} NmdShowLocal(rows: seq<Record>, t: SearchType, table: string)
    requires rows != []
    ensures Local(NmdShow(rows, t, table))
  {
    var headers := NmdHeaders(t, table);
    var rs := NmdRows(rows, headers);
    forall i | 0 <= i < |rs| ensures Local(rs[i]) {
      EachAt(RowOf(headers), rows, i);
      if Shaped(rows[i]).Ok? {
        RenderLocal(Shaped(rows[i]).value, headers);
      }
    }
    CollectLocal(rs);
  }

  /** The check of the uploads aborts on an unexpected exception of a probe. */
  lemma UploadsAborts(env: Env, rows: seq<Record>, table: string, out: NmdOut)
    ensures Aborts(env, WithUploads(env, rows, table, out))
  {
    if ChecksUploads(rows, table) && rows[|rows| - 1]["uploaded"].Dict? {
      var run := CheckAll(Fresh, rows[|rows| - 1]["uploaded"].entries, env.probe);
      CheckAborts(env, Fresh, rows[|rows| - 1]["uploaded"].entries);
      AbortsAs(env, RunOutcome(run), WithUploads(env, rows, table, out).result);
    }
  }

  /**
   * `show_nmd_purl` aborts on a store exception: its query and then the
   * probes of the last row's uploads are the trace; success means none of
   * them raised, and a store fault carries the message of the last one,
   * the only one that raised.
   */
  lemma NmdAborts(env: Env, key: string, t: SearchType, table: string)
    ensures Aborts(env, NmdLookup(env, key, t, table))
  {
    var o := Ask(env, Find("neuronbridge", table, NmdQuery(key, t, table)));
    if o.result.Ok? && o.result.value != [] {
      var rows := o.result.value;
      NmdShowLocal(rows, t, table);
      if NmdShow(rows, t, table).Ok? {
        var u := WithUploads(env, rows, table, NmdShow(rows, t, table).value);
        UploadsAborts(env, rows, table, NmdShow(rows, t, table).value);
        AbortsThen(env, o, u, u.result);
      }
    }
  }

  /**
   * The release gathered is None only when no record carries one, and once
   * found it is never overwritten by later records.
   */
  lemma FirstReleaseFacts(rows: seq<Record>, more: seq<Record>)
    ensures FirstRelease(rows) == Null <==> forall i :: 0 <= i < |rows| ==> Alps(rows[i]) == Null
    ensures FirstRelease(rows) != Null ==> FirstRelease(rows + more) == FirstRelease(rows)
    ensures FirstRelease(rows) != Null ==> exists i :: 0 <= i < |rows| && Alps(rows[i]) == FirstRelease(rows)
  {
    if FirstRelease(rows) != Null {
      FirstReleaseKept(rows, more);
      FirstReleaseFrom(rows);
    } else {
      forall i | 0 <= i < |rows| ensures Alps(rows[i]) == Null {
        if Alps(rows[i]) != Null {
          FirstReleaseFound(rows, i);
        }
      }
    }
  }

  /** A release found is the release of some record. */
  lemma {:induction false} FirstReleaseFrom(rows: seq<Record>)
    requires FirstRelease(rows) != Null
    ensures exists i :: 0 <= i < |rows| && Alps(rows[i]) == FirstRelease(rows)
    decreases |rows|
  {
    if Alps(rows[0]) == Null {
      FirstReleaseFrom(rows[1..]);
      var i :| 0 <= i < |rows[1..]| && Alps(rows[1..][i]) == FirstRelease(rows[1..]);
      assert rows[1..][i] == rows[i + 1];
    }
  }

  /**
   * The publishing names gathered hold each record's name exactly once, and
   * nothing else, starting with the first record's.
   */
  lemma PublishedNamesFacts(rows: seq<Record>)
    requires forall i :: 0 <= i < |rows| ==> "publishedName" in rows[i]
    ensures NoDup(Distinct(PublishedNames(rows)))
    ensures forall i :: 0 <= i < |rows| ==> rows[i]["publishedName"] in Distinct(PublishedNames(rows))
    ensures forall v :: v in Distinct(PublishedNames(rows)) ==> exists i :: 0 <= i < |rows| && rows[i]["publishedName"] == v
    ensures rows != [] ==> Distinct(PublishedNames(rows))[0] == rows[0]["publishedName"]
  {
    var names := PublishedNames(rows);
    DistinctElements(names);
    forall i | 0 <= i < |rows| ensures names[i] == rows[i]["publishedName"] {
      EachAt(PubName, rows, i);
    }
    forall v | v in Distinct(names) ensures exists i :: 0 <= i < |rows| && rows[i]["publishedName"] == v {
      var i :| 0 <= i < |names| && names[i] == v;
      assert rows[i]["publishedName"] == v;
    }
    if rows != [] {
      DistinctFirst(names);
    }
  }

  /** Some record carries a release, so the first one found is not None. */
  lemma {:induction false} FirstReleaseFound(rows: seq<Record>, i: nat)
    requires i < |rows| && Alps(rows[i]) != Null
    ensures FirstRelease(rows) != Null
    decreases i
  {
    if i > 0 && Alps(rows[0]) == Null {
      FirstReleaseFound(rows[1..], i - 1);
    }
  }

  /** The first part of the row loop's body: pad the listed columns, then join `datasetLabels` in place. */
  method ShapeRecord(record: Record) returns (r: Result<Record, Fault>)
    ensures r == Shaped(record)
  {
    var row := Pad(record, NmdPadded);
    if "datasetLabels" in row {
      var labels := Texts(row["datasetLabels"]);
      if labels.Err? {
        return Err(labels.error);
      }
      row := row["datasetLabels" := Str(Join(labels.value, ", "))];
    } else {
      row := row["datasetLabels" := Str("")];
    }
    return Ok(row);
  }

  /** The body of the row loop: shape the record in place, then gather its release and name, then join it. */
  method ShapeRow(record: Record, headers: seq<string>, release: Value, pname: seq<Value>)
    returns (shown: Result<seq<Cell>, Fault>, release': Value, pname': seq<Value>)
    ensures shown == NmdRow(record, headers)
    ensures shown.Ok? ==> release' == (if release != Null then release else Alps(record))
    ensures shown.Ok? ==> pname' == pname + (if record["publishedName"] in pname then [] else [record["publishedName"]])
  {
    release', pname' := release, pname;
    var shaped := ShapeRecord(record);
    if shaped.Err? {
      return Err(shaped.error), release', pname';
    }
    var row := shaped.value;
    ShapedKeeps(record, "alpsRelease");
    ShapedKeeps(record, "publishedName");
    NmdRowShaped(record, headers);
    if "alpsRelease" in row && release' == Null {
      release' := row["alpsRelease"];
    }
    assert release' == (if release != Null then release else Alps(record));
    if "publishedName" !in row {
      return Err(KeyFault("publishedName")), release', pname';
    }
    assert row["publishedName"] == record["publishedName"];
    if row["publishedName"] !in pname' {
      pname' := pname' + [row["publishedName"]];
    }
    shown := Render(row, headers);
  }

  /** The release and names gathered over one more record. */
  lemma GatherStep(rows: seq<Record>, i: nat)
    requires i < |rows|
    ensures FirstRelease(rows[..i + 1]) == if FirstRelease(rows[..i]) != Null then FirstRelease(rows[..i]) else Alps(rows[i])
    ensures var names := Distinct(PublishedNames(rows[..i]));
      Distinct(PublishedNames(rows[..i + 1])) ==
        names + (if PubName(rows[i]) in names then [] else [PubName(rows[i])])
  {
    assert rows[..i + 1] == rows[..i] + [rows[i]];
    FirstReleaseSnoc(rows[..i], rows[i]);
    EachNext(PubName, rows, i);
    DistinctSnoc(PublishedNames(rows[..i]), PubName(rows[i]));
  }

  /** The row loop of `show_nmd_purl` over a non-empty result. */
  method ShowRows(rows: seq<Record>, t: SearchType, table: string) returns (r: Result<NmdOut, Fault>)
    requires rows != []
    ensures r == NmdShow(rows, t, table)
  {
    var headers := NmdHeaders(t, table);
    var cells: seq<seq<Cell>> := [];
    var release := Null;
    var pname: seq<Value> := [];
    var i := 0;
    while i < |rows|
      invariant 0 <= i <= |rows|
      invariant Collect(NmdRows(rows[..i], headers)) == Ok(cells)
      invariant release == FirstRelease(rows[..i])
      invariant pname == Distinct(PublishedNames(rows[..i]))
    {
      var shown;
      shown, release, pname := ShapeRow(rows[i], headers, release, pname);
      CollectEachStep(RowOf(headers), rows, i, cells);
      if shown.Err? {
        return Err(shown.error);
      }
      GatherStep(rows, i);
      cells := cells + [shown.value];
      i := i + 1;
    }
    assert rows[..|rows|] == rows;
    return Ok(NmdOut([Table(table, |rows|, headers, cells)], release, Some(pname)));
  }

  /** The tail of `show_nmd_purl`: the object-store check of the last row's uploads. */
  method AddUploads(env: Env, rows: seq<Record>, table: string, out: NmdOut) returns (o: Outcome<NmdOut>)
    requires rows != []
    ensures o == WithUploads(env, rows, table, out)
  {
    var last := rows[|rows| - 1];
    if table != "publishedURL" || !("uploaded" in last && Truthy(last["uploaded"])) {
      return Outcome(Ok(out), []);
    }
    if !last["uploaded"].Dict? {
      return Outcome(Err(AttributeFault("object has no attribute 'items'")), []);
    }
    var checker := new ExistenceChecker();
    var heads, fault := checker.Check(last["uploaded"].entries, env.probe);
    if fault.Some? {
      return Outcome(Err(fault.value), heads);
    }
    var uploads := Uploads(table, checker.outs, checker.notFound, checker.other);
    return Outcome(Ok(out.(sections := out.sections + [uploads])), heads);
  }

  /** `show_nmd_purl`, with the check of the last row's uploads. */
  method ShowNmdPurl(env: Env, key: string, t: SearchType, table: string) returns (o: Outcome<NmdOut>)
    ensures o == NmdLookup(env, key, t, table)
  {
    var req := Find("neuronbridge", table, NmdQuery(key, t, table));
    var reply := env.store(req);
    if reply.Raised? {
      return Outcome(Err(StoreFault(reply.message)), [req]);
    }
    var rows := reply.items;
    if |rows| == 0 {
      return Outcome(Ok(NmdOut([NotFound(Name(t), key, table)], Null, None)), [req]);
    }
    assert Ask(env, req) == Outcome(Ok(rows), [req]);
    var shown := ShowRows(rows, t, table);
    if shown.Err? {
      return Outcome(Err(shown.error), [req]);
    }
    var u := AddUploads(env, rows, table, shown.value);
    return Outcome(u.result, [req] + u.trace);
  }
}
