/**
 * `show_pli` and `get_stacks`: the publishedLMImage table, the object-store
 * check of each row's files with one cache for the whole table, and the
 * published-stacks releases looked up once per stacks key.
 */
module Pli {
  import opened Wrappers
  import opened Text
  import opened Values
  import opened Keys
  import opened Queries
  import opened Backend
  import opened S3Check
  import opened Sections

  const StacksTable := "janelia-neuronbridge-published-stacks"

  /** `row['files']` names a visually lossless stack: the alignment column says Yes. */
  function Aligned(row: Record): Result<bool, Fault> {
    if "files" in row then Contains(row["files"], "VisuallyLosslessStack") else Ok(false)
  }

  /**
   * The release column is flagged when the search is not by publishing name,
   * publishedURL gave a truthy release, and the row's release differs from it.
   */
  function Flagged(row: Record, t: SearchType, release: Value): (r: Result<bool, Fault>)
    ensures r == Ok(true) ==> "releaseName" in row
  {
    if t != PublishingName && Truthy(release) then
      if "releaseName" !in row then Err(KeyFault("releaseName")) else Ok(row["releaseName"] != release)
    else Ok(false)
  }

  /** Fill each of `fields` that is missing from `row`, or None in it, with ''. */
  function PadNone(row: Record, fields: seq<string>): (r: Record)
    ensures r.Keys == row.Keys + set f | f in fields
    ensures forall k :: k in row && k !in fields ==> r[k] == row[k]
    ensures forall f :: f in fields ==> r[f] == if f in row && row[f] != Null then row[f] else Str("")
  {
    row + map f | f in fields && (f !in row || row[f] == Null) :: Str("")
  }

  /** The record as the row loop joins it: alignment blanked, a flagged release formatted. */
  function Marked(row: Record, flagged: bool): (r: Record)
    requires flagged ==> "releaseName" in row
    ensures forall h :: h in PliColumns ==> (h in r <==> h in row)
    ensures forall h :: h in PliColumns && h in row ==> r[h] == row[h]
    ensures "alignment" in r && r["alignment"] == Str("")
    ensures flagged ==> "releaseName" in r && r["releaseName"] == Str(Format(row["releaseName"]))
    ensures !flagged ==> ("releaseName" in r <==> "releaseName" in row)
    ensures !flagged && "releaseName" in row ==> r["releaseName"] == row["releaseName"]
  {
    var marked := row["alignment" := Str("")];
    if flagged then marked["releaseName" := Str(Format(row["releaseName"]))] else marked
  }

  /**
   * The cells of one publishedLMImage record: its columns, None or missing
   * ones shown as '', a flagged release shown in red, and the alignment mark.
   */
  function PliCells(row: Record, t: SearchType, release: Value): (r: Result<seq<Cell>, Fault>)
    ensures r.Ok? ==> |r.value| == |PliHeaders|
  {
    match Aligned(row)
    case Err(e) => Err(e)
    case Ok(aligned) =>
      match Flagged(row, t, release)
      case Err(e) => Err(e)
      case Ok(flagged) =>
        match Render(PadNone(Marked(row, flagged), PliHeaders), PliHeaders)
        case Err(e) => Err(e)
        case Ok(cells) => Ok(cells[..6] + [if flagged then Alert(cells[6].text) else cells[6], Mark(aligned)])
  }

  /** Joining the padded columns succeeds exactly when each column present is text or None; absent and None ones show ''. */
  lemma PadNoneRender(row: Record, headers: seq<string>)
    ensures Render(PadNone(row, headers), headers).Ok? <==>
      forall h :: h in headers && h in row ==> row[h].Str? || row[h] == Null
    ensures Render(PadNone(row, headers), headers).Ok? ==>
      forall i :: 0 <= i < |headers| ==>
        Render(PadNone(row, headers), headers).value[i].text == if headers[i] in row && row[headers[i]] != Null then row[headers[i]].s else ""
  {
    var padded := PadNone(row, headers);
    if forall h :: h in headers && h in row ==> row[h].Str? || row[h] == Null {
      assert forall h :: h in headers ==> h in padded && padded[h].Str?;
    }
  }

  /**
   * A record is shown exactly when its files (if any) can be searched, it
   * has a release whenever one is to be compared, and each other column it
   * has is text or None.
   */
  lemma PliCellsShown(row: Record, t: SearchType, release: Value)
    ensures PliCells(row, t, release).Ok? <==>
      && Aligned(row).Ok?
      && (t != PublishingName && Truthy(release) ==> "releaseName" in row)
      && (forall h :: h in PliColumns && h in row ==> row[h].Str? || row[h] == Null)
      && (Flagged(row, t, release) == Ok(false) && "releaseName" in row ==> (row["releaseName"].Str? || row["releaseName"] == Null))
  {
    if Aligned(row).Ok? && Flagged(row, t, release).Ok? {
      var flagged := Flagged(row, t, release).value;
      var shown := Marked(row, flagged);
      PadNoneRender(shown, PliHeaders);
      if PliCells(row, t, release).Ok? {
        forall h | h in PliColumns && h in row ensures row[h].Str? || row[h] == Null {
          assert h in PliHeaders;
        }
        assert "releaseName" in PliHeaders;
      }
    }
  }

  /**
   * A record shown has the alignment mark saying whether its files name a
   * visually lossless stack, and its release is flagged exactly when it
   * differs from the one publishedURL gave, shown as formatted.
   */
  lemma PliCellsMarks(row: Record, t: SearchType, release: Value)
    requires PliCells(row, t, release).Ok?
    ensures var cells := PliCells(row, t, release).value;
      && cells[7] == Mark("files" in row && Contains(row["files"], "VisuallyLosslessStack") == Ok(true))
      && (cells[6].Alert? <==> t != PublishingName && Truthy(release) && row["releaseName"] != release)
      && (cells[6].Alert? ==> cells[6].text == Format(row["releaseName"]))
  {
    var flagged := Flagged(row, t, release).value;
    var padded := PadNone(Marked(row, flagged), PliHeaders);
    var joined := Render(padded, PliHeaders).value;
    assert PliHeaders[6] == "releaseName";
    if flagged {
      assert joined[6].text == padded["releaseName"].s == Format(row["releaseName"]);
    }
  }

  /** The stacks key of a (padded) record: slide code, objective and alignment space joined by '-', lower-cased. */
  function StacksKey(row: Record): Result<string, Fault> {
    if "slideCode" !in row then Err(KeyFault("slideCode"))
    else if "objective" !in row then Err(KeyFault("objective"))
    else if "alignmentSpace" !in row then Err(KeyFault("alignmentSpace"))
    else if !(row["slideCode"].Str? && row["objective"].Str? && row["alignmentSpace"].Str?) then
      Err(TypeFault("sequence item: expected str instance"))
    else Ok(Lower(row["slideCode"].s + "-" + row["objective"].s + "-" + row["alignmentSpace"].s))
  }

  /** The query `get_stacks` sends for a stacks key. */
  function StacksRequest(key: string): Request {
    QueryItems(StacksTable, [("itemType", Str(key))])
  }

  /** `get_stacks(key)`: the release of the first item stored under the key, or None when there is none. */
  function GetStacks(env: Env, key: string): Outcome<Option<Value>> {
    var o := Ask(env, StacksRequest(key));
    if o.result.Err? then Outcome(Err(o.result.error), o.trace)
    else if o.result.value == [] then Outcome(Ok(None), o.trace)
    else if "releaseName" !in o.result.value[0] then Outcome(Err(KeyFault("releaseName")), o.trace)
    else Outcome(Ok(Some(o.result.value[0]["releaseName"])), o.trace)
  }

  /** The stacks store holds a truthy release for the key. */
  predicate Stores(env: Env, key: string) {
    var reply := env.store(StacksRequest(key));
    reply.Rows? && reply.items != [] && "releaseName" in reply.items[0] && Truthy(reply.items[0]["releaseName"])
  }

  /** What the row loop has gathered: the rows shown, the object-store cache and findings, and the stacks releases. */
  datatype PliAcc = PliAcc(cells: seq<seq<Cell>>, s3: S3State, ddb: seq<(string, Value)>)

  /** Check a record's truthy `files` on the object store, with the cache shared by all rows. */
  function CheckFiles(env: Env, row: Record, st: S3State): S3Run {
    if "files" in row && Truthy(row["files"]) then
      match row["files"]
      case Dict(files) => CheckAll(st, files, env.probe)
      case _ => S3Run(st, Some(AttributeFault("object has no attribute 'items'")), [])
    else S3Run(st, None, [])
  }

  /** `if ddb_key not in ddb`: look the key up, and keep its release when it is truthy. */
  function LookupStacks(env: Env, key: string, ddb: seq<(string, Value)>): Outcome<seq<(string, Value)>> {
    if key in KeysOf(ddb) then Outcome(Ok(ddb), [])
    else
      var got := GetStacks(env, key);
      if got.result.Err? then Outcome(Err(got.result.error), got.trace)
      else
        var ret := got.result.value;
        Outcome(Ok(if ret.Some? && Truthy(ret.value) then ddb + [(key, ret.value)] else ddb), got.trace)
  }

  /**
   * One pass of the row loop, given what joining the record gave: stop at
   * its fault, otherwise check its files, then look its stacks key up
   * unless it is stored.
   */
  function PliStep(env: Env, row: Record, shown: Result<seq<Cell>, Fault>, acc: PliAcc): Outcome<PliAcc> {
    match shown
    case Err(e) => Outcome(Err(e), [])
    case Ok(cells) =>
      var run := CheckFiles(env, row, acc.s3);
      if run.fault.Some? then Outcome(Err(run.fault.value), run.heads)
      else match StacksKey(PadNone(row, PliHeaders))
        case Err(e) => Outcome(Err(e), run.heads)
        case Ok(key) =>
          var got := LookupStacks(env, key, acc.ddb);
          if got.result.Err? then Outcome(Err(got.result.error), run.heads + got.trace)
          else Outcome(Ok(PliAcc(acc.cells + [cells], run.state, got.result.value)), run.heads + got.trace)
  }

  /** The row loop of `show_pli` over the remaining records, after the requests in `trace`; the first fault ends it. */
  function PliFold(env: Env, rows: seq<Record>, t: SearchType, release: Value, acc: PliAcc, trace: seq<Request>): Outcome<PliAcc>
    decreases |rows|
  {
    if rows == [] then Outcome(Ok(acc), trace)
    else
      var step := PliStep(env, rows[0], PliCells(rows[0], t, release), acc);
      if step.result.Err? then Outcome(Err(step.result.error), trace + step.trace)
      else PliFold(env, rows[1..], t, release, step.result.value, trace + step.trace)
  }

  /** `show_pli(key, itype, release)`: the sections it adds. */
  function PliLookup(env: Env, key: string, t: SearchType, release: Value): Outcome<seq<Section>> {
    var o := Ask(env, Find("neuronbridge", "publishedLMImage", PliQuery(key, t)));
    if o.result.Err? then Outcome(Err(o.result.error), o.trace)
    else
      var rows := o.result.value;
      if rows == [] then Outcome(Ok([NotFound(Name(t), key, "publishedLMImage")]), o.trace)
      else
        var f := PliFold(env, rows, t, release, PliAcc([], Fresh, []), o.trace);
        if f.result.Err? then Outcome(Err(f.result.error), f.trace)
        else
          var acc := f.result.value;
          var shown := [Table("publishedLMImage", |rows|, PliHeaders, acc.cells),
                        Uploads("publishedLMImage", acc.s3.outs, acc.s3.notFound, acc.s3.other)];
          Outcome(Ok(if acc.ddb == [] then shown else shown + [Stacks(acc.ddb)]), f.trace)
  }

  /** The loop over the remaining records takes one step, or stops at its fault. */
  lemma PliFoldUnfold(env: Env, rows: seq<Record>, i: nat, t: SearchType, release: Value, acc: PliAcc, trace: seq<Request>)
    requires i < |rows|
    ensures var step := PliStep(env, rows[i], PliCells(rows[i], t, release), acc);
      PliFold(env, rows[i..], t, release, acc, trace) ==
        if step.result.Err? then Outcome(Err(step.result.error), trace + step.trace)
        else PliFold(env, rows[i + 1..], t, release, step.result.value, trace + step.trace)
  {
    assert rows[i..][0] == rows[i] && rows[i..][1..] == rows[i + 1..];
  }

  /** `get_stacks`, called when the key is not kept yet; the release is kept when truthy. */
  method StacksFor(env: Env, key: string, ddb: seq<(string, Value)>) returns (o: Outcome<seq<(string, Value)>>)
    ensures o == LookupStacks(env, key, ddb)
  {
    if key in KeysOf(ddb) {
      return Outcome(Ok(ddb), []);
    }
    var req := StacksRequest(key);
    var reply := env.store(req);
    if reply.Raised? {
      return Outcome(Err(StoreFault(reply.message)), [req]);
    }
    if reply.items == [] {
      return Outcome(Ok(ddb), [req]);
    }
    if "releaseName" !in reply.items[0] {
      return Outcome(Err(KeyFault("releaseName")), [req]);
    }
    var ret := reply.items[0]["releaseName"];
    return Outcome(Ok(if Truthy(ret) then ddb + [(key, ret)] else ddb), [req]);
  }

  /** `if 'files' in row and row['files']: check_s3(...)`, on the shared cache. */
  method CheckRowFiles(env: Env, row: Record, checker: ExistenceChecker) returns (heads: seq<Request>, fault: Option<Fault>)
    modifies checker
    ensures CheckFiles(env, row, old(checker.State())) == S3Run(checker.State(), fault, heads)
  {
    if !("files" in row && Truthy(row["files"])) {
      return [], None;
    }
    if !row["files"].Dict? {
      return [], Some(AttributeFault("object has no attribute 'items'"));
    }
    heads, fault := checker.Check(row["files"].entries, env.probe);
  }

  /** The body of the row loop: join the record, check its files with the shared cache, look its stacks key up. */
  method PliRow(env: Env, row: Record, t: SearchType, release: Value, checker: ExistenceChecker, acc: PliAcc)
      returns (o: Outcome<PliAcc>)
    requires acc.s3 == checker.State()
    modifies checker
    ensures o == PliStep(env, row, PliCells(row, t, release), acc)
    ensures o.result.Ok? ==> o.result.value.s3 == checker.State()
  {
    var cells := PliCells(row, t, release);
    if cells.Err? {
      return Outcome(Err(cells.error), []);
    }
    var heads, fault := CheckRowFiles(env, row, checker);
    if fault.Some? {
      return Outcome(Err(fault.value), heads);
    }
    var key := StacksKey(PadNone(row, PliHeaders));
    if key.Err? {
      return Outcome(Err(key.error), heads);
    }
    var got := StacksFor(env, key.value, acc.ddb);
    if got.result.Err? {
      return Outcome(Err(got.result.error), heads + got.trace);
    }
    return Outcome(Ok(PliAcc(acc.cells + [cells.value], checker.State(), got.result.value)), heads + got.trace);
  }

  /** The row loop of `show_pli`, after the requests in `trace`, sharing one object-store cache. */
  method PliLoop(env: Env, rows: seq<Record>, t: SearchType, release: Value, trace: seq<Request>) returns (f: Outcome<PliAcc>)
    ensures f == PliFold(env, rows, t, release, PliAcc([], Fresh, []), trace)
  {
    var checker := new ExistenceChecker();
    var acc := PliAcc([], checker.State(), []);
    f := Outcome(Ok(acc), trace);
    var i := 0;
    while i < |rows|
      invariant 0 <= i <= |rows|
      invariant f.result.Ok? && acc == f.result.value && acc.s3 == checker.State()
      invariant PliFold(env, rows, t, release, PliAcc([], Fresh, []), trace) == PliFold(env, rows[i..], t, release, acc, f.trace)
    {
      PliFoldUnfold(env, rows, i, t, release, acc, f.trace);
      var step := PliRow(env, rows[i], t, release, checker, acc);
      if step.result.Err? {
        return Outcome(Err(step.result.error), f.trace + step.trace);
      }
      acc := step.result.value;
      f := Outcome(Ok(acc), f.trace + step.trace);
      i := i + 1;
    }
    assert rows[i..] == [];
  }

  /** `show_pli`: the query, then the row loop and the sections it fills. */
  method ShowPli(env: Env, key: string, t: SearchType, release: Value) returns (o: Outcome<seq<Section>>)
    ensures o == PliLookup(env, key, t, release)
  {
    var req := Find("neuronbridge", "publishedLMImage", PliQuery(key, t));
    var reply := env.store(req);
    if reply.Raised? {
      return Outcome(Err(StoreFault(reply.message)), [req]);
    }
    var rows := reply.items;
    if |rows| == 0 {
      return Outcome(Ok([NotFound(Name(t), key, "publishedLMImage")]), [req]);
    }
    var f := PliLoop(env, rows, t, release, [req]);
    if f.result.Err? {
      return Outcome(Err(f.result.error), f.trace);
    }
    var acc := f.result.value;
    var shown := [Table("publishedLMImage", |rows|, PliHeaders, acc.cells),
                  Uploads("publishedLMImage", acc.s3.outs, acc.s3.notFound, acc.s3.other)];
    if acc.ddb != [] {
      shown := shown + [Stacks(acc.ddb)];
    }
    return Outcome(Ok(shown), f.trace);
  }

  /** The number of times `req` was sent. */
  ghost function Sent(trace: seq<Request>, req: Request): nat {
    multiset(trace)[req]
  }

  /**
   * The stacks releases kept: distinct keys, each with a truthy release the
   * store holds for it, each looked up exactly once; a key looked up but not
   * kept has no truthy release in the store.
   */
  ghost predicate StacksKept(env: Env, ddb: seq<(string, Value)>, trace: seq<Request>) {
    && NoDup(KeysOf(ddb))
    && (forall i :: 0 <= i < |ddb| ==> Truthy(ddb[i].1) && Stores(env, ddb[i].0))
    && (forall k :: k in KeysOf(ddb) ==> Sent(trace, StacksRequest(k)) == 1)
    && (forall k :: k !in KeysOf(ddb) && Sent(trace, StacksRequest(k)) > 0 ==> !Stores(env, k))
  }

  /** The object-store check of a record only ever sends existence probes. */
  lemma CheckFilesProbes(env: Env, row: Record, st: S3State)
    ensures forall r :: r in CheckFiles(env, row, st).heads ==> r.Head?
  {
    if "files" in row && Truthy(row["files"]) && row["files"].Dict? {
      OnlyProbes(st, row["files"].entries, env.probe);
    }
  }

  /** Probes do not count as stacks lookups. */
  lemma SentAfterProbes(trace: seq<Request>, heads: seq<Request>)
    requires forall r :: r in heads ==> r.Head?
    ensures forall k :: Sent(trace + heads, StacksRequest(k)) == Sent(trace, StacksRequest(k))
  {
    assert multiset(trace + heads) == multiset(trace) + multiset(heads);
    forall k ensures Sent(trace + heads, StacksRequest(k)) == Sent(trace, StacksRequest(k)) {
      assert StacksRequest(k) !in heads;
    }
  }

  /** One lookup of `key` counts once for `key` and for no other key. */
  lemma SentAfterLookup(trace: seq<Request>, key: string)
    ensures forall k :: Sent(trace + [StacksRequest(key)], StacksRequest(k)) == Sent(trace, StacksRequest(k)) + if k == key then 1 else 0
  {
    assert multiset(trace + [StacksRequest(key)]) == multiset(trace) + multiset([StacksRequest(key)]);
  }

  /** Probes in between keep `StacksKept`. */
  lemma KeptAfterProbes(env: Env, ddb: seq<(string, Value)>, trace: seq<Request>, heads: seq<Request>)
    requires StacksKept(env, ddb, trace)
    requires forall r :: r in heads ==> r.Head?
    ensures StacksKept(env, ddb, trace + heads)
  {
    SentAfterProbes(trace, heads);
  }

  /**
   * The lookup of one stacks key keeps `StacksKept`: nothing kept is lost or
   * changed, a new key is added only after its one lookup, and a key already
   * kept is not looked up again.
   */
  lemma LookupKeeps(env: Env, key: string, ddb: seq<(string, Value)>, trace: seq<Request>)
    requires StacksKept(env, ddb, trace)
    requires LookupStacks(env, key, ddb).result.Ok?
    ensures var got := LookupStacks(env, key, ddb);
      && ddb <= got.result.value
      && StacksKept(env, got.result.value, trace + got.trace)
      && (key in KeysOf(ddb) ==> got.trace == [])
  {
    var got := LookupStacks(env, key, ddb);
    if key !in KeysOf(ddb) {
      assert got.trace == [StacksRequest(key)];
      SentAfterLookup(trace, key);
      var ddb' := got.result.value;
      if ddb' != ddb {
        assert KeysOf(ddb') == KeysOf(ddb) + [key];
        assert Stores(env, key);
        assert Sent(trace, StacksRequest(key)) == 0;
      }
    } else {
      assert trace + got.trace == trace;
    }
  }

  /**
   * One row keeps the stacks releases as they were; when its stacks key is
   * already kept, the row sends nothing but probes.
   */
  lemma PliStepKeeps(env: Env, row: Record, shown: Result<seq<Cell>, Fault>, acc: PliAcc, trace: seq<Request>)
    requires StacksKept(env, acc.ddb, trace)
    requires PliStep(env, row, shown, acc).result.Ok?
    ensures var step := PliStep(env, row, shown, acc);
      && acc.ddb <= step.result.value.ddb
      && StacksKept(env, step.result.value.ddb, trace + step.trace)
      && (StacksKey(PadNone(row, PliHeaders)).Ok? && StacksKey(PadNone(row, PliHeaders)).value in KeysOf(acc.ddb) ==>
            forall r :: r in step.trace ==> r.Head?)
  {
    var run := CheckFiles(env, row, acc.s3);
    var key := StacksKey(PadNone(row, PliHeaders)).value;
    CheckFilesProbes(env, row, acc.s3);
    RowKeeps(env, run.heads, key, acc.ddb, trace);
  }

  /** Probes, then the lookup of one stacks key, keep `StacksKept`; a key already kept adds only the probes. */
  lemma RowKeeps(env: Env, heads: seq<Request>, key: string, ddb: seq<(string, Value)>, trace: seq<Request>)
    requires StacksKept(env, ddb, trace)
    requires forall r :: r in heads ==> r.Head?
    requires LookupStacks(env, key, ddb).result.Ok?
    ensures var got := LookupStacks(env, key, ddb);
      && ddb <= got.result.value
      && StacksKept(env, got.result.value, trace + (heads + got.trace))
      && (key in KeysOf(ddb) ==> forall r :: r in heads + got.trace ==> r.Head?)
  {
    var got := LookupStacks(env, key, ddb);
    KeptAfterProbes(env, ddb, trace, heads);
    LookupKeeps(env, key, ddb, trace + heads);
    assert trace + (heads + got.trace) == (trace + heads) + got.trace;
    if key in KeysOf(ddb) {
      assert heads + got.trace == heads;
    }
  }

  /** From the start of the loop, the stacks releases are kept as `StacksKept` says, whatever the rows. */
  lemma {:induction false} PliFoldKeeps(env: Env, rows: seq<Record>, t: SearchType, release: Value, acc: PliAcc, trace: seq<Request>)
    requires StacksKept(env, acc.ddb, trace)
    requires PliFold(env, rows, t, release, acc, trace).result.Ok?
    ensures var f := PliFold(env, rows, t, release, acc, trace);
      acc.ddb <= f.result.value.ddb && StacksKept(env, f.result.value.ddb, f.trace)
    decreases |rows|
  {
    if rows != [] {
      var step := PliStep(env, rows[0], PliCells(rows[0], t, release), acc);
      PliStepKeeps(env, rows[0], PliCells(rows[0], t, release), acc, trace);
      PliFoldKeeps(env, rows[1..], t, release, step.result.value, trace + step.trace);
    }
  }

  /**
   * A publishedLMImage lookup that succeeds keeps distinct stacks keys with
   * truthy releases, each looked up exactly once.
   */
  lemma PliStacksOnce(env: Env, key: string, t: SearchType, release: Value)
    requires PliLookup(env, key, t, release).result.Ok?
    ensures var o := Ask(env, Find("neuronbridge", "publishedLMImage", PliQuery(key, t)));
      var rows := o.result.value;
      rows != [] ==>
        var f := PliFold(env, rows, t, release, PliAcc([], Fresh, []), o.trace);
        f.trace == PliLookup(env, key, t, release).trace && StacksKept(env, f.result.value.ddb, f.trace)
  {
    var o := Ask(env, Find("neuronbridge", "publishedLMImage", PliQuery(key, t)));
    var rows := o.result.value;
    if rows != [] {
      forall k ensures Sent(o.trace, StacksRequest(k)) == 0 {
        assert StacksRequest(k) !in o.trace;
      }
      PliFoldKeeps(env, rows, t, release, PliAcc([], Fresh, []), o.trace);
    }
  }

  /** Sending more requests never lowers the count of one already sent. */
  lemma SentGrows(trace: seq<Request>, more: seq<Request>)
    ensures forall req :: Sent(trace + more, req) >= Sent(trace, req)
  {
    assert multiset(trace + more) == multiset(trace) + multiset(more);
  }

  /** A pass that goes through has a stacks key; it sends the record's probes, then its stacks lookup. */
  lemma PliStepTrace(env: Env, row: Record, shown: Result<seq<Cell>, Fault>, acc: PliAcc)
    requires PliStep(env, row, shown, acc).result.Ok?
    ensures StacksKey(PadNone(row, PliHeaders)).Ok?
    ensures PliStep(env, row, shown, acc).trace ==
      CheckFiles(env, row, acc.s3).heads + LookupStacks(env, StacksKey(PadNone(row, PliHeaders)).value, acc.ddb).trace
  {
  }

  /** A key not stored is looked up with exactly one request. */
  lemma StacksLookedUp(env: Env, key: string, ddb: seq<(string, Value)>)
    requires key !in KeysOf(ddb)
    ensures LookupStacks(env, key, ddb).trace == [StacksRequest(key)]
  {
  }

  /** A request just sent has been sent. */
  lemma SentLast(trace: seq<Request>, req: Request)
    ensures Sent(trace + [req], req) >= 1
  {
    assert multiset(trace + [req]) == multiset(trace) + multiset([req]);
  }

  /** The row loop only ever adds requests after the ones already sent. */
  lemma {:induction false} PliFoldExtends(env: Env, rows: seq<Record>, t: SearchType, release: Value, acc: PliAcc, trace: seq<Request>)
    ensures trace <= PliFold(env, rows, t, release, acc, trace).trace
    decreases |rows|
  {
    if rows != [] {
      var step := PliStep(env, rows[0], PliCells(rows[0], t, release), acc);
      if step.result.Ok? {
        PliFoldExtends(env, rows[1..], t, release, step.result.value, trace + step.trace);
      }
    }
  }

  /** The stacks key of every record has been looked up at least once. */
  ghost predicate LookedUp(rows: seq<Record>, trace: seq<Request>) {
    forall i :: 0 <= i < |rows| ==>
      StacksKey(PadNone(rows[i], PliHeaders)).Ok? &&
      Sent(trace, StacksRequest(StacksKey(PadNone(rows[i], PliHeaders)).value)) >= 1
  }

  /**
   * A row that goes through has a stacks key, and after it that key has
   * been looked up: now, or by an earlier row that kept it.
   */
  lemma PliStepLooksUp(env: Env, row: Record, shown: Result<seq<Cell>, Fault>, acc: PliAcc, trace: seq<Request>)
    requires StacksKept(env, acc.ddb, trace)
    requires PliStep(env, row, shown, acc).result.Ok?
    ensures StacksKey(PadNone(row, PliHeaders)).Ok?
    ensures Sent(trace + PliStep(env, row, shown, acc).trace, StacksRequest(StacksKey(PadNone(row, PliHeaders)).value)) >= 1
  {
    var key := StacksKey(PadNone(row, PliHeaders)).value;
    var heads := CheckFiles(env, row, acc.s3).heads;
    var more := PliStep(env, row, shown, acc).trace;
    PliStepTrace(env, row, shown, acc);
    SentGrows(trace, more);
    if key !in KeysOf(acc.ddb) {
      StacksLookedUp(env, key, acc.ddb);
      TraceJoin(trace, heads, [StacksRequest(key)]);
      SentLast(trace + heads, StacksRequest(key));
    }
  }

  /** From the start of the loop, every record's stacks key is looked up, whatever the rows. */
  lemma {:induction false} PliFoldLooksUp(env: Env, rows: seq<Record>, t: SearchType, release: Value, acc: PliAcc, trace: seq<Request>)
    requires StacksKept(env, acc.ddb, trace)
    requires PliFold(env, rows, t, release, acc, trace).result.Ok?
    ensures LookedUp(rows, PliFold(env, rows, t, release, acc, trace).trace)
    decreases |rows|
  {
    if rows != [] {
      var step := PliStep(env, rows[0], PliCells(rows[0], t, release), acc);
      var next := trace + step.trace;
      PliStepLooksUp(env, rows[0], PliCells(rows[0], t, release), acc, trace);
      PliStepKeeps(env, rows[0], PliCells(rows[0], t, release), acc, trace);
      var rest := PliFold(env, rows[1..], t, release, step.result.value, next);
      assert PliFold(env, rows, t, release, acc, trace) == rest;
      PliFoldLooksUp(env, rows[1..], t, release, step.result.value, next);
      PliFoldExtends(env, rows[1..], t, release, step.result.value, next);
      LookedUpCons(rows, next, rest.trace);
    }
  }

  /** The first record's key looked up before the rest of the trace, and the other records' keys, cover all records. */
  lemma LookedUpCons(rows: seq<Record>, next: seq<Request>, full: seq<Request>)
    requires rows != [] && next <= full
    requires StacksKey(PadNone(rows[0], PliHeaders)).Ok?
    requires Sent(next, StacksRequest(StacksKey(PadNone(rows[0], PliHeaders)).value)) >= 1
    requires LookedUp(rows[1..], full)
    ensures LookedUp(rows, full)
  {
    assert full == next + full[|next|..];
    SentGrows(next, full[|next|..]);
    forall i | 0 <= i < |rows|
      ensures StacksKey(PadNone(rows[i], PliHeaders)).Ok?
      ensures Sent(full, StacksRequest(StacksKey(PadNone(rows[i], PliHeaders)).value)) >= 1
    {
      if i > 0 {
        assert rows[i] == rows[1..][i - 1];
      }
    }
  }

  /**
   * A publishedLMImage lookup that succeeds looks up the stacks key of every
   * record, and keeps a record's key exactly when the stacks store holds a
   * truthy release for it.
   */
  lemma PliStacksComplete(env: Env, key: string, t: SearchType, release: Value)
    requires PliLookup(env, key, t, release).result.Ok?
    ensures var o := Ask(env, Find("neuronbridge", "publishedLMImage", PliQuery(key, t)));
      var rows := o.result.value;
      var f := PliFold(env, rows, t, release, PliAcc([], Fresh, []), o.trace);
      rows != [] ==>
        forall i :: 0 <= i < |rows| ==>
          && StacksKey(PadNone(rows[i], PliHeaders)).Ok?
          && Sent(f.trace, StacksRequest(StacksKey(PadNone(rows[i], PliHeaders)).value)) >= 1
          && (StacksKey(PadNone(rows[i], PliHeaders)).value in KeysOf(f.result.value.ddb) <==>
                Stores(env, StacksKey(PadNone(rows[i], PliHeaders)).value))
  {
    var o := Ask(env, Find("neuronbridge", "publishedLMImage", PliQuery(key, t)));
    var rows := o.result.value;
    if rows != [] {
      var f := PliFold(env, rows, t, release, PliAcc([], Fresh, []), o.trace);
      PliStacksOnce(env, key, t, release);
      NoStacksYet(o.trace);
      PliFoldLooksUp(env, rows, t, release, PliAcc([], Fresh, []), o.trace);
      forall i | 0 <= i < |rows|
        ensures StacksKey(PadNone(rows[i], PliHeaders)).value in KeysOf(f.result.value.ddb) <==>
          Stores(env, StacksKey(PadNone(rows[i], PliHeaders)).value)
      {
        KeptExactly(env, f.result.value.ddb, f.trace, StacksKey(PadNone(rows[i], PliHeaders)).value);
      }
    }
  }

  /** A trace of one table query holds no stacks lookup. */
  lemma NoStacksYet(trace: seq<Request>)
    requires |trace| == 1 && trace[0].Find?
    ensures forall k :: Sent(trace, StacksRequest(k)) == 0
  {
    forall k ensures Sent(trace, StacksRequest(k)) == 0 {
      assert StacksRequest(k) !in trace;
    }
  }

  /** A key that was looked up is kept exactly when the stacks store holds a truthy release for it. */
  lemma KeptExactly(env: Env, ddb: seq<(string, Value)>, trace: seq<Request>, k: string)
    requires StacksKept(env, ddb, trace) && Sent(trace, StacksRequest(k)) >= 1
    ensures k in KeysOf(ddb) <==> Stores(env, k)
  {
    if k in KeysOf(ddb) {
      var j :| 0 <= j < |ddb| && KeysOf(ddb)[j] == k;
      assert ddb[j].0 == k;
    }
  }

  /** No record can raise a store fault while it is joined: a failure to show it is the code's own. */
  lemma PliCellsLocal(row: Record, t: SearchType, release: Value)
    ensures Local(PliCells(row, t, release))
  {
    if Aligned(row).Ok? && Flagged(row, t, release).Ok? {
      RenderLocal(PadNone(Marked(row, Flagged(row, t, release).value), PliHeaders), PliHeaders);
    }
  }

  /** Looking a stacks key up aborts on a store exception of its one query. */
  lemma LookupStacksAborts(env: Env, key: string, ddb: seq<(string, Value)>)
    ensures Aborts(env, LookupStacks(env, key, ddb))
  {
  }

  /** Checking a record's files aborts on an unexpected exception of a probe. */
  lemma CheckFilesAborts(env: Env, row: Record, st: S3State)
    ensures Aborts(env, RunOutcome(CheckFiles(env, row, st)))
  {
    if "files" in row && Truthy(row["files"]) && row["files"].Dict? {
      CheckAborts(env, st, row["files"].entries);
    }
  }

  /**
   * One pass of the row loop aborts on a store exception: the probes of the
   * record's files, then at most one stacks query, and only the last
   * request can have raised.
   */
  lemma PliStepAborts(env: Env, row: Record, shown: Result<seq<Cell>, Fault>, acc: PliAcc)
    requires Local(shown)
    ensures Aborts(env, PliStep(env, row, shown, acc))
  {
    var step := PliStep(env, row, shown, acc);
    if shown.Ok? {
      var run := CheckFiles(env, row, acc.s3);
      CheckFilesAborts(env, row, acc.s3);
      var key := StacksKey(PadNone(row, PliHeaders));
      if run.fault.Some? {
        assert step == Outcome(Err(run.fault.value), run.heads);
      } else if key.Err? {
        assert step == Outcome(Err(key.error), run.heads);
      } else {
        var got := LookupStacks(env, key.value, acc.ddb);
        LookupStacksAborts(env, key.value, acc.ddb);
        assert step.trace == run.heads + got.trace;
        AbortsThen(env, RunOutcome(run), got, step.result);
      }
    }
  }

  /** The row loop, after requests none of which raised, aborts on the first store exception. */
  lemma {:induction false} PliFoldAborts(env: Env, rows: seq<Record>, t: SearchType, release: Value, acc: PliAcc, trace: seq<Request>)
    requires forall r :: r in trace ==> !Failed(env, r)
    ensures Aborts(env, PliFold(env, rows, t, release, acc, trace))
    decreases |rows|
  {
    if rows != [] {
      var step := PliStep(env, rows[0], PliCells(rows[0], t, release), acc);
      PliCellsLocal(rows[0], t, release);
      PliStepAborts(env, rows[0], PliCells(rows[0], t, release), acc);
      AbortsThen(env, Outcome(Ok(acc), trace), step, step.result);
      if step.result.Ok? {
        PliFoldAborts(env, rows[1..], t, release, step.result.value, trace + step.trace);
      }
    }
  }

  /**
   * `show_pli` aborts on a store exception: success means neither the
   * table query, nor a probe, nor a stacks query raised; a store fault
   * carries the message of the last request, the only one that raised.
   */
  lemma PliAborts(env: Env, key: string, t: SearchType, release: Value)
    ensures Aborts(env, PliLookup(env, key, t, release))
  {
    var o := Ask(env, Find("neuronbridge", "publishedLMImage", PliQuery(key, t)));
    if o.result.Ok? && o.result.value != [] {
      PliFoldAborts(env, o.result.value, t, release, PliAcc([], Fresh, []), o.trace);
    }
  }
}
