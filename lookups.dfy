/**
 * The DynamoDB lookups of a search: the published skeletons of a body, the
 * custom annotations of a key, the DOIs of the publishing names, and the
 * body IDs of a neuron type or instance in the current published version.
 */
module Lookups {
  import opened Wrappers
  import opened Text
  import opened Values
  import opened Backend
  import opened Sections
  import opened Versions
  import Links

  const SkeletonsTable := "janelia-neuronbridge-published-skeletons"
  const CustomTable := "janelia-neuronbridge-custom-annotations"
  const DoiTable := "janelia-neuronbridge-publishing-doi"
  const PublishedPrefix := "janelia-neuronbridge-published-"

  /** `url_link(url)`: a link showing the URL without its S3 host and bucket; only text can be linked. */
  function UrlLink(v: Value): Result<Cell, Fault> {
    if v.Str? then Ok(Link(v.s, Links.UrlText(v.s))) else Err(TypeFault("expected string or bytes-like object"))
  }

  // ---------------------------------------------------------------------------
  // get_skeletons

  predicate IsSkeleton(field: string) {
    OccursAt(field, "skeleton", 0)
  }

  /** One row of the Key/Value table: skeleton fields are linked, the others formatted. */
  function SkeletonCell(field: string, v: Value): Result<Cell, Fault> {
    if IsSkeleton(field) then UrlLink(v) else Ok(Plain(Format(v)))
  }

  function SkeletonsRequest(pn: Value): Request {
    QueryItems(SkeletonsTable, [("publishedName", pn)])
  }

  /**
   * The Key/Value table of an item: shown exactly when every skeleton field
   * holds text; then every field of the item appears once, a skeleton field
   * as a link to its URL, any other field as its formatted value.
   */
  function SkeletonFields(item: Record): (r: Result<map<string, Cell>, Fault>)
    ensures r.Ok? <==> forall k :: k in item && IsSkeleton(k) ==> item[k].Str?
    ensures r.Ok? ==> r.value.Keys == item.Keys
    ensures r.Ok? ==> forall k :: k in item && IsSkeleton(k) ==> r.value[k] == Link(item[k].s, Links.UrlText(item[k].s))
    ensures r.Ok? ==> forall k :: k in item && !IsSkeleton(k) ==> r.value[k] == Plain(Format(item[k]))
  {
    if forall k :: k in item && IsSkeleton(k) ==> item[k].Str? then
      Ok(map k | k in item :: SkeletonCell(k, item[k]).value)
    else Err(TypeFault("expected string or bytes-like object"))
  }

  /** `get_skeletons(pname)`: the fields of the first item stored for the published name, or nothing. */
  function GetSkeletons(env: Env, pn: Value): Outcome<seq<Section>> {
    var o := Ask(env, SkeletonsRequest(pn));
    if o.result.Err? then Outcome(Err(o.result.error), o.trace)
    else if o.result.value == [] then Outcome(Ok([]), o.trace)
    else match SkeletonFields(o.result.value[0])
      case Err(e) => Outcome(Err(e), o.trace)
      case Ok(fields) => Outcome(Ok([Skeletons(SkeletonsTable, fields)]), o.trace)
  }

  /** `get_skeletons` aborts on a store exception of its one query; a field it cannot link is the code's own fault. */
  lemma SkeletonsAborts(env: Env, pn: Value)
    ensures GetSkeletons(env, pn).trace == [SkeletonsRequest(pn)]
    ensures Aborts(env, GetSkeletons(env, pn))
  {
  }

  /**
   * What `get_skeletons` shows for each answer: nothing for no item; for
   * items, the Key/Value table of the first one, every field of it once
   * with its skeleton fields linked, or a fault when one of those is not
   * text.
   */
  lemma SkeletonsShown(env: Env, pn: Value)
    requires env.store(SkeletonsRequest(pn)).Rows?
    ensures var items := env.store(SkeletonsRequest(pn)).items;
      var o := GetSkeletons(env, pn);
      && (items == [] ==> o.result == Ok([]))
      && (items != [] ==>
            && (o.result.Ok? <==> forall k :: k in items[0] && IsSkeleton(k) ==> items[0][k].Str?)
            && (o.result.Ok? ==>
                  && |o.result.value| == 1
                  && o.result.value[0].Skeletons?
                  && o.result.value[0].table == SkeletonsTable
                  && o.result.value[0].fields.Keys == items[0].Keys
                  && forall k :: k in items[0] ==>
                       o.result.value[0].fields[k] ==
                         if IsSkeleton(k) then Link(items[0][k].s, Links.UrlText(items[0][k].s)) else Plain(Format(items[0][k]))))
  {
    var items := env.store(SkeletonsRequest(pn)).items;
    if items != [] {
      var r := SkeletonFields(items[0]);
      assert GetSkeletons(env, pn).result == if r.Ok? then Ok([Skeletons(SkeletonsTable, r.value)]) else Err(r.error);
    }
  }

  /** The loop over the item's fields, in whatever order the item gives them. */
  method SkeletonRows(item: Record) returns (r: Result<map<string, Cell>, Fault>)
    ensures r == SkeletonFields(item)
  {
    var fields: map<string, Cell> := map[];
    var left := item.Keys;
    while left != {}
      invariant left <= item.Keys
      invariant fields.Keys == item.Keys - left
      invariant forall k :: k in fields ==> SkeletonCell(k, item[k]) == Ok(fields[k])
      decreases left
    {
      var k :| k in left;
      var cell := SkeletonCell(k, item[k]);
      if cell.Err? {
        return Err(cell.error);
      }
      fields := fields[k := cell.value];
      left := left - {k};
    }
    assert forall k :: k in item && IsSkeleton(k) ==> item[k].Str? by {
      forall k | k in item && IsSkeleton(k) ensures item[k].Str? {
        assert SkeletonCell(k, item[k]).Ok?;
      }
    }
    assert fields == map k | k in item :: SkeletonCell(k, item[k]).value;
    return Ok(fields);
  }

  /** `get_skeletons`, with its loop over the item. */
  method ShowSkeletons(env: Env, pn: Value) returns (o: Outcome<seq<Section>>)
    ensures o == GetSkeletons(env, pn)
  {
    var req := SkeletonsRequest(pn);
    var reply := env.store(req);
    if reply.Raised? {
      return Outcome(Err(StoreFault(reply.message)), [req]);
    }
    if reply.items == [] {
      return Outcome(Ok([]), [req]);
    }
    var fields := SkeletonRows(reply.items[0]);
    if fields.Err? {
      return Outcome(Err(fields.error), [req]);
    }
    return Outcome(Ok([Skeletons(SkeletonsTable, fields.value)]), [req]);
  }

  // ---------------------------------------------------------------------------
  // get_custom

  /** The query `get_custom` sends: search strings under the lower-cased key. */
  function CustomRequest(key: string): Request {
    QueryItems(CustomTable, [("entryType", Str("searchString")), ("searchKey", Str(Lower(key)))])
  }

  /** `for item in v`: the elements of a list, the one-character strings of a text, the keys of a dictionary. */
  function Elements(v: Value): (r: Result<seq<Value>, Fault>)
    ensures v.List? ==> r == Ok(v.items)
    ensures r.Ok? <==> !v.Int? && !v.Null?
  {
    match v
    case List(xs) => Ok(xs)
    case Str(s) => Ok(seq(|s|, i requires 0 <= i < |s| => Str([s[i]])))
    case Dict(es) => Ok(seq(|es|, i requires 0 <= i < |es| => Str(es[i].0)))
    case Int(_) => Err(TypeFault("'int' object is not iterable"))
    case Null => Err(TypeFault("'NoneType' object is not iterable"))
  }

  const AnnotationFields: seq<string> := ["annotation", "annotator", "region", "dataset", "line"]

  /** The five columns of one match, looked up in order and formatted. */
  function AnnotationRow(item: Value): Result<seq<string>, Fault> {
    var got := seq(|AnnotationFields|, i requires 0 <= i < |AnnotationFields| => Item(item, AnnotationFields[i]));
    match Collect(got)
    case Err(e) => Err(e)
    case Ok(vs) => Ok(seq(|vs|, i requires 0 <= i < |vs| => Format(vs[i])))
  }

  /**
   * A match is shown exactly when it is a dictionary holding all five
   * fields; its row is then those fields in order: annotation, annotator,
   * region, dataset, line.
   */
  lemma AnnotationRowFields(item: Value)
    ensures AnnotationRow(item).Ok? <==> item.Dict? && forall f :: f in AnnotationFields ==> f in KeysOf(item.entries)
    ensures AnnotationRow(item).Ok? ==>
      |AnnotationRow(item).value| == 5 &&
      forall i :: 0 <= i < 5 ==> AnnotationRow(item).value[i] == Format(Lookup(item.entries, AnnotationFields[i]).value)
  {
    var got := seq(|AnnotationFields|, i requires 0 <= i < |AnnotationFields| => Item(item, AnnotationFields[i]));
    if item.Dict? && forall f :: f in AnnotationFields ==> f in KeysOf(item.entries) {
      assert forall i :: 0 <= i < 5 ==> got[i].Ok?;
    } else if item.Dict? {
      var f :| f in AnnotationFields && f !in KeysOf(item.entries);
      var i :| 0 <= i < 5 && AnnotationFields[i] == f;
      assert got[i].Err?;
    } else {
      assert got[0].Err?;
    }
  }

  /** The annotation rows of the matches, or the first fault. */
  function AnnotationRows(matches: seq<Value>): Result<seq<seq<string>>, Fault> {
    Collect(Each(AnnotationRow, matches))
  }

  /** `get_custom(key)`: the matches of the first item stored for the key, or nothing. */
  function GetCustom(env: Env, key: string): Outcome<seq<Section>> {
    var o := Ask(env, CustomRequest(key));
    if o.result.Err? then Outcome(Err(o.result.error), o.trace)
    else if o.result.value == [] then Outcome(Ok([]), o.trace)
    else
      var data := o.result.value[0];
      if "matches" !in data then Outcome(Err(KeyFault("matches")), o.trace)
      else match Elements(data["matches"])
        case Err(e) => Outcome(Err(e), o.trace)
        case Ok(items) =>
          match AnnotationRows(items)
          case Err(e) => Outcome(Err(e), o.trace)
          case Ok(rows) => Outcome(Ok([Annotations(CustomTable, rows)]), o.trace)
  }

  /**
   * With a list of matches that are all dictionaries holding the five
   * fields, the custom annotations show one row per match, in order.
   */
  lemma CustomRows(env: Env, key: string)
    requires env.store(CustomRequest(key)).Rows? && env.store(CustomRequest(key)).items != []
    requires var data := env.store(CustomRequest(key)).items[0];
      "matches" in data && data["matches"].List? &&
      forall i :: 0 <= i < |data["matches"].items| ==>
        var m := data["matches"].items[i];
        m.Dict? && forall f :: f in AnnotationFields ==> f in KeysOf(m.entries)
    ensures var data := env.store(CustomRequest(key)).items[0];
      var ms := data["matches"].items;
      var o := GetCustom(env, key);
      && o.trace == [CustomRequest(key)]
      && o.result.Ok? && |o.result.value| == 1 && o.result.value[0].Annotations?
      && |o.result.value[0].matches| == |ms|
      && forall i :: 0 <= i < |ms| ==>
           |o.result.value[0].matches[i]| == 5 &&
           forall j :: 0 <= j < 5 ==> o.result.value[0].matches[i][j] == Format(Lookup(ms[i].entries, AnnotationFields[j]).value)
  {
    var ms := env.store(CustomRequest(key)).items[0]["matches"].items;
    var rs := Each(AnnotationRow, ms);
    forall i | 0 <= i < |ms|
      ensures rs[i].Ok? && |rs[i].value| == 5
      ensures forall j :: 0 <= j < 5 ==> rs[i].value[j] == Format(Lookup(ms[i].entries, AnnotationFields[j]).value)
    {
      AnnotationRowFields(ms[i]);
      EachAt(AnnotationRow, ms, i);
    }
    var rows := seq(|ms|, i requires 0 <= i < |ms| => rs[i].value);
    CollectAll(rs, rows);
    assert AnnotationRows(ms) == Ok(rows);
  }

  /** No match can raise a store fault while its row is read. */
  lemma {:induction false} AnnotationRowsLocal(matches: seq<Value>)
    ensures Local(AnnotationRows(matches))
  {
    var rs := Each(AnnotationRow, matches);
    forall i | 0 <= i < |rs| ensures Local(rs[i]) {
      EachAt(AnnotationRow, matches, i);
      CollectLocal(seq(|AnnotationFields|, j requires 0 <= j < |AnnotationFields| => Item(matches[i], AnnotationFields[j])));
    }
    CollectLocal(rs);
  }

  /** `get_custom` aborts on a store exception of its one query. */
  lemma CustomAborts(env: Env, key: string)
    ensures GetCustom(env, key).trace == [CustomRequest(key)]
    ensures Aborts(env, GetCustom(env, key))
  {
    var o := Ask(env, CustomRequest(key));
    if o.result.Ok? && o.result.value != [] {
      var data := o.result.value[0];
      if "matches" in data && Elements(data["matches"]).Ok? {
        AnnotationRowsLocal(Elements(data["matches"]).value);
      }
    }
  }

  /** `get_custom`, with its loop over the matches. */
  method ShowCustom(env: Env, key: string) returns (o: Outcome<seq<Section>>)
    ensures o == GetCustom(env, key)
  {
    var req := CustomRequest(key);
    var reply := env.store(req);
    if reply.Raised? {
      return Outcome(Err(StoreFault(reply.message)), [req]);
    }
    if reply.items == [] {
      return Outcome(Ok([]), [req]);
    }
    var data := reply.items[0];
    if "matches" !in data {
      return Outcome(Err(KeyFault("matches")), [req]);
    }
    var items := Elements(data["matches"]);
    if items.Err? {
      return Outcome(Err(items.error), [req]);
    }
    var ms := items.value;
    var rows: seq<seq<string>> := [];
    for i := 0 to |ms|
      invariant Collect(Each(AnnotationRow, ms[..i])) == Ok(rows)
    {
      var row := AnnotationRow(ms[i]);
      CollectEachStep(AnnotationRow, ms, i, rows);
      if row.Err? {
        return Outcome(Err(row.error), [req]);
      }
      rows := rows + [row.value];
    }
    EachWhole(AnnotationRow, ms);
    return Outcome(Ok([Annotations(CustomTable, rows)]), [req]);
  }

  // ---------------------------------------------------------------------------
  // get_dois

  /** What `get_dois` keeps of an item: the name, and the link and citation of its first DOI. */
  datatype DoiEntry = DoiEntry(name: Value, link: Value, citation: Value)

  /** The `get_dynamodb` call for one publishing name. */
  function DoiRequest(pn: Value): Request {
    GetItem(DoiTable, "name", pn)
  }

  /** The store holds a non-empty item under the name. */
  predicate HasItem(env: Env, pn: Value) {
    var reply := env.store(DoiRequest(pn));
    reply.Rows? && reply.items != [] && reply.items[0] != map[]
  }

  /** The entry of an item, evaluated as the dictionary literal is: name, then link, then citation. */
  function DoiOf(item: Record): Result<DoiEntry, Fault> {
    if "name" !in item then Err(KeyFault("name"))
    else if "doi" !in item then Err(KeyFault("doi"))
    else match First(item["doi"])
      case Err(e) => Err(e)
      case Ok(d) =>
        match Item(d, "link")
        case Err(e) => Err(e)
        case Ok(link) =>
          match Item(d, "citation")
          case Err(e) => Err(e)
          case Ok(citation) => Ok(DoiEntry(item["name"], link, citation))
  }

  /** The first loop of `get_dois` over the names: one lookup each; names without an item are skipped. */
  function GatherDois(env: Env, names: seq<Value>): Outcome<seq<DoiEntry>>
    decreases |names|
  {
    if names == [] then Outcome(Ok([]), [])
    else
      var before := GatherDois(env, names[..|names| - 1]);
      if before.result.Err? then before
      else
        var pn := names[|names| - 1];
        var o := Ask(env, DoiRequest(pn));
        var trace := before.trace + o.trace;
        if o.result.Err? then Outcome(Err(o.result.error), trace)
        else if !HasItem(env, pn) then Outcome(before.result, trace)
        else match DoiOf(o.result.value[0])
          case Err(e) => Outcome(Err(e), trace)
          case Ok(d) => Outcome(Ok(before.result.value + [d]), trace)
  }

  /** A DOI row: name, citation, and the link, linked when it is truthy. */
  function DoiRow(d: DoiEntry): Result<(string, string, Cell), Fault> {
    if Truthy(d.link) then
      match UrlLink(d.link)
      case Err(e) => Err(e)
      case Ok(cell) => Ok((Format(d.name), Format(d.citation), cell))
    else Ok((Format(d.name), Format(d.citation), Plain(Format(d.link))))
  }

  /** `get_dois(pname)`: the DOI table of the names that have an item, or nothing when none has. */
  function GetDois(env: Env, names: seq<Value>): Outcome<seq<Section>> {
    var g := GatherDois(env, names);
    if g.result.Err? then Outcome(Err(g.result.error), g.trace)
    else
      var out := g.result.value;
      if out == [] then Outcome(Ok([]), g.trace)
      else match Collect(seq(|out|, i requires 0 <= i < |out| => DoiRow(out[i])))
        case Err(e) => Outcome(Err(e), g.trace)
        case Ok(rows) => Outcome(Ok([Dois(DoiTable, rows)]), g.trace)
  }

  /** One DOI lookup per name, in order. */
  function DoiRequests(names: seq<Value>): (rs: seq<Request>)
    ensures |rs| == |names| && forall i :: 0 <= i < |names| ==> rs[i] == DoiRequest(names[i])
  {
    seq(|names|, i requires 0 <= i < |names| => DoiRequest(names[i]))
  }

  /** A gathering that completes looks every name up once, in order, and keeps at most one entry per name. */
  lemma {:induction false} GatherDoisTrace(env: Env, names: seq<Value>)
    requires GatherDois(env, names).result.Ok?
    ensures GatherDois(env, names).trace == DoiRequests(names)
    ensures |GatherDois(env, names).result.value| <= |names|
    decreases |names|
  {
    if names != [] {
      var init := names[..|names| - 1];
      var pn := names[|names| - 1];
      GatherDoisTrace(env, init);
      var before := GatherDois(env, init);
      assert GatherDois(env, names).trace == before.trace + [DoiRequest(pn)];
      var want := DoiRequests(names);
      assert want == before.trace + [DoiRequest(pn)] by {
        forall i | 0 <= i < |init| ensures want[i] == before.trace[i] {
          assert init[i] == names[i];
        }
      }
    }
  }

  /** The item stored under a name that has one. */
  function ItemOf(env: Env, pn: Value): Record
    requires HasItem(env, pn)
  {
    env.store(DoiRequest(pn)).items[0]
  }

  /** The last name adds its entry when it has an item, and nothing otherwise. */
  lemma GatherDoisLast(env: Env, names: seq<Value>)
    requires names != [] && GatherDois(env, names).result.Ok?
    ensures var before := GatherDois(env, names[..|names| - 1]);
      var pn := names[|names| - 1];
      && before.result.Ok?
      && (HasItem(env, pn) ==>
            (DoiOf(ItemOf(env, pn)).Ok? &&
             GatherDois(env, names).result.value == before.result.value + [DoiOf(ItemOf(env, pn)).value]))
      && (!HasItem(env, pn) ==> GatherDois(env, names).result.value == before.result.value)
  {
  }

  /** When every name has an item, there is one entry per name, each the entry of that name's item. */
  lemma {:induction false} GatherDoisAll(env: Env, names: seq<Value>)
    requires GatherDois(env, names).result.Ok?
    requires forall i :: 0 <= i < |names| ==> HasItem(env, names[i])
    ensures var out := GatherDois(env, names).result.value;
      |out| == |names| &&
      forall i :: 0 <= i < |names| ==> Ok(out[i]) == DoiOf(ItemOf(env, names[i]))
    decreases |names|
  {
    if names != [] {
      var init := names[..|names| - 1];
      var pn := names[|names| - 1];
      forall i | 0 <= i < |init| ensures HasItem(env, init[i]) {
        assert init[i] == names[i];
      }
      GatherDoisLast(env, names);
      GatherDoisAll(env, init);
      var before := GatherDois(env, init).result.value;
      var out := GatherDois(env, names).result.value;
      assert out == before + [DoiOf(ItemOf(env, pn)).value];
      forall i | 0 <= i < |names| ensures Ok(out[i]) == DoiOf(ItemOf(env, names[i])) {
        if i < |init| {
          assert out[i] == before[i] && init[i] == names[i];
        }
      }
    }
  }

  /** When no name has an item, nothing is kept and no DOI section is shown. */
  lemma {:induction false} GatherDoisNone(env: Env, names: seq<Value>)
    requires GatherDois(env, names).result.Ok?
    requires forall i :: 0 <= i < |names| ==> !HasItem(env, names[i])
    ensures GatherDois(env, names).result.value == []
    ensures GetDois(env, names).result == Ok([])
    decreases |names|
  {
    if names != [] {
      var init := names[..|names| - 1];
      assert forall i :: 0 <= i < |init| ==> init[i] == names[i];
      GatherDoisLast(env, names);
      GatherDoisNone(env, init);
    }
  }

  /** `get_dois`, with its two loops: the lookups, then the rows. */
  method ShowDois(env: Env, names: seq<Value>) returns (o: Outcome<seq<Section>>)
    ensures o == GetDois(env, names)
  {
    var out: seq<DoiEntry> := [];
    var trace: seq<Request> := [];
    for i := 0 to |names|
      invariant GatherDois(env, names[..i]) == Outcome(Ok(out), trace)
    {
      assert names[..i + 1][..i] == names[..i];
      var pn := names[i];
      var req := DoiRequest(pn);
      var reply := env.store(req);
      trace := trace + [req];
      if reply.Raised? {
        assert names[..i + 1][i] == pn;
        assert GatherDois(env, names[..i + 1]).result.Err?;
        GatherStops(env, names, i + 1);
        return Outcome(Err(StoreFault(reply.message)), trace);
      }
      if reply.items != [] && reply.items[0] != map[] {
        var d := DoiOf(reply.items[0]);
        if d.Err? {
          GatherStops(env, names, i + 1);
          return Outcome(Err(d.error), trace);
        }
        out := out + [d.value];
      }
    }
    assert names[..|names|] == names;
    if out == [] {
      return Outcome(Ok([]), trace);
    }
    ghost var rs := seq(|out|, i requires 0 <= i < |out| => DoiRow(out[i]));
    var rows: seq<(string, string, Cell)> := [];
    for i := 0 to |out|
      invariant |rows| == i
      invariant forall j :: 0 <= j < i ==> rs[j] == Ok(rows[j])
    {
      var row := DoiRow(out[i]);
      if row.Err? {
        CollectStops(rs, i);
        return Outcome(Err(row.error), trace);
      }
      rows := rows + [row.value];
    }
    CollectAll(rs, rows);
    return Outcome(Ok([Dois(DoiTable, rows)]), trace);
  }

  /** An item's entry cannot raise a store fault. */
  lemma DoiOfLocal(item: Record)
    ensures Local(DoiOf(item))
  {
  }

  /**
   * The gathering aborts on a store exception: it completes only when no
   * lookup raised, and a store fault comes from the last name looked up.
   */
  lemma {:induction false} GatherDoisAborts(env: Env, names: seq<Value>)
    ensures Aborts(env, GatherDois(env, names))
    decreases |names|
  {
    if names != [] {
      var before := GatherDois(env, names[..|names| - 1]);
      GatherDoisAborts(env, names[..|names| - 1]);
      if before.result.Ok? {
        var pn := names[|names| - 1];
        var o := Ask(env, DoiRequest(pn));
        if o.result.Ok? && HasItem(env, pn) {
          DoiOfLocal(o.result.value[0]);
        }
        var last := Outcome(GatherDois(env, names).result, o.trace);
        assert Aborts(env, last);
        AbortsThen(env, before, last, last.result);
      }
    }
  }

  /** `get_dois` aborts on a store exception: a DOI table is shown only when no lookup raised. */
  lemma DoisAborts(env: Env, names: seq<Value>)
    ensures Aborts(env, GetDois(env, names))
  {
    var g := GatherDois(env, names);
    GatherDoisAborts(env, names);
    if g.result.Ok? && g.result.value != [] {
      var out := g.result.value;
      var rs := seq(|out|, i requires 0 <= i < |out| => DoiRow(out[i]));
      assert forall i :: 0 <= i < |rs| ==> Local(rs[i]);
      CollectLocal(rs);
    }
    if g.result.Err? {
      AbortsAs(env, g, GetDois(env, names).result);
    } else {
      AbortsClean(env, g, GetDois(env, names).result);
    }
  }

  /** Once a prefix of the names fails, the whole gathering fails with the same fault and requests. */
  lemma {:induction false} GatherStops(env: Env, names: seq<Value>, i: nat)
    requires i <= |names| && GatherDois(env, names[..i]).result.Err?
    ensures GatherDois(env, names) == GatherDois(env, names[..i])
    decreases |names| - i
  {
    if i < |names| {
      assert names[..i + 1][..i] == names[..i];
      GatherStops(env, names, i + 1);
    } else {
      assert names[..i] == names;
    }
  }

  // ---------------------------------------------------------------------------
  // get_published_versioned

  /** Whether a definition is the code as written or with the fault it evidently does not intend removed. */
  datatype Build = AsWritten | Corrected

  /** The published-data table of the version chosen with none requested. */
  function PvTable(versions: seq<string>): string {
    PublishedPrefix + Selected(versions, "")
  }

  /** The sort-key query for the part of the key after its last ':'. */
  function PvRequest(versions: seq<string>, key: string): Request {
    QueryItems(PvTable(versions), [("itemType", Str("searchString")), ("searchKey", Str(AfterLast(key, ':')))])
  }

  /** The body IDs of each item and the name kept: `name` is set from an item while it is still falsy. */
  function PvRows(rows: seq<Record>): Result<(seq<seq<string>>, Value), Fault>
    decreases |rows|
  {
    if rows == [] then Ok(([], Str("")))
    else match PvRows(rows[..|rows| - 1])
      case Err(e) => Err(e)
      case Ok((ids, name)) =>
        var row := rows[|rows| - 1];
        if !Truthy(name) && "name" !in row then Err(KeyFault("name"))
        else
          var name' := if Truthy(name) then name else row["name"];
          if "bodyIDs" !in row then Err(KeyFault("bodyIDs"))
          else match Texts(row["bodyIDs"])
            case Err(e) => Err(e)
            case Ok(ts) => Ok((ids + [ts], name'))
  }

  /** The body-ID section and the name found. */
  datatype Versioned = Versioned(sections: seq<Section>, name: Value)

  /**
   * `get_published_versioned(key)`, given the distinct versions on record.
   * A failed query yields nothing and the name ''. An empty answer makes
   * `get_dynamodb` return None, which the loop cannot iterate as written;
   * corrected, it is an empty body-ID list.
   */
  function PublishedVersioned(env: Env, key: string, versions: seq<string>, build: Build): (o: Outcome<Versioned>)
    ensures o.trace == [PvRequest(versions, key)]
  {
    var o := Ask(env, PvRequest(versions, key));
    if o.result.Err? then Outcome(Ok(Versioned([], Str(""))), o.trace)
    else Outcome(PvShown(PvTable(versions), o.result.value, build), o.trace)
  }

  /** The body-ID section of the items answered, and the name found. */
  function PvShown(table: string, rows: seq<Record>, build: Build): Result<Versioned, Fault> {
    if rows == [] then
      if build == AsWritten then Err(TypeFault("'NoneType' object is not iterable"))
      else Ok(Versioned([BodyIds(table, [])], Str("")))
    else match PvRows(rows)
      case Err(e) => Err(e)
      case Ok((ids, name)) => Ok(Versioned([BodyIds(table, ids)], name))
  }

  /** A shown answer is one body-ID table. */
  lemma PvShownOne(table: string, rows: seq<Record>, build: Build)
    requires PvShown(table, rows, build).Ok?
    ensures |PvShown(table, rows, build).value.sections| == 1 && PvShown(table, rows, build).value.sections[0].BodyIds?
  {
  }

  /** Every item that is read contributes the text of its body IDs, in order. */
  lemma {:induction false} PvRowsIds(rows: seq<Record>)
    requires PvRows(rows).Ok?
    ensures var ids := PvRows(rows).value.0;
      |ids| == |rows| &&
      forall i :: 0 <= i < |rows| ==> "bodyIDs" in rows[i] && Texts(rows[i]["bodyIDs"]) == Ok(ids[i])
    decreases |rows|
  {
    if rows != [] {
      var init := rows[..|rows| - 1];
      PvRowsIds(init);
      assert forall i :: 0 <= i < |init| ==> init[i] == rows[i];
    }
  }

  /** When no item has a truthy name, the name is that of the last item ('' when there are none). */
  lemma {:induction false} PvNameNoneTruthy(rows: seq<Record>)
    requires PvRows(rows).Ok?
    requires forall i :: 0 <= i < |rows| ==> "name" in rows[i] && !Truthy(rows[i]["name"])
    ensures PvRows(rows).value.1 == if rows == [] then Str("") else rows[|rows| - 1]["name"]
    decreases |rows|
  {
    if rows != [] {
      var init := rows[..|rows| - 1];
      assert forall i :: 0 <= i < |init| ==> init[i] == rows[i];
      PvNameNoneTruthy(init);
    }
  }

  /** The `j`-th item carries the first truthy name: every item before it has a falsy one. */
  predicate FirstNameAt(rows: seq<Record>, j: nat) {
    && j < |rows| && "name" in rows[j] && Truthy(rows[j]["name"])
    && forall i :: 0 <= i < j ==> "name" in rows[i] && !Truthy(rows[i]["name"])
  }

  /** The name kept is the first truthy name, when some item has one. */
  lemma {:induction false} PvNameFirstTruthy(rows: seq<Record>, j: nat)
    requires PvRows(rows).Ok?
    requires FirstNameAt(rows, j)
    ensures PvRows(rows).value.1 == rows[j]["name"]
    decreases |rows|
  {
    var init := rows[..|rows| - 1];
    assert forall i :: 0 <= i < |init| ==> init[i] == rows[i];
    if j == |rows| - 1 {
      PvNameNoneTruthy(init);
    } else {
      PvNameFirstTruthy(init, j);
    }
  }

  /** When the items answer and can be read, the name found is the first truthy one. */
  lemma PvNameAnswered(env: Env, key: string, versions: seq<string>, build: Build, rows: seq<Record>, j: nat)
    requires env.store(PvRequest(versions, key)) == Rows(rows)
    requires PvRows(rows).Ok?
    requires FirstNameAt(rows, j)
    ensures PublishedVersioned(env, key, versions, build).result.Ok?
    ensures PublishedVersioned(env, key, versions, build).result.value.name == rows[j]["name"]
  {
    PvNameFirstTruthy(rows, j);
    assert PublishedVersioned(env, key, versions, build).result == PvShown(PvTable(versions), rows, build);
  }

  /** The loop of `get_published_versioned` over the items. */
  method PvLoop(rows: seq<Record>) returns (r: Result<(seq<seq<string>>, Value), Fault>)
    ensures r == PvRows(rows)
  {
    var name := Str("");
    var ids: seq<seq<string>> := [];
    for i := 0 to |rows|
      invariant PvRows(rows[..i]) == Ok((ids, name))
    {
      assert rows[..i + 1][..i] == rows[..i];
      var row := rows[i];
      if !Truthy(name) {
        if "name" !in row {
          PvStops(rows, i + 1);
          return Err(KeyFault("name"));
        }
        name := row["name"];
      }
      if "bodyIDs" !in row {
        PvStops(rows, i + 1);
        return Err(KeyFault("bodyIDs"));
      }
      var ts := Texts(row["bodyIDs"]);
      if ts.Err? {
        PvStops(rows, i + 1);
        return Err(ts.error);
      }
      ids := ids + [ts.value];
    }
    assert rows[..|rows|] == rows;
    return Ok((ids, name));
  }

  /** Once a prefix of the items fails, the whole loop fails with the same fault. */
  lemma {:induction false} PvStops(rows: seq<Record>, i: nat)
    requires i <= |rows| && PvRows(rows[..i]).Err?
    ensures PvRows(rows) == PvRows(rows[..i])
    decreases |rows| - i
  {
    if i < |rows| {
      assert rows[..i + 1][..i] == rows[..i];
      PvStops(rows, i + 1);
    } else {
      assert rows[..i] == rows;
    }
  }

  /** `get_published_versioned`: the query, then the loop over what it answered. */
  method ShowPublishedVersioned(env: Env, key: string, versions: seq<string>, build: Build) returns (o: Outcome<Versioned>)
    ensures o == PublishedVersioned(env, key, versions, build)
  {
    var req := PvRequest(versions, key);
    var reply := env.store(req);
    if reply.Raised? {
      return Outcome(Ok(Versioned([], Str(""))), [req]);
    }
    var shown := ShowBodyIds(PvTable(versions), reply.items, build);
    return Outcome(shown, [req]);
  }

  /** The body-ID section of the items answered. */
  method ShowBodyIds(table: string, rows: seq<Record>, build: Build) returns (r: Result<Versioned, Fault>)
    ensures r == PvShown(table, rows, build)
  {
    if rows == [] {
      if build == AsWritten {
        return Err(TypeFault("'NoneType' object is not iterable"));
      }
      return Ok(Versioned([BodyIds(table, [])], Str("")));
    }
    var found := PvLoop(rows);
    if found.Err? {
      return Err(found.error);
    }
    return Ok(Versioned([BodyIds(table, found.value.0)], found.value.1));
  }

  /**
   * As written, a key with no published-versioned item makes the lookup
   * raise; corrected, it yields an empty body-ID list and no name.
   */
  lemma PvEmptyAnswer(env: Env, key: string, versions: seq<string>)
    requires env.store(PvRequest(versions, key)) == Rows([])
    ensures PublishedVersioned(env, key, versions, AsWritten).result.Err?
    ensures PublishedVersioned(env, key, versions, AsWritten).result.error == TypeFault("'NoneType' object is not iterable")
    ensures PublishedVersioned(env, key, versions, Corrected).result == Ok(Versioned([BodyIds(PvTable(versions), [])], Str("")))
  {
    var table := PvTable(versions);
    assert PublishedVersioned(env, key, versions, AsWritten).result == PvShown(table, [], AsWritten);
    assert PublishedVersioned(env, key, versions, Corrected).result == PvShown(table, [], Corrected);
  }

  /** A failing published-versioned query is swallowed: no section, the name '', and only the one request. */
  lemma PvFailureSwallowed(env: Env, key: string, versions: seq<string>, build: Build)
    requires env.store(PvRequest(versions, key)).Raised?
    ensures PublishedVersioned(env, key, versions, build) == Outcome(Ok(Versioned([], Str(""))), [PvRequest(versions, key)])
  {
  }

  /** The query uses the table of the last version listed, and the part of the key after its last ':'. */
  lemma PvQueryShape(key: string, versions: seq<string>)
    ensures |versions| > 1 ==> PvRequest(versions, key).table == PublishedPrefix + versions[|versions| - 1]
    ensures ':' !in key ==> PvRequest(versions, key).conditions[1].1 == Str(key)
  {
    SelectedCases(versions, "");
    var r := AfterLast(key, ':');
    assert |r| < |key| ==> key[|key| - |r| - 1] in key;
  }
}
