/**
 * What a report of `run_search` can hold, for every store: the tables each
 * search type looks up, in order, one not-found line or table each, and the
 * kinds of section each type's lookups add beside them.
 */
module Reports {
  import opened Wrappers
  import opened Text
  import opened Queries
  import opened Values
  import opened Keys
  import opened Backend
  import opened Sections
  import Jacs
  import Emb
  import NmdPurl
  import Pli
  import S3Check
  import Lookups
  import opened Search

  /**
   * The tables a search type looks up, in order: fly-light types read the
   * sample and image tables, then the metadata, publishedURL and
   * publishedLMImage; a Body ID reads emBody, the metadata and
   * publishedURL; neuron types read emBody and the metadata only.
   */
  function LookedUpTables(t: SearchType): seq<string> {
    if IsFlyLight(t) then ["sample", "image", "neuronMetadata", "publishedURL", "publishedLMImage"]
    else if IsNeuron(t) then ["emBody", "neuronMetadata"]
    else ["emBody", "neuronMetadata", "publishedURL"]
  }

  /** The tables read before the metadata: sample and image, or emBody. */
  function SourceTables(t: SearchType): seq<string> {
    if IsFlyLight(t) then ["sample", "image"] else ["emBody"]
  }

  /** The tables read after the sources: the metadata tables, then publishedLMImage for fly-light types. */
  function LaterTables(t: SearchType): seq<string> {
    if IsFlyLight(t) then ["neuronMetadata", "publishedURL", "publishedLMImage"]
    else if IsNeuron(t) then ["neuronMetadata"]
    else ["neuronMetadata", "publishedURL"]
  }

  lemma TablesSplit(t: SearchType)
    ensures LookedUpTables(t) == SourceTables(t) + LaterTables(t)
  {
  }

  /** The tables of the not-found lines and tables among the sections, in order. */
  function Headed(ss: seq<Section>): seq<string> {
    if ss == [] then []
    else (if ss[0].NotFound? || ss[0].Table? then [ss[0].table] else []) + Headed(ss[1..])
  }

  lemma {:induction false} HeadedAppend(a: seq<Section>, b: seq<Section>)
    ensures Headed(a + b) == Headed(a) + Headed(b)
    decreases |a|
  {
    if a != [] {
      assert (a + b)[0] == a[0] && (a + b)[1..] == a[1..] + b;
      HeadedAppend(a[1..], b);
    } else {
      assert a + b == b;
    }
  }

  /**
   * A section a search of type `t` can show: a not-found line or table of
   * one of its tables, the uploads of publishedURL (not for neuron types)
   * or of publishedLMImage (fly-light types), the stacks releases
   * (fly-light types), skeletons and annotations (Body ID), DOIs (not for
   * neuron types), and the body IDs of the versioned table (neuron types).
   */
  predicate Fits(t: SearchType, versions: seq<string>, s: Section) {
    match s
    case NotFound(_, _, table) => table in LookedUpTables(t)
    case Table(table, _, _, _) => table in LookedUpTables(t)
    case Uploads(table, _, _, _) =>
      (table == "publishedURL" && !IsNeuron(t)) || (table == "publishedLMImage" && IsFlyLight(t))
    case Stacks(_) => IsFlyLight(t)
    case Skeletons(table, _) => t == BodyId && table == Lookups.SkeletonsTable
    case Annotations(table, _) => t == BodyId && table == Lookups.CustomTable
    case Dois(table, _) => !IsNeuron(t) && table == Lookups.DoiTable
    case BodyIds(table, _) => IsNeuron(t) && table == Lookups.PvTable(versions)
  }

  predicate AllFit(t: SearchType, versions: seq<string>, ss: seq<Section>) {
    forall i :: 0 <= i < |ss| ==> Fits(t, versions, ss[i])
  }

  /** The sections of a search: its tables in order, and nothing it cannot show. */
  predicate Shows(t: SearchType, versions: seq<string>, ss: seq<Section>, tables: seq<string>) {
    Headed(ss) == tables && AllFit(t, versions, ss)
  }

  lemma ShowsAppend(t: SearchType, versions: seq<string>, a: seq<Section>, b: seq<Section>, ta: seq<string>, tb: seq<string>)
    requires Shows(t, versions, a, ta) && Shows(t, versions, b, tb)
    ensures Shows(t, versions, a + b, ta + tb)
  {
    HeadedAppend(a, b);
  }

  // ---------------------------------------------------------------------------
  // Each lookup on its own.

  lemma JacsShows(env: Env, key: string, t: SearchType, versions: seq<string>, table: string)
    requires IsFlyLight(t) && (table == "sample" || table == "image")
    requires t == Sample && table == "sample" ==> IsDigits(key)
    requires Jacs.JacsLookup(env, key, t, table).result.Ok?
    ensures Shows(t, versions, Jacs.JacsLookup(env, key, t, table).result.value.0, [table])
  {
  }

  lemma EmbShows(env: Env, key: string, t: SearchType, versions: seq<string>)
    requires !IsFlyLight(t)
    requires Emb.EmbLookup(env, key, t).result.Ok?
    ensures Shows(t, versions, Emb.EmbLookup(env, key, t).result.value, ["emBody"])
  {
  }

  /** The uploads check adds at most the uploads of the table it ran on, which is publishedURL. */
  lemma UploadsShows(env: Env, rows: seq<Record>, table: string, out: NmdPurl.NmdOut)
    requires NmdPurl.WithUploads(env, rows, table, out).result.Ok?
    ensures var r := NmdPurl.WithUploads(env, rows, table, out).result.value;
      r.sections == out.sections ||
      (table == "publishedURL" && exists u: Section :: u.Uploads? && u.table == table && r.sections == out.sections + [u])
  {
    var r := NmdPurl.WithUploads(env, rows, table, out).result.value;
    if r.sections != out.sections {
      var u := r.sections[|r.sections| - 1];
      assert r.sections == out.sections + [u];
    }
  }

  /** A metadata lookup adds its table's not-found line or table, then at most the uploads of publishedURL. */
  lemma NmdShape(env: Env, key: string, t: SearchType, table: string)
    requires NmdPurl.NmdLookup(env, key, t, table).result.Ok?
    ensures var ss := NmdPurl.NmdLookup(env, key, t, table).result.value.sections;
      && 1 <= |ss| <= 2
      && (ss[0].NotFound? || ss[0].Table?) && ss[0].table == table
      && (|ss| == 2 ==> ss[1].Uploads? && ss[1].table == table && table == "publishedURL")
  {
    var o := Ask(env, Find("neuronbridge", table, NmdQuery(key, t, table)));
    var rows := o.result.value;
    if rows != [] {
      var out := NmdPurl.NmdShow(rows, t, table).value;
      UploadsShows(env, rows, table, out);
    }
  }

  lemma NmdShows(env: Env, key: string, t: SearchType, versions: seq<string>, table: string)
    requires table == "neuronMetadata" || (table == "publishedURL" && !IsNeuron(t))
    requires table in LookedUpTables(t)
    requires NmdPurl.NmdLookup(env, key, t, table).result.Ok?
    ensures Shows(t, versions, NmdPurl.NmdLookup(env, key, t, table).result.value.sections, [table])
  {
    NmdShape(env, key, t, table);
    HeadedThenUploads(t, versions, NmdPurl.NmdLookup(env, key, t, table).result.value.sections, table);
  }

  /** A not-found line or table of one of the type's tables, then at most the uploads of publishedURL. */
  lemma HeadedThenUploads(t: SearchType, versions: seq<string>, ss: seq<Section>, table: string)
    requires 1 <= |ss| <= 2 && (ss[0].NotFound? || ss[0].Table?) && ss[0].table == table && table in LookedUpTables(t)
    requires |ss| == 2 ==> ss[1].Uploads? && ss[1].table == "publishedURL" && !IsNeuron(t)
    ensures Shows(t, versions, ss, [table])
  {
    assert Headed(ss[1..]) == [] by {
      if |ss| == 2 {
        assert ss[1..][0] == ss[1] && ss[1..][1..] == [];
      }
    }
  }

  /** A publishedLMImage lookup adds its not-found line, or its table, its uploads and at most the stacks releases. */
  lemma PliShape(env: Env, key: string, t: SearchType, release: Value)
    requires Pli.PliLookup(env, key, t, release).result.Ok?
    ensures var ss := Pli.PliLookup(env, key, t, release).result.value;
      || ss == [NotFound(Name(t), key, "publishedLMImage")]
      || (&& 2 <= |ss| <= 3
          && ss[0].Table? && ss[0].table == "publishedLMImage"
          && ss[1].Uploads? && ss[1].table == "publishedLMImage"
          && (|ss| == 3 ==> ss[2].Stacks?))
  {
    var o := Ask(env, Find("neuronbridge", "publishedLMImage", PliQuery(key, t)));
    if o.result.Ok? && o.result.value != [] {
      var rows := o.result.value;
      var f := Pli.PliFold(env, rows, t, release, Pli.PliAcc([], S3Check.Fresh, []), o.trace);
      PliSectionsShape(|rows|, f.result.value);
    }
  }

  /** The table and the uploads, then the stacks releases when any were kept. */
  lemma PliSectionsShape(n: nat, acc: Pli.PliAcc)
    ensures var shown := [Table("publishedLMImage", n, PliHeaders, acc.cells),
                          Uploads("publishedLMImage", acc.s3.outs, acc.s3.notFound, acc.s3.other)];
      var ss := if acc.ddb == [] then shown else shown + [Stacks(acc.ddb)];
      && 2 <= |ss| <= 3
      && ss[0].Table? && ss[0].table == "publishedLMImage"
      && ss[1].Uploads? && ss[1].table == "publishedLMImage"
      && (|ss| == 3 ==> ss[2].Stacks?)
  {
  }

  lemma PliShows(env: Env, key: string, t: SearchType, versions: seq<string>, release: Value)
    requires IsFlyLight(t)
    requires Pli.PliLookup(env, key, t, release).result.Ok?
    ensures Shows(t, versions, Pli.PliLookup(env, key, t, release).result.value, ["publishedLMImage"])
  {
    PliShape(env, key, t, release);
    var ss := Pli.PliLookup(env, key, t, release).result.value;
    assert Headed(ss) == ["publishedLMImage"] by {
      if |ss| >= 2 {
        assert Headed(ss[2..]) == [] by {
          if |ss| == 3 {
            assert ss[2..][1..] == [];
          }
        }
        assert ss[1..][1..] == ss[2..];
      }
    }
  }

  /** The skeletons and annotations of a Body ID: no table heading, only those two kinds. */
  lemma BodyExtrasShows(env: Env, key: string, names: Option<seq<Value>>, build: Lookups.Build, versions: seq<string>)
    requires BodyExtras(env, key, names, build).result.Ok?
    ensures Shows(BodyId, versions, BodyExtras(env, key, names, build).result.value, [])
  {
    var c := Lookups.GetCustom(env, key);
    assert c.result.Ok? ==> Shows(BodyId, versions, c.result.value, []);
    if names.Some? && names.value != [] {
      var s := Lookups.GetSkeletons(env, names.value[0]);
      assert Shows(BodyId, versions, s.result.value, []);
      ShowsAppend(BodyId, versions, s.result.value, c.result.value, [], []);
    }
  }

  lemma DoisShows(env: Env, names: seq<Value>, t: SearchType, versions: seq<string>)
    requires !IsNeuron(t)
    requires Lookups.GetDois(env, names).result.Ok?
    ensures Shows(t, versions, Lookups.GetDois(env, names).result.value, [])
  {
  }

  lemma VersionedShows(env: Env, key: string, t: SearchType, versions: seq<string>, build: Lookups.Build)
    requires Versioned(env, key, t, versions, build).result.Ok?
    ensures Shows(t, versions, Versioned(env, key, t, versions, build).result.value.sections, [])
  {
    if IsNeuron(t) {
      var o := Ask(env, Lookups.PvRequest(versions, Lower(key)));
      if o.result.Ok? {
        Lookups.PvShownOne(Lookups.PvTable(versions), o.result.value, build);
      }
    }
  }

  // ---------------------------------------------------------------------------
  // The steps of the pipeline.

  lemma SourcesShows(env: Env, key: string, t: SearchType, versions: seq<string>)
    requires t == Sample ==> IsDigits(key)
    requires Sources(env, key, t).result.Ok?
    ensures Shows(t, versions, Sources(env, key, t).result.value, SourceTables(t))
  {
    if IsFlyLight(t) {
      var j := Jacs.JacsLookup(env, key, t, "sample");
      var img := Jacs.JacsLookup(env, SampleKey(env, key, t), t, "image");
      JacsShows(env, key, t, versions, "sample");
      JacsShows(env, SampleKey(env, key, t), t, versions, "image");
      ShowsAppend(t, versions, j.result.value.0, img.result.value.0, ["sample"], ["image"]);
    } else {
      EmbShows(env, key, t, versions);
    }
  }

  /** The metadata sections: the neuronMetadata table, then the versioned sections or publishedURL. */
  lemma MetadataShows(env: Env, key: string, t: SearchType, versions: seq<string>, versioned: seq<Section>)
    requires Shows(t, versions, versioned, [])
    requires Metadata(env, key, t, versioned).result.Ok?
    ensures Shows(t, versions, Metadata(env, key, t, versioned).result.value.sections,
      if IsNeuron(t) then ["neuronMetadata"] else ["neuronMetadata", "publishedURL"])
  {
    var n := NmdPurl.NmdLookup(env, key, t, "neuronMetadata");
    NmdShows(env, key, t, versions, "neuronMetadata");
    if IsNeuron(t) {
      ShowsAppend(t, versions, n.result.value.sections, versioned, ["neuronMetadata"], []);
    } else {
      var p := NmdPurl.NmdLookup(env, key, t, "publishedURL");
      NmdShows(env, key, t, versions, "publishedURL");
      ShowsAppend(t, versions, n.result.value.sections, p.result.value.sections, ["neuronMetadata"], ["publishedURL"]);
    }
  }

  /** The extras: publishedLMImage for fly-light types, nothing headed otherwise. */
  lemma ExtrasShows(env: Env, key: string, t: SearchType, versions: seq<string>, meta: Meta, build: Lookups.Build)
    requires IsNeuron(t) ==> meta.names.None?
    requires Extras(env, key, t, meta, build).result.Ok?
    ensures Shows(t, versions, Extras(env, key, t, meta, build).result.value,
      if IsFlyLight(t) then ["publishedLMImage"] else [])
  {
    var first :=
      if IsFlyLight(t) then Pli.PliLookup(env, key, t, meta.release)
      else if t == BodyId then BodyExtras(env, key, meta.names, build)
      else Outcome(Ok([]), []);
    var tables := if IsFlyLight(t) then ["publishedLMImage"] else [];
    assert first.result.Ok?;
    if IsFlyLight(t) {
      PliShows(env, key, t, versions, meta.release);
    } else if t == BodyId {
      BodyExtrasShows(env, key, meta.names, build, versions);
    }
    if meta.names.Some? && meta.names.value != [] {
      var d := Lookups.GetDois(env, meta.names.value);
      DoisShows(env, meta.names.value, t, versions);
      ShowsAppend(t, versions, first.result.value, d.result.value, tables, []);
      assert tables + [] == tables;
    }
  }

  /** The metadata of a neuron type passes no publishing names on. */
  lemma NeuronMetaUnnamed(env: Env, key: string, t: SearchType, versioned: seq<Section>)
    requires IsNeuron(t) && Metadata(env, key, t, versioned).result.Ok?
    ensures Metadata(env, key, t, versioned).result.value.names.None?
  {
  }

  lemma DescribedShows(env: Env, key: string, t: SearchType, versions: seq<string>, versioned: seq<Section>, build: Lookups.Build)
    requires Shows(t, versions, versioned, [])
    requires Described(env, key, t, versioned, build).result.Ok?
    ensures Shows(t, versions, Described(env, key, t, versioned, build).result.value, LaterTables(t))
  {
    DescribedSplit(env, key, t, versioned, build);
    var m := Metadata(env, key, t, versioned);
    MetadataShows(env, key, t, versions, versioned);
    if IsNeuron(t) {
      NeuronMetaUnnamed(env, key, t, versioned);
    }
    var x := Extras(env, key, t, m.result.value, build);
    ExtrasShows(env, key, t, versions, m.result.value, build);
    ShowsAppend(t, versions, m.result.value.sections, x.result.value,
      if IsNeuron(t) then ["neuronMetadata"] else ["neuronMetadata", "publishedURL"],
      if IsFlyLight(t) then ["publishedLMImage"] else []);
  }

  /** The guarded block that goes through: the sources, then the rest under the key the sample table leaves. */
  lemma GuardedSplit(env: Env, k0: string, t: SearchType, versioned: seq<Section>, build: Lookups.Build)
    requires t == Sample ==> IsDigits(k0)
    requires Guarded(env, k0, t, versioned, build).result.Ok?
    ensures Sources(env, k0, t).result.Ok?
    ensures Described(env, SampleKey(env, k0, t), t, versioned, build).result.Ok?
    ensures Guarded(env, k0, t, versioned, build).result.value ==
      Sources(env, k0, t).result.value + Described(env, SampleKey(env, k0, t), t, versioned, build).result.value
  {
  }

  lemma GuardedShows(env: Env, k0: string, t: SearchType, versions: seq<string>, versioned: seq<Section>, build: Lookups.Build)
    requires t == Sample ==> IsDigits(k0)
    requires Shows(t, versions, versioned, [])
    requires Guarded(env, k0, t, versioned, build).result.Ok?
    ensures Shows(t, versions, Guarded(env, k0, t, versioned, build).result.value, LookedUpTables(t))
  {
    GuardedSplit(env, k0, t, versioned, build);
    var k := SampleKey(env, k0, t);
    SourcesShows(env, k0, t, versions);
    DescribedShows(env, k, t, versions, versioned, build);
    ShowsAppend(t, versions, Sources(env, k0, t).result.value, Described(env, k, t, versioned, build).result.value,
      SourceTables(t), LaterTables(t));
    TablesSplit(t);
  }

  /**
   * Which sections run is a function of the search type: whatever the
   * stores answer, a report lists one not-found line or table for each
   * table its type looks up, in order, and otherwise only the sections
   * that type's lookups add.
   */
  lemma ResolveShows(env: Env, key: string, stype: string, versions: seq<string>, build: Lookups.Build)
    requires Resolve(env, key, stype, versions, build).page.Report?
    ensures var t := Parse(stype);
      Shows(t, versions, Resolve(env, key, stype, versions, build).page.sections, LookedUpTables(t))
  {
    var t := Parse(stype);
    var pv := Versioned(env, key, t, versions, build);
    assert !Rejected(key, t) && pv.result.Ok?;
    var v := pv.result.value;
    VersionedShows(env, key, t, versions, build);
    ResolvePage(env, key, stype, t, versions, build, v);
    GuardedShows(env, StartKey(key, t, v.name), t, versions, v.sections, build);
  }
}
