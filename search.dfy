/**
 * `run_search(key, stype)`: validate the key, normalise it, run the lookups
 * of the search type in order, and render either the report or the error
 * page of the first lookup that raises.
 */
module Search {
  import opened Wrappers
  import opened Text
  import opened Values
  import opened Keys
  import opened Queries
  import opened Backend
  import opened Sections
  import Jacs
  import Emb
  import NmdPurl
  import Pli
  import Lookups

  /** Why an error page is shown: a key the digit rules reject, or a lookup that raised. */
  datatype Reason = InvalidKey(message: string) | QueryFailed(fault: Fault)

  /**
   * What the browser receives: the report, the error page, or the server's
   * own error for an exception raised outside the guarded lookups.
   */
  datatype Page =
    | Report(title: string, sections: seq<Section>)
    | ErrorPage(title: string, reason: Reason)
    | ServerError(fault: Fault)

  /** The page and every request sent to produce it, in order. */
  datatype Resolution = Resolution(page: Page, trace: seq<Request>)

  /** The error page of a key the digit rules reject. */
  function Invalid(key: string, stype: string): Page {
    ErrorPage("Invalid " + stype, InvalidKey(key + " is not a valid " + stype))
  }

  /** The error page of a lookup that raised, naming the key in use at the time. */
  function Failure(stype: string, key: string, fault: Fault): Page {
    ErrorPage("Error querying " + stype + " " + key, QueryFailed(fault))
  }

  /** The key once the sample table has been read: a publishing-name search adopts the name it reports. */
  function SampleKey(env: Env, key: string, t: SearchType): string
    requires t == Sample ==> IsDigits(key)
  {
    if !IsFlyLight(t) then key
    else
      var j := Jacs.JacsLookup(env, key, t, "sample");
      if j.result.Ok? && t == PublishingName && j.result.value.1 != "" then j.result.value.1 else key
  }

  /** The first lookups: the sample and image tables for fly-light types, the emBody table otherwise. */
  function Sources(env: Env, key: string, t: SearchType): Outcome<seq<Section>>
    requires t == Sample ==> IsDigits(key)
  {
    if IsFlyLight(t) then
      var j := Jacs.JacsLookup(env, key, t, "sample");
      if j.result.Err? then Outcome(Err(j.result.error), j.trace)
      else
        var img := Jacs.JacsLookup(env, SampleKey(env, key, t), t, "image");
        if img.result.Err? then Outcome(Err(img.result.error), j.trace + img.trace)
        else Outcome(Ok(j.result.value.0 + img.result.value.0), j.trace + img.trace)
    else Emb.EmbLookup(env, key, t)
  }

  /** What the metadata lookups yield: their sections, the release and the publishing names. */
  datatype Meta = Meta(sections: seq<Section>, release: Value, names: Option<seq<Value>>)

  /**
   * neuronMetadata, then either the published-versioned sections (neuron
   * types, which have no release and no names) or publishedURL.
   */
  function Metadata(env: Env, key: string, t: SearchType, versioned: seq<Section>): Outcome<Meta> {
    var n := NmdPurl.NmdLookup(env, key, t, "neuronMetadata");
    if n.result.Err? then Outcome(Err(n.result.error), n.trace)
    else if IsNeuron(t) then Outcome(Ok(Meta(n.result.value.sections + versioned, Str(""), None)), n.trace)
    else
      var p := NmdPurl.NmdLookup(env, key, t, "publishedURL");
      if p.result.Err? then Outcome(Err(p.result.error), n.trace + p.trace)
      else
        var out := p.result.value;
        Outcome(Ok(Meta(n.result.value.sections + out.sections, out.release, out.names)), n.trace + p.trace)
  }

  /**
   * A Body ID's skeletons, looked up under the first publishing name, then
   * its custom annotations. As written, a Body ID publishedURL does not know
   * has no names to index; corrected, the skeletons are skipped.
   */
  function BodyExtras(env: Env, key: string, names: Option<seq<Value>>, build: Lookups.Build): Outcome<seq<Section>> {
    if names.None? then
      if build == Lookups.AsWritten then Outcome(Err(TypeFault("'NoneType' object is not subscriptable")), [])
      else Lookups.GetCustom(env, key)
    else if names.value == [] then Outcome(Err(IndexFault("list index out of range")), [])
    else
      var s := Lookups.GetSkeletons(env, names.value[0]);
      if s.result.Err? then s
      else
        var c := Lookups.GetCustom(env, key);
        if c.result.Err? then Outcome(Err(c.result.error), s.trace + c.trace)
        else Outcome(Ok(s.result.value + c.result.value), s.trace + c.trace)
  }

  /** The last lookups: publishedLMImage for fly-light types, skeletons and annotations for a Body ID, then the DOIs. */
  function Extras(env: Env, key: string, t: SearchType, meta: Meta, build: Lookups.Build): Outcome<seq<Section>> {
    var first :=
      if IsFlyLight(t) then Pli.PliLookup(env, key, t, meta.release)
      else if t == BodyId then BodyExtras(env, key, meta.names, build)
      else Outcome(Ok([]), []);
    if first.result.Err? || !(meta.names.Some? && meta.names.value != []) then first
    else
      var d := Lookups.GetDois(env, meta.names.value);
      if d.result.Err? then Outcome(Err(d.result.error), first.trace + d.trace)
      else Outcome(Ok(first.result.value + d.result.value), first.trace + d.trace)
  }

  /** The published-versioned lookup of a neuron type or instance, made before the guarded lookups. */
  function Versioned(env: Env, key: string, t: SearchType, versions: seq<string>, build: Lookups.Build): (o: Outcome<Lookups.Versioned>)
    ensures o.trace == if IsNeuron(t) then [Lookups.PvRequest(versions, Lower(key))] else []
  {
    if IsNeuron(t) then Lookups.PublishedVersioned(env, Lower(key), versions, build)
    else Outcome(Ok(Lookups.Versioned([], Str(""))), [])
  }

  /** The key the guarded lookups start from: a neuron's published name when it has one, slide codes upper-cased. */
  function StartKey(key: string, t: SearchType, neuron: Value): (k: string)
    ensures t == Sample ==> k == key
  {
    Normalize(if IsNeuron(t) && Truthy(neuron) then Format(neuron) else key, t)
  }

  /**
   * The guarded lookups of `run_search`, in order, from the start key: the
   * sources, the metadata under the key the sample table leaves, then the
   * extras; the first that raises ends the block.
   */
  function Guarded(env: Env, k0: string, t: SearchType, versioned: seq<Section>, build: Lookups.Build): (o: Outcome<seq<Section>>)
    requires t == Sample ==> IsDigits(k0)
    ensures Sources(env, k0, t).trace <= o.trace
    ensures o.trace != [] &&
      o.trace[0] == if IsFlyLight(t) then Find("jacs", "sample", JacsQuery(k0, t, "sample")) else Find("jacs", "emBody", EmbQuery(k0, t))
  {
    var s := Sources(env, k0, t);
    if s.result.Err? then s
    else
      var r := Described(env, SampleKey(env, k0, t), t, versioned, build);
      if r.result.Err? then Outcome(Err(r.result.error), s.trace + r.trace)
      else Outcome(Ok(s.result.value + r.result.value), s.trace + r.trace)
  }

  /** The guarded lookups after the sources: the metadata, then the extras it calls for. */
  function Described(env: Env, k: string, t: SearchType, versioned: seq<Section>, build: Lookups.Build): Outcome<seq<Section>> {
    var m := Metadata(env, k, t, versioned);
    if m.result.Err? then Outcome(Err(m.result.error), m.trace)
    else
      var x := Extras(env, k, t, m.result.value, build);
      if x.result.Err? then Outcome(Err(x.result.error), m.trace + x.trace)
      else Outcome(Ok(m.result.value.sections + x.result.value), m.trace + x.trace)
  }

  // ---------------------------------------------------------------------------
  // Any store exception in the guarded block aborts it.

  lemma SourcesAborts(env: Env, key: string, t: SearchType)
    requires t == Sample ==> IsDigits(key)
    ensures Aborts(env, Sources(env, key, t))
  {
    if IsFlyLight(t) {
      var j := Jacs.JacsLookup(env, key, t, "sample");
      Jacs.JacsAborts(env, key, t, "sample");
      if j.result.Ok? {
        var img := Jacs.JacsLookup(env, SampleKey(env, key, t), t, "image");
        Jacs.JacsAborts(env, SampleKey(env, key, t), t, "image");
        AbortsThen(env, j, img, Sources(env, key, t).result);
      } else {
        AbortsAs(env, j, Sources(env, key, t).result);
      }
    } else {
      Emb.EmbAborts(env, key, t);
    }
  }

  lemma MetadataAborts(env: Env, key: string, t: SearchType, versioned: seq<Section>)
    ensures Aborts(env, Metadata(env, key, t, versioned))
  {
    var n := NmdPurl.NmdLookup(env, key, t, "neuronMetadata");
    NmdPurl.NmdAborts(env, key, t, "neuronMetadata");
    if n.result.Ok? && !IsNeuron(t) {
      var p := NmdPurl.NmdLookup(env, key, t, "publishedURL");
      NmdPurl.NmdAborts(env, key, t, "publishedURL");
      AbortsThen(env, n, p, Metadata(env, key, t, versioned).result);
    } else {
      AbortsAs(env, n, Metadata(env, key, t, versioned).result);
    }
  }

  lemma BodyExtrasAborts(env: Env, key: string, names: Option<seq<Value>>, build: Lookups.Build)
    ensures Aborts(env, BodyExtras(env, key, names, build))
  {
    Lookups.CustomAborts(env, key);
    if names.Some? && names.value != [] {
      var s := Lookups.GetSkeletons(env, names.value[0]);
      Lookups.SkeletonsAborts(env, names.value[0]);
      if s.result.Ok? {
        AbortsThen(env, s, Lookups.GetCustom(env, key), BodyExtras(env, key, names, build).result);
      }
    }
  }

  lemma ExtrasAborts(env: Env, key: string, t: SearchType, meta: Meta, build: Lookups.Build)
    ensures Aborts(env, Extras(env, key, t, meta, build))
  {
    var first :=
      if IsFlyLight(t) then Pli.PliLookup(env, key, t, meta.release)
      else if t == BodyId then BodyExtras(env, key, meta.names, build)
      else Outcome(Ok([]), []);
    if IsFlyLight(t) {
      Pli.PliAborts(env, key, t, meta.release);
    } else if t == BodyId {
      BodyExtrasAborts(env, key, meta.names, build);
    }
    if first.result.Ok? && meta.names.Some? && meta.names.value != [] {
      Lookups.DoisAborts(env, meta.names.value);
      AbortsThen(env, first, Lookups.GetDois(env, meta.names.value), Extras(env, key, t, meta, build).result);
    }
  }

  /**
   * The guarded block aborts on a store exception: it yields the report's
   * sections only when no request it sent raised, and a store fault is the
   * exception of the last request it sent, after none of the others raised.
   */
  lemma GuardedAborts(env: Env, k0: string, t: SearchType, versioned: seq<Section>, build: Lookups.Build)
    requires t == Sample ==> IsDigits(k0)
    ensures Aborts(env, Guarded(env, k0, t, versioned, build))
  {
    var s := Sources(env, k0, t);
    SourcesAborts(env, k0, t);
    if s.result.Ok? {
      var k := SampleKey(env, k0, t);
      DescribedAborts(env, k, t, versioned, build);
      AbortsThen(env, s, Described(env, k, t, versioned, build), Guarded(env, k0, t, versioned, build).result);
    }
  }

  lemma DescribedAborts(env: Env, k: string, t: SearchType, versioned: seq<Section>, build: Lookups.Build)
    ensures Aborts(env, Described(env, k, t, versioned, build))
  {
    var m := Metadata(env, k, t, versioned);
    MetadataAborts(env, k, t, versioned);
    if m.result.Ok? {
      ExtrasAborts(env, k, t, m.result.value, build);
      AbortsThen(env, m, Extras(env, k, t, m.result.value, build), Described(env, k, t, versioned, build).result);
    } else {
      AbortsAs(env, m, Described(env, k, t, versioned, build).result);
    }
  }

  /** `run_search(key, stype)`, given the distinct published-data versions on record. */
  function Resolve(env: Env, key: string, stype: string, versions: seq<string>, build: Lookups.Build): Resolution {
    var t := Parse(stype);
    if Rejected(key, t) then Resolution(Invalid(key, stype), [])
    else
      var pv := Versioned(env, key, t, versions, build);
      if pv.result.Err? then Resolution(ServerError(pv.result.error), pv.trace)
      else
        var k0 := StartKey(key, t, pv.result.value.name);
        var g := Guarded(env, k0, t, pv.result.value.sections, build);
        var k := SampleKey(env, k0, t);
        var page := if g.result.Err? then Failure(stype, k, g.result.error) else Report(stype + " " + k, g.result.value);
        Resolution(page, pv.trace + g.trace)
  }

  // ---------------------------------------------------------------------------
  // What a search sends and shows.

  /**
   * A key the digit rules reject is answered with the invalid-key page and
   * no request; every other key is looked up, and its page never says the
   * key is invalid.
   */
  lemma InvalidExactly(env: Env, key: string, stype: string, versions: seq<string>, build: Lookups.Build)
    ensures var r := Resolve(env, key, stype, versions, build);
      r.page.ErrorPage? && r.page.reason.InvalidKey? <==> Rejected(key, Parse(stype))
    ensures Rejected(key, Parse(stype)) ==>
      Resolve(env, key, stype, versions, build) ==
        Resolution(ErrorPage("Invalid " + stype, InvalidKey(key + " is not a valid " + stype)), [])
  {
  }

  /**
   * A search past the key checks whose published-versioned step answered
   * `v`: the published-versioned request (neuron types only), then the
   * guarded block from the start key.
   */
  lemma ResolveTrace(env: Env, key: string, stype: string, t: SearchType, versions: seq<string>, build: Lookups.Build, v: Lookups.Versioned)
    requires Parse(stype) == t && !Rejected(key, t)
    requires Versioned(env, key, t, versions, build).result == Ok(v)
    ensures var k0 := StartKey(key, t, v.name);
      && (t == Sample ==> IsDigits(k0))
      && Resolve(env, key, stype, versions, build).trace ==
           (if IsNeuron(t) then [Lookups.PvRequest(versions, Lower(key))] else []) + Guarded(env, k0, t, v.sections, build).trace
  {
  }

  /** The page of such a search: the report of the guarded block, or the error page of its fault, under the key the sample table leaves. */
  lemma ResolvePage(env: Env, key: string, stype: string, t: SearchType, versions: seq<string>, build: Lookups.Build, v: Lookups.Versioned)
    requires Parse(stype) == t && !Rejected(key, t)
    requires Versioned(env, key, t, versions, build).result == Ok(v)
    ensures var k0 := StartKey(key, t, v.name);
      && (t == Sample ==> IsDigits(k0))
      && var g := Guarded(env, k0, t, v.sections, build);
         var k := SampleKey(env, k0, t);
         Resolve(env, key, stype, versions, build).page ==
           if g.result.Err? then Failure(stype, k, g.result.error) else Report(stype + " " + k, g.result.value)
  {
  }

  /** The title of such a search names the key the sample table leaves. */
  lemma ResolveTitled(env: Env, key: string, stype: string, t: SearchType, versions: seq<string>, build: Lookups.Build, v: Lookups.Versioned)
    requires Parse(stype) == t && !Rejected(key, t)
    requires Versioned(env, key, t, versions, build).result == Ok(v)
    ensures var k0 := StartKey(key, t, v.name);
      && (t == Sample ==> IsDigits(k0))
      && Titled(Resolve(env, key, stype, versions, build).page, stype, SampleKey(env, k0, t))
  {
    ResolvePage(env, key, stype, t, versions, build, v);
  }

  /**
   * After the published-versioned query of a neuron type or instance (no
   * request for any other type), the guarded lookups abort on a store
   * exception: a report means none of their requests raised; an error page
   * for a store fault names the exception of the last request sent, and
   * none of the guarded requests before it raised.
   */
  lemma ResolveAborts(env: Env, key: string, stype: string, versions: seq<string>, build: Lookups.Build)
    requires !Rejected(key, Parse(stype))
    ensures var t := Parse(stype);
      AbortsAfter(env, Resolve(env, key, stype, versions, build),
                  if IsNeuron(t) then [Lookups.PvRequest(versions, Lower(key))] else [])
  {
    var t := Parse(stype);
    var pv := Versioned(env, key, t, versions, build);
    if pv.result.Ok? {
      var k0 := StartKey(key, t, pv.result.value.name);
      ResolveTrace(env, key, stype, t, versions, build, pv.result.value);
      ResolvePage(env, key, stype, t, versions, build, pv.result.value);
      GuardedAborts(env, k0, t, pv.result.value.sections, build);
      PageAborts(env, stype, SampleKey(env, k0, t), pv.trace, Guarded(env, k0, t, pv.result.value.sections, build),
                 Resolve(env, key, stype, versions, build));
    } else {
      ResolveRaised(env, key, stype, versions, build);
    }
  }

  /**
   * After the requests `pre`, the page aborts on a store exception: a report
   * means none of the later requests raised; an error page reports a query
   * failure, and for a store fault it names the exception of the last request
   * sent, none of the later requests before it having raised.
   */
  ghost predicate AbortsAfter(env: Env, r: Resolution, pre: seq<Request>) {
    var g := if pre <= r.trace then r.trace[|pre|..] else [];
    && pre <= r.trace
    && (r.page.Report? ==> forall q :: q in g ==> !Failed(env, q))
    && (r.page.ErrorPage? ==> r.page.reason.QueryFailed?)
    && (r.page.ErrorPage? && r.page.reason.QueryFailed? && !r.page.reason.fault.StoreFault? ==> forall q :: q in g ==> !Failed(env, q))
    && (r.page.ErrorPage? && r.page.reason.QueryFailed? && r.page.reason.fault.StoreFault? ==>
          && g != []
          && Failed(env, g[|g| - 1])
          && FailureMessage(env, g[|g| - 1]) == r.page.reason.fault.message
          && forall q :: q in g[..|g| - 1] ==> !Failed(env, q))
  }

  /** The page of a guarded block that aborts, shown after the requests `pre`, aborts after them. */
  lemma PageAborts(env: Env, stype: string, k: string, pre: seq<Request>, g: Outcome<seq<Section>>, r: Resolution)
    requires Aborts(env, g)
    requires r.trace == pre + g.trace
    requires r.page == if g.result.Err? then Failure(stype, k, g.result.error) else Report(stype + " " + k, g.result.value)
    ensures AbortsAfter(env, r, pre)
  {
    assert r.trace[|pre|..] == g.trace;
  }

  /** The title of the page of a search that got past the key checks, given the key it settled on. */
  predicate Titled(p: Page, stype: string, k: string) {
    && (p.Report? ==> p.title == stype + " " + k)
    && (p.ErrorPage? ==> p.title == "Error querying " + stype + " " + k)
  }

  /** A slide code is looked up, and shown, upper-cased. */
  lemma SlideCodeUpperCased(env: Env, key: string, versions: seq<string>, build: Lookups.Build)
    requires !IsDigits(key)
    ensures var r := Resolve(env, key, "Slide code", versions, build);
      && r.trace != []
      && r.trace[0] == Find("jacs", "sample", Equals("slideCode", Str(Upper(key))))
      && Titled(r.page, "Slide code", Upper(key))
  {
    assert Parse("Slide code") == SlideCode;
    assert StartKey(key, SlideCode, Str("")) == Upper(key);
    var v := Lookups.Versioned([], Str(""));
    ResolveTrace(env, key, "Slide code", SlideCode, versions, build, v);
    ResolveTitled(env, key, "Slide code", SlideCode, versions, build, v);
  }

  /** A search past the key checks whose published-versioned step raised ends in a server error after that one request. */
  lemma ResolveRaised(env: Env, key: string, stype: string, versions: seq<string>, build: Lookups.Build)
    requires !Rejected(key, Parse(stype))
    requires Versioned(env, key, Parse(stype), versions, build).result.Err?
    ensures var pv := Versioned(env, key, Parse(stype), versions, build);
      Resolve(env, key, stype, versions, build) == Resolution(ServerError(pv.result.error), pv.trace)
  {
  }

  /** A neuron type or instance key that is not all digits passes the digit rules. */
  lemma NeuronAccepted(key: string, t: SearchType)
    requires IsNeuron(t) && !IsDigits(key)
    ensures !Rejected(key, t)
  {
  }

  /** Only the fly-light types read a key from the sample table. */
  lemma SampleKeyKept(env: Env, k: string, t: SearchType)
    requires !IsFlyLight(t)
    ensures SampleKey(env, k, t) == k
  {
  }

  /** A neuron type or instance first queries the published-versioned table under the lower-cased key. */
  lemma NeuronStartsVersioned(env: Env, key: string, stype: string, versions: seq<string>, build: Lookups.Build)
    requires IsNeuron(Parse(stype)) && !IsDigits(key)
    ensures var r := Resolve(env, key, stype, versions, build);
      r.trace != [] && r.trace[0] == Lookups.PvRequest(versions, Lower(key))
  {
    var t := Parse(stype);
    NeuronAccepted(key, t);
    var pv := Versioned(env, key, t, versions, build);
    if pv.result.Ok? {
      VersionedFirst(env, key, stype, t, versions, build, pv.result.value);
    } else {
      ResolveRaised(env, key, stype, versions, build);
    }
  }

  /** A neuron search whose published-versioned step answered sends that step's request first. */
  lemma VersionedFirst(env: Env, key: string, stype: string, t: SearchType, versions: seq<string>, build: Lookups.Build, v: Lookups.Versioned)
    requires Parse(stype) == t && IsNeuron(t) && !Rejected(key, t)
    requires Versioned(env, key, t, versions, build).result == Ok(v)
    ensures var r := Resolve(env, key, stype, versions, build);
      r.trace != [] && r.trace[0] == Lookups.PvRequest(versions, Lower(key))
  {
    ResolveTrace(env, key, stype, t, versions, build, v);
  }

  /** When the published-versioned query raises, the name is '' and the emBody query uses the key as given. */
  lemma NeuronVersionedRaised(env: Env, key: string, stype: string, versions: seq<string>, build: Lookups.Build)
    requires IsNeuron(Parse(stype)) && !IsDigits(key)
    requires env.store(Lookups.PvRequest(versions, Lower(key))).Raised?
    ensures var r := Resolve(env, key, stype, versions, build);
      && |r.trace| > 1
      && r.trace[1] == Find("jacs", "emBody", Equals("neuronType", Str(key)))
      && Titled(r.page, stype, key)
  {
    var t := Parse(stype);
    var v := Lookups.Versioned([], Str(""));
    Lookups.PvFailureSwallowed(env, Lower(key), versions, build);
    assert StartKey(key, t, Str("")) == key;
    NeuronQueried(env, key, stype, t, versions, build, v);
    NeuronTitled(env, key, stype, t, versions, build, v);
  }

  /** A neuron search whose published-versioned step answered `v` queries emBody under the start key, right after that step. */
  lemma NeuronQueried(env: Env, key: string, stype: string, t: SearchType, versions: seq<string>, build: Lookups.Build, v: Lookups.Versioned)
    requires Parse(stype) == t && IsNeuron(t) && !IsDigits(key)
    requires Versioned(env, key, t, versions, build).result == Ok(v)
    ensures var r := Resolve(env, key, stype, versions, build);
      && |r.trace| > 1
      && r.trace[1] == Find("jacs", "emBody", Equals("neuronType", Str(StartKey(key, t, v.name))))
  {
    var k0 := StartKey(key, t, v.name);
    ResolveTrace(env, key, stype, t, versions, build, v);
    EmBodyFirst(env, k0, t, v.sections, build);
  }

  /** The guarded block of a neuron type or instance starts with the emBody query on `neuronType`. */
  lemma EmBodyFirst(env: Env, k0: string, t: SearchType, versioned: seq<Section>, build: Lookups.Build)
    requires IsNeuron(t)
    ensures var g := Guarded(env, k0, t, versioned, build).trace;
      g != [] && g[0] == Find("jacs", "emBody", Equals("neuronType", Str(k0)))
  {
  }

  /** Such a search is titled with the start key. */
  lemma NeuronTitled(env: Env, key: string, stype: string, t: SearchType, versions: seq<string>, build: Lookups.Build, v: Lookups.Versioned)
    requires Parse(stype) == t && IsNeuron(t) && !IsDigits(key)
    requires Versioned(env, key, t, versions, build).result == Ok(v)
    ensures Titled(Resolve(env, key, stype, versions, build).page, stype, StartKey(key, t, v.name))
  {
    NeuronAccepted(key, t);
    ResolveTitled(env, key, stype, t, versions, build, v);
    SampleKeyKept(env, StartKey(key, t, v.name), t);
  }

  /**
   * When the published-versioned items answer, the neuron is looked up, and
   * shown, under the first truthy name they carry rather than the key.
   */
  lemma NeuronNameAdopted(env: Env, key: string, stype: string, versions: seq<string>, build: Lookups.Build,
                          rows: seq<Record>, j: nat, name: string)
    requires IsNeuron(Parse(stype)) && !IsDigits(key)
    requires env.store(Lookups.PvRequest(versions, Lower(key))) == Rows(rows)
    requires Lookups.PvRows(rows).Ok?
    requires Lookups.FirstNameAt(rows, j) && rows[j]["name"] == Str(name)
    ensures var r := Resolve(env, key, stype, versions, build);
      && |r.trace| > 1
      && r.trace[1] == Find("jacs", "emBody", Equals("neuronType", Str(name)))
      && Titled(r.page, stype, name)
  {
    var t := Parse(stype);
    NameAnsweredStarts(env, key, t, versions, build, rows, j, name);
    var v := Versioned(env, key, t, versions, build).result.value;
    NeuronQueried(env, key, stype, t, versions, build, v);
    NeuronTitled(env, key, stype, t, versions, build, v);
  }

  /** The first truthy name of the published-versioned items becomes the start key. */
  lemma NameAnsweredStarts(env: Env, key: string, t: SearchType, versions: seq<string>, build: Lookups.Build,
                           rows: seq<Record>, j: nat, name: string)
    requires IsNeuron(t)
    requires env.store(Lookups.PvRequest(versions, Lower(key))) == Rows(rows)
    requires Lookups.PvRows(rows).Ok?
    requires Lookups.FirstNameAt(rows, j) && rows[j]["name"] == Str(name)
    ensures Versioned(env, key, t, versions, build).result.Ok?
    ensures StartKey(key, t, Versioned(env, key, t, versions, build).result.value.name) == name
  {
    Lookups.PvNameAnswered(env, Lower(key), versions, build, rows, j);
  }

  /** The sample table reports a publishing name for its last record: the image table is queried with it. */
  lemma SampleReportsName(env: Env, key: string, rows: seq<Record>, name: string)
    requires !IsDigits(key)
    requires env.store(Find("jacs", "sample", JacsQuery(key, PublishingName, "sample"))) == Rows(rows)
    requires rows != [] && Jacs.JacsShow(rows, "sample").Ok?
    requires "publishingName" in rows[|rows| - 1] && rows[|rows| - 1]["publishingName"] == Str(name) && name != ""
    ensures SampleKey(env, key, PublishingName) == name
    ensures Sources(env, key, PublishingName).trace ==
      [Find("jacs", "sample", JacsQuery(key, PublishingName, "sample")), Find("jacs", "image", JacsQuery(name, PublishingName, "image"))]
  {
    SampleNamed(env, key, rows, name);
    FlyLightSourcesTrace(env, key, PublishingName);
    JacsJoin(Find("jacs", "sample", JacsQuery(key, PublishingName, "sample")), Find("jacs", "image", JacsQuery(name, PublishingName, "image")));
  }

  /** Once the sample table answered, a fly-light search queries the image table with the key the sample table leaves. */
  lemma FlyLightSourcesTrace(env: Env, key: string, t: SearchType)
    requires IsFlyLight(t) && (t == Sample ==> IsDigits(key))
    requires Jacs.JacsLookup(env, key, t, "sample").result.Ok?
    ensures Sources(env, key, t).trace ==
      [Find("jacs", "sample", JacsQuery(key, t, "sample"))] + [Find("jacs", "image", JacsQuery(SampleKey(env, key, t), t, "image"))]
  {
  }

  /** The sample query, then the image query. */
  lemma JacsJoin(sample: Request, image: Request)
    ensures [sample] + [image] == [sample, image]
  {
  }

  /** The key the image table is queried with is the sample table's last publishing name. */
  lemma SampleNamed(env: Env, key: string, rows: seq<Record>, name: string)
    requires !IsDigits(key)
    requires env.store(Find("jacs", "sample", JacsQuery(key, PublishingName, "sample"))) == Rows(rows)
    requires rows != [] && Jacs.JacsShow(rows, "sample").Ok?
    requires "publishingName" in rows[|rows| - 1] && rows[|rows| - 1]["publishingName"] == Str(name) && name != ""
    ensures Jacs.JacsLookup(env, key, PublishingName, "sample").result.Ok?
    ensures SampleKey(env, key, PublishingName) == name
  {
    Jacs.JacsPnameIsLast(rows, "sample");
    Jacs.JacsLookupShown(env, key, PublishingName, "sample", rows);
  }

  /** A publishing-name search sends its sample and image queries first and is titled with the key the sample table leaves. */
  lemma PublishingNameShape(env: Env, key: string, versions: seq<string>, build: Lookups.Build)
    requires !IsDigits(key)
    ensures var r := Resolve(env, key, "Publishing name", versions, build);
      && Sources(env, key, PublishingName).trace <= r.trace
      && Titled(r.page, "Publishing name", SampleKey(env, key, PublishingName))
  {
    assert Parse("Publishing name") == PublishingName;
    assert StartKey(key, PublishingName, Str("")) == key;
    var v := Lookups.Versioned([], Str(""));
    ResolveTrace(env, key, "Publishing name", PublishingName, versions, build, v);
    ResolveTitled(env, key, "Publishing name", PublishingName, versions, build, v);
  }

  /**
   * A publishing-name search adopts the publishing name the sample table
   * reports for its last record: the image table is queried with it and
   * the page is titled with it.
   */
  lemma PublishingNameAdopted(env: Env, key: string, versions: seq<string>, build: Lookups.Build, rows: seq<Record>, name: string)
    requires !IsDigits(key)
    requires env.store(Find("jacs", "sample", JacsQuery(key, PublishingName, "sample"))) == Rows(rows)
    requires rows != [] && Jacs.JacsShow(rows, "sample").Ok?
    requires "publishingName" in rows[|rows| - 1] && rows[|rows| - 1]["publishingName"] == Str(name) && name != ""
    ensures var r := Resolve(env, key, "Publishing name", versions, build);
      && |r.trace| > 1
      && r.trace[0] == Find("jacs", "sample", JacsQuery(key, PublishingName, "sample"))
      && r.trace[1] == Find("jacs", "image", JacsQuery(name, PublishingName, "image"))
      && Titled(r.page, "Publishing name", name)
  {
    SampleReportsName(env, key, rows, name);
    PublishingNameShape(env, key, versions, build);
    var s := Sources(env, key, PublishingName);
    var r := Resolve(env, key, "Publishing name", versions, build);
    assert s.trace <= r.trace && |s.trace| == 2;
    assert r.trace[0] == s.trace[0] && r.trace[1] == s.trace[1];
  }

  // ---------------------------------------------------------------------------
  // How the publishing names of a Body ID flow into the later lookups.

  /** The publishedURL query of a Body ID: the suffix pattern on the published name. */
  function PurlRequest(key: string): Request {
    Find("neuronbridge", "publishedURL", NmdQuery(key, BodyId, "publishedURL"))
  }

  /** A Body ID key that passes the digit rule is looked up as given, with no published-versioned request. */
  lemma BodyIdResolve(env: Env, key: string, versions: seq<string>, build: Lookups.Build)
    requires Resolve(env, key, "Body ID", versions, build).page.Report?
    ensures IsDigits(key)
    ensures var g := Guarded(env, key, BodyId, [], build);
      Resolve(env, key, "Body ID", versions, build).trace == g.trace && g.result.Ok?
  {
    assert Parse("Body ID") == BodyId;
    assert StartKey(key, BodyId, Str("")) == key;
    var v := Lookups.Versioned([], Str(""));
    ResolveTrace(env, key, "Body ID", BodyId, versions, build, v);
    ResolvePage(env, key, "Body ID", BodyId, versions, build, v);
  }

  /** A Body ID's guarded block that goes through: the emBody query, then the rest under the same key. */
  lemma BodyIdGuarded(env: Env, key: string, build: Lookups.Build)
    requires Guarded(env, key, BodyId, [], build).result.Ok?
    ensures Described(env, key, BodyId, [], build).result.Ok?
    ensures Guarded(env, key, BodyId, [], build).trace ==
      [Find("jacs", "emBody", EmbQuery(key, BodyId))] + Described(env, key, BodyId, [], build).trace
  {
  }

  /** The guarded lookups after the sources that go through: the metadata, then the extras it calls for. */
  lemma DescribedSplit(env: Env, k: string, t: SearchType, versioned: seq<Section>, build: Lookups.Build)
    requires Described(env, k, t, versioned, build).result.Ok?
    ensures Metadata(env, k, t, versioned).result.Ok?
    ensures var m := Metadata(env, k, t, versioned);
      var x := Extras(env, k, t, m.result.value, build);
      && x.result.Ok?
      && Described(env, k, t, versioned, build).trace == m.trace + x.trace
      && Described(env, k, t, versioned, build).result.value == m.result.value.sections + x.result.value
  {
  }

  /** The metadata of a Body ID: the names publishedURL gathered; with no record, just the two queries. */
  lemma BodyIdMetadata(env: Env, key: string, rows: seq<Record>)
    requires env.store(PurlRequest(key)) == Rows(rows)
    requires Metadata(env, key, BodyId, []).result.Ok?
    ensures Metadata(env, key, BodyId, []).result.value.names ==
      if rows == [] then None else Some(Distinct(NmdPurl.PublishedNames(rows)))
    ensures rows == [] ==>
      Metadata(env, key, BodyId, []).trace ==
        [Find("neuronbridge", "neuronMetadata", NmdQuery(key, BodyId, "neuronMetadata")), PurlRequest(key)]
  {
    var n := NmdPurl.NmdLookup(env, key, BodyId, "neuronMetadata");
    var p := NmdPurl.NmdLookup(env, key, BodyId, "publishedURL");
    assert n.result.Ok? && p.result.Ok?;
    assert Metadata(env, key, BodyId, []).result.value.names == p.result.value.names;
    NmdPurl.NmdCarries(env, key, BodyId, "publishedURL", rows);
    if rows == [] {
      assert Metadata(env, key, BodyId, []).trace == n.trace + p.trace;
      var nreq := Find("neuronbridge", "neuronMetadata", NmdQuery(key, BodyId, "neuronMetadata"));
      NmdPurl.NmdCarries(env, key, BodyId, "neuronMetadata", env.store(nreq).items);
    }
  }

  /**
   * The extras of a Body ID that go through: with publishing names, the
   * skeletons of the first, the annotations of the key, then one DOI lookup
   * per name; with none, only the corrected build goes on, to the
   * annotations alone.
   */
  lemma BodyIdExtras(env: Env, key: string, meta: Meta, build: Lookups.Build)
    requires Extras(env, key, BodyId, meta, build).result.Ok?
    ensures meta.names.None? ==>
      build == Lookups.Corrected && Extras(env, key, BodyId, meta, build).trace == [Lookups.CustomRequest(key)]
    ensures meta.names.Some? && meta.names.value != [] ==>
      Extras(env, key, BodyId, meta, build).trace ==
        [Lookups.SkeletonsRequest(meta.names.value[0]), Lookups.CustomRequest(key)] + Lookups.DoiRequests(meta.names.value)
  {
    var first := BodyExtras(env, key, meta.names, build);
    Lookups.CustomAborts(env, key);
    if meta.names.Some? && meta.names.value != [] {
      var names := meta.names.value;
      Lookups.SkeletonsAborts(env, names[0]);
      assert first.trace == [Lookups.SkeletonsRequest(names[0]), Lookups.CustomRequest(key)];
      var d := Lookups.GetDois(env, names);
      assert d.result.Ok?;
      Lookups.GatherDoisTrace(env, names);
      assert Extras(env, key, BodyId, meta, build).trace == first.trace + d.trace;
    }
  }

  /**
   * After the sources of a Body ID that goes through with publishedURL
   * records: the skeletons of the first publishing name, the annotations of
   * the key and one DOI lookup per distinct publishing name come last.
   */
  lemma BodyIdDescribedNamed(env: Env, key: string, build: Lookups.Build, rows: seq<Record>)
    requires env.store(PurlRequest(key)) == Rows(rows) && rows != []
    requires Described(env, key, BodyId, [], build).result.Ok?
    ensures
      var names := Distinct(NmdPurl.PublishedNames(rows));
      && names != []
      && Described(env, key, BodyId, [], build).trace ==
           Metadata(env, key, BodyId, []).trace +
           ([Lookups.SkeletonsRequest(names[0]), Lookups.CustomRequest(key)] + Lookups.DoiRequests(names))
  {
    DescribedSplit(env, key, BodyId, [], build);
    var m := Metadata(env, key, BodyId, []);
    BodyIdMetadata(env, key, rows);
    var all := NmdPurl.PublishedNames(rows);
    assert |all| == |rows|;
    DistinctFirst(all);
    var names := Distinct(all);
    assert m.result.value.names == Some(names);
    BodyIdExtras(env, key, m.result.value, build);
    var x := Extras(env, key, BodyId, m.result.value, build);
    assert x.trace == [Lookups.SkeletonsRequest(names[0]), Lookups.CustomRequest(key)] + Lookups.DoiRequests(names);
  }

  /**
   * After the sources of a Body ID that publishedURL does not know: only the
   * corrected build goes through, and it sends only the annotations query
   * after the two metadata queries.
   */
  lemma BodyIdDescribedUnnamed(env: Env, key: string, build: Lookups.Build)
    requires env.store(PurlRequest(key)) == Rows([])
    requires Described(env, key, BodyId, [], build).result.Ok?
    ensures build == Lookups.Corrected
    ensures Described(env, key, BodyId, [], build).trace ==
      [Find("neuronbridge", "neuronMetadata", NmdQuery(key, BodyId, "neuronMetadata")), PurlRequest(key), Lookups.CustomRequest(key)]
  {
    DescribedSplit(env, key, BodyId, [], build);
    var m := Metadata(env, key, BodyId, []);
    BodyIdMetadata(env, key, []);
    BodyIdExtras(env, key, m.result.value, build);
  }

  /** A Body ID search that reports went through its emBody query and then the rest of the guarded block. */
  lemma BodyIdReported(env: Env, key: string, versions: seq<string>, build: Lookups.Build)
    requires Resolve(env, key, "Body ID", versions, build).page.Report?
    ensures Described(env, key, BodyId, [], build).result.Ok?
    ensures Resolve(env, key, "Body ID", versions, build).trace ==
      [Find("jacs", "emBody", EmbQuery(key, BodyId))] + Described(env, key, BodyId, [], build).trace
  {
    BodyIdResolve(env, key, versions, build);
    BodyIdGuarded(env, key, build);
  }

  /**
   * A Body ID search that ends in a report sends its publishing names on:
   * after the emBody and metadata queries, the first name goes to the
   * skeletons lookup, then the annotations are asked for, then every
   * distinct name, once and in first-seen order, goes to the DOI lookups.
   */
  lemma BodyIdNamesFlow(env: Env, key: string, versions: seq<string>, build: Lookups.Build, rows: seq<Record>)
    requires env.store(PurlRequest(key)) == Rows(rows) && rows != []
    requires Resolve(env, key, "Body ID", versions, build).page.Report?
    ensures
      var names := Distinct(NmdPurl.PublishedNames(rows));
      && names != []
      && NoDup(names)
      && Resolve(env, key, "Body ID", versions, build).trace ==
           [Find("jacs", "emBody", EmbQuery(key, BodyId))] + Metadata(env, key, BodyId, []).trace +
           ([Lookups.SkeletonsRequest(names[0]), Lookups.CustomRequest(key)] + Lookups.DoiRequests(names))
  {
    BodyIdReported(env, key, versions, build);
    BodyIdDescribedNamed(env, key, build, rows);
    DistinctElements(NmdPurl.PublishedNames(rows));
    var names := Distinct(NmdPurl.PublishedNames(rows));
    TraceJoin([Find("jacs", "emBody", EmbQuery(key, BodyId))], Metadata(env, key, BodyId, []).trace,
              [Lookups.SkeletonsRequest(names[0]), Lookups.CustomRequest(key)] + Lookups.DoiRequests(names));
  }

  /**
   * A Body ID that publishedURL does not know reports only in the corrected
   * build, which asks for no skeletons and no DOI: the emBody and metadata
   * queries, then the annotations.
   */
  lemma BodyIdUnnamedFlow(env: Env, key: string, versions: seq<string>, build: Lookups.Build)
    requires env.store(PurlRequest(key)) == Rows([])
    requires Resolve(env, key, "Body ID", versions, build).page.Report?
    ensures build == Lookups.Corrected
    ensures Resolve(env, key, "Body ID", versions, build).trace ==
      [Find("jacs", "emBody", EmbQuery(key, BodyId)), Find("neuronbridge", "neuronMetadata", NmdQuery(key, BodyId, "neuronMetadata")),
       PurlRequest(key), Lookups.CustomRequest(key)]
  {
    BodyIdReported(env, key, versions, build);
    BodyIdDescribedUnnamed(env, key, build);
    RequestsJoin(Find("jacs", "emBody", EmbQuery(key, BodyId)), Find("neuronbridge", "neuronMetadata", NmdQuery(key, BodyId, "neuronMetadata")),
                 PurlRequest(key), Lookups.CustomRequest(key));
  }

  /** One request, then three more: four requests in that order. */
  lemma RequestsJoin(a: Request, b: Request, c: Request, d: Request)
    ensures [a] + [b, c, d] == [a, b, c, d]
  {
  }


  // ---------------------------------------------------------------------------
  // A key no store knows.

  /** Every store request is answered with no records. */
  ghost predicate Silent(env: Env) {
    forall q :: env.store(q) == Rows([])
  }

  lemma SilentSources(env: Env, k: string, t: SearchType)
    requires Silent(env) && (t == Sample ==> IsDigits(k))
    ensures SampleKey(env, k, t) == k
    ensures Sources(env, k, t).result ==
      Ok(if IsFlyLight(t) then [NotFound(Name(t), k, "sample"), NotFound(Name(t), k, "image")]
         else [NotFound("Body ID", k, "emBody")])
  {
    if IsFlyLight(t) {
      Jacs.JacsNotFound(env, k, t, "sample");
      Jacs.JacsNotFound(env, k, t, "image");
      assert [NotFound(Name(t), k, "sample")] + [NotFound(Name(t), k, "image")] ==
        [NotFound(Name(t), k, "sample"), NotFound(Name(t), k, "image")];
    } else {
      Emb.EmbNotFound(env, k, t);
    }
  }

  lemma SilentMetadata(env: Env, k: string, t: SearchType, versioned: seq<Section>)
    requires Silent(env)
    ensures Metadata(env, k, t, versioned).result ==
      Ok(if IsNeuron(t) then Meta([NotFound(Name(t), k, "neuronMetadata")] + versioned, Str(""), None)
         else Meta([NotFound(Name(t), k, "neuronMetadata"), NotFound(Name(t), k, "publishedURL")], Null, None))
  {
    NmdPurl.NmdNotFound(env, k, t, "neuronMetadata");
    NmdPurl.NmdNotFound(env, k, t, "publishedURL");
    var n := NmdPurl.NmdLookup(env, k, t, "neuronMetadata");
    assert n.result.Ok? && n.result.value.sections == [NotFound(Name(t), k, "neuronMetadata")];
    if !IsNeuron(t) {
      var p := NmdPurl.NmdLookup(env, k, t, "publishedURL");
      assert p.result.Ok? && p.result.value.sections == [NotFound(Name(t), k, "publishedURL")];
      assert [NotFound(Name(t), k, "neuronMetadata")] + [NotFound(Name(t), k, "publishedURL")] ==
        [NotFound(Name(t), k, "neuronMetadata"), NotFound(Name(t), k, "publishedURL")];
      assert Metadata(env, k, t, versioned).result == Ok(Meta(n.result.value.sections + p.result.value.sections, Null, None));
    }
  }

  lemma SilentExtras(env: Env, k: string, t: SearchType, meta: Meta, build: Lookups.Build)
    requires Silent(env) && meta.names.None?
    ensures Extras(env, k, t, meta, build).result ==
      if IsFlyLight(t) then Ok([NotFound(Name(t), k, "publishedLMImage")])
      else if t == BodyId && build == Lookups.AsWritten then Err(TypeFault("'NoneType' object is not subscriptable"))
      else Ok([])
  {
    assert env.store(Find("neuronbridge", "publishedLMImage", PliQuery(k, t))) == Rows([]);
    assert env.store(Lookups.CustomRequest(k)) == Rows([]);
  }

  /** A fly-light key no store knows: five not-found lines, in the order the tables are searched. */
  lemma SilentFlyLight(env: Env, key: string, stype: string, versions: seq<string>, build: Lookups.Build)
    requires Silent(env) && IsFlyLight(Parse(stype)) && !Rejected(key, Parse(stype))
    ensures var k := Normalize(key, Parse(stype));
      Resolve(env, key, stype, versions, build).page ==
        Report(stype + " " + k, [NotFound(stype, k, "sample"), NotFound(stype, k, "image"), NotFound(stype, k, "neuronMetadata"),
                                 NotFound(stype, k, "publishedURL"), NotFound(stype, k, "publishedLMImage")])
  {
    var t := Parse(stype);
    var k := Normalize(key, t);
    assert StartKey(key, t, Str("")) == k;
    ResolvePage(env, key, stype, t, versions, build, Lookups.Versioned([], Str("")));
    SilentSources(env, k, t);
    SilentFlyLightBlock(env, k, t, build);
  }

  /** The sources, metadata and extras of a fly-light key no store knows: one not-found line per table. */
  lemma SilentFlyLightBlock(env: Env, k: string, t: SearchType, build: Lookups.Build)
    requires Silent(env) && IsFlyLight(t) && (t == Sample ==> IsDigits(k))
    ensures Guarded(env, k, t, [], build).result ==
      Ok([NotFound(Name(t), k, "sample"), NotFound(Name(t), k, "image"), NotFound(Name(t), k, "neuronMetadata"),
          NotFound(Name(t), k, "publishedURL"), NotFound(Name(t), k, "publishedLMImage")])
  {
    SilentSources(env, k, t);
    SilentFlyLightDescribed(env, k, t, build);
    FlyLightLines(env, k, t, build);
  }

  /** The not-found lines of the sources, then those of the later lookups, make the block's five lines. */
  lemma FlyLightLines(env: Env, k: string, t: SearchType, build: Lookups.Build)
    requires IsFlyLight(t) && (t == Sample ==> IsDigits(k)) && SampleKey(env, k, t) == k
    requires Sources(env, k, t).result == Ok([NotFound(Name(t), k, "sample"), NotFound(Name(t), k, "image")])
    requires Described(env, k, t, [], build).result ==
      Ok([NotFound(Name(t), k, "neuronMetadata"), NotFound(Name(t), k, "publishedURL"), NotFound(Name(t), k, "publishedLMImage")])
    ensures Guarded(env, k, t, [], build).result ==
      Ok([NotFound(Name(t), k, "sample"), NotFound(Name(t), k, "image"), NotFound(Name(t), k, "neuronMetadata"),
          NotFound(Name(t), k, "publishedURL"), NotFound(Name(t), k, "publishedLMImage")])
  {
    GuardedOk(env, k, t, [], build);
    FlyLightJoin(Name(t), k);
  }

  /** The sample and image lines, then the three metadata lines, in that order. */
  lemma FlyLightJoin(n: string, k: string)
    ensures [NotFound(n, k, "sample"), NotFound(n, k, "image")] +
      [NotFound(n, k, "neuronMetadata"), NotFound(n, k, "publishedURL"), NotFound(n, k, "publishedLMImage")] ==
      [NotFound(n, k, "sample"), NotFound(n, k, "image"), NotFound(n, k, "neuronMetadata"),
       NotFound(n, k, "publishedURL"), NotFound(n, k, "publishedLMImage")]
  {
  }

  lemma SilentFlyLightDescribed(env: Env, k: string, t: SearchType, build: Lookups.Build)
    requires Silent(env) && IsFlyLight(t)
    ensures Described(env, k, t, [], build).result ==
      Ok([NotFound(Name(t), k, "neuronMetadata"), NotFound(Name(t), k, "publishedURL"), NotFound(Name(t), k, "publishedLMImage")])
  {
    var n := Name(t);
    SilentMetadata(env, k, t, []);
    SilentExtras(env, k, t, Metadata(env, k, t, []).result.value, build);
    assert [NotFound(n, k, "neuronMetadata"), NotFound(n, k, "publishedURL")] + [NotFound(n, k, "publishedLMImage")] ==
      [NotFound(n, k, "neuronMetadata"), NotFound(n, k, "publishedURL"), NotFound(n, k, "publishedLMImage")];
  }

  /**
   * A Body ID no store knows: as written, indexing the missing publishing
   * names raises inside the guarded block, so the error page is shown;
   * corrected, the three not-found lines are.
   */
  lemma SilentBodyId(env: Env, key: string, versions: seq<string>, build: Lookups.Build)
    requires Silent(env) && IsDigits(key)
    ensures build == Lookups.AsWritten ==>
      Resolve(env, key, "Body ID", versions, build).page == Failure("Body ID", key, TypeFault("'NoneType' object is not subscriptable"))
    ensures build == Lookups.Corrected ==>
      Resolve(env, key, "Body ID", versions, build).page ==
        Report("Body ID " + key, [NotFound("Body ID", key, "emBody"), NotFound("Body ID", key, "neuronMetadata"), NotFound("Body ID", key, "publishedURL")])
  {
    var v := Lookups.Versioned([], Str(""));
    assert Parse("Body ID") == BodyId;
    assert StartKey(key, BodyId, v.name) == key;
    SilentBodyIdBlock(env, key, build);
    BodyIdTitle(key);
    if build == Lookups.Corrected {
      ResolveReported(env, key, "Body ID", BodyId, versions, build, v,
                      [NotFound("Body ID", key, "emBody"), NotFound("Body ID", key, "neuronMetadata"), NotFound("Body ID", key, "publishedURL")]);
    } else {
      ResolvePage(env, key, "Body ID", BodyId, versions, build, v);
    }
  }

  /** The title of a Body ID search: the search type, a space, the key. */
  lemma BodyIdTitle(key: string)
    ensures "Body ID" + " " + key == "Body ID " + key
  {
  }

  /** The guarded block of a Body ID no store knows. */
  lemma SilentBodyIdBlock(env: Env, key: string, build: Lookups.Build)
    requires Silent(env) && IsDigits(key)
    ensures SampleKey(env, key, BodyId) == key
    ensures build == Lookups.AsWritten ==> Guarded(env, key, BodyId, [], build).result == Err(TypeFault("'NoneType' object is not subscriptable"))
    ensures build == Lookups.Corrected ==>
      Guarded(env, key, BodyId, [], build).result ==
        Ok([NotFound("Body ID", key, "emBody"), NotFound("Body ID", key, "neuronMetadata"), NotFound("Body ID", key, "publishedURL")])
  {
    SilentSources(env, key, BodyId);
    SilentMetadata(env, key, BodyId, []);
    SilentExtras(env, key, BodyId, Metadata(env, key, BodyId, []).result.value, build);
    GuardedSections(env, key, BodyId, [], build);
    BodyIdJoin("Body ID", key);
  }

  /** The emBody line, then the neuronMetadata and publishedURL lines with no annotations after them. */
  lemma BodyIdJoin(n: string, key: string)
    ensures [NotFound(n, key, "emBody")] + ([NotFound(n, key, "neuronMetadata"), NotFound(n, key, "publishedURL")] + []) ==
      [NotFound(n, key, "emBody"), NotFound(n, key, "neuronMetadata"), NotFound(n, key, "publishedURL")]
  {
  }

  /** The guarded block when the sources and the later lookups went through: their sections, in that order. */
  lemma GuardedOk(env: Env, k0: string, t: SearchType, versioned: seq<Section>, build: Lookups.Build)
    requires t == Sample ==> IsDigits(k0)
    requires Sources(env, k0, t).result.Ok?
    requires Described(env, SampleKey(env, k0, t), t, versioned, build).result.Ok?
    ensures Guarded(env, k0, t, versioned, build).result ==
      Ok(Sources(env, k0, t).result.value + Described(env, SampleKey(env, k0, t), t, versioned, build).result.value)
  {
  }

  /** The guarded block when the sources and the metadata went through: the extras decide. */
  lemma GuardedSections(env: Env, k0: string, t: SearchType, versioned: seq<Section>, build: Lookups.Build)
    requires t == Sample ==> IsDigits(k0)
    requires Sources(env, k0, t).result.Ok?
    requires Metadata(env, SampleKey(env, k0, t), t, versioned).result.Ok?
    ensures var k := SampleKey(env, k0, t);
      var m := Metadata(env, k, t, versioned).result.value;
      var x := Extras(env, k, t, m, build).result;
      Guarded(env, k0, t, versioned, build).result ==
        if x.Err? then Err(x.error) else Ok(Sources(env, k0, t).result.value + (m.sections + x.value))
  {
    var k := SampleKey(env, k0, t);
    var d := Described(env, k, t, versioned, build);
    var m := Metadata(env, k, t, versioned).result.value;
    var x := Extras(env, k, t, m, build).result;
    assert d.result == if x.Err? then Err(x.error) else Ok(m.sections + x.value);
  }

  /**
   * A neuron type or instance no store knows, as written: the empty
   * published-versioned answer raises before the guarded block, a server
   * error, after that one request.
   */
  lemma SilentNeuronAsWritten(env: Env, key: string, stype: string, versions: seq<string>)
    requires Silent(env) && IsNeuron(Parse(stype)) && !IsDigits(key)
    ensures Resolve(env, key, stype, versions, Lookups.AsWritten) ==
      Resolution(ServerError(TypeFault("'NoneType' object is not iterable")), [Lookups.PvRequest(versions, Lower(key))])
  {
    NeuronAccepted(key, Parse(stype));
    Lookups.PvEmptyAnswer(env, Lower(key), versions);
    ResolveRaised(env, key, stype, versions, Lookups.AsWritten);
  }

  /**
   * Corrected, the emBody and neuronMetadata lines and an empty body-ID
   * table are shown.
   */
  lemma SilentNeuronCorrected(env: Env, key: string, stype: string, versions: seq<string>)
    requires Silent(env) && IsNeuron(Parse(stype)) && !IsDigits(key)
    ensures Resolve(env, key, stype, versions, Lookups.Corrected).page ==
      Report(stype + " " + key, [NotFound("Body ID", key, "emBody"), NotFound(stype, key, "neuronMetadata"),
                                 BodyIds(Lookups.PvTable(versions), [])])
  {
    var versioned := [BodyIds(Lookups.PvTable(versions), [])];
    SilentNeuronReported(env, key, stype, versions, versioned);
    NeuronJoin(NotFound("Body ID", key, "emBody"), NotFound(stype, key, "neuronMetadata"), versioned);
  }

  /** The corrected page for such a key: the guarded block's lines under the key's title. */
  lemma SilentNeuronReported(env: Env, key: string, stype: string, versions: seq<string>, versioned: seq<Section>)
    requires Silent(env) && IsNeuron(Parse(stype)) && !IsDigits(key)
    requires versioned == [BodyIds(Lookups.PvTable(versions), [])]
    ensures Resolve(env, key, stype, versions, Lookups.Corrected).page ==
      Report(stype + " " + key, [NotFound("Body ID", key, "emBody")] + ([NotFound(stype, key, "neuronMetadata")] + versioned))
  {
    var t := Parse(stype);
    NeuronAccepted(key, t);
    SilentNeuronGuarded(env, key, t, versions, versioned);
    ResolveReported(env, key, stype, t, versions, Lookups.Corrected, Lookups.Versioned(versioned, Str("")),
                    [NotFound("Body ID", key, "emBody")] + ([NotFound(Name(t), key, "neuronMetadata")] + versioned));
  }

  /**
   * Corrected, the empty published-versioned answer of such a key is an
   * empty body-ID table and no name, so the guarded block starts from the
   * key itself and shows the emBody and neuronMetadata lines before it.
   */
  lemma SilentNeuronGuarded(env: Env, key: string, t: SearchType, versions: seq<string>, versioned: seq<Section>)
    requires Silent(env) && IsNeuron(t)
    requires versioned == [BodyIds(Lookups.PvTable(versions), [])]
    ensures Versioned(env, key, t, versions, Lookups.Corrected).result == Ok(Lookups.Versioned(versioned, Str("")))
    ensures StartKey(key, t, Str("")) == key && SampleKey(env, key, t) == key
    ensures Guarded(env, key, t, versioned, Lookups.Corrected).result ==
      Ok([NotFound("Body ID", key, "emBody")] + ([NotFound(Name(t), key, "neuronMetadata")] + versioned))
  {
    Lookups.PvEmptyAnswer(env, Lower(key), versions);
    SilentNeuronBlock(env, key, t, versioned, Lookups.Corrected);
  }

  /** A search whose guarded block went through, on the key it was given, reports that block's lines under that key. */
  lemma ResolveReported(env: Env, key: string, stype: string, t: SearchType, versions: seq<string>, build: Lookups.Build,
                        v: Lookups.Versioned, lines: seq<Section>)
    requires Parse(stype) == t && !Rejected(key, t)
    requires Versioned(env, key, t, versions, build).result == Ok(v)
    requires StartKey(key, t, v.name) == key && SampleKey(env, key, t) == key
    requires Guarded(env, key, t, v.sections, build).result == Ok(lines)
    ensures Resolve(env, key, stype, versions, build).page == Report(stype + " " + key, lines)
  {
    ResolvePage(env, key, stype, t, versions, build, v);
  }

  /** The emBody line, the neuronMetadata line and the versioned sections, in that order. */
  lemma NeuronJoin(body: Section, metadata: Section, versioned: seq<Section>)
    requires |versioned| == 1
    ensures [body] + ([metadata] + versioned) == [body, metadata, versioned[0]]
  {
  }

  /** The guarded block of a neuron type or instance no store knows: emBody, then neuronMetadata with the versioned sections. */
  lemma SilentNeuronBlock(env: Env, key: string, t: SearchType, versioned: seq<Section>, build: Lookups.Build)
    requires Silent(env) && IsNeuron(t)
    ensures SampleKey(env, key, t) == key
    ensures Guarded(env, key, t, versioned, build).result ==
      Ok([NotFound("Body ID", key, "emBody")] + ([NotFound(Name(t), key, "neuronMetadata")] + versioned))
  {
    SilentSources(env, key, t);
    SilentMetadata(env, key, t, versioned);
    var m := Metadata(env, key, t, versioned).result.value;
    SilentExtras(env, key, t, m, build);
    GuardedSections(env, key, t, versioned, build);
    assert m.sections + [] == m.sections;
  }

  // ---------------------------------------------------------------------------
  // The resolver as the handler runs it, one lookup after another.

  /** The sample and image tables, or emBody. */
  method RunSources(env: Env, key: string, t: SearchType) returns (o: Outcome<seq<Section>>, k: string)
    requires t == Sample ==> IsDigits(key)
    ensures o == Sources(env, key, t) && k == SampleKey(env, key, t)
  {
    k := key;
    if !IsFlyLight(t) {
      o := Emb.ShowEmb(env, key, t);
      return;
    }
    var j := Jacs.ShowJacs(env, key, t, "sample");
    if j.result.Err? {
      return Outcome(Err(j.result.error), j.trace), k;
    }
    if t == PublishingName && j.result.value.1 != "" {
      k := j.result.value.1;
    }
    var img := Jacs.ShowJacs(env, k, t, "image");
    if img.result.Err? {
      return Outcome(Err(img.result.error), j.trace + img.trace), k;
    }
    return Outcome(Ok(j.result.value.0 + img.result.value.0), j.trace + img.trace), k;
  }

  /** neuronMetadata, then the published-versioned sections or publishedURL. */
  method RunMetadata(env: Env, key: string, t: SearchType, versioned: seq<Section>) returns (o: Outcome<Meta>)
    ensures o == Metadata(env, key, t, versioned)
  {
    var n := NmdPurl.ShowNmdPurl(env, key, t, "neuronMetadata");
    if n.result.Err? {
      return Outcome(Err(n.result.error), n.trace);
    }
    if IsNeuron(t) {
      return Outcome(Ok(Meta(n.result.value.sections + versioned, Str(""), None)), n.trace);
    }
    var p := NmdPurl.ShowNmdPurl(env, key, t, "publishedURL");
    if p.result.Err? {
      return Outcome(Err(p.result.error), n.trace + p.trace);
    }
    var out := p.result.value;
    return Outcome(Ok(Meta(n.result.value.sections + out.sections, out.release, out.names)), n.trace + p.trace);
  }

  /** Skeletons under the first publishing name, then custom annotations. */
  method RunBodyExtras(env: Env, key: string, names: Option<seq<Value>>, build: Lookups.Build) returns (o: Outcome<seq<Section>>)
    ensures o == BodyExtras(env, key, names, build)
  {
    if names.None? {
      if build == Lookups.AsWritten {
        return Outcome(Err(TypeFault("'NoneType' object is not subscriptable")), []);
      }
      o := Lookups.ShowCustom(env, key);
      return;
    }
    if names.value == [] {
      return Outcome(Err(IndexFault("list index out of range")), []);
    }
    var s := Lookups.ShowSkeletons(env, names.value[0]);
    if s.result.Err? {
      return s;
    }
    var c := Lookups.ShowCustom(env, key);
    if c.result.Err? {
      return Outcome(Err(c.result.error), s.trace + c.trace);
    }
    return Outcome(Ok(s.result.value + c.result.value), s.trace + c.trace);
  }

  /** publishedLMImage or the Body ID extras, then the DOIs of the names. */
  method RunExtras(env: Env, key: string, t: SearchType, meta: Meta, build: Lookups.Build) returns (o: Outcome<seq<Section>>)
    ensures o == Extras(env, key, t, meta, build)
  {
    if IsFlyLight(t) {
      o := Pli.ShowPli(env, key, t, meta.release);
    } else if t == BodyId {
      o := RunBodyExtras(env, key, meta.names, build);
    } else {
      o := Outcome(Ok([]), []);
    }
    if o.result.Err? || !(meta.names.Some? && meta.names.value != []) {
      return;
    }
    var d := Lookups.ShowDois(env, meta.names.value);
    if d.result.Err? {
      return Outcome(Err(d.result.error), o.trace + d.trace);
    }
    return Outcome(Ok(o.result.value + d.result.value), o.trace + d.trace);
  }

  /** The guarded block: the sources, then the rest, stopping at the first lookup that raises. */
  method RunGuarded(env: Env, k0: string, t: SearchType, versioned: seq<Section>, build: Lookups.Build)
      returns (o: Outcome<seq<Section>>, k: string)
    requires t == Sample ==> IsDigits(k0)
    ensures o == Guarded(env, k0, t, versioned, build) && k == SampleKey(env, k0, t)
  {
    var s;
    s, k := RunSources(env, k0, t);
    if s.result.Err? {
      return s, k;
    }
    var r := RunDescribed(env, k, t, versioned, build);
    if r.result.Err? {
      return Outcome(Err(r.result.error), s.trace + r.trace), k;
    }
    return Outcome(Ok(s.result.value + r.result.value), s.trace + r.trace), k;
  }

  /** The metadata, then the extras. */
  method RunDescribed(env: Env, k: string, t: SearchType, versioned: seq<Section>, build: Lookups.Build) returns (o: Outcome<seq<Section>>)
    ensures o == Described(env, k, t, versioned, build)
  {
    var m := RunMetadata(env, k, t, versioned);
    if m.result.Err? {
      return Outcome(Err(m.result.error), m.trace);
    }
    var x := RunExtras(env, k, t, m.result.value, build);
    if x.result.Err? {
      return Outcome(Err(x.result.error), m.trace + x.trace);
    }
    return Outcome(Ok(m.result.value.sections + x.result.value), m.trace + x.trace);
  }

  /** `run_search`. */
  method RunSearch(env: Env, key: string, stype: string, versions: seq<string>, build: Lookups.Build) returns (r: Resolution)
    ensures r == Resolve(env, key, stype, versions, build)
  {
    var t := Parse(stype);
    if Rejected(key, t) {
      return Resolution(Invalid(key, stype), []);
    }
    var pv := Outcome(Ok(Lookups.Versioned([], Str(""))), []);
    if IsNeuron(t) {
      pv := Lookups.ShowPublishedVersioned(env, Lower(key), versions, build);
    }
    if pv.result.Err? {
      return Resolution(ServerError(pv.result.error), pv.trace);
    }
    var k := key;
    if IsNeuron(t) && Truthy(pv.result.value.name) {
      k := Format(pv.result.value.name);
    }
    if t == SlideCode {
      k := Upper(k);
    }
    var g;
    g, k := RunGuarded(env, k, t, pv.result.value.sections, build);
    if g.result.Err? {
      return Resolution(Failure(stype, k, g.result.error), pv.trace + g.trace);
    }
    return Resolution(Report(stype + " " + k, g.result.value), pv.trace + g.trace);
  }
}
