# Search resolver of the NeuronBridge precompute dashboard

This project models `run_search(key, stype)` of `api/precompute_dashboard.py`. It is the
search page of the NeuronBridge precompute dashboard. Given a key and a search type, the
resolver does the following:

- It checks the key against the digit rules of its type, and returns the invalid-key page
  when the key is rejected.
- For a neuron type or instance, it first asks the published-versioned DynamoDB table for a
  name to search under. That lookup uses the version `generate_version_pulldown` chooses.
- It upper-cases a slide code.
- Inside one `try` block, it looks the key up in order:
  1. the JACS `sample` and `image` tables, for the fly-light types (Publishing name, Sample,
     Slide code), or `emBody` for the other types;
  2. NeuronBridge `neuronMetadata`;
  3. `publishedURL`, or the published-versioned body IDs for a neuron type or instance;
  4. `publishedLMImage`, with its stacks releases, for the fly-light types; or the skeletons
     and custom annotations, for a Body ID;
  5. the DOIs of the publishing names that `publishedURL` reported.
- Files named by `publishedURL` and `publishedLMImage` records are checked in S3 by
  `check_s3`. That check keeps a cache of the (file type, key) pairs already probed.
- The first exception in the block turns the page into an error page.

The stores are modelled as oracles in `Backend.Env`:

- `store` answers a MongoDB or DynamoDB request with its records, or with the exception it
  raises.
- `probe` answers an S3 `head_object`.

Every step returns an `Outcome`: its result, plus the trace of requests it sent. The trace
makes statements such as "no request", "looked up once" and "in this order" provable. Each
source function is modelled twice:

- a specification function (`JacsLookup`, `NmdLookup`, `PliLookup`, `Resolve`, …);
- a method that follows the source's loops and in-place updates, proved equal to that
  function.

`check_s3` mutates its `s3files`, `outs3` and `errtype` arguments. It is therefore modelled
as the class `S3Check.ExistenceChecker`, whose methods update that state.

Two places where the code and its intended behaviour differ are modelled both ways, selected
by `Lookups.Build` (`AsWritten` or `Corrected`); see "## Findings".

Three behaviours of the code worth noting:

- With several versions and none requested, `generate_version_pulldown` ends on the LAST
  version listed (lines 238-240), not the first. See `Versions.SelectedCases` and
  `Versions.LastNotFirst`.
- A (file type, key) pair that `check_s3` has already seen adds no output entry at all
  (lines 309-310). See `S3Check.RepeatIsSkipped` and `S3Check.CheckRecordsAndCounts`.
- Only the listed columns are padded. Any other missing column raises `KeyError`, which leads
  to the error page.

## Model

| member | source | states |
|---|---|---|
| Keys.Parse | api/precompute_dashboard.py:988-1001 | The search type read from `stype` gives back `stype` as its name; it is unlisted exactly when `stype` names none of the six types |
| Keys.RejectedExactly | api/precompute_dashboard.py:993-1000 | A Body ID or Sample key is rejected exactly when it is empty or has a non-digit; a publishing name, slide code or neuron type/instance key exactly when it is non-empty and all digits; an unlisted type never rejects |
| Keys.NormalizeIdempotent | api/precompute_dashboard.py:1005-1006 | Upper-casing a slide code is idempotent and keeps an accepted key accepted |
| Text.Upper | api/precompute_dashboard.py:1006 | `key.upper()` keeps the length, leaves no lower-case letter and changes only the case of letters |
| Text.Lower | api/precompute_dashboard.py:1002 | `key.lower()` keeps the length, leaves no upper-case letter and changes only the case of letters |
| Text.UpperIdempotent | api/precompute_dashboard.py:1005-1006 | Upper-casing twice equals upper-casing once, and never changes whether a key is all digits |
| Text.ReplaceChar | api/precompute_dashboard.py:318 | `key.replace('+', ' ')` rewrites exactly the positions holding '+' and nothing else |
| Text.SplitOnce | api/precompute_dashboard.py:308 | `split('/', 1)` fails to unpack exactly when there is no '/'; otherwise bucket + '/' + key rebuilds the text, and the bucket holds no '/' |
| Text.AfterLast | api/precompute_dashboard.py:741 | `split(':')[-1]` is the longest suffix that holds no ':', preceded by ':' when shorter than the text |
| Text.NatToStringRoundTrip | api/precompute_dashboard.py:342 | `int(str(n)) == n` |
| Text.CanonicalRoundTrip | api/precompute_dashboard.py:342 | `str(int(s)) == s` for every digit string without a leading zero |
| Queries.SampleQueriesRoundTrip | api/precompute_dashboard.py:342 | A Sample key queries the numeric `_id` of the sample table and `"Sample#" + key` everywhere else; reading either back as the report shows it gives the key |
| Queries.NameQueries | api/precompute_dashboard.py:427-443 | A Body ID matches `publishedName` exactly on neuronMetadata and by the pattern `":" + key + "$"` on publishedURL; a publishing name is matched by the case-insensitive pattern `'^' + key + '$'`, with the key not escaped (so "a.c" also matches "abc") |
| Queries.QueriesCarryKey | api/precompute_dashboard.py:427-443 | Every query a listed type sends carries its key; an unlisted type sends the empty payload that matches every record |
| Links.UrlText | api/precompute_dashboard.py:657-665 | The link text is a suffix of the URL; it differs from the URL only when the URL starts with the S3 host and a bucket segment |
| Links.UrlTextOfS3Url | api/precompute_dashboard.py:664 | For an S3 URL of a bucket without '/' and a path, the link text is the path |
| Links.EmptyBucketUnchanged | api/precompute_dashboard.py:664 | A URL with an empty bucket segment is shown unchanged |
| Versions.OverwrittenIsLast | api/precompute_dashboard.py:238-240 | The overwriting loop leaves the last version, or the starting value when there is none |
| Versions.SelectedCases | api/precompute_dashboard.py:233-240 | No versions give ''; one version is used as it is; with several, a requested version is kept, and otherwise the LAST one listed is used |
| Versions.LastNotFirst | api/precompute_dashboard.py:238-240 | With versions ["v2", "v1"] and none requested, "v1" is chosen |
| Versions.GenerateVersionPulldown | api/precompute_dashboard.py:223-247 | Returns the selected version; with more than one version, one option per version in order, and only the selected one is marked |
| S3Check.Locate | api/precompute_dashboard.py:307-308 | The host is stripped and the rest split at its first '/'; the result is absent exactly when unpacking would fail |
| S3Check.Probed | api/precompute_dashboard.py:317-326 | A probe adds one entry, which is a miss exactly on a 404 and an error exactly on another client error; it sets `notfound` or `other` accordingly; an unexpected exception changes nothing |
| S3Check.CheckOneFacts | api/precompute_dashboard.py:306-326 | One pair sends at most one probe; after it the pair is recorded and other file types are untouched; it sends a probe exactly when the pair was not seen before |
| S3Check.CheckOneFlags | api/precompute_dashboard.py:320-326 | One pair sets a flag exactly when the flag was already set or its probe added the matching entry |
| S3Check.ExistenceChecker.Record | api/precompute_dashboard.py:317-326 | The `try`/`except` around the probe updates the state as `Probed` says |
| S3Check.ExistenceChecker.CheckEntry | api/precompute_dashboard.py:306-326 | One pass of the loop updates the state and returns the probe and fault as `CheckOne` says |
| S3Check.ExistenceChecker.Check | api/precompute_dashboard.py:295-326 | `check_s3` updates the cache, the output and the flags as `CheckAll` says, and returns the probes it issued |
| S3Check.CheckRecordsAndCounts | api/precompute_dashboard.py:306-326 | After a run without an exception, every pair is recorded; the output grows by one entry per probe, which is one per pair not seen before |
| S3Check.CheckKeeps | api/precompute_dashboard.py:309-316 | Output already collected is kept, and no recorded pair is forgotten |
| S3Check.FlagsSticky | api/precompute_dashboard.py:320-326 | `notfound` ends up set exactly when it was set or some new entry is a 404 miss; `other` likewise for other client errors |
| S3Check.RepeatIsSkipped | api/precompute_dashboard.py:309-310 | Checking the same files again with the state left behind sends no probe and changes nothing |
| S3Check.AllSeenSkipped | api/precompute_dashboard.py:309-310 | Pairs that are all recorded already are skipped without a probe |
| S3Check.OnlyProbes | api/precompute_dashboard.py:318 | The check sends nothing but existence probes |
| S3Check.CheckAborts | api/precompute_dashboard.py:317-326 | An exception other than `ClientError` ends the check: it comes from the last probe sent, and no earlier probe raised |
| Backend.Ask | api/precompute_dashboard.py:346-351 | A store request is sent once; it succeeds exactly when the store does not raise, and then returns the store's records |
| Sections.NmdHeadersShape | api/precompute_dashboard.py:456-467 | neuronMetadata shows `sourceRefId` first and `datasetLabels` last; publishedURL shows `sampleRef` first, ends with `alpsRelease` for Sample and Slide code, and keeps only four columns for a Body ID |
| Values.Render | api/precompute_dashboard.py:375 | The `'</td><td>'.join` of a record succeeds exactly when every header is present and holds text, giving one cell per header in order |
| Values.Collect | api/precompute_dashboard.py:365-376 | A row loop succeeds exactly when every record does, and then yields their cells in order |
| Values.DistinctElements | api/precompute_dashboard.py:482-483 | The deduplicated names are exactly the names given, each once |
| Values.DistinctFirst | api/precompute_dashboard.py:482-483 | Deduplication keeps the first name first |
| Jacs.JacsRowOk | api/precompute_dashboard.py:365-375 | A record is shown exactly when every listed column it has holds text (except the sample table's `_id`, which is converted) |
| Jacs.JacsRowShown | api/precompute_dashboard.py:365-375 | A record shown has one cell per column: `_id` converted, `sampleRef` without "Sample#", every other column as it is or '' |
| Jacs.JacsPnameIsLast | api/precompute_dashboard.py:369-372 | On the sample table the publishing name returned is that of the LAST record, or '' when that record has none; other tables return '' |
| Jacs.JacsNotFound | api/precompute_dashboard.py:352-354 | An empty answer gives the not-found line and no publishing name |
| Jacs.JacsLookupShown | api/precompute_dashboard.py:355-377 | A non-empty answer gives the table of the rows and the name they report |
| Jacs.JacsAborts | api/precompute_dashboard.py:346-351 | `show_jacs` sends its one query and fails with a store fault exactly when that query raised |
| Jacs.ShapeRow | api/precompute_dashboard.py:366-375 | The loop body's cells are the record's cells, and the publishing name is taken on the sample table only |
| Jacs.ShowRows | api/precompute_dashboard.py:365-376 | The row loop yields the rows and name the specification gives |
| Jacs.ShowJacs | api/precompute_dashboard.py:329-377 | `show_jacs` returns the sections and name of `JacsLookup` |
| Emb.EmbRowOk | api/precompute_dashboard.py:408-413 | A record is shown exactly when it has an `_id` and a text `name`, and every padded column it has holds text |
| Emb.EmbRowShown | api/precompute_dashboard.py:408-413 | A record shown has `_id` converted, `name` as it is, and every padded column as it is or '' |
| Emb.EmbNotFound | api/precompute_dashboard.py:400-402 | An empty answer reports a Body ID not found in emBody, whatever the search type |
| Emb.EmbAborts | api/precompute_dashboard.py:394-399 | `show_emb` sends its one query and fails with a store fault exactly when it raised |
| Emb.ShapeRow | api/precompute_dashboard.py:409-413 | The loop body gives the record's cells |
| Emb.ShowRows | api/precompute_dashboard.py:408-414 | The row loop gives every record's cells, up to the first that cannot be shown |
| Emb.ShowEmb | api/precompute_dashboard.py:380-415 | `show_emb` returns the sections of `EmbLookup` |
| NmdPurl.ShapedFacts | api/precompute_dashboard.py:473-479 | Shaping fails exactly when `datasetLabels` cannot be joined as text (a number, None, or a list with an item that is not text; text joins character by character, a dictionary by its keys); otherwise it keeps every column, pads the three listed ones, and joins `datasetLabels` with ", " (or '' when absent) |
| NmdPurl.NmdRow | api/precompute_dashboard.py:472-484 | A row shown has one cell per header, and its record has a `publishedName` |
| NmdPurl.FirstReleaseFacts | api/precompute_dashboard.py:480-481 | The release is None only when no record carries one; once found, later records never overwrite it, and it is some record's release |
| NmdPurl.PublishedNamesFacts | api/precompute_dashboard.py:482-483 | The names gathered hold each record's `publishedName` exactly once and nothing else, starting with the first record's |
| NmdPurl.NmdCarries | api/precompute_dashboard.py:444-487 | A lookup that succeeds returns the first release and the distinct publishing names (None for both on an empty answer); only publishedURL probes S3 |
| NmdPurl.NmdNotFound | api/precompute_dashboard.py:452-454 | An empty answer gives the not-found line, no release and no names |
| NmdPurl.UploadsKeep | api/precompute_dashboard.py:486-504 | The S3 check of the uploads only adds a section; release and names pass through, and nothing is probed when the last row has no uploads |
| NmdPurl.NmdAborts | api/precompute_dashboard.py:446-504 | `show_nmd_purl` fails with a store fault exactly when the last request it sent raised, after none before it did |
| NmdPurl.ShapeRow | api/precompute_dashboard.py:473-484 | The loop body gives the row's cells, keeps a release already found, and appends a new name |
| NmdPurl.ShowRows | api/precompute_dashboard.py:470-485 | The row loop yields what `NmdShow` gives |
| NmdPurl.AddUploads | api/precompute_dashboard.py:486-504 | The tail of `show_nmd_purl` is `WithUploads` |
| NmdPurl.ShowNmdPurl | api/precompute_dashboard.py:418-504 | `show_nmd_purl` returns `NmdLookup` |
| Pli.PadNone | api/precompute_dashboard.py:622-624 | Each listed field that is missing or None becomes ''; every other column is kept |
| Pli.Marked | api/precompute_dashboard.py:617-621 | The alignment column is set; a flagged release is replaced by its formatted text; the other listed columns are kept |
| Pli.PliCellsShown | api/precompute_dashboard.py:616-625 | A record is shown exactly when its files can be searched, it has a release whenever one is compared, and each column it has is text or None |
| Pli.PliCellsMarks | api/precompute_dashboard.py:617-621 | The alignment says whether `files` names a VisuallyLosslessStack; the release is flagged exactly when the type is not Publishing name, the given release is truthy and the row's differs |
| Pli.StacksFor | api/precompute_dashboard.py:562-578 | `get_stacks` keeps the release when the store answers a truthy one |
| Pli.PliRow | api/precompute_dashboard.py:617-632 | The loop body is `PliStep`, and the shared S3 cache afterwards is the checker's state |
| Pli.PliLoop | api/precompute_dashboard.py:612-632 | The row loop is `PliFold` from an empty cache and no stacks |
| Pli.ShowPli | api/precompute_dashboard.py:581-654 | `show_pli` returns `PliLookup` |
| Pli.LookupKeeps | api/precompute_dashboard.py:628-632 | Looking a key up loses or changes nothing kept, adds a new key only after its one lookup, and sends nothing for a key already kept |
| Pli.PliStacksOnce | api/precompute_dashboard.py:612-632 | A lookup that succeeds keeps distinct stacks keys with truthy releases, each looked up exactly once |
| Pli.PliStacksComplete | api/precompute_dashboard.py:612-632 | Every record's stacks key is looked up, and it is kept exactly when the stacks store holds a truthy release for it |
| Pli.PliAborts | api/precompute_dashboard.py:597-632 | `show_pli` fails with a store fault exactly when the last request sent (the query, a probe or a stacks query) raised, after none before it did |
| Lookups.SkeletonFields | api/precompute_dashboard.py:554-557 | The Key/Value table is shown exactly when every `skeleton…` field holds text; then every field appears once, skeleton fields as links to their URL text |
| Lookups.SkeletonsShown | api/precompute_dashboard.py:535-559 | No item gives nothing; otherwise the Key/Value table of the first item, or a fault when a skeleton field cannot be linked |
| Lookups.SkeletonsAborts | api/precompute_dashboard.py:544-548 | `get_skeletons` sends one query and aborts on its store exception |
| Lookups.ShowSkeletons | api/precompute_dashboard.py:535-559 | The loop over the item gives `GetSkeletons` |
| Lookups.AnnotationRowFields | api/precompute_dashboard.py:528-530 | A match is shown exactly when it is a dictionary holding the five fields; its row is those fields in order |
| Lookups.CustomRows | api/precompute_dashboard.py:516-532 | With matches that are all complete dictionaries, one row per match, in order |
| Lookups.CustomAborts | api/precompute_dashboard.py:516-521 | `get_custom` sends one query and aborts on its store exception |
| Lookups.ShowCustom | api/precompute_dashboard.py:507-532 | The loop over the matches gives `GetCustom` |
| Lookups.GatherDoisTrace | api/precompute_dashboard.py:679-687 | A gathering that completes looks each name up once, in order, and keeps at most one entry per name |
| Lookups.GatherDoisAll | api/precompute_dashboard.py:679-687 | When every name has an item, there is one entry per name, each from that name's item |
| Lookups.GatherDoisNone | api/precompute_dashboard.py:684-689 | When no name has an item, nothing is kept and no DOI section is shown |
| Lookups.DoisAborts | api/precompute_dashboard.py:679-683 | A DOI table is shown only when no lookup raised |
| Lookups.ShowDois | api/precompute_dashboard.py:668-698 | `get_dois`, with its two loops, gives `GetDois` |
| Lookups.PvNameFirstTruthy | api/precompute_dashboard.py:746-748 | The name kept is the first truthy name of the items |
| Lookups.PvNameNoneTruthy | api/precompute_dashboard.py:746-748 | With no truthy name, the name is that of the last item, or '' for no items |
| Lookups.PvRowsIds | api/precompute_dashboard.py:749 | Every item read contributes the text of its body IDs, in order |
| Lookups.PvFailureSwallowed | api/precompute_dashboard.py:740-743 | A failing query is swallowed: no section, the name '', and only the one request |
| Lookups.PvQueryShape | api/precompute_dashboard.py:738-741 | The query uses the table of the selected (last) version and the part of the key after its last ':' |
| Lookups.PvEmptyAnswer | api/precompute_dashboard.py:720-724 | As written, an empty answer raises a TypeError; corrected, it gives an empty body-ID table and no name |
| Lookups.ShowPublishedVersioned | api/precompute_dashboard.py:729-750 | `get_published_versioned` gives `PublishedVersioned` |
| Search.InvalidExactly | api/precompute_dashboard.py:993-1000 | The invalid-key page is shown, with no request, exactly when the digit rules reject the key |
| Search.ResolveTrace | api/precompute_dashboard.py:1001-1030 | Past the key checks, the requests are the published-versioned query (neuron types only), then those of the guarded block from the start key |
| Search.ResolvePage | api/precompute_dashboard.py:1007-1037 | The page is the block's report titled with the key the sample table leaves, or the error page of its fault |
| Search.ResolveAborts | api/precompute_dashboard.py:1007-1034 | A report means no guarded request raised; an error page with a store fault carries the message of the last request, the only one that raised |
| Search.SlideCodeUpperCased | api/precompute_dashboard.py:1005-1009 | A slide code is queried and titled upper-cased |
| Search.NeuronStartsVersioned | api/precompute_dashboard.py:1001-1002 | A neuron type or instance first queries the published-versioned table under the lower-cased key |
| Search.NeuronVersionedRaised | api/precompute_dashboard.py:1001-1004 | When that query raises, emBody is queried under the key as given |
| Search.NeuronNameAdopted | api/precompute_dashboard.py:1002-1004 | When its items answer, the neuron is queried and titled under their first truthy name |
| Search.SampleReportsName | api/precompute_dashboard.py:1009-1012 | The image table is queried with the publishing name the sample table reports |
| Search.PublishingNameAdopted | api/precompute_dashboard.py:1009-1012 | A publishing-name search queries the image table, and titles the page, with the name of the sample table's last record |
| Search.BodyIdNamesFlow | api/precompute_dashboard.py:1015-1030 | A Body ID report with publishedURL records asks for the skeletons of the first distinct publishing name, then the annotations, then one DOI lookup per distinct name, in order |
| Search.BodyIdUnnamedFlow | api/precompute_dashboard.py:1022-1029 | A Body ID report without publishedURL records exists only in the corrected build, and asks for no skeletons and no DOI |
| Search.SilentFlyLight | api/precompute_dashboard.py:1008-1025 | A fly-light key no store knows gives five not-found lines, in table order |
| Search.SilentBodyId | api/precompute_dashboard.py:1015-1034 | A Body ID no store knows gives the error page as written, and three not-found lines when corrected |
| Search.SilentNeuronAsWritten | api/precompute_dashboard.py:1001-1002 | As written, a neuron no store knows ends in a server error after the one published-versioned request |
| Search.SilentNeuronCorrected | api/precompute_dashboard.py:1001-1020 | Corrected, it gives the emBody and neuronMetadata lines and an empty body-ID table |
| Search.RunGuarded | api/precompute_dashboard.py:1007-1030 | The `try` block computes `Guarded` and the key the sample table leaves |
| Search.RunSearch | api/precompute_dashboard.py:988-1037 | `run_search` returns `Resolve` |
| Reports.SourcesShows | api/precompute_dashboard.py:1008-1015 | The first lookups show the sample and image tables, or emBody, and only those |
| Reports.DescribedShows | api/precompute_dashboard.py:1016-1030 | The later lookups show neuronMetadata, then publishedURL (not for neurons), then publishedLMImage (fly-light only), plus only the extra kinds the type allows |
| Reports.ResolveShows | api/precompute_dashboard.py:1007-1030 | Whatever the stores answer, a report shows one not-found line or table per table its search type looks up, in order, and otherwise only sections its type allows (uploads, stacks, skeletons, annotations, DOIs, body IDs) |

## Left out

- Text.IsDigits, Text.Upper and Text.Lower are ASCII-only. Python's `isdigit`, `upper` and `lower` are Unicode-aware, so the model departs from the code on non-ASCII keys:
  - The Sample key '١٢٣' is accepted at line 993 and queries `_id` 123; the model rejects it.
  - The key '²' passes line 993 but makes `int()` raise, which gives the error page; the model gives the invalid page.
  - The publishing name '١٢٣' is rejected at line 997; the model queries it.
  - `'ß'.upper()` is 'SS'; the model leaves 'ß' unchanged.
- Values.Format renders a list as "<list>" and a dictionary as "<dict>". Python's f-string prints their repr into the cell.
- Backend.Find merges `count_documents` and `find` (lines 347-349, 395-397, 447-449, 599-601) into one request with one answer. A `find` that raises after a successful count, and a count that disagrees with the rows found, are not modelled.
- Search.Resolve and Lookups.PvTable take the distinct versions as a parameter. An exception from `coll.distinct` at line 233 is not modelled. That call runs before the `try` block, so such an exception would give a server error.
- Search.StartKey turns an adopted neuron name into text with `Values.Format`. The code (lines 1003-1004) keeps the raw published-versioned value as the key and passes it to `show_emb` and `show_nmd_purl` (lines 389-390, 435-438). A name that is not text, such as a number, is therefore queried here as its formatted text, where the code queries the value itself, which the document store may refuse inside the `try` block.
- Search.RunSearch inherits this from Search.StartKey: for a published-versioned name that is not text, its queries carry `Format(name)` where the code's carry the raw value.
- Some fault messages are abbreviated versions of Python's `str(err)`, which the error page shows at line 1033. For example, "sequence item: expected str instance" stands for "sequence item 1: expected str instance, int found", and "object has no attribute 'replace'" stands for "'int' object has no attribute 'replace'". The kind of fault (`KeyFault`, `TypeFault`, `AttributeFault`, `IndexFault`, `ValueFault` for Python's KeyError, TypeError, AttributeError, IndexError, ValueError) is exact, and so is the key named by a missing-key fault.
- Values.Value has text, integers, None, lists and dictionaries, but no booleans and no floats or Decimals. The stores can return those, and Python formats them as "True" or "1.5"; such values are not modelled.
- Lookups.SkeletonFields returns a map, so the order of the item's fields in the Key/Value table is lost.
- HTML text, HTML escaping, the counts in the headings, and the colour markup are reduced to `Section` and `Cell` values.
- Not modelled: the Flask routing, templates, navbar, `humansize`, the other dashboards and their queries, timing, concurrency, and AWS and MongoDB credentials.
- `ddb_table` is not part of this model.

## Findings

| source | as written | input that shows it | evidently intended | confidence | as-written member | corrected member |
|---|---|---|---|---|---|---|
| api/precompute_dashboard.py:720-724, 746 | `get_dynamodb` returns None when the query has no items, and `for row in rec` then raises TypeError outside the `try` block of `run_search` | Neuron type "foo" with no published-versioned item: server error | An empty body-ID list and no name, after which the search goes on | not executed | Search.SilentNeuronAsWritten | Search.SilentNeuronCorrected |
| api/precompute_dashboard.py:452-454, 1027 | For a Body ID unknown to publishedURL, `pname` is None, and `pname[0]` raises TypeError inside the `try` block | Body ID "1" that no store knows: error page "'NoneType' object is not subscriptable" | Skip the skeletons lookup and report the not-found lines | not executed | Search.SilentBodyId | Search.BodyIdUnnamedFlow |
