/**
 * The sections a search report is made of, in place of the markup the
 * resolver builds, and the column lists each table is shown with.
 */
module Sections {
  import opened Values
  import opened Keys
  import opened S3Check

  /** One part of a search report. */
  datatype Section =
    | NotFound(typeName: string, key: string, table: string)                   // "<type> <key> was not found in <table>"
    | Table(table: string, count: nat, headers: seq<string>, rows: seq<seq<Cell>>)
    | Uploads(table: string, entries: seq<Entry>, notFound: bool, other: bool)  // object-store files and the two warnings
    | Stacks(releases: seq<(string, Value)>)                                    // stacks item type and its release
    | Skeletons(table: string, fields: map<string, Cell>)
    | Annotations(table: string, matches: seq<seq<string>>)
    | Dois(table: string, dois: seq<(string, string, Cell)>)                    // name, citation, link
    | BodyIds(table: string, ids: seq<seq<string>>)

  /** Columns of the `sample` table and of the `image` table. */
  function JacsHeaders(table: string): seq<string> {
    if table == "sample" then ["_id", "slideCode", "line", "publishingName", "gender", "dataSet", "releaseLabel", "status"]
    else ["sampleRef", "slideCode", "line", "anatomicalArea", "tile", "objective", "gender", "dataSet", "name"]
  }

  /** The columns `show_emb` fills with '' when a record lacks them. */
  const EmbPadded: seq<string> := ["neuronType", "neuronInstance", "status", "statusLabel", "dataSetIdentifier"]

  /** The emBody columns: `_id`, `name`, then the padded ones. */
  const EmbHeaders: seq<string> := ["_id", "name"] + EmbPadded

  /** Columns of neuronMetadata / publishedURL for EM-side types (Body ID, neuron type or instance). */
  const NmdEmHeaders: seq<string> :=
    ["sourceRefId", "mipId", "alignmentSpace", "publishedName", "neuronType", "neuronInstance", "datasetLabels"]

  /** Columns of neuronMetadata / publishedURL for the other types. */
  const NmdLmHeaders: seq<string> :=
    ["sourceRefId", "mipId", "alignmentSpace", "slideCode", "publishedName", "anatomicalArea", "objective", "gender", "datasetLabels"]

  /** The columns `show_nmd_purl` shows for a search type on a table. */
  function NmdHeaders(t: SearchType, table: string): seq<string> {
    var base := if t == BodyId || IsNeuron(t) then NmdEmHeaders else NmdLmHeaders;
    if table != "publishedURL" then base
    else
      var renamed := ["sampleRef"] + base[1..];
      if t == Sample || t == SlideCode then renamed[..|renamed| - 1] + ["alpsRelease"]
      else if t == BodyId then renamed[..|renamed| - 3]
      else renamed
  }

  /** The columns `show_nmd_purl` fills with '' when a record lacks them. */
  const NmdPadded: seq<string> := ["sourceRefId", "neuronType", "neuronInstance"]

  /** The publishedLMImage columns shown as the record has them. */
  const PliColumns: seq<string> := ["sampleRef", "slideCode", "name", "area", "tile", "objective"]

  /** The publishedLMImage columns: the plain ones, then the release and the alignment mark. */
  const PliHeaders: seq<string> := PliColumns + ["releaseName", "alignment"]

  /**
   * The neuronMetadata table keeps its columns; publishedURL shows
   * `sampleRef` first, its release in the last column for Sample and Slide
   * code, and only the first four columns for a Body ID. The published name
   * is shown in every case.
   */
  lemma NmdHeadersShape(t: SearchType, table: string)
    ensures table != "publishedURL" ==> NmdHeaders(t, table)[0] == "sourceRefId"
    ensures table != "publishedURL" ==> NmdHeaders(t, table)[|NmdHeaders(t, table)| - 1] == "datasetLabels"
    ensures table == "publishedURL" ==> NmdHeaders(t, table)[0] == "sampleRef"
    ensures table == "publishedURL" && (t == Sample || t == SlideCode) ==>
      NmdHeaders(t, table) == ["sampleRef"] + NmdLmHeaders[1..8] + ["alpsRelease"]
    ensures table == "publishedURL" && t == BodyId ==>
      NmdHeaders(t, table) == ["sampleRef", "mipId", "alignmentSpace", "publishedName"]
    ensures |NmdHeaders(t, table)| == if table == "publishedURL" && t == BodyId then 4 else if t == BodyId || IsNeuron(t) then 7 else 9
    ensures "publishedName" in NmdHeaders(t, table)
  {
    var h := NmdHeaders(t, table);
    if table == "publishedURL" && !(t == Sample || t == SlideCode || t == BodyId) {
      if IsNeuron(t) {
        assert h[3] == "publishedName";
      } else {
        assert h[4] == "publishedName";
      }
    } else if table == "publishedURL" && (t == Sample || t == SlideCode) {
      assert h[4] == "publishedName";
    } else if table == "publishedURL" {
      assert h[3] == "publishedName";
    } else if t == BodyId || IsNeuron(t) {
      assert h[3] == "publishedName";
    } else {
      assert h[4] == "publishedName";
    }
  }
}
