/**
 * Query-shape selection: the predicate each document-store lookup sends,
 * chosen from the search type and the table.
 */
module Queries {
  import opened Text
  import opened Values
  import opened Keys

  /**
   * A document-store predicate: match everything (`{}`), one field equal to
   * a value, or one field matched by a regular expression.
   */
  datatype Query =
    | MatchAll
    | Equals(field: string, value: Value)
    | Regex(field: string, pattern: string, ignoreCase: bool)

  /** The case-insensitive pattern `'^' + key + '$'`; the key is not escaped, so its own regex characters act as such. */
  function ExactIgnoringCase(field: string, key: string): Query {
    Regex(field, "^" + key + "$", true)
  }

  function SampleRef(key: string): string {
    "Sample#" + key
  }

  /** `show_jacs`: the `sample` table or the `image` table. */
  function JacsQuery(key: string, t: SearchType, table: string): Query
    requires t == Sample && table == "sample" ==> IsDigits(key)
  {
    match t
    case PublishingName => ExactIgnoringCase("publishingName", key)
    case Sample =>
      if table == "sample" then Equals("_id", Int(DigitsValue(key)))
      else Equals("sampleRef", Str(SampleRef(key)))
    case SlideCode => Equals("slideCode", Str(key))
    case _ => MatchAll
  }

  /** `show_emb`: both neuron types search the `neuronType` field. */
  function EmbQuery(key: string, t: SearchType): Query {
    if IsNeuron(t) then Equals("neuronType", Str(key)) else Equals("name", Str(key))
  }

  /** `show_nmd_purl`: the `neuronMetadata` table or the `publishedURL` table. */
  function NmdQuery(key: string, t: SearchType, table: string): Query {
    match t
    case PublishingName => ExactIgnoringCase("publishedName", key)
    case Sample =>
      if table == "neuronMetadata" then Equals("sourceRefId", Str(SampleRef(key)))
      else Equals("sampleRef", Str(SampleRef(key)))
    case SlideCode => Equals("slideCode", Str(key))
    case NeuronType => Equals("neuronType", Str(key))
    case NeuronInstance => Equals("neuronInstance", Str(key))
    case BodyId =>
      if table == "publishedURL" then Regex("publishedName", ":" + key + "$", false)
      else Equals("publishedName", Str(key))
    case Unlisted(_) => MatchAll
  }

  /** `show_pli` */
  function PliQuery(key: string, t: SearchType): Query {
    match t
    case PublishingName => Equals("name", Str(key))
    case Sample => Equals("sampleRef", Str(SampleRef(key)))
    case SlideCode => Equals("slideCode", Str(key))
    case _ => MatchAll
  }

  /** The value a query compares against, or the text of its pattern. */
  function Operand(q: Query): string {
    match q
    case MatchAll => ""
    case Equals(_, v) => Format(v)
    case Regex(_, p, _) => p
  }

  /**
   * A Sample key queries the numeric `_id` on the sample table and the
   * reference `"Sample#" + key` on every other table; reading either back the
   * way the report shows it (`str(_id)`, `sampleRef` without "Sample#")
   * gives the key again when it is a canonical numeral.
   */
  lemma SampleQueriesRoundTrip(key: string, table: string)
    requires Canonical(key)
    ensures JacsQuery(key, Sample, "sample") == Equals("_id", Int(DigitsValue(key)))
    ensures Format(JacsQuery(key, Sample, "sample").value) == key
    ensures table != "sample" ==> JacsQuery(key, Sample, table) == Equals("sampleRef", Str("Sample#" + key))
    ensures ReplaceAll(SampleRef(key), "Sample#", "") == key
    ensures PliQuery(key, Sample) == Equals("sampleRef", Str("Sample#" + key))
    ensures NmdQuery(key, Sample, table) ==
      Equals(if table == "neuronMetadata" then "sourceRefId" else "sampleRef", Str("Sample#" + key))
  {
    CanonicalRoundTrip(key);
    RemoveLeading("Sample#", key);
    assert !IsDigit('S');
    AbsentHead(key, "Sample#");
  }

  /**
   * A Body ID key matches `publishedName` exactly on neuronMetadata and by
   * the suffix pattern `":" + key + "$"` on publishedURL; a publishing name
   * is matched by the case-insensitive pattern `'^' + key + '$'` (the key is
   * not escaped) on every table that is searched by name.
   */
  lemma NameQueries(key: string)
    ensures NmdQuery(key, BodyId, "neuronMetadata") == Equals("publishedName", Str(key))
    ensures NmdQuery(key, BodyId, "publishedURL") == Regex("publishedName", ":" + key + "$", false)
    ensures forall table :: JacsQuery(key, PublishingName, table) == Regex("publishingName", "^" + key + "$", true)
    ensures forall table :: NmdQuery(key, PublishingName, table) == Regex("publishedName", "^" + key + "$", true)
  {
  }

  /**
   * Every query a listed type sends carries the key it was given as text
   * (the sample table's numeric `_id` is covered above); only an unlisted
   * type matches everything.
   */
  lemma QueriesCarryKey(key: string, t: SearchType, table: string)
    requires t == Sample ==> IsDigits(key)
    ensures IsFlyLight(t) && !(t == Sample && table == "sample") ==> Occurs(Operand(JacsQuery(key, t, table)), key)
    ensures !t.Unlisted? ==> Occurs(Operand(NmdQuery(key, t, table)), key)
    ensures IsFlyLight(t) ==> Occurs(Operand(PliQuery(key, t)), key)
    ensures Occurs(Operand(EmbQuery(key, t)), key)
    ensures t.Unlisted? ==> NmdQuery(key, t, table) == MatchAll
  {
    OccursInside("", key, "");
    OccursInside("Sample#", key, "");
    OccursInside("^", key, "$");
    OccursInside(":", key, "$");
    assert "Sample#" + key == "Sample#" + key + "";
    assert key == "" + key + "";
  }
}
