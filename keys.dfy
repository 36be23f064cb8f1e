/**
 * The key normalizer of `run_search`: the six search types, the digit rules
 * that reject a key, and the upper-casing of slide codes.
 */
module Keys {
  import opened Text

  /** The search type named in the request path; any other name is kept as is. */
  datatype SearchType =
    | PublishingName
    | Sample
    | SlideCode
    | NeuronType
    | NeuronInstance
    | BodyId
    | Unlisted(name: string)

  function Name(t: SearchType): string {
    match t
    case PublishingName => "Publishing name"
    case Sample => "Sample"
    case SlideCode => "Slide code"
    case NeuronType => "Neuron type"
    case NeuronInstance => "Neuron instance"
    case BodyId => "Body ID"
    case Unlisted(n) => n
  }

  predicate Listed(stype: string) {
    stype in ["Publishing name", "Sample", "Slide code", "Neuron type", "Neuron instance", "Body ID"]
  }

  /** Read the search type from its name; the name is recovered from the result. */
  function Parse(stype: string): (t: SearchType)
    ensures Name(t) == stype
    ensures t.Unlisted? <==> !Listed(stype)
  {
    match stype
    case "Publishing name" => PublishingName
    case "Sample" => Sample
    case "Slide code" => SlideCode
    case "Neuron type" => NeuronType
    case "Neuron instance" => NeuronInstance
    case "Body ID" => BodyId
    case _ => Unlisted(stype)
  }

  /** Every search type, apart from an unlisted one that borrows a listed name, is read back from its name. */
  lemma ParseName(t: SearchType)
    requires t.Unlisted? ==> !Listed(t.name)
    ensures Parse(Name(t)) == t
  {
  }

  /** The search types resolved through the fly-light sample tables. */
  predicate IsFlyLight(t: SearchType) {
    t == PublishingName || t == Sample || t == SlideCode
  }

  predicate IsNeuron(t: SearchType) {
    t == NeuronType || t == NeuronInstance
  }

  /** Types whose keys must be numeric. */
  predicate NumericOnly(t: SearchType) {
    t == BodyId || t == Sample
  }

  /** Types whose keys must not be numeric. */
  predicate NonNumeric(t: SearchType) {
    t == PublishingName || t == SlideCode || t == NeuronType || t == NeuronInstance
  }

  /** The two digit rules checked before any lookup. */
  predicate Rejected(key: string, t: SearchType) {
    (NumericOnly(t) && !IsDigits(key)) || (NonNumeric(t) && IsDigits(key))
  }

  /** The key every lookup starts from: slide codes are upper-cased. */
  function Normalize(key: string, t: SearchType): string {
    if t == SlideCode then Upper(key) else key
  }

  /**
   * A Body ID or Sample key is rejected exactly when it is empty or holds a
   * non-digit; a publishing name, slide code or neuron type/instance exactly
   * when it is non-empty and all digits; an unlisted type is never rejected.
   */
  lemma RejectedExactly(key: string, t: SearchType)
    ensures NumericOnly(t) ==>
      (Rejected(key, t) <==> key == "" || exists i :: 0 <= i < |key| && !IsDigit(key[i]))
    ensures NonNumeric(t) ==>
      (Rejected(key, t) <==> key != "" && forall i :: 0 <= i < |key| ==> IsDigit(key[i]))
    ensures t.Unlisted? ==> !Rejected(key, t)
  {
  }

  /** Normalizing a slide code is idempotent and keeps an accepted key accepted. */
  lemma NormalizeIdempotent(key: string, t: SearchType)
    ensures Normalize(Normalize(key, t), t) == Normalize(key, t)
    ensures !Rejected(key, t) ==> !Rejected(Normalize(key, t), t)
  {
    UpperIdempotent(key);
  }
}
