/**
 * The version choice of the published-data pulldown: which DynamoDB
 * published-data version a lookup uses, given the distinct versions on
 * record and the version asked for ("" when none is).
 */
module Versions {

  /** `for ver in versions: version = ver` — what the variable holds once the loop is over. */
  function Overwritten(versions: seq<string>, version: string): string {
    if versions == [] then version else Overwritten(versions[1..], versions[0])
  }

  /** The version `generate_version_pulldown` returns. */
  function Selected(versions: seq<string>, requested: string): string {
    if versions == [] then ""
    else if |versions| == 1 then versions[0]
    else if requested == "" then Overwritten(versions, requested)
    else requested
  }

  /** The overwriting loop leaves the last element, or the starting value when there is none. */
  lemma {:induction false} OverwrittenIsLast(versions: seq<string>, version: string)
    ensures Overwritten(versions, version) == if versions == [] then version else versions[|versions| - 1]
    decreases |versions|
  {
    if versions != [] {
      OverwrittenIsLast(versions[1..], versions[0]);
    }
  }

  /**
   * No versions give the empty version whatever was asked for; a single
   * version is used as it is; with several, an explicit request is kept and
   * otherwise the LAST version listed is used.
   */
  lemma SelectedCases(versions: seq<string>, requested: string)
    ensures versions == [] ==> Selected(versions, requested) == ""
    ensures |versions| == 1 ==> Selected(versions, requested) == versions[0]
    ensures |versions| > 1 && requested == "" ==> Selected(versions, requested) == versions[|versions| - 1]
    ensures |versions| > 1 && requested != "" ==> Selected(versions, requested) == requested
  {
    OverwrittenIsLast(versions, requested);
  }

  /** With two versions and none asked for, the second one is used, not the first. */
  lemma LastNotFirst()
    ensures Selected(["v2", "v1"], "") == "v1"
  {
    SelectedCases(["v2", "v1"], "");
  }

  /** The pulldown: one option per version, the chosen one selected; absent with fewer than two versions. */
  datatype Pulldown = Pulldown(options: seq<(string, bool)>, version: string)

  /** `generate_version_pulldown(coll, version)`, given what `coll.distinct("dynamodb_version")` answered. */
  method GenerateVersionPulldown(versions: seq<string>, requested: string) returns (p: Pulldown)
    ensures p.version == Selected(versions, requested)
    ensures |versions| <= 1 ==> p.options == []
    ensures |versions| > 1 ==> |p.options| == |versions|
    ensures |versions| > 1 ==> forall i :: 0 <= i < |versions| ==> p.options[i] == (versions[i], versions[i] == p.version)
  {
    if versions == [] {
      return Pulldown([], "");
    }
    if |versions| == 1 {
      return Pulldown([], versions[0]);
    }
    var version := requested;
    if version == "" {
      for k := 0 to |versions|
        invariant Overwritten(versions, requested) == Overwritten(versions[k..], version)
      {
        assert versions[k..][1..] == versions[k + 1..];
        version := versions[k];
      }
      assert versions[|versions|..] == [];
    }
    var options := [];
    for k := 0 to |versions|
      invariant |options| == k
      invariant forall i :: 0 <= i < k ==> options[i] == (versions[i], versions[i] == version)
    {
      options := options + [(versions[k], versions[k] == version)];
    }
    return Pulldown(options, version);
  }
}
