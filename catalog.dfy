/**
 * Normalisation of the GitHub Models catalog into the OpenAI model list
 * (functions/processor.js, lines 67-80).
 *
 * Time is an input: `nowMs` stands for `Date.now()` (integer milliseconds since
 * the epoch) and `parseDate(v)` for `new Date(v).getTime()`, which is `None` when
 * JavaScript yields NaN.
 */
module Catalog {
  import opened Optional

  /** One entry of the upstream catalog, as decoded from its JSON. */
  datatype GitHubModel = GitHubModel(id: string, version: string, publisher: Option<string>)

  /** One entry of the OpenAI list; `kind` is the JSON member `object`. */
  datatype OpenAIModel = OpenAIModel(id: string, kind: string, created: int, ownedBy: string)

  const ModelKind := "model"
  const UnknownOwner := "unknown"

  /** `Math.floor(ms / 1000)`: the whole second that contains the instant `ms`. */
  function FloorSeconds(ms: int): (s: int)
    ensures s * 1000 <= ms < s * 1000 + 1000
  {
    ms / 1000
  }

  /** `publisher || 'unknown'`: a missing or empty publisher is falsy. */
  function OwnedBy(publisher: Option<string>): (owner: string)
    ensures owner != ""
    ensures publisher.Some? && publisher.value != "" ==> owner == publisher.value
    ensures publisher.None? || publisher.value == "" ==> owner == UnknownOwner
  {
    match publisher
    case Some(p) => if p != "" then p else UnknownOwner
    case None => UnknownOwner
  }

  /**
   * The `created` timestamp of one entry. The version "1" reads the clock; any
   * other version is parsed as a date. The `||` fallback to the clock catches
   * both NaN and 0, so an instant in the first second after the epoch is
   * replaced by the clock too.
   */
  function Created(version: string, nowMs: int, parseDate: string -> Option<int>): (created: int)
    ensures version == "1" ==> created == FloorSeconds(nowMs)
    ensures version != "1" && parseDate(version).None? ==> created == FloorSeconds(nowMs)
    ensures (version != "1" && parseDate(version).Some? && !(0 <= parseDate(version).value < 1000)) ==>
              created == FloorSeconds(parseDate(version).value)
    ensures (version != "1" && parseDate(version).Some? && 0 <= parseDate(version).value < 1000) ==>
              created == FloorSeconds(nowMs)
    ensures created == 0 ==> 0 <= nowMs < 1000
  {
    var instant := if version == "1" then Some(nowMs) else parseDate(version);
    match instant
    case Some(ms) => if FloorSeconds(ms) != 0 then FloorSeconds(ms) else FloorSeconds(nowMs)
    case None => FloorSeconds(nowMs)
  }

  /** The callback given to `githubModels.map`. */
  function NormalizeModel(m: GitHubModel, nowMs: int, parseDate: string -> Option<int>): (n: OpenAIModel)
    ensures n.id == m.id && n.kind == ModelKind
    ensures n.ownedBy == OwnedBy(m.publisher)
    ensures n.created == Created(m.version, nowMs, parseDate)
  {
    OpenAIModel(m.id, ModelKind, Created(m.version, nowMs, parseDate), OwnedBy(m.publisher))
  }

  /** `githubModels.map(...)`: one output entry per input entry, in the same order. */
  function Normalize(models: seq<GitHubModel>, nowMs: int, parseDate: string -> Option<int>): (data: seq<OpenAIModel>)
    ensures |data| == |models|
    ensures forall i :: 0 <= i < |models| ==> data[i] == NormalizeModel(models[i], nowMs, parseDate)
  {
    if models == [] then []
    else [NormalizeModel(models[0], nowMs, parseDate)] + Normalize(models[1..], nowMs, parseDate)
  }

  function GitHubIds(models: seq<GitHubModel>): seq<string>
  {
    if models == [] then [] else [models[0].id] + GitHubIds(models[1..])
  }

  function OpenAIIds(data: seq<OpenAIModel>): seq<string>
  {
    if data == [] then [] else [data[0].id] + OpenAIIds(data[1..])
  }

  /** The list of ids survives normalisation unchanged, in order. */
  lemma {:induction false} NormalizePreservesIds(models: seq<GitHubModel>, nowMs: int, parseDate: string -> Option<int>)
    ensures OpenAIIds(Normalize(models, nowMs, parseDate)) == GitHubIds(models)
  {
    if models != [] {
      NormalizePreservesIds(models[1..], nowMs, parseDate);
    }
  }

  /** Every normalised entry is a "model" with a non-empty owner and a timestamp from the clock or from its version. */
  lemma NormalizedEntries(models: seq<GitHubModel>, nowMs: int, parseDate: string -> Option<int>, i: int)
    requires 0 <= i < |models|
    ensures var n := Normalize(models, nowMs, parseDate)[i];
      n.kind == ModelKind && n.ownedBy != "" && n.id == models[i].id &&
      (n.created == FloorSeconds(nowMs) ||
       (parseDate(models[i].version).Some? && n.created == FloorSeconds(parseDate(models[i].version).value)))
  {
  }
}
