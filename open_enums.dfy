/**
  The two open enumerations of the claim set, `Visibility` and
  `RunnerEnvironment`. Each has named variants, serialised under their
  kebab-case names, and an untagged catch-all `Other` that carries any other
  string verbatim.

  Deserialisation tries the tagged variants first and the catch-all second,
  so `Other` wrapping a known tag is never produced by decoding, and encoding
  it is indistinguishable from encoding the named variant.
 */
module OpenEnums {
  import opened Wrappers
  import opened JsonValues

  datatype Visibility = Internal | Private | Public | Other(text: string)

  datatype RunnerEnvironment = GithubHosted | SelfHosted | Other(text: string)

  /** The wire names of the named `Visibility` variants. */
  const VisibilityTags: set<string> := {"internal", "private", "public"}

  /** The wire names of the named `RunnerEnvironment` variants. */
  const RunnerTags: set<string> := {"github-hosted", "self-hosted"}

  /** True of `Other(s)` when `s` is the wire name of a named variant. */
  predicate ShadowsVisibilityTag(v: Visibility) {
    v.Other? && v.text in VisibilityTags
  }

  predicate ShadowsRunnerTag(e: RunnerEnvironment) {
    e.Other? && e.text in RunnerTags
  }

  // ---------------------------------------------------------------- Visibility

  /** The string a `Visibility` serialises to. */
  function EncodeVisibility(v: Visibility): (s: string)
    ensures !v.Other? ==> s in VisibilityTags
    ensures v.Other? ==> s == v.text
    ensures DecodeVisibility(s) == v <==> !ShadowsVisibilityTag(v)
  {
    match v
    case Internal => "internal"
    case Private => "private"
    case Public => "public"
    case Other(text) => text
  }

  /** The `Visibility` a JSON string deserialises to; every string is accepted. */
  function DecodeVisibility(s: string): (v: Visibility)
    ensures v == Internal <==> s == "internal"
    ensures v == Private <==> s == "private"
    ensures v == Public <==> s == "public"
    ensures v.Other? <==> s !in VisibilityTags
    ensures v.Other? ==> v.text == s
    ensures !ShadowsVisibilityTag(v)
  {
    if s == "internal" then Internal
    else if s == "private" then Private
    else if s == "public" then Public
    else Visibility.Other(s)
  }

  /** Serialisation writes every variant as a plain string. */
  function VisibilityToJson(v: Visibility): (j: Json)
    ensures j == JStr(EncodeVisibility(v))
    ensures VisibilityFromJson(j) == Some(v) <==> !ShadowsVisibilityTag(v)
  {
    JStr(EncodeVisibility(v))
  }

  /**
    Deserialisation from any JSON value. A string is always accepted. The only
    other form accepted is serde's externally tagged form of a unit variant,
    an object with a single known tag as key and null as value.
   */
  function VisibilityFromJson(j: Json): (r: Option<Visibility>)
    ensures j.JStr? ==> r == Some(DecodeVisibility(j.s))
    ensures r.Some? && !j.JStr? ==>
              !r.value.Other? && j == JObj(map[EncodeVisibility(r.value) := JNull])
    ensures j == JObj(map["internal" := JNull]) ==> r == Some(Internal)
    ensures j == JObj(map["private" := JNull]) ==> r == Some(Private)
    ensures j == JObj(map["public" := JNull]) ==> r == Some(Public)
    ensures r.Some? ==> !ShadowsVisibilityTag(r.value)
  {
    match j
    case JStr(s) => Some(DecodeVisibility(s))
    case JObj(m) =>
      assert "internal" !in map["private" := JNull] && "internal" !in map["public" := JNull];
      assert "private" !in map["public" := JNull];
      if m == map["internal" := JNull] then Some(Internal)
      else if m == map["private" := JNull] then Some(Private)
      else if m == map["public" := JNull] then Some(Public)
      else None
    case _ => None
  }

  // --------------------------------------------------------- RunnerEnvironment

  /** The string a `RunnerEnvironment` serialises to. */
  function EncodeRunnerEnvironment(e: RunnerEnvironment): (s: string)
    ensures !e.Other? ==> s in RunnerTags
    ensures e.Other? ==> s == e.text
    ensures DecodeRunnerEnvironment(s) == e <==> !ShadowsRunnerTag(e)
  {
    match e
    case GithubHosted => "github-hosted"
    case SelfHosted => "self-hosted"
    case Other(text) => text
  }

  /** The `RunnerEnvironment` a JSON string deserialises to; every string is accepted. */
  function DecodeRunnerEnvironment(s: string): (e: RunnerEnvironment)
    ensures e == GithubHosted <==> s == "github-hosted"
    ensures e == SelfHosted <==> s == "self-hosted"
    ensures e.Other? <==> s !in RunnerTags
    ensures e.Other? ==> e.text == s
    ensures !ShadowsRunnerTag(e)
  {
    if s == "github-hosted" then GithubHosted
    else if s == "self-hosted" then SelfHosted
    else RunnerEnvironment.Other(s)
  }

  function RunnerEnvironmentToJson(e: RunnerEnvironment): (j: Json)
    ensures j == JStr(EncodeRunnerEnvironment(e))
    ensures RunnerEnvironmentFromJson(j) == Some(e) <==> !ShadowsRunnerTag(e)
  {
    JStr(EncodeRunnerEnvironment(e))
  }

  /** As `VisibilityFromJson`, for the runner environment's two tags. */
  function RunnerEnvironmentFromJson(j: Json): (r: Option<RunnerEnvironment>)
    ensures j.JStr? ==> r == Some(DecodeRunnerEnvironment(j.s))
    ensures r.Some? && !j.JStr? ==>
              !r.value.Other? && j == JObj(map[EncodeRunnerEnvironment(r.value) := JNull])
    ensures j == JObj(map["github-hosted" := JNull]) ==> r == Some(GithubHosted)
    ensures j == JObj(map["self-hosted" := JNull]) ==> r == Some(SelfHosted)
    ensures r.Some? ==> !ShadowsRunnerTag(r.value)
  {
    match j
    case JStr(s) => Some(DecodeRunnerEnvironment(s))
    case JObj(m) =>
      assert "github-hosted" !in map["self-hosted" := JNull];
      if m == map["github-hosted" := JNull] then Some(GithubHosted)
      else if m == map["self-hosted" := JNull] then Some(SelfHosted)
      else None
    case _ => None
  }

  // -------------------------------------------------------------------- lemmas

  /** Decoding then encoding gives back every string unchanged, known tag or not. */
  lemma VisibilityTextPreserved(s: string)
    ensures EncodeVisibility(DecodeVisibility(s)) == s
  {
  }

  lemma RunnerEnvironmentTextPreserved(s: string)
    ensures EncodeRunnerEnvironment(DecodeRunnerEnvironment(s)) == s
  {
  }

  /**
    `Other(t)` is written as `t` itself, so reading it back gives what `t`
    decodes to: the named variant when `t` is one of the tags.
   */
  lemma OtherVisibilityReadsAsText(t: string)
    ensures DecodeVisibility(EncodeVisibility(Visibility.Other(t))) == DecodeVisibility(t)
    ensures t in VisibilityTags ==> DecodeVisibility(EncodeVisibility(Visibility.Other(t))) != Visibility.Other(t)
  {
  }

  lemma OtherRunnerEnvironmentReadsAsText(t: string)
    ensures DecodeRunnerEnvironment(EncodeRunnerEnvironment(RunnerEnvironment.Other(t))) == DecodeRunnerEnvironment(t)
    ensures t in RunnerTags ==>
              DecodeRunnerEnvironment(EncodeRunnerEnvironment(RunnerEnvironment.Other(t))) != RunnerEnvironment.Other(t)
  {
  }
}
