/**
  The claim set of a GitHub Actions OIDC token and its serde mapping to and
  from JSON values.

  Encoding writes every field under its key from `Schema`; `None` is written
  as null. Decoding reads an object by key, ignoring keys it does not know,
  or an array holding the fields in declaration order; an absent or null
  `Option` field is `None`, and every other field must be present with a
  value of its kind. A value of the wrong kind is reported before a missing
  field, as serde checks for missing fields only after reading the input.

  Both directions go through `Values`, the fields of a claim set in
  declaration order, so that each is written once, generically over the
  field table.
 */
module ClaimSet {
  import opened Wrappers
  import opened JsonValues
  import opened OpenEnums
  import opened FieldTable

  datatype Claims = Claims(
    aud: string,
    iss: string,
    sub: string,
    exp: real,
    iat: real,
    jti: string,
    nbf: real,
    actor: string,
    actor_id: string,
    base_ref: string,
    environment: Option<string>,
    event_name: string,
    head_ref: string,
    job_workflow_ref: Option<string>,
    job_workflow_sha: Option<string>,
    git_ref: string,
    ref_type: string,
    repository_visibility: Visibility,
    repository: string,
    repository_id: string,
    repository_owner: string,
    repository_owner_id: string,
    run_id: string,
    run_number: string,
    run_attempt: string,
    runner_environment: RunnerEnvironment,
    workflow: string,
    workflow_ref: string,
    workflow_sha: string)

  /** The keys an encoded claim set has and a decoder looks at. */
  const WireKeys: set<string> := KeysOf(Schema())

  /** The keys whose absence makes decoding fail: all but the `Option` fields. */
  const RequiredKeys: set<string> := RequiredKeysOf(Schema())

  /** The value of one field. */
  datatype Value =
    | Text(text: string)
    | Time(time: real)
    | MaybeText(opt: Option<string>)
    | Vis(vis: Visibility)
    | Runner(runner: RunnerEnvironment)

  predicate HasKind(v: Value, k: Kind) {
    match k
    case TextField => v.Text?
    case TimestampField => v.Time?
    case OptionalTextField => v.MaybeText?
    case VisibilityField => v.Vis?
    case RunnerField => v.Runner?
  }

  /** `vs` holds one value per entry of `specs`, each of that entry's kind. */
  predicate ConformsTo(vs: seq<Value>, specs: seq<FieldSpec>) {
    |vs| == |specs| && forall i :: 0 <= i < |vs| ==> HasKind(vs[i], specs[i].kind)
  }

  /** The value of the field of `c` at position `i` of `Schema`. */
  function FieldValue(c: Claims, i: int): (v: Value)
    requires 0 <= i < FieldCount
  {
    match i
    case 0 => Text(c.aud)
    case 1 => Text(c.iss)
    case 2 => Text(c.sub)
    case 3 => Time(c.exp)
    case 4 => Time(c.iat)
    case 5 => Text(c.jti)
    case 6 => Time(c.nbf)
    case 7 => Text(c.actor)
    case 8 => Text(c.actor_id)
    case 9 => Text(c.base_ref)
    case 10 => MaybeText(c.environment)
    case 11 => Text(c.event_name)
    case 12 => Text(c.head_ref)
    case 13 => MaybeText(c.job_workflow_ref)
    case 14 => MaybeText(c.job_workflow_sha)
    case 15 => Text(c.git_ref)
    case 16 => Text(c.ref_type)
    case 17 => Vis(c.repository_visibility)
    case 18 => Text(c.repository)
    case 19 => Text(c.repository_id)
    case 20 => Text(c.repository_owner)
    case 21 => Text(c.repository_owner_id)
    case 22 => Text(c.run_id)
    case 23 => Text(c.run_number)
    case 24 => Text(c.run_attempt)
    case 25 => Runner(c.runner_environment)
    case 26 => Text(c.workflow)
    case 27 => Text(c.workflow_ref)
    case _ => Text(c.workflow_sha)
  }

  /** The fields of `c`, in declaration order. */
  function Values(c: Claims): (vs: seq<Value>)
    ensures |vs| == |Schema()|
  {
    seq(FieldCount, i requires 0 <= i < FieldCount => FieldValue(c, i))
  }

  /** Every field of a claim set has the kind the table gives it. */
  lemma ValuesConform(c: Claims)
    ensures ConformsTo(Values(c), Schema())
  {
  }

  /** The claim set whose fields, in declaration order, are `vs`. */
  function FromValues(vs: seq<Value>): Claims
    requires ConformsTo(vs, Schema())
  {
    Claims(vs[0].text,
           vs[1].text,
           vs[2].text,
           vs[3].time,
           vs[4].time,
           vs[5].text,
           vs[6].time,
           vs[7].text,
           vs[8].text,
           vs[9].text,
           vs[10].opt,
           vs[11].text,
           vs[12].text,
           vs[13].opt,
           vs[14].opt,
           vs[15].text,
           vs[16].text,
           vs[17].vis,
           vs[18].text,
           vs[19].text,
           vs[20].text,
           vs[21].text,
           vs[22].text,
           vs[23].text,
           vs[24].text,
           vs[25].runner,
           vs[26].text,
           vs[27].text,
           vs[28].text)
  }

  // ------------------------------------------------------------------ encoding

  /** An `Option<String>` is written as its content, and `None` as null. */
  function OptionalTextToJson(o: Option<string>): (j: Json)
    ensures j.JNull? <==> o.None?
    ensures o.Some? ==> j == JStr(o.value)
  {
    match o
    case None => JNull
    case Some(s) => JStr(s)
  }

  /** The JSON value one field is written as. */
  function EncodeValue(v: Value): Json {
    match v
    case Text(s) => JStr(s)
    case Time(x) => JNum(x)
    case MaybeText(o) => OptionalTextToJson(o)
    case Vis(e) => VisibilityToJson(e)
    case Runner(e) => RunnerEnvironmentToJson(e)
  }

  function EncodeAll(vs: seq<Value>): (js: seq<Json>)
    ensures |js| == |vs|
  {
    seq(|vs|, i requires 0 <= i < |vs| => EncodeValue(vs[i]))
  }

  /** The JSON object that maps `specs[i].key` to `js[i]`. */
  function ObjectOf(specs: seq<FieldSpec>, js: seq<Json>): (m: map<string, Json>)
    requires |specs| == |js|
    ensures m.Keys == KeysOf(specs)
  {
    if specs == [] then map[]
    else ObjectOf(specs[1..], js[1..])[specs[0].key := js[0]]
  }

  /** Serialisation: an object with one key per field; encoding never fails. */
  function EncodeClaims(c: Claims): (j: Json)
    ensures j.JObj? && j.fields.Keys == WireKeys
  {
    JObj(ObjectOf(Schema(), EncodeAll(Values(c))))
  }

  // ------------------------------------------------------------------ decoding

  datatype DecodeError =
    | NotAStruct                // neither an object nor an array
    | WrongLength(length: nat)  // an array without exactly one element per field
    | MissingField(key: string)
    | InvalidType(key: string)

  /**
    Whether a field of kind `k` accepts what the input holds for it (`None`
    when the key is absent), stated independently of `DecodeValue`.
   */
  predicate Accepts(k: Kind, slot: Option<Json>) {
    match slot
    case None => k == OptionalTextField
    case Some(j) =>
      match k
      case TextField => j.JStr?
      case TimestampField => j.JNum?
      case OptionalTextField => j.JStr? || j.JNull?
      case VisibilityField => VisibilityFromJson(j).Some?
      case RunnerField => RunnerEnvironmentFromJson(j).Some?
  }

  /**
    Deserialisation of one field from what the input holds for it. A missing
    `Option` field is `None`; a missing required field is an error.
   */
  function DecodeValue(spec: FieldSpec, slot: Option<Json>): (r: Result<Value, DecodeError>)
    ensures r.Ok? <==> Accepts(spec.kind, slot)
    ensures r.Ok? ==> HasKind(r.value, spec.kind)
    ensures slot.None? && spec.kind != OptionalTextField ==> r == Err(MissingField(spec.key))
    ensures slot.Some? && r.Err? ==> r.error == InvalidType(spec.key)
    ensures r.Ok? && r.value.Vis? ==> !ShadowsVisibilityTag(r.value.vis)
    ensures r.Ok? && r.value.Runner? ==> !ShadowsRunnerTag(r.value.runner)
  {
    match slot
    case None =>
      if spec.kind == OptionalTextField then Ok(MaybeText(None)) else Err(MissingField(spec.key))
    case Some(j) =>
      match spec.kind
      case TextField =>
        if j.JStr? then Ok(Text(j.s)) else Err(InvalidType(spec.key))
      case TimestampField =>
        if j.JNum? then Ok(Time(j.n)) else Err(InvalidType(spec.key))
      case OptionalTextField =>
        if j.JNull? then Ok(MaybeText(None))
        else if j.JStr? then Ok(MaybeText(Some(j.s)))
        else Err(InvalidType(spec.key))
      case VisibilityField =>
        (match VisibilityFromJson(j)
         case Some(v) => Ok(Vis(v))
         case None => Err(InvalidType(spec.key)))
      case RunnerField =>
        (match RunnerEnvironmentFromJson(j)
         case Some(e) => Ok(Runner(e))
         case None => Err(InvalidType(spec.key)))
  }

  /**
    The error for the first value present, in declaration order, that its
    field cannot read. serde reports a value of the wrong type as it walks
    the input, before it looks for missing fields.
   */
  function FirstTypeError(specs: seq<FieldSpec>, slots: seq<Option<Json>>): (r: Option<DecodeError>)
    requires |specs| == |slots|
    ensures r.None? <==> forall i :: 0 <= i < |specs| && slots[i].Some? ==> Accepts(specs[i].kind, slots[i])
    ensures r.Some? ==> r.value.InvalidType?
    decreases |specs|
  {
    if specs == [] then None
    else if slots[0].Some? && DecodeValue(specs[0], slots[0]).Err? then Some(DecodeValue(specs[0], slots[0]).error)
    else
      var rest := FirstTypeError(specs[1..], slots[1..]);
      assert forall i :: 1 <= i < |specs| ==> specs[1..][i - 1] == specs[i] && slots[1..][i - 1] == slots[i];
      rest
  }

  /** Reads every field in order; the first field that fails decides the error. */
  function DecodeEach(specs: seq<FieldSpec>, slots: seq<Option<Json>>): (r: Result<seq<Value>, DecodeError>)
    requires |specs| == |slots|
    ensures r.Ok? <==> forall i :: 0 <= i < |specs| ==> Accepts(specs[i].kind, slots[i])
    ensures r.Ok? ==>
              && ConformsTo(r.value, specs)
              && forall i :: 0 <= i < |specs| ==> DecodeValue(specs[i], slots[i]) == Ok(r.value[i])
    decreases |specs|
  {
    if specs == [] then Ok([])
    else
      var v :- DecodeValue(specs[0], slots[0]);
      var rest :- DecodeEach(specs[1..], slots[1..]);
      Ok([v] + rest)
  }

  /**
    Decodes every field: first any value of the wrong type is an error, then
    any required field that is missing, each in declaration order.
   */
  function DecodeAll(specs: seq<FieldSpec>, slots: seq<Option<Json>>): (r: Result<seq<Value>, DecodeError>)
    requires |specs| == |slots|
    ensures r.Ok? <==> forall i :: 0 <= i < |specs| ==> Accepts(specs[i].kind, slots[i])
    ensures r.Ok? ==>
              && ConformsTo(r.value, specs)
              && forall i :: 0 <= i < |specs| ==> DecodeValue(specs[i], slots[i]) == Ok(r.value[i])
    ensures (exists i :: 0 <= i < |specs| && slots[i].Some? && !Accepts(specs[i].kind, slots[i])) ==>
              r.Err? && r.error.InvalidType?
  {
    match FirstTypeError(specs, slots)
    case Some(e) => Err(e)
    case None => DecodeEach(specs, slots)
  }

  /** What an object holds for each of `specs`, in order (`None` for an absent key). */
  function SlotsOf(specs: seq<FieldSpec>, m: map<string, Json>): (slots: seq<Option<Json>>)
    ensures |slots| == |specs|
  {
    seq(|specs|, i requires 0 <= i < |specs| =>
      if specs[i].key in m then Some(m[specs[i].key]) else None)
  }

  /** What an array holds for each field: every element is present. */
  function ArraySlots(items: seq<Json>): (slots: seq<Option<Json>>)
    ensures |slots| == |items|
  {
    seq(|items|, i requires 0 <= i < |items| => Some(items[i]))
  }

  function DecodeFields(slots: seq<Option<Json>>): (r: Result<Claims, DecodeError>)
    requires |slots| == |Schema()|
  {
    var vs :- DecodeAll(Schema(), slots);
    Ok(FromValues(vs))
  }

  /**
    Deserialisation. An object is read by key and unknown keys are skipped;
    serde also reads a struct from an array holding its fields in declaration
    order. Any other JSON value is rejected.

    An array is read element by element, so an element of the wrong type is
    reported before a length that is not the number of fields: too few
    elements are found when they run out, too many only once all fields
    are read.
   */
  function DecodeClaims(j: Json): (r: Result<Claims, DecodeError>)
    ensures !j.JObj? && !j.JArr? ==> r == Err(NotAStruct)
    ensures j.JArr? && |j.items| != |Schema()| ==> r.Err?
    ensures j.JArr? && |j.items| != |Schema()| &&
            (forall i :: 0 <= i < |j.items| && i < |Schema()| ==> Accepts(Schema()[i].kind, Some(j.items[i]))) ==>
              r == Err(WrongLength(|j.items|))
  {
    match j
    case JObj(m) => DecodeFields(SlotsOf(Schema(), m))
    case JArr(items) =>
      if |items| == |Schema()| then DecodeFields(ArraySlots(items))
      else
        var n := if |items| < FieldCount then |items| else FieldCount;
        (match FirstTypeError(Schema()[..n], ArraySlots(items)[..n])
         case Some(e) => Err(e)
         case None => Err(WrongLength(|items|)))
    case _ => Err(NotAStruct)
  }

  // ---------------------------------------------------------------- make_dummy

  /**
    A claim set with placeholder values: empty strings except for the ref,
    the ref type and the run attempt, far-future expiry, public visibility,
    a GitHub-hosted runner and no optional fields.
   */
  function MakeDummy(): (c: Claims)
    ensures c.environment == None && c.job_workflow_ref == None && c.job_workflow_sha == None
    ensures c.git_ref == "refs/heads/main" && c.ref_type == "branch" && c.run_attempt == "1"
    ensures c.repository_visibility == Public && c.runner_environment == GithubHosted
    ensures c.iat == c.nbf == 1690366107.0 && c.exp == 33247274880.0 && c.exp > c.iat
    ensures && c.aud == "" && c.iss == "" && c.sub == "" && c.jti == ""
            && c.actor == "" && c.actor_id == "" && c.base_ref == "" && c.event_name == "" && c.head_ref == ""
            && c.repository == "" && c.repository_id == "" && c.repository_owner == "" && c.repository_owner_id == ""
            && c.run_id == "" && c.run_number == ""
            && c.workflow == "" && c.workflow_ref == "" && c.workflow_sha == ""
  {
    Claims(
      aud := "", iss := "", sub := "",
      exp := 33247274880.0, iat := 1690366107.0, jti := "", nbf := 1690366107.0,
      actor := "", actor_id := "", base_ref := "",
      environment := None, event_name := "", head_ref := "",
      job_workflow_ref := None, job_workflow_sha := None,
      git_ref := "refs/heads/main", ref_type := "branch",
      repository_visibility := Public,
      repository := "", repository_id := "", repository_owner := "", repository_owner_id := "",
      run_id := "", run_number := "", run_attempt := "1",
      runner_environment := GithubHosted,
      workflow := "", workflow_ref := "", workflow_sha := "")
  }
}
