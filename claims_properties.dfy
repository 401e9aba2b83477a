/**
  Properties of the claim-set mapping: the object an encoded claim set
  becomes, round trips, which inputs decoding rejects and why, the treatment
  of optional fields and of unknown keys, and the dummy claim set.
 */
module ClaimSetProperties {
  import opened Wrappers
  import opened JsonValues
  import opened OpenEnums
  import opened FieldTable
  import opened ClaimSet

  // ------------------------------------------------------- named positions

  // The positions of the fields that the lemmas below name. A proof that has
  // an encoded or decoded claim set in hand reads these facts rather than
  // unfolding the table.

  lemma OptionalPositions(c: Claims)
    ensures Entry(10) == FieldSpec("environment", OptionalTextField) && FieldValue(c, 10) == MaybeText(c.environment)
    ensures Entry(13) == FieldSpec("job_workflow_ref", OptionalTextField) && FieldValue(c, 13) == MaybeText(c.job_workflow_ref)
    ensures Entry(14) == FieldSpec("job_workflow_sha", OptionalTextField) && FieldValue(c, 14) == MaybeText(c.job_workflow_sha)
  {
  }

  lemma GitRefPosition(c: Claims)
    ensures Entry(15) == FieldSpec("ref", TextField) && FieldValue(c, 15) == Text(c.git_ref)
  {
  }

  lemma EnumerationPositions(c: Claims)
    ensures Entry(17) == FieldSpec("repository_visibility", VisibilityField)
    ensures FieldValue(c, 17) == Vis(c.repository_visibility)
    ensures Entry(25) == FieldSpec("runner_environment", RunnerField)
    ensures FieldValue(c, 25) == Runner(c.runner_environment)
  {
  }

  // ------------------------------------------------------- objects and slots

  /** In an object built from distinct keys, each key holds its own value. */
  lemma {:induction false} ObjectOfLookup(specs: seq<FieldSpec>, js: seq<Json>, i: int)
    requires |specs| == |js| && DistinctKeys(specs) && 0 <= i < |specs|
    ensures specs[i].key in ObjectOf(specs, js)
    ensures ObjectOf(specs, js)[specs[i].key] == js[i]
  {
    if i > 0 {
      assert DistinctKeys(specs[1..]) by {
        forall a, b | 0 <= a < b < |specs[1..]| ensures specs[1..][a].key != specs[1..][b].key {
          assert specs[1..][a] == specs[a + 1] && specs[1..][b] == specs[b + 1];
        }
      }
      ObjectOfLookup(specs[1..], js[1..], i - 1);
      assert specs[1..][i - 1] == specs[i];
      assert specs[0].key != specs[i].key;
    }
  }

  /** The lookup above, for the claim-set table. */
  lemma SchemaLookup(js: seq<Json>, i: int)
    requires |js| == |Schema()| && 0 <= i < |Schema()|
    ensures Schema()[i].key in ObjectOf(Schema(), js)
    ensures ObjectOf(Schema(), js)[Schema()[i].key] == js[i]
  {
    SchemaKeysDistinct();
    ObjectOfLookup(Schema(), js, i);
  }

  /** Reading back an object built from distinct keys finds every element present. */
  lemma SlotsOfObjectOf(specs: seq<FieldSpec>, js: seq<Json>)
    requires |specs| == |js| && DistinctKeys(specs)
    ensures SlotsOf(specs, ObjectOf(specs, js)) == ArraySlots(js)
  {
    forall i | 0 <= i < |specs|
      ensures SlotsOf(specs, ObjectOf(specs, js))[i] == ArraySlots(js)[i]
    {
      ObjectOfLookup(specs, js, i);
    }
  }

  /**
    An array holding one JSON value per field, in declaration order, decodes
    exactly like the object that puts each value under its field's key.
   */
  lemma PositionalForm(items: seq<Json>)
    requires |items| == |Schema()|
    ensures DecodeClaims(JArr(items)) == DecodeClaims(JObj(ObjectOf(Schema(), items)))
  {
    SchemaSlotsOfObjectOf(items);
  }

  /** Reading back the encoded object of the claim-set table finds every value present. */
  lemma SchemaSlotsOfObjectOf(js: seq<Json>)
    requires |js| == |Schema()|
    ensures SlotsOf(Schema(), ObjectOf(Schema(), js)) == ArraySlots(js)
  {
    SchemaKeysDistinct();
    SlotsOfObjectOf(Schema(), js);
  }

  // ----------------------------------------------------------------- encoding

  /** The field at position `i`, `v`, is written under its key `k` as `EncodeValue` gives it. */
  lemma OnWire(c: Claims, i: int, k: string, v: Value)
    requires 0 <= i < FieldCount && Entry(i).key == k && FieldValue(c, i) == v
    ensures k in EncodeClaims(c).fields && EncodeClaims(c).fields[k] == EncodeValue(v)
  {
    SchemaLookup(EncodeAll(Values(c)), i);
  }

  /**
    The encoded object: its keys are the fields' keys, none of them
    `git_ref`, and the field at each position is written under its key.
   */
  lemma WireView(c: Claims)
    ensures var j := EncodeClaims(c).fields;
      && j.Keys == WireKeys
      && "git_ref" !in j
      && forall i :: 0 <= i < FieldCount ==> Entry(i).key in j && j[Entry(i).key] == EncodeValue(FieldValue(c, i))
  {
    GitRefIsNotAKey();
    forall i | 0 <= i < FieldCount
      ensures Entry(i).key in EncodeClaims(c).fields
      ensures EncodeClaims(c).fields[Entry(i).key] == EncodeValue(FieldValue(c, i))
    {
      OnWire(c, i, Entry(i).key, FieldValue(c, i));
    }
  }

  /** The field `git_ref` is written under the key `ref`. */
  lemma RefOnWire(c: Claims)
    ensures "ref" in EncodeClaims(c).fields && EncodeClaims(c).fields["ref"] == JStr(c.git_ref)
  {
    GitRefPosition(c);
    OnWire(c, 15, "ref", Text(c.git_ref));
  }

  /** An `Option` field is written as its string, and `None` as null. */
  lemma OptionalFieldsOnWire(c: Claims)
    ensures "environment" in EncodeClaims(c).fields
    ensures EncodeClaims(c).fields["environment"] == OptionalTextToJson(c.environment)
    ensures "job_workflow_ref" in EncodeClaims(c).fields
    ensures EncodeClaims(c).fields["job_workflow_ref"] == OptionalTextToJson(c.job_workflow_ref)
    ensures "job_workflow_sha" in EncodeClaims(c).fields
    ensures EncodeClaims(c).fields["job_workflow_sha"] == OptionalTextToJson(c.job_workflow_sha)
  {
    OptionalPositions(c);
    OnWire(c, 10, "environment", MaybeText(c.environment));
    OnWire(c, 13, "job_workflow_ref", MaybeText(c.job_workflow_ref));
    OnWire(c, 14, "job_workflow_sha", MaybeText(c.job_workflow_sha));
  }

  // --------------------------------------------------------------- round trip

  /** What decoding gives back for one encoded field. */
  function CanonicalValue(v: Value): (w: Value)
    ensures !v.Vis? && !v.Runner? ==> w == v
  {
    match v
    case Vis(e) => Vis(DecodeVisibility(EncodeVisibility(e)))
    case Runner(e) => Runner(DecodeRunnerEnvironment(EncodeRunnerEnvironment(e)))
    case _ => v
  }

  function CanonicalValues(vs: seq<Value>): (ws: seq<Value>)
    ensures |ws| == |vs|
  {
    seq(|vs|, i requires 0 <= i < |vs| => CanonicalValue(vs[i]))
  }

  /**
    What decoding gives back for an encoded claim set: `Other` wrapping a
    known tag comes back as the named variant, and nothing else changes.
   */
  function Canonical(c: Claims): Claims {
    c.(repository_visibility := DecodeVisibility(EncodeVisibility(c.repository_visibility)),
       runner_environment := DecodeRunnerEnvironment(EncodeRunnerEnvironment(c.runner_environment)))
  }

  /** Neither enumeration field is `Other` wrapping one of its known tags. */
  predicate NoShadowedTags(c: Claims) {
    !ShadowsVisibilityTag(c.repository_visibility) && !ShadowsRunnerTag(c.runner_environment)
  }

  lemma CanonicalIdentity(c: Claims)
    ensures Canonical(c) == c <==> NoShadowedTags(c)
  {
  }

  /** One field survives being written and read back, up to a shadowed tag. */
  lemma DecodeEncodedValue(spec: FieldSpec, v: Value)
    requires HasKind(v, spec.kind)
    ensures DecodeValue(spec, Some(EncodeValue(v))) == Ok(CanonicalValue(v))
  {
  }

  /** Every field survives being written and read back, up to a shadowed tag. */
  lemma DecodeAllEncoded(specs: seq<FieldSpec>, vs: seq<Value>)
    requires ConformsTo(vs, specs)
    ensures DecodeAll(specs, ArraySlots(EncodeAll(vs))) == Ok(CanonicalValues(vs))
  {
    var slots := ArraySlots(EncodeAll(vs));
    forall i | 0 <= i < |specs|
      ensures DecodeValue(specs[i], slots[i]) == Ok(CanonicalValue(vs[i]))
    {
      DecodeEncodedValue(specs[i], vs[i]);
    }
    var r := DecodeAll(specs, slots);
    assert r.Ok? by {
      forall i | 0 <= i < |specs| ensures Accepts(specs[i].kind, slots[i]) {
        assert DecodeValue(specs[i], slots[i]).Ok?;
      }
    }
    assert r.value == CanonicalValues(vs) by {
      forall i | 0 <= i < |specs| ensures r.value[i] == CanonicalValues(vs)[i] {
        assert DecodeValue(specs[i], slots[i]) == Ok(r.value[i]);
      }
    }
  }

  lemma CanonicalFieldValues(c: Claims)
    ensures CanonicalValues(Values(c)) == Values(Canonical(c))
  {
    forall i | 0 <= i < FieldCount
      ensures CanonicalValue(FieldValue(c, i)) == FieldValue(Canonical(c), i)
    {
    }
  }

  lemma FromCanonicalValues(c: Claims)
    ensures FromValues(CanonicalValues(Values(c))) == Canonical(c)
  {
    CanonicalFieldValues(c);
    FromValuesOfValues(Canonical(c));
  }

  /** `decode(encode(c))` succeeds and gives `c` with shadowed tags resolved. */
  lemma RoundTrip(c: Claims)
    ensures DecodeClaims(EncodeClaims(c)) == Ok(Canonical(c))
  {
    var js := EncodeAll(Values(c));
    SchemaSlotsOfObjectOf(js);
    DecodeEncodedFields(c);
  }

  /** The fields of `c`, each present, decode to `c` with shadowed tags resolved. */
  lemma DecodeEncodedFields(c: Claims)
    ensures DecodeFields(ArraySlots(EncodeAll(Values(c)))) == Ok(Canonical(c))
  {
    ValuesConform(c);
    DecodeAllEncoded(Schema(), Values(c));
    FromCanonicalValues(c);
  }

  /** `decode(encode(c)) == c` exactly when no enumeration field shadows a known tag. */
  lemma RoundTripExact(c: Claims)
    ensures DecodeClaims(EncodeClaims(c)) == Ok(c) <==> NoShadowedTags(c)
  {
    RoundTrip(c);
    CanonicalIdentity(c);
  }

  // ------------------------------------------------------------------ decoding

  /** `FromValues` inverts `Values`... */
  lemma FromValuesOfValues(c: Claims)
    ensures FromValues(Values(c)) == c
  {
  }

  /** ...and `Values` inverts `FromValues` on values of the right kinds. */
  lemma ValuesOfFromValues(vs: seq<Value>)
    requires ConformsTo(vs, Schema())
    ensures Values(FromValues(vs)) == vs
  {
  }

  /** A decoded claim set holds, field by field, what its input holds. */
  lemma DecodedFields(slots: seq<Option<Json>>, c: Claims)
    requires |slots| == |Schema()| && DecodeFields(slots) == Ok(c)
    ensures forall i :: 0 <= i < |Schema()| ==> DecodeValue(Schema()[i], slots[i]) == Ok(Values(c)[i])
  {
    ValuesOfFromValues(DecodeAll(Schema(), slots).value);
  }

  /** The field at position `i` of a decoded claim set, `v`, is what its input holds for it. */
  lemma DecodedField(slots: seq<Option<Json>>, c: Claims, i: int, v: Value)
    requires |slots| == |Schema()| && DecodeFields(slots) == Ok(c)
    requires 0 <= i < FieldCount && FieldValue(c, i) == v
    ensures DecodeValue(Entry(i), slots[i]) == Ok(v)
  {
    DecodedFields(slots, c);
  }

  /** Reading stops at the first field, in declaration order, that it cannot read. */
  lemma {:induction false} DecodeEachFirstError(specs: seq<FieldSpec>, slots: seq<Option<Json>>, i: int)
    requires |specs| == |slots| && 0 <= i < |specs|
    requires forall k :: 0 <= k < i ==> Accepts(specs[k].kind, slots[k])
    requires !Accepts(specs[i].kind, slots[i])
    ensures DecodeEach(specs, slots) == Err(DecodeValue(specs[i], slots[i]).error)
  {
    if i > 0 {
      assert Accepts(specs[0].kind, slots[0]);
      forall k | 0 <= k < i - 1 ensures Accepts(specs[1..][k].kind, slots[1..][k]) {
        assert specs[1..][k] == specs[k + 1] && slots[1..][k] == slots[k + 1];
      }
      assert specs[1..][i - 1] == specs[i] && slots[1..][i - 1] == slots[i];
      DecodeEachFirstError(specs[1..], slots[1..], i - 1);
    }
  }

  /** The type error reported is the one of the first unreadable value present. */
  lemma {:induction false} FirstTypeErrorAt(specs: seq<FieldSpec>, slots: seq<Option<Json>>, i: int)
    requires |specs| == |slots| && 0 <= i < |specs|
    requires forall k :: 0 <= k < i && slots[k].Some? ==> Accepts(specs[k].kind, slots[k])
    requires slots[i].Some? && !Accepts(specs[i].kind, slots[i])
    ensures FirstTypeError(specs, slots) == Some(InvalidType(specs[i].key))
  {
    if i > 0 {
      assert slots[0].Some? ==> Accepts(specs[0].kind, slots[0]);
      forall k | 0 <= k < i - 1 && slots[1..][k].Some? ensures Accepts(specs[1..][k].kind, slots[1..][k]) {
        assert specs[1..][k] == specs[k + 1] && slots[1..][k] == slots[k + 1];
      }
      assert specs[1..][i - 1] == specs[i] && slots[1..][i - 1] == slots[i];
      FirstTypeErrorAt(specs[1..], slots[1..], i - 1);
    }
  }

  /**
    Every field accepts what an object holds for it exactly when every
    required key is present and every present key holds a value of its
    field's kind.
   */
  lemma SlotsAccepted(specs: seq<FieldSpec>, m: map<string, Json>)
    ensures (forall i :: 0 <= i < |specs| ==> Accepts(specs[i].kind, SlotsOf(specs, m)[i])) <==>
              && RequiredKeysOf(specs) <= m.Keys
              && forall i :: 0 <= i < |specs| && specs[i].key in m ==> Accepts(specs[i].kind, Some(m[specs[i].key]))
  {
    var slots := SlotsOf(specs, m);
    if forall i :: 0 <= i < |specs| ==> Accepts(specs[i].kind, slots[i]) {
      forall k | k in RequiredKeysOf(specs) ensures k in m {
        var f :| f in specs && f.kind != OptionalTextField && f.key == k;
        var i :| 0 <= i < |specs| && specs[i] == f;
        assert Accepts(specs[i].kind, slots[i]);
      }
    }
    if && RequiredKeysOf(specs) <= m.Keys
       && forall i :: 0 <= i < |specs| && specs[i].key in m ==> Accepts(specs[i].kind, Some(m[specs[i].key]))
    {
      forall i | 0 <= i < |specs| ensures Accepts(specs[i].kind, slots[i]) {
        if specs[i].kind != OptionalTextField {
          assert specs[i] in specs;
          assert specs[i].key in RequiredKeysOf(specs);
        }
      }
    }
  }

  /**
    An object decodes exactly when every required key is present and every
    field's key that is present holds a value of that field's kind.
   */
  lemma DecodeObjectOk(m: map<string, Json>)
    ensures DecodeClaims(JObj(m)).Ok? <==>
              && RequiredKeys <= m.Keys
              && forall i :: 0 <= i < |Schema()| && Schema()[i].key in m ==> Accepts(Schema()[i].kind, Some(m[Schema()[i].key]))
  {
    SlotsAccepted(Schema(), m);
  }

  /**
    A required field that is missing is an error. When every field present
    is readable, the first missing required field, in declaration order, is
    the error reported.
   */
  lemma MissingFieldRejected(m: map<string, Json>, i: int)
    requires 0 <= i < |Schema()| && Schema()[i].kind != OptionalTextField && Schema()[i].key !in m
    ensures DecodeClaims(JObj(m)).Err?
    ensures && (forall k :: 0 <= k < |Schema()| && Schema()[k].key in m ==> Accepts(Schema()[k].kind, Some(m[Schema()[k].key])))
            && (forall k :: 0 <= k < i && Schema()[k].kind != OptionalTextField ==> Schema()[k].key in m)
            ==> DecodeClaims(JObj(m)) == Err(MissingField(Schema()[i].key))
  {
    ObjectMissingField(Schema(), m, i);
    ObjectErrors(m);
  }

  /** Decoding an object fails exactly as reading its fields does. */
  lemma ObjectErrors(m: map<string, Json>)
    ensures DecodeAll(Schema(), SlotsOf(Schema(), m)).Err? ==>
              DecodeClaims(JObj(m)) == Err(DecodeAll(Schema(), SlotsOf(Schema(), m)).error)
  {
  }

  /** `MissingFieldRejected`, for any field table. */
  lemma ObjectMissingField(specs: seq<FieldSpec>, m: map<string, Json>, i: int)
    requires 0 <= i < |specs| && specs[i].kind != OptionalTextField && specs[i].key !in m
    ensures DecodeAll(specs, SlotsOf(specs, m)).Err?
    ensures && (forall k :: 0 <= k < |specs| && specs[k].key in m ==> Accepts(specs[k].kind, Some(m[specs[k].key])))
            && (forall k :: 0 <= k < i && specs[k].kind != OptionalTextField ==> specs[k].key in m)
            ==> DecodeAll(specs, SlotsOf(specs, m)) == Err(MissingField(specs[i].key))
  {
    var slots := SlotsOf(specs, m);
    assert !Accepts(specs[i].kind, slots[i]);
    if && (forall k :: 0 <= k < |specs| && specs[k].key in m ==> Accepts(specs[k].kind, Some(m[specs[k].key])))
       && (forall k :: 0 <= k < i && specs[k].kind != OptionalTextField ==> specs[k].key in m)
    {
      NoTypeErrorInObject(specs, m);
      DecodeEachFirstError(specs, slots, i);
    }
  }

  /** With every present value readable, reading an object reports no type error. */
  lemma NoTypeErrorInObject(specs: seq<FieldSpec>, m: map<string, Json>)
    requires forall k :: 0 <= k < |specs| && specs[k].key in m ==> Accepts(specs[k].kind, Some(m[specs[k].key]))
    ensures FirstTypeError(specs, SlotsOf(specs, m)).None?
  {
  }

  /**
    A field holding a value of the wrong kind is an error, and when every
    value present for a field declared before it is readable it is the error
    reported, whatever fields are missing.
   */
  lemma InvalidTypeRejected(m: map<string, Json>, i: int)
    requires 0 <= i < |Schema()| && Schema()[i].key in m
    requires !Accepts(Schema()[i].kind, Some(m[Schema()[i].key]))
    ensures DecodeClaims(JObj(m)).Err?
    ensures (forall k :: 0 <= k < i && Schema()[k].key in m ==> Accepts(Schema()[k].kind, Some(m[Schema()[k].key]))) ==>
              DecodeClaims(JObj(m)) == Err(InvalidType(Schema()[i].key))
  {
    var slots := SlotsOf(Schema(), m);
    assert !Accepts(Schema()[i].kind, slots[i]);
    if forall k :: 0 <= k < i && Schema()[k].key in m ==> Accepts(Schema()[k].kind, Some(m[Schema()[k].key])) {
      FirstTypeErrorAt(Schema(), slots, i);
    }
  }

  /**
    An array element of the wrong type is an error, and when every element
    before it is readable it is the error reported, whatever the array's
    length.
   */
  lemma ArrayTypeErrorFirst(items: seq<Json>, i: int)
    requires 0 <= i < |items| && i < |Schema()|
    requires forall k :: 0 <= k < i ==> Accepts(Schema()[k].kind, Some(items[k]))
    requires !Accepts(Schema()[i].kind, Some(items[i]))
    ensures DecodeClaims(JArr(items)) == Err(InvalidType(Schema()[i].key))
  {
    if |items| == |Schema()| {
      FirstTypeErrorAt(Schema(), ArraySlots(items), i);
    } else {
      var n := if |items| < FieldCount then |items| else FieldCount;
      FirstTypeErrorAt(Schema()[..n], ArraySlots(items)[..n], i);
    }
  }

  /** Keys that name no field play no part in decoding an object. */
  lemma UnknownKeysIgnored(m: map<string, Json>, extra: map<string, Json>)
    requires extra.Keys !! WireKeys
    ensures DecodeClaims(JObj(m + extra)) == DecodeClaims(JObj(m))
  {
    assert SlotsOf(Schema(), m + extra) == SlotsOf(Schema(), m) by {
      forall i | 0 <= i < |Schema()| ensures SlotsOf(Schema(), m + extra)[i] == SlotsOf(Schema(), m)[i] {
        assert Schema()[i] in Schema();
        assert Schema()[i].key in WireKeys;
      }
    }
  }

  /**
    The three `Option` fields: `None` exactly when the key is absent or null,
    `Some(s)` exactly when it holds the string `s`.
   */
  lemma OptionalFields(m: map<string, Json>, c: Claims)
    requires DecodeClaims(JObj(m)) == Ok(c)
    ensures c.environment.None? <==> "environment" !in m || m["environment"] == JNull
    ensures c.environment.Some? ==> m["environment"] == JStr(c.environment.value)
    ensures c.job_workflow_ref.None? <==> "job_workflow_ref" !in m || m["job_workflow_ref"] == JNull
    ensures c.job_workflow_ref.Some? ==> m["job_workflow_ref"] == JStr(c.job_workflow_ref.value)
    ensures c.job_workflow_sha.None? <==> "job_workflow_sha" !in m || m["job_workflow_sha"] == JNull
    ensures c.job_workflow_sha.Some? ==> m["job_workflow_sha"] == JStr(c.job_workflow_sha.value)
  {
    OptionalPositions(c);
    DecodedOptional(m, c, 10, "environment", c.environment);
    DecodedOptional(m, c, 13, "job_workflow_ref", c.job_workflow_ref);
    DecodedOptional(m, c, 14, "job_workflow_sha", c.job_workflow_sha);
  }

  /** An `Option` field `o` read from key `k` of an object. */
  lemma DecodedOptional(m: map<string, Json>, c: Claims, i: int, k: string, o: Option<string>)
    requires DecodeClaims(JObj(m)) == Ok(c)
    requires 0 <= i < FieldCount && Entry(i) == FieldSpec(k, OptionalTextField) && FieldValue(c, i) == MaybeText(o)
    ensures o.None? <==> k !in m || m[k] == JNull
    ensures o.Some? ==> k in m && m[k] == JStr(o.value)
  {
    var slots := SlotsOf(Schema(), m);
    DecodedField(slots, c, i, MaybeText(o));
    assert slots[i] == if k in m then Some(m[k]) else None;
    OptionalSlot(slots[i], k, o);
  }

  /** What an `Option` field's slot holds, given what it decoded to. */
  lemma OptionalSlot(slot: Option<Json>, k: string, o: Option<string>)
    requires DecodeValue(FieldSpec(k, OptionalTextField), slot) == Ok(MaybeText(o))
    ensures o.None? <==> slot.None? || slot.value == JNull
    ensures o.Some? ==> slot == Some(JStr(o.value))
  {
  }

  /** The field `git_ref` is read from the key `ref`, which must hold a string. */
  lemma RefKey(m: map<string, Json>, c: Claims)
    requires DecodeClaims(JObj(m)) == Ok(c)
    ensures "ref" in m && m["ref"] == JStr(c.git_ref)
  {
    GitRefPosition(c);
    DecodedText(m, c, 15, "ref", c.git_ref);
  }

  /** A `String` field `s` read from key `k` of an object. */
  lemma DecodedText(m: map<string, Json>, c: Claims, i: int, k: string, s: string)
    requires DecodeClaims(JObj(m)) == Ok(c)
    requires 0 <= i < FieldCount && Entry(i) == FieldSpec(k, TextField) && FieldValue(c, i) == Text(s)
    ensures k in m && m[k] == JStr(s)
  {
    var slots := SlotsOf(Schema(), m);
    DecodedField(slots, c, i, Text(s));
    assert slots[i] == if k in m then Some(m[k]) else None;
  }

  /** No field is read from or written under the key `git_ref`. */
  lemma GitRefIsNotAKey()
    ensures "git_ref" !in WireKeys
  {
    WireKeyPosition("git_ref");
  }

  /** A decoded claim set never has an enumeration field shadowing a known tag. */
  lemma DecodedHasNoShadowedTags(j: Json, c: Claims)
    requires DecodeClaims(j) == Ok(c)
    ensures NoShadowedTags(c)
  {
    var slots := if j.JObj? then SlotsOf(Schema(), j.fields) else ArraySlots(j.items);
    DecodedEnumerations(slots, c);
  }

  lemma DecodedEnumerations(slots: seq<Option<Json>>, c: Claims)
    requires |slots| == |Schema()| && DecodeFields(slots) == Ok(c)
    ensures NoShadowedTags(c)
  {
    EnumerationPositions(c);
    DecodedEnumeration(slots, c, 17, Vis(c.repository_visibility));
    DecodedEnumeration(slots, c, 25, Runner(c.runner_environment));
  }

  /** The value of an enumeration field, `v`, never shadows a known tag. */
  lemma DecodedEnumeration(slots: seq<Option<Json>>, c: Claims, i: int, v: Value)
    requires |slots| == |Schema()| && DecodeFields(slots) == Ok(c)
    requires 0 <= i < FieldCount && FieldValue(c, i) == v
    ensures v.Vis? ==> !ShadowsVisibilityTag(v.vis)
    ensures v.Runner? ==> !ShadowsRunnerTag(v.runner)
  {
    DecodedField(slots, c, i, v);
  }

  /** Whatever decoding accepted, writing it out and reading it back changes nothing. */
  lemma ReencodeStable(j: Json, c: Claims)
    requires DecodeClaims(j) == Ok(c)
    ensures DecodeClaims(EncodeClaims(c)) == Ok(c)
  {
    DecodedHasNoShadowedTags(j, c);
    RoundTripExact(c);
  }

  /**
    `written` is how a field read from `slot` is written back: the same value,
    null for an absent `Option`, or the tag of an enumeration that was given
    in its single-key object form.
   */
  predicate Reproduces(slot: Option<Json>, written: Json) {
    || slot == Some(written)
    || (slot.None? && written == JNull)
    || (written.JStr? && slot == Some(JObj(map[written.s := JNull])))
  }

  lemma ReencodeValue(spec: FieldSpec, slot: Option<Json>, v: Value)
    requires DecodeValue(spec, slot) == Ok(v)
    ensures Reproduces(slot, EncodeValue(v))
  {
    if slot.Some? && slot.value.JStr? {
      if spec.kind == VisibilityField {
        VisibilityTextPreserved(slot.value.s);
      } else if spec.kind == RunnerField {
        RunnerEnvironmentTextPreserved(slot.value.s);
      }
    }
  }

  /**
    Re-encoding a decoded object writes back, under every field's key, what
    the input held there, up to the forms `Reproduces` allows.
   */
  lemma ReencodeFaithful(m: map<string, Json>, c: Claims)
    requires DecodeClaims(JObj(m)) == Ok(c)
    ensures forall i :: 0 <= i < |Schema()| ==>
              Reproduces(SlotsOf(Schema(), m)[i], EncodeClaims(c).fields[Schema()[i].key])
  {
    var slots := SlotsOf(Schema(), m);
    DecodedFields(slots, c);
    forall i | 0 <= i < |Schema()|
      ensures Reproduces(slots[i], EncodeClaims(c).fields[Schema()[i].key])
    {
      SchemaLookup(EncodeAll(Values(c)), i);
      ReencodeValue(Schema()[i], slots[i], Values(c)[i]);
    }
  }

  // ---------------------------------------------------------------- make_dummy

  /** The dummy claim set survives encoding and decoding unchanged. */
  lemma DummyRoundTrip()
    ensures DecodeClaims(EncodeClaims(MakeDummy())) == Ok(MakeDummy())
  {
    RoundTripExact(MakeDummy());
  }
}
