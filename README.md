# github-actions-oidc-claims in Dafny

A model of the `Claims` type of the `github-actions-oidc-claims` crate: the
claim set a GitHub Actions OIDC token carries, with its serde mapping to and
from JSON values, the two open enumerations `Visibility` and
`RunnerEnvironment`, and the `make_dummy` constructor.

The model works on JSON *values* (`JsonValues.Json`: null, booleans, numbers,
strings, arrays and objects). Producing and parsing JSON text is left to
serde_json and is not modelled.

- `OpenEnums` (`open_enums.dfy`) holds the two enumerations. Each has
  kebab-case tags for its named variants and an untagged `Other(String)`
  catch-all. Decoding tries the tags first, so a known tag never decodes to
  `Other`. Besides a plain string, serde also accepts a named variant in its
  externally tagged form, a one-key object such as `{"public": null}`.
- `FieldTable` (`field_table.dfy`) gives the key and kind of each of the 29
  fields, in declaration order.
- `ClaimSet` (`claims.dfy`) holds the struct, the encoder and the decoder.
  - An object is read by key, and keys it does not know are skipped.
  - serde also reads a struct from an array, element by element in
    declaration order. An element of the wrong type is reported first; an
    array whose length is not 29 is an error after that.
  - Every other JSON value is rejected.
  - An absent or null `Option` field decodes to `None`.
  - A required field that is absent is an error, and so is a value of the
    wrong kind.
  - Type errors are reported before missing fields, because serde checks
    for missing fields only once it has read the whole input.
- `ClaimSetProperties` (`claims_properties.dfy`) proves properties of the
  mapping:
  - the round trip;
  - exactly which objects decode;
  - the error reported;
  - the `ref` key and the `Option` fields;
  - that unknown keys are ignored;
  - stability of re-encoding;
  - the dummy claim set.

Notes on the wire format:
- Wire keys are the Rust field identifiers, with underscores
  (`repository_visibility`), because the struct has no `rename_all`. The
  only renamed key is `ref`, for the field `git_ref`. Hyphenated keys are
  not read.
- Keys that name no field are ignored, because the struct has no
  `deny_unknown_fields`.
- `None` is written as `null`, not omitted.
- `decode(encode(c)) == c` does not hold for every `c`. `Other("public")`
  encodes to `"public"`, which decodes to `Public`. `RoundTrip` states
  what does hold: the round trip gives `c` with every shadowed tag
  resolved. `RoundTripExact` proves that equality holds exactly when no
  enumeration field shadows a known tag.

## Model

| member | source | states |
|---|---|---|
| OpenEnums.EncodeVisibility | src/lib.rs:1-9 | a named variant is written as its kebab-case tag and `Other(s)` as `s` verbatim; decoding the written string gives the variant back exactly when it is not `Other` holding a known tag |
| OpenEnums.DecodeVisibility | src/lib.rs:1-9 | every string decodes: each known tag to its named variant (both directions), any other string to `Other` holding it verbatim; never `Other` of a known tag |
| OpenEnums.VisibilityToJson | src/lib.rs:1-9 | serialisation writes the JSON string `EncodeVisibility` gives, which deserialises back to the same value exactly when the value does not shadow a known tag |
| OpenEnums.VisibilityFromJson | src/lib.rs:1-9 | a string deserialises as `DecodeVisibility` says; each one-key object `{tag: null}` is accepted as its named variant, and no other JSON is accepted; the result never shadows a tag |
| OpenEnums.VisibilityTextPreserved | src/lib.rs:1-9 | decoding any string and encoding the result gives the string back, recognised tag or not |
| OpenEnums.EncodeRunnerEnvironment | src/lib.rs:11-18 | as for `Visibility`, with the tags `github-hosted` and `self-hosted`: named variants as their tags, `Other(s)` as `s` verbatim |
| OpenEnums.DecodeRunnerEnvironment | src/lib.rs:11-18 | each known tag decodes to its named variant and back; any other string decodes to `Other` holding it verbatim |
| OpenEnums.RunnerEnvironmentToJson | src/lib.rs:11-18 | serialisation writes the JSON string `EncodeRunnerEnvironment` gives, which deserialises back to the same value exactly when the value does not shadow a known tag |
| OpenEnums.RunnerEnvironmentFromJson | src/lib.rs:11-18 | a string is always accepted; each one-key object `{tag: null}` is accepted as its named variant, and no other JSON is; the result never shadows a tag |
| OpenEnums.RunnerEnvironmentTextPreserved | src/lib.rs:11-18 | decoding any string and encoding the result gives the string back |
| OpenEnums.OtherVisibilityReadsAsText | src/lib.rs:1-9 | `Other(t)` reads back as whatever `t` decodes to, so `Other` of a known tag comes back as the named variant, not as itself |
| OpenEnums.OtherRunnerEnvironmentReadsAsText | src/lib.rs:11-18 | likewise for the runner environment: `Other("self-hosted")` comes back as `SelfHosted` |
| FieldTable.PositionOfKey | src/lib.rs:22-95 | the lookup from a key to the field read from it finds only a field with that key |
| FieldTable.PositionOfEntryKey | src/lib.rs:22-95 | each field's key leads back to that field, so no two fields share a key |
| FieldTable.SchemaKeysDistinct | src/lib.rs:22-95 | the 29 wire keys are pairwise distinct |
| FieldTable.WireKeyPosition | src/lib.rs:22-95 | a key belongs to the claim set exactly when the lookup finds a field for it |
| FieldTable.OptionalEntries | src/lib.rs:56-64 | a field is an `Option<String>` exactly when its key is `environment`, `job_workflow_ref` or `job_workflow_sha` |
| FieldTable.Entry | src/lib.rs:23-95 | the key and Rust type of each field in declaration order, each key the field's identifier except `ref` for `git_ref`; no contract of its own, its properties are those of `PositionOfEntryKey`, `SchemaKeysDistinct` and `OptionalEntries` |
| ClaimSet.ValuesConform | src/lib.rs:22-95 | each field of a claim set has the type its table entry gives it |
| ClaimSet.FieldValue | src/lib.rs:23-95 | the value of each field of the struct by position; no contract of its own, `ValuesConform` gives each value its declared type |
| ClaimSet.FromValues | src/lib.rs:23-95 | the struct built from its fields in declaration order; no contract of its own, `FromValuesOfValues` and `ValuesOfFromValues` prove it inverse to `Values` |
| ClaimSet.OptionalTextToJson | src/lib.rs:56-64 | an `Option<String>` is written as null exactly when it is `None`, and as its string otherwise |
| ClaimSet.EncodeValue | src/lib.rs:23-95 | how one field is serialised; no contract of its own, `DecodeEncodedValue` proves decoding gives the value back up to a shadowed tag |
| ClaimSet.ObjectOf | src/lib.rs:22-95 | the object built from the table has exactly the table's keys |
| ClaimSet.EncodeClaims | src/lib.rs:22-95 | serialisation never fails and gives an object whose keys are exactly the 29 wire keys |
| ClaimSet.DecodeValue | src/lib.rs:22-95 | a field is read exactly when its kind accepts what the input holds; the value has the field's kind; an absent required field is `MissingField`, a present unreadable value `InvalidType`; enumeration values never shadow a tag |
| ClaimSet.FirstTypeError | src/lib.rs:22-95 | there is a type error exactly when some present value cannot be read by its field, and it is an `InvalidType` error |
| ClaimSet.DecodeEach | src/lib.rs:22-95 | reading all fields succeeds exactly when every field accepts its input, and then gives each field what `DecodeValue` reads |
| ClaimSet.DecodeAll | src/lib.rs:22-95 | the same success condition and values as `DecodeEach`; when any present value is unreadable the error is an `InvalidType`, whatever fields are missing |
| ClaimSet.SlotsOf | src/lib.rs:22-95 | what serde's map visitor holds for each field after reading an object (absent keys as `None`), one per field; `SlotsAccepted` and `UnknownKeysIgnored` state its effect |
| ClaimSet.ArraySlots | src/lib.rs:22-95 | what serde's sequence visitor holds for each field of an array: every element present, one per element |
| ClaimSet.DecodeFields | src/lib.rs:22-95 | building the struct from the values read; no contract of its own, `DecodedFields` proves each field is what its slot reads as |
| ClaimSet.DecodeClaims | src/lib.rs:22-95 | a JSON value that is neither an object nor an array is rejected; an array whose length is not 29 is rejected, with `WrongLength` when every element it has is readable by its field |
| ClaimSet.MakeDummy | src/lib.rs:97-132 | the 18 other string fields are empty; no optional field is set; the ref is `refs/heads/main` of type `branch`; run attempt `"1"`; public visibility, GitHub-hosted runner; issued and not-before 1690366107, expiring 33247274880, after issue |
| ClaimSetProperties.ObjectOfLookup | src/lib.rs:22-95 | in an object built from distinct keys, each key holds the value of its own field |
| ClaimSetProperties.SlotsOfObjectOf | src/lib.rs:22-95 | reading back such an object finds every field present with the value written |
| ClaimSetProperties.PositionalForm | src/lib.rs:22-95 | an array of 29 values decodes exactly as the object that puts each value under its field's key |
| ClaimSetProperties.WireView | src/lib.rs:22-95 | the encoded object has exactly the wire keys, never `git_ref`, and each field's key holds that field's encoding |
| ClaimSetProperties.RefOnWire | src/lib.rs:65-68 | `git_ref` is written as a string under the key `ref` |
| ClaimSetProperties.OptionalFieldsOnWire | src/lib.rs:56-64 | each of the three `Option` fields is written under its key, as its string or as null |
| ClaimSetProperties.CanonicalIdentity | src/lib.rs:1-18 | resolving shadowed tags changes a claim set exactly when an enumeration field is `Other` of a known tag |
| ClaimSetProperties.DecodeEncodedValue | src/lib.rs:22-95 | one field written and read back gives its value, with a shadowed tag resolved |
| ClaimSetProperties.DecodeAllEncoded | src/lib.rs:22-95 | every field written and read back gives its value, with shadowed tags resolved |
| ClaimSetProperties.RoundTrip | src/lib.rs:22-95 | decoding an encoded claim set always succeeds and gives it back with shadowed tags resolved |
| ClaimSetProperties.RoundTripExact | src/lib.rs:1-95 | `decode(encode(c)) == c` exactly when neither enumeration field is `Other` of a known tag |
| ClaimSetProperties.FromValuesOfValues | src/lib.rs:22-95 | rebuilding a claim set from its fields in declaration order gives it back |
| ClaimSetProperties.ValuesOfFromValues | src/lib.rs:22-95 | the fields of a claim set built from well-typed values are those values |
| ClaimSetProperties.DecodedFields | src/lib.rs:22-95 | each field of a decoded claim set is what its field reads from the input |
| ClaimSetProperties.DecodeEachFirstError | src/lib.rs:22-95 | reading stops at the first field, in declaration order, that does not accept its input, and reports that field's error |
| ClaimSetProperties.FirstTypeErrorAt | src/lib.rs:22-95 | the type error reported is that of the first present value that its field cannot read |
| ClaimSetProperties.SlotsAccepted | src/lib.rs:22-95 | every field accepts the object exactly when every required key is present and every present key holds a value of its kind |
| ClaimSetProperties.DecodeObjectOk | src/lib.rs:22-95 | an object decodes exactly when all required keys are present and every present field key holds a value of its field's kind |
| ClaimSetProperties.MissingFieldRejected | src/lib.rs:22-95 | an object missing a required key is rejected; when every present value is readable, the error is the first missing required field in declaration order |
| ClaimSetProperties.ObjectMissingField | src/lib.rs:22-95 | the same, for any field table |
| ClaimSetProperties.NoTypeErrorInObject | src/lib.rs:22-95 | when every present value is readable, reading an object reports no type error |
| ClaimSetProperties.ObjectErrors | src/lib.rs:22-95 | decoding an object fails with exactly the error reading its fields gives |
| ClaimSetProperties.InvalidTypeRejected | src/lib.rs:22-95 | a present value of the wrong kind is rejected; when no earlier present value is wrong, that field's `InvalidType` is reported, whatever fields are missing |
| ClaimSetProperties.ArrayTypeErrorFirst | src/lib.rs:22-95 | in an array of any length, the first element of the wrong type for its field is the error reported, ahead of a wrong length |
| ClaimSetProperties.UnknownKeysIgnored | src/lib.rs:22-95 | adding keys that name no field does not change the result of decoding |
| ClaimSetProperties.OptionalFields | src/lib.rs:56-64 | in a decoded claim set, an `Option` field is `None` exactly when its key is absent or null, and `Some(s)` only when the key holds the string `s` |
| ClaimSetProperties.OptionalSlot | src/lib.rs:56-64 | what an `Option` field reads as `None` is an absent key or null, and `Some(s)` comes from the string `s` |
| ClaimSetProperties.RefKey | src/lib.rs:65-68 | a decoded object holds the string `git_ref` under the key `ref` |
| ClaimSetProperties.GitRefIsNotAKey | src/lib.rs:65-68 | `git_ref` is not a key that is read or written |
| ClaimSetProperties.DecodedHasNoShadowedTags | src/lib.rs:1-95 | no decoded claim set, from an object or an array, holds `Other` of a known tag |
| ClaimSetProperties.ReencodeStable | src/lib.rs:1-95 | whatever decoding accepts, encoding it and decoding again gives the same claim set |
| ClaimSetProperties.ReencodeValue | src/lib.rs:22-95 | a field written back reproduces what was read: the same value, null for an absent `Option`, a tag for its one-key object form |
| ClaimSetProperties.ReencodeFaithful | src/lib.rs:22-95 | re-encoding a decoded object writes back, under every field's key, what the input held there, up to those forms |
| ClaimSetProperties.DummyRoundTrip | src/lib.rs:97-132 | the dummy claim set survives encoding and decoding unchanged |

## Left out

- JSON text: parsing and printing with serde_json are not modelled. The model starts from and ends at JSON values.
- Duplicate keys: serde rejects an object with the same field key twice. A map cannot hold duplicates, so this error is not modelled.
- Key order: `EncodeClaims` gives an unordered map, whereas serde writes the keys in declaration order.
- ClaimSet.DecodeAll: when several present values have the wrong type, serde reports the first in the input's key order. A map has no order, so the model reports the first in declaration order. For arrays the two orders agree.
- ClaimSet.DecodeValue: the enumerations' one-key object form is accepted only with a null value. A payload that serde's unit-variant visitor would also accept is not modelled.
- ClaimSet.DecodeClaims: an array of the wrong length is one `WrongLength` error. serde's error for too few elements and serde_json's error for trailing elements are not distinguished.
- Timestamps: `exp`, `iat` and `nbf` are `f64` in Rust and `real` here. Rounding and NaN are not modelled. Because of NaN, the crate derives only `PartialEq` for `Claims`.
- Error messages: serde's error text is reduced to the kind of error and the key of the field.
- The `Debug` and `Clone` derives are not modelled, because they carry no behaviour of interest.
- Token signature, expiry and audience validation are not modelled. They belong to the consumer of the claims, not to this crate.
