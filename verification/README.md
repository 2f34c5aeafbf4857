# osbuild manifest v1 — strict schema layer, modelled in Dafny

This project models the strongly-typed representation of the osbuild
manifest format, version 1, from r-osbuild's `src/manifest.rs`: the five
entities `Manifest1`, `Pipeline1`, `Assembler1`, `Build1` and `Stage1`, their
strict decoding from a generic JSON value, and their serialisation back to
JSON.

The decoding rules the Rust code gets from its serde derives are written out
explicitly:

- every entity decodes only from a JSON object; an array, even one listing
  the fields positionally, is rejected (the effect of the `ObjectMarker`
  flatten field);
- any key outside the entity's declared fields is rejected
  (`deny_unknown_fields`);
- `name` (assembler, stage), `pipeline` and `runner` (build) are required;
  every other field defaults when omitted: empty `options`, `stages` and
  `sources`, no `assembler` or `build`, and the empty pipeline;
- the optional `assembler` and `build` also accept an explicit JSON `null`
  as "absent", as serde does for `Option` fields;
- `options` and the inner tables of `sources` are kept as arbitrary JSON;
- `stages` decodes element by element, in order;
- a `build` holds a complete nested pipeline, and a failure at any depth
  fails the whole decode; the model itself puts no bound on the depth (the
  JSON text parser's limit is listed under "Left out").

Serialisation writes every declared field; an absent `assembler` or `build`
is written as `null`, which is what the derived `Serialize` does.

Files:

- `wrappers.dfy` — `Option` and `Result`.
- `json.dfy` — the generic `Json` value and the `Object`/`Array` aliases.
- `manifest.dfy` — the entities, the decoders `Parse*` and the serialisers
  `Serialize*`.
- `conformance.dfy` — a declarative statement of the schema and proofs that
  each decoder accepts exactly the conforming values.
- `roundtrip.dfy` — serialise-then-decode is the identity for every entity.
- `rules.dfy` — the individual decoding rules and unbounded nesting.
- `testcases.dfy` — the inputs exercised by the unit tests in `src/manifest.rs`.

The model follows the code where a looser reading of the format might
suggest otherwise: `name` and `runner` may be any string, the empty string
included, since nothing in the code checks them; and defaulted fields are not
omitted on output, since the derived serialiser emits all of them.

## Model

| member | source | states |
|---|---|---|
| `Manifest.CheckObject` | src/manifest.rs:139-157 | succeeds exactly on a JSON object whose keys are all declared, yielding its fields; any other JSON kind fails with `NotAnObject`, an undeclared key with `UnknownFields` naming the undeclared keys |
| `Manifest.ParseStages` | src/manifest.rs:50-51 | succeeds iff every element decodes as a stage; then the result has one stage per element and the i-th stage is the decode of the i-th element; on failure the error is that of the first element that fails |
| `Manifest.ParseAssembler` | src/manifest.rs:62-73 | succeeds exactly on an object with only `name` and `options`, a string `name` and, if present, an object `options`; the result's name is that string and its options are the given object, or empty when omitted |
| `Manifest.ParseStage` | src/manifest.rs:98-109 | the same acceptance condition and result fields as for an assembler, for a stage |
| `Manifest.ParsePipeline` | src/manifest.rs:40-55 | a non-object fails with `NotAnObject`, undeclared keys fail with `UnknownFields`; on success the assembler is none for an absent or `null` key and otherwise the decoded assembler, the build is none for an absent or `null` key and otherwise the decoded build, and the stages are those decoded from the `stages` field |
| `Manifest.ParseBuild` | src/manifest.rs:81-91 | a non-object or undeclared key fails; a missing `pipeline` fails with `MissingField("pipeline")`; on success the nested pipeline is the decode of the `pipeline` field and `runner` was present as a JSON string equal to the result's runner |
| `Manifest.ParseSources` | src/manifest.rs:23-24 | succeeds iff the value is an object all of whose values are objects; the result has the same keys and holds each inner object unchanged |
| `Manifest.ParseManifest` | src/manifest.rs:16-28 | a non-object or undeclared key fails; on success the pipeline is the decode of a present `pipeline` field and otherwise the empty pipeline, and the sources are the decode of a present `sources` field and otherwise the empty table |
| `Manifest.SerializeStages` | src/manifest.rs:119-124 | serialises stages one per element, keeping their order |
| `Manifest.SerializeAssembler` | src/manifest.rs:62-73 | writes an object holding exactly `name`, as a string, and `options`, as an object, even when the options are empty; `ManifestRoundTrip.AssemblerRoundTrip` shows the decoder inverts it |
| `Manifest.SerializeStage` | src/manifest.rs:98-109 | writes an object holding exactly `name`, as a string, and `options`, as an object, even when the options are empty; `ManifestRoundTrip.StageRoundTrip` shows the decoder inverts it |
| `Manifest.SerializePipeline` | src/manifest.rs:40-55 | writes an object holding exactly `assembler`, `build` and `stages`, with `null` precisely for an absent assembler or build, and every nested assembler, stage, build and pipeline again in full form with all its declared fields; `ManifestRoundTrip.PipelineRoundTrip` shows the decoder inverts it |
| `Manifest.SerializeBuild` | src/manifest.rs:81-91 | writes an object holding exactly `pipeline`, a nested pipeline in full form, and `runner`, a string; `ManifestRoundTrip.BuildRoundTrip` shows the decoder inverts it |
| `Manifest.SerializeSources` | src/manifest.rs:23-24 | writes an object with the table's keys whose every value is an object; `ManifestRoundTrip.SourcesRoundTrip` shows the decoder inverts it |
| `Manifest.SerializeManifest` | src/manifest.rs:16-28 | writes an object holding exactly `pipeline`, in full form even when empty, and `sources`, an object of objects; `ManifestRoundTrip.ManifestRoundTrip` shows the decoder inverts it |
| `ManifestConformance.PipelineAcceptsExactly` | src/manifest.rs:40-55 | a pipeline decodes exactly when the value conforms to the declarative pipeline schema, at every nesting depth |
| `ManifestConformance.BuildAcceptsExactly` | src/manifest.rs:81-91 | a build decodes exactly when it is an object with only, and both of, `pipeline` (a conforming pipeline) and `runner` (a string) |
| `ManifestConformance.ManifestAcceptsExactly` | src/manifest.rs:16-28 | a manifest decodes exactly when it is an object with only `pipeline` and `sources`, each conforming when present |
| `ManifestRoundTrip.AssemblerRoundTrip` | src/manifest.rs:62-73 | serialising an assembler and decoding the result gives the same assembler |
| `ManifestRoundTrip.StageRoundTrip` | src/manifest.rs:98-109 | serialising a stage and decoding the result gives the same stage |
| `ManifestRoundTrip.StagesRoundTrip` | src/manifest.rs:50-51 | a serialised stage list decodes to the same stages in the same order |
| `ManifestRoundTrip.PipelineRoundTrip` | src/manifest.rs:40-55 | serialising any pipeline, nested builds included, and decoding gives the same pipeline |
| `ManifestRoundTrip.BuildRoundTrip` | src/manifest.rs:84-87 | serialising any build and decoding gives the same build |
| `ManifestRoundTrip.SourcesRoundTrip` | src/manifest.rs:23-24 | the two-level sources table survives serialisation and decoding unchanged, inner JSON included |
| `ManifestRoundTrip.ManifestRoundTrip` | src/manifest.rs:16-28 | serialising any manifest and decoding gives the same manifest |
| `ManifestRoundTrip.NamedWrittenRoundTrip` | src/manifest.rs:62-73 | every assembler or stage object holding a string `name` and an object `options` and nothing else decodes, and serialising the decode gives that object back |
| `ManifestRoundTrip.WrittenPipelineRoundTrip` | src/manifest.rs:40-55 | every pipeline object with all declared fields at every depth decodes, and serialising the decode gives that value back, so full form is exactly what the serialiser writes |
| `ManifestRoundTrip.WrittenBuildRoundTrip` | src/manifest.rs:81-91 | every full-form build object decodes, and serialising the decode gives it back |
| `ManifestRoundTrip.WrittenManifestRoundTrip` | src/manifest.rs:16-28 | every full-form manifest object decodes, and serialising the decode gives it back |
| `ManifestRoundTrip.SerializeManifestInjective` | src/manifest.rs:3-5 | two manifests with the same serialisation are equal |
| `ManifestRules.OnlyObjectsDecode` | src/manifest.rs:139-157 | no entity decodes from a non-object, arrays included; each fails with `NotAnObject` |
| `ManifestRules.UnknownKeyRejected` | src/manifest.rs:18 | a key outside an entity's declared fields fails the decode of that entity, for all five entities |
| `ManifestRules.NameRequired` | src/manifest.rs:65-66 | an assembler or stage without `name` does not decode |
| `ManifestRules.PipelineAndRunnerRequired` | src/manifest.rs:84-87 | a build missing `pipeline` or `runner` does not decode |
| `ManifestRules.NameAloneSuffices` | src/manifest.rs:306-313 | `{"name": s}` decodes to the assembler or stage named `s` with empty options, for every string `s` |
| `ManifestRules.OptionsKeptVerbatim` | src/manifest.rs:318-345 | an object `options` is kept exactly as given; any other JSON kind for `options` fails the decode |
| `ManifestRules.EmptyObjectDefaults` | src/manifest.rs:166-170 | `{}` decodes to the all-defaults manifest and pipeline: no assembler, no build, no stages, no sources |
| `ManifestRules.NullMeansAbsent` | src/manifest.rs:44-48 | a pipeline with `null` for `assembler` or `build` decodes exactly as the same pipeline without that key, success, value and error alike |
| `ManifestRules.PipelineDefaults` | src/manifest.rs:44-51 | an omitted `assembler`, `build` or `stages` decodes to none, none and no stages |
| `ManifestRules.StagesDecodedInOrder` | src/manifest.rs:50-51 | a decoded pipeline has one stage per element of its `stages` array, the i-th stage decoded from the i-th element |
| `ManifestRules.BuildDecodedRecursively` | src/manifest.rs:47-48 | a non-null `build` becomes a build holding the fully decoded nested pipeline; when the assembler decodes, a failing build fails the pipeline with the same error |
| `ManifestRules.SourcesKeptVerbatim` | src/manifest.rs:193-222 | the sources of a decoded manifest have the input's keys and under each key exactly the input's inner object |
| `ManifestRules.DecodedNestingDepth` | src/manifest.rs:37-39 | a decodable pipeline under n build layers decodes, and the decoded result has n more stacked build pipelines than the inner pipeline's decode |
| `ManifestRules.NestingDecodes` | src/manifest.rs:37-39 | a pipeline under any number of build layers decodes exactly when it decodes alone, to the same layers around the same pipeline, and otherwise fails with the same error |
| `ManifestExamples.ManifestExamplesDecode` | src/manifest.rs:164-191 | `{}` and `{"pipeline": {}}` decode to the empty manifest; `[]` and `{"foo": "bar"}` are rejected |
| `ManifestExamples.SourcesExampleDecodes` | src/manifest.rs:193-222 | the two-source example decodes to exactly the two given inner tables |
| `ManifestExamples.PipelineExamplesDecode` | src/manifest.rs:226-287 | the documented pipelines decode as listed (empty, assembler plus one stage, nested build); `[]` and unknown keys are rejected |
| `ManifestExamples.AssemblerExamplesDecode` | src/manifest.rs:291-346 | the documented assembler inputs decode or fail as listed, including `["foobar"]` and array options rejected |
| `ManifestExamples.BuildExamplesDecode` | src/manifest.rs:349-405 | the documented build inputs decode or fail as listed, including `{}` and `[{}, "foobar"]` rejected |
| `ManifestExamples.StageExamplesDecode` | src/manifest.rs:409-464 | the documented stage inputs decode or fail as listed, including `{}` and `["foobar"]` rejected |
| `ManifestExamples.OrdinaryShapesDecode` | src/manifest.rs:40-55 | a manifest whose pipeline only lists stages keeps those stages, a pipeline with only an assembler keeps it, and `null` for both optional fields gives the empty pipeline |

## Left out

- JSON text lexing and parsing: the model starts from an already decoded
  `Json` value. Every decode in the source goes through `serde_json`'s text
  parser, which refuses documents nested more than 128 arrays or objects
  deep, so from text only about 63 build layers can be decoded; the model's
  nesting lemmas hold at every depth and do not reflect that limit.
- JSON numbers are modelled as integers; floating-point numbers are not
  modelled.
- Duplicate keys in one JSON object cannot be expressed, since objects are
  maps. In the source a repeated declared field of one of the five entities
  is an error, while inside `options`, `sources` and arbitrary JSON payloads
  (`BTreeMap` and `serde_json::Value`) the last occurrence of a key wins; the
  model's decoded input corresponds to the latter, already resolved.
- Error kinds and messages: the model reports one of four error kinds, in its
  own fixed checking order (shape, unknown keys, then fields in declared
  order); serde reports its own error kinds, in its own order, with its own
  texts.
- Key order of serialised objects: objects are maps, so the sorted key order
  of `BTreeMap` output is not modelled.
- The automatic multi-version detection described in the module comment
  (src/manifest.rs:7-10): its code is not part of this model.
- The serde derive machinery and the `ObjectMarker` type itself: only their
  observable effect, the object-only check, is modelled.
- `Debug`, `Default` and `PartialEq` derives: Dafny datatypes have
  structural equality, and the defaults are the constants `EmptyPipeline`
  and `EmptyManifest`.
- src/lib.rs only declares the module and has no logic.
