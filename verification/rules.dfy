/** The decoding rules of the v1 manifest schema, one lemma per rule:
    objects only, unknown keys rejected, required fields enforced, defaults
    for omitted fields, options and sources kept verbatim, stages decoded in
    order, and build pipelines decoded recursively to any depth.
 */
module ManifestRules {
  import opened Wrappers
  import opened JsonValue
  import opened Manifest

  /** No entity decodes from anything but a JSON object, in particular not
      from an array listing its fields positionally. */
  lemma OnlyObjectsDecode(j: Json)
    requires !j.Object?
    ensures ParseManifest(j) == Failure(NotAnObject)
    ensures ParsePipeline(j) == Failure(NotAnObject)
    ensures ParseAssembler(j) == Failure(NotAnObject)
    ensures ParseBuild(j) == Failure(NotAnObject)
    ensures ParseStage(j) == Failure(NotAnObject)
  {
  }

  /** A key outside an entity's declared fields fails the decode, whatever
      the other keys hold. */
  lemma UnknownKeyRejected(fields: Object<Json>, key: string)
    requires key in fields
    ensures key !in ManifestFields ==> ParseManifest(Object(fields)).Failure?
    ensures key !in PipelineFields ==> ParsePipeline(Object(fields)).Failure?
    ensures key !in NamedFields ==> ParseAssembler(Object(fields)).Failure?
    ensures key !in BuildFields ==> ParseBuild(Object(fields)).Failure?
    ensures key !in NamedFields ==> ParseStage(Object(fields)).Failure?
  {
  }

  /** `name` is required on assemblers and stages. */
  lemma NameRequired(fields: Object<Json>)
    requires "name" !in fields
    ensures ParseAssembler(Object(fields)).Failure?
    ensures ParseStage(Object(fields)).Failure?
  {
  }

  /** `pipeline` and `runner` are both required on a build. */
  lemma PipelineAndRunnerRequired(fields: Object<Json>)
    requires "pipeline" !in fields || "runner" !in fields
    ensures ParseBuild(Object(fields)).Failure?
  {
  }

  /** A bare name is a complete assembler or stage, with empty options. */
  lemma NameAloneSuffices(name: string)
    ensures ParseAssembler(Object(map["name" := String(name)])) == Success(Assembler1(name, map[]))
    ensures ParseStage(Object(map["name" := String(name)])) == Success(Stage1(name, map[]))
  {
    assert map["name" := String(name)].Keys == {"name"};
  }

  /** `options` must be an object; its values are kept exactly as given. */
  lemma OptionsKeptVerbatim(name: string, options: Json)
    ensures var j := Object(map["name" := String(name), "options" := options]);
      && (options.Object? ==> ParseStage(j) == Success(Stage1(name, options.fields)))
      && (options.Object? ==> ParseAssembler(j) == Success(Assembler1(name, options.fields)))
      && (!options.Object? ==> ParseStage(j).Failure? && ParseAssembler(j).Failure?)
  {
    var j := Object(map["name" := String(name), "options" := options]);
    assert j.fields.Keys == NamedFields;
  }

  /** The empty object is the all-defaults manifest and pipeline. */
  lemma EmptyObjectDefaults()
    ensures ParseManifest(Object(map[])) == Success(EmptyManifest)
    ensures ParsePipeline(Object(map[])) == Success(EmptyPipeline)
    ensures EmptyPipeline.assembler.None? && EmptyPipeline.build.None? && EmptyPipeline.stages == []
    ensures EmptyManifest.sources == map[]
  {
  }

  /** An explicit `null` for the optional `assembler` or `build` decodes
      exactly as if the key were left out. */
  lemma NullMeansAbsent(fields: Object<Json>, key: string)
    requires key == "assembler" || key == "build"
    ensures ParsePipeline(Object(fields[key := Null])) == ParsePipeline(Object(fields - {key}))
  {
    var withNull := fields[key := Null];
    var without := fields - {key};
    assert withNull.Keys == without.Keys + {key};
    if withNull.Keys <= PipelineFields {
      forall k | k in without && k != key
        ensures withNull[k] == without[k]
      {
      }
      assert ParseOptionalAssembler(withNull) == ParseOptionalAssembler(without);
      assert ParseStagesField(withNull) == ParseStagesField(without);
    } else {
      assert withNull.Keys - PipelineFields == without.Keys - PipelineFields;
    }
  }

  /** Omitted fields of a pipeline take their defaults. */
  lemma PipelineDefaults(j: Json)
    requires ParsePipeline(j).Success?
    ensures "assembler" !in j.fields ==> ParsePipeline(j).value.assembler == None
    ensures "build" !in j.fields ==> ParsePipeline(j).value.build == None
    ensures "stages" !in j.fields ==> ParsePipeline(j).value.stages == []
  {
  }

  /** The i-th stage of a decoded pipeline comes from the i-th element of
      its `stages` array, and there are as many stages as elements. */
  lemma StagesDecodedInOrder(j: Json)
    requires ParsePipeline(j).Success?
    requires "stages" in j.fields
    ensures j.fields["stages"].Array?
    ensures |ParsePipeline(j).value.stages| == |j.fields["stages"].items|
    ensures forall i :: 0 <= i < |j.fields["stages"].items| ==>
      ParseStage(j.fields["stages"].items[i]) == Success(ParsePipeline(j).value.stages[i])
  {
  }

  /** A non-null `build` is decoded into a build holding a fully decoded
      nested pipeline; if that decode fails, the pipeline fails with the
      same error. */
  lemma BuildDecodedRecursively(j: Json)
    requires j.Object? && j.fields.Keys <= PipelineFields
    requires "build" in j.fields && !j.fields["build"].Null?
    ensures ParsePipeline(j).Success? ==>
      && ParseBuild(j.fields["build"]).Success?
      && ParsePipeline(j).value.build == Some(ParseBuild(j.fields["build"]).value)
    ensures ParseBuild(j.fields["build"]).Failure? && ParseOptionalAssembler(j.fields).Success? ==>
      ParsePipeline(j) == Failure(ParseBuild(j.fields["build"]).error)
  {
  }

  /** The sources table of a decoded manifest has the given keys and, under
      each, exactly the given inner object. */
  lemma SourcesKeptVerbatim(j: Json)
    requires ParseManifest(j).Success?
    requires "sources" in j.fields
    ensures j.fields["sources"].Object?
    ensures ParseManifest(j).value.sources.Keys == j.fields["sources"].fields.Keys
    ensures forall k :: k in j.fields["sources"].fields ==>
      j.fields["sources"].fields[k] == Object(ParseManifest(j).value.sources[k])
  {
  }

  // ---------------------------------------------------------------------
  // Unbounded nesting of build pipelines
  // ---------------------------------------------------------------------

  /** `inner` wrapped in `depth` layers of `{"build": {"pipeline": …,
      "runner": runner}}`. */
  function NestedJson(depth: nat, inner: Json, runner: string): Json {
    if depth == 0 then inner
    else Object(map["build" := Object(map["pipeline" := NestedJson(depth - 1, inner, runner), "runner" := String(runner)])])
  }

  /** The decoded counterpart of `NestedJson`. */
  function NestedPipeline(depth: nat, inner: Pipeline1, runner: string): Pipeline1 {
    if depth == 0 then inner
    else Pipeline1(None, Some(Build1(NestedPipeline(depth - 1, inner, runner), runner)), [])
  }

  /** How many build pipelines are stacked below `p`. */
  function BuildDepth(p: Pipeline1): nat
    decreases p
  {
    match p.build
    case None => 0
    case Some(b) => 1 + BuildDepth(b.pipeline)
  }

  /** A pipeline decoded from `depth` build layers around a decodable
      pipeline has `depth` more stacked build pipelines than the inner one. */
  lemma DecodedNestingDepth(depth: nat, inner: Json, runner: string)
    requires ParsePipeline(inner).Success?
    ensures ParsePipeline(NestedJson(depth, inner, runner)).Success?
    ensures BuildDepth(ParsePipeline(NestedJson(depth, inner, runner)).value)
      == depth + BuildDepth(ParsePipeline(inner).value)
  {
    NestingDecodes(depth, inner, runner);
    NestedPipelineDepth(depth, ParsePipeline(inner).value, runner);
  }

  lemma {:induction false} NestedPipelineDepth(depth: nat, inner: Pipeline1, runner: string)
    ensures BuildDepth(NestedPipeline(depth, inner, runner)) == depth + BuildDepth(inner)
  {
    if depth > 0 {
      NestedPipelineDepth(depth - 1, inner, runner);
    }
  }

  /** Decoding works at any nesting depth: a pipeline buried under `depth`
      build layers decodes exactly when it decodes on its own, to the same
      pipeline under the same layers, and otherwise with the same error. */
  lemma {:induction false} NestingDecodes(depth: nat, inner: Json, runner: string)
    ensures ParsePipeline(NestedJson(depth, inner, runner)) ==
      match ParsePipeline(inner)
      case Success(p) => Success(NestedPipeline(depth, p, runner))
      case Failure(e) => Failure(e)
  {
    if depth > 0 {
      NestingDecodes(depth - 1, inner, runner);
      var b := Object(map["pipeline" := NestedJson(depth - 1, inner, runner), "runner" := String(runner)]);
      assert b.fields.Keys == BuildFields;
      var j := Object(map["build" := b]);
      assert j.fields.Keys == {"build"};
      assert NestedJson(depth, inner, runner) == j;
    }
  }
}
