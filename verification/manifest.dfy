/** The strongly-typed representation of the osbuild manifest format,
    version 1, and its strict conversion from and to generic JSON values.

    Every entity is decoded only from a JSON object (never from a positional
    array), every key of that object must be one of the entity's declared
    fields, required fields must be present, and omitted optional fields take
    their default value. Serialisation writes every declared field, with an
    absent optional entity written as `null`.
 */
module Manifest {
  import opened Wrappers
  import opened JsonValue

  /** Root node of a v1 manifest: a single pipeline and a two-level table of
      sources with arbitrary JSON payloads. */
  datatype Manifest1 = Manifest1(pipeline: Pipeline1, sources: Object<Object<Json>>)

  /** A pipeline: its stages, run in order, an optional assembler producing
      the final artifact, and an optional build pipeline that provides the
      environment the stages run in. Build pipelines nest to any depth. */
  datatype Pipeline1 = Pipeline1(assembler: Option<Assembler1>, build: Option<Build1>, stages: Array<Stage1>)

  /** The single assembler of a pipeline. */
  datatype Assembler1 = Assembler1(name: string, options: Object<Json>)

  /** A build environment: another pipeline plus the runner that executes
      stages inside it. */
  datatype Build1 = Build1(pipeline: Pipeline1, runner: string)

  /** One stage of a pipeline. */
  datatype Stage1 = Stage1(name: string, options: Object<Json>)

  /** Why a JSON value does not decode as a manifest entity. When several
      problems are present, the one reported is the first in this model's
      fixed checking order: shape, unknown keys, then the fields in declared
      order. */
  datatype SchemaError =
    | NotAnObject                    // the entity is given as something other than a JSON object
    | UnknownFields(keys: set<string>) // keys the entity does not declare
    | MissingField(field: string)    // a required field is absent
    | InvalidType(field: string)     // a field holds the wrong kind of JSON value

  /** The declared fields of each entity. */
  const ManifestFields: set<string> := {"pipeline", "sources"}
  const PipelineFields: set<string> := {"assembler", "build", "stages"}
  const BuildFields: set<string> := {"pipeline", "runner"}
  /** Assemblers and stages declare the same two fields. */
  const NamedFields: set<string> := {"name", "options"}

  /** The default instances, produced for `{}`. */
  const EmptyPipeline: Pipeline1 := Pipeline1(None, None, [])
  const EmptyManifest: Manifest1 := Manifest1(EmptyPipeline, map[])

  // ---------------------------------------------------------------------
  // Parsing
  // ---------------------------------------------------------------------

  /** The object-only rule and the unknown-field rule shared by all entities:
      yields the object's fields when `j` is an object whose keys are all
      declared. */
  function CheckObject(j: Json, declared: set<string>): (r: Result<Object<Json>, SchemaError>)
    ensures r.Success? <==> j.Object? && j.fields.Keys <= declared
    ensures r.Success? ==> r.value == j.fields
    ensures !j.Object? ==> r == Failure(NotAnObject)
    ensures j.Object? && !(j.fields.Keys <= declared) ==> r == Failure(UnknownFields(j.fields.Keys - declared))
  {
    if !j.Object? then Failure(NotAnObject)
    else if !(j.fields.Keys <= declared) then Failure(UnknownFields(j.fields.Keys - declared))
    else Success(j.fields)
  }

  /** A required field holding a JSON string. */
  function RequiredString(fields: Object<Json>, key: string): (r: Result<string, SchemaError>)
    ensures r.Success? <==> key in fields && fields[key].String?
    ensures r.Success? ==> r.value == fields[key].str
    ensures key !in fields ==> r == Failure(MissingField(key))
  {
    if key !in fields then Failure(MissingField(key))
    else if !fields[key].String? then Failure(InvalidType(key))
    else Success(fields[key].str)
  }

  /** A defaulted field holding a JSON object of arbitrary values; the empty
      object when absent. */
  function OptionalObject(fields: Object<Json>, key: string): (r: Result<Object<Json>, SchemaError>)
    ensures r.Success? <==> key !in fields || fields[key].Object?
    ensures r.Success? && key !in fields ==> r.value == map[]
    ensures r.Success? && key in fields ==> r.value == fields[key].fields
  {
    if key !in fields then Success(map[])
    else if fields[key].Object? then Success(fields[key].fields)
    else Failure(InvalidType(key))
  }

  /** The shape shared by assemblers and stages: a required string `name`
      and defaulted `options`, with no other key. */
  function ParseNamed(j: Json): (r: Result<(string, Object<Json>), SchemaError>)
    ensures r.Success? <==>
      && j.Object? && j.fields.Keys <= NamedFields
      && "name" in j.fields && j.fields["name"].String?
      && ("options" in j.fields ==> j.fields["options"].Object?)
    ensures r.Success? ==> r.value.0 == j.fields["name"].str
    ensures r.Success? ==> r.value.1 == (if "options" in j.fields then j.fields["options"].fields else map[])
  {
    var fields :- CheckObject(j, NamedFields);
    var name :- RequiredString(fields, "name");
    var options :- OptionalObject(fields, "options");
    Success((name, options))
  }

  /** Decodes an assembler: an object with a string `name` and, optionally,
      an object of arbitrary `options`, and no other key. */
  function ParseAssembler(j: Json): (r: Result<Assembler1, SchemaError>)
    ensures r.Success? <==>
      && j.Object? && j.fields.Keys <= NamedFields
      && "name" in j.fields && j.fields["name"].String?
      && ("options" in j.fields ==> j.fields["options"].Object?)
    ensures r.Success? ==> r.value.name == j.fields["name"].str
    ensures r.Success? ==> r.value.options == (if "options" in j.fields then j.fields["options"].fields else map[])
  {
    var named :- ParseNamed(j);
    Success(Assembler1(named.0, named.1))
  }

  /** Decodes a stage; stages have the same shape as assemblers. */
  function ParseStage(j: Json): (r: Result<Stage1, SchemaError>)
    ensures r.Success? <==>
      && j.Object? && j.fields.Keys <= NamedFields
      && "name" in j.fields && j.fields["name"].String?
      && ("options" in j.fields ==> j.fields["options"].Object?)
    ensures r.Success? ==> r.value.name == j.fields["name"].str
    ensures r.Success? ==> r.value.options == (if "options" in j.fields then j.fields["options"].fields else map[])
  {
    var named :- ParseNamed(j);
    Success(Stage1(named.0, named.1))
  }

  /** Decodes the elements of a `stages` array one by one, in order, stopping
      at the first element that does not decode. */
  function ParseStages(items: Array<Json>): (r: Result<Array<Stage1>, SchemaError>)
    ensures r.Success? <==> forall i :: 0 <= i < |items| ==> ParseStage(items[i]).Success?
    ensures r.Success? ==> |r.value| == |items|
    ensures r.Success? ==> forall i :: 0 <= i < |items| ==> ParseStage(items[i]) == Success(r.value[i])
    ensures r.Failure? ==>
      exists i :: 0 <= i < |items| && ParseStage(items[i]) == Failure(r.error)
        && forall k :: 0 <= k < i ==> ParseStage(items[k]).Success?
  {
    if |items| == 0 then Success([])
    else
      var first :- ParseStage(items[0]);
      var rest :- ParseStages(items[1..]);
      assert forall i :: 1 <= i < |items| ==> items[i] == items[1..][i - 1];
      Success([first] + rest)
  }

  /** An optional entity field: absent or `null` both mean "none". */
  function ParseOptionalAssembler(fields: Object<Json>): (r: Result<Option<Assembler1>, SchemaError>)
    ensures "assembler" !in fields || fields["assembler"].Null? ==> r == Success(None)
    ensures "assembler" in fields && !fields["assembler"].Null? ==>
      match ParseAssembler(fields["assembler"])
      case Success(a) => r == Success(Some(a))
      case Failure(e) => r == Failure(e)
  {
    if "assembler" !in fields || fields["assembler"].Null? then Success(None)
    else
      var a :- ParseAssembler(fields["assembler"]);
      Success(Some(a))
  }

  /** The `stages` field: absent means no stages, otherwise it must be an
      array of stages. */
  function ParseStagesField(fields: Object<Json>): (r: Result<Array<Stage1>, SchemaError>)
    ensures "stages" !in fields ==> r == Success([])
    ensures "stages" in fields && !fields["stages"].Array? ==> r == Failure(InvalidType("stages"))
    ensures "stages" in fields && fields["stages"].Array? ==> r == ParseStages(fields["stages"].items)
  {
    if "stages" !in fields then Success([])
    else if fields["stages"].Array? then ParseStages(fields["stages"].items)
    else Failure(InvalidType("stages"))
  }

  /** Decodes a pipeline. The `build` field recurses into `ParseBuild`, which
      recurses back into this function for the nested pipeline; nesting depth
      is unbounded and a failure at any depth fails the whole decode. */
  function ParsePipeline(j: Json): (r: Result<Pipeline1, SchemaError>)
    decreases j
    ensures !j.Object? ==> r == Failure(NotAnObject)
    ensures j.Object? && !(j.fields.Keys <= PipelineFields) ==> r == Failure(UnknownFields(j.fields.Keys - PipelineFields))
    ensures r.Success? ==> j.Object? && j.fields.Keys <= PipelineFields
    ensures r.Success? ==> ParseOptionalAssembler(j.fields) == Success(r.value.assembler)
    ensures r.Success? && ("build" !in j.fields || j.fields["build"].Null?) ==> r.value.build == None
    ensures r.Success? && "build" in j.fields && !j.fields["build"].Null? ==>
      r.value.build.Some? && ParseBuild(j.fields["build"]) == Success(r.value.build.value)
    ensures r.Success? ==> ParseStagesField(j.fields) == Success(r.value.stages)
  {
    var fields :- CheckObject(j, PipelineFields);
    var assembler :- ParseOptionalAssembler(fields);
    var build :-
      if "build" !in fields || fields["build"].Null? then Success(None)
      else
        var b :- ParseBuild(fields["build"]);
        Success(Some(b));
    var stages :- ParseStagesField(fields);
    Success(Pipeline1(assembler, build, stages))
  }

  /** Decodes a build environment; both `pipeline` and `runner` are
      required. */
  function ParseBuild(j: Json): (r: Result<Build1, SchemaError>)
    decreases j
    ensures !j.Object? ==> r == Failure(NotAnObject)
    ensures j.Object? && !(j.fields.Keys <= BuildFields) ==> r == Failure(UnknownFields(j.fields.Keys - BuildFields))
    ensures j.Object? && j.fields.Keys <= BuildFields && "pipeline" !in j.fields ==> r == Failure(MissingField("pipeline"))
    ensures r.Success? ==> "pipeline" in j.fields && ParsePipeline(j.fields["pipeline"]) == Success(r.value.pipeline)
    ensures r.Success? ==> "runner" in j.fields && j.fields["runner"] == String(r.value.runner)
  {
    var fields :- CheckObject(j, BuildFields);
    if "pipeline" !in fields then Failure(MissingField("pipeline"))
    else
      var pipeline :- ParsePipeline(fields["pipeline"]);
      var runner :- RequiredString(fields, "runner");
      Success(Build1(pipeline, runner))
  }

  /** Decodes the `sources` table: an object whose values are all objects;
      the innermost values are kept verbatim. */
  function ParseSources(j: Json): (r: Result<Object<Object<Json>>, SchemaError>)
    ensures r.Success? <==> j.Object? && forall k :: k in j.fields ==> j.fields[k].Object?
    ensures r.Success? ==> r.value.Keys == j.fields.Keys
    ensures r.Success? ==> forall k :: k in r.value ==> j.fields[k] == Object(r.value[k])
  {
    if !j.Object? then Failure(InvalidType("sources"))
    else if exists k :: k in j.fields && !j.fields[k].Object? then Failure(InvalidType("sources"))
    else Success(map k | k in j.fields :: j.fields[k].fields)
  }

  /** Decodes a whole v1 manifest. */
  function ParseManifest(j: Json): (r: Result<Manifest1, SchemaError>)
    ensures !j.Object? ==> r == Failure(NotAnObject)
    ensures j.Object? && !(j.fields.Keys <= ManifestFields) ==> r == Failure(UnknownFields(j.fields.Keys - ManifestFields))
    ensures r.Success? && "pipeline" !in j.fields ==> r.value.pipeline == EmptyPipeline
    ensures r.Success? && "sources" !in j.fields ==> r.value.sources == map[]
    ensures r.Success? && "pipeline" in j.fields ==> ParsePipeline(j.fields["pipeline"]) == Success(r.value.pipeline)
    ensures r.Success? && "sources" in j.fields ==> ParseSources(j.fields["sources"]) == Success(r.value.sources)
  {
    var fields :- CheckObject(j, ManifestFields);
    var pipeline :- if "pipeline" in fields then ParsePipeline(fields["pipeline"]) else Success(EmptyPipeline);
    var sources :- if "sources" in fields then ParseSources(fields["sources"]) else Success(map[]);
    Success(Manifest1(pipeline, sources))
  }

  // ---------------------------------------------------------------------
  // Serialisation
  // ---------------------------------------------------------------------

  // The full form the serialisers write: every declared field present at
  // every depth, an absent assembler or build written as `null`.

  /** An assembler or stage object with a string `name` and object `options`. */
  predicate NamedWritten(j: Json) {
    && j.Object? && j.fields.Keys == NamedFields
    && j.fields["name"].String? && j.fields["options"].Object?
  }

  /** A pipeline object in full form, nested builds included. */
  predicate PipelineWritten(j: Json)
    decreases j
  {
    && j.Object? && j.fields.Keys == PipelineFields
    && (j.fields["assembler"].Null? || NamedWritten(j.fields["assembler"]))
    && (j.fields["build"].Null? || BuildWritten(j.fields["build"]))
    && j.fields["stages"].Array?
    && forall i :: 0 <= i < |j.fields["stages"].items| ==> NamedWritten(j.fields["stages"].items[i])
  }

  /** A build object in full form: a full-form pipeline and a string runner. */
  predicate BuildWritten(j: Json)
    decreases j
  {
    && j.Object? && j.fields.Keys == BuildFields
    && PipelineWritten(j.fields["pipeline"]) && j.fields["runner"].String?
  }

  /** A sources table: an object of objects. */
  predicate SourcesWritten(j: Json) {
    j.Object? && forall k :: k in j.fields ==> j.fields[k].Object?
  }

  /** A manifest object in full form. */
  predicate ManifestWritten(j: Json) {
    && j.Object? && j.fields.Keys == ManifestFields
    && PipelineWritten(j.fields["pipeline"]) && SourcesWritten(j.fields["sources"])
  }

  /** The JSON form shared by assemblers and stages. */
  function SerializeNamed(name: string, options: Object<Json>): (r: Json)
    ensures r.Object? && r.fields.Keys == NamedFields
    ensures NamedWritten(r)
  {
    Object(map["name" := String(name), "options" := Object(options)])
  }

  /** Writes an assembler as an object holding exactly its declared fields. */
  function SerializeAssembler(a: Assembler1): (r: Json)
    ensures r.Object? && r.fields.Keys == NamedFields
    ensures NamedWritten(r)
  {
    SerializeNamed(a.name, a.options)
  }

  /** Writes a stage as an object holding exactly its declared fields. */
  function SerializeStage(s: Stage1): (r: Json)
    ensures r.Object? && r.fields.Keys == NamedFields
    ensures NamedWritten(r)
  {
    SerializeNamed(s.name, s.options)
  }

  /** Serialises stages element by element, keeping their order. */
  function SerializeStages(stages: Array<Stage1>): (r: Array<Json>)
    ensures |r| == |stages|
    ensures forall i :: 0 <= i < |stages| ==> r[i] == SerializeStage(stages[i])
    ensures forall i :: 0 <= i < |r| ==> NamedWritten(r[i])
  {
    if |stages| == 0 then []
    else [SerializeStage(stages[0])] + SerializeStages(stages[1..])
  }

  /** Writes a pipeline as an object holding every declared field; an absent
      assembler or build is written as `null`. */
  function SerializePipeline(p: Pipeline1): (r: Json)
    decreases p
    ensures r.Object? && r.fields.Keys == PipelineFields
    ensures r.fields["assembler"].Null? <==> p.assembler.None?
    ensures r.fields["build"].Null? <==> p.build.None?
    ensures PipelineWritten(r)
  {
    Object(map[
      "assembler" := (match p.assembler case None => Null case Some(a) => SerializeAssembler(a)),
      "build" := (match p.build case None => Null case Some(b) => SerializeBuild(b)),
      "stages" := Array(SerializeStages(p.stages))
    ])
  }

  /** Writes a build as an object holding its nested pipeline and runner. */
  function SerializeBuild(b: Build1): (r: Json)
    decreases b
    ensures r.Object? && r.fields.Keys == BuildFields
    ensures BuildWritten(r)
  {
    Object(map["pipeline" := SerializePipeline(b.pipeline), "runner" := String(b.runner)])
  }

  /** Writes the sources table as an object of objects with the same keys. */
  function SerializeSources(sources: Object<Object<Json>>): (r: Json)
    ensures r.Object? && r.fields.Keys == sources.Keys
    ensures forall k :: k in r.fields ==> r.fields[k].Object?
    ensures SourcesWritten(r)
  {
    Object(map k | k in sources :: Object(sources[k]))
  }

  /** Writes a manifest as an object holding both declared fields. */
  function SerializeManifest(m: Manifest1): (r: Json)
    ensures r.Object? && r.fields.Keys == ManifestFields
    ensures ManifestWritten(r)
  {
    Object(map["pipeline" := SerializePipeline(m.pipeline), "sources" := SerializeSources(m.sources)])
  }
}
