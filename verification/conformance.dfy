/** Which JSON values each v1 manifest entity accepts, stated against an
    independent, declarative description of the schema: the parsers succeed
    on exactly the conforming values.
 */
module ManifestConformance {
  import opened Wrappers
  import opened JsonValue
  import opened Manifest

  // ---------------------------------------------------------------------
  // The schema, stated declaratively
  // ---------------------------------------------------------------------

  /** `j` is a JSON object all of whose keys are among `declared`. */
  ghost predicate ObjectWithin(j: Json, declared: set<string>) {
    j.Object? && j.fields.Keys <= declared
  }

  /** `j` may stand where the schema expects an assembler or a stage. */
  ghost predicate NamedConforms(j: Json) {
    && ObjectWithin(j, {"name", "options"})
    && "name" in j.fields && j.fields["name"].String?
    && ("options" in j.fields ==> j.fields["options"].Object?)
  }

  /** `j` may stand where the schema expects a pipeline. */
  ghost predicate PipelineConforms(j: Json)
    decreases j
  {
    && ObjectWithin(j, {"assembler", "build", "stages"})
    && ("assembler" in j.fields ==> j.fields["assembler"].Null? || NamedConforms(j.fields["assembler"]))
    && ("build" in j.fields ==> j.fields["build"].Null? || BuildConforms(j.fields["build"]))
    && ("stages" in j.fields ==>
          && j.fields["stages"].Array?
          && forall i :: 0 <= i < |j.fields["stages"].items| ==> NamedConforms(j.fields["stages"].items[i]))
  }

  /** `j` may stand where the schema expects a build environment. */
  ghost predicate BuildConforms(j: Json)
    decreases j
  {
    && ObjectWithin(j, {"pipeline", "runner"})
    && "pipeline" in j.fields && PipelineConforms(j.fields["pipeline"])
    && "runner" in j.fields && j.fields["runner"].String?
  }

  /** `j` may stand where the schema expects the sources table. */
  ghost predicate SourcesConform(j: Json) {
    j.Object? && forall k :: k in j.fields ==> j.fields[k].Object?
  }

  /** `j` is a v1 manifest document. */
  ghost predicate ManifestConforms(j: Json) {
    && ObjectWithin(j, {"pipeline", "sources"})
    && ("pipeline" in j.fields ==> PipelineConforms(j.fields["pipeline"]))
    && ("sources" in j.fields ==> SourcesConform(j.fields["sources"]))
  }

  // ---------------------------------------------------------------------
  // The parsers accept exactly the conforming values
  // ---------------------------------------------------------------------

  lemma StageAcceptsExactly(j: Json)
    ensures ParseStage(j).Success? <==> NamedConforms(j)
    ensures ParseAssembler(j).Success? <==> NamedConforms(j)
  {
  }

  lemma {:induction false} PipelineAcceptsExactly(j: Json)
    ensures ParsePipeline(j).Success? <==> PipelineConforms(j)
    decreases j, 1
  {
    if j.Object? && j.fields.Keys <= PipelineFields {
      var fields := j.fields;
      if "build" in fields && !fields["build"].Null? {
        BuildAcceptsExactly(fields["build"]);
      }
      if "stages" in fields && fields["stages"].Array? {
        var items := fields["stages"].items;
        forall i | 0 <= i < |items|
          ensures ParseStage(items[i]).Success? <==> NamedConforms(items[i])
        {
          StageAcceptsExactly(items[i]);
        }
      }
      if "assembler" in fields {
        StageAcceptsExactly(fields["assembler"]);
      }
    }
  }

  lemma {:induction false} BuildAcceptsExactly(j: Json)
    ensures ParseBuild(j).Success? <==> BuildConforms(j)
    decreases j, 0
  {
    if j.Object? && j.fields.Keys <= BuildFields && "pipeline" in j.fields {
      PipelineAcceptsExactly(j.fields["pipeline"]);
    }
  }

  lemma ManifestAcceptsExactly(j: Json)
    ensures ParseManifest(j).Success? <==> ManifestConforms(j)
  {
    if j.Object? && "pipeline" in j.fields {
      PipelineAcceptsExactly(j.fields["pipeline"]);
    }
  }
}
