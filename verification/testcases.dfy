/** The documented example inputs of each v1 entity, with the decoded value
    or the rejection each must produce.
 */
module ManifestExamples {
  import opened Wrappers
  import opened JsonValue
  import opened Manifest

  /** `{"name": "foobar"}` */
  const FoobarNamed: Json := Object(map["name" := String("foobar")])

  /** `{"foo": "bar"}`: a key no entity declares. */
  const FooBar: Json := Object(map["foo" := String("bar")])

  /** `{"foo": 0, "bar": 71}` */
  const FooBarOptions: Object<Json> := map["foo" := Number(0), "bar" := Number(71)]

  /** `[{"name": "foobar"}]` as a `stages` array. */
  lemma SingleStageDecodes()
    ensures ParseStages([FoobarNamed]) == Success([Stage1("foobar", map[])])
  {
    assert FoobarNamed.fields.Keys == {"name"};
    var r := ParseStages([FoobarNamed]);
    assert ParseStage([FoobarNamed][0]) == Success(Stage1("foobar", map[]));
    assert r.Success?;
    assert r.value[0] == Stage1("foobar", map[]);
    assert |r.value| == 1;
    assert r.value == [Stage1("foobar", map[])];
  }

  lemma ManifestExamplesDecode()
    ensures ParseManifest(Object(map[])) == Success(EmptyManifest)
    ensures ParseManifest(Array([])).Failure?
    ensures ParseManifest(FooBar).Failure?
    ensures ParseManifest(Object(map["pipeline" := Object(map[])])) == Success(EmptyManifest)
  {
    assert map["pipeline" := Object(map[])].Keys == {"pipeline"};
    assert "foo" in FooBar.fields;
  }

  /** Sources are two-layered objects with arbitrary JSON inside. */
  lemma SourcesExampleDecodes()
    ensures
      var foo := map["a" := Number(71), "b" := String("foo")];
      var bar := map["a" := Number(0), "b" := String("bar")];
      var j := Object(map["sources" := Object(map["foo" := Object(foo), "bar" := Object(bar)])]);
      ParseManifest(j) == Success(Manifest1(EmptyPipeline, map["foo" := foo, "bar" := bar]))
  {
    var foo := map["a" := Number(71), "b" := String("foo")];
    var bar := map["a" := Number(0), "b" := String("bar")];
    var sources := Object(map["foo" := Object(foo), "bar" := Object(bar)]);
    var j := Object(map["sources" := sources]);
    assert j.fields.Keys == {"sources"};
    var r := ParseSources(sources);
    assert r.Success?;
    assert sources.fields.Keys == {"foo", "bar"};
    assert r.value == map["foo" := foo, "bar" := bar];
  }

  lemma PipelineExamplesDecode()
    ensures ParsePipeline(Object(map[])) == Success(EmptyPipeline)
    ensures ParsePipeline(Array([])).Failure?
    ensures ParsePipeline(FooBar).Failure?
    ensures ParsePipeline(Object(map["assembler" := FoobarNamed, "stages" := Array([FoobarNamed])]))
      == Success(Pipeline1(Some(Assembler1("foobar", map[])), None, [Stage1("foobar", map[])]))
    ensures ParsePipeline(Object(map["build" := Object(map["pipeline" := Object(map[]), "runner" := String("foobar")])]))
      == Success(Pipeline1(None, Some(Build1(EmptyPipeline, "foobar")), []))
  {
    assert "foo" in FooBar.fields;
    assert FoobarNamed.fields.Keys == {"name"};
    SingleStageDecodes();
    var p := Object(map["assembler" := FoobarNamed, "stages" := Array([FoobarNamed])]);
    assert p.fields.Keys == {"assembler", "stages"};
    var b := Object(map["pipeline" := Object(map[]), "runner" := String("foobar")]);
    assert b.fields.Keys == BuildFields;
    assert Object(map["build" := b]).fields.Keys == {"build"};
  }

  lemma AssemblerExamplesDecode()
    ensures ParseAssembler(Object(map[])).Failure?
    ensures ParseAssembler(Array([])).Failure?
    ensures ParseAssembler(FooBar).Failure?
    ensures ParseAssembler(FoobarNamed) == Success(Assembler1("foobar", map[]))
    ensures ParseAssembler(Array([String("foobar")])).Failure?
    ensures ParseAssembler(Object(map["name" := String("foobar"), "options" := Object(FooBarOptions)]))
      == Success(Assembler1("foobar", FooBarOptions))
    ensures ParseAssembler(Object(map["name" := String("foobar"), "options" := Array([Number(0), Number(71)])])).Failure?
  {
    assert FoobarNamed.fields.Keys == {"name"};
    assert map["name" := String("foobar"), "options" := Object(FooBarOptions)].Keys == NamedFields;
  }

  lemma BuildExamplesDecode()
    ensures ParseBuild(Object(map[])).Failure?
    ensures ParseBuild(Array([])).Failure?
    ensures ParseBuild(FooBar).Failure?
    ensures ParseBuild(Object(map["pipeline" := Object(map[]), "runner" := String("foobar")]))
      == Success(Build1(EmptyPipeline, "foobar"))
    ensures ParseBuild(Array([Object(map[]), String("foobar")])).Failure?
    ensures ParseBuild(Object(map["pipeline" := Object(map["stages" := Array([FoobarNamed])]), "runner" := String("foobar")]))
      == Success(Build1(Pipeline1(None, None, [Stage1("foobar", map[])]), "foobar"))
  {
    assert FoobarNamed.fields.Keys == {"name"};
    SingleStageDecodes();
    assert map["pipeline" := Object(map[]), "runner" := String("foobar")].Keys == BuildFields;
    var p := Object(map["stages" := Array([FoobarNamed])]);
    assert p.fields.Keys == {"stages"};
    assert map["pipeline" := p, "runner" := String("foobar")].Keys == BuildFields;
  }

  lemma StageExamplesDecode()
    ensures ParseStage(Object(map[])).Failure?
    ensures ParseStage(Array([])).Failure?
    ensures ParseStage(FooBar).Failure?
    ensures ParseStage(FoobarNamed) == Success(Stage1("foobar", map[]))
    ensures ParseStage(Array([String("foobar")])).Failure?
    ensures ParseStage(Object(map["name" := String("foobar"), "options" := Object(FooBarOptions)]))
      == Success(Stage1("foobar", FooBarOptions))
    ensures ParseStage(Object(map["name" := String("foobar"), "options" := Array([Number(0), Number(71)])])).Failure?
  {
    assert FoobarNamed.fields.Keys == {"name"};
    assert map["name" := String("foobar"), "options" := Object(FooBarOptions)].Keys == NamedFields;
  }

  /** Shapes beyond the unit tests: a manifest whose pipeline only lists
      stages, a pipeline with only an assembler, and explicit `null`s for the
      optional fields. */
  lemma OrdinaryShapesDecode()
    ensures ParseManifest(Object(map["pipeline" := Object(map["stages" := Array([FoobarNamed])])]))
      == Success(Manifest1(Pipeline1(None, None, [Stage1("foobar", map[])]), map[]))
    ensures ParsePipeline(Object(map["assembler" := FoobarNamed]))
      == Success(Pipeline1(Some(Assembler1("foobar", map[])), None, []))
    ensures ParsePipeline(Object(map["assembler" := Null, "build" := Null])) == Success(EmptyPipeline)
  {
    SingleStageDecodes();
    assert FoobarNamed.fields.Keys == {"name"};
    var p := Object(map["stages" := Array([FoobarNamed])]);
    assert p.fields.Keys == {"stages"};
    assert map["pipeline" := p].Keys == {"pipeline"};
    assert map["assembler" := FoobarNamed].Keys == {"assembler"};
    assert map["assembler" := Null, "build" := Null].Keys == {"assembler", "build"};
  }
}
