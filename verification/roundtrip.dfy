/** Serialising any v1 manifest entity and decoding the result gives back a
    structurally equal entity, through build pipelines nested to any depth.
 */
module ManifestRoundTrip {
  import opened Wrappers
  import opened JsonValue
  import opened Manifest

  lemma NamedRoundTrip(name: string, options: Object<Json>)
    ensures ParseNamed(SerializeNamed(name, options)) == Success((name, options))
  {
    var j := SerializeNamed(name, options);
    assert j.fields.Keys == NamedFields;
  }

  lemma AssemblerRoundTrip(a: Assembler1)
    ensures ParseAssembler(SerializeAssembler(a)) == Success(a)
  {
    NamedRoundTrip(a.name, a.options);
  }

  lemma StageRoundTrip(s: Stage1)
    ensures ParseStage(SerializeStage(s)) == Success(s)
  {
    NamedRoundTrip(s.name, s.options);
  }

  /** Stage order and count survive the round trip. */
  lemma StagesRoundTrip(stages: Array<Stage1>)
    ensures ParseStages(SerializeStages(stages)) == Success(stages)
  {
    var items := SerializeStages(stages);
    forall i | 0 <= i < |items|
      ensures ParseStage(items[i]) == Success(stages[i])
    {
      StageRoundTrip(stages[i]);
    }
    var r := ParseStages(items);
    assert r.Success?;
    assert r.value == stages;
  }

  lemma {:induction false} PipelineRoundTrip(p: Pipeline1)
    ensures ParsePipeline(SerializePipeline(p)) == Success(p)
    decreases p, 1
  {
    var j := SerializePipeline(p);
    assert j.fields.Keys == PipelineFields;
    match p.assembler {
      case None =>
      case Some(a) => AssemblerRoundTrip(a);
    }
    match p.build {
      case None =>
      case Some(b) => BuildRoundTrip(b);
    }
    StagesRoundTrip(p.stages);
  }

  lemma {:induction false} BuildRoundTrip(b: Build1)
    ensures ParseBuild(SerializeBuild(b)) == Success(b)
    decreases b, 0
  {
    var j := SerializeBuild(b);
    assert j.fields.Keys == BuildFields;
    PipelineRoundTrip(b.pipeline);
  }

  /** The sources table, inner payloads included, survives the round trip. */
  lemma SourcesRoundTrip(sources: Object<Object<Json>>)
    ensures ParseSources(SerializeSources(sources)) == Success(sources)
  {
    var j := SerializeSources(sources);
    var r := ParseSources(j);
    assert r.Success?;
    forall k | k in sources
      ensures r.value[k] == sources[k]
    {
      assert j.fields[k] == Object(sources[k]) == Object(r.value[k]);
    }
    assert j.fields.Keys == sources.Keys;
    assert r.value.Keys == sources.Keys;
    assert r.value == sources;
  }

  lemma ManifestRoundTrip(m: Manifest1)
    ensures ParseManifest(SerializeManifest(m)) == Success(m)
  {
    var j := SerializeManifest(m);
    assert j.fields.Keys == ManifestFields;
    PipelineRoundTrip(m.pipeline);
    SourcesRoundTrip(m.sources);
  }

  // ---------------------------------------------------------------------
  // The converse: the full form is exactly what the serialisers write
  // ---------------------------------------------------------------------

  /** Every full-form assembler or stage object decodes, and serialising its
      decode gives the same object back. */
  lemma NamedWrittenRoundTrip(j: Json)
    requires NamedWritten(j)
    ensures ParseAssembler(j).Success? && SerializeAssembler(ParseAssembler(j).value) == j
    ensures ParseStage(j).Success? && SerializeStage(ParseStage(j).value) == j
  {
    var r := SerializeNamed(j.fields["name"].str, j.fields["options"].fields);
    assert r.fields.Keys == j.fields.Keys;
    assert r.fields == j.fields;
  }

  /** Every full-form pipeline, nested builds included, decodes, and
      serialising its decode gives the same JSON value back. */
  lemma {:induction false} WrittenPipelineRoundTrip(j: Json)
    requires PipelineWritten(j)
    ensures ParsePipeline(j).Success?
    ensures SerializePipeline(ParsePipeline(j).value) == j
    decreases j, 1
  {
    var fields := j.fields;
    var items := fields["stages"].items;
    forall i | 0 <= i < |items|
      ensures ParseStage(items[i]).Success? && SerializeStage(ParseStage(items[i]).value) == items[i]
    {
      NamedWrittenRoundTrip(items[i]);
    }
    if !fields["assembler"].Null? {
      NamedWrittenRoundTrip(fields["assembler"]);
    }
    if !fields["build"].Null? {
      WrittenBuildRoundTrip(fields["build"]);
    }
    var p := ParsePipeline(j).value;
    assert SerializeStages(p.stages) == items;
    var r := SerializePipeline(p);
    assert r.fields["assembler"] == fields["assembler"];
    assert r.fields["build"] == fields["build"];
    assert r.fields["stages"] == fields["stages"];
    assert r.fields == fields;
  }

  lemma {:induction false} WrittenBuildRoundTrip(j: Json)
    requires BuildWritten(j)
    ensures ParseBuild(j).Success?
    ensures SerializeBuild(ParseBuild(j).value) == j
    decreases j, 0
  {
    WrittenPipelineRoundTrip(j.fields["pipeline"]);
    var r := SerializeBuild(ParseBuild(j).value);
    assert r.fields == j.fields;
  }

  /** Every full-form manifest decodes, and serialising its decode gives the
      same JSON value back. */
  lemma WrittenManifestRoundTrip(j: Json)
    requires ManifestWritten(j)
    ensures ParseManifest(j).Success?
    ensures SerializeManifest(ParseManifest(j).value) == j
  {
    WrittenPipelineRoundTrip(j.fields["pipeline"]);
    var m := ParseManifest(j).value;
    var s := SerializeSources(m.sources);
    assert s.fields.Keys == j.fields["sources"].fields.Keys;
    assert s.fields == j.fields["sources"].fields;
    var r := SerializeManifest(m);
    assert r.fields == j.fields;
  }

  /** Serialisation loses nothing: distinct manifests serialise differently. */
  lemma SerializeManifestInjective(m1: Manifest1, m2: Manifest1)
    ensures SerializeManifest(m1) == SerializeManifest(m2) ==> m1 == m2
  {
    ManifestRoundTrip(m1);
    ManifestRoundTrip(m2);
  }
}
