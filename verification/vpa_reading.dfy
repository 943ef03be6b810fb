/** What is read from a VPA object, field by field. */
module VpaReading {
  import opened Quantities
  import Vpa

  /** The string is present and parses to that quantity. */
  predicate Reads(parse: Vpa.QuantityParser, s: Option<string>, v: real) {
    s.Some? && parse(s.value) == Some(v)
  }

  predicate Readable(parse: Vpa.QuantityParser, s: Option<string>) {
    s.Some? && parse(s.value).Some?
  }

  /** A resource list holds CPU iff the cpu field is readable, memory iff the memory field is, each with the value of
      its own field, and nothing else. */
  ghost predicate ReadFrom(parse: Vpa.QuantityParser, list: ResourceList, field: Option<Vpa.RawResources>) {
    && (CPU in list <==> field.Some? && Readable(parse, field.value.cpu))
    && (Memory in list <==> field.Some? && Readable(parse, field.value.memory))
    && (CPU in list ==> Reads(parse, field.value.cpu, list[CPU]))
    && (Memory in list ==> Reads(parse, field.value.memory, list[Memory]))
    && (forall key | key in list :: key in {CPU, Memory})
  }

  lemma ParsedResourcesRead(parse: Vpa.QuantityParser, field: Option<Vpa.RawResources>)
    ensures ReadFrom(parse, Vpa.ParsedResources(parse, field), field)
  {
  }

  /** A field that is present, or the empty string. */
  predicate PresentOrEmpty(s: string, field: Option<string>) {
    field == Some(s) || (field.None? && s == "")
  }

  ghost predicate EntryRead(parse: Vpa.QuantityParser, rec: Vpa.ContainerRecommendation, raw: Vpa.RawRecommendation) {
    && PresentOrEmpty(rec.containerName, raw.containerName)
    && ReadFrom(parse, rec.target, raw.target) && ReadFrom(parse, rec.upperBound, raw.upperBound)
  }

  /** How many entries of the list are objects. */
  function Objects(raw: seq<Option<Vpa.RawRecommendation>>): nat {
    if raw == [] then 0 else Objects(raw[..|raw| - 1]) + (if raw[|raw| - 1].Some? then 1 else 0)
  }

  /** The entries that are objects are read in their order, and the others are skipped. */
  lemma {:induction false} EntriesRead(parse: Vpa.QuantityParser, raw: seq<Option<Vpa.RawRecommendation>>, i: nat)
    requires i < |raw| && raw[i].Some?
    ensures var recs := Vpa.ParsedRecommendations(parse, raw);
      |recs| == Objects(raw) && Objects(raw[..i]) < |recs| && EntryRead(parse, recs[Objects(raw[..i])], raw[i].value)
    decreases |raw|
  {
    var rest, last := raw[..|raw| - 1], raw[|raw| - 1];
    AsManyAsObjects(parse, rest);
    if i < |rest| {
      assert rest[..i] == raw[..i];
      EntriesRead(parse, rest, i);
    } else {
      ParsedResourcesRead(parse, last.value.target);
      ParsedResourcesRead(parse, last.value.upperBound);
    }
  }

  lemma {:induction false} AsManyAsObjects(parse: Vpa.QuantityParser, raw: seq<Option<Vpa.RawRecommendation>>)
    ensures |Vpa.ParsedRecommendations(parse, raw)| == Objects(raw)
  {
    if raw != [] {
      AsManyAsObjects(parse, raw[..|raw| - 1]);
    }
  }

  /** An object is read iff it has a target reference; its mode is the literal one, or Auto when there is none. */
  lemma ObjectRead(parse: Vpa.QuantityParser, obj: Vpa.VpaObject)
    ensures Vpa.Parsed(parse, obj).Some? <==> obj.targetRef.Some?
    ensures obj.targetRef.Some? ==>
      var info := Vpa.Parsed(parse, obj).value;
      && info.name == obj.name
      && PresentOrEmpty(info.targetRefKind, obj.targetRef.value.kind)
      && PresentOrEmpty(info.targetRefName, obj.targetRef.value.name)
      && info.updateMode == (if obj.updateMode.Some? then obj.updateMode.value else "Auto")
      && (info.hasRecommendation <==> obj.containerRecommendations.Some?)
      && (obj.containerRecommendations.None? ==> info.containerRecommendations == [])
      && (obj.containerRecommendations.Some? ==>
            info.containerRecommendations == Vpa.ParsedRecommendations(parse, obj.containerRecommendations.value))
  {
  }

  /** An object targets a workload iff its reference names that kind and that name. */
  lemma TargetsIff(obj: Vpa.VpaObject, kind: string, name: string)
    ensures Vpa.Targets(obj, kind, name) <==>
      && obj.targetRef.Some?
      && PresentOrEmpty(kind, obj.targetRef.value.kind) && PresentOrEmpty(name, obj.targetRef.value.name)
  {
  }
}
