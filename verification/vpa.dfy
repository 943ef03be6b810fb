/** Which VPA object may drive recommendations (internal/vpa). */
module Vpa {
  import opened Quantities

  // ---- VPA objects as read from the cluster; None marks a field that is absent or of another type ----

  datatype RawResources = RawResources(cpu: Option<string>, memory: Option<string>)

  datatype RawRecommendation = RawRecommendation(
    containerName: Option<string>, target: Option<RawResources>, upperBound: Option<RawResources>)

  datatype RawTargetRef = RawTargetRef(kind: Option<string>, name: Option<string>)

  datatype VpaObject = VpaObject(
    name: string, targetRef: Option<RawTargetRef>, updateMode: Option<string>,
    containerRecommendations: Option<seq<Option<RawRecommendation>>>)

  // ---- Parsed objects ----

  datatype ContainerRecommendation = ContainerRecommendation(
    containerName: string, target: ResourceList, upperBound: ResourceList)

  datatype VpaInfo = VpaInfo(
    name: string, updateMode: string, targetRefKind: string, targetRefName: string,
    hasRecommendation: bool, containerRecommendations: seq<ContainerRecommendation>)

  const UPDATE_MODE_OFF := "Off"
  const UPDATE_MODE_AUTO := "Auto"

  /** Parsing of a quantity string, a library call; None is a parse error. */
  type QuantityParser = string -> Option<real>

  function OrEmpty(s: Option<string>): string {
    if s.Some? then s.value else ""
  }

  function ReadQuantity(parse: QuantityParser, s: Option<string>): Option<real> {
    if s.Some? then parse(s.value) else None
  }

  /** The list holds a resource iff its field is a string that parses. */
  function ParsedResources(parse: QuantityParser, field: Option<RawResources>): ResourceList {
    var cpu := if field.Some? then ReadQuantity(parse, field.value.cpu) else None;
    var memory := if field.Some? then ReadQuantity(parse, field.value.memory) else None;
    (if cpu.Some? then map[CPU := cpu.value] else map[]) + (if memory.Some? then map[Memory := memory.value] else map[])
  }

  method ParseResourceList(parse: QuantityParser, field: Option<RawResources>) returns (result: ResourceList)
    ensures result == ParsedResources(parse, field)
  {
    result := map[];
    if field.None? { return; }
    if field.value.cpu.Some? {
      var q := parse(field.value.cpu.value);
      if q.Some? { result := result[CPU := q.value]; }
    }
    if field.value.memory.Some? {
      var q := parse(field.value.memory.value);
      if q.Some? { result := result[Memory := q.value]; }
    }
  }

  function ParsedRecommendation(parse: QuantityParser, raw: RawRecommendation): ContainerRecommendation {
    ContainerRecommendation(
      OrEmpty(raw.containerName), ParsedResources(parse, raw.target), ParsedResources(parse, raw.upperBound))
  }

  /** Entries that are not objects are skipped. */
  function ParsedRecommendations(parse: QuantityParser,
      raw: seq<Option<RawRecommendation>>): seq<ContainerRecommendation> {
    if raw == [] then [] else
    var rest := ParsedRecommendations(parse, raw[..|raw| - 1]);
    var last := raw[|raw| - 1];
    if last.Some? then rest + [ParsedRecommendation(parse, last.value)] else rest
  }

  /** Parsing fails iff the target reference is missing; an absent update mode reads as Auto. */
  function Parsed(parse: QuantityParser, obj: VpaObject): Option<VpaInfo> {
    if obj.targetRef.None? then None else
    Some(VpaInfo(
      obj.name,
      if obj.updateMode.Some? then obj.updateMode.value else UPDATE_MODE_AUTO,
      OrEmpty(obj.targetRef.value.kind),
      OrEmpty(obj.targetRef.value.name),
      obj.containerRecommendations.Some?,
      if obj.containerRecommendations.Some? then ParsedRecommendations(parse, obj.containerRecommendations.value)
      else []))
  }

  method ParseVpa(parse: QuantityParser, obj: VpaObject) returns (result: Option<VpaInfo>)
    ensures result == Parsed(parse, obj)
  {
    if obj.targetRef.None? { return None; }
    var kind := OrEmpty(obj.targetRef.value.kind);
    var name := OrEmpty(obj.targetRef.value.name);
    var updateMode := UPDATE_MODE_AUTO;
    if obj.updateMode.Some? { updateMode := obj.updateMode.value; }
    var recs: seq<ContainerRecommendation> := [];
    if obj.containerRecommendations.Some? {
      var raw := obj.containerRecommendations.value;
      var i := 0;
      while i < |raw|
        invariant 0 <= i <= |raw|
        invariant recs == ParsedRecommendations(parse, raw[..i])
      {
        assert raw[..i + 1][..i] == raw[..i];
        if raw[i].Some? {
          var target := ParseResourceList(parse, raw[i].value.target);
          var upperBound := ParseResourceList(parse, raw[i].value.upperBound);
          recs := recs + [ContainerRecommendation(OrEmpty(raw[i].value.containerName), target, upperBound)];
        }
        i := i + 1;
      }
      assert raw[..i] == raw;
    }
    return Some(VpaInfo(obj.name, updateMode, kind, name, obj.containerRecommendations.Some?, recs));
  }

  predicate Targets(obj: VpaObject, kind: string, name: string) {
    && obj.targetRef.Some?
    && OrEmpty(obj.targetRef.value.kind) == kind
    && OrEmpty(obj.targetRef.value.name) == name
  }

  /** The first object that parses and targets the workload. */
  function FirstMatch(parse: QuantityParser, items: seq<VpaObject>, kind: string, name: string): Option<VpaInfo> {
    if items == [] then None
    else if Targets(items[0], kind, name) then Parsed(parse, items[0])
    else FirstMatch(parse, items[1..], kind, name)
  }

  /** None for the list stands for a failed List call. */
  method FindMatchingVpa(parse: QuantityParser, items: Option<seq<VpaObject>>, kind: string, name: string)
    returns (result: Option<VpaInfo>)
    ensures result == if items.None? then None else FirstMatch(parse, items.value, kind, name)
  {
    if items.None? { return None; }
    var i := 0;
    while i < |items.value|
      invariant 0 <= i <= |items.value|
      invariant FirstMatch(parse, items.value, kind, name) == FirstMatch(parse, items.value[i..], kind, name)
    {
      var info := ParseVpa(parse, items.value[i]);
      if info.Some? {
        if info.value.targetRefKind == kind && info.value.targetRefName == name {
          return info;
        }
      }
      i := i + 1;
    }
    return None;
  }

  /** A match at position k is the result iff no earlier object matches; no match anywhere iff the result is None. */
  lemma {:induction false} FirstMatchIsFirst(parse: QuantityParser, items: seq<VpaObject>, kind: string,
      name: string, k: nat)
    ensures FirstMatch(parse, items, kind, name).None? <==> forall obj | obj in items :: !Targets(obj, kind, name)
    ensures
      && k < |items| && Targets(items[k], kind, name)
      && (forall j | 0 <= j < k :: !Targets(items[j], kind, name)) ==>
        FirstMatch(parse, items, kind, name) == Parsed(parse, items[k])
  {
    if items != [] {
      FirstMatchIsFirst(parse, items[1..], kind, name, if k > 0 then k - 1 else 0);
      assert items == [items[0]] + items[1..];
      if 0 < k < |items| {
        assert items[1..][k - 1] == items[k];
        assert !Targets(items[0], kind, name) || !(forall j | 0 <= j < k :: !Targets(items[j], kind, name));
      }
    }
  }

  /** Every recommendation comes from an entry of the raw list. */
  lemma {:induction false} ParsedRecommendationsCome(parse: QuantityParser, raw: seq<Option<RawRecommendation>>,
      rec: ContainerRecommendation)
    ensures rec in ParsedRecommendations(parse, raw) <==>
      exists r | r in raw :: r.Some? && rec == ParsedRecommendation(parse, r.value)
  {
    if raw != [] {
      var rest, last := raw[..|raw| - 1], raw[|raw| - 1];
      ParsedRecommendationsCome(parse, rest, rec);
      assert raw == rest + [last];
      assert last in raw;
    }
  }

  /** Whether the object leaves applying recommendations to others. */
  predicate OnlyRecommends(info: VpaInfo) {
    info.updateMode == UPDATE_MODE_OFF
  }
}
