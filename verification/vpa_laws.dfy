/** When VPA recommendations drive a cycle. */
module VpaLaws {
  import opened Quantities
  import opened ApiTypes
  import opened Evaluation
  import opened Reconciling
  import opened VpaReading
  import Vpa

  predicate HasEntries(raw: Option<seq<Option<Vpa.RawRecommendation>>>) {
    raw.Some? && exists r | r in raw.value :: r.Some?
  }

  /** What the object itself must carry: a target reference, the literal mode Off, and at least one recommendation. */
  predicate Drives(obj: Vpa.VpaObject) {
    obj.targetRef.Some? && obj.updateMode == Some(Vpa.UPDATE_MODE_OFF) && HasEntries(obj.containerRecommendations)
  }

  predicate Consulted(spec: Spec, view: VpaView) {
    view.configured && !VpaDisabled(spec) && view.installed
  }

  predicate ByName(spec: Spec) {
    spec.vpaPolicy.Some? && spec.vpaPolicy.value.vpaName != ""
  }

  lemma ParsedNonEmpty(parse: Vpa.QuantityParser, raw: seq<Option<Vpa.RawRecommendation>>)
    ensures Vpa.ParsedRecommendations(parse, raw) != [] <==> exists r | r in raw :: r.Some?
  {
  }

  /** For the object that was found, by name or by discovery. */
  lemma MatchedDrivesIff(spec: Spec, view: VpaView, obj: Vpa.VpaObject)
    requires Consulted(spec, view) && MatchedVpa(spec, view) == Vpa.Parsed(view.parse, obj)
    ensures UsingVpa(CheckVpa(spec, view)) <==> Drives(obj)
    ensures UsingVpa(CheckVpa(spec, view)) ==>
      CheckVpa(spec, view).recs == Vpa.ParsedRecommendations(view.parse, obj.containerRecommendations.value)
  {
    if obj.containerRecommendations.Some? {
      ParsedNonEmpty(view.parse, obj.containerRecommendations.value);
    }
  }

  /** An explicitly named object drives the cycle iff it qualifies; its target is not compared. */
  lemma NamedVpaDrivesIff(spec: Spec, view: VpaView)
    requires Consulted(spec, view) && ByName(spec)
    ensures UsingVpa(CheckVpa(spec, view)) <==> view.named.Some? && Drives(view.named.value)
  {
    if view.named.Some? {
      MatchedDrivesIff(spec, view, view.named.value);
    }
  }

  /** On discovery the first object that targets the workload decides, even when a later one would qualify. */
  lemma DiscoveredVpaDrivesIff(spec: Spec, view: VpaView, k: nat)
    requires Consulted(spec, view) && !ByName(spec) && spec.targetRef.Some? && view.listed.Some?
    requires k < |view.listed.value|
    requires var t := spec.targetRef.value;
      Vpa.Targets(view.listed.value[k], t.kind, t.name) &&
      forall j | 0 <= j < k :: !Vpa.Targets(view.listed.value[j], t.kind, t.name)
    ensures UsingVpa(CheckVpa(spec, view)) <==> Drives(view.listed.value[k])
  {
    var t := spec.targetRef.value;
    Vpa.FirstMatchIsFirst(view.parse, view.listed.value, t.kind, t.name, k);
    MatchedDrivesIff(spec, view, view.listed.value[k]);
  }

  /** Without an object that targets the workload, or without consulting VPA at all, the own algorithm runs. */
  lemma NoVpaNoDrive(spec: Spec, view: VpaView)
    requires !Consulted(spec, view) ||
      (!ByName(spec) && (spec.targetRef.None? || view.listed.None? ||
        forall obj | obj in view.listed.value ::
          !Vpa.Targets(obj, spec.targetRef.value.kind, spec.targetRef.value.name)))
    ensures !UsingVpa(CheckVpa(spec, view)) && !Halts(spec, CheckVpa(spec, view))
  {
    if Consulted(spec, view) && spec.targetRef.Some? && view.listed.Some? {
      Vpa.FirstMatchIsFirst(view.parse, view.listed.value, spec.targetRef.value.kind, spec.targetRef.value.name, 0);
    }
  }

  /** A conflict and VPA recommendations exclude each other; only one of the two clears the condition. */
  lemma ConflictExcludesVpa(spec: Spec, view: VpaView)
    ensures var check := CheckVpa(spec, view);
      && !(UsingVpa(check) && check.status.value.conflict)
      && (UsingVpa(check) ==> check.clearsConflict && check.recs != [] && !Halts(spec, check))
      && (check.status.Some? && check.status.value.conflict ==> !check.clearsConflict && check.recs == [])
  {
  }

  // ---- The whole check, in terms of the object that is found ----

  /** Not switched off by the policy, and installed. */
  predicate Looked(spec: Spec, view: VpaView) {
    && view.configured && view.installed
    && !(spec.vpaPolicy.Some? && spec.vpaPolicy.value.enabled == Some(false))
  }

  /** The object of the given name or else the first one that targets the workload; it must have a target reference. */
  predicate Finds(spec: Spec, view: VpaView, obj: Vpa.VpaObject) {
    && Looked(spec, view) && obj.targetRef.Some?
    && if spec.vpaPolicy.Some? && spec.vpaPolicy.value.vpaName != "" then view.named == Some(obj)
       else
         && spec.targetRef.Some? && view.listed.Some?
         && exists k | 0 <= k < |view.listed.value| ::
              view.listed.value[k] == obj && FirstTargeting(view.listed.value, spec.targetRef.value, k)
  }

  predicate FirstTargeting(items: seq<Vpa.VpaObject>, target: TargetRef, k: nat)
    requires k < |items|
  {
    && Vpa.Targets(items[k], target.kind, target.name)
    && forall j | 0 <= j < k :: !Vpa.Targets(items[j], target.kind, target.name)
  }

  lemma FoundIsMatched(spec: Spec, view: VpaView, obj: Vpa.VpaObject)
    requires Finds(spec, view, obj)
    ensures MatchedVpa(spec, view) == Vpa.Parsed(view.parse, obj)
  {
    if !(spec.vpaPolicy.Some? && spec.vpaPolicy.value.vpaName != "") {
      var t := spec.targetRef.value;
      var k :| 0 <= k < |view.listed.value| && view.listed.value[k] == obj && FirstTargeting(view.listed.value, t, k);
      Vpa.FirstMatchIsFirst(view.parse, view.listed.value, t.kind, t.name, k);
    }
  }

  lemma {:induction false} FirstTargetingExists(items: seq<Vpa.VpaObject>, target: TargetRef, n: nat) returns (k: nat)
    requires n < |items| && Vpa.Targets(items[n], target.kind, target.name)
    ensures k <= n && FirstTargeting(items, target, k)
    decreases n
  {
    if j :| 0 <= j < n && Vpa.Targets(items[j], target.kind, target.name) {
      k := FirstTargetingExists(items, target, j);
    } else {
      k := n;
    }
  }

  lemma MatchedIsFound(spec: Spec, view: VpaView)
    requires Looked(spec, view) && forall obj :: !Finds(spec, view, obj)
    ensures MatchedVpa(spec, view).None?
  {
    if ByName(spec) {
      if view.named.Some? {
        assert !Finds(spec, view, view.named.value);
      }
    } else if spec.targetRef.Some? && view.listed.Some? {
      var items, t := view.listed.value, spec.targetRef.value;
      forall n | 0 <= n < |items|
        ensures !Vpa.Targets(items[n], t.kind, t.name)
      {
        if Vpa.Targets(items[n], t.kind, t.name) {
          var k := FirstTargetingExists(items, t, n);
          assert Finds(spec, view, items[k]);
        }
      }
      Vpa.FirstMatchIsFirst(view.parse, items, t.kind, t.name, 0);
    }
  }

  /** Once an object is found, its mode and its entries decide everything. */
  lemma CheckWithObject(spec: Spec, view: VpaView, obj: Vpa.VpaObject)
    requires Finds(spec, view, obj)
    ensures var check := CheckVpa(spec, view);
      var mode := if obj.updateMode.Some? then obj.updateMode.value else "Auto";
      && check.status == Some(VpaStatus(true, obj.name, mode, Drives(obj), mode != "Off"))
      && check.recs ==
          (if Drives(obj) then Vpa.ParsedRecommendations(view.parse, obj.containerRecommendations.value) else [])
      && (check.clearsConflict <==> mode == "Off")
      && (UsingVpa(check) <==> Drives(obj))
      && (Halts(spec, check) <==> mode != "Off" && spec.vpaPolicy.Some? && spec.vpaPolicy.value.strictMode)
  {
    FoundIsMatched(spec, view, obj);
    MatchedDrivesIff(spec, view, obj);
  }

  /** Without one nothing drives, nothing halts, and no conflict is cleared. */
  lemma CheckWithoutObject(spec: Spec, view: VpaView)
    requires forall obj :: !Finds(spec, view, obj)
    ensures var check := CheckVpa(spec, view);
      && check.status == (if !view.configured then None else Some(VpaStatus(Looked(spec, view), "", "", false, false)))
      && check.recs == [] && !check.clearsConflict && !UsingVpa(check) && !Halts(spec, check)
  {
    if Looked(spec, view) {
      MatchedIsFound(spec, view);
    }
  }
}
