/** The conditions list of the status, used as a map from type to status and reason. */
module Conditions {
  import opened Quantities
  import opened ApiTypes

  /** Rewrites the first condition of that type if status or reason differ; appends when there is none. */
  function SetCondition(cs: seq<Condition>, kind: string, status: bool, reason: string, now: int): seq<Condition> {
    if cs == [] then [Condition(kind, status, reason, now)]
    else if cs[0].kind == kind then
      (if cs[0].status != status || cs[0].reason != reason then cs[0 := Condition(kind, status, reason, now)] else cs)
    else [cs[0]] + SetCondition(cs[1..], kind, status, reason, now)
  }

  /** Where the change happens: at the first condition of that type, or behind the last one. */
  lemma {:induction false} SetConditionAt(cs: seq<Condition>, i: nat, kind: string, status: bool, reason: string,
      now: int)
    requires i <= |cs| && (i < |cs| ==> cs[i].kind == kind)
    requires forall j | 0 <= j < i :: cs[j].kind != kind
    ensures SetCondition(cs, kind, status, reason, now) ==
      if i == |cs| then cs + [Condition(kind, status, reason, now)]
      else if cs[i].status != status || cs[i].reason != reason then cs[i := Condition(kind, status, reason, now)]
      else cs
  {
    if i > 0 {
      SetConditionAt(cs[1..], i - 1, kind, status, reason, now);
      assert cs == [cs[0]] + cs[1..];
    }
  }

  /** The first condition of a type. */
  function Entry(cs: seq<Condition>, kind: string): Option<Condition> {
    if cs == [] then None else if cs[0].kind == kind then Some(cs[0]) else Entry(cs[1..], kind)
  }

  function Lookup(cs: seq<Condition>, kind: string): Option<(bool, string)> {
    var entry := Entry(cs, kind);
    if entry.None? then None else Some((entry.value.status, entry.value.reason))
  }

  /** What becomes of a condition of which this is said, if anything: its time moves only when that is new. */
  function Updated(before: Option<Condition>, kind: string, said: Option<(bool, string)>, now: int)
    : Option<Condition>
  {
    if said.None? then before
    else if before.Some? && (before.value.status, before.value.reason) == said.value then before
    else Some(Condition(kind, said.value.0, said.value.1, now))
  }

  /** Setting a condition updates the entry of its type and no other. */
  lemma {:induction false} SetConditionEntry(cs: seq<Condition>, kind: string, status: bool, reason: string, now: int,
      other: string)
    ensures Entry(SetCondition(cs, kind, status, reason, now), other) ==
      if other == kind then Updated(Entry(cs, kind), kind, Some((status, reason)), now) else Entry(cs, other)
  {
    if cs != [] && cs[0].kind != kind {
      SetConditionEntry(cs[1..], kind, status, reason, now, other);
      assert SetCondition(cs, kind, status, reason, now)[1..] == SetCondition(cs[1..], kind, status, reason, now);
    } else if cs != [] {
      assert SetCondition(cs, kind, status, reason, now)[1..] == cs[1..];
    }
  }

  predicate Holds(cs: seq<Condition>, kind: string, status: bool) {
    Lookup(cs, kind).Some? && Lookup(cs, kind).value.0 == status
  }

  predicate UniqueKinds(cs: seq<Condition>) {
    forall i, j | 0 <= i < j < |cs| :: cs[i].kind != cs[j].kind
  }

  /** Setting a condition is a map update: its own type reads back, every other type is unchanged. */
  lemma SetConditionIsMapUpdate(cs: seq<Condition>, kind: string, status: bool, reason: string, now: int,
      other: string)
    ensures Lookup(SetCondition(cs, kind, status, reason, now), other) ==
      if other == kind then Some((status, reason)) else Lookup(cs, other)
  {
    SetConditionEntry(cs, kind, status, reason, now, other);
  }

  /** At most one entry is added, and only when the type is new; existing positions keep their type,
      and a transition time moves only together with a status or reason. */
  lemma {:induction false} SetConditionShape(cs: seq<Condition>, kind: string, status: bool, reason: string, now: int)
    ensures var ds := SetCondition(cs, kind, status, reason, now);
      && |ds| == (if Lookup(cs, kind).None? then |cs| + 1 else |cs|)
      && (forall i | 0 <= i < |cs| :: ds[i].kind == cs[i].kind)
      && (|ds| > |cs| ==> ds[|cs|] == Condition(kind, status, reason, now))
      && (forall i | 0 <= i < |cs| :: ds[i] != cs[i] ==>
            ds[i] == Condition(kind, status, reason, now) && (cs[i].status != status || cs[i].reason != reason))
  {
    if cs != [] && cs[0].kind != kind {
      SetConditionShape(cs[1..], kind, status, reason, now);
      assert forall i | 1 <= i < |cs| :: cs[i] == cs[1..][i - 1];
    }
  }

  lemma {:induction false} LookupMeansPresence(cs: seq<Condition>, kind: string)
    ensures Lookup(cs, kind).Some? <==> exists i | 0 <= i < |cs| :: cs[i].kind == kind
  {
    if cs != [] {
      LookupMeansPresence(cs[1..], kind);
      if i :| 0 <= i < |cs| && cs[i].kind == kind {
        assert i > 0 ==> cs[1..][i - 1].kind == kind;
      }
      if Lookup(cs, kind).Some? && cs[0].kind != kind {
        var i :| 0 <= i < |cs[1..]| && cs[1..][i].kind == kind;
        assert cs[i + 1].kind == kind;
      }
    }
  }

  lemma SetConditionKeepsUnique(cs: seq<Condition>, kind: string, status: bool, reason: string, now: int)
    requires UniqueKinds(cs)
    ensures UniqueKinds(SetCondition(cs, kind, status, reason, now))
  {
    SetConditionShape(cs, kind, status, reason, now);
    LookupMeansPresence(cs, kind);
  }

  /** Setting the same status and reason again changes nothing, whenever it happens. */
  lemma SetConditionIdempotent(cs: seq<Condition>, kind: string, status: bool, reason: string, now: int, later: int)
    ensures var ds := SetCondition(cs, kind, status, reason, now);
      SetCondition(ds, kind, status, reason, later) == ds
  {
  }

  const READY := "Ready"
  const METRICS_AVAILABLE := "MetricsAvailable"
  const VPA_CONFLICT := "VPAConflict"

  /** What every run keeps: distinct types out of three. */
  predicate WellFormed(cs: seq<Condition>) {
    UniqueKinds(cs) && forall c | c in cs :: c.kind in {READY, METRICS_AVAILABLE, VPA_CONFLICT}
  }

  lemma SetConditionKeepsWellFormed(cs: seq<Condition>, kind: string, status: bool, reason: string, now: int)
    requires WellFormed(cs) && kind in {READY, METRICS_AVAILABLE, VPA_CONFLICT}
    ensures WellFormed(SetCondition(cs, kind, status, reason, now))
  {
    SetConditionKeepsUnique(cs, kind, status, reason, now);
    SetConditionShape(cs, kind, status, reason, now);
    var ds := SetCondition(cs, kind, status, reason, now);
    forall d | d in ds
      ensures d.kind in {READY, METRICS_AVAILABLE, VPA_CONFLICT}
    {
      var i :| 0 <= i < |ds| && ds[i] == d;
      if i < |cs| { assert cs[i] in cs; }
    }
  }

  lemma FourTypesNeedAFourth(cs: seq<Condition>)
    requires |cs| >= 4 && UniqueKinds(cs)
    ensures exists i | 0 <= i < 4 :: cs[i].kind !in {READY, METRICS_AVAILABLE, VPA_CONFLICT}
  {
    var known := {READY, METRICS_AVAILABLE, VPA_CONFLICT};
    if cs[0].kind in known && cs[1].kind in known && cs[2].kind in known {
      assert cs[3].kind !in known;
    }
  }

  lemma AtMostThree(cs: seq<Condition>)
    requires WellFormed(cs)
    ensures |cs| <= 3
  {
    if |cs| >= 4 {
      FourTypesNeedAFourth(cs);
    }
  }
}
