/** internal/pkg/util/conditions.go: a list of conditions kept like a map from type to condition. */
module Conditions {
  import opened Common
  import opened Kube

  const CONDITION_AVAILABLE := "Available"
  const CONDITION_PROGRESSING := "Progressing"
  const CONDITION_DEGRADED := "Degraded"

  const REASON_RECONCILED := "Reconciled"
  const REASON_RECONCILING := "Reconciling"
  const REASON_RESOURCE_NOT_FOUND := "ResourceNotFound"
  const REASON_TARGET_NOT_FOUND := "TargetNotFound"

  /** The arguments of one SetCondition call. */
  datatype Setting = Setting(ctype: string, status: ConditionStatus, reason: string, message: string)

  function Position(conditions: seq<Condition>, ctype: string): nat
  {
    First(conditions, (c: Condition) => c.ctype == ctype)
  }

  function Updated(c: Condition, s: Setting, now: int): Condition
  {
    c.(status := s.status,
       lastTransitionTime := if c.status != s.status then now else c.lastTransitionTime,
       reason := s.reason,
       message := s.message,
       observedGeneration := 0)
  }

  function Set(conditions: seq<Condition>, s: Setting, now: int): seq<Condition>
  {
    var i := Position(conditions, s.ctype);
    if i < |conditions| then conditions[i := Updated(conditions[i], s, now)]
    else conditions + [Condition(s.ctype, s.status, now, s.reason, s.message, 0)]
  }

  function Get(conditions: seq<Condition>, ctype: string): Option<Condition>
  {
    var i := Position(conditions, ctype);
    if i < |conditions| then Some(conditions[i]) else None
  }

  function Remove(conditions: seq<Condition>, ctype: string): seq<Condition>
  {
    var i := Position(conditions, ctype);
    if i < |conditions| then conditions[..i] + conditions[i + 1..] else conditions
  }

  ghost predicate UniqueTypes(conditions: seq<Condition>)
  {
    forall i, j :: 0 <= i < j < |conditions| ==> conditions[i].ctype != conditions[j].ctype
  }

  /** The slice of conditions that the functions change through a pointer. */
  class ConditionList {
    var items: seq<Condition>

    constructor (items: seq<Condition>)
      ensures this.items == items
    {
      this.items := items;
    }

    method SetCondition(s: Setting, now: int)
      modifies this
      ensures items == Set(old(items), s, now)
    {
      for i := 0 to |items|
        invariant items == old(items)
        invariant forall j :: 0 <= j < i ==> items[j].ctype != s.ctype
      {
        if items[i].ctype == s.ctype {
          var condition := items[i];
          if condition.status != s.status {
            condition := condition.(status := s.status, lastTransitionTime := now);
          }
          condition := condition.(reason := s.reason, message := s.message, observedGeneration := 0);
          items := items[i := condition];
          return;
        }
      }
      items := items + [Condition(s.ctype, s.status, now, s.reason, s.message, 0)];
    }

    method RemoveCondition(ctype: string)
      modifies this
      ensures items == Remove(old(items), ctype)
    {
      for i := 0 to |items|
        invariant items == old(items)
        invariant forall j :: 0 <= j < i ==> items[j].ctype != ctype
      {
        if items[i].ctype == ctype {
          items := items[..i] + items[i + 1..];
          return;
        }
      }
    }

    method GetCondition(ctype: string) returns (found: Option<Condition>)
      ensures found == Get(items, ctype)
    {
      for i := 0 to |items|
        invariant forall j :: 0 <= j < i ==> items[j].ctype != ctype
      {
        if items[i].ctype == ctype {
          return Some(items[i]);
        }
      }
      return None;
    }
  }

  /** Setting a condition changes what is found under its type, and under no other; the transition time
      moves exactly when the status does; types stay unique. */
  lemma SetThenGet(conditions: seq<Condition>, s: Setting, now: int, ctype: string)
    ensures var was, now' := Get(conditions, ctype), Get(Set(conditions, s, now), ctype);
            if ctype != s.ctype then now' == was
            else now'.Some? && now'.value.status == s.status && now'.value.reason == s.reason &&
                 now'.value.message == s.message && now'.value.observedGeneration == 0 &&
                 now'.value.lastTransitionTime ==
                   (if was.Some? && was.value.status == s.status then was.value.lastTransitionTime else now)
    ensures UniqueTypes(conditions) ==> UniqueTypes(Set(conditions, s, now))
  {
    var after := Set(conditions, s, now);
    var i, j := Position(conditions, s.ctype), Position(conditions, ctype);
    var k := Position(after, ctype);
    assert forall n :: 0 <= n < |conditions| ==> after[n].ctype == conditions[n].ctype;
    if j < |conditions| {
      assert after[j].ctype == ctype;
      assert k == j;
    } else if ctype == s.ctype {
      assert after[|conditions|].ctype == ctype;
      assert k == |conditions|;
    }
  }

  lemma RemoveAt(conditions: seq<Condition>, i: nat)
    requires i < |conditions|
    ensures var after := conditions[..i] + conditions[i + 1..];
            |after| == |conditions| - 1 && forall n :: 0 <= n < |after| ==>
            after[n] == conditions[if n < i then n else n + 1]
  {
  }

  lemma RemoveKeepsUnique(conditions: seq<Condition>, removed: string)
    requires UniqueTypes(conditions)
    ensures UniqueTypes(Remove(conditions, removed))
  {
    var i := Position(conditions, removed);
    if i < |conditions| {
      RemoveAt(conditions, i);
    }
  }

  /** On a list with unique types, removing a condition leaves the others as they were and that type absent. */
  lemma RemoveThenGet(conditions: seq<Condition>, removed: string, ctype: string)
    requires UniqueTypes(conditions)
    ensures Get(Remove(conditions, removed), ctype) == if ctype == removed then None else Get(conditions, ctype)
    ensures UniqueTypes(Remove(conditions, removed))
  {
    RemoveKeepsUnique(conditions, removed);
    var after := Remove(conditions, removed);
    var i, j, k := Position(conditions, removed), Position(conditions, ctype), Position(after, ctype);
    if i < |conditions| {
      RemoveAt(conditions, i);
      if ctype != removed && j < |conditions| {
        assert after[if j < i then j else j - 1] == conditions[j];
        UniqueGet(after, if j < i then j else j - 1);
      } else {
        assert k == |after|;
      }
    }
  }

  /* ---- Sequences of settings ---- */

  /** The list after setting one condition after the other, each at its own time. */
  function SetAll(conditions: seq<Condition>, settings: seq<Setting>, time: nat -> int): seq<Condition>
  {
    if settings == [] then conditions
    else
      var n := |settings| - 1;
      Set(SetAll(conditions, settings[..n], time), settings[n], time(n))
  }

  lemma SetAllNext(conditions: seq<Condition>, settings: seq<Setting>, s: Setting, time: nat -> int)
    ensures SetAll(conditions, settings + [s], time) == Set(SetAll(conditions, settings, time), s, time(|settings|))
  {
  }

  /** The last setting made for a type. */
  function LastSetting(settings: seq<Setting>, ctype: string): Option<Setting>
  {
    if settings == [] then None
    else
      var n := |settings| - 1;
      if settings[n].ctype == ctype then Some(settings[n]) else LastSetting(settings[..n], ctype)
  }

  predicate Shows(c: Condition, s: Setting)
  {
    c.ctype == s.ctype && c.status == s.status && c.reason == s.reason && c.message == s.message &&
    c.observedGeneration == 0
  }

  /** After a sequence of settings, a type shows its last setting; a type that was not set is as before. */
  lemma {:induction false} SetAllThenGet(
      conditions: seq<Condition>, settings: seq<Setting>, time: nat -> int, ctype: string)
    ensures var after := Get(SetAll(conditions, settings, time), ctype);
            match LastSetting(settings, ctype)
            case None => after == Get(conditions, ctype)
            case Some(s) => after.Some? && Shows(after.value, s)
  {
    if settings == [] {
    } else {
      var n := |settings| - 1;
      SetAllThenGet(conditions, settings[..n], time, ctype);
      SetThenGet(SetAll(conditions, settings[..n], time), settings[n], time(n), ctype);
    }
  }

  function Types(conditions: seq<Condition>): seq<string>
  {
    seq(|conditions|, i requires 0 <= i < |conditions| => conditions[i].ctype)
  }

  lemma SetTypes(conditions: seq<Condition>, s: Setting, now: int)
    ensures Types(Set(conditions, s, now)) ==
            if s.ctype in Types(conditions) then Types(conditions) else Types(conditions) + [s.ctype]
  {
    var i := Position(conditions, s.ctype);
    if i < |conditions| {
      assert Types(conditions)[i] == s.ctype;
    }
  }

  lemma {:induction false} SetAllKeepsUnique(conditions: seq<Condition>, settings: seq<Setting>, time: nat -> int)
    requires UniqueTypes(conditions)
    ensures UniqueTypes(SetAll(conditions, settings, time))
  {
    if settings == [] {
    } else {
      var n := |settings| - 1;
      SetAllKeepsUnique(conditions, settings[..n], time);
      SetThenGet(SetAll(conditions, settings[..n], time), settings[n], time(n), "");
    }
  }

  /** Every type that is set is there afterwards, and no type disappears. */
  lemma {:induction false} SetAllAddsTypes(conditions: seq<Condition>, settings: seq<Setting>, time: nat -> int)
    ensures forall t :: t in Types(conditions) ==> t in Types(SetAll(conditions, settings, time))
    ensures forall s :: s in settings ==> s.ctype in Types(SetAll(conditions, settings, time))
  {
    if settings == [] {
    } else {
      var n := |settings| - 1;
      SetAllAddsTypes(conditions, settings[..n], time);
      SetTypes(SetAll(conditions, settings[..n], time), settings[n], time(n));
      assert forall s :: s in settings ==> s in settings[..n] || s == settings[n];
    }
  }

  lemma {:induction false} SetAllSameTypes(conditions: seq<Condition>, settings: seq<Setting>, time: nat -> int)
    requires forall s :: s in settings ==> s.ctype in Types(conditions)
    ensures Types(SetAll(conditions, settings, time)) == Types(conditions)
  {
    if settings == [] {
    } else {
      var n := |settings| - 1;
      SetAllSameTypes(conditions, settings[..n], time);
      SetTypes(SetAll(conditions, settings[..n], time), settings[n], time(n));
    }
  }

  /** The conditions without their transition times. */
  function Untimed(conditions: seq<Condition>): seq<Condition>
  {
    seq(|conditions|, i requires 0 <= i < |conditions| => conditions[i].(lastTransitionTime := 0))
  }

  lemma UniqueGet(conditions: seq<Condition>, i: nat)
    requires UniqueTypes(conditions) && i < |conditions|
    ensures Get(conditions, conditions[i].ctype) == Some(conditions[i])
  {
  }

  /** Making the same settings twice changes nothing but transition times. */
  lemma SetAllTwice(conditions: seq<Condition>, settings: seq<Setting>, time: nat -> int, later: nat -> int)
    requires UniqueTypes(conditions)
    ensures Untimed(SetAll(SetAll(conditions, settings, time), settings, later)) ==
            Untimed(SetAll(conditions, settings, time))
  {
    var once := SetAll(conditions, settings, time);
    var twice := SetAll(once, settings, later);
    SetAllKeepsUnique(conditions, settings, time);
    SetAllKeepsUnique(once, settings, later);
    SetAllAddsTypes(conditions, settings, time);
    SetAllSameTypes(once, settings, later);
    assert |Types(twice)| == |Types(once)|;
    forall i | 0 <= i < |once| ensures Untimed(twice)[i] == Untimed(once)[i] {
      assert Types(twice)[i] == Types(once)[i];
      UniqueGet(once, i);
      UniqueGet(twice, i);
      SetAllThenGet(conditions, settings, time, once[i].ctype);
      SetAllThenGet(once, settings, later, once[i].ctype);
    }
  }
}
