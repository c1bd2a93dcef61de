/**
 * The parts of django_fsm the validator relies on, as data: the transitions
 * declared on the status field, the lookup `_get_fsm_defined_transitions`
 * performs over them, `can_proceed` (a transition's conditions, evaluated
 * in order) and `has_transition_perm` (the transition's permission against
 * the user's permissions). Conditions are opaque functions of the record.
 */
module Fsm {
  import opened Values
  import opened Errors
  import opened Records

  /** The requesting user: staff flag and the permissions `has_perm` grants. */
  datatype User = User(isStaff: bool, perms: set<string>)

  /** What a permissions class hands back: per-action maps from field name to allowed. */
  type Perms = map<string, map<string, bool>>

  /** The record as the functions the validator calls see it: its state and its `old_instance` attribute. */
  datatype Subject = Subject(state: RecordState, shadow: Shadow)

  /** The status a record holds; a record without one reads as None. */
  function StatusOf(s: RecordState): Value
  {
    if "status" in s.attrs then s.attrs["status"] else VNone
  }

  /** `record.status = v`: the status changes and no other field does. */
  function SetStatus(s: RecordState, v: Value): (r: RecordState)
    ensures StatusOf(r) == v && r.snapshots == s.snapshots
    ensures forall f :: f != "status" ==> (f in r.attrs <==> f in s.attrs) && (f in s.attrs ==> r.attrs[f] == s.attrs[f])
  {
    s.(attrs := s.attrs["status" := v])
  }

  /** A transition condition: a function of the record that returns a value or raises. */
  datatype Guard = Guard(name: string, run: Subject -> Outcome)

  /** A transition's `target`: a list of statuses, or one status string. */
  datatype Target = TargetList(items: seq<Value>) | TargetStr(s: string)

  /** One entry of `get_all_FIELD_transitions`: one source state of a decorated method. */
  datatype FsmTransition = FsmTransition(source: Value, target: Target, methodName: string, conditions: seq<Guard>, permission: Option<string>)

  /** Python `x in s` on two strings. */
  predicate IsSubstring(x: string, s: string) {
    exists i :: 0 <= i <= |s| && x <= s[i..]
  }

  /**
   * Python `target in transition.target`: membership in a list, but a
   * substring test on a string (a non-string status is never in a string).
   */
  predicate TargetContains(t: Target, x: Value) {
    match t
    case TargetList(items) => x in items
    case TargetStr(s) => x.VStr? && IsSubstring(x.s, s)
  }

  predicate Matches(t: FsmTransition, source: Value, target: Value) {
    t.source == source && TargetContains(t.target, target)
  }

  /** `_get_fsm_defined_transitions(source, target)`: the index of the first declared transition that matches. */
  function Lookup(ts: seq<FsmTransition>, source: Value, target: Value): (r: Option<nat>)
    ensures r.Some? ==> r.value < |ts| && Matches(ts[r.value], source, target)
                        && forall j :: 0 <= j < r.value ==> !Matches(ts[j], source, target)
    ensures r.None? ==> forall j :: 0 <= j < |ts| ==> !Matches(ts[j], source, target)
  {
    if ts == [] then None
    else if Matches(ts[0], source, target) then Some(0)
    else
      var r := Lookup(ts[1..], source, target);
      if r.None? then None else Some(r.value + 1)
  }

  /** The first matching transition is the one the lookup finds: its answer is unique. */
  lemma LookupFirst(ts: seq<FsmTransition>, source: Value, target: Value, k: nat)
    requires k < |ts| && Matches(ts[k], source, target)
    requires forall j :: 0 <= j < k ==> !Matches(ts[j], source, target)
    ensures Lookup(ts, source, target) == Some(k)
  {
  }

  /** The declared transition a lookup found, if any. */
  function Found(ts: seq<FsmTransition>, r: Option<nat>): Option<FsmTransition>
  {
    if r.Some? && r.value < |ts| then Some(ts[r.value]) else None
  }

  /** Python truthiness of a value a function returned. */
  predicate ReturnedTruthy(o: Outcome)
    requires o.ReturnedBool? || o.ReturnedOther?
  {
    if o.ReturnedBool? then o.b else o.truthy
  }

  predicate Raised(o: Outcome) {
    o.RaisedSimple? || o.RaisedDetailed? || o.RaisedForeign?
  }

  /** `all(c(instance) for c in conditions)`: stops at the first falsy answer; a raise propagates. */
  function ConditionsMet(gs: seq<Guard>, subj: Subject): (o: Outcome)
    ensures o.ReturnedBool? || Raised(o)
  {
    if gs == [] then ReturnedBool(true)
    else
      var first := gs[0].run(subj);
      if Raised(first) then first
      else if !ReturnedTruthy(first) then ReturnedBool(false)
      else ConditionsMet(gs[1..], subj)
  }

  /**
   * The conditions pass iff every guard answers truthily; otherwise the
   * first guard that does not answer truthily decides (False, or its raise).
   */
  lemma {:induction false} ConditionsMetFirst(gs: seq<Guard>, subj: Subject)
    ensures ConditionsMet(gs, subj) == ReturnedBool(true) <==>
              forall i :: 0 <= i < |gs| ==> !Raised(gs[i].run(subj)) && ReturnedTruthy(gs[i].run(subj))
    ensures forall i :: (0 <= i < |gs| && (Raised(gs[i].run(subj)) || !ReturnedTruthy(gs[i].run(subj)))
                        && forall j :: 0 <= j < i ==> !Raised(gs[j].run(subj)) && ReturnedTruthy(gs[j].run(subj))) ==>
              ConditionsMet(gs, subj) == if Raised(gs[i].run(subj)) then gs[i].run(subj) else ReturnedBool(false)
  {
    if gs != [] {
      var first := gs[0].run(subj);
      if !Raised(first) && ReturnedTruthy(first) {
        var rest := gs[1..];
        ConditionsMetFirst(rest, subj);
        assert forall i :: 0 <= i < |rest| ==> rest[i] == gs[i + 1];
        forall i | (0 <= i < |gs| && (Raised(gs[i].run(subj)) || !ReturnedTruthy(gs[i].run(subj)))
                    && forall j :: 0 <= j < i ==> !Raised(gs[j].run(subj)) && ReturnedTruthy(gs[j].run(subj)))
          ensures ConditionsMet(gs, subj) == if Raised(gs[i].run(subj)) then gs[i].run(subj) else ReturnedBool(false)
        {
          assert i > 0 && rest[i - 1] == gs[i];
        }
        if forall i :: 0 <= i < |rest| ==> !Raised(rest[i].run(subj)) && ReturnedTruthy(rest[i].run(subj)) {
          forall i | 0 <= i < |gs| ensures !Raised(gs[i].run(subj)) && ReturnedTruthy(gs[i].run(subj)) {
            if i > 0 { assert gs[i] == rest[i - 1]; }
          }
        }
      }
    }
  }

  /** `check_transition_conditions`: no transition passes; otherwise `can_proceed`. */
  function CanProceed(t: Option<FsmTransition>, subj: Subject): (o: Outcome)
    ensures t.None? ==> o == ReturnedBool(true)
    ensures t.Some? ==> o == ConditionsMet(t.value.conditions, subj)
  {
    if t.None? then ReturnedBool(true) else ConditionsMet(t.value.conditions, subj)
  }

  /** `check_transition_permission`: no transition or no permission passes; otherwise the user must hold it. */
  predicate HasTransitionPerm(t: Option<FsmTransition>, user: User)
  {
    t.None? || t.value.permission.None? || t.value.permission.value in user.perms
  }

  /**
   * A transition whose target is a single string matches a status exactly
   * when the status is a string contained in it; a status that is not a
   * string never matches it.
   */
  lemma StringTargetIsSubstring(source: Value, s: string, name: string, conditions: seq<Guard>, permission: Option<string>, v: Value)
    ensures var t := FsmTransition(source, TargetStr(s), name, conditions, permission);
            && (v.VStr? ==> (Lookup([t], source, v) == Some(0) <==> IsSubstring(v.s, s)))
            && (!v.VStr? ==> Lookup([t], source, v) == None)
  {
    var t := FsmTransition(source, TargetStr(s), name, conditions, permission);
    assert Matches(t, source, v) <==> v.VStr? && IsSubstring(v.s, s);
    assert [t][1..] == [];
  }

  /**
   * A one-status string target is matched by substring: a lookup for
   * `end` finds a transition whose target is the string `pending`.
   */
  lemma StringTargetMatchesSubstring(source: Value)
    ensures var t := FsmTransition(source, TargetStr("pending"), "pend", [], None);
            Lookup([t], source, VStr("end")) == Some(0)
  {
    assert "end" <= "pending"[1..];
  }
}
