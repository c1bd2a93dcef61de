/**
 * The behaviour of a `CompleteValidation` session as functions of its
 * state: the basic, transitional and state tiers, the auto-transition
 * cascade, the side effects of a status change, error mapping and the
 * pipeline `total_validation` that ties them together. Each function takes
 * the session's fixed context and its current state and returns the new
 * state with the result; the class in session.dfy is proved to follow them.
 *
 * The validation functions, hooks, transition conditions, side effects and
 * the permissions class are configuration data: opaque functions of what
 * they are shown. What `save` and the side effects do to the database is
 * recorded as events in a trace.
 */
module Engine {
  import opened Values
  import opened Errors
  import opened Records
  import opened Decorators
  import opened Fsm

  /** An entry of `BASIC_VALIDATIONS`: a named function of the record. */
  datatype BasicFn = BasicFn(name: string, run: Subject -> Outcome)

  /** What a `state_<status>_valid` hook sees: the record, the user, and the validator's permissions and rigid-check flag. */
  datatype HookView = HookView(subject: Subject, user: Option<User>, permissions: Option<Perms>, disableRigid: bool)

  /** An entry of `TRANSITION_SIDE_EFFECTS`: the field values it writes onto the record. */
  datatype SideEffect = SideEffect(name: string, run: (Subject, Option<RecordState>, Option<User>) -> map<string, Value>)

  /** The class attributes of a validator subclass and of the model it validates. */
  datatype Config = Config(
    validationClass: Option<string>,                                  // VALIDATION_CLASS
    permissionsClass: Option<(Option<User>, Subject) -> Perms>,       // PERMISSIONS_CLASS
    basic: seq<BasicFn>,                                              // BASIC_VALIDATIONS
    validErrors: Option<map<string, string>>,                         // VALID_ERRORS, if defined
    hooks: map<Value, HookView -> Outcome>,                           // state_<status>_valid methods
    transitions: seq<FsmTransition>,                                  // the model's FSM transitions
    autoTransitions: map<Value, seq<Value>>,                          // AUTO_TRANSITIONS
    statusChoices: seq<Value>,                                        // the status field's choices
    sideEffects: map<Value, seq<SideEffect>>,                         // TRANSITION_SIDE_EFFECTS
    rank: Value -> nat)                                               // a height for the acyclic cascade

  /** `AUTO_TRANSITIONS` has no cycle: every listed target sits lower than its source. */
  predicate AutoRanked(cfg: Config) {
    forall from | from in cfg.autoTransitions ::
      forall i | 0 <= i < |cfg.autoTransitions[from]| :: cfg.rank(cfg.autoTransitions[from][i]) < cfg.rank(from)
  }

  /** What the constructor fixes: configuration, user, old record, `old_status` and the two skip flags. */
  datatype Ctx = Ctx(cfg: Config, user: Option<User>, oldRecord: Option<RecordState>, oldStatus: Value,
                     stateless: bool, skipTransition: bool, skipPermissions: bool)

  /** The skip flags say what the constructor sets them to. */
  predicate Coherent(c: Ctx) {
    c.skipTransition == c.oldRecord.None? && c.skipPermissions == c.user.None?
  }

  /** What the trace records: tiers entered, auto steps taken, side-effect calls and saves. */
  datatype Event =
    | TransitionalTier
    | StateTier(status: Value)
    | AutoStep(status: Value)
    | SideEffectCall(name: string, status: Value)
    | Saved

  /** A computed `(ok, errors)` pair. */
  datatype Verdict = Verdict(ok: bool, errors: seq<ErrorItem>)

  /**
   * The session's changing state: the record (`new`), its `old_instance`
   * attribute, `new_status`, `permissions`, `disable_rigid_check`, the three
   * cached properties and the trace.
   */
  datatype St = St(record: RecordState, shadow: Shadow, newStatus: Value, permissions: Option<Perms>, disableRigid: bool,
                   transition: Option<Option<nat>>, basic: Option<Verdict>, total: Option<Verdict>, trace: seq<Event>)

  function Subj(s: St): Subject {
    Subject(s.record, s.shadow)
  }

  /** `setattr(new, 'old_instance', old)`. */
  function OldShadow(c: Ctx): Shadow {
    if c.oldRecord.Some? then Attached(c.oldRecord.value) else AttachedNone
  }

  /** `get_permissions(new)`: what the permissions class answers, or None without one. */
  function GetPermissions(c: Ctx, subj: Subject): Option<Perms> {
    if c.cfg.permissionsClass.Some? then Some(c.cfg.permissionsClass.value(c.user, subj)) else None
  }

  // ---------------------------------------------------------------------
  // basic_validation
  // ---------------------------------------------------------------------

  /** `errors += a[1]` after the errors gathered so far; an escaped exception passes through. */
  function Accumulate(acc: seq<ErrorItem>, w: Wrapped): (r: Wrapped)
    ensures r.Escaped? <==> w.Escaped?
    ensures r.Handled? ==> r.errors == acc + w.errors && (r.ok <==> r.errors == [])
  {
    if w.Escaped? then w else Handled(acc + w.errors == [], acc + w.errors)
  }

  /** The loop of `basic_validation` over `BASIC_VALIDATIONS`, each call wrapped by `error_data`. */
  function BasicErrors(fns: seq<BasicFn>, subj: Subject): (w: Wrapped)
    ensures w.Handled? ==> (w.ok <==> w.errors == [])
    ensures w.Escaped? ==> Raises(w.raised)
  {
    if fns == [] then Handled(true, [])
    else
      var first := ErrorData(fns[0].name, fns[0].run(subj));
      if first.Escaped? then first else Accumulate(first.errors, BasicErrors(fns[1..], subj))
  }

  function BasicAt(fns: seq<BasicFn>, subj: Subject, i: nat): Wrapped
    requires i < |fns|
  {
    ErrorData(fns[i].name, fns[i].run(subj))
  }

  lemma AccumulateTwice(a: seq<ErrorItem>, b: seq<ErrorItem>, w: Wrapped)
    ensures Accumulate(a, Accumulate(b, w)) == Accumulate(a + b, w)
  {
    if w.Handled? {
      assert a + (b + w.errors) == (a + b) + w.errors;
    }
  }

  /**
   * `basic_validation` runs every function and does not stop at a failing
   * one: unless one lets an exception through, every failing function's
   * error is in the list, the list holds nothing else, and the tier is ok
   * iff every function returned `True`. The first exception let through
   * is the tier's.
   */
  lemma {:induction false} BasicRunsAll(fns: seq<BasicFn>, subj: Subject)
    ensures var w := BasicErrors(fns, subj);
            && (w.Escaped? <==> exists i :: 0 <= i < |fns| && BasicAt(fns, subj, i).Escaped?)
            && (w.Handled? ==>
                  && (w.ok <==> forall i :: 0 <= i < |fns| ==> BasicAt(fns, subj, i) == Handled(true, []))
                  && (forall i :: 0 <= i < |fns| && !BasicAt(fns, subj, i).ok ==> BasicAt(fns, subj, i).errors[0] in w.errors)
                  && (forall e :: e in w.errors ==> exists i :: 0 <= i < |fns| && e in BasicAt(fns, subj, i).errors)
                  && |w.errors| <= |fns|)
  {
    if fns != [] {
      var rest := fns[1..];
      BasicRunsAll(rest, subj);
      assert forall i :: 0 <= i < |rest| ==> BasicAt(rest, subj, i) == BasicAt(fns, subj, i + 1);
      var first := BasicAt(fns, subj, 0);
      var w := BasicErrors(fns, subj);
      if first.Handled? {
        var tail := BasicErrors(rest, subj);
        if exists i :: 0 <= i < |fns| && BasicAt(fns, subj, i).Escaped? {
          var i :| 0 <= i < |fns| && BasicAt(fns, subj, i).Escaped?;
          assert BasicAt(rest, subj, i - 1).Escaped?;
        }
        if tail.Handled? {
          forall i | 0 <= i < |fns| && !BasicAt(fns, subj, i).ok
            ensures BasicAt(fns, subj, i).errors[0] in w.errors
          {
            if i > 0 { assert BasicAt(rest, subj, i - 1) == BasicAt(fns, subj, i); }
          }
          forall e | e in w.errors ensures exists i :: 0 <= i < |fns| && e in BasicAt(fns, subj, i).errors {
            if e !in first.errors {
              var k :| 0 <= k < |rest| && e in BasicAt(rest, subj, k).errors;
              assert e in BasicAt(fns, subj, k + 1).errors;
            }
          }
          if w.ok {
            forall i | 0 <= i < |fns| ensures BasicAt(fns, subj, i) == Handled(true, []) {
              if i > 0 { assert BasicAt(rest, subj, i - 1) == BasicAt(fns, subj, i); }
            }
          }
        }
      }
    }
  }

  /** A single `(ok, errors)` pair for a cached or computed verdict. */
  function Handle(v: Verdict): Wrapped {
    Handled(v.ok, v.errors)
  }

  /**
   * `basic_validation` (a cached property): attaches the old record, sets
   * `permissions`, runs the functions, then detaches and clears. An
   * exception a function lets through skips the clean-up and the caching.
   */
  function BasicValidation(c: Ctx, s: St): (r: (St, Wrapped))
    ensures r.0.record == s.record && r.0.newStatus == s.newStatus && r.0.disableRigid == s.disableRigid
    ensures r.0.transition == s.transition && r.0.total == s.total && r.0.trace == s.trace
    ensures s.basic.Some? ==> r == (s, Handle(s.basic.value))
    ensures r.1.Escaped? ==> Raises(r.1.raised)
    ensures r.1.Handled? ==> r.0.basic == Some(Verdict(r.1.ok, r.1.errors))
    ensures s.basic.None? && r.1.Handled? ==> (r.1.ok <==> r.1.errors == []) && r.0.shadow == Detached && r.0.permissions == None
  {
    if s.basic.Some? then (s, Handle(s.basic.value))
    else
      var s1 := s.(shadow := OldShadow(c));
      var s2 := s1.(permissions := GetPermissions(c, Subj(s1)));
      var w := BasicErrors(c.cfg.basic, Subj(s2));
      if w.Escaped? then (s2, w)
      else (s2.(shadow := Detached, permissions := None, basic := Some(Verdict(w.ok, w.errors))), w)
  }

  // ---------------------------------------------------------------------
  // transition and transitional_validation
  // ---------------------------------------------------------------------

  /** `transition` (a cached property): the FSM transition from `old_status` to `new_status`, looked up once. */
  function CachedTransition(c: Ctx, s: St): (r: (St, Option<nat>))
    ensures r.0 == s.(transition := Some(r.1))
    ensures s.transition.Some? ==> r.1 == s.transition.value
    ensures s.transition.None? ==> r.1 == Lookup(c.cfg.transitions, c.oldStatus, s.newStatus)
  {
    if s.transition.Some? then (s, s.transition.value)
    else
      var r := Lookup(c.cfg.transitions, c.oldStatus, s.newStatus);
      (s.(transition := Some(r)), r)
  }

  /**
   * The body of `transitional_validation`, before `transition_error_data`
   * wraps it: rewinds the record's status to the old status, attaches the
   * old record, sets `permissions`, checks the transition's conditions and,
   * with a user, its permission; then undoes the three changes. Without an
   * old record, reading its status raises `AttributeError`.
   */
  function TransitionalBody(c: Ctx, s: St): (r: (St, Outcome))
  {
    if c.oldRecord.None? then (s.(trace := s.trace + [TransitionalTier]), RaisedForeign("AttributeError"))
    else
      var s1 := s.(record := SetStatus(s.record, StatusOf(c.oldRecord.value)), shadow := Attached(c.oldRecord.value), trace := s.trace + [TransitionalTier]);
      var s2 := s1.(permissions := GetPermissions(c, Subj(s1)));
      var (s3, idx) := CachedTransition(c, s2);
      var t := Found(c.cfg.transitions, idx);
      var conditions := CanProceed(t, Subj(s3));
      if Raised(conditions) then (s3, conditions)
      else
        var permitted := c.skipPermissions || c.user.None? || HasTransitionPerm(t, c.user.value);
        (s3.(shadow := Detached, permissions := None, record := SetStatus(s3.record, s3.newStatus)), ReturnedBool(conditions.b && permitted))
  }

  /** `transitional_validation`, wrapped by `transition_error_data`. */
  function Transitional(c: Ctx, s: St): (r: (St, Wrapped))
    ensures r.0.newStatus == s.newStatus && r.0.disableRigid == s.disableRigid && r.0.basic == s.basic && r.0.total == s.total
    ensures r.0.trace == s.trace + [TransitionalTier]
    ensures c.oldRecord.None? ==> r.1 == Escaped(RaisedForeign("AttributeError"))
  {
    var (s1, o) := TransitionalBody(c, s);
    (s1, TransitionErrorData(o))
  }

  /**
   * When the conditions return normally, `transitional_validation` answers
   * the conditions AND the permission, never consults the permission
   * without a user, and leaves the record's status at `new_status`, the old
   * record detached and `permissions` None.
   */
  lemma TransitionalNormalReturn(c: Ctx, s: St)
    requires c.oldRecord.Some? && Coherent(c)
    ensures var s1 := s.(record := SetStatus(s.record, StatusOf(c.oldRecord.value)), shadow := Attached(c.oldRecord.value), trace := s.trace + [TransitionalTier]);
            var s2 := s1.(permissions := GetPermissions(c, Subj(s1)));
            var (s3, idx) := CachedTransition(c, s2);
            var t := Found(c.cfg.transitions, idx);
            var conditions := CanProceed(t, Subj(s3));
            var r := Transitional(c, s);
            !Raised(conditions) ==>
              && r.1 == Handled(conditions.b && (c.user.None? || HasTransitionPerm(t, c.user.value)), r.1.errors)
              && (c.user.None? ==> (r.1.ok <==> conditions.b))
              && StatusOf(r.0.record) == s.newStatus && r.0.shadow == Detached && r.0.permissions == None
              && (forall f :: f != "status" ==> (f in r.0.record.attrs <==> f in s.record.attrs) && (f in s.record.attrs ==> r.0.record.attrs[f] == s.record.attrs[f]))
  {
  }

  /**
   * When a condition raises, the decorator catches it outside the body: the
   * record keeps the old status, the old record stays attached and
   * `permissions` stays set.
   */
  lemma TransitionalGuardRaises(c: Ctx, s: St)
    requires c.oldRecord.Some?
    ensures var s1 := s.(record := SetStatus(s.record, StatusOf(c.oldRecord.value)), shadow := Attached(c.oldRecord.value), trace := s.trace + [TransitionalTier]);
            var s2 := s1.(permissions := GetPermissions(c, Subj(s1)));
            var (s3, idx) := CachedTransition(c, s2);
            var conditions := CanProceed(Found(c.cfg.transitions, idx), Subj(s3));
            var r := Transitional(c, s);
            Raised(conditions) ==>
              && r.1 == TransitionErrorData(conditions)
              && StatusOf(r.0.record) == StatusOf(c.oldRecord.value) && r.0.shadow == Attached(c.oldRecord.value)
              && r.0.permissions == GetPermissions(c, Subj(s1))
  {
  }

  // ---------------------------------------------------------------------
  // state_valid
  // ---------------------------------------------------------------------

  /** The hook `state_<status>_valid`, if the validator defines one; a missing hook counts as valid. */
  function RunHook(c: Ctx, s: St): Outcome {
    if s.newStatus in c.cfg.hooks then c.cfg.hooks[s.newStatus](HookView(Subj(s), c.user, s.permissions, s.disableRigid))
    else ReturnedBool(true)
  }

  /**
   * `state_valid`, wrapped by `state_error_data`: a failed basic tier is
   * returned as its tuple (not a bool, so the generic state failure);
   * otherwise the old record is attached, `permissions` set, the hook for
   * `new_status` called, and both undone unless the hook raised.
   */
  function StateValid(c: Ctx, s: St): (r: (St, Wrapped))
    ensures r.0.record == s.record && r.0.newStatus == s.newStatus && r.0.disableRigid == s.disableRigid
    ensures r.0.transition == s.transition && r.0.total == s.total
    ensures r.0.trace == s.trace || r.0.trace == s.trace + [StateTier(s.newStatus)]
    ensures r.1.Handled? && r.1.ok ==> r.0.trace == s.trace + [StateTier(s.newStatus)]
    ensures r.1.Handled? ==> (r.1.ok <==> r.1.errors == []) && (!r.1.ok ==> |r.1.errors| == 1)
  {
    var (s1, b) := BasicValidation(c, s);
    if b.Escaped? then (s1, StateErrorData(b.raised))
    else if !b.ok then (s1, StateErrorData(ReturnedOther(true)))
    else
      var s2 := s1.(shadow := OldShadow(c), trace := s1.trace + [StateTier(s1.newStatus)]);
      var s3 := s2.(permissions := GetPermissions(c, Subj(s2)));
      var res := RunHook(c, s3);
      if Raised(res) then (s3, StateErrorData(res))
      else (s3.(shadow := Detached, permissions := None), StateErrorData(res))
  }

  /** With the basic tier failed, `state_valid` fails with the generic state code and calls no hook. */
  lemma StateValidAfterBasicFailure(c: Ctx, s: St)
    requires s.basic.Some? && !s.basic.value.ok
    ensures StateValid(c, s) == (s, Handled(false, [Message(GenericStateFail)]))
  {
  }

  /**
   * With the basic tier passed and no hook for `new_status`, `state_valid`
   * passes and leaves the old record detached and `permissions` None; with a
   * hook, the hook's answer decides through `state_error_data`.
   */
  lemma StateValidHook(c: Ctx, s: St)
    requires s.basic == Some(Verdict(true, []))
    ensures var r := StateValid(c, s);
            && r.0.trace == s.trace + [StateTier(s.newStatus)]
            && (s.newStatus !in c.cfg.hooks ==> r.1 == Handled(true, []) && r.0.shadow == Detached && r.0.permissions == None)
            && (s.newStatus in c.cfg.hooks ==>
                  var s2 := s.(shadow := OldShadow(c));
                  var view := HookView(Subj(s2), c.user, GetPermissions(c, Subj(s2)), s.disableRigid);
                  r.1 == StateErrorData(c.cfg.hooks[s.newStatus](view)))
  {
  }

  // ---------------------------------------------------------------------
  // The auto-transition cascade
  // ---------------------------------------------------------------------

  /** `[i for i in xs if i in choices]`. */
  function FilterChoices(xs: seq<Value>, choices: seq<Value>): (r: seq<Value>)
    ensures forall k :: 0 <= k < |r| ==> r[k] in xs && r[k] in choices
    ensures forall k :: 0 <= k < |xs| && xs[k] in choices ==> xs[k] in r
    ensures (forall k :: 0 <= k < |xs| ==> xs[k] in choices) ==> r == xs
  {
    if xs == [] then []
    else
      var rest := FilterChoices(xs[1..], choices);
      assert xs == [xs[0]] + xs[1..];
      if xs[0] in choices then [xs[0]] + rest else rest
  }

  /** The filter keeps the listed order: filtering a concatenation concatenates the filtered parts. */
  lemma {:induction false} FilterChoicesAppend(xs: seq<Value>, ys: seq<Value>, choices: seq<Value>)
    ensures FilterChoices(xs + ys, choices) == FilterChoices(xs, choices) + FilterChoices(ys, choices)
  {
    if xs != [] {
      var zs := xs + ys;
      assert zs[0] == xs[0] && zs[1..] == xs[1..] + ys;
      FilterChoicesAppend(xs[1..], ys, choices);
      var kept := if xs[0] in choices then [xs[0]] else [];
      assert FilterChoices(zs, choices) == kept + FilterChoices(xs[1..] + ys, choices);
      assert FilterChoices(xs, choices) == kept + FilterChoices(xs[1..], choices);
    } else {
      assert xs + ys == ys;
    }
  }

  /** One more listed status is kept at the end exactly when it is a declared choice. */
  lemma FilterChoicesSnoc(xs: seq<Value>, x: Value, choices: seq<Value>)
    ensures FilterChoices(xs + [x], choices) == FilterChoices(xs, choices) + (if x in choices then [x] else [])
  {
    FilterChoicesAppend(xs, [x], choices);
    assert [x][1..] == [];
  }

  /** A declared choice is kept as often as it is listed; any other status never. */
  lemma {:induction false} FilterChoicesCount(xs: seq<Value>, choices: seq<Value>, v: Value)
    ensures multiset(FilterChoices(xs, choices))[v] == if v in choices then multiset(xs)[v] else 0
  {
    if xs != [] {
      FilterChoicesCount(xs[1..], choices, v);
      assert xs == [xs[0]] + xs[1..];
    }
  }

  /** The candidate targets from a status: its `AUTO_TRANSITIONS` entry, restricted to declared status choices. */
  function Candidates(c: Ctx, status: Value): (r: seq<Value>)
    ensures forall k :: 0 <= k < |r| ==> r[k] in c.cfg.statusChoices && status in c.cfg.autoTransitions && r[k] in c.cfg.autoTransitions[status]
  {
    if status in c.cfg.autoTransitions then FilterChoices(c.cfg.autoTransitions[status], c.cfg.statusChoices) else []
  }

  /** `auto_transition_validation`: the conditions of the FSM transition to `target`, if one is defined. */
  function Attempt(c: Ctx, s: St, target: Value): Wrapped
  {
    var t := Found(c.cfg.transitions, Lookup(c.cfg.transitions, StatusOf(s.record), target));
    TransitionErrorData(CanProceed(t, Subj(s)))
  }

  /** A candidate with no FSM transition defined to it passes: a missing transition has no conditions. */
  lemma AttemptUndefinedPasses(c: Ctx, s: St, target: Value)
    requires forall j :: 0 <= j < |c.cfg.transitions| ==> !Matches(c.cfg.transitions[j], StatusOf(s.record), target)
    ensures Attempt(c, s, target) == Handled(true, [])
  {
  }

  datatype Choice = Chosen(target: Value) | NoChoice | ChoiceRaised(o: Outcome)

  /** The guard answers of the candidates, in order. */
  function Attempts(c: Ctx, s: St, cands: seq<Value>): (ws: seq<Wrapped>)
    ensures |ws| == |cands| && forall i :: 0 <= i < |cands| ==> ws[i] == Attempt(c, s, cands[i])
  {
    seq(|cands|, i requires 0 <= i < |cands| => Attempt(c, s, cands[i]))
  }

  /** The loop of `_first_available_auto_transition`: the first candidate whose guard passes; a raise stops it. */
  function PickFirst(cands: seq<Value>, ws: seq<Wrapped>): (r: Choice)
    requires |ws| == |cands|
    ensures r.Chosen? ==> r.target in cands
  {
    if cands == [] then NoChoice
    else if ws[0].Escaped? then ChoiceRaised(ws[0].raised)
    else if ws[0].ok then Chosen(cands[0])
    else PickFirst(cands[1..], ws[1..])
  }

  /** `_first_available_auto_transition`. */
  function FirstAvailable(c: Ctx, s: St): (r: Choice)
    ensures r.Chosen? ==> r.target in Candidates(c, StatusOf(s.record))
  {
    var cands := Candidates(c, StatusOf(s.record));
    PickFirst(cands, Attempts(c, s, cands))
  }

  predicate Refused(w: Wrapped) {
    w.Handled? && !w.ok
  }

  /**
   * The first candidate whose guard passes wins: every earlier candidate
   * failed its guard. No choice means every candidate failed; a raise comes
   * from the first candidate that did not fail quietly.
   */
  lemma {:induction false} PickFirstSpec(cands: seq<Value>, ws: seq<Wrapped>)
    requires |ws| == |cands|
    ensures var r := PickFirst(cands, ws);
            && (r.Chosen? ==> exists i :: 0 <= i < |cands| && cands[i] == r.target && ws[i].Handled? && ws[i].ok
                                          && forall j :: 0 <= j < i ==> Refused(ws[j]))
            && (r.NoChoice? <==> forall i :: 0 <= i < |cands| ==> Refused(ws[i]))
            && (r.ChoiceRaised? ==> exists i :: 0 <= i < |cands| && ws[i] == Escaped(r.o) && forall j :: 0 <= j < i ==> Refused(ws[j]))
  {
    if cands != [] && Refused(ws[0]) {
      var rest, wrest := cands[1..], ws[1..];
      PickFirstSpec(rest, wrest);
      var r := PickFirst(cands, ws);
      if r.Chosen? {
        var i :| 0 <= i < |rest| && rest[i] == r.target && wrest[i].Handled? && wrest[i].ok && forall j :: 0 <= j < i ==> Refused(wrest[j]);
        assert cands[i + 1] == r.target && ws[i + 1] == wrest[i];
        assert forall j :: 0 < j < i + 1 ==> ws[j] == wrest[j - 1];
      }
      if r.ChoiceRaised? {
        var i :| 0 <= i < |rest| && wrest[i] == Escaped(r.o) && forall j :: 0 <= j < i ==> Refused(wrest[j]);
        assert ws[i + 1] == wrest[i];
        assert forall j :: 0 < j < i + 1 ==> ws[j] == wrest[j - 1];
      }
      if forall i :: 0 <= i < |rest| ==> Refused(wrest[i]) {
        assert forall i :: 0 < i < |cands| ==> ws[i] == wrest[i - 1];
      }
    }
  }

  /**
   * The candidates are tried in declared order: the chosen one passed its
   * guard, and every candidate before it was refused.
   */
  lemma FirstAvailableFirstPassing(c: Ctx, s: St)
    ensures var cands := Candidates(c, StatusOf(s.record));
            var r := FirstAvailable(c, s);
            && (r.Chosen? ==> exists i :: 0 <= i < |cands| && cands[i] == r.target && Attempt(c, s, cands[i]).Handled? && Attempt(c, s, cands[i]).ok
                                          && forall j :: 0 <= j < i ==> Refused(Attempt(c, s, cands[j])))
            && (r.NoChoice? <==> forall i :: 0 <= i < |cands| ==> Refused(Attempt(c, s, cands[i])))
  {
    var cands := Candidates(c, StatusOf(s.record));
    PickFirstSpec(cands, Attempts(c, s, cands));
  }

  /** A declared auto-transition target that is not a status choice is never chosen. */
  lemma UndeclaredNeverChosen(c: Ctx, s: St)
    ensures var r := FirstAvailable(c, s); r.Chosen? ==> r.target in c.cfg.statusChoices
  {
    var cands := Candidates(c, StatusOf(s.record));
    PickFirstSpec(cands, Attempts(c, s, cands));
  }

  function EffectsFor(c: Ctx, status: Value): seq<SideEffect> {
    if status in c.cfg.sideEffects then c.cfg.sideEffects[status] else []
  }

  /** The trace entries of calling the side effects `effs` for `status`, in order. */
  function SideEffectEvents(effs: seq<SideEffect>, status: Value): (ev: seq<Event>)
    ensures |ev| == |effs| && forall i :: 0 <= i < |effs| ==> ev[i] == SideEffectCall(effs[i].name, status)
  {
    seq(|effs|, i requires 0 <= i < |effs| => SideEffectCall(effs[i].name, status))
  }

  /** The record after the side effects `effs` wrote their fields onto it in order (never its status). */
  function EffectsRecord(c: Ctx, rec: RecordState, sh: Shadow, effs: seq<SideEffect>): (r: RecordState)
    ensures StatusOf(r) == StatusOf(rec) && r.snapshots == rec.snapshots
    decreases |effs|
  {
    if effs == [] then rec
    else
      var writes := effs[0].run(Subject(rec, sh), c.oldRecord, c.user);
      MergeKeepsStatus(rec, writes);
      EffectsRecord(c, rec.(attrs := rec.attrs + (writes - {"status"})), sh, effs[1..])
  }

  /** One side effect at position `i`, then the rest. */
  lemma EffectsRecordStep(c: Ctx, rec: RecordState, sh: Shadow, effs: seq<SideEffect>, i: nat)
    requires i < |effs|
    ensures var writes := effs[i].run(Subject(rec, sh), c.oldRecord, c.user);
            EffectsRecord(c, rec, sh, effs[i..]) == EffectsRecord(c, rec.(attrs := rec.attrs + (writes - {"status"})), sh, effs[i + 1..])
  {
    assert effs[i..][0] == effs[i] && effs[i..][1..] == effs[i + 1..];
  }

  /**
   * Calls each side effect in order with the record, the old record and the
   * user; each writes field values onto the record (never its status).
   */
  function RunSideEffects(c: Ctx, s: St, effs: seq<SideEffect>, status: Value): (r: St)
    ensures r.trace == s.trace + SideEffectEvents(effs, status)
    ensures r == s.(record := r.record, trace := r.trace)
    ensures StatusOf(r.record) == StatusOf(s.record) && r.record.snapshots == s.record.snapshots
  {
    s.(record := EffectsRecord(c, s.record, s.shadow, effs), trace := s.trace + SideEffectEvents(effs, status))
  }

  /** The events of one more side effect follow the earlier ones. */
  lemma EventsSnoc(effs: seq<SideEffect>, i: nat, status: Value)
    requires i < |effs|
    ensures SideEffectEvents(effs[..i + 1], status) == SideEffectEvents(effs[..i], status) + [SideEffectCall(effs[i].name, status)]
  {
    assert SideEffectEvents(effs[..i + 1], status) == SideEffectEvents(effs[..i], status) + [SideEffectCall(effs[i].name, status)];
  }

  lemma EventsCons(effs: seq<SideEffect>, status: Value)
    requires effs != []
    ensures SideEffectEvents(effs, status) == [SideEffectCall(effs[0].name, status)] + SideEffectEvents(effs[1..], status)
  {
    assert [SideEffectCall(effs[0].name, status)] + SideEffectEvents(effs[1..], status) == SideEffectEvents(effs, status);
  }

  /** A side effect's writes never reach the status. */
  lemma MergeKeepsStatus(rs: RecordState, writes: map<string, Value>)
    ensures StatusOf(rs.(attrs := rs.attrs + (writes - {"status"}))) == StatusOf(rs)
  {
  }

  datatype Step = Stepped(to: Value) | Stopped | StepRaised(o: Outcome)

  /** The trace grew by at most one `StateTier` entry. */
  predicate StateTierOnly(before: seq<Event>, after: seq<Event>) {
    after == before || (|after| == |before| + 1 && after[..|before|] == before && after[|before|].StateTier?)
  }

  lemma StateTierAppended(tr: seq<Event>, t: Value)
    ensures StateTierOnly(tr, tr) && StateTierOnly(tr, tr + [StateTier(t)])
  {
    assert (tr + [StateTier(t)])[..|tr|] == tr;
  }

  /** The events of a step to `t`: its state tier, the step, then its side effects. */
  lemma StepEvents(tr: seq<Event>, t: Value, ev: seq<Event>)
    ensures tr + [StateTier(t)] + [AutoStep(t)] + ev == tr + [StateTier(t), AutoStep(t)] + ev
  {
  }

  /**
   * The chosen branch of `_make_auto_transition`: moves the record and
   * `new_status` to `t` and runs `state_valid`; on failure both roll back
   * and the cascade stops; on success the side effects of `t` run.
   */
  function TryStep(c: Ctx, s: St, t: Value): (r: (St, Step))
    ensures r.0.disableRigid == s.disableRigid && r.0.total == s.total
    ensures r.1.Stepped? ==>
              && r.1.to == t && StatusOf(r.0.record) == t && r.0.newStatus == t
              && r.0.trace == s.trace + [StateTier(t), AutoStep(t)] + SideEffectEvents(EffectsFor(c, t), t)
    ensures !r.1.Stepped? ==> StateTierOnly(s.trace, r.0.trace)
    ensures r.1.Stopped? ==> StatusOf(r.0.record) == StatusOf(s.record) && r.0.newStatus == s.newStatus
  {
    var s1 := s.(record := SetStatus(s.record, t), newStatus := t);
    var (s2, sv) := StateValid(c, s1);
    StateTierAppended(s.trace, t);
    if sv.Escaped? then (s2, StepRaised(sv.raised))
    else if !sv.ok then (s2.(record := SetStatus(s2.record, StatusOf(s.record)), newStatus := s.newStatus), Stopped)
    else
      var s3 := s2.(trace := s2.trace + [AutoStep(t)]);
      StepEvents(s.trace, t, SideEffectEvents(EffectsFor(c, t), t));
      (RunSideEffects(c, s3, EffectsFor(c, t), t), Stepped(t))
  }

  /**
   * `_make_auto_transition`: moves the record and `new_status` to the first
   * available candidate and runs `state_valid`; on failure both roll back
   * and the cascade stops; on success the target's side effects run.
   */
  function MakeAuto(c: Ctx, s: St): (r: (St, Step))
    ensures r.0.disableRigid == s.disableRigid && r.0.total == s.total
    ensures r.1.Stepped? ==>
              && StatusOf(s.record) in c.cfg.autoTransitions && r.1.to in c.cfg.autoTransitions[StatusOf(s.record)]
              && StatusOf(r.0.record) == r.1.to && r.0.newStatus == r.1.to
              && r.0.trace == s.trace + [StateTier(r.1.to), AutoStep(r.1.to)] + SideEffectEvents(EffectsFor(c, r.1.to), r.1.to)
    ensures !r.1.Stepped? ==> StateTierOnly(s.trace, r.0.trace)
    ensures r.1.Stopped? ==> StatusOf(r.0.record) == StatusOf(s.record) && r.0.newStatus == s.newStatus
  {
    match FirstAvailable(c, s)
    case ChoiceRaised(o) => (s, StepRaised(o))
    case NoChoice => (s, Stopped)
    case Chosen(t) => TryStep(c, s, t)
  }

  /** When the target's state check fails, the record's status and `new_status` are back where they were and nothing ran. */
  lemma MakeAutoRollsBack(c: Ctx, s: St)
    ensures var r := MakeAuto(c, s);
            r.1.Stopped? ==>
              && StatusOf(r.0.record) == StatusOf(s.record) && r.0.newStatus == s.newStatus
              && forall i :: |s.trace| <= i < |r.0.trace| ==> !r.0.trace[i].SideEffectCall? && !r.0.trace[i].AutoStep?
  {
  }

  datatype Run = Ran(any: bool) | RunRaised(o: Outcome)

  /** Whether the trace gained an auto step after position `from`. */
  predicate StepSince(tr: seq<Event>, from: nat) {
    exists i :: from <= i < |tr| && tr[i].AutoStep?
  }

  /** No save and no transitional tier entered after position `from`. */
  predicate NoSaveSince(tr: seq<Event>, from: nat) {
    forall i :: from <= i < |tr| ==> !tr[i].Saved? && !tr[i].TransitionalTier?
  }

  /** One step appends to the trace, never saves nor enters the transitional tier, and records an auto step iff it stepped. */
  lemma MakeAutoTrace(c: Ctx, s: St)
    ensures var r := MakeAuto(c, s);
            && s.trace <= r.0.trace && NoSaveSince(r.0.trace, |s.trace|)
            && (StepSince(r.0.trace, |s.trace|) <==> r.1.Stepped?)
  {
    var r := MakeAuto(c, s);
    if r.1.Stepped? {
      SteppedTrace(s.trace, r.1.to, SideEffectEvents(EffectsFor(c, r.1.to), r.1.to));
    } else {
      TierOnlyTrace(s.trace, r.0.trace);
    }
  }

  /** A step's events: no save, no transitional tier, and one auto step. */
  lemma SteppedTrace(tr: seq<Event>, t: Value, ev: seq<Event>)
    requires forall i :: 0 <= i < |ev| ==> ev[i].SideEffectCall?
    ensures var tr2 := tr + [StateTier(t), AutoStep(t)] + ev;
            tr <= tr2 && NoSaveSince(tr2, |tr|) && StepSince(tr2, |tr|)
  {
    var tr2 := tr + [StateTier(t), AutoStep(t)] + ev;
    var n := |tr|;
    forall i | n <= i < |tr2| ensures !tr2[i].Saved? && !tr2[i].TransitionalTier? {
      if i >= n + 2 { assert tr2[i] == ev[i - n - 2]; }
    }
    assert tr2[n + 1].AutoStep?;
  }

  /** At most a state tier added: no save, no transitional tier, no step. */
  lemma TierOnlyTrace(tr: seq<Event>, tr2: seq<Event>)
    requires StateTierOnly(tr, tr2)
    ensures tr <= tr2 && NoSaveSince(tr2, |tr|) && !StepSince(tr2, |tr|)
  {
  }

  lemma SinceCompose(a: seq<Event>, b: seq<Event>, d: seq<Event>)
    requires a <= b <= d && NoSaveSince(b, |a|) && NoSaveSince(d, |b|)
    ensures a <= d && NoSaveSince(d, |a|)
    ensures StepSince(d, |a|) <==> StepSince(b, |a|) || StepSince(d, |b|)
  {
    assert forall i :: |a| <= i < |b| ==> d[i] == b[i];
  }

  /** The `while self._make_auto_transition()` loop; the rank bounds it. */
  function Cascade(c: Ctx, s: St): (r: (St, Run))
    requires AutoRanked(c.cfg)
    decreases c.cfg.rank(StatusOf(s.record))
  {
    var (s1, step) := MakeAuto(c, s);
    match step
    case StepRaised(o) => (s1, RunRaised(o))
    case Stopped => (s1, Ran(false))
    case Stepped(t) =>
      assert c.cfg.rank(t) < c.cfg.rank(StatusOf(s.record));
      var (s2, rest) := Cascade(c, s1);
      (s2, if rest.Ran? then Ran(true) else rest)
  }

  /**
   * The cascade only appends to the trace, never saves and never enters the
   * transitional tier, and reports a step iff one was taken.
   */
  lemma {:induction false} CascadeTrace(c: Ctx, s: St)
    requires AutoRanked(c.cfg)
    decreases c.cfg.rank(StatusOf(s.record))
    ensures var r := Cascade(c, s);
            && s.trace <= r.0.trace && NoSaveSince(r.0.trace, |s.trace|)
            && (r.1.Ran? ==> (r.1.any <==> StepSince(r.0.trace, |s.trace|)))
            && r.0.disableRigid == s.disableRigid && r.0.total == s.total
  {
    var (s1, step) := MakeAuto(c, s);
    MakeAutoTrace(c, s);
    if step.Stepped? {
      CascadeTrace(c, s1);
      var (s2, rest) := Cascade(c, s1);
      SinceCompose(s.trace, s1.trace, s2.trace);
    }
  }

  /**
   * `make_auto_transitions`: the cascade with `disable_rigid_check` set; the
   * flag is restored afterwards unless a step raised.
   */
  function MakeAutoTransitions(c: Ctx, s: St): (r: (St, Run))
    requires AutoRanked(c.cfg)
  {
    var (s1, run) := Cascade(c, s.(disableRigid := true));
    if run.RunRaised? then (s1, run) else (s1.(disableRigid := s.disableRigid), run)
  }

  /** The flag is back to its value once the loop ends, and stays set if a step raised. */
  lemma RigidCheckRestored(c: Ctx, s: St)
    requires AutoRanked(c.cfg)
    ensures var r := MakeAutoTransitions(c, s);
            && (r.1.Ran? ==> r.0.disableRigid == s.disableRigid)
            && (r.1.RunRaised? ==> r.0.disableRigid)
  {
    CascadeTrace(c, s.(disableRigid := true));
  }

  // ---------------------------------------------------------------------
  // _apply_current_side_effects, map_errors and total_validation
  // ---------------------------------------------------------------------

  /** `_apply_current_side_effects`: the side effects of `new_status`, if it differs from `old_status`. */
  function ApplyCurrentSideEffects(c: Ctx, s: St): (r: St)
    ensures c.oldStatus == s.newStatus ==> r == s
    ensures c.oldStatus != s.newStatus ==> r.trace == s.trace + SideEffectEvents(EffectsFor(c, s.newStatus), s.newStatus)
    ensures r == s.(record := r.record, trace := r.trace) && StatusOf(r.record) == StatusOf(s.record)
  {
    if c.oldStatus == s.newStatus then s else RunSideEffects(c, s, EffectsFor(c, s.newStatus), s.newStatus)
  }

  datatype Mapped = MappedTo(errors: seq<ErrorItem>) | MapRaised(o: Outcome)

  /** `VALID_ERRORS.get(code, code)`. */
  function MapCode(table: map<string, string>, code: string): string {
    if code in table then table[code] else code
  }

  /**
   * `map_errors`: each error through `VALID_ERRORS.get(e, e)`. Without
   * `VALID_ERRORS` the first element raises `AttributeError`; a details
   * dictionary cannot be a key and raises `TypeError`.
   */
  function MapErrors(cfg: Config, errors: seq<ErrorItem>): (r: Mapped)
    ensures r.MappedTo? ==> |r.errors| == |errors|
  {
    if errors == [] then MappedTo([])
    else if cfg.validErrors.None? then MapRaised(RaisedForeign("AttributeError"))
    else if errors[0].Details? then MapRaised(RaisedForeign("TypeError"))
    else
      var rest := MapErrors(cfg, errors[1..]);
      if rest.MapRaised? then rest else MappedTo([Message(MapCode(cfg.validErrors.value, errors[0].text))] + rest.errors)
  }

  /**
   * `map_errors` replaces known codes, passes unknown ones through, and
   * keeps length and order; it fails on the first details entry, and on
   * any non-empty list when `VALID_ERRORS` is not defined.
   */
  lemma {:induction false} MapErrorsSpec(cfg: Config, errors: seq<ErrorItem>)
    ensures var r := MapErrors(cfg, errors);
            && (cfg.validErrors.Some? && (forall i :: 0 <= i < |errors| ==> errors[i].Message?) ==>
                  && r.MappedTo? && |r.errors| == |errors|
                  && forall i :: 0 <= i < |errors| ==> r.errors[i] == Message(MapCode(cfg.validErrors.value, errors[i].text)))
            && (cfg.validErrors.None? && errors != [] ==> r == MapRaised(RaisedForeign("AttributeError")))
            && (cfg.validErrors.Some? && (exists i :: 0 <= i < |errors| && errors[i].Details?) ==> r == MapRaised(RaisedForeign("TypeError")))
  {
    if errors != [] && cfg.validErrors.Some? && errors[0].Message? {
      var rest := errors[1..];
      MapErrorsSpec(cfg, rest);
      assert forall i :: 0 <= i < |rest| ==> rest[i] == errors[i + 1];
      if exists i :: 0 <= i < |errors| && errors[i].Details? {
        var i :| 0 <= i < |errors| && errors[i].Details?;
        assert rest[i - 1].Details?;
      }
    }
  }

  datatype TotalResult = Finished(ok: bool, errors: seq<ErrorItem>) | Crashed(o: Outcome)

  /** A failed tier: its errors mapped, and the failure cached. */
  function Fail(c: Ctx, s: St, errors: seq<ErrorItem>): (r: (St, TotalResult))
  {
    match MapErrors(c.cfg, errors)
    case MapRaised(o) => (s, Crashed(o))
    case MappedTo(m) => (s.(total := Some(Verdict(false, m))), Finished(false, m))
  }

  function Succeed(s: St): (St, TotalResult) {
    (s.(total := Some(Verdict(true, []))), Finished(true, []))
  }

  /** The state tier, the side effects of a manual transition, the cascade and the save. */
  function StateStage(c: Ctx, s: St): (r: (St, TotalResult))
    requires AutoRanked(c.cfg)
  {
    if c.stateless then Succeed(s)
    else
      var (s1, sv) := StateValid(c, s);
      if sv.Escaped? then (s1, Crashed(sv.raised))
      else if !sv.ok then Fail(c, s1, sv.errors)
      else
        var s2 := ApplyCurrentSideEffects(c, s1);
        var (s3, run) := MakeAutoTransitions(c, s2);
        if run.RunRaised? then (s3, Crashed(run.o))
        else Succeed(if run.any then s3.(trace := s3.trace + [Saved]) else s3)
  }

  /** Everything after a passed basic tier. */
  function AfterBasic(c: Ctx, s: St): (r: (St, TotalResult))
    requires AutoRanked(c.cfg) && Coherent(c)
  {
    if !c.skipTransition && !c.stateless then
      var (s1, t) := Transitional(c, s);
      if t.Escaped? then (s1, Crashed(t.raised))
      else if !t.ok then Fail(c, s1, t.errors)
      else StateStage(c, s1)
    else StateStage(c, s)
  }

  /** `total_validation` (a cached property; only a normal return is cached). */
  function Total(c: Ctx, s: St): (r: (St, TotalResult))
    requires AutoRanked(c.cfg) && Coherent(c)
  {
    if s.total.Some? then (s, Finished(s.total.value.ok, s.total.value.errors))
    else
      var (s1, b) := BasicValidation(c, s);
      if b.Escaped? then (s1, Crashed(b.raised))
      else if !b.ok then Fail(c, s1, b.errors)
      else AfterBasic(c, s1)
  }

  /** A cached `(ok, errors)` pair is ok exactly when it holds no error. */
  predicate CacheAgrees(v: Option<Verdict>) {
    v.Some? ==> (v.value.ok <==> v.value.errors == [])
  }

  /** Whether the trace gained a transitional tier after position `from`. */
  predicate TransitionalSince(tr: seq<Event>, from: nat) {
    exists i :: from <= i < |tr| && tr[i].TransitionalTier?
  }

  /** How many times `save` was called after position `from`. */
  function SavesSince(tr: seq<Event>, from: nat): nat
    requires from <= |tr|
  {
    multiset(tr[from..])[Saved]
  }

  /** A failed tier's mapped errors are as many as its errors. */
  lemma FailKeepsErrors(c: Ctx, s: St, errors: seq<ErrorItem>)
    ensures var r := Fail(c, s, errors);
            && r.0.trace == s.trace
            && (r.1.Finished? ==> !r.1.ok && |r.1.errors| == |errors|)
  {
  }

  /** Over a stretch without saves, `save` was called never, and once after appending it. */
  lemma SavesAfterQuiet(tr: seq<Event>, n: nat)
    requires n <= |tr| && NoSaveSince(tr, n)
    ensures SavesSince(tr, n) == 0 && SavesSince(tr + [Saved], n) == 1
    ensures !TransitionalSince(tr, n) && !TransitionalSince(tr + [Saved], n)
    ensures StepSince(tr + [Saved], n) <==> StepSince(tr, n)
  {
    assert (tr + [Saved])[n..] == tr[n..] + [Saved];
    if StepSince(tr + [Saved], n) {
      var i :| n <= i < |tr + [Saved]| && (tr + [Saved])[i].AutoStep?;
      assert i < |tr| && tr[i] == (tr + [Saved])[i];
    }
    if StepSince(tr, n) {
      var i :| n <= i < |tr| && tr[i].AutoStep?;
      assert (tr + [Saved])[i] == tr[i];
    }
  }

  /** The trace of `make_auto_transitions`, as for the cascade. */
  lemma MakeAutoTransitionsTrace(c: Ctx, s: St)
    requires AutoRanked(c.cfg)
    ensures var r := MakeAutoTransitions(c, s);
            && s.trace <= r.0.trace && NoSaveSince(r.0.trace, |s.trace|)
            && (r.1.Ran? ==> (r.1.any <==> StepSince(r.0.trace, |s.trace|)))
  {
    CascadeTrace(c, s.(disableRigid := true));
  }

  /** A passed state tier and the side effects of a manual transition add no save and no auto step. */
  lemma StateThenEffects(c: Ctx, s: St)
    ensures var (s1, sv) := StateValid(c, s);
            sv.Handled? && sv.ok ==>
              var s2 := ApplyCurrentSideEffects(c, s1);
              && s.trace <= s2.trace && NoSaveSince(s2.trace, |s.trace|) && !StepSince(s2.trace, |s.trace|)
  {
    var (s1, sv) := StateValid(c, s);
    if sv.Handled? && sv.ok {
      var n := |s.trace|;
      var s2 := ApplyCurrentSideEffects(c, s1);
      assert s1.trace == s.trace + [StateTier(s.newStatus)];
      var ev := if c.oldStatus == s1.newStatus then [] else SideEffectEvents(EffectsFor(c, s1.newStatus), s1.newStatus);
      assert s2.trace == s1.trace + ev;
      assert forall i :: 0 <= i < |ev| ==> ev[i].SideEffectCall?;
      forall i | n <= i < |s2.trace| ensures s2.trace[i].StateTier? || s2.trace[i].SideEffectCall? {
        if i > n { assert s2.trace[i] == ev[i - n - 1]; }
      }
    }
  }

  /** A tier that fails or raises before the cascade: no save, no auto step, no transitional tier. */
  lemma StateStageStops(c: Ctx, s: St)
    requires AutoRanked(c.cfg) && !c.stateless
    ensures var (s1, sv) := StateValid(c, s);
            !(sv.Handled? && sv.ok) ==>
              var r := StateStage(c, s);
              && s.trace <= r.0.trace && NoSaveSince(r.0.trace, |s.trace|) && !StepSince(r.0.trace, |s.trace|)
              && r.1 != Finished(true, [])
              && (r.1.Finished? ==> (r.1.ok <==> r.1.errors == []))
  {
    var (s1, sv) := StateValid(c, s);
    if sv.Handled? && !sv.ok {
      FailKeepsErrors(c, s1, sv.errors);
    }
  }

  /**
   * The state stage appends to the trace and never enters the transitional
   * tier; stateless, it does nothing but succeed; `save` is called once iff
   * it succeeds after at least one auto step, and never otherwise.
   */
  lemma StateStageTrace(c: Ctx, s: St)
    requires AutoRanked(c.cfg)
    ensures var r := StateStage(c, s);
            && s.trace <= r.0.trace && !TransitionalSince(r.0.trace, |s.trace|)
            && SavesSince(r.0.trace, |s.trace|) == (if r.1 == Finished(true, []) && StepSince(r.0.trace, |s.trace|) then 1 else 0)
            && (c.stateless ==> r == Succeed(s))
            && (r.1.Finished? ==> (r.1.ok <==> r.1.errors == []))
  {
    var n := |s.trace|;
    var r := StateStage(c, s);
    if c.stateless {
      SavesAfterQuiet(s.trace, n);
    } else {
      var (s1, sv) := StateValid(c, s);
      if sv.Handled? && sv.ok {
        StateThenEffects(c, s);
        var s2 := ApplyCurrentSideEffects(c, s1);
        MakeAutoTransitionsTrace(c, s2);
        var (s3, run) := MakeAutoTransitions(c, s2);
        SinceCompose(s.trace, s2.trace, s3.trace);
        SavesAfterQuiet(s3.trace, n);
      } else {
        StateStageStops(c, s);
        SavesAfterQuiet(r.0.trace, n);
      }
    }
  }
  /** A trace whose entry at `n` is the transitional tier counts saves and auto steps as from `n + 1`. */
  lemma TransitionalFirst(tr: seq<Event>, n: nat)
    requires n < |tr| && tr[n] == TransitionalTier
    ensures TransitionalSince(tr, n)
    ensures SavesSince(tr, n) == SavesSince(tr, n + 1)
    ensures StepSince(tr, n) <==> StepSince(tr, n + 1)
  {
    assert tr[n..] == [TransitionalTier] + tr[n + 1..];
  }

  /** What `AfterBasicTrace` states of a result `r` of the stage after a passed basic tier of `s`. */
  predicate AfterBasicShape(c: Ctx, s: St, r: (St, TotalResult)) {
    && s.trace <= r.0.trace
    && (TransitionalSince(r.0.trace, |s.trace|) <==> c.oldRecord.Some? && !c.stateless)
    && (c.stateless ==> r == Succeed(s))
    && SavesSince(r.0.trace, |s.trace|) == (if r.1 == Finished(true, []) && StepSince(r.0.trace, |s.trace|) then 1 else 0)
    && (r.1.Finished? ==> (r.1.ok <==> r.1.errors == []))
  }

  /** A passed transitional tier: its entry, then the state stage. */
  lemma TransitionalPassedShape(c: Ctx, s: St)
    requires AutoRanked(c.cfg) && Coherent(c) && !c.skipTransition && !c.stateless
    requires var t := Transitional(c, s).1; t.Handled? && t.ok
    ensures AfterBasicShape(c, s, AfterBasic(c, s))
  {
    var n := |s.trace|;
    var r := AfterBasic(c, s);
    var (s1, _) := Transitional(c, s);
    assert r == StateStage(c, s1);
    StateStageTrace(c, s1);
    TransitionalFirst(r.0.trace, n);
    assert r.0.trace[..n + 1] == s1.trace;
    assert !TransitionalSince(r.0.trace, n + 1);
  }

  /** A refused or raising transitional tier: its entry is the only event. */
  lemma TransitionalStoppedShape(c: Ctx, s: St)
    requires AutoRanked(c.cfg) && Coherent(c) && !c.skipTransition && !c.stateless
    requires var t := Transitional(c, s).1; !(t.Handled? && t.ok)
    ensures AfterBasicShape(c, s, AfterBasic(c, s))
  {
    var n := |s.trace|;
    var r := AfterBasic(c, s);
    var (s1, t) := Transitional(c, s);
    if t.Handled? { FailKeepsErrors(c, s1, t.errors); }
    assert r.0.trace == s.trace + [TransitionalTier];
    SavesAfterQuiet(s.trace, n);
    TransitionalFirst(r.0.trace, n);
    assert r.0.trace[n + 1..] == [];
  }

  /** Everything after a passed basic tier: the transitional tier comes first, exactly when there is an old record. */
  lemma AfterBasicTrace(c: Ctx, s: St)
    requires AutoRanked(c.cfg) && Coherent(c)
    ensures var r := AfterBasic(c, s);
            && s.trace <= r.0.trace
            && (TransitionalSince(r.0.trace, |s.trace|) <==> c.oldRecord.Some? && !c.stateless)
            && (c.stateless ==> r == Succeed(s))
            && SavesSince(r.0.trace, |s.trace|) == (if r.1 == Finished(true, []) && StepSince(r.0.trace, |s.trace|) then 1 else 0)
            && (r.1.Finished? ==> (r.1.ok <==> r.1.errors == []))
  {
    if !c.skipTransition && !c.stateless {
      var t := Transitional(c, s).1;
      if t.Handled? && t.ok {
        TransitionalPassedShape(c, s);
      } else {
        TransitionalStoppedShape(c, s);
      }
    } else {
      StateStageTrace(c, s);
    }
  }

  /**
   * `total_validation` on a session that has not computed it: a basic
   * failure gives the mapped basic errors; the transitional tier is
   * entered iff the basic tier passed, an old record is present and the
   * session is not stateless; a stateless session runs nothing after the
   * basic tier; `save` is called exactly once iff validation succeeded
   * after at least one auto step; `ok` iff no errors.
   */
  lemma TotalPipeline(c: Ctx, s: St)
    requires AutoRanked(c.cfg) && Coherent(c) && s.total.None? && CacheAgrees(s.basic)
    ensures var (s1, b) := BasicValidation(c, s);
            var r := Total(c, s);
            && (b.Handled? && !b.ok ==> r == Fail(c, s1, b.errors))
            && s.trace <= r.0.trace
            && (TransitionalSince(r.0.trace, |s.trace|) <==> b.Handled? && b.ok && c.oldRecord.Some? && !c.stateless)
            && (c.stateless ==> r.0.trace == s.trace && (b.Handled? && b.ok ==> r.1 == Finished(true, [])))
            && SavesSince(r.0.trace, |s.trace|) == (if r.1 == Finished(true, []) && StepSince(r.0.trace, |s.trace|) then 1 else 0)
            && (r.1.Finished? ==> (r.1.ok <==> r.1.errors == []))
  {
    var (s1, b) := BasicValidation(c, s);
    if b.Handled? && b.ok {
      AfterBasicTrace(c, s1);
    } else {
      if b.Handled? { FailKeepsErrors(c, s1, b.errors); }
      SavesAfterQuiet(s.trace, |s.trace|);
    }
  }

  /**
   * `total_validation` is computed once: a normal return is cached, so a
   * second call returns the same answer and changes nothing; a raise caches
   * nothing.
   */
  lemma TotalCached(c: Ctx, s: St)
    requires AutoRanked(c.cfg) && Coherent(c) && s.total.None?
    ensures var r := Total(c, s);
            && (r.1.Finished? ==> r.0.total == Some(Verdict(r.1.ok, r.1.errors)) && Total(c, r.0) == r)
            && (r.1.Crashed? ==> r.0.total.None?)
  {
    var (s1, b) := BasicValidation(c, s);
    if b.Handled? && b.ok {
      if !c.skipTransition && !c.stateless {
        var (s2, t) := Transitional(c, s1);
        if t.Handled? && t.ok {
          StateStageCached(c, s2);
        }
      } else {
        StateStageCached(c, s1);
      }
    }
  }

  lemma StateStageCached(c: Ctx, s: St)
    requires AutoRanked(c.cfg) && s.total.None?
    ensures var r := StateStage(c, s);
            && (r.1.Finished? ==> r.0.total == Some(Verdict(r.1.ok, r.1.errors)))
            && (r.1.Crashed? ==> r.0.total.None?)
  {
    if !c.stateless {
      var (s1, sv) := StateValid(c, s);
      if sv.Handled? && sv.ok {
        var s2 := ApplyCurrentSideEffects(c, s1);
        CascadeTrace(c, s2.(disableRigid := true));
      }
    }
  }
}
