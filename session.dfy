/**
 * `CompleteValidation` as the object the validator is: a session over one
 * record whose methods update its fields in place. Every method is proved
 * to leave the session in the state, and to return the result, that the
 * matching function of the `Engine` module computes from the state before
 * the call; the properties of the validation are proved about those
 * functions. Construction, which normalises the `new` and `old` arguments,
 * is modelled by `Normalize` and the method `Open`.
 */
module Session {
  import opened Values
  import opened Errors
  import opened Records
  import opened Decorators
  import opened Fsm
  import opened Engine

  class CompleteValidation {
    // fixed by the constructor
    const cfg: Config
    const user: Option<User>
    const oldRecord: Option<RecordState>
    const oldStatus: Value
    const stateless: bool
    const skipTransition: bool
    const skipPermissions: bool

    // changed as validation runs
    var record: RecordState
    var shadow: Shadow
    var newStatus: Value
    var permissions: Option<Perms>
    var disableRigid: bool
    var transitionCache: Option<Option<nat>>
    var basicCache: Option<Verdict>
    var totalCache: Option<Verdict>
    /** The calls that reach outside the session: tiers entered, auto steps, side effects and `save`. */
    var trace: seq<Event>

    function Context(): Ctx {
      Ctx(cfg, user, oldRecord, oldStatus, stateless, skipTransition, skipPermissions)
    }

    /** The session's changing state as the functions of `Engine` take it. */
    function Abs(): St
      reads this
    {
      St(record, shadow, newStatus, permissions, disableRigid, transitionCache, basicCache, totalCache, trace)
    }

    /** A session over the given context, in the given state. */
    constructor (c: Ctx, s: St)
      ensures Context() == c && Abs() == s
    {
      cfg := c.cfg;
      user := c.user;
      oldRecord := c.oldRecord;
      oldStatus := c.oldStatus;
      stateless := c.stateless;
      skipTransition := c.skipTransition;
      skipPermissions := c.skipPermissions;
      record := s.record;
      shadow := s.shadow;
      newStatus := s.newStatus;
      permissions := s.permissions;
      disableRigid := s.disableRigid;
      transitionCache := s.transition;
      basicCache := s.basic;
      totalCache := s.total;
      trace := s.trace;
    }

    /**
     * `basic_validation`: attaches the old record, sets `permissions`, calls
     * every basic validation function and gathers the errors; then detaches,
     * clears and caches the answer.
     */
    method BasicValidation() returns (w: Wrapped)
      modifies this
      ensures (Abs(), w) == Engine.BasicValidation(Context(), old(Abs()))
    {
      if basicCache.Some? {
        return Handle(basicCache.value);
      }
      shadow := OldShadow(Context());
      permissions := GetPermissions(Context(), Subject(record, shadow));
      var subj := Subject(record, shadow);
      var fns := cfg.basic;
      ghost var before := Abs();
      var errors: seq<ErrorItem> := [];
      var i := 0;
      while i < |fns|
        invariant 0 <= i <= |fns|
        invariant Accumulate(errors, BasicErrors(fns[i..], subj)) == BasicErrors(fns, subj)
        invariant Abs() == before
      {
        var a := ErrorData(fns[i].name, fns[i].run(subj));
        assert fns[i..][0] == fns[i] && fns[i..][1..] == fns[i + 1..];
        if a.Escaped? {
          assert BasicErrors(fns[i..], subj) == a;
          return a;
        }
        AccumulateTwice(errors, a.errors, BasicErrors(fns[i + 1..], subj));
        errors := errors + a.errors;
        i := i + 1;
      }
      assert fns[i..] == [] && errors + [] == errors;
      shadow := Detached;
      permissions := None;
      basicCache := Some(Verdict(errors == [], errors));
      w := Handled(errors == [], errors);
    }

    /** `_get_fsm_defined_transitions(source, target)`: the first declared transition from `source` whose target holds `target`. */
    method FsmDefinedTransition(source: Value, target: Value) returns (r: Option<nat>)
      ensures r == Lookup(cfg.transitions, source, target)
    {
      var ts := cfg.transitions;
      var i := 0;
      while i < |ts|
        invariant 0 <= i <= |ts|
        invariant forall j :: 0 <= j < i ==> !Matches(ts[j], source, target)
      {
        if Matches(ts[i], source, target) {
          LookupFirst(ts, source, target, i);
          return Some(i);
        }
        i := i + 1;
      }
      return None;
    }

    /** `transition`: looked up from `old_status` to `new_status` on first use, then cached. */
    method Transition() returns (t: Option<nat>)
      modifies this
      ensures (Abs(), t) == CachedTransition(Context(), old(Abs()))
    {
      if transitionCache.Some? {
        return transitionCache.value;
      }
      t := FsmDefinedTransition(oldStatus, newStatus);
      transitionCache := Some(t);
    }

    /**
     * `transitional_validation`: with the record rewound to the old status
     * and the old record attached, the transition's conditions and, unless
     * permissions are skipped, its permission; then the record is restored.
     */
    method TransitionalValidation() returns (w: Wrapped)
      modifies this
      ensures (Abs(), w) == Transitional(Context(), old(Abs()))
    {
      trace := trace + [TransitionalTier];
      if oldRecord.None? {
        return TransitionErrorData(RaisedForeign("AttributeError"));
      }
      record := SetStatus(record, StatusOf(oldRecord.value));
      shadow := Attached(oldRecord.value);
      permissions := GetPermissions(Context(), Subject(record, shadow));
      var idx := Transition();
      var t := Found(cfg.transitions, idx);
      var conditions := CanProceed(t, Subject(record, shadow));
      if Raised(conditions) {
        return TransitionErrorData(conditions);
      }
      var permitted := skipPermissions || user.None? || HasTransitionPerm(t, user.value);
      shadow := Detached;
      permissions := None;
      record := SetStatus(record, newStatus);
      w := TransitionErrorData(ReturnedBool(conditions.b && permitted));
    }

    /**
     * `state_valid`: a failed basic tier fails it; otherwise, with the old
     * record attached and `permissions` set, the hook for `new_status`.
     */
    method StateValid() returns (w: Wrapped)
      modifies this
      ensures (Abs(), w) == Engine.StateValid(Context(), old(Abs()))
    {
      var b := BasicValidation();
      if b.Escaped? {
        return StateErrorData(b.raised);
      }
      if !b.ok {
        return StateErrorData(ReturnedOther(true));
      }
      shadow := OldShadow(Context());
      trace := trace + [StateTier(newStatus)];
      permissions := GetPermissions(Context(), Subject(record, shadow));
      var res := RunHook(Context(), Abs());
      if Raised(res) {
        return StateErrorData(res);
      }
      shadow := Detached;
      permissions := None;
      w := StateErrorData(res);
    }

    /**
     * `_first_available_auto_transition`: walks the `AUTO_TRANSITIONS`
     * candidates of the record's status that are status choices, and picks
     * the first one whose FSM transition (if any) lets it proceed.
     */
    method FirstAvailableAutoTransition() returns (ch: Choice)
      ensures ch == FirstAvailable(Context(), Abs())
    {
      var cands := Candidates(Context(), StatusOf(record));
      ghost var ws := Attempts(Context(), Abs(), cands);
      var i := 0;
      while i < |cands|
        invariant 0 <= i <= |cands|
        invariant PickFirst(cands[i..], ws[i..]) == PickFirst(cands, ws)
      {
        var target := cands[i];
        var idx := FsmDefinedTransition(StatusOf(record), target);
        var a := TransitionErrorData(CanProceed(Found(cfg.transitions, idx), Subject(record, shadow)));
        assert a == ws[i];
        assert cands[i..][1..] == cands[i + 1..] && ws[i..][1..] == ws[i + 1..];
        if a.Escaped? {
          return ChoiceRaised(a.raised);
        }
        if a.ok {
          return Chosen(target);
        }
        i := i + 1;
      }
      return NoChoice;
    }

    /** Calls the side effects `effs` of `status` in order, each writing its fields onto the record. */
    method RunSideEffects(effs: seq<SideEffect>, status: Value)
      modifies this
      ensures Abs() == Engine.RunSideEffects(Context(), old(Abs()), effs, status)
    {
      var i := 0;
      while i < |effs|
        invariant 0 <= i <= |effs|
        invariant EffectsRecord(Context(), record, shadow, effs[i..]) == EffectsRecord(Context(), old(record), shadow, effs)
        invariant trace == old(trace) + SideEffectEvents(effs[..i], status)
        invariant shadow == old(shadow) && newStatus == old(newStatus) && permissions == old(permissions)
        invariant disableRigid == old(disableRigid) && transitionCache == old(transitionCache)
        invariant basicCache == old(basicCache) && totalCache == old(totalCache)
      {
        EffectsRecordStep(Context(), record, shadow, effs, i);
        var writes := effs[i].run(Subject(record, shadow), oldRecord, user);
        record := record.(attrs := record.attrs + (writes - {"status"}));
        EventsSnoc(effs, i, status);
        trace := trace + [SideEffectCall(effs[i].name, status)];
        i := i + 1;
      }
      assert effs[i..] == [] && effs[..i] == effs;
    }

    /**
     * The chosen branch of `_make_auto_transition`: moves to `t` and checks
     * its state; a failed check rolls the status back; a passed one runs the
     * side effects of `t`.
     */
    method TryStep(t: Value) returns (step: Step)
      modifies this
      ensures (Abs(), step) == Engine.TryStep(Context(), old(Abs()), t)
    {
      var originalStatus, originalNew := StatusOf(record), newStatus;
      record := SetStatus(record, t);
      newStatus := t;
      var sv := StateValid();
      if sv.Escaped? {
        return StepRaised(sv.raised);
      }
      if !sv.ok {
        record := SetStatus(record, originalStatus);
        newStatus := originalNew;
        return Stopped;
      }
      trace := trace + [AutoStep(t)];
      RunSideEffects(EffectsFor(Context(), t), t);
      return Stepped(t);
    }

    /** `_make_auto_transition`: tries the first available candidate, if any. */
    method MakeAutoTransition() returns (step: Step)
      modifies this
      ensures (Abs(), step) == MakeAuto(Context(), old(Abs()))
    {
      var ch := FirstAvailableAutoTransition();
      match ch
      case ChoiceRaised(o) =>
        return StepRaised(o);
      case NoChoice =>
        return Stopped;
      case Chosen(t) =>
        step := TryStep(t);
    }

    /**
     * `make_auto_transitions`: steps while a step is made, with the rigid
     * check disabled, and tells whether any step was made.
     */
    method MakeAutoTransitions() returns (run: Run)
      requires AutoRanked(cfg)
      modifies this
      ensures (Abs(), run) == Engine.MakeAutoTransitions(Context(), old(Abs()))
    {
      var original := disableRigid;
      disableRigid := true;
      ghost var start := Abs();
      var any := false;
      while true
        invariant SoFar(any, Cascade(Context(), Abs())) == Cascade(Context(), start)
        decreases cfg.rank(StatusOf(record))
      {
        var step := MakeAutoTransition();
        match step
        case StepRaised(o) =>
          return RunRaised(o);
        case Stopped =>
          break;
        case Stepped(t) =>
          any := true;
      }
      disableRigid := original;
      run := Ran(any);
    }

    /** `_apply_current_side_effects`: the side effects of `new_status` when the status changed. */
    method ApplyCurrentSideEffects()
      modifies this
      ensures Abs() == Engine.ApplyCurrentSideEffects(Context(), old(Abs()))
    {
      if oldStatus == newStatus {
        return;
      }
      RunSideEffects(EffectsFor(Context(), newStatus), newStatus);
    }

    /** A failed tier: maps its errors and caches the failure. */
    method CacheFailure(errors: seq<ErrorItem>) returns (r: TotalResult)
      modifies this
      ensures (Abs(), r) == Fail(Context(), old(Abs()), errors)
    {
      match MapErrors(cfg, errors)
      case MapRaised(o) =>
        return Crashed(o);
      case MappedTo(m) =>
        totalCache := Some(Verdict(false, m));
        return Finished(false, m);
    }

    /**
     * `total_validation`: the basic tier, the transitional tier when there
     * is an old record, then the state tier, the side effects of the manual
     * transition and the auto transitions, saving the record if any was
     * made; the first failing tier's errors are mapped and returned.
     */
    method TotalValidation() returns (r: TotalResult)
      requires AutoRanked(cfg) && Coherent(Context())
      modifies this
      ensures (Abs(), r) == Total(Context(), old(Abs()))
    {
      if totalCache.Some? {
        return Finished(totalCache.value.ok, totalCache.value.errors);
      }
      var b := BasicValidation();
      if b.Escaped? {
        return Crashed(b.raised);
      }
      if !b.ok {
        r := CacheFailure(b.errors);
        return;
      }
      if !skipTransition && !stateless {
        var t := TransitionalValidation();
        if t.Escaped? {
          return Crashed(t.raised);
        }
        if !t.ok {
          r := CacheFailure(t.errors);
          return;
        }
      }
      if !stateless {
        var sv := StateValid();
        if sv.Escaped? {
          return Crashed(sv.raised);
        }
        if !sv.ok {
          r := CacheFailure(sv.errors);
          return;
        }
        ApplyCurrentSideEffects();
        var run := MakeAutoTransitions();
        if run.RunRaised? {
          return Crashed(run.o);
        }
        if run.any {
          trace := trace + [Saved];
        }
      }
      totalCache := Some(Verdict(true, []));
      r := Finished(true, []);
    }

    /** `is_valid`: the first half of `total_validation`. */
    method IsValid() returns (r: Answer<bool>)
      requires AutoRanked(cfg) && Coherent(Context())
      modifies this
      ensures var (s, t) := Total(Context(), old(Abs()));
              Abs() == s && r == if t.Crashed? then Propagated(t.o) else Answered(t.ok)
    {
      var t := TotalValidation();
      r := if t.Crashed? then Propagated(t.o) else Answered(t.ok);
    }

    /** `errors`: the second half of `total_validation`. */
    method Errors() returns (r: Answer<seq<ErrorItem>>)
      requires AutoRanked(cfg) && Coherent(Context())
      modifies this
      ensures var (s, t) := Total(Context(), old(Abs()));
              Abs() == s && r == if t.Crashed? then Propagated(t.o) else Answered(t.errors)
    {
      var t := TotalValidation();
      r := if t.Crashed? then Propagated(t.o) else Answered(t.errors);
    }
  }

  /** What a property returns, or the exception it lets through. */
  datatype Answer<T> = Answered(value: T) | Propagated(o: Outcome)

  /** The cascade's outcome once `any` earlier steps are taken into account. */
  function SoFar(any: bool, r: (St, Run)): (St, Run) {
    (r.0, if any && r.1.Ran? then Ran(true) else r.1)
  }

  // ---------------------------------------------------------------------
  // Construction: normalising `new` and `old`
  // ---------------------------------------------------------------------

  /** A model class: its registry name and its stored rows by id. */
  datatype ModelClass = ModelClass(name: string, table: map<Value, RecordState>)

  /** The `new` argument: a model instance, or a dict of field values. */
  datatype NewArg = NewInstance(rec: RecordState) | NewDict(kw: seq<(string, Input)>)

  /** The `old` argument: absent, a model instance of some class, or a dict of the given size. */
  datatype OldArg = NoOld | OldInstance(rec: RecordState, cls: ModelClass) | OldDict(size: nat)

  /** The normalised pair (`new`, `old`), or the exception the constructor raised. */
  datatype Opened = Opened(record: RecordState, oldRecord: Option<RecordState>) | InitRaised(o: Outcome)

  datatype Resolved = ResolvedTo(cls: ModelClass) | ResolveRaised(o: Outcome)

  /** `old` is truthy: a model instance, or a non-empty dict. */
  predicate OldTruthy(prior: OldArg) {
    prior.OldInstance? || (prior.OldDict? && prior.size > 0)
  }

  /** The old record the session keeps: the instance, if `old` is one. */
  function OldOf(prior: OldArg): Option<RecordState> {
    if prior.OldInstance? then Some(prior.rec) else None
  }

  /**
   * The class a dict is built with: `instance_class`, else the class of
   * `old`, else the registry's model for `VALIDATION_CLASS` (an attribute
   * the validator may lack; an unknown label is a `TypeError`).
   */
  function ResolveClass(validationClass: Option<string>, registry: map<string, ModelClass>,
                        instanceClass: Option<ModelClass>, prior: OldArg): Resolved
  {
    if instanceClass.Some? then ResolvedTo(instanceClass.value)
    else if prior.OldInstance? then ResolvedTo(prior.cls)
    else if validationClass.None? then ResolveRaised(RaisedForeign("AttributeError"))
    else if validationClass.value in registry then ResolvedTo(registry[validationClass.value])
    else ResolveRaised(RaisedForeign("TypeError"))
  }

  /** `new.get(key, None)`. */
  function DictGet(kw: seq<(string, Input)>, key: string): Option<Input> {
    if kw == [] then None
    else if kw[0].0 == key then Some(kw[0].1)
    else DictGet(kw[1..], key)
  }

  /** Python truthiness of a dict value (a list is truthy when non-empty). */
  predicate InputTruthy(i: Option<Input>) {
    match i
    case None => false
    case Some(Scalar(v)) => Values.Truthy(v)
    case Some(ListOf(rows)) => rows != []
  }

  /** `new.get('id', None) or new.get('pk', None)`. */
  function NewId(kw: seq<(string, Input)>): Option<Input> {
    var id := DictGet(kw, "id");
    if InputTruthy(id) then id else DictGet(kw, "pk")
  }

  predicate HasList(kw: seq<(string, Input)>) {
    exists i :: 0 <= i < |kw| && kw[i].1.ListOf?
  }

  /** A dict without list values is applied in full. */
  lemma {:induction false} ScalarsApply(attrs: map<string, Value>, kw: seq<(string, Input)>)
    requires !HasList(kw)
    decreases |kw|
    ensures ApplyUpdates(attrs, kw).finished
  {
    if kw != [] {
      assert !HasList(kw[1..]) by {
        forall i | 0 <= i < |kw[1..]| ensures !kw[1..][i].1.ListOf? { assert kw[1..][i] == kw[i + 1]; }
      }
      ScalarsApply(attrs[kw[0].0 := Assigned(attrs, kw[0].0, kw[0].1)], kw[1..]);
    }
  }

  /**
   * The argument handling of `CompleteValidation.__init__`: a truthy dict
   * `old` is refused; a dict `new` with a truthy id or pk is the stored row
   * with the dict applied (`old` stays when it has that id, else it is the
   * stored row too); a dict without one is a copy of `old` with the dict
   * applied, or a fresh instance built from the dict.
   */
  function Normalize(validationClass: Option<string>, registry: map<string, ModelClass>,
                     newArg: NewArg, prior: OldArg, instanceClass: Option<ModelClass>): (r: Opened)
    ensures prior.OldDict? && prior.size > 0 ==> r == InitRaised(RaisedForeign("TypeError"))
    ensures newArg.NewInstance? && !(prior.OldDict? && prior.size > 0) ==> r == Opened(newArg.rec, OldOf(prior))
    ensures r.Opened? && newArg.NewDict? && !InputTruthy(NewId(newArg.kw)) ==> r.oldRecord == OldOf(prior)
    ensures r.Opened? && newArg.NewDict? && InputTruthy(NewId(newArg.kw)) ==> r.oldRecord.Some?
    ensures newArg.NewDict? && instanceClass.None? && !OldTruthy(prior) && validationClass.None? ==>
              r == InitRaised(RaisedForeign("AttributeError"))
    ensures newArg.NewDict? && instanceClass.None? && !OldTruthy(prior) && validationClass.Some? && validationClass.value !in registry ==>
              r == InitRaised(RaisedForeign("TypeError"))
  {
    if prior.OldDict? && prior.size > 0 then InitRaised(RaisedForeign("TypeError"))
    else match newArg
      case NewInstance(rec) => Opened(rec, OldOf(prior))
      case NewDict(kw) =>
        match ResolveClass(validationClass, registry, instanceClass, prior)
        case ResolveRaised(o) => InitRaised(o)
        case ResolvedTo(cls) =>
          var newId := NewId(kw);
          if InputTruthy(newId) then
            if newId.value.ListOf? then InitRaised(RaisedForeign("TypeError"))
            else
            var key := newId.value.v;
            if key !in cls.table then InitRaised(RaisedForeign("DoesNotExist"))
            else
              var stored := cls.table[key];
              var u := ApplyUpdates(stored.attrs, kw);
              if !u.finished then InitRaised(RaisedForeign("AttributeError"))
              else
                var oldRecord := if prior.OldInstance? && PyEq(GetOrNone(prior.rec.attrs, "id"), key) then prior.rec else stored;
                Opened(stored.(attrs := u.attrs), Some(oldRecord))
          else if prior.OldInstance? then
            var u := ApplyUpdates(prior.rec.attrs, kw);
            if !u.finished then InitRaised(RaisedForeign("AttributeError"))
            else Opened(prior.rec.(attrs := u.attrs), Some(prior.rec))
          else if HasList(kw) then InitRaised(RaisedForeign("TypeError"))
          else Opened(RecordState(ApplyUpdates(map[], kw).attrs, map[]), None)
  }

  /**
   * A dict `new` ends up applied: every key holds its value, and a field
   * the dict does not name keeps the value of the record it was applied to
   * (the copy of `old` when there is no id).
   */
  lemma NormalizeAppliesDict(validationClass: Option<string>, registry: map<string, ModelClass>,
                             kw: seq<(string, Input)>, prior: OldArg, instanceClass: Option<ModelClass>)
    requires DistinctKeys(kw)
    ensures var r := Normalize(validationClass, registry, NewDict(kw), prior, instanceClass);
            && (r.Opened? ==> forall i :: 0 <= i < |kw| ==> kw[i].0 in r.record.attrs && AppliedAs(r.record.attrs[kw[i].0], kw[i].1))
            && (r.Opened? && !InputTruthy(NewId(kw)) && prior.OldInstance? ==>
                  && r.oldRecord == Some(prior.rec) && r.record.snapshots == prior.rec.snapshots
                  && forall f :: f in prior.rec.attrs && (forall i :: 0 <= i < |kw| ==> kw[i].0 != f) ==>
                       f in r.record.attrs && r.record.attrs[f] == prior.rec.attrs[f])
  {
    var r := Normalize(validationClass, registry, NewDict(kw), prior, instanceClass);
    if r.Opened? {
      var cls := ResolveClass(validationClass, registry, instanceClass, prior).cls;
      var newId := NewId(kw);
      if InputTruthy(newId) {
        ApplyUpdatesSpec(cls.table[newId.value.v].attrs, kw);
        ApplyUpdatesApplied(cls.table[newId.value.v].attrs, kw);
      } else if prior.OldInstance? {
        ApplyUpdatesSpec(prior.rec.attrs, kw);
        ApplyUpdatesApplied(prior.rec.attrs, kw);
      } else {
        ApplyUpdatesSpec(map[], kw);
        ApplyUpdatesApplied(map[], kw);
      }
    }
  }

  /**
   * A dict `new` with a truthy id (or pk) names a stored row: a list id
   * raises `TypeError`, an unknown id raises `DoesNotExist`; otherwise `new` is that row with the dict applied
   * (other fields as stored), and `old` is the given old record when it has
   * that id, and the stored row otherwise.
   */
  lemma NormalizeById(validationClass: Option<string>, registry: map<string, ModelClass>,
                      kw: seq<(string, Input)>, prior: OldArg, instanceClass: Option<ModelClass>)
    requires DistinctKeys(kw) && InputTruthy(NewId(kw)) && !(prior.OldDict? && prior.size > 0)
    requires ResolveClass(validationClass, registry, instanceClass, prior).ResolvedTo?
    ensures var cls := ResolveClass(validationClass, registry, instanceClass, prior).cls;
            var id := NewId(kw).value;
            var r := Normalize(validationClass, registry, NewDict(kw), prior, instanceClass);
            && (id.ListOf? ==> r == InitRaised(RaisedForeign("TypeError")))
            && (id.Scalar? ==>
            var key := id.v;
            && (key !in cls.table ==> r == InitRaised(RaisedForeign("DoesNotExist")))
            && (r.Opened? ==>
                  && key in cls.table && r.record.snapshots == cls.table[key].snapshots
                  && (prior.OldInstance? && PyEq(GetOrNone(prior.rec.attrs, "id"), key) ==> r.oldRecord == Some(prior.rec))
                  && (!(prior.OldInstance? && PyEq(GetOrNone(prior.rec.attrs, "id"), key)) ==> r.oldRecord == Some(cls.table[key]))
                  && forall f :: f in cls.table[key].attrs && (forall i :: 0 <= i < |kw| ==> kw[i].0 != f) ==>
                       f in r.record.attrs && r.record.attrs[f] == cls.table[key].attrs[f]))
  {
    var cls := ResolveClass(validationClass, registry, instanceClass, prior).cls;
    var id := NewId(kw).value;
    if id.Scalar? && id.v in cls.table {
      ApplyUpdatesSpec(cls.table[id.v].attrs, kw);
    }
  }

  /** What the constructor fixes, given the normalised records. */
  function InitialCtx(cfg: Config, user: Option<User>, record: RecordState, oldRecord: Option<RecordState>, stateless: bool): (c: Ctx)
    ensures Coherent(c)
  {
    Ctx(cfg, user, oldRecord, if !stateless && oldRecord.Some? then StatusOf(oldRecord.value) else VNone,
        stateless, oldRecord.None?, user.None?)
  }

  /** The state the constructor leaves: nothing computed, nothing attached, `permissions` None. */
  function InitialSt(record: RecordState, stateless: bool, disableRigid: bool): St {
    St(record, Detached, if stateless then VNone else StatusOf(record), None, disableRigid, None, None, None, [])
  }

  datatype Opening = Ready(session: CompleteValidation) | Refused(o: Outcome)

  /**
   * `CompleteValidation(new, user, old, instance_class, stateless,
   * disable_rigid_check)`: normalises the arguments, applying a dict onto a
   * record object through `update_object`, and opens a session over them.
   */
  method Open(cfg: Config, registry: map<string, ModelClass>, newArg: NewArg, prior: OldArg,
              instanceClass: Option<ModelClass>, user: Option<User>, stateless: bool, disableRigid: bool)
    returns (r: Opening)
    ensures match Normalize(cfg.validationClass, registry, newArg, prior, instanceClass)
            case InitRaised(o) => r == Refused(o)
            case Opened(record, oldRecord) =>
              && r.Ready? && fresh(r.session)
              && r.session.Context() == InitialCtx(cfg, user, record, oldRecord, stateless)
              && r.session.Abs() == InitialSt(record, stateless, disableRigid)
  {
    if OldTruthy(prior) && prior.OldDict? {
      return Refused(RaisedForeign("TypeError"));
    }
    var record: RecordState;
    var oldRecord: Option<RecordState>;
    match newArg {
      case NewInstance(rec) =>
        record, oldRecord := rec, OldOf(prior);
      case NewDict(kw) =>
        var resolved := ResolveClass(cfg.validationClass, registry, instanceClass, prior);
        if resolved.ResolveRaised? {
          return Refused(resolved.o);
        }
        var cls := resolved.cls;
        var newId := NewId(kw);
        var base: RecordState;
        if InputTruthy(newId) {
          if newId.value.ListOf? {
            return Refused(RaisedForeign("TypeError"));
          }
          var key := newId.value.v;
          if key !in cls.table {
            return Refused(RaisedForeign("DoesNotExist"));
          }
          base := cls.table[key];
          oldRecord := if prior.OldInstance? && PyEq(GetOrNone(prior.rec.attrs, "id"), key) then Some(prior.rec) else Some(base);
        } else if prior.OldInstance? {
          base := prior.rec;
          oldRecord := Some(prior.rec);
        } else {
          if HasList(kw) {
            return Refused(RaisedForeign("TypeError"));
          }
          base := RecordState(map[], map[]);
          oldRecord := None;
          ScalarsApply(map[], kw);
        }
        var obj := new Record(base);
        var finished := obj.UpdateObject(kw);
        if !finished {
          return Refused(RaisedForeign("AttributeError"));
        }
        record := obj.State();
    }
    var c := InitialCtx(cfg, user, record, oldRecord, stateless);
    var v := new CompleteValidation(c, InitialSt(record, stateless, disableRigid));
    r := Ready(v);
  }
}
