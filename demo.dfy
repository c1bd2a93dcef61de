/**
 * The demo application's `DemoModel` and `DemoModelValidation` as a
 * configuration of the engine: statuses `new`, `pending` and `end`, the
 * auto transitions new -> [pending, end] and pending -> [end], the FSM
 * transitions `complete` (guarded by a document) and `pend` (guarded by a
 * permission), the basic check that a document is present, and the state
 * hook for `pending`, which asks whether the user is staff. The lemmas run
 * whole validations of this configuration.
 */
module Demo {
  import opened Values
  import opened Errors
  import opened Records
  import opened Decorators
  import opened Fsm
  import opened Engine
  import opened Session

  const New: Value := VStr("new")
  const Pending: Value := VStr("pending")
  const End: Value := VStr("end")

  function Document(subj: Subject): Value {
    GetOrNone(subj.state.attrs, "document")
  }

  /** `demo_validation`: `bool(instance.document)`. */
  function DemoValidation(subj: Subject): Outcome {
    ReturnedBool(Values.Truthy(Document(subj)))
  }

  /** `can_complete`: raises a transition error without a document. */
  function CanComplete(subj: Subject): Outcome {
    if Values.Truthy(Document(subj)) then ReturnedBool(true)
    else RaisedSimple(TransitionError(["Document is required"]))
  }

  function CanPend(subj: Subject): Outcome {
    ReturnedBool(true)
  }

  /** `state_pending_valid(instance, user)`: `user.is_staff`; without a user the attribute read raises. */
  function StatePendingValid(v: HookView): Outcome {
    if v.user.None? then RaisedForeign("AttributeError") else ReturnedBool(v.user.value.isStaff)
  }

  const Complete: seq<Guard> := [Guard("can_complete", CanComplete)]
  const Pend: seq<Guard> := [Guard("can_pend", CanPend)]
  const PendPermission: string := "sample.can_change_to_pending"

  /** The status field's transitions, one per source state of `complete` and of `pend`. */
  const Transitions: seq<FsmTransition> := [
    FsmTransition(New, TargetList([End]), "complete", Complete, None),
    FsmTransition(Pending, TargetList([End]), "complete", Complete, None),
    FsmTransition(End, TargetList([End]), "complete", Complete, None),
    FsmTransition(New, TargetList([Pending]), "pend", Pend, Some(PendPermission)),
    FsmTransition(Pending, TargetList([Pending]), "pend", Pend, Some(PendPermission))
  ]

  function Rank(v: Value): nat {
    if v == New then 2 else if v == Pending then 1 else 0
  }

  const DemoConfig: Config := Config(
    Some("sample.DemoModel"),
    None,
    [BasicFn("demo_validation", DemoValidation)],
    Some(map["wrong" := "Things went wrong"]),
    map[Pending := StatePendingValid],
    Transitions,
    map[New := [Pending, End], Pending := [End]],
    [New, Pending, End],
    map[],
    Rank)

  /** `AUTO_TRANSITIONS` of the demo model has no cycle. */
  lemma DemoRanked()
    ensures AutoRanked(DemoConfig)
  {
  }

  /** A fresh record in the given status whose document field holds the named file (None for a NULL column). */
  function Fresh(status: Value, file: Option<string>): RecordState {
    RecordState(map["status" := status, "document" := VFile(file)], map[])
  }

  /** The basic tier of the demo: passes iff the document is truthy. */
  lemma DemoBasic(subj: Subject)
    ensures BasicErrors(DemoConfig.basic, subj) ==
              if Values.Truthy(Document(subj)) then Handled(true, []) else Handled(false, [Message("demo_validation")])
  {
    assert DemoConfig.basic[1..] == [];
  }

  const Staff: User := User(true, {})

  /** The context of validating a new record (no old one) for the given user. */
  function Creating(user: Option<User>, file: Option<string>): Ctx {
    InitialCtx(DemoConfig, user, Fresh(New, file), None, false)
  }

  /** Without a document (a NULL or a blank name) the basic check fails and its name is the error, no code of `VALID_ERRORS` matching it. */
  lemma NoDocumentFailsBasic(user: Option<User>, file: Option<string>)
    requires file.None? || file.value == ""
    ensures var r := Total(Creating(user, file), InitialSt(Fresh(New, file), false, false));
            r.1 == Finished(false, [Message("demo_validation")]) && r.0.trace == []
  {
    var c := Creating(user, file);
    var s := InitialSt(Fresh(New, file), false, false);
    DemoRanked();
    var subj := Subject(s.record, AttachedNone);
    assert Document(subj) == VFile(file);
    DemoBasic(subj);
    var (s1, b) := BasicValidation(c, s);
    assert b == Handled(false, [Message("demo_validation")]);
    assert [Message("demo_validation")][1..] == [];
    assert MapErrors(DemoConfig, [Message("demo_validation")]) == MappedTo([Message("demo_validation")]);
  }

  /** The state of a session between tiers: basic tier passed and cached, nothing attached. */
  predicate Settled(a: St) {
    a.basic == Some(Verdict(true, [])) && a.shadow == Detached && a.permissions == None
  }

  /** From `new`, `pending` is the first candidate, and `pend` lets it through. */
  lemma FromNew(c: Ctx, a: St)
    requires c.cfg == DemoConfig && StatusOf(a.record) == New
    ensures FirstAvailable(c, a) == Chosen(Pending)
  {
    var cands := Candidates(c, New);
    assert cands == [Pending, End];
    LookupFirst(Transitions, New, Pending, 3);
    assert Pend[1..] == [];
    assert ConditionsMet(Pend, Subj(a)) == ReturnedBool(true);
    var ws := Attempts(c, a, cands);
    assert ws[0] == Handled(true, []);
  }

  /** From `pending`, `end` is the only candidate; `complete` lets it through iff there is a document. */
  lemma FromPending(c: Ctx, a: St)
    requires c.cfg == DemoConfig && StatusOf(a.record) == Pending && Values.Truthy(Document(Subj(a)))
    ensures FirstAvailable(c, a) == Chosen(End)
  {
    var cands := Candidates(c, Pending);
    assert cands == [End];
    LookupFirst(Transitions, Pending, End, 1);
    assert Complete[1..] == [];
    assert ConditionsMet(Complete, Subj(a)) == ReturnedBool(true);
    var ws := Attempts(c, a, cands);
    assert ws[0] == Handled(true, []);
  }

  /** `end` has no auto transition. */
  lemma FromEnd(c: Ctx, a: St)
    requires c.cfg == DemoConfig && StatusOf(a.record) == End
    ensures FirstAvailable(c, a) == NoChoice
  {
    assert Candidates(c, End) == [];
  }

  /** The state check of a settled session in status `t` passes when its hook (if any) does. */
  lemma StatePasses(c: Ctx, a: St)
    requires c.cfg == DemoConfig && Settled(a)
    requires a.newStatus != Pending || (c.user.Some? && c.user.value.isStaff)
    ensures StateValid(c, a) == (a.(trace := a.trace + [StateTier(a.newStatus)]), Handled(true, []))
  {
    assert BasicValidation(c, a) == (a, Handled(true, []));
    var s2 := a.(shadow := OldShadow(c), trace := a.trace + [StateTier(a.newStatus)]);
    assert GetPermissions(c, Subj(s2)) == None;
    assert RunHook(c, s2) == ReturnedBool(true);
  }

  /** An auto step to `t` whose state check passes and which has no side effects: the status moves and the trace records it. */
  lemma StepTo(c: Ctx, a: St, t: Value)
    requires FirstAvailable(c, a) == Chosen(t) && EffectsFor(c, t) == []
    requires var a1 := a.(record := SetStatus(a.record, t), newStatus := t);
             StateValid(c, a1) == (a1.(trace := a.trace + [StateTier(t)]), Handled(true, []))
    ensures MakeAuto(c, a) == (a.(record := SetStatus(a.record, t), newStatus := t, trace := a.trace + [StateTier(t), AutoStep(t)]), Stepped(t))
  {
    var a1 := a.(record := SetStatus(a.record, t), newStatus := t);
    var s3 := a1.(trace := a.trace + [StateTier(t), AutoStep(t)]);
    assert a.trace + [StateTier(t)] + [AutoStep(t)] == a.trace + [StateTier(t), AutoStep(t)];
    assert RunSideEffects(c, s3, [], t) == s3;
  }

  /** A step of the demo cascade to `t`. */
  lemma DemoStep(c: Ctx, a: St, t: Value)
    requires c.cfg == DemoConfig && Settled(a) && FirstAvailable(c, a) == Chosen(t)
    requires t != Pending || (c.user.Some? && c.user.value.isStaff)
    ensures MakeAuto(c, a) == (a.(record := SetStatus(a.record, t), newStatus := t, trace := a.trace + [StateTier(t), AutoStep(t)]), Stepped(t))
  {
    StatePasses(c, a.(record := SetStatus(a.record, t), newStatus := t));
    assert EffectsFor(c, t) == [];
    StepTo(c, a, t);
  }

  /** From `pending` with a document the cascade takes `complete` to `end` and stops there. */
  lemma PendingCascade(c: Ctx, a: St)
    requires c.cfg == DemoConfig && Settled(a)
    requires StatusOf(a.record) == Pending && Values.Truthy(Document(Subj(a)))
    ensures Cascade(c, a) == (a.(record := SetStatus(a.record, End), newStatus := End,
                                 trace := a.trace + [StateTier(End), AutoStep(End)]), Ran(true))
  {
    DemoRanked();
    FromPending(c, a);
    DemoStep(c, a, End);
    var (a1, _) := MakeAuto(c, a);
    FromEnd(c, a1);
    assert Cascade(c, a1) == (a1, Ran(false));
  }

  lemma CascadeEvents(t: seq<Event>)
    ensures t + [StateTier(Pending), AutoStep(Pending)] + [StateTier(End), AutoStep(End)]
            == t + [StateTier(Pending), AutoStep(Pending), StateTier(End), AutoStep(End)]
  {
  }

  /** The cascade of a staff user's record with a document: `new` to `pending` to `end`, then no candidate. */
  lemma StaffCascade(c: Ctx, a: St)
    requires c.cfg == DemoConfig && Settled(a) && c.user == Some(Staff)
    requires StatusOf(a.record) == New && Values.Truthy(Document(Subj(a)))
    ensures Cascade(c, a) == (a.(record := SetStatus(SetStatus(a.record, Pending), End), newStatus := End,
                                 trace := a.trace + [StateTier(Pending), AutoStep(Pending), StateTier(End), AutoStep(End)]), Ran(true))
  {
    DemoRanked();
    FromNew(c, a);
    DemoStep(c, a, Pending);
    var a1 := a.(record := SetStatus(a.record, Pending), newStatus := Pending, trace := a.trace + [StateTier(Pending), AutoStep(Pending)]);
    assert MakeAuto(c, a) == (a1, Stepped(Pending));
    assert Document(Subj(a1)) == Document(Subj(a));
    PendingCascade(c, a1);
    CascadeEvents(a.trace);
  }

  /** The state stage when the state tier passes, no side effect applies and the cascade ends normally. */
  lemma StateStageSucceeds(c: Ctx, a: St, s2: St, fin: St, any: bool)
    requires AutoRanked(c.cfg) && !c.stateless
    requires StateValid(c, a) == (s2, Handled(true, [])) && ApplyCurrentSideEffects(c, s2) == s2
    requires MakeAutoTransitions(c, s2) == (fin, Ran(any))
    ensures StateStage(c, a) == Succeed(if any then fin.(trace := fin.trace + [Saved]) else fin)
  {
  }

  /** After a passed basic tier, the state stage of a staff user's new record with a document. */
  lemma StaffStateStage(c: Ctx, a: St)
    requires c.cfg == DemoConfig && Settled(a) && c.user == Some(Staff) && !c.stateless && c.oldStatus == VNone
    requires StatusOf(a.record) == New && a.newStatus == New && Values.Truthy(Document(Subj(a)))
    ensures var r := StateStage(c, a);
            && r.1 == Finished(true, [])
            && StatusOf(r.0.record) == End
            && r.0.trace == a.trace + [StateTier(New), StateTier(Pending), AutoStep(Pending), StateTier(End), AutoStep(End), Saved]
  {
    DemoRanked();
    StatePasses(c, a);
    var (s2, _) := StateValid(c, a);
    assert ApplyCurrentSideEffects(c, s2) == s2 by {
      assert EffectsFor(c, New) == [];
    }
    var b := s2.(disableRigid := true);
    StaffCascade(c, b);
    var fin := b.(record := SetStatus(SetStatus(b.record, Pending), End), newStatus := End,
                  trace := b.trace + [StateTier(Pending), AutoStep(Pending), StateTier(End), AutoStep(End)]);
    assert MakeAutoTransitions(c, s2) == (fin.(disableRigid := s2.disableRigid), Ran(true));
    StateStageSucceeds(c, a, s2, fin.(disableRigid := s2.disableRigid), true);
    var r := StateStage(c, a);
    assert r.0.record == fin.record && r.0.trace == fin.trace + [Saved] && r.1 == Finished(true, []);
    assert StatusOf(fin.record) == End;
    var tail := [StateTier(Pending), AutoStep(Pending), StateTier(End), AutoStep(End)];
    assert fin.trace == a.trace + [StateTier(New)] + tail;
    StaffTrace(a.trace);
  }

  lemma StaffTrace(t: seq<Event>)
    ensures t + [StateTier(New)] + [StateTier(Pending), AutoStep(Pending), StateTier(End), AutoStep(End)] + [Saved]
            == t + [StateTier(New), StateTier(Pending), AutoStep(Pending), StateTier(End), AutoStep(End), Saved]
  {
  }

  /**
   * A staff user creating a record with a document: the record moves on by
   * itself from `new` to `pending` (via `pend`) and on to `end` (via
   * `complete`), and is saved once.
   */
  lemma StaffCreationCompletes(file: Option<string>)
    requires file.Some? && file.value != ""
    ensures var r := Total(Creating(Some(Staff), file), InitialSt(Fresh(New, file), false, false));
            && r.1 == Finished(true, [])
            && StatusOf(r.0.record) == End
            && r.0.trace == [StateTier(New), StateTier(Pending), AutoStep(Pending), StateTier(End), AutoStep(End), Saved]
  {
    var c := Creating(Some(Staff), file);
    var s0 := InitialSt(Fresh(New, file), false, false);
    DemoRanked();
    var (s1, b) := BasicValidation(c, s0);
    assert Document(Subject(s0.record, AttachedNone)) == VFile(file);
    DemoBasic(Subject(s0.record, AttachedNone));
    assert b == Handled(true, []);
    assert c.skipTransition && !c.stateless && c.oldStatus == VNone;
    StaffStateStage(c, s1);
  }

  /** `state_pending_valid` refuses a user who is not staff. */
  lemma PendingRefused(c: Ctx, a: St)
    requires c.cfg == DemoConfig && Settled(a) && a.newStatus == Pending
    requires c.user.Some? && !c.user.value.isStaff
    ensures StateValid(c, a) == (a.(trace := a.trace + [StateTier(Pending)]), Handled(false, [Message(GenericStateFail)]))
  {
    assert BasicValidation(c, a) == (a, Handled(true, []));
    var s2 := a.(shadow := OldShadow(c), trace := a.trace + [StateTier(a.newStatus)]);
    assert GetPermissions(c, Subj(s2)) == None;
    assert RunHook(c, s2) == ReturnedBool(false);
  }

  /** Without a user, `state_pending_valid` raises. */
  lemma PendingRaises(c: Ctx, a: St)
    requires c.cfg == DemoConfig && Settled(a) && a.newStatus == Pending && c.user.None?
    ensures StateValid(c, a).1 == Escaped(RaisedForeign("AttributeError"))
  {
    assert BasicValidation(c, a) == (a, Handled(true, []));
    var s2 := a.(shadow := OldShadow(c), trace := a.trace + [StateTier(a.newStatus)]);
    assert RunHook(c, s2) == RaisedForeign("AttributeError");
  }

  /**
   * A user who is not staff: `pending` is the first candidate and its state
   * check fails, so the status rolls back and the cascade stops at `new`;
   * `end`, though its guard would pass, is never tried.
   */
  lemma NonStaffCascade(c: Ctx, a: St)
    requires c.cfg == DemoConfig && Settled(a) && StatusOf(a.record) == New
    requires c.user.Some? && !c.user.value.isStaff
    ensures var r := Cascade(c, a);
            && r.1 == Ran(false) && StatusOf(r.0.record) == New && r.0.newStatus == a.newStatus
            && r.0.trace == a.trace + [StateTier(Pending)] && r.0.disableRigid == a.disableRigid
  {
    DemoRanked();
    FromNew(c, a);
    PendingRefused(c, a.(record := SetStatus(a.record, Pending), newStatus := Pending));
  }

  /** Without a user, the cascade of a new record raises out of `state_pending_valid`. */
  lemma NoUserCascade(c: Ctx, a: St)
    requires c.cfg == DemoConfig && Settled(a) && StatusOf(a.record) == New && c.user.None?
    ensures Cascade(c, a).1 == RunRaised(RaisedForeign("AttributeError"))
  {
    DemoRanked();
    FromNew(c, a);
    PendingRaises(c, a.(record := SetStatus(a.record, Pending), newStatus := Pending));
  }

  /** After a passed basic tier, the state stage of a new record with a document for a user who is not staff. */
  lemma NonStaffStateStage(c: Ctx, a: St)
    requires c.cfg == DemoConfig && Settled(a) && c.user.Some? && !c.user.value.isStaff && !c.stateless && c.oldStatus == VNone
    requires StatusOf(a.record) == New && a.newStatus == New
    ensures var r := StateStage(c, a);
            && r.1 == Finished(true, [])
            && StatusOf(r.0.record) == New
            && r.0.trace == a.trace + [StateTier(New), StateTier(Pending)]
  {
    DemoRanked();
    StatePasses(c, a);
    var s2 := a.(trace := a.trace + [StateTier(New)]);
    NoEffects(c, s2);
    var b := s2.(disableRigid := true);
    NonStaffCascade(c, b);
    var (fin, _) := Cascade(c, b);
    QuietStateStage(c, a, s2, fin);
    assert fin.trace == a.trace + [StateTier(New)] + [StateTier(Pending)];
  }

  /** A status with no side effects in the demo: applying them changes nothing. */
  lemma NoEffects(c: Ctx, s: St)
    requires c.cfg == DemoConfig && s.newStatus == New
    ensures ApplyCurrentSideEffects(c, s) == s
  {
    assert EffectsFor(c, New) == [];
    assert SideEffectEvents([], New) == [];
    assert s.trace + [] == s.trace;
  }

  /** A passed state tier whose cascade takes no step: the stage succeeds without saving. */
  lemma QuietStateStage(c: Ctx, a: St, s2: St, fin: St)
    requires AutoRanked(c.cfg) && !c.stateless
    requires StateValid(c, a) == (s2, Handled(true, [])) && ApplyCurrentSideEffects(c, s2) == s2
    requires Cascade(c, s2.(disableRigid := true)) == (fin, Ran(false))
    ensures StateStage(c, a) == Succeed(fin.(disableRigid := s2.disableRigid))
  {
    assert MakeAutoTransitions(c, s2) == (fin.(disableRigid := s2.disableRigid), Ran(false));
    StateStageSucceeds(c, a, s2, fin.(disableRigid := s2.disableRigid), false);
  }

  /** The creation of a record with a document by a user who is not staff: valid, left in `new`, not saved. */
  lemma NonStaffCreationStays(file: Option<string>, perms: set<string>)
    requires file.Some? && file.value != ""
    ensures var r := Total(Creating(Some(User(false, perms)), file), InitialSt(Fresh(New, file), false, false));
            && r.1 == Finished(true, [])
            && StatusOf(r.0.record) == New
            && r.0.trace == [StateTier(New), StateTier(Pending)]
  {
    var c := Creating(Some(User(false, perms)), file);
    var s0 := InitialSt(Fresh(New, file), false, false);
    DemoRanked();
    var (s1, b) := BasicValidation(c, s0);
    assert Document(Subject(s0.record, AttachedNone)) == VFile(file);
    DemoBasic(Subject(s0.record, AttachedNone));
    assert b == Handled(true, []);
    assert c.skipTransition && !c.stateless && c.oldStatus == VNone;
    NonStaffStateStage(c, s1);
  }

  /** The creation of a record with a document without a user: `total_validation` raises. */
  lemma NoUserCreationRaises(file: Option<string>)
    requires file.Some? && file.value != ""
    ensures Total(Creating(None, file), InitialSt(Fresh(New, file), false, false)).1 == Crashed(RaisedForeign("AttributeError"))
  {
    var c := Creating(None, file);
    var s0 := InitialSt(Fresh(New, file), false, false);
    DemoRanked();
    var (s1, b) := BasicValidation(c, s0);
    assert Document(Subject(s0.record, AttachedNone)) == VFile(file);
    DemoBasic(Subject(s0.record, AttachedNone));
    assert b == Handled(true, []);
    assert c.skipTransition && !c.stateless && c.oldStatus == VNone;
    StatePasses(c, s1);
    var (s2, _) := StateValid(c, s1);
    assert ApplyCurrentSideEffects(c, s2) == s2 by {
      assert EffectsFor(c, New) == [];
    }
    NoUserCascade(c, s2.(disableRigid := true));
  }

  /** The context of a manual `pend` of a record from `new` by the given user. */
  function PendingByHand(user: Option<User>, file: Option<string>): Ctx {
    InitialCtx(DemoConfig, user, Fresh(Pending, file), Some(Fresh(New, file)), false)
  }

  /**
   * The transitional tier of a manual `pend`: `can_pend` passes, so the
   * answer is whether the user holds `sample.can_change_to_pending`;
   * afterwards the record is back in `pending` and nothing is attached.
   */
  lemma PendTransitional(perms: set<string>, file: Option<string>, a: St)
    requires StatusOf(a.record) == Pending && a.newStatus == Pending && a.transition.None?
    ensures var c := PendingByHand(Some(User(true, perms)), file);
            var r := Transitional(c, a);
            && r.1 == (if PendPermission in perms then Handled(true, []) else Handled(false, [Message(GenericTransitionFail)]))
            && StatusOf(r.0.record) == Pending && r.0.shadow == Detached && r.0.permissions == None
  {
    var c := PendingByHand(Some(User(true, perms)), file);
    var prior := Fresh(New, file);
    assert c.oldStatus == New && c.oldRecord == Some(prior) && !c.skipPermissions;
    var s1 := a.(record := SetStatus(a.record, New), shadow := Attached(prior), trace := a.trace + [TransitionalTier]);
    var s2 := s1.(permissions := None);
    assert GetPermissions(c, Subj(s1)) == None;
    LookupFirst(Transitions, New, Pending, 3);
    var (s3, idx) := CachedTransition(c, s2);
    assert idx == Some(3);
    var t := Found(Transitions, idx);
    assert t == Some(Transitions[3]);
    assert CanProceed(t, Subj(s3)) == ReturnedBool(true) by {
      assert t.value.conditions == Pend;
      assert Pend[0].run(Subj(s3)) == ReturnedBool(true);
      assert Pend[1..] == [];
      assert ConditionsMet(Pend[1..], Subj(s3)) == ReturnedBool(true);
    }
    assert HasTransitionPerm(t, User(true, perms)) <==> PendPermission in perms;
    assert TransitionalBody(c, a).1 == ReturnedBool(PendPermission in perms);
  }

  /** The basic tier of a `pend` by hand on a record with a document passes and leaves the record as it was. */
  lemma PendBasic(file: Option<string>, perms: set<string>)
    requires file.Some? && file.value != ""
    ensures var r := BasicValidation(PendingByHand(Some(User(true, perms)), file), InitialSt(Fresh(Pending, file), false, false));
            && r.1 == Handled(true, [])
            && r.0.trace == [] && StatusOf(r.0.record) == Pending && r.0.newStatus == Pending
            && r.0.transition.None? && r.0.total.None?
  {
    var c := PendingByHand(Some(User(true, perms)), file);
    var s0 := InitialSt(Fresh(Pending, file), false, false);
    var old0 := Subject(s0.record, OldShadow(c));
    assert Document(old0) == VFile(file);
    DemoBasic(old0);
  }

  /** A staff user without the permission cannot `pend` by hand: the transition's generic failure is reported. */
  lemma PendWithoutPermissionRefused(file: Option<string>, perms: set<string>)
    requires file.Some? && file.value != "" && PendPermission !in perms
    ensures var r := Total(PendingByHand(Some(User(true, perms)), file), InitialSt(Fresh(Pending, file), false, false));
            && r.1 == Finished(false, [Message("generic_transition_fail")])
            && StatusOf(r.0.record) == Pending
            && r.0.trace == [TransitionalTier]
  {
    var c := PendingByHand(Some(User(true, perms)), file);
    var s0 := InitialSt(Fresh(Pending, file), false, false);
    DemoRanked();
    PendBasic(file, perms);
    var (s1, _) := BasicValidation(c, s0);
    assert Total(c, s0) == AfterBasic(c, s1);
    PendTransitional(perms, file, s1);
    var (s2, _) := Transitional(c, s1);
    assert s2.trace == [TransitionalTier];
    assert [Message(GenericTransitionFail)][1..] == [];
    assert MapErrors(DemoConfig, [Message(GenericTransitionFail)]) == MappedTo([Message("generic_transition_fail")]);
  }
}
