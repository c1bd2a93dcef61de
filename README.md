# etools-validator, modelled in Dafny

`etools_validator` is a Django library that validates a model instance (the
*new* record) in three tiers:

- **Basic tier.** Every function in `BASIC_VALIDATIONS` runs, and all of their
  errors are collected.
- **Transitional tier.** This tier runs only when an *old* record is given. It
  checks that the django-fsm transition from the old status to the new one has
  its conditions met, and that the user holds the transition's permission.
- **State tier.** A `state_<status>_valid` hook runs for the new status, when the
  validator defines one.

After the three tiers, the validator applies the `TRANSITION_SIDE_EFFECTS` of a
status change. It then runs the cascade of `AUTO_TRANSITIONS`: it keeps moving
the record to the first reachable status whose guard and state hook pass. If it
moved at least once, it saves the record. Errors are mapped through
`VALID_ERRORS`.

The same package provides:

- the field-comparison utilities used by state hooks (editable, required,
  rigid and rigid-related fields, and `update_object`);
- the adapters that turn "returned a value or raised" into an `(ok, errors)`
  pair;
- the exception classes, in both the current package and the legacy
  `validator` package.

The project is split into modules:

- `Errors` (errors.dfy): the exception classes, their constructor checks and their string forms.
- `Decorators` (decorators.dfy): the adapters of both packages.
- `Values` (values.dfy): Python values as the library sees them, with `==` and truthiness.
- `Records` (records.dfy): the record as a class with `update_object`.
- `FieldUtils` (utils.dfy): the comparison utilities. Each is a specification function plus the read-only (or re-sorting) loop, proved against it.
- `Fsm` (fsm.dfy): transition lookup, `can_proceed` and `has_transition_perm`.
- `Engine` (engine.dfy): the validation session as functions over a state value.
- `Session` (session.dfy): the class `CompleteValidation` itself. Its fields are updated in place, and every method is proved equal to the `Engine` function that specifies it.
- `Demo` (demo.dfy): the demo application's `DemoModel` and `DemoModelValidation` as constant configuration, with whole validations of it.

The validation functions, FSM conditions, state hooks, side effects and the
permissions class are callbacks. The model represents them as total functions
of what they can see. The validation functions, conditions and hooks each return
an `Outcome`: a returned bool, another returned value, a validator exception or
a foreign exception. A side effect returns the field values it writes onto the
record, and the permissions class returns the user's permissions; neither of
these two can raise in the model.

The trace field of the session records what the source does to the outside
world: tiers entered, auto steps, side-effect calls and `save`.

The cascade's `while` loop has no bound in the source. The model requires
`AUTO_TRANSITIONS` to be acyclic: `Engine.AutoRanked` gives every listed target
a lower rank than its source.

A transition's target is either a list or a string. As in Python, `target in
transition.target` is list membership for a list and a substring test for a
string (`Fsm.StringTargetIsSubstring`, with the instance `Fsm.StringTargetMatchesSubstring`).

## Model

| member | source | states |
|---|---|---|
| Errors.DetailsOf | src/etools_validator/decorators.py:17-18 | the reported details hold the exception's code, description and extra map |
| Errors.NewDetailed | tests/test_decorators.py:22-24 | a detailed exception built from a code and a description has an empty extra map |
| Errors.Make | src/etools_validator/exceptions.py:17-22 | `TransitionError` and `StateValidationError` are `_BaseStateError`s carrying the given message list; the class built is the one asked for |
| Errors.NewStateError | src/etools_validator/exceptions.py:4-11 | omitted or falsy message becomes `[]`; a list is kept; a truthy non-list raises `TypeError` (iff) |
| Errors.LegacyNewStateError | validator/exceptions.py:13-19 | default `[]`; a list is kept; every explicit non-list, `None` and `""` included, raises `TypeError` (iff) |
| Errors.NewBasicError | src/etools_validator/exceptions.py:25-27 | `BasicValidationError` keeps its message, `""` by default |
| Errors.ToString | src/etools_validator/exceptions.py:13-14 | the string of a state error is its messages joined with newlines; of a basic error, its message |
| Errors.SplitJoin | src/etools_validator/exceptions.py:13-14 | splitting the joined string at newlines gives back the messages, in order and with duplicates, when none contains a newline |
| Errors.LegacyToString | validator/exceptions.py:21-23 | legacy `six.text_type(e)` under Python 3: a state error with any message raises `AttributeError` (iff); otherwise the text is the current string form (`""` for no messages, a basic error's message) |
| Errors.LegacyStringRaises | tests/test_exceptions.py:48-58 | on the legacy test's four messages the legacy string form raises, while the current one gives the expected newline-joined text |
| Errors.JoinLength | src/etools_validator/exceptions.py:13-14 | the joined string has every message character plus one separator between consecutive messages |
| Decorators.Adapt | src/etools_validator/decorators.py:11-57 | ok iff no errors; a failure has exactly one error; a raise is never ok; whatever escapes is the raised exception |
| Decorators.ErrorData | src/etools_validator/decorators.py:11-25 | `True` gives `(True, [])`; any other return gives the function name; a basic error gives its string; a detailed basic error gives its details; exactly the other exceptions escape |
| Decorators.TransitionErrorData | src/etools_validator/decorators.py:28-42 | the same, with `generic_transition_fail` and the transition kinds |
| Decorators.StateErrorData | src/etools_validator/decorators.py:45-59 | the same, with `generic_state_validation_fail` and the state kinds |
| Decorators.LegacyAdapt | validator/decorators.py:15-54 | ok iff no errors, one error on failure; whatever escapes is an exception; every detailed exception escapes |
| Decorators.ErrorString | validator/decorators.py:15-26 | legacy basic adapter: `True` ok, other returns give the name, `BasicValidationError` gives its text, exactly the rest escapes, unchanged |
| Decorators.TransitionErrorString | validator/decorators.py:29-40 | legacy transition adapter: other returns give `generic_transition_fail`; a caught `TransitionError` gives `""` when it has no messages and otherwise raises `AttributeError` from `six.text_type(e)`; every other exception escapes (iff) |
| Decorators.StateErrorString | validator/decorators.py:43-54 | legacy state adapter: other returns give `generic_state_validation_fail`; a caught `StateValidationError` gives `""` when it has no messages and otherwise raises `AttributeError` from `six.text_type(e)`; every other exception escapes (iff) |
| Decorators.LegacyAgrees | validator/decorators.py:15-54 | the legacy and current adapters agree on every outcome except two: a raised detailed exception, which only the current ones catch, and a caught state error with messages, where the legacy report raises `AttributeError` and the current one is the joined messages |
| Decorators.FirstUnresolved | src/etools_validator/validation.py:8 | a name reported by `from m import ...` is requested and not defined; with all names defined nothing is reported |
| Decorators.ValidationImportFails | src/etools_validator/validation.py:8 | the import of `validation.py` fails on `error_string` against its own package's decorators and succeeds against the legacy ones |
| Values.PyEqSymmetric | src/etools_validator/utils.py:62 | Python `==` on field values is symmetric |
| Values.PyEqReflexive | src/etools_validator/utils.py:62 | a value equals itself except an unresolvable relation and a related manager whose owner has no primary key (Django then compares owners by identity) |
| Values.ManagersOfOneOwnerEqual | src/etools_validator/utils.py:62 | two managers of one relation of one saved owner are equal whatever rows they hold; managers of different relations are not |
| Values.GetOrNone | src/etools_validator/utils.py:118-126 | a missing attribute or a relation raising `ObjectDoesNotExist` reads as `None`; otherwise the stored value |
| Values.GetStrict | src/etools_validator/utils.py:37-40 | a plain `getattr` yields the value, raises `DoesNotExist` for an unresolved relation, and `AttributeError` exactly for a missing name |
| Records.ApplyUpdatesSpec | src/etools_validator/utils.py:143-148 | `update_object` finishes iff every list goes to a relation; then every scalar key holds its value and every list key's manager holds the given rows, keeping its relation and owner; unnamed fields are unchanged |
| Records.ApplyUpdatesApplied | src/etools_validator/utils.py:143-148 | after a finished update every key of the mapping is present and holds what its entry assigns |
| Records.Record.UpdateObject | src/etools_validator/utils.py:143-148 | the loop leaves the attributes `ApplyUpdates` specifies and touches nothing else |
| FieldUtils.FirstFailingSpec | src/etools_validator/utils.py:27-31 | the early-exit loop passes iff every field passes, otherwise reports the first failing field (or its raise) |
| FieldUtils.EditableSpec | src/etools_validator/utils.py:24-26 | with no `old_instance` the result is `(False, fields)`, the whole list |
| FieldUtils.EditableFirstDifference | src/etools_validator/utils.py:27-31 | `(True, None)` iff every field equals the old one; otherwise the first differing field |
| FieldUtils.CheckEditableFields | src/etools_validator/utils.py:24-31 | the loop computes `EditableSpec` |
| FieldUtils.MissingFields | src/etools_validator/utils.py:41-49 | exactly the listed fields whose value is not present, in list order |
| FieldUtils.RequiredFromMissing | src/etools_validator/utils.py:34-53 | the loop from any point reports the accumulated missing fields plus the rest, or `(True, None)` |
| FieldUtils.RequiredReportsAllMissing | src/etools_validator/utils.py:34-53 | `(False, missing)` with every missing field in order; `(True, None)` when none is missing |
| FieldUtils.RequiredStopsAtUnresolved | src/etools_validator/utils.py:37-40 | the first field whose access raises `ObjectDoesNotExist` is returned as a bare name |
| FieldUtils.RequiredFromStops | src/etools_validator/utils.py:37-40 | the same from any point of the loop |
| FieldUtils.CheckRequiredFields | src/etools_validator/utils.py:34-53 | the loop with its appended list computes `RequiredSpec` |
| FieldUtils.FieldComparison | src/etools_validator/utils.py:56-64 | files compare by `name`, a NULL name differing from a blank one; a file against a non-file (other than an instance) is equal iff its name is NULL; everything else by Python `==` |
| FieldUtils.NullAndBlankFilesDiffer | src/etools_validator/utils.py:56-60 | a NULL file name and a blank one are both falsy, yet compare unequal either way round; a NULL-named file equals None |
| FieldUtils.FieldComparisonKeepsTypes | src/etools_validator/utils.py:62 | the string `"1"` and the integer `1` are unequal, either way round |
| FieldUtils.CheckRigidModelInstance | src/etools_validator/utils.py:67-88 | two instances are compared field by field, one level deep; anything else with `==` |
| FieldUtils.FieldComparisonReflexive | src/etools_validator/utils.py:56-64 | a resolved field value compares equal to itself unless it is a manager of an owner without a primary key |
| FieldUtils.RigidInstanceSelf | src/etools_validator/utils.py:67-88 | an instance is rigid against itself iff none of its declared fields is a manager of an owner without a primary key |
| FieldUtils.RigidInstanceWithChildren | tests/demoproject/demo/sample/models.py:62-64 | a saved row with a `children` reverse relation is rigid against itself, whatever children it holds |
| FieldUtils.InsertById | src/etools_validator/utils.py:102-103 | inserting adds exactly the row |
| FieldUtils.SortById | src/etools_validator/utils.py:102-103 | sorting by id is a permutation |
| FieldUtils.SortByIdSorted | src/etools_validator/utils.py:102-103 | the sorted list is ordered by id and a permutation of the input |
| FieldUtils.SortByIdIdentity | src/etools_validator/utils.py:102-103 | an already sorted list is left as it is |
| FieldUtils.SortByIdIdempotent | src/etools_validator/utils.py:102-103 | sorting twice is sorting once |
| FieldUtils.RigidRelatedSpec | src/etools_validator/utils.py:91-109 | no snapshot (or old record `None`) ⇒ true; different lengths ⇒ false; both empty ⇒ true; otherwise a pairwise comparison of both lists sorted by id; it raises iff the field is not a related manager or no `old_instance` is attached (a missing field or attribute: `AttributeError`; an unresolved one: `DoesNotExist`) |
| FieldUtils.CheckRigidRelated | src/etools_validator/utils.py:91-109 | the method computes `RigidRelatedSpec`; the record is untouched; the snapshot is re-sorted in place |
| FieldUtils.ComparePairwise | src/etools_validator/utils.py:104-109 | the zip loop is true iff every pair agrees field by field |
| FieldUtils.ResortedAfterRelated | src/etools_validator/utils.py:103 | re-sorting snapshots in place keeps them re-sorted versions of the originals |
| FieldUtils.RelatedIgnoresResort | src/etools_validator/utils.py:91-109 | an earlier in-place sort of a snapshot does not change later answers |
| FieldUtils.RigidFieldsSpec | src/etools_validator/utils.py:112-115 | with no old state anywhere the result is `(True, None)` |
| FieldUtils.RigidFieldsSkipRelations | src/etools_validator/utils.py:127-131 | a collection-valued field passes when `related` is false |
| FieldUtils.RigidFieldsFirstOffender | src/etools_validator/utils.py:116-140 | `(True, None)` iff every field passes; otherwise the first offending field |
| FieldUtils.CheckRigidFields | src/etools_validator/utils.py:112-140 | the loop computes `RigidFieldsSpec`; attributes are untouched; snapshots are at most re-sorted |
| Fsm.SetStatus | src/etools_validator/validation.py:113 | setting the status changes no other field |
| Fsm.Lookup | src/etools_validator/validation.py:157-162 | the first declared transition with that source whose target contains the status; none when no transition matches |
| Fsm.LookupFirst | src/etools_validator/validation.py:157-162 | a transition that matches with no earlier match is exactly the one the lookup returns |
| Fsm.StringTargetIsSubstring | src/etools_validator/validation.py:161 | a string target matches a string status iff the status is a substring of it; a non-string status never matches it |
| Fsm.StringTargetMatchesSubstring | src/etools_validator/validation.py:161 | with a string target, a status that is a substring of it matches |
| Fsm.ConditionsMet | src/etools_validator/validation.py:96-99 | `can_proceed` returns a bool or raises |
| Fsm.ConditionsMetFirst | src/etools_validator/validation.py:96-99 | the conditions pass iff every guard answers truthily; otherwise the first failing guard decides (False, or its raise) |
| Fsm.CanProceed | src/etools_validator/validation.py:96-99 | no transition passes; otherwise its conditions decide |
| Engine.Accumulate | src/etools_validator/validation.py:244 | the errors are appended after the earlier ones, and ok iff the whole list is empty |
| Engine.BasicErrors | src/etools_validator/validation.py:241-247 | ok iff no errors; an escaped exception is a raise |
| Engine.AccumulateTwice | src/etools_validator/validation.py:244 | appending in two steps is appending the concatenation |
| Engine.BasicRunsAll | src/etools_validator/validation.py:241-247 | every function runs; ok iff all pass; every failure's error is reported; every error comes from some function; at most one per function |
| Engine.BasicValidation | src/etools_validator/validation.py:232-247 | a cached result is reused; a fresh result is cached, is ok iff empty, and leaves `old_instance` detached and `permissions` None; status and trace are untouched |
| Engine.CachedTransition | src/etools_validator/validation.py:106-108 | the transition is looked up from `old_status` to `new_status` once and then reused |
| Engine.Transitional | src/etools_validator/validation.py:110-134 | `new_status` is unchanged; the tier is recorded; without an old record it raises `AttributeError` |
| Engine.TransitionalNormalReturn | src/etools_validator/validation.py:121-134 | the answer is conditions AND permission; with no user, the conditions alone; afterwards the status is back at `new_status`, `old_instance` detached, `permissions` None, other fields unchanged |
| Engine.TransitionalGuardRaises | src/etools_validator/validation.py:110-121 | a raising guard is answered by the adapter, and the status stays at the old one with `old_instance` attached |
| Engine.StateValid | src/etools_validator/validation.py:136-155 | record and `new_status` unchanged; success records the state tier; ok iff no errors; one error on failure |
| Engine.StateValidAfterBasicFailure | src/etools_validator/validation.py:138-139 | a failed basic tier yields the generic state failure (a tuple is not `True`) and changes nothing |
| Engine.StateValidHook | src/etools_validator/validation.py:141-155 | a missing hook counts as valid; otherwise the hook's answer, as the state adapter reads it |
| Engine.FilterChoices | src/etools_validator/validation.py:175-179 | exactly the listed statuses that are declared choices, in listed order |
| Engine.FilterChoicesAppend | src/etools_validator/validation.py:175-179 | the filter keeps the listed order: filtering a concatenation concatenates the filtered parts |
| Engine.FilterChoicesSnoc | src/etools_validator/validation.py:175-179 | one more listed status is kept at the end iff it is a declared choice |
| Engine.FilterChoicesCount | src/etools_validator/validation.py:175-179 | a declared choice is kept as many times as it is listed; any other status never |
| Engine.Candidates | src/etools_validator/validation.py:172-179 | every candidate is a declared choice listed in `AUTO_TRANSITIONS` for the current status |
| Engine.AttemptUndefinedPasses | src/etools_validator/validation.py:97-98 | a candidate with no defined transition passes its guard |
| Engine.Attempts | src/etools_validator/validation.py:181-190 | the guard of every candidate, in order |
| Engine.PickFirst | src/etools_validator/validation.py:181-196 | a chosen status is one of the candidates |
| Engine.PickFirstSpec | src/etools_validator/validation.py:181-196 | the first passing candidate wins; all earlier ones failed; no choice iff all fail; a raise comes after failures only |
| Engine.FirstAvailable | src/etools_validator/validation.py:170-196 | a chosen status is a candidate of the current status |
| Engine.FirstAvailableFirstPassing | src/etools_validator/validation.py:170-196 | the chosen status is the first candidate whose guard passes; none iff every guard fails |
| Engine.UndeclaredNeverChosen | src/etools_validator/validation.py:175-179 | a status outside the declared choices is never chosen |
| Engine.SideEffectEvents | src/etools_validator/validation.py:214-215 | one call per side effect, in order |
| Engine.RunSideEffects | src/etools_validator/validation.py:214-215 | every side effect is called in order; nothing but the record's fields changes |
| Engine.EffectsRecord | src/etools_validator/validation.py:214-215 | running side effects never changes the record's status or its snapshots |
| Engine.TryStep | src/etools_validator/validation.py:203-216 | trying an auto target moves the status to it; a refused state check rolls the status back and stops; a passed one records the step and runs its side effects; the rigid-check flag and the cached total verdict stay as they were |
| Engine.MakeAuto | src/etools_validator/validation.py:198-216 | a step moves record and `new_status` to an auto target and then runs its side effects; a refused step rolls both back |
| Engine.MakeAutoRollsBack | src/etools_validator/validation.py:208-211 | after a failed state check both statuses are restored, and no side effect or step is recorded |
| Engine.MakeAutoTrace | src/etools_validator/validation.py:198-216 | a step never saves, and records an auto step iff it stepped |
| Engine.SinceCompose | src/etools_validator/validation.py:225-226 | two save-free stretches compose, and one has a step iff either does |
| Engine.CascadeTrace | src/etools_validator/validation.py:218-230 | the cascade never saves; it reports a transition iff it made one; the rigid flag and the total cache are kept |
| Engine.RigidCheckRestored | src/etools_validator/validation.py:221-229 | `disable_rigid_check` is restored after the loop, and stays set if the loop raised |
| Engine.ApplyCurrentSideEffects | src/etools_validator/validation.py:252-271 | no status change ⇒ nothing happens; otherwise the side effects of `new_status` run in order; the status is kept |
| Engine.MapErrors | src/etools_validator/validation.py:249-250 | a mapped list has the length of the input |
| Engine.MapErrorsSpec | src/etools_validator/validation.py:249-250 | known codes are replaced and unknown ones kept, in order; without `VALID_ERRORS` a non-empty list raises `AttributeError`; a details dictionary raises `TypeError` |
| Engine.FailKeepsErrors | src/etools_validator/validation.py:275-286 | a failed tier is not ok, reports one mapped error per error, and adds no event |
| Engine.SavesAfterQuiet | src/etools_validator/validation.py:294-295 | appending the save to a save-free stretch counts one save |
| Engine.MakeAutoTransitionsTrace | src/etools_validator/validation.py:218-230 | the cascade appends to the trace without saving and reports a transition iff one was made |
| Engine.StateThenEffects | src/etools_validator/validation.py:283-292 | a passed state tier and the current side effects make no step and no save |
| Engine.StateStageStops | src/etools_validator/validation.py:283-286 | a failed or raising state tier stops before side effects, cascade and save |
| Engine.StateStageTrace | src/etools_validator/validation.py:283-296 | `save` is called once iff the result is `(True, [])` and a step was made, else never; stateless passes untouched |
| Engine.TransitionalFirst | src/etools_validator/validation.py:278-281 | the transitional tier adds no save and no step |
| Engine.AfterBasicTrace | src/etools_validator/validation.py:278-296 | the transitional tier runs iff there is an old record and the session is not stateless; saves as above |
| Engine.TotalPipeline | src/etools_validator/validation.py:273-296 | a basic failure returns its mapped errors; the transitional tier runs iff basic passed, old is given and not stateless; stateless does nothing more and passes; one save iff a step was made and all passed; ok iff no errors |
| Engine.TotalCached | src/etools_validator/validation.py:273-274 | a finished result is cached and asking again returns it unchanged; a raise caches nothing |
| Engine.StateStageCached | src/etools_validator/validation.py:283-296 | the state stage caches its finished result and nothing when it raises |
| Session.CompleteValidation.BasicValidation | src/etools_validator/validation.py:232-247 | the `errors +=` loop leaves the state and answer of `Engine.BasicValidation` |
| Session.CompleteValidation.FsmDefinedTransition | src/etools_validator/validation.py:157-162 | the loop returns the first matching transition (`Fsm.Lookup`) |
| Session.CompleteValidation.Transition | src/etools_validator/validation.py:106-108 | the cached property, as `Engine.CachedTransition` |
| Session.CompleteValidation.TransitionalValidation | src/etools_validator/validation.py:110-134 | the in-place updates produce `Engine.Transitional` |
| Session.CompleteValidation.StateValid | src/etools_validator/validation.py:136-155 | the in-place updates produce `Engine.StateValid` |
| Session.CompleteValidation.FirstAvailableAutoTransition | src/etools_validator/validation.py:170-196 | the loop returns `Engine.FirstAvailable` and changes nothing |
| Session.CompleteValidation.RunSideEffects | src/etools_validator/validation.py:214-215 | the loop produces `Engine.RunSideEffects` |
| Session.CompleteValidation.TryStep | src/etools_validator/validation.py:203-216 | produces `Engine.TryStep`: the status moves, and is rolled back when the state check refuses |
| Session.CompleteValidation.MakeAutoTransition | src/etools_validator/validation.py:198-216 | produces `Engine.MakeAuto`, including the roll-back |
| Session.CompleteValidation.MakeAutoTransitions | src/etools_validator/validation.py:218-230 | the `while` loop produces `Engine.MakeAutoTransitions` |
| Session.CompleteValidation.ApplyCurrentSideEffects | src/etools_validator/validation.py:252-271 | produces `Engine.ApplyCurrentSideEffects` |
| Session.CompleteValidation.CacheFailure | src/etools_validator/validation.py:276 | maps and caches a failure as `Engine.Fail` |
| Session.CompleteValidation.TotalValidation | src/etools_validator/validation.py:273-296 | the whole pipeline produces `Engine.Total` |
| Session.CompleteValidation.IsValid | src/etools_validator/validation.py:298-300 | the ok half of `total_validation`, or the exception it raised |
| Session.CompleteValidation.Errors | src/etools_validator/validation.py:302-304 | the errors half of `total_validation`, or the exception it raised |
| Session.ScalarsApply | src/etools_validator/utils.py:143-148 | a mapping without list values is applied in full |
| Session.Normalize | src/etools_validator/validation.py:26-66 | a truthy dict `old` raises `TypeError`; an instance `new` is kept with `old`; a dict without id keeps `old`; a dict with id always has an old record; no class and no `VALIDATION_CLASS` raises `AttributeError`; an unknown label raises `TypeError` |
| Session.NormalizeAppliesDict | src/etools_validator/validation.py:46-66 | every key of the dict holds its value; without an id the record is a copy of `old` with its other fields and snapshots |
| Session.NormalizeById | src/etools_validator/validation.py:46-54 | a list id raises `TypeError`; an unknown id raises `DoesNotExist`; otherwise the stored row updated; `old` is the given record when its id matches, else the stored row |
| Session.InitialCtx | src/etools_validator/validation.py:74-79 | `skip_transition` iff no old record, `skip_permissions` iff no user |
| Session.Open | src/etools_validator/validation.py:17-84 | the constructor refuses exactly what `Normalize` refuses; otherwise a fresh session with `new_status`/`old_status` set, nothing cached, `permissions` None |
| Demo.DemoRanked | tests/demoproject/demo/sample/models.py:16-18 | the demo's `AUTO_TRANSITIONS` has no cycle |
| Demo.DemoBasic | tests/demoproject/demo/sample/validations.py:8-14 | the demo's basic tier passes iff the document is truthy, else reports `demo_validation` |
| Demo.NoDocumentFailsBasic | tests/demoproject/demo/sample/validations.py:8-17 | without a document (a NULL or a blank name) validation fails with the unmapped `demo_validation` and does nothing else |
| Demo.FromNew | tests/demoproject/demo/sample/models.py:16-18 | from `new`, `pending` is chosen (`pend` has no failing guard) |
| Demo.FromPending | tests/demoproject/demo/sample/models.py:28-44 | from `pending` with a document, `end` is chosen |
| Demo.FromEnd | tests/demoproject/demo/sample/models.py:16-18 | from `end` there is no auto transition |
| Demo.StatePasses | tests/demoproject/demo/sample/validations.py:19-22 | the state tier passes for `new` and `end`, and for `pending` with a staff user |
| Demo.StepTo | src/etools_validator/validation.py:198-216 | a chosen target whose state tier passes, with no side effects, is one step |
| Demo.DemoStep | tests/demoproject/demo/sample/models.py:16-55 | one demo step to the chosen status |
| Demo.PendingCascade | tests/demoproject/demo/sample/models.py:16-44 | from `pending` with a document the cascade completes to `end` and then stops |
| Demo.StaffCascade | tests/demoproject/demo/sample/models.py:16-55 | a staff user's new record with a document cascades new → pending → end |
| Demo.StateStageSucceeds | src/etools_validator/validation.py:283-296 | a passed state tier and a finished cascade succeed, saving iff a step was made |
| Demo.StaffStateStage | tests/demoproject/demo/sample/models.py:16-55 | the state stage of that record ends in `end` with one save |
| Demo.StaffCreationCompletes | tests/demoproject/demo/sample/validations.py:12-22 | a staff user's new record with a document is valid, ends in `end` and is saved once |
| Demo.PendingRefused | tests/demoproject/demo/sample/validations.py:19-22 | the `pending` hook refuses a non-staff user with the generic state failure |
| Demo.PendingRaises | tests/demoproject/demo/sample/validations.py:19-20 | without a user the `pending` hook raises `AttributeError` |
| Demo.NonStaffCascade | src/etools_validator/validation.py:207-211 | for a non-staff user the cascade tries `pending`, rolls back and stops in `new`; `end` is never tried |
| Demo.NoUserCascade | src/etools_validator/validation.py:207 | without a user the cascade raises out of the `pending` hook |
| Demo.NonStaffStateStage | tests/demoproject/demo/sample/validations.py:12-22 | for a non-staff user the state stage of a new record passes, tries `pending` once and leaves the record in `new` |
| Demo.NonStaffCreationStays | tests/demoproject/demo/sample/validations.py:12-22 | a non-staff user's new record with a document is valid, stays in `new`, and is not saved |
| Demo.NoUserCreationRaises | tests/demoproject/demo/sample/validations.py:19-20 | without a user the validation of a new record with a document raises |
| Demo.PendTransitional | tests/demoproject/demo/sample/models.py:46-55 | moving `new` → `pending` by hand passes the transitional tier iff the user holds `sample.can_change_to_pending`; the status is restored |
| Demo.PendBasic | tests/demoproject/demo/sample/validations.py:8-9 | the basic tier of a record with a document passes and leaves the record untouched |
| Demo.PendWithoutPermissionRefused | tests/demoproject/demo/sample/models.py:46-51 | without that permission the result is `generic_transition_fail`, the record stays `pending`, and only the transitional tier runs |

## Left out

- Django and django-fsm internals are not modelled: `apps.get_model`, `objects.get`, `copy.deepcopy`, `_meta` field introspection (`get_all_field_names`), `save` and `get_all_FIELD_transitions`. The class registry is a map from label to class. Stored rows are a map from id to record, and ids are matched without Django's type coercion: `objects.get(id="5")` finds row 5 in Django and raises `DoesNotExist` in the model. A row's field names are given with the row. `save` is an event in the trace.
- The permissions class (src/etools_validator/validation.py:86-94) is a function of the user and the record. The permission structure it receives is left out.
- Engine.GetPermissions: cannot raise. In the source `get_permissions` calls `self.new.permission_structure()` and the permissions class (src/etools_validator/validation.py:88-93), and either can raise, for instance `AttributeError` on a model without `permission_structure`. Such a raise would leave `basic_validation`, `transitional_validation` or `state_valid` (src/etools_validator/validation.py:118, 145, 240) with `old_instance` still attached and nothing cached; that path is not modelled.
- `has_transition_perm` is modelled as "the transition's permission is among the user's permissions". django's superuser and group rules are left out.
- The logging at src/etools_validator/validation.py:187-189 is left out.
- The mixins of both packages (DRF request parsing and saving) are left out. The `<rel>_old` snapshots they store are an input field of the record.
- Values.PyEq: model instances are equal when their primary keys are; Django's `Model.__eq__` also compares the concrete class and compares instances without a primary key by identity. Rows always carry a key, and the core only compares two values of one field, which share a class. A file compared with a model instance that has a `name` field compares the two names in Django and is unequal in the model (`field_comparison` itself does take the instance's name). A related manager is identified by its relation name and its owner's primary key. The name stands for the manager class Django compares, and the owner's concrete model class is not compared. An owner without a primary key compares by identity in Django. Object identity is not tracked, so two such managers are always unequal, even when they are reads of one object.
- Records.ApplyUpdates, Session.Open: `getattr(obj, k).set(v)` (src/etools_validator/utils.py:145-146) writes the relation to the database at once, and the constructor calls it (src/etools_validator/validation.py:53, 63). The model only replaces the manager's rows on the record in memory. It records no event for that write and does not model that the write persists when the validation fails.
- Statuses are compared structurally, as `Value`s. A status missing from the record reads as `None`.
- Engine.RunSideEffects: a side effect can change any field except `status`. An exception raised by a side effect is not modelled.
- The aliasing of `new` and `old` is not modelled: `old` is kept as a value. The source never writes to `old`, but a caller passing the same object twice would see `new`'s updates in `old`.
- A dict `old` counts as given only when it is non-empty (Python truthiness). An empty dict is treated like no `old`.
- `getattr(self, 'VALIDATION_CLASS')` raising, and `apps.get_model` raising `LookupError` for an unknown label, are modelled. A malformed label (`ValueError` in Django) is treated like an unknown one.
- `instance_class(**new)` builds the record from the dict's entries only. Model defaults and constructor errors for unknown keywords are left out. A list value there is a `TypeError`.
- A stateless session leaves `new_status` and `old_status` unset in the source. The model stores `None` for both and never reads them.
- Every hook name is `state_<status>_valid`, looked up by the exact status value. Two statuses whose string forms coincide are not merged.
- The detailed exception classes (`DetailedBasicValidationError` and the others) are modelled from their use in src/etools_validator/decorators.py and tests/test_decorators.py. The src/etools_validator/exceptions.py of this snapshot does not define them.
- Errors.LegacyToString: models the Python 3 interpreter. Under Python 2 the decode succeeds on ASCII messages and raises `UnicodeEncodeError` on non-ASCII ones; that is not modelled.
- Engine.BasicValidation, Engine.StateValid, Engine.TransitionalNormalReturn: their "record unchanged" and "other fields unchanged" hold because the basic validation functions, FSM conditions, state hooks and the permissions class (Engine.BasicErrors, Fsm.ConditionsMet, Engine.RunHook, Engine.GetPermissions) are modelled as pure functions of what they see. In the source they receive `self.new` and may write to it or to the old record's snapshots, as `check_rigid_related` does when a state hook calls it (src/etools_validator/utils.py:103). Those writes are not captured.
- Fsm.HasTransitionPerm: models a transition `permission` given as a permission name. django-fsm also accepts a callable of the instance and the user, as tests/demoproject/demo/sample/permissions.py:1-4 defines; that form is not modelled.
- Engine.MapErrors: its own contract states only the length. The full element-wise mapping and the error cases are in Engine.MapErrorsSpec.

## Findings

| source | as written | input that shows it | evidently intended | confidence | as-written member | corrected member |
|---|---|---|---|---|---|---|
| src/etools_validator/validation.py:8 | imports `error_string`, `state_error_string` and `transition_error_string` from the package's own decorators module, which defines only the `*_data` adapters | importing the module: the first name, `error_string`, is not defined, so the import raises `ImportError` | the current `error_data`, `transition_error_data` and `state_error_data`. The engine uses these; they agree with the legacy adapters except that they also catch the detailed exceptions, and report a caught state error with messages where the legacy string form raises | high (not executed) | Decorators.ValidationImportFails | Decorators.LegacyAgrees |
| validator/exceptions.py:23 | the legacy `__str__` calls `msg.decode("utf-8")` on every message | `six.text_type(_BaseStateError(['hello world']))` under Python 3 (`str` has no `decode`) raises `AttributeError`; so do the legacy transition and state adapters when they catch such an error (validator/decorators.py:34, 48). Under Python 2 the non-ASCII messages of tests/test_exceptions.py:48-58 raise `UnicodeEncodeError` instead | the messages joined with newlines, as tests/test_exceptions.py:45-58 expects and src/etools_validator/exceptions.py:13-14 does | high (not executed) | Errors.LegacyToString | Errors.ToString |
