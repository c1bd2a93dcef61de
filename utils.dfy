/**
 * The field-comparison utilities of `etools_validator.utils`: editable,
 * required and rigid field checks over a record and the old state attached
 * to it, generic value comparison, and the one-level comparison of related
 * rows. Each check is a method that reads the record field by field with an
 * early exit, proved equal to a function of the record's state; the
 * functions carry the properties.
 */
module FieldUtils {
  import opened Values
  import opened Records

  /** The second element of the tuples the utilities return: None, a field name or a list of names. */
  datatype Payload = NoPayload | Field(name: string) | Fields(names: seq<string>)

  /** A utility's answer, or the exception it raised. */
  datatype Check = Returns(ok: bool, payload: Payload) | Raises(exception: string)

  /** A per-field answer: unchanged/changed, or the exception reading it raised. */
  datatype BoolCheck = Answer(b: bool) | Fails(exception: string)

  const DoesNotExistError: string := "ObjectDoesNotExist"
  const AttributeError: string := "AttributeError"

  function AccessError(a: Access): string
    requires !a.Got?
  {
    if a.RaisesDoesNotExist? then DoesNotExistError else AttributeError
  }

  /** A field `getattr` reads without raising. */
  predicate Readable(attrs: map<string, Value>, f: string) {
    f in attrs && !attrs[f].VUnresolved?
  }

  // ---------------------------------------------------------------------
  // First failing field: the early-exit loop shared by the editable and
  // the rigid checks.
  // ---------------------------------------------------------------------

  /** Walks the per-field answers in order and reports the first field that fails. */
  function FirstFailing(fields: seq<string>, vs: seq<BoolCheck>): Check
    requires |vs| == |fields|
  {
    if fields == [] then Returns(true, NoPayload)
    else match vs[0]
      case Fails(e) => Raises(e)
      case Answer(b) => if !b then Returns(false, Field(fields[0])) else FirstFailing(fields[1..], vs[1..])
  }

  /** `FirstFailing` succeeds iff every field passes, and otherwise names the first field that does not. */
  lemma {:induction false} FirstFailingSpec(fields: seq<string>, vs: seq<BoolCheck>)
    requires |vs| == |fields|
    ensures FirstFailing(fields, vs) == Returns(true, NoPayload) <==> forall i :: 0 <= i < |vs| ==> vs[i] == Answer(true)
    ensures forall i :: 0 <= i < |vs| && vs[i] != Answer(true) && (forall j :: 0 <= j < i ==> vs[j] == Answer(true)) ==>
              FirstFailing(fields, vs) == (if vs[i].Fails? then Raises(vs[i].exception) else Returns(false, Field(fields[i])))
  {
    if fields != [] && vs[0] == Answer(true) {
      FirstFailingSpec(fields[1..], vs[1..]);
      forall i | 0 <= i < |vs| && vs[i] != Answer(true) && (forall j :: 0 <= j < i ==> vs[j] == Answer(true))
        ensures FirstFailing(fields, vs) == (if vs[i].Fails? then Raises(vs[i].exception) else Returns(false, Field(fields[i])))
      {
        assert i > 0;
        assert vs[1..][i - 1] == vs[i] && fields[1..][i - 1] == fields[i];
        assert forall j :: 0 <= j < i - 1 ==> vs[1..][j] == vs[j + 1];
      }
      assert (forall i :: 0 <= i < |vs| ==> vs[i] == Answer(true)) <==> (forall i :: 0 <= i < |vs| - 1 ==> vs[1..][i] == Answer(true)) by {
        if forall i :: 0 <= i < |vs| - 1 ==> vs[1..][i] == Answer(true) {
          forall i | 0 <= i < |vs| ensures vs[i] == Answer(true) { if i > 0 { assert vs[i] == vs[1..][i - 1]; } }
        }
      }
    }
  }

  // ---------------------------------------------------------------------
  // check_editable_fields
  // ---------------------------------------------------------------------

  /** One field of `check_editable_fields`: both reads are plain `getattr`, so a missing or unresolvable value raises. */
  function EditableVerdict(attrs: map<string, Value>, prior: map<string, Value>, f: string): BoolCheck
  {
    var a := GetStrict(attrs, f);
    if !a.Got? then Fails(AccessError(a))
    else
      var b := GetStrict(prior, f);
      if !b.Got? then Fails(AccessError(b)) else Answer(PyEq(a.v, b.v))
  }

  function EditableVerdicts(attrs: map<string, Value>, prior: map<string, Value>, fields: seq<string>): (vs: seq<BoolCheck>)
    ensures |vs| == |fields| && forall i :: 0 <= i < |fields| ==> vs[i] == EditableVerdict(attrs, prior, fields[i])
  {
    seq(|fields|, i requires 0 <= i < |fields| => EditableVerdict(attrs, prior, fields[i]))
  }

  /** `check_editable_fields(obj, fields)`. */
  function EditableSpec(s: RecordState, sh: Shadow, fields: seq<string>): (r: Check)
    ensures !HasOld(sh) ==> r == Returns(false, Fields(fields))
  {
    if !HasOld(sh) then Returns(false, Fields(fields))
    else FirstFailing(fields, EditableVerdicts(s.attrs, sh.prior.attrs, fields))
  }

  /**
   * With the old state attached and every listed field readable on both
   * sides, the check passes iff no listed field differs, and otherwise
   * names the first listed field that differs.
   */
  lemma EditableFirstDifference(s: RecordState, sh: Shadow, fields: seq<string>)
    requires HasOld(sh)
    requires forall i :: 0 <= i < |fields| ==> Readable(s.attrs, fields[i]) && Readable(sh.prior.attrs, fields[i])
    ensures EditableSpec(s, sh, fields) == Returns(true, NoPayload) <==>
              forall i :: 0 <= i < |fields| ==> PyEq(GetOrNone(s.attrs, fields[i]), GetOrNone(sh.prior.attrs, fields[i]))
    ensures forall i :: (0 <= i < |fields| && !PyEq(GetOrNone(s.attrs, fields[i]), GetOrNone(sh.prior.attrs, fields[i]))
                      && (forall j :: 0 <= j < i ==> PyEq(GetOrNone(s.attrs, fields[j]), GetOrNone(sh.prior.attrs, fields[j])))) ==>
              EditableSpec(s, sh, fields) == Returns(false, Field(fields[i]))
  {
    FirstFailingSpec(fields, EditableVerdicts(s.attrs, sh.prior.attrs, fields));
  }

  method CheckEditableFields(obj: Record, fields: seq<string>) returns (r: Check)
    ensures r == EditableSpec(obj.State(), obj.shadow, fields)
  {
    if !HasOld(obj.shadow) {
      return Returns(false, Fields(fields));
    }
    var prior := obj.shadow.prior;
    ghost var vs := EditableVerdicts(obj.attrs, prior.attrs, fields);
    var i := 0;
    while i < |fields|
      invariant 0 <= i <= |fields|
      invariant FirstFailing(fields, vs) == FirstFailing(fields[i..], vs[i..])
    {
      assert fields[i..][1..] == fields[i + 1..] && vs[i..][1..] == vs[i + 1..];
      var a := GetStrict(obj.attrs, fields[i]);
      if !a.Got? {
        return Raises(AccessError(a));
      }
      var b := GetStrict(prior.attrs, fields[i]);
      if !b.Got? {
        return Raises(AccessError(b));
      }
      if !PyEq(a.v, b.v) {
        return Returns(false, Field(fields[i]));
      }
      i := i + 1;
    }
    r := Returns(true, NoPayload);
  }

  // ---------------------------------------------------------------------
  // check_required_fields
  // ---------------------------------------------------------------------

  /** Whether a required value is there: a non-empty relation, a file with a name, anything but None. */
  predicate Present(v: Value) {
    match v
    case VRelated(items, _, _) => items != []
    case VFile(name) => name.Some? && name.value != ""
    case _ => !v.VNone?
  }

  /** The fields of `fields`, in order, whose values are not present. */
  function MissingFields(attrs: map<string, Value>, fields: seq<string>): (r: seq<string>)
    ensures forall k :: 0 <= k < |r| ==> r[k] in fields && !Present(GetOrNone(attrs, r[k]))
    ensures forall i :: 0 <= i < |fields| && !Present(GetOrNone(attrs, fields[i])) ==> fields[i] in r
    ensures |r| <= |fields|
  {
    if fields == [] then []
    else
      var rest := MissingFields(attrs, fields[1..]);
      if Present(GetOrNone(attrs, fields[0])) then rest else [fields[0]] + rest
  }

  /** The loop of `check_required_fields` from a field on, with the names found missing so far. */
  function RequiredFrom(attrs: map<string, Value>, fields: seq<string>, missing: seq<string>): Check
  {
    if fields == [] then (if missing != [] then Returns(false, Fields(missing)) else Returns(true, NoPayload))
    else
      var a := GetStrict(attrs, fields[0]);
      if a.RaisesDoesNotExist? then Returns(false, Field(fields[0]))
      else if a.RaisesAttributeError? then Raises(AttributeError)
      else RequiredFrom(attrs, fields[1..], if Present(a.v) then missing else missing + [fields[0]])
  }

  /** `check_required_fields(obj, fields)`. */
  function RequiredSpec(s: RecordState, fields: seq<string>): Check
  {
    RequiredFrom(s.attrs, fields, [])
  }

  lemma {:induction false} RequiredFromMissing(attrs: map<string, Value>, fields: seq<string>, missing: seq<string>)
    requires forall i :: 0 <= i < |fields| ==> Readable(attrs, fields[i])
    ensures var all := missing + MissingFields(attrs, fields);
            RequiredFrom(attrs, fields, missing) == if all != [] then Returns(false, Fields(all)) else Returns(true, NoPayload)
  {
    if fields != [] {
      var rest := fields[1..];
      assert forall i :: 0 <= i < |rest| ==> rest[i] == fields[i + 1];
      assert Readable(attrs, fields[0]);
      var m' := if Present(attrs[fields[0]]) then missing else missing + [fields[0]];
      RequiredFromMissing(attrs, rest, m');
      var tail := MissingFields(attrs, rest);
      assert MissingFields(attrs, fields) == if Present(attrs[fields[0]]) then tail else [fields[0]] + tail;
      assert missing + MissingFields(attrs, fields) == m' + tail;
    } else {
      assert missing + MissingFields(attrs, fields) == missing;
    }
  }

  /**
   * With every listed field readable, `check_required_fields` reports every
   * missing field, in list order, and passes iff there is none.
   */
  lemma RequiredReportsAllMissing(s: RecordState, fields: seq<string>)
    requires forall i :: 0 <= i < |fields| ==> Readable(s.attrs, fields[i])
    ensures MissingFields(s.attrs, fields) == [] ==> RequiredSpec(s, fields) == Returns(true, NoPayload)
    ensures MissingFields(s.attrs, fields) != [] ==> RequiredSpec(s, fields) == Returns(false, Fields(MissingFields(s.attrs, fields)))
  {
    RequiredFromMissing(s.attrs, fields, []);
    assert [] + MissingFields(s.attrs, fields) == MissingFields(s.attrs, fields);
  }

  /** A relation that does not exist yet stops the check at once with the bare field name, not a list. */
  lemma {:induction false} RequiredStopsAtUnresolved(s: RecordState, fields: seq<string>, i: nat)
    requires i < |fields| && fields[i] in s.attrs && s.attrs[fields[i]].VUnresolved?
    requires forall j :: 0 <= j < i ==> Readable(s.attrs, fields[j])
    ensures RequiredSpec(s, fields) == Returns(false, Field(fields[i]))
  {
    RequiredFromStops(s.attrs, fields, [], i);
  }

  lemma {:induction false} RequiredFromStops(attrs: map<string, Value>, fields: seq<string>, missing: seq<string>, i: nat)
    requires i < |fields| && fields[i] in attrs && attrs[fields[i]].VUnresolved?
    requires forall j :: 0 <= j < i ==> Readable(attrs, fields[j])
    ensures RequiredFrom(attrs, fields, missing) == Returns(false, Field(fields[i]))
  {
    if i > 0 {
      var a := GetStrict(attrs, fields[0]);
      assert a.Got?;
      RequiredFromStops(attrs, fields[1..], if Present(a.v) then missing else missing + [fields[0]], i - 1);
    }
  }

  method CheckRequiredFields(obj: Record, fields: seq<string>) returns (r: Check)
    ensures r == RequiredSpec(obj.State(), fields)
  {
    var errorFields: seq<string> := [];
    var i := 0;
    while i < |fields|
      invariant 0 <= i <= |fields|
      invariant RequiredSpec(obj.State(), fields) == RequiredFrom(obj.attrs, fields[i..], errorFields)
    {
      assert fields[i..][1..] == fields[i + 1..];
      var a := GetStrict(obj.attrs, fields[i]);
      if a.RaisesDoesNotExist? {
        return Returns(false, Field(fields[i]));
      } else if a.RaisesAttributeError? {
        return Raises(AttributeError);
      }
      if !Present(a.v) {
        errorFields := errorFields + [fields[i]];
      }
      i := i + 1;
    }
    if errorFields != [] {
      return Returns(false, Fields(errorFields));
    }
    r := Returns(true, NoPayload);
  }

  // ---------------------------------------------------------------------
  // field_comparison and check_rigid_model_instance
  // ---------------------------------------------------------------------

  /** `field_comparison(f1, f2)`: a file is compared by name, anything else with `==`. */
  function FieldComparison(f1: Value, f2: Value): (r: bool)
    ensures f1.VFile? && f2.VFile? ==> (r <==> f1.name == f2.name)
    ensures f1.VFile? && !f2.VFile? && !f2.VInstance? ==> (r <==> f1.name.None?)
    ensures !f1.VFile? ==> (r <==> PyEq(f1, f2))
  {
    if f1.VFile? then PyEq(NameAttr(f1), NameAttr(f2)) else PyEq(f1, f2)
  }

  /** A NULL file name and a blank one are both "no file", yet they compare unequal, either way round. */
  lemma NullAndBlankFilesDiffer()
    ensures !Truthy(VFile(None)) && !Truthy(VFile(Some("")))
    ensures !FieldComparison(VFile(None), VFile(Some(""))) && !FieldComparison(VFile(Some("")), VFile(None))
    ensures !PyEq(VFile(None), VFile(Some(""))) && PyEq(VFile(None), VNone)
  {
  }

  /** A string and a number are never the same value. */
  lemma FieldComparisonKeepsTypes(s: string, i: int)
    ensures !FieldComparison(VStr(s), VInt(i)) && !FieldComparison(VInt(i), VStr(s))
  {
  }

  /** Every field the first row's class declares compares equal, one level deep. */
  predicate RowFieldsSame(a: Row, b: Row) {
    forall k :: 0 <= k < |a.fieldNames| ==> FieldComparison(RowGet(a, a.fieldNames[k]), RowGet(b, a.fieldNames[k]))
  }

  /** `check_rigid_model_instance(old_obj, new_obj)`: rows field by field, anything else with `==`. */
  predicate RigidInstanceSame(a: Value, b: Value) {
    if a.VInstance? && b.VInstance? then RowFieldsSame(a.row, b.row) else PyEq(a, b)
  }

  method CheckRigidModelInstance(a: Value, b: Value) returns (same: bool)
    ensures same == RigidInstanceSame(a, b)
  {
    if !a.VInstance? || !b.VInstance? {
      return PyEq(a, b);
    }
    var names := a.row.fieldNames;
    var i := 0;
    while i < |names|
      invariant 0 <= i <= |names|
      invariant forall k :: 0 <= k < i ==> FieldComparison(RowGet(a.row, names[k]), RowGet(b.row, names[k]))
    {
      if !FieldComparison(RowGet(a.row, names[i]), RowGet(b.row, names[i])) {
        return false;
      }
      i := i + 1;
    }
    same := true;
  }

  /** A field value compares equal to itself unless it is a manager of an unsaved owner. */
  lemma FieldComparisonReflexive(v: Value)
    requires !v.VUnresolved?
    ensures FieldComparison(v, v) <==> !(v.VRelated? && v.owner.None?)
  {
    PyEqReflexive(v);
    if v.VFile? {
      PyEqReflexive(NameAttr(v));
    }
  }

  /**
   * `check_rigid_model_instance(obj, obj)` holds exactly when none of the
   * row's declared fields is a manager of an owner without a primary key.
   */
  lemma RigidInstanceSelf(r: Row)
    ensures RigidInstanceSame(VInstance(r), VInstance(r)) <==>
            forall k :: 0 <= k < |r.fieldNames| ==> !(RowGet(r, r.fieldNames[k]).VRelated? && RowGet(r, r.fieldNames[k]).owner.None?)
  {
    forall k | 0 <= k < |r.fieldNames| {
      FieldComparisonReflexive(RowGet(r, r.fieldNames[k]));
    }
  }

  /** A saved row with a reverse relation such as the demo's `children` is rigid against itself. */
  lemma RigidInstanceWithChildren(rows: seq<Row>)
    ensures var r := Row(1, ["id", "name", "children"], map["name" := VStr("a"), "children" := VRelated(rows, "children", Some(1))]);
            RigidInstanceSame(VInstance(r), VInstance(r))
  {
    var r := Row(1, ["id", "name", "children"], map["name" := VStr("a"), "children" := VRelated(rows, "children", Some(1))]);
    RigidInstanceSelf(r);
  }

  // ---------------------------------------------------------------------
  // Sorting related rows by id (Python's stable list.sort)
  // ---------------------------------------------------------------------

  predicate SortedById(s: seq<Row>) {
    forall i, j :: 0 <= i < j < |s| ==> s[i].id <= s[j].id
  }

  function InsertById(r: Row, s: seq<Row>): (t: seq<Row>)
    ensures multiset(t) == multiset(s) + multiset{r} && |t| == |s| + 1
  {
    if s == [] || r.id <= s[0].id then [r] + s
    else
      assert s == [s[0]] + s[1..];
      [s[0]] + InsertById(r, s[1..])
  }

  /** `rows.sort(key=lambda x: x.id)`: a stable insertion sort. */
  function SortById(s: seq<Row>): (t: seq<Row>)
    ensures multiset(t) == multiset(s) && |t| == |s|
  {
    if s == [] then []
    else
      assert s == [s[0]] + s[1..];
      InsertById(s[0], SortById(s[1..]))
  }

  /** In a sorted list the first row's id is at most every later row's. */
  lemma HeadBelowRest(s: seq<Row>)
    requires SortedById(s) && s != []
    ensures forall x | x in s[1..] :: s[0].id <= x.id
  {
    forall x | x in s[1..] ensures s[0].id <= x.id {
      var k :| 0 <= k < |s[1..]| && s[1..][k] == x;
      assert s[k + 1] == x;
    }
  }

  /** A row no later than every row of a sorted list can go in front of it. */
  lemma ConsSorted(h: Row, tail: seq<Row>)
    requires SortedById(tail) && forall x | x in tail :: h.id <= x.id
    ensures SortedById([h] + tail)
  {
    var t := [h] + tail;
    forall i, j | 0 <= i < j < |t| ensures t[i].id <= t[j].id {
      assert t[j] == tail[j - 1];
      if i > 0 { assert t[i] == tail[i - 1]; } else { assert tail[j - 1] in tail; }
    }
  }

  /** Every row of an insertion is the inserted row or a row of the list. */
  lemma InsertMembers(r: Row, s: seq<Row>)
    ensures forall x | x in InsertById(r, s) :: x == r || x in s
  {
    var t := InsertById(r, s);
    forall x | x in t ensures x == r || x in s {
      assert x in multiset(t);
    }
  }

  lemma {:induction false} InsertSorted(r: Row, s: seq<Row>)
    requires SortedById(s)
    ensures SortedById(InsertById(r, s))
  {
    if s == [] || r.id <= s[0].id {
      if s != [] {
        HeadBelowRest(s);
        assert s == [s[0]] + s[1..];
        assert forall x | x in s :: r.id <= x.id;
      }
      ConsSorted(r, s);
    } else {
      assert SortedById(s[1..]);
      InsertSorted(r, s[1..]);
      InsertMembers(r, s[1..]);
      HeadBelowRest(s);
      ConsSorted(s[0], InsertById(r, s[1..]));
    }
  }

  /** The sort's result is ordered by id and holds the same rows. */
  lemma {:induction false} SortByIdSorted(s: seq<Row>)
    ensures SortedById(SortById(s)) && multiset(SortById(s)) == multiset(s)
  {
    if s != [] {
      SortByIdSorted(s[1..]);
      InsertSorted(s[0], SortById(s[1..]));
    }
  }

  /** An ordered list is left as it is, so sorting twice is sorting once. */
  lemma {:induction false} SortByIdIdentity(s: seq<Row>)
    requires SortedById(s)
    ensures SortById(s) == s
  {
    if s != [] {
      assert SortedById(s[1..]);
      SortByIdIdentity(s[1..]);
      assert s == [s[0]] + s[1..];
    }
  }

  lemma SortByIdIdempotent(s: seq<Row>)
    ensures SortById(SortById(s)) == SortById(s)
  {
    SortByIdSorted(s);
    SortByIdIdentity(SortById(s));
  }

  // ---------------------------------------------------------------------
  // check_rigid_related
  // ---------------------------------------------------------------------

  /** Pairwise comparison of two equally long related lists. */
  predicate PairwiseSame(current: seq<Row>, before: seq<Row>)
    requires |current| == |before|
  {
    forall i :: 0 <= i < |current| ==> RigidInstanceSame(VInstance(current[i]), VInstance(before[i]))
  }

  /** Whether `check_rigid_related` gets as far as sorting the two lists. */
  predicate ReachesSort(s: RecordState, sh: Shadow, related: string) {
    && related in s.attrs && s.attrs[related].VRelated?
    && sh.Attached? && related in sh.prior.snapshots
    && |s.attrs[related].items| == |sh.prior.snapshots[related]|
    && |s.attrs[related].items| != 0
  }

  /**
   * `check_rigid_related(obj, related)`: the live related rows against the
   * `<related>_old` snapshot on the attached old state. No snapshot means no
   * change; lengths must agree; both lists sorted by id are compared pairwise.
   */
  function RigidRelatedSpec(s: RecordState, sh: Shadow, related: string): (r: BoolCheck)
    ensures ReachesSort(s, sh, related) ==>
              r == Answer(PairwiseSame(SortById(s.attrs[related].items), SortById(sh.prior.snapshots[related])))
    ensures related in s.attrs && s.attrs[related].VRelated? && sh.AttachedNone? ==> r == Answer(true)
    ensures related in s.attrs && s.attrs[related].VRelated? && sh.Attached? && related !in sh.prior.snapshots ==> r == Answer(true)
    ensures (&& related in s.attrs && s.attrs[related].VRelated? && sh.Attached? && related in sh.prior.snapshots
             && |s.attrs[related].items| != |sh.prior.snapshots[related]|) ==> r == Answer(false)
    ensures (&& related in s.attrs && s.attrs[related].VRelated? && sh.Attached? && related in sh.prior.snapshots
             && |s.attrs[related].items| == 0 && |sh.prior.snapshots[related]| == 0) ==> r == Answer(true)
    ensures r.Fails? <==> !(related in s.attrs && s.attrs[related].VRelated?) || sh.Detached?
    ensures related !in s.attrs ==> r == Fails(AttributeError)
    ensures related in s.attrs && s.attrs[related].VUnresolved? ==> r == Fails(DoesNotExistError)
    ensures related in s.attrs && !s.attrs[related].VRelated? && !s.attrs[related].VUnresolved? ==> r == Fails(AttributeError)
    ensures related in s.attrs && s.attrs[related].VRelated? && sh.Detached? ==> r == Fails(AttributeError)
  {
    var a := GetStrict(s.attrs, related);
    if !a.Got? then Fails(AccessError(a))
    else if !a.v.VRelated? then Fails(AttributeError)
    else if sh.Detached? then Fails(AttributeError)
    else if sh.AttachedNone? || related !in sh.prior.snapshots then Answer(true)
    else
      var current := a.v.items;
      var before := sh.prior.snapshots[related];
      if |current| != |before| then Answer(false)
      else if |current| == 0 then Answer(true)
      else Answer(PairwiseSame(SortById(current), SortById(before)))
  }

  /** The attached old state after `check_rigid_related` sorted its snapshot in place. */
  function ShadowAfterRelated(s: RecordState, sh: Shadow, related: string): Shadow
  {
    if ReachesSort(s, sh, related) then
      var p := sh.prior;
      Attached(p.(snapshots := p.snapshots[related := SortById(p.snapshots[related])]))
    else sh
  }

  method CheckRigidRelated(obj: Record, related: string) returns (r: BoolCheck)
    modifies obj
    ensures r == RigidRelatedSpec(old(obj.State()), old(obj.shadow), related)
    ensures obj.attrs == old(obj.attrs) && obj.snapshots == old(obj.snapshots)
    ensures obj.shadow == ShadowAfterRelated(old(obj.State()), old(obj.shadow), related)
  {
    var a := GetStrict(obj.attrs, related);
    if !a.Got? {
      return Fails(AccessError(a));
    } else if !a.v.VRelated? {
      return Fails(AttributeError);
    }
    if obj.shadow.Detached? {
      return Fails(AttributeError);
    }
    if obj.shadow.AttachedNone? || related !in obj.shadow.prior.snapshots {
      return Answer(true);
    }
    var current := a.v.items;
    var before := obj.shadow.prior.snapshots[related];
    if |current| != |before| {
      return Answer(false);
    }
    if |current| == 0 {
      return Answer(true);
    }
    current := SortById(current);
    before := SortById(before);
    var p := obj.shadow.prior;
    obj.shadow := Attached(p.(snapshots := p.snapshots[related := before]));
    var same := ComparePairwise(current, before);
    r := Answer(same);
  }

  /** The `zip` loop of `check_rigid_related`: stops at the first pair that differs. */
  method ComparePairwise(current: seq<Row>, before: seq<Row>) returns (same: bool)
    requires |current| == |before|
    ensures same == PairwiseSame(current, before)
  {
    var i := 0;
    while i < |current|
      invariant 0 <= i <= |current|
      invariant forall k :: 0 <= k < i ==> RigidInstanceSame(VInstance(current[k]), VInstance(before[k]))
    {
      same := CheckRigidModelInstance(VInstance(current[i]), VInstance(before[i]));
      if !same {
        return;
      }
      i := i + 1;
    }
    same := true;
  }

  // ---------------------------------------------------------------------
  // check_rigid_fields
  // ---------------------------------------------------------------------

  /** Two attached old states that differ at most in snapshots replaced by their sorted order. */
  predicate Resorted(a: Shadow, b: Shadow) {
    a == b ||
    (&& a.Attached? && b.Attached?
     && b.prior.attrs == a.prior.attrs
     && b.prior.snapshots.Keys == a.prior.snapshots.Keys
     && forall k :: k in a.prior.snapshots ==>
          b.prior.snapshots[k] == a.prior.snapshots[k] || b.prior.snapshots[k] == SortById(a.prior.snapshots[k]))
  }

  lemma ResortedAfterRelated(s: RecordState, a: Shadow, b: Shadow, related: string)
    requires Resorted(a, b)
    ensures Resorted(a, ShadowAfterRelated(s, b, related))
  {
    var c := ShadowAfterRelated(s, b, related);
    if c != b {
      forall k | k in a.prior.snapshots
        ensures c.prior.snapshots[k] == a.prior.snapshots[k] || c.prior.snapshots[k] == SortById(a.prior.snapshots[k])
      {
        SortByIdIdempotent(a.prior.snapshots[k]);
      }
    }
  }

  /** Re-sorting snapshots does not change what `check_rigid_related` answers. */
  lemma RelatedIgnoresResort(s: RecordState, a: Shadow, b: Shadow, related: string)
    requires Resorted(a, b)
    ensures RigidRelatedSpec(s, b, related) == RigidRelatedSpec(s, a, related)
  {
    if a != b && related in a.prior.snapshots {
      SortByIdIdempotent(a.prior.snapshots[related]);
    }
  }

  /** One field of `check_rigid_fields`, compared against `cmp`; `related` switches relation checks on. */
  function RigidFieldVerdict(s: RecordState, sh: Shadow, cmp: RecordState, f: string, related: bool): BoolCheck
  {
    var newField := GetOrNone(s.attrs, f);
    var oldField := GetOrNone(cmp.attrs, f);
    if newField.VRelated? then
      (if related then RigidRelatedSpec(s, sh, f) else Answer(true))
    else if oldField.VInstance? || newField.VInstance? then Answer(RigidInstanceSame(oldField, newField))
    else Answer(FieldComparison(newField, oldField))
  }

  function RigidFieldVerdicts(s: RecordState, sh: Shadow, cmp: RecordState, fields: seq<string>, related: bool): (vs: seq<BoolCheck>)
    ensures |vs| == |fields| && forall i :: 0 <= i < |fields| ==> vs[i] == RigidFieldVerdict(s, sh, cmp, fields[i], related)
  {
    seq(|fields|, i requires 0 <= i < |fields| => RigidFieldVerdict(s, sh, cmp, fields[i], related))
  }

  /**
   * `check_rigid_fields(obj, fields, old_instance, related)`: with no old
   * state passed or attached there is nothing to compare; otherwise the
   * first field that changed is reported.
   */
  function RigidFieldsSpec(s: RecordState, sh: Shadow, fields: seq<string>, oldInstance: Option<RecordState>, related: bool): (r: Check)
    ensures oldInstance.None? && !HasOld(sh) ==> r == Returns(true, NoPayload)
  {
    if oldInstance.None? && !HasOld(sh) then Returns(true, NoPayload)
    else
      var cmp := if oldInstance.Some? then oldInstance.value else sh.prior;
      FirstFailing(fields, RigidFieldVerdicts(s, sh, cmp, fields, related))
  }

  /** With `related` off, relation fields are never looked at: changing them cannot make the check fail. */
  lemma RigidFieldsSkipRelations(s: RecordState, sh: Shadow, fields: seq<string>, cmp: RecordState, i: nat)
    requires i < |fields| && fields[i] in s.attrs && s.attrs[fields[i]].VRelated?
    ensures RigidFieldVerdict(s, sh, cmp, fields[i], false) == Answer(true)
  {
  }

  /** The check passes iff every field passes, and otherwise stops at the first field that does not. */
  lemma RigidFieldsFirstOffender(s: RecordState, sh: Shadow, fields: seq<string>, oldInstance: Option<RecordState>, related: bool)
    requires oldInstance.Some? || HasOld(sh)
    ensures var cmp := if oldInstance.Some? then oldInstance.value else sh.prior;
            && (RigidFieldsSpec(s, sh, fields, oldInstance, related) == Returns(true, NoPayload) <==>
                 forall i :: 0 <= i < |fields| ==> RigidFieldVerdict(s, sh, cmp, fields[i], related) == Answer(true))
            && (forall i :: (0 <= i < |fields| && RigidFieldVerdict(s, sh, cmp, fields[i], related) == Answer(false)
                  && (forall j :: 0 <= j < i ==> RigidFieldVerdict(s, sh, cmp, fields[j], related) == Answer(true))) ==>
                 RigidFieldsSpec(s, sh, fields, oldInstance, related) == Returns(false, Field(fields[i])))
  {
    var cmp := if oldInstance.Some? then oldInstance.value else sh.prior;
    FirstFailingSpec(fields, RigidFieldVerdicts(s, sh, cmp, fields, related));
  }

  method CheckRigidFields(obj: Record, fields: seq<string>, oldInstance: Option<RecordState>, related: bool) returns (r: Check)
    modifies obj
    ensures r == RigidFieldsSpec(old(obj.State()), old(obj.shadow), fields, oldInstance, related)
    ensures obj.attrs == old(obj.attrs) && obj.snapshots == old(obj.snapshots)
    ensures Resorted(old(obj.shadow), obj.shadow)
  {
    if oldInstance.None? && !HasOld(obj.shadow) {
      return Returns(true, NoPayload);
    }
    var cmp := if oldInstance.Some? then oldInstance.value else obj.shadow.prior;
    ghost var s := obj.State();
    ghost var sh := obj.shadow;
    ghost var vs := RigidFieldVerdicts(s, sh, cmp, fields, related);
    var i := 0;
    while i < |fields|
      invariant 0 <= i <= |fields|
      invariant obj.State() == s && Resorted(sh, obj.shadow)
      invariant FirstFailing(fields, vs) == FirstFailing(fields[i..], vs[i..])
    {
      assert fields[i..][1..] == fields[i + 1..] && vs[i..][1..] == vs[i + 1..];
      var f := fields[i];
      var newField := GetOrNone(obj.attrs, f);
      var oldField := GetOrNone(cmp.attrs, f);
      if newField.VRelated? {
        if related {
          RelatedIgnoresResort(s, sh, obj.shadow, f);
          ResortedAfterRelated(s, sh, obj.shadow, f);
          var rel := CheckRigidRelated(obj, f);
          if rel.Fails? {
            return Raises(rel.exception);
          } else if !rel.b {
            return Returns(false, Field(f));
          }
        }
      } else if oldField.VInstance? || newField.VInstance? {
        var same := CheckRigidModelInstance(oldField, newField);
        if !same {
          return Returns(false, Field(f));
        }
      } else if !FieldComparison(newField, oldField) {
        return Returns(false, Field(f));
      }
      i := i + 1;
    }
    r := Returns(true, NoPayload);
  }
}
