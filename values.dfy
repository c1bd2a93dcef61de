/**
 * The field values a record holds, as the validator sees them through
 * Python: plain values, file fields, related managers (collections of
 * related rows), related model instances, and relations whose access raises
 * `ObjectDoesNotExist`. Equality is Python's `==` on these values.
 */
module Values {

  datatype Option<+T> = None | Some(value: T)

  datatype Value =
    | VNone
    | VBool(b: bool)
    | VInt(i: int)
    | VStr(s: string)
    | VFile(name: Option<string>)   // a file field: its name, None for a NULL column, "" for a blank one
    | VRelated(items: seq<Row>, relation: string, owner: Option<int>)
                                    // a related manager (`.all()`, `.filter()`, `.set()`): its rows, the
                                    // relation it serves, and its owning instance's primary key (None if unsaved)
    | VInstance(row: Row)           // a related model instance (foreign key, one-to-one)
    | VUnresolved                   // a one-to-one relation whose access raises ObjectDoesNotExist

  /**
   * A model instance read one level deep: its primary key, the field names
   * its class declares (including reverse relations and attnames), and its
   * attribute values.
   */
  datatype Row = Row(id: int, fieldNames: seq<string>, attrs: map<string, Value>)

  /** The state of a record: its attributes and the `<rel>_old` snapshots the view layer stores on it. */
  datatype RecordState = RecordState(attrs: map<string, Value>, snapshots: map<string, seq<Row>>)

  /** Python truthiness. */
  predicate Truthy(v: Value) {
    match v
    case VNone => false
    case VBool(b) => b
    case VInt(i) => i != 0
    case VStr(s) => s != ""
    case VFile(name) => name.Some? && name.value != ""
    case _ => true
  }

  function Numeric(v: Value): int
    requires v.VBool? || v.VInt?
  {
    if v.VBool? then (if v.b then 1 else 0) else v.i
  }

  /**
   * Python `a == b`: booleans are numbers, a file compares its name with
   * another file's name or with a plain value (so a file without a name
   * equals None), two model instances are equal when their primary keys
   * are (instances of one field share a class, so the class Django also
   * compares is not kept; instances always carry a key), and two related managers are equal when they serve the same relation of
   * owners with the same primary key, whatever rows they hold (Django
   * compares a manager's class and its constructor arguments, the owner).
   * An owner without a primary key compares by identity, which is not
   * tracked: such managers are taken to belong to different objects.
   */
  predicate PyEq(a: Value, b: Value) {
    match a
    case VNone => b.VNone? || (b.VFile? && b.name.None?)
    case VBool(_) => (b.VBool? || b.VInt?) && Numeric(a) == Numeric(b)
    case VInt(_) => (b.VBool? || b.VInt?) && Numeric(a) == Numeric(b)
    case VStr(s) => (b.VStr? && b.s == s) || (b.VFile? && b.name == Some(s))
    case VFile(n) => (b.VFile? && b.name == n) || (b.VStr? && n == Some(b.s)) || (b.VNone? && n.None?)
    case VInstance(r) => b.VInstance? && b.row.id == r.id
    case VRelated(_, rel, owner) => b.VRelated? && b.relation == rel && owner.Some? && b.owner == owner
    case VUnresolved => false
  }

  lemma PyEqSymmetric(a: Value, b: Value)
    ensures PyEq(a, b) <==> PyEq(b, a)
  {
  }

  /** Every value equals itself, except an unresolvable relation and a manager of an unsaved owner. */
  lemma PyEqReflexive(a: Value)
    ensures PyEq(a, a) <==> !(a.VUnresolved? || (a.VRelated? && a.owner.None?))
  {
  }

  /** Two reads of one relation of one saved owner are equal, even when the rows they hold differ. */
  lemma ManagersOfOneOwnerEqual(xs: seq<Row>, ys: seq<Row>, relation: string, pk: int)
    ensures PyEq(VRelated(xs, relation, Some(pk)), VRelated(ys, relation, Some(pk)))
    ensures forall other: string :: other != relation ==> !PyEq(VRelated(xs, relation, Some(pk)), VRelated(ys, other, Some(pk)))
  {
  }

  /** `getattr(obj, f, None)` guarded by `except ObjectDoesNotExist`: a missing or unresolvable value reads as None. */
  function GetOrNone(attrs: map<string, Value>, f: string): (v: Value)
    ensures !v.VUnresolved?
    ensures f in attrs && !attrs[f].VUnresolved? ==> v == attrs[f]
    ensures f !in attrs || attrs[f].VUnresolved? ==> v == VNone
  {
    if f in attrs && !attrs[f].VUnresolved? then attrs[f] else VNone
  }

  /** `getattr(row, f, None)` on a related model instance; `id` is its primary key. */
  function RowGet(r: Row, f: string): Value
  {
    if f == "id" then VInt(r.id) else GetOrNone(r.attrs, f)
  }

  /** What `getattr(obj, f)` without a default does. */
  datatype Access = Got(v: Value) | RaisesDoesNotExist | RaisesAttributeError

  function GetStrict(attrs: map<string, Value>, f: string): (a: Access)
    ensures a.Got? <==> f in attrs && !attrs[f].VUnresolved?
    ensures a.Got? ==> a.v == attrs[f]
    ensures a.RaisesAttributeError? <==> f !in attrs
  {
    if f !in attrs then RaisesAttributeError
    else if attrs[f].VUnresolved? then RaisesDoesNotExist
    else Got(attrs[f])
  }

  /** `getattr(v, 'name', None)`: the name of a file, the `name` field of an instance, otherwise None. */
  function NameAttr(v: Value): Value
  {
    match v
    case VFile(n) => if n.Some? then VStr(n.value) else VNone
    case VInstance(r) => RowGet(r, "name")
    case _ => VNone
  }
}
