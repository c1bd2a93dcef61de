/**
 * The record being validated: a model instance whose attributes the
 * validator reads and updates in place, which can carry a temporary
 * `old_instance` attribute (the shadow old state) while validation
 * functions run, and `update_object`, which applies a mapping onto it.
 */
module Records {
  import opened Values

  /** The `old_instance` attribute: absent, set to None, or set to the old record. */
  datatype Shadow = Detached | AttachedNone | Attached(prior: RecordState)

  /** `getattr(obj, 'old_instance', None)` is a record (and so truthy). */
  predicate HasOld(sh: Shadow) {
    sh.Attached?
  }

  /** A value of the mapping handed to `update_object`: a list is the new membership of a relation. */
  datatype Input = Scalar(v: Value) | ListOf(rows: seq<Row>)

  predicate DistinctKeys(kw: seq<(string, Input)>) {
    forall i, j :: 0 <= i < j < |kw| ==> kw[i].0 != kw[j].0
  }

  /** `getattr(obj, k).set(v)` works only on a related manager. */
  predicate Settable(attrs: map<string, Value>, k: string, inp: Input) {
    inp.ListOf? ==> k in attrs && attrs[k].VRelated?
  }

  /** What an entry leaves in field `k`: a scalar is assigned; a list becomes the membership of the relation there. */
  predicate AppliedAs(v: Value, inp: Input) {
    match inp
    case Scalar(x) => v == x
    case ListOf(rows) => v.VRelated? && v.items == rows
  }

  /**
   * The attribute value entry `(k, inp)` leaves behind on `attrs`: `setattr`
   * for a scalar; for a list, `.set()` on the manager already there, which
   * keeps serving the same relation of the same owner.
   */
  function Assigned(attrs: map<string, Value>, k: string, inp: Input): (v: Value)
    ensures Settable(attrs, k, inp) ==> AppliedAs(v, inp)
    ensures inp.ListOf? && Settable(attrs, k, inp) ==> v.relation == attrs[k].relation && v.owner == attrs[k].owner
  {
    match inp
    case Scalar(x) => x
    case ListOf(rows) => if k in attrs && attrs[k].VRelated? then attrs[k].(items := rows) else VNone
  }

  /** What `update_object` leaves: the attributes after the entries it got through, and whether it finished. */
  datatype Updated = Updated(finished: bool, attrs: map<string, Value>)

  /** The entries of `kw` applied in order; an entry it cannot set raises and stops it. */
  function ApplyUpdates(attrs: map<string, Value>, kw: seq<(string, Input)>): Updated
    decreases |kw|
  {
    if kw == [] then Updated(true, attrs)
    else
      var (k, inp) := kw[0];
      if !Settable(attrs, k, inp) then Updated(false, attrs)
      else ApplyUpdates(attrs[k := Assigned(attrs, k, inp)], kw[1..])
  }

  /** The entries `kw` processes before `ApplyUpdates` stops: all of them when it finishes. */
  lemma {:induction false} ApplyUpdatesSpec(attrs: map<string, Value>, kw: seq<(string, Input)>)
    requires DistinctKeys(kw)
    decreases |kw|
    ensures var u := ApplyUpdates(attrs, kw);
            && (u.finished <==> forall i :: 0 <= i < |kw| ==> Settable(attrs, kw[i].0, kw[i].1))
            && (u.finished ==> forall i :: 0 <= i < |kw| ==> kw[i].0 in u.attrs && u.attrs[kw[i].0] == Assigned(attrs, kw[i].0, kw[i].1))
            && (forall k :: k in attrs && (forall i :: 0 <= i < |kw| ==> kw[i].0 != k) ==> k in u.attrs && u.attrs[k] == attrs[k])
            && attrs.Keys <= u.attrs.Keys
  {
    if kw != [] {
      var (k, inp) := kw[0];
      var rest := kw[1..];
      if Settable(attrs, k, inp) {
        var attrs' := attrs[k := Assigned(attrs, k, inp)];
        assert DistinctKeys(rest) by {
          forall i, j | 0 <= i < j < |rest| ensures rest[i].0 != rest[j].0 { assert rest[i] == kw[i + 1] && rest[j] == kw[j + 1]; }
        }
        ApplyUpdatesSpec(attrs', rest);
        forall i | 0 <= i < |rest|
          ensures Settable(attrs', rest[i].0, rest[i].1) == Settable(attrs, rest[i].0, rest[i].1)
          ensures Assigned(attrs', rest[i].0, rest[i].1) == Assigned(attrs, rest[i].0, rest[i].1)
        {
          assert rest[i] == kw[i + 1];
        }
        var u := ApplyUpdates(attrs', rest);
        assert u.finished ==> k in u.attrs && u.attrs[k] == Assigned(attrs, k, inp) by {
          forall i | 0 <= i < |rest| ensures rest[i].0 != k { assert rest[i] == kw[i + 1]; }
        }
        assert (forall i :: 0 <= i < |kw| ==> Settable(attrs, kw[i].0, kw[i].1)) <==>
               (forall i :: 0 <= i < |rest| ==> Settable(attrs, rest[i].0, rest[i].1)) by {
          if forall i :: 0 <= i < |rest| ==> Settable(attrs, rest[i].0, rest[i].1) {
            forall i | 0 <= i < |kw| ensures Settable(attrs, kw[i].0, kw[i].1) {
              if i > 0 { assert kw[i] == rest[i - 1]; }
            }
          }
        }
      }
    }
  }

  /** After a finished `update_object`, every entry's field holds what the entry leaves. */
  lemma ApplyUpdatesApplied(attrs: map<string, Value>, kw: seq<(string, Input)>)
    requires DistinctKeys(kw)
    ensures var u := ApplyUpdates(attrs, kw);
            u.finished ==> forall i :: 0 <= i < |kw| ==> kw[i].0 in u.attrs && AppliedAs(u.attrs[kw[i].0], kw[i].1)
  {
    ApplyUpdatesSpec(attrs, kw);
    var u := ApplyUpdates(attrs, kw);
    if u.finished {
      forall i | 0 <= i < |kw| ensures kw[i].0 in u.attrs && AppliedAs(u.attrs[kw[i].0], kw[i].1) {
        assert Settable(attrs, kw[i].0, kw[i].1);
      }
    }
  }

  class Record {
    var attrs: map<string, Value>
    var snapshots: map<string, seq<Row>>
    var shadow: Shadow

    function State(): RecordState
      reads this
    {
      RecordState(attrs, snapshots)
    }

    /** A record holding the given state, with no `old_instance` attribute. */
    constructor (s: RecordState)
      ensures State() == s && shadow == Detached
    {
      attrs := s.attrs;
      snapshots := s.snapshots;
      shadow := Detached;
    }

    /**
     * `update_object(obj, kwdict)`: assigns every key in order, a list value
     * through the relation's `set`; stops (the source raises) at a list
     * value for an attribute that is not a relation.
     */
    method UpdateObject(kw: seq<(string, Input)>) returns (finished: bool)
      modifies this
      ensures ApplyUpdates(old(attrs), kw) == Updated(finished, attrs)
      ensures snapshots == old(snapshots) && shadow == old(shadow)
    {
      var i := 0;
      finished := true;
      while i < |kw|
        invariant 0 <= i <= |kw|
        invariant ApplyUpdates(old(attrs), kw) == ApplyUpdates(attrs, kw[i..])
        invariant snapshots == old(snapshots) && shadow == old(shadow)
      {
        var (k, inp) := kw[i];
        assert kw[i..][0] == kw[i] && kw[i..][1..] == kw[i + 1..];
        if !Settable(attrs, k, inp) {
          finished := false;
          return;
        }
        attrs := attrs[k := Assigned(attrs, k, inp)];
        i := i + 1;
      }
    }
  }
}
