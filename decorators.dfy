/**
 * The call-wrapping adapters that turn what a validation function did
 * (returned a value or raised) into an `(ok, errors)` pair: `error_data`,
 * `transition_error_data` and `state_error_data` of `etools_validator`, and
 * the legacy `error_string`, `transition_error_string` and
 * `state_error_string`, which know no detailed exceptions.
 */
module Decorators {
  import opened Errors

  /** The adapter's answer, or the exception it let through. */
  datatype Wrapped =
    | Handled(ok: bool, errors: seq<ErrorItem>)
    | Escaped(raised: Outcome)

  predicate Raises(o: Outcome) {
    o.RaisedSimple? || o.RaisedDetailed? || o.RaisedForeign?
  }

  /** The simple exception class an adapter of the given kind catches. */
  predicate CatchesSimple(kind: Kind, e: SimpleError) {
    match kind
    case BasicKind => e.BasicValidationError?
    case TransitionKind => e.TransitionError?
    case StateKind => e.StateValidationError?
  }

  /** The fallback code reported when a transition or state function returns anything but `True`. */
  const GenericTransitionFail: string := "generic_transition_fail"
  const GenericStateFail: string := "generic_state_validation_fail"

  /** Shared shape of the three adapters; `fallback` is reported for any return value other than `True`. */
  function Adapt(kind: Kind, fallback: string, o: Outcome): (w: Wrapped)
    ensures w.Handled? ==> (w.ok <==> w.errors == []) && (!w.ok ==> |w.errors| == 1)
    ensures w.Handled? && Raises(o) ==> !w.ok
    ensures w.Escaped? ==> w.raised == o && Raises(o)
  {
    match o
    case ReturnedBool(b) => if b then Handled(true, []) else Handled(false, [Message(fallback)])
    case ReturnedOther(_) => Handled(false, [Message(fallback)])
    case RaisedSimple(e) => if CatchesSimple(kind, e) then Handled(false, [Message(ToString(e))]) else Escaped(o)
    case RaisedDetailed(d) => if d.kind == kind then Handled(false, [DetailsOf(d)]) else Escaped(o)
    case RaisedForeign(_) => Escaped(o)
  }

  /** `error_data(function)`: the fallback is the function's name. */
  function ErrorData(name: string, o: Outcome): (w: Wrapped)
    ensures o == ReturnedBool(true) ==> w == Handled(true, [])
    ensures (o.ReturnedOther? || o == ReturnedBool(false)) ==> w == Handled(false, [Message(name)])
    ensures o.RaisedSimple? && o.err.BasicValidationError? ==> w == Handled(false, [Message(o.err.message)])
    ensures o.RaisedDetailed? && o.detail.kind == BasicKind ==> w == Handled(false, [DetailsOf(o.detail)])
    ensures w.Escaped? <==> Raises(o) && !(o.RaisedSimple? && o.err.BasicValidationError?)
                                       && !(o.RaisedDetailed? && o.detail.kind == BasicKind)
  {
    Adapt(BasicKind, name, o)
  }

  /** `transition_error_data(function)`. */
  function TransitionErrorData(o: Outcome): (w: Wrapped)
    ensures o == ReturnedBool(true) ==> w == Handled(true, [])
    ensures (o.ReturnedOther? || o == ReturnedBool(false)) ==> w == Handled(false, [Message(GenericTransitionFail)])
    ensures o.RaisedSimple? && o.err.TransitionError? ==> w == Handled(false, [Message(Join(o.err.messages))])
    ensures o.RaisedDetailed? && o.detail.kind == TransitionKind ==> w == Handled(false, [DetailsOf(o.detail)])
    ensures w.Escaped? <==> Raises(o) && !(o.RaisedSimple? && o.err.TransitionError?)
                                       && !(o.RaisedDetailed? && o.detail.kind == TransitionKind)
  {
    Adapt(TransitionKind, GenericTransitionFail, o)
  }

  /** `state_error_data(function)`. */
  function StateErrorData(o: Outcome): (w: Wrapped)
    ensures o == ReturnedBool(true) ==> w == Handled(true, [])
    ensures (o.ReturnedOther? || o == ReturnedBool(false)) ==> w == Handled(false, [Message(GenericStateFail)])
    ensures o.RaisedSimple? && o.err.StateValidationError? ==> w == Handled(false, [Message(Join(o.err.messages))])
    ensures o.RaisedDetailed? && o.detail.kind == StateKind ==> w == Handled(false, [DetailsOf(o.detail)])
    ensures w.Escaped? <==> Raises(o) && !(o.RaisedSimple? && o.err.StateValidationError?)
                                       && !(o.RaisedDetailed? && o.detail.kind == StateKind)
  {
    Adapt(StateKind, GenericStateFail, o)
  }

  /**
   * The legacy adapters: like the current ones, but every detailed exception
   * escapes, and a caught exception is reported through the legacy
   * `six.text_type(e)`, which itself raises for a state error with messages.
   */
  function LegacyAdapt(kind: Kind, fallback: string, o: Outcome): (w: Wrapped)
    ensures w.Handled? ==> (w.ok <==> w.errors == []) && (!w.ok ==> |w.errors| == 1)
    ensures w.Escaped? ==> Raises(w.raised)
    ensures o.RaisedDetailed? ==> w == Escaped(o)
  {
    match o
    case ReturnedBool(b) => if b then Handled(true, []) else Handled(false, [Message(fallback)])
    case ReturnedOther(_) => Handled(false, [Message(fallback)])
    case RaisedSimple(e) =>
      if !CatchesSimple(kind, e) then Escaped(o)
      else
        (match LegacyToString(e)
         case Text(text) => Handled(false, [Message(text)])
         case StrRaises(name) => Escaped(RaisedForeign(name)))
    case RaisedDetailed(_) => Escaped(o)
    case RaisedForeign(_) => Escaped(o)
  }

  /** Legacy `error_string(function)`. */
  function ErrorString(name: string, o: Outcome): (w: Wrapped)
    ensures o == ReturnedBool(true) ==> w == Handled(true, [])
    ensures (o.ReturnedOther? || o == ReturnedBool(false)) ==> w == Handled(false, [Message(name)])
    ensures o.RaisedSimple? && o.err.BasicValidationError? ==> w == Handled(false, [Message(o.err.message)])
    ensures w.Escaped? <==> Raises(o) && !(o.RaisedSimple? && o.err.BasicValidationError?)
    ensures w.Escaped? ==> w.raised == o
  {
    LegacyAdapt(BasicKind, name, o)
  }

  /**
   * Legacy `transition_error_string(function)`: catches `TransitionError`
   * only; a caught one with messages makes its own report raise
   * `AttributeError`.
   */
  function TransitionErrorString(o: Outcome): (w: Wrapped)
    ensures o == ReturnedBool(true) ==> w == Handled(true, [])
    ensures (o.ReturnedOther? || o == ReturnedBool(false)) ==> w == Handled(false, [Message(GenericTransitionFail)])
    ensures o.RaisedSimple? && o.err.TransitionError? ==>
              w == if o.err.messages == [] then Handled(false, [Message("")]) else Escaped(RaisedForeign("AttributeError"))
    ensures w.Escaped? <==> Raises(o) && !(o.RaisedSimple? && o.err.TransitionError? && o.err.messages == [])
  {
    LegacyAdapt(TransitionKind, GenericTransitionFail, o)
  }

  /**
   * Legacy `state_error_string(function)`: catches `StateValidationError`
   * only; a caught one with messages makes its own report raise
   * `AttributeError`.
   */
  function StateErrorString(o: Outcome): (w: Wrapped)
    ensures o == ReturnedBool(true) ==> w == Handled(true, [])
    ensures (o.ReturnedOther? || o == ReturnedBool(false)) ==> w == Handled(false, [Message(GenericStateFail)])
    ensures o.RaisedSimple? && o.err.StateValidationError? ==>
              w == if o.err.messages == [] then Handled(false, [Message("")]) else Escaped(RaisedForeign("AttributeError"))
    ensures w.Escaped? <==> Raises(o) && !(o.RaisedSimple? && o.err.StateValidationError? && o.err.messages == [])
  {
    LegacyAdapt(StateKind, GenericStateFail, o)
  }

  /** A caught state error with messages: the legacy report raises, the current one is the joined messages. */
  predicate LegacyDecodeFails(kind: Kind, o: Outcome) {
    o.RaisedSimple? && CatchesSimple(kind, o.err) && IsBaseStateError(o.err) && o.err.messages != []
  }

  /**
   * The two generations of adapters agree on every outcome except two: a
   * raised detailed exception, which only the current ones catch, and a
   * caught state error with messages, which the legacy ones cannot turn
   * into a string.
   */
  lemma LegacyAgrees(kind: Kind, fallback: string, o: Outcome)
    ensures !o.RaisedDetailed? && !LegacyDecodeFails(kind, o) ==> LegacyAdapt(kind, fallback, o) == Adapt(kind, fallback, o)
    ensures o.RaisedDetailed? && o.detail.kind == kind ==>
              LegacyAdapt(kind, fallback, o).Escaped? && Adapt(kind, fallback, o).Handled?
    ensures LegacyDecodeFails(kind, o) ==>
              && LegacyAdapt(kind, fallback, o) == Escaped(RaisedForeign("AttributeError"))
              && Adapt(kind, fallback, o) == Handled(false, [Message(Join(o.err.messages))])
  {
  }

  /**
   * The names `from .decorators import ...` asks for in
   * src/etools_validator/validation.py, and what each decorators module defines.
   */
  const ValidationImports: seq<string> := ["error_string", "state_error_string", "transition_error_string"]
  const CurrentDecoratorNames: set<string> := {"error_data", "transition_error_data", "state_error_data"}
  const LegacyDecoratorNames: set<string> := {"error_string", "transition_error_string", "state_error_string"}

  /** `from m import names`: the first name `m` does not define (an `ImportError`), or "" when all resolve. */
  function FirstUnresolved(defined: set<string>, names: seq<string>): (r: string)
    ensures r != "" ==> r in names && r !in defined
    ensures (forall k :: 0 <= k < |names| ==> names[k] in defined) ==> r == ""
  {
    if names == [] then ""
    else if names[0] !in defined then names[0]
    else FirstUnresolved(defined, names[1..])
  }

  /** As written, validation.py cannot import its adapters from its own package's decorators module. */
  lemma ValidationImportFails()
    ensures FirstUnresolved(CurrentDecoratorNames, ValidationImports) == "error_string"
    ensures FirstUnresolved(LegacyDecoratorNames, ValidationImports) == ""
  {
  }
}
