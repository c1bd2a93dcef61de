/**
 * The failure values of the validator: the exception classes of
 * `etools_validator.exceptions` and of the legacy `validator.exceptions`,
 * their constructor argument checks and their string forms, and the
 * outcome of calling a validation function (it returns a value or raises).
 */
module Errors {

  /** An entry of an error list: a plain message or a structured detail. */
  datatype ErrorItem =
    | Message(text: string)
    | Details(code: string, description: string, extra: map<string, string>)

  /** The `message` argument handed to an exception constructor, as a Python value. */
  datatype MessageArg =
    | Omitted                        // no argument: the constructor's default applies
    | ArgNone
    | ArgStr(s: string)
    | ArgInt(i: int)
    | ArgTuple(items: seq<string>)
    | ArgList(msgs: seq<string>)
    | ArgObject                      // an arbitrary object or a class: always truthy

  /** Python truthiness of an explicitly passed argument. */
  predicate Truthy(arg: MessageArg)
    requires !arg.Omitted?
  {
    match arg
    case ArgNone => false
    case ArgStr(s) => s != ""
    case ArgInt(i) => i != 0
    case ArgTuple(items) => items != []
    case ArgList(msgs) => msgs != []
    case ArgObject => true
  }

  /** Which `_BaseStateError` class is being constructed. */
  datatype StateKind = Base | Transition | State

  /**
   * The simple exceptions. `BaseStateError`, `TransitionError` and
   * `StateValidationError` carry the list of messages they were built with.
   */
  datatype SimpleError =
    | BaseStateError(messages: seq<string>)
    | TransitionError(messages: seq<string>)
    | StateValidationError(messages: seq<string>)
    | BasicValidationError(message: string)

  /** `isinstance(e, _BaseStateError)`: both subclasses are `_BaseStateError`s. */
  predicate IsBaseStateError(e: SimpleError) {
    !e.BasicValidationError?
  }

  /** The three kinds of failure a validation function can signal. */
  datatype Kind = BasicKind | TransitionKind | StateKind

  /** The detailed exceptions: a code, a description and an extra map. */
  datatype DetailedError = DetailedError(kind: Kind, code: string, description: string, extra: map<string, string>)

  /** `e.details`, the dictionary the adapters report for a detailed exception. */
  function DetailsOf(d: DetailedError): (r: ErrorItem)
    ensures r.Details? && r.code == d.code && r.description == d.description && r.extra == d.extra
  {
    Details(d.code, d.description, d.extra)
  }

  /** A detailed exception built from a code and a description only: its extra map is empty. */
  function NewDetailed(kind: Kind, code: string, description: string): (d: DetailedError)
    ensures d.kind == kind && d.code == code && d.description == description && d.extra == map[]
  {
    DetailedError(kind, code, description, map[])
  }

  /** What calling a validation function did. */
  datatype Outcome =
    | ReturnedBool(b: bool)
    | ReturnedOther(truthy: bool)     // any other returned value (a tuple, a string, None, ...)
    | RaisedSimple(err: SimpleError)
    | RaisedDetailed(detail: DetailedError)
    | RaisedForeign(name: string)     // an exception none of the validator's classes

  /** The result of running an exception constructor. */
  datatype Construction = Built(e: SimpleError) | RaisesTypeError

  function Make(kind: StateKind, msgs: seq<string>): (e: SimpleError)
    ensures IsBaseStateError(e) && e.messages == msgs
    ensures (kind == Base <==> e.BaseStateError?) && (kind == Transition <==> e.TransitionError?)
    ensures kind == State <==> e.StateValidationError?
  {
    match kind
    case Base => BaseStateError(msgs)
    case Transition => TransitionError(msgs)
    case State => StateValidationError(msgs)
  }

  /**
   * `_BaseStateError.__init__` of `etools_validator.exceptions`: a missing or
   * falsy message becomes the empty list, a list is kept, any other value
   * raises a `TypeError`.
   */
  function NewStateError(kind: StateKind, arg: MessageArg): (r: Construction)
    ensures (arg.Omitted? || !Truthy(arg)) ==> r == Built(Make(kind, []))
    ensures arg.ArgList? ==> r == Built(Make(kind, arg.msgs))
    ensures r.RaisesTypeError? <==> !arg.Omitted? && Truthy(arg) && !arg.ArgList?
  {
    if arg.Omitted? || !Truthy(arg) then Built(Make(kind, []))
    else if arg.ArgList? then Built(Make(kind, arg.msgs))
    else RaisesTypeError
  }

  /**
   * `_BaseStateError.__init__` of the legacy `validator.exceptions`: the
   * default is the empty list and every explicitly passed non-list (None and
   * "" included) raises a `TypeError`.
   */
  function LegacyNewStateError(kind: StateKind, arg: MessageArg): (r: Construction)
    ensures arg.Omitted? ==> r == Built(Make(kind, []))
    ensures arg.ArgList? ==> r == Built(Make(kind, arg.msgs))
    ensures r.RaisesTypeError? <==> !arg.Omitted? && !arg.ArgList?
  {
    match arg
    case Omitted => Built(Make(kind, []))
    case ArgList(msgs) => Built(Make(kind, msgs))
    case _ => RaisesTypeError
  }

  /** `BasicValidationError(message='')` in both packages. */
  function NewBasicError(message: string := ""): (e: SimpleError)
    ensures e.BasicValidationError? && e.message == message
  {
    BasicValidationError(message)
  }

  /** `'\n'.join(msgs)`. */
  function Join(msgs: seq<string>): string
  {
    if msgs == [] then ""
    else if |msgs| == 1 then msgs[0]
    else msgs[0] + "\n" + Join(msgs[1..])
  }

  /** `str(e)`: the joined messages of a state error, the message of a basic one. */
  function ToString(e: SimpleError): (r: string)
    ensures IsBaseStateError(e) ==> r == Join(e.messages)
    ensures e.BasicValidationError? ==> r == e.message
  {
    match e
    case BasicValidationError(m) => m
    case _ => Join(e.messages)
  }

  /** What `six.text_type(e)` gives: the text, or the exception raised while building it. */
  datatype Stringified = Text(s: string) | StrRaises(name: string)

  /**
   * `six.text_type(e)` for the legacy `validator.exceptions` classes under
   * Python 3. A state error's `__str__` calls `.decode("utf-8")` on each
   * message, and a Python 3 `str` has no `decode`: any message at all raises
   * `AttributeError`, and only the empty list gives "". A basic error keeps
   * the inherited string form, its message.
   */
  function LegacyToString(e: SimpleError): (r: Stringified)
    ensures r.StrRaises? <==> IsBaseStateError(e) && e.messages != []
    ensures r.StrRaises? ==> r.name == "AttributeError"
    ensures r.Text? ==> r.s == ToString(e)
  {
    if e.BasicValidationError? then Text(e.message)
    else if e.messages == [] then Text("")
    else StrRaises("AttributeError")
  }

  /** Joining a message in front of a non-empty list. */
  lemma JoinCons(m: string, rest: seq<string>)
    requires rest != []
    ensures Join([m] + rest) == m + "\n" + Join(rest)
  {
    assert ([m] + rest)[1..] == rest;
  }

  /**
   * The stringification the legacy tests expect: the messages joined with
   * newlines, non-ASCII text included. The legacy `__str__` raises instead;
   * the current `ToString` gives the expected text.
   */
  lemma LegacyStringRaises()
    ensures var e := BaseStateError(["hello world", "goodbye world", "l\U{f6}rem ipsum", "l\U{f6}rem ipsum"]);
            && LegacyToString(e) == StrRaises("AttributeError")
            && ToString(e) == "hello world" + "\n" + "goodbye world" + "\n" + "l\U{f6}rem ipsum" + "\n" + "l\U{f6}rem ipsum"
  {
    var a, b, c := "hello world", "goodbye world", "l\U{f6}rem ipsum";
    JoinCons(c, [c]);
    assert [c, c] == [c] + [c];
    JoinCons(b, [c, c]);
    assert [b, c, c] == [b] + [c, c];
    JoinCons(a, [b, c, c]);
    assert [a, b, c, c] == [a] + [b, c, c];
  }

  /** Index of the first newline of `s`. */
  function FirstNewline(s: string): (i: nat)
    requires '\n' in s
    ensures i < |s| && s[i] == '\n' && '\n' !in s[..i]
  {
    if s[0] == '\n' then 0
    else
      assert '\n' in s[1..] by { var k :| 0 <= k < |s| && s[k] == '\n'; assert s[1..][k - 1] == '\n'; }
      var j := FirstNewline(s[1..]);
      assert s[..j + 1] == [s[0]] + s[1..][..j];
      j + 1
  }

  /** `s.split('\n')`, the partner of `Join`. */
  function Split(s: string): (r: seq<string>)
    ensures |r| >= 1
    decreases |s|
  {
    if '\n' !in s then [s]
    else
      var i := FirstNewline(s);
      [s[..i]] + Split(s[i + 1..])
  }

  predicate NoNewline(msgs: seq<string>) {
    forall k :: 0 <= k < |msgs| ==> '\n' !in msgs[k]
  }

  /** `Split` of `p + "\n" + q`, with `p` free of newlines: `p`, then the split of `q`. */
  lemma SplitAfter(p: string, q: string)
    requires '\n' !in p
    ensures Split(p + "\n" + q) == [p] + Split(q)
  {
    var s := p + "\n" + q;
    FirstNewlineAfter(p, q);
    assert s[..|p|] == p;
    assert s[|p| + 1..] == q;
  }

  lemma FirstNewlineAfter(p: string, q: string)
    requires '\n' !in p
    ensures '\n' in p + "\n" + q && FirstNewline(p + "\n" + q) == |p|
  {
    var s := p + "\n" + q;
    assert s[|p|] == '\n';
    assert forall k :: 0 <= k < |p| ==> s[k] == p[k];
    var i := FirstNewline(s);
    assert i <= |p| ==> s[..i] == p[..i];
  }

  /** Splitting the string form of a state error gives its messages back. */
  lemma {:induction false} SplitJoin(msgs: seq<string>)
    requires msgs != [] && NoNewline(msgs)
    ensures Split(Join(msgs)) == msgs
  {
    if |msgs| == 1 {
      assert Join(msgs) == msgs[0];
    } else {
      var rest := msgs[1..];
      assert NoNewline(rest) by {
        forall k | 0 <= k < |rest| ensures '\n' !in rest[k] { assert rest[k] == msgs[k + 1]; }
      }
      assert '\n' !in msgs[0];
      SplitAfter(msgs[0], Join(rest));
      SplitJoin(rest);
      assert msgs == [msgs[0]] + rest;
    }
  }

  /** The string form has one character per message character plus one separator between messages. */
  function TotalLength(msgs: seq<string>): nat
  {
    if msgs == [] then 0 else |msgs[0]| + TotalLength(msgs[1..])
  }

  lemma {:induction false} JoinLength(msgs: seq<string>)
    requires msgs != []
    ensures |Join(msgs)| == TotalLength(msgs) + |msgs| - 1
  {
    if |msgs| > 1 {
      JoinLength(msgs[1..]);
    } else {
      assert msgs[1..] == [];
    }
  }
}
