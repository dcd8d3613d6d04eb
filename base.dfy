/** Shared vocabulary of the calibration-snapshot model: failure wrappers, the
    plain (dictionary / list / primitive) values used for interchange, the
    errors the Python code raises, and the foreign collaborators it calls. */
module Base {

  datatype Option<+T> = None | Some(value: T)

  /** A Python call that either returns a value or raises `error`. */
  datatype Result<+T> = Success(value: T) | Failure(error: Error) {
    predicate IsFailure() { Failure? }

    function PropagateFailure<U>(): Result<U>
      requires Failure?
    {
      Failure(error)
    }

    function Extract(): T
      requires Success?
    {
      value
    }
  }

  /** A point in time (Python `datetime.datetime`); nothing here depends on
      what it is beyond equality. */
  type Date(==, !new)

  /** A plain value of the nested dictionary form: what `to_dict` produces
      and `from_dict` consumes. Dictionary keys are strings. */
  datatype Plain =
    | PNone
    | PInt(i: int)
    | PReal(r: real)
    | PStr(s: string)
    | PDate(d: Date)
    | PList(items: seq<Plain>)
    | PDict(entries: map<string, Plain>)

  /** The exceptions the core raises, one constructor per kind. */
  datatype Error =
      /** `_apply_prefix`: the unit resolver rejected `unit` (ValueError). */
    | UnitNotUnderstood(unit: string)
      /** `dateutil.parser.isoparse` rejected the text (ValueError). */
    | InvalidIsoDate(text: string)
      /** `gate_property`: a missing gate, qubit tuple or name (ValueError). */
    | GatePropertyNotFound(gate: string)
      /** `gate_property`: a name was given without qubits (ValueError). */
    | QubitsRequired(gate: string, property: string)
      /** `qubit_property`: no properties for the qubit (`name` is None) or
          no property of that name (ValueError). */
    | QubitPropertyNotFound(qubit: int, named: Option<string>)
      /** `__getattr__`: an undeclared extra field (AttributeError). */
    | AttributeNotDefined(name: string)
      /** `cls(**data)` with keys that are no parameter (TypeError). */
    | UnexpectedArguments(unexpected: set<string>)
      /** `cls(**data)` without some required parameters, in declared order
          (TypeError). */
    | MissingArguments(required: seq<string>)
      /** A keyword argument that repeats a declared parameter (TypeError). */
    | MultipleValues(repeated: set<string>)
      /** `cls(**data)` or `.items()` on something that is not a dictionary. */
    | NotAMapping
      /** `dict.pop(key)` on an absent key (KeyError). */
    | MissingKey(key: string)
      /** A field whose plain value has the wrong shape for the model. */
    | WrongType(field: string)
      /** `list(None)`: an operation with timing data but no qubit arguments
          (TypeError). */
    | NoneQubitArguments(operation: string)
      /** `qargs[0]` on an empty qubit tuple (IndexError). */
    | EmptyQubitArguments

  /** The foreign functions the core relies on: `qiskit.utils.units.apply_prefix`
      (None when it raises) and `dateutil.parser.isoparse` (None when it raises). */
  datatype Externals = Externals(
    applyPrefix: (real, string) -> Option<real>,
    isoParse: string -> Option<Date>)

  /** The names in `required` that are absent from `present`, in order. */
  function MissingNames(required: seq<string>, present: set<string>): (r: seq<string>)
    ensures forall k :: k in r <==> k in required && k !in present
    ensures r == [] <==> forall k :: k in required ==> k in present
  {
    if required == [] then []
    else
      (if required[0] in present then [] else [required[0]])
      + MissingNames(required[1..], present)
  }

  /** Python `str(n)` for a natural number. */
  function NatToString(n: nat): string
    decreases n
  {
    if n < 10 then ["0123456789"[n]]
    else NatToString(n / 10) + ["0123456789"[n % 10]]
  }

  /** Python `str(x)` for an integer. */
  function IntToString(x: int): string {
    if x < 0 then "-" + NatToString(-x) else NatToString(x)
  }

  /** Python `sep.join(parts)`. */
  function Join(sep: string, parts: seq<string>): string {
    if parts == [] then ""
    else if |parts| == 1 then parts[0]
    else parts[0] + sep + Join(sep, parts[1..])
  }

  /** Python `[str(x) for x in xs]`. */
  function IntStrings(xs: seq<int>): (r: seq<string>)
    ensures |r| == |xs|
  {
    if xs == [] then [] else [IntToString(xs[0])] + IntStrings(xs[1..])
  }

  /** A list of Python ints as plain values. */
  function IntsToPlain(xs: seq<int>): (r: seq<Plain>)
    ensures |r| == |xs| && forall i :: 0 <= i < |xs| ==> r[i] == PInt(xs[i])
  {
    if xs == [] then [] else [PInt(xs[0])] + IntsToPlain(xs[1..])
  }

  /** Reads a plain list of ints back; the inverse of `IntsToPlain`. */
  function PlainToInts(field: string, v: Plain): (r: Result<seq<int>>)
    ensures r.Success? <==> v.PList? && forall i :: 0 <= i < |v.items| ==> v.items[i].PInt?
    ensures r.Success? ==> IntsToPlain(r.value) == v.items
    ensures r.Failure? ==> r.error == WrongType(field)
  {
    if v.PList? && forall i :: 0 <= i < |v.items| ==> v.items[i].PInt?
    then Success(seq(|v.items|, i requires 0 <= i < |v.items| => v.items[i].i))
    else Failure(WrongType(field))
  }

  lemma IntsRoundTrip(field: string, xs: seq<int>)
    ensures PlainToInts(field, PList(IntsToPlain(xs))) == Success(xs)
  {
    var back := PlainToInts(field, PList(IntsToPlain(xs))).value;
    assert |back| == |xs| && forall i :: 0 <= i < |xs| ==> back[i] == xs[i];
    assert back == xs;
  }

  /** `[f(x) for x in items]` where `f` may raise: the first element that
      fails stops the whole list. */
  function Collect<X>(items: seq<Plain>, f: Plain -> Result<X>): (r: Result<seq<X>>)
    ensures r.Success? <==> forall i :: 0 <= i < |items| ==> f(items[i]).Success?
    ensures r.Success? ==> |r.value| == |items|
                           && forall i :: 0 <= i < |items| ==> f(items[i]) == Success(r.value[i])
    ensures r.Failure? ==> exists i :: 0 <= i < |items| && f(items[i]) == Failure(r.error)
                                       && forall j :: 0 <= j < i ==> f(items[j]).Success?
    decreases |items|
  {
    if items == [] then Success([])
    else
      var n := |items| - 1;
      assert forall i :: 0 <= i < n ==> items[..n][i] == items[i];
      var init :- Collect(items[..n], f);
      var last :- f(items[n]);
      Success(init + [last])
  }

  /** When element `i` is the first to fail, its error is the list's. */
  lemma CollectFailsAt<X>(items: seq<Plain>, f: Plain -> Result<X>, i: int)
    requires 0 <= i < |items| && f(items[i]).Failure?
    requires forall j :: 0 <= j < i ==> f(items[j]).Success?
    ensures Collect(items, f) == Failure(f(items[i]).error)
  {
    var k :| 0 <= k < |items| && f(items[k]) == Failure(Collect(items, f).error)
             && forall j :: 0 <= j < k ==> f(items[j]).Success?;
    assert k == i;
  }

  /** When every element converts, the list is the converted elements. */
  lemma CollectAll<X>(items: seq<Plain>, f: Plain -> Result<X>, xs: seq<X>)
    requires |xs| == |items| && forall j :: 0 <= j < |items| ==> f(items[j]) == Success(xs[j])
    ensures Collect(items, f) == Success(xs)
  {
    assert Collect(items, f).value == xs;
  }
}
