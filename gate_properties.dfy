/** `GateProperties`: one gate's calibration on one ordered qubit tuple, with
    an open bag of extra fields, and its dictionary form. */
module GateRecords {
  import opened Base
  import Nduvs

  /** `extras` is the `_data` bag filled from `**kwargs`. */
  datatype GateProperties = GateProperties(
    qubits: seq<int>,
    gate: string,
    parameters: seq<Nduvs.Nduv>,
    extras: map<string, Plain>)

  /** The declared parameters of `GateProperties.__init__`, in order. */
  const Declared: seq<string> := ["qubits", "gate", "parameters"]

  /** A record Python can build: `**kwargs` never binds a declared parameter
      or `self` (the call would raise "got multiple values"). */
  predicate WellFormed(g: GateProperties) {
    g.extras.Keys !! {"self", "qubits", "gate", "parameters"}
  }

  /** `GateProperties.to_dict`: the three declared fields, then `_data`
      merged over them. */
  function ToDict(g: GateProperties): map<string, Plain> {
    map["qubits" := PList(IntsToPlain(g.qubits)),
        "gate" := PStr(g.gate),
        "parameters" := PList(Nduvs.ListToPlain(g.parameters))]
    + g.extras
  }

  /** `GateProperties.__eq__`: equality of the dictionary forms. */
  predicate Equal(a: GateProperties, b: GateProperties) {
    ToDict(a) == ToDict(b)
  }

  /** `__getattr__`, reached for any name that is not a declared attribute:
      the extra field of that name, or AttributeError. */
  function Extra(g: GateProperties, name: string): (r: Result<Plain>)
    ensures r.Success? <==> name in g.extras
    ensures r.Success? ==> r.value == g.extras[name]
    ensures r.Failure? ==> r.error == AttributeNotDefined(name)
  {
    if name in g.extras then Success(g.extras[name]) else Failure(AttributeNotDefined(name))
  }

  /** `cls(**in_data)` in `from_dict`: `kwargs` holds every key of the
      dictionary but "parameters", whose already converted list (if the key
      was there) is `parameters`. Missing declared parameters are reported in
      declared order, after a "self" keyword, which repeats the bound `self`;
      the rest of `kwargs` becomes the extra fields. */
  function Bind(kwargs: map<string, Plain>, parameters: Option<seq<Nduvs.Nduv>>): (r: Result<GateProperties>)
    requires "parameters" !in kwargs
    ensures "self" in kwargs ==> r == Failure(MultipleValues({"self"}))
    ensures r.Success? ==> && parameters.Some? && r.value.parameters == parameters.value
                           && "qubits" in kwargs && kwargs["qubits"] == PList(IntsToPlain(r.value.qubits))
                           && "gate" in kwargs && kwargs["gate"] == PStr(r.value.gate)
                           && r.value.extras == kwargs - {"qubits", "gate"}
  {
    var present := kwargs.Keys + (if parameters.Some? then {"parameters"} else {});
    if "self" in kwargs then Failure(MultipleValues({"self"}))
    else if MissingNames(Declared, present) != [] then Failure(MissingArguments(MissingNames(Declared, present)))
    else
      assert Declared[0] in present && Declared[1] in present && Declared[2] in present;
      var qubits :- PlainToInts("qubits", kwargs["qubits"]);
      if !kwargs["gate"].PStr? then Failure(WrongType("gate"))
      else Success(GateProperties(qubits, kwargs["gate"].s, parameters.value, kwargs - {"qubits", "gate"}))
  }

  /** What `GateProperties.from_dict` yields: "parameters" goes through
      `Nduv.from_dict` element by element, every other key passes through. */
  function Decode(data: Plain): (r: Result<GateProperties>)
  {
    if !data.PDict? then Failure(NotAMapping)
    else
      var d := data.entries;
      if "parameters" in d then
        var ps :- Nduvs.ListFromPlain("parameters", d["parameters"]);
        Bind(d - {"parameters"}, Some(ps))
      else Bind(d, None)
  }

  /** `GateProperties.from_dict`: one pass over the dictionary's items. */
  method FromDict(data: Plain) returns (r: Result<GateProperties>)
    ensures r == Decode(data)
  {
    if !data.PDict? {
      return Failure(NotAMapping);
    }
    var d := data.entries;
    var pending := d.Keys;
    var kwargs: map<string, Plain> := map[];
    var parameters: Option<seq<Nduvs.Nduv>> := None;
    while pending != {}
      invariant pending <= d.Keys
      invariant kwargs == map k | k in d.Keys - pending && k != "parameters" :: d[k]
      invariant parameters.Some? <==> "parameters" in d.Keys - pending
      invariant parameters.Some? ==> Nduvs.ListFromPlain("parameters", d["parameters"]) == Success(parameters.value)
      decreases pending
    {
      var key :| key in pending;
      if key == "parameters" {
        var parsed := Nduvs.ListFromPlain("parameters", d[key]);
        if parsed.Failure? {
          return Failure(parsed.error);
        }
        parameters := Some(parsed.value);
      } else {
        kwargs := kwargs[key := d[key]];
      }
      pending := pending - {key};
    }
    assert kwargs == d - {"parameters"};
    if "parameters" !in d {
      assert kwargs == d;
    }
    r := Bind(kwargs, parameters);
  }

  /** `from_dict` inverts `to_dict`, extra fields included. */
  lemma RoundTrip(g: GateProperties)
    requires WellFormed(g)
    ensures Decode(PDict(ToDict(g))) == Success(g)
  {
    var d := ToDict(g);
    assert "parameters" in d && d["parameters"] == PList(Nduvs.ListToPlain(g.parameters));
    Nduvs.ListRoundTrip("parameters", g.parameters);
    BindRoundTrip(g);
  }

  lemma BindRoundTrip(g: GateProperties)
    requires WellFormed(g)
    ensures Bind(ToDict(g) - {"parameters"}, Some(g.parameters)) == Success(g)
  {
    var kwargs := ToDict(g) - {"parameters"};
    IntsRoundTrip("qubits", g.qubits);
    assert "qubits" in kwargs && kwargs["qubits"] == PList(IntsToPlain(g.qubits));
    assert "gate" in kwargs && kwargs["gate"] == PStr(g.gate);
    assert MissingNames(Declared, kwargs.Keys + {"parameters"}) == [];
    assert kwargs - {"qubits", "gate"} == g.extras;
  }

  /** ... accepts exactly the image of `to_dict`, and passes every key that
      is not a declared parameter through to the extra fields verbatim. */
  lemma DecodeExact(data: Plain)
    requires Decode(data).Success?
    ensures WellFormed(Decode(data).value)
    ensures data == PDict(ToDict(Decode(data).value))
  {
    var d := data.entries;
    DecodeUnfold(data);
    var ps := Nduvs.ListFromPlain("parameters", d["parameters"]).value;
    Nduvs.ListFromPlainExact("parameters", d["parameters"]);
    BindExact(d - {"parameters"}, ps, Decode(data).value);
    Reinsert(d, "parameters");
  }

  /** Removing a key and putting its value back gives the same map. */
  lemma Reinsert(d: map<string, Plain>, k: string)
    requires k in d
    ensures d == (d - {k})[k := d[k]]
  {
  }

  lemma BindExact(kwargs: map<string, Plain>, ps: seq<Nduvs.Nduv>, g: GateProperties)
    requires "parameters" !in kwargs
    requires Bind(kwargs, Some(ps)) == Success(g)
    ensures WellFormed(g)
    ensures kwargs["parameters" := PList(Nduvs.ListToPlain(ps))] == ToDict(g)
  {
    var t := ToDict(g);
    var d := kwargs["parameters" := PList(Nduvs.ListToPlain(ps))];
    forall k | k in d
      ensures k in t && t[k] == d[k]
    {
      if k !in {"qubits", "gate", "parameters"} {
        assert k in g.extras;
      }
    }
    assert d == t;
  }

  lemma DecodeUnfold(data: Plain)
    requires Decode(data).Success?
    ensures data.PDict? && "parameters" in data.entries
    ensures Nduvs.ListFromPlain("parameters", data.entries["parameters"]).Success?
    ensures Decode(data) == Bind(data.entries - {"parameters"},
                                 Some(Nduvs.ListFromPlain("parameters", data.entries["parameters"]).value))
  {
  }

  /** Every key that is not a declared parameter reaches the extra fields
      verbatim; no other name does. */
  lemma DecodeKeepsExtras(data: Plain, k: string)
    requires Decode(data).Success?
    requires k !in {"qubits", "gate", "parameters"}
    ensures Extra(Decode(data).value, k) == (if k in data.entries then Success(data.entries[k])
                                             else Failure(AttributeNotDefined(k)))
  {
    DecodeExact(data);
  }

  /** `__eq__` is structural equality on records Python can build. */
  lemma EqualIsStructural(a: GateProperties, b: GateProperties)
    requires WellFormed(a) && WellFormed(b)
    ensures Equal(a, b) <==> a == b
  {
    if Equal(a, b) {
      RoundTrip(a);
      RoundTrip(b);
    }
  }

  /** A "self" key makes `cls(**in_data)` raise "got multiple values", once
      the "parameters" list has been converted. */
  lemma SelfKeyRefused(data: Plain)
    requires data.PDict? && "self" in data.entries
    requires "parameters" in data.entries ==>
               Nduvs.ListFromPlain("parameters", data.entries["parameters"]).Success?
    ensures Decode(data) == Failure(MultipleValues({"self"}))
  {
  }

  /** A dictionary without "qubits", "gate" or "parameters" is refused: the
      declared fields are never defaulted. */
  lemma MissingDeclaredFails(data: Plain, k: string)
    requires data.PDict? && k in Declared && k !in data.entries
    ensures Decode(data).Failure?
  {
  }
}
