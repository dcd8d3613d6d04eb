/** `AerBackendProperties`: a calibration snapshot of a backend (its qubit,
    gate and general properties), the two lookup indices its constructor
    builds, the read-only accessors over them and the dictionary form. */
module BackendProps {
  import opened Base
  import Nduvs
  import GateRecords
  import opened PropertyIndex

  /** The constructor's arguments, which are also the public attributes;
      `extras` is `_data`, filled from `**kwargs`. */
  datatype Snapshot = Snapshot(
    backendName: string,
    backendVersion: string,
    lastUpdateDate: Plain,
    qubits: seq<seq<Nduvs.Nduv>>,
    gates: seq<GateRecords.GateProperties>,
    general: seq<Nduvs.Nduv>,
    extras: map<string, Plain>)

  /** The declared parameters of `__init__`, which are the keys `from_dict`
      pops. */
  const CoreKeys: set<string> :=
    {"backend_name", "backend_version", "last_update_date", "qubits", "gates", "general"}

  /** The parameter names of `__init__`, `self` included: a keyword argument
      with one of these names raises "got multiple values". */
  const Parameters: set<string> := CoreKeys + {"self"}

  /** Arguments whose dictionary form reads back as themselves: no extra
      field shadows one of the six keys, and every gate record is one
      `GateProperties` can build. */
  predicate WellFormed(s: Snapshot) {
    && s.extras.Keys !! CoreKeys
    && forall i :: 0 <= i < |s.gates| ==> GateRecords.WellFormed(s.gates[i])
  }

  /** The `qubits` argument of `gate_property` and friends: None, an `int`,
      or an iterable of ints. */
  datatype QubitsArg = NoQubits | OneQubit(q: int) | QubitTuple(qs: seq<int>)

  /** `tuple(qubits)`, after an `int` has become the 1-tuple `(q,)`. */
  function Key(a: QubitsArg): seq<int>
    requires !a.NoQubits?
  {
    if a.OneQubit? then [a.q] else a.qs
  }

  /** What a lookup returns: the tuple-keyed table of a gate, one property
      dictionary, or one (value, date) pair. */
  datatype Lookup =
    | Table(byQubits: map<seq<int>, PropMap>)
    | Props(props: PropMap)
    | Prop(property: Property)

  /** Python truthiness of an optional name: None and "" are false. */
  predicate Truthy(name: Option<string>) {
    name.Some? && name.value != ""
  }

  /** Python `bool(x)` for a float. */
  predicate Truth(x: real) {
    x != 0.0
  }

  /** The verdict of the operational check on a property dictionary: no
      "operational" entry, or a truthy one. */
  predicate Operational(props: PropMap) {
    "operational" in props ==> Truth(props["operational"].0)
  }

  /** The same verdict read off a parameter list: the last "operational"
      parameter, if any, resolves to a truthy value. */
  predicate OperationalIn(units: Resolver, ps: seq<Nduvs.Nduv>) {
    forall k :: 0 <= k < |ps| && LastNamed(ps, k) && ps[k].name == "operational" ==>
      Resolves(units, ps[k]) && Truth(units(ps[k].value, ps[k].unit).value)
  }

  // ---------------------------------------------------------------------
  // Dictionary form

  function QubitsToPlain(qubits: seq<seq<Nduvs.Nduv>>): (r: seq<Plain>)
    ensures |r| == |qubits| && forall i :: 0 <= i < |qubits| ==> r[i] == PList(Nduvs.ListToPlain(qubits[i]))
  {
    seq(|qubits|, i requires 0 <= i < |qubits| => PList(Nduvs.ListToPlain(qubits[i])))
  }

  function GatesToPlain(gates: seq<GateRecords.GateProperties>): (r: seq<Plain>)
    ensures |r| == |gates| && forall i :: 0 <= i < |gates| ==> r[i] == PDict(GateRecords.ToDict(gates[i]))
  {
    seq(|gates|, i requires 0 <= i < |gates| => PDict(GateRecords.ToDict(gates[i])))
  }

  /** `to_dict`: the six declared attributes, then `_data` merged over them. */
  function Encode(s: Snapshot): map<string, Plain> {
    Declared(s) + s.extras
  }

  /** The six declared attributes in their dictionary form. */
  function Declared(s: Snapshot): map<string, Plain> {
    map["backend_name" := PStr(s.backendName),
        "backend_version" := PStr(s.backendVersion),
        "last_update_date" := s.lastUpdateDate,
        "qubits" := PList(QubitsToPlain(s.qubits)),
        "gates" := PList(GatesToPlain(s.gates)),
        "general" := PList(Nduvs.ListToPlain(s.general))]
  }

  /** `dict.pop(key)` without a default. */
  function Pop(d: map<string, Plain>, key: string): (r: Result<Plain>)
    ensures r.Success? <==> key in d
    ensures r.Success? ==> r.value == d[key]
    ensures r.Failure? ==> r.error == MissingKey(key)
  {
    if key in d then Success(d[key]) else Failure(MissingKey(key))
  }

  /** One element of the "qubits" list: a list of `Nduv` dictionaries. */
  function QubitFromPlain(v: Plain): (r: Result<seq<Nduvs.Nduv>>)
    ensures !v.PList? ==> r == Failure(WrongType("qubits"))
    ensures v.PList? ==> r == Nduvs.ListFromItems(v.items)
  {
    Nduvs.ListFromPlain("qubits", v)
  }

  /** The nested loop over the popped "qubits" value. */
  function QubitsFromPlain(v: Plain): (r: Result<seq<seq<Nduvs.Nduv>>>)
    ensures !v.PList? ==> r == Failure(WrongType("qubits"))
    ensures r.Success? <==> v.PList? && forall i :: 0 <= i < |v.items| ==> QubitFromPlain(v.items[i]).Success?
    ensures r.Success? ==> |r.value| == |v.items|
                           && forall i :: 0 <= i < |v.items| ==> QubitFromPlain(v.items[i]) == Success(r.value[i])
  {
    if !v.PList? then Failure(WrongType("qubits")) else Collect(v.items, QubitFromPlain)
  }

  /** `[GateProperties.from_dict(x) for x in in_data.pop("gates")]`. */
  function GatesFromPlain(v: Plain): (r: Result<seq<GateRecords.GateProperties>>)
    ensures !v.PList? ==> r == Failure(WrongType("gates"))
    ensures r.Success? <==> v.PList? && forall i :: 0 <= i < |v.items| ==> GateRecords.Decode(v.items[i]).Success?
    ensures r.Success? ==> |r.value| == |v.items|
                           && forall i :: 0 <= i < |v.items| ==> GateRecords.Decode(v.items[i]) == Success(r.value[i])
  {
    if !v.PList? then Failure(WrongType("gates")) else Collect(v.items, GateRecords.Decode)
  }

  /** The first three pops of `from_dict`: name, version and date, as they
      are. */
  function PopHeader(d: map<string, Plain>): (r: Result<(Plain, Plain, Plain)>)
    ensures r.Success? <==> "backend_name" in d && "backend_version" in d && "last_update_date" in d
    ensures r.Success? ==> r.value == (d["backend_name"], d["backend_version"], d["last_update_date"])
  {
    var name :- Pop(d, "backend_name");
    var version :- Pop(d, "backend_version");
    var date :- Pop(d, "last_update_date");
    Success((name, version, date))
  }

  /** The last three pops of `from_dict`, each value converted as soon as it
      is popped. */
  function PopLists(d: map<string, Plain>): (r: Result<(seq<seq<Nduvs.Nduv>>, seq<GateRecords.GateProperties>, seq<Nduvs.Nduv>)>)
    ensures r.Success? <==> && "qubits" in d && QubitsFromPlain(d["qubits"]).Success?
                            && "gates" in d && GatesFromPlain(d["gates"]).Success?
                            && "general" in d && Nduvs.ListFromPlain("general", d["general"]).Success?
    ensures r.Success? ==> && QubitsFromPlain(d["qubits"]) == Success(r.value.0)
                           && GatesFromPlain(d["gates"]) == Success(r.value.1)
                           && Nduvs.ListFromPlain("general", d["general"]) == Success(r.value.2)
  {
    var qubitsValue :- Pop(d, "qubits");
    var qubits :- QubitsFromPlain(qubitsValue);
    var gatesValue :- Pop(d, "gates");
    var gates :- GatesFromPlain(gatesValue);
    var generalValue :- Pop(d, "general");
    var general :- Nduvs.ListFromPlain("general", generalValue);
    Success((qubits, gates, general))
  }

  /** The arguments `from_dict` hands to the constructor: the six keys are
      popped in order, and what is left of the dictionary becomes
      `**kwargs`. */
  function Decode(data: Plain): (r: Result<Snapshot>)
  {
    if !data.PDict? then Failure(NotAMapping)
    else
      var header :- PopHeader(data.entries);
      var lists :- PopLists(data.entries);
      if !header.0.PStr? then Failure(WrongType("backend_name"))
      else if !header.1.PStr? then Failure(WrongType("backend_version"))
      else Success(Snapshot(header.0.s, header.1.s, header.2, lists.0, lists.1, lists.2,
                            data.entries - CoreKeys))
  }

  // ---------------------------------------------------------------------
  // Construction

  /** `last_update_date` as `__init__` stores it: a string goes through the
      ISO parser, anything else is kept. */
  function NormalizeDate(date: Plain, isoParse: string -> Option<Date>): (r: Result<Plain>)
    ensures r.Success? <==> !date.PStr? || isoParse(date.s).Some?
    ensures r.Success? ==> !r.value.PStr?
    ensures r.Success? && !date.PStr? ==> r.value == date
    ensures r.Success? && date.PStr? ==> r.value == PDate(isoParse(date.s).value)
    ensures r.Failure? ==> r.error == InvalidIsoDate(date.s)
  {
    if !date.PStr? then Success(date)
    else match isoParse(date.s)
      case Some(d) => Success(PDate(d))
      case None => Failure(InvalidIsoDate(date.s))
  }

  /** The attributes `__init__` leaves, or the exception it raises, in the
      order it raises them: a keyword argument repeating a parameter, an
      unparsable date string, then a unit the resolver rejects while the
      qubit index, and after it the gate index, is built. */
  function Initialize(args: Snapshot, env: Externals): (r: Result<Snapshot>)
    ensures r.Success? <==> && args.extras.Keys !! Parameters
                            && (!args.lastUpdateDate.PStr? || env.isoParse(args.lastUpdateDate.s).Some?)
                            && QubitsResolve(args.qubits, env.applyPrefix)
                            && GatesResolve(args.gates, env.applyPrefix)
    ensures r.Success? ==> r.value == args.(lastUpdateDate := NormalizeDate(args.lastUpdateDate, env.isoParse).value)
    ensures !(args.extras.Keys !! Parameters) ==> r == Failure(MultipleValues(args.extras.Keys * Parameters))
    ensures args.extras.Keys !! Parameters && NormalizeDate(args.lastUpdateDate, env.isoParse).Failure? ==>
              r == Failure(InvalidIsoDate(args.lastUpdateDate.s))
    ensures r.Failure? && args.extras.Keys !! Parameters && NormalizeDate(args.lastUpdateDate, env.isoParse).Success?
            && !QubitsResolve(args.qubits, env.applyPrefix) ==>
              exists i, k :: 0 <= i < |args.qubits| && 0 <= k < |args.qubits[i]|
                             && !Resolves(env.applyPrefix, args.qubits[i][k])
                             && r.error == UnitNotUnderstood(args.qubits[i][k].unit)
    ensures r.Failure? && args.extras.Keys !! Parameters && NormalizeDate(args.lastUpdateDate, env.isoParse).Success?
            && QubitsResolve(args.qubits, env.applyPrefix) ==>
              exists i, k :: 0 <= i < |args.gates| && 0 <= k < |args.gates[i].parameters|
                             && !Resolves(env.applyPrefix, args.gates[i].parameters[k])
                             && r.error == UnitNotUnderstood(args.gates[i].parameters[k].unit)
  {
    QubitIndexOutcome(args.qubits, env.applyPrefix);
    GateIndexOutcome(args.gates, env.applyPrefix);
    if !(args.extras.Keys !! Parameters) then Failure(MultipleValues(args.extras.Keys * Parameters))
    else
      var date :- NormalizeDate(args.lastUpdateDate, env.isoParse);
      var qubitIndex :- QubitIndexOf(args.qubits, env.applyPrefix);
      var gateIndex :- GateIndexOf(args.gates, env.applyPrefix);
      Success(args.(lastUpdateDate := date))
  }

  /** What `from_dict` yields: the decoded arguments, then the constructor. */
  function Load(data: Plain, env: Externals): Result<Snapshot> {
    var args :- Decode(data);
    Initialize(args, env)
  }

  /** The nested loop of `from_dict` over the popped "qubits" value. */
  method ReadQubits(v: Plain) returns (r: Result<seq<seq<Nduvs.Nduv>>>)
    ensures r == QubitsFromPlain(v)
  {
    if !v.PList? {
      return Failure(WrongType("qubits"));
    }
    var qubits: seq<seq<Nduvs.Nduv>> := [];
    for i := 0 to |v.items|
      invariant |qubits| == i
      invariant forall j :: 0 <= j < i ==> QubitFromPlain(v.items[j]) == Success(qubits[j])
    {
      var qubit := v.items[i];
      if !qubit.PList? {
        CollectFailsAt(v.items, QubitFromPlain, i);
        return Failure(WrongType("qubits"));
      }
      var nduvs := ReadNduvs(qubit.items);
      if nduvs.Failure? {
        CollectFailsAt(v.items, QubitFromPlain, i);
        return Failure(nduvs.error);
      }
      qubits := qubits + [nduvs.value];
    }
    CollectAll(v.items, QubitFromPlain, qubits);
    return Success(qubits);
  }

  /** The inner loop: `Nduv.from_dict` of each element, in order. */
  method ReadNduvs(items: seq<Plain>) returns (r: Result<seq<Nduvs.Nduv>>)
    ensures r == Nduvs.ListFromItems(items)
  {
    var nduvs: seq<Nduvs.Nduv> := [];
    for k := 0 to |items|
      invariant |nduvs| == k
      invariant forall j :: 0 <= j < k ==> Nduvs.FromDict(items[j]) == Success(nduvs[j])
    {
      var nduv := Nduvs.FromDict(items[k]);
      if nduv.Failure? {
        var i :| 0 <= i < |items| && Nduvs.FromDict(items[i]) == Failure(Nduvs.ListFromItems(items).error)
                 && forall j :: 0 <= j < i ==> Nduvs.FromDict(items[j]).Success?;
        assert i == k;
        return Failure(nduv.error);
      }
      nduvs := nduvs + [nduv.value];
    }
    assert Nduvs.ListFromItems(items).value == nduvs;
    return Success(nduvs);
  }

  /** The comprehension of `from_dict` over the popped "gates" value. */
  method ReadGates(v: Plain) returns (r: Result<seq<GateRecords.GateProperties>>)
    ensures r == GatesFromPlain(v)
  {
    if !v.PList? {
      return Failure(WrongType("gates"));
    }
    var gates: seq<GateRecords.GateProperties> := [];
    for i := 0 to |v.items|
      invariant |gates| == i
      invariant forall j :: 0 <= j < i ==> GateRecords.Decode(v.items[j]) == Success(gates[j])
    {
      var gate := GateRecords.FromDict(v.items[i]);
      if gate.Failure? {
        CollectFailsAt(v.items, GateRecords.Decode, i);
        return Failure(gate.error);
      }
      gates := gates + [gate.value];
    }
    assert Collect(v.items, GateRecords.Decode).value == gates;
    return Success(gates);
  }

  /** The pops of `from_dict`, on a copy of the dictionary: what is left
      after the six pops is `**kwargs`. */
  method ReadArguments(data: Plain) returns (r: Result<Snapshot>)
    ensures r == Decode(data)
  {
    if !data.PDict? {
      return Failure(NotAMapping);
    }
    var inData := data.entries;
    if "backend_name" !in inData {
      return Failure(MissingKey("backend_name"));
    }
    var name := inData["backend_name"];
    inData := inData - {"backend_name"};
    if "backend_version" !in inData {
      return Failure(MissingKey("backend_version"));
    }
    var version := inData["backend_version"];
    inData := inData - {"backend_version"};
    if "last_update_date" !in inData {
      return Failure(MissingKey("last_update_date"));
    }
    var date := inData["last_update_date"];
    inData := inData - {"last_update_date"};
    assert PopHeader(data.entries) == Success((name, version, date));
    var lists := ReadLists(inData);
    PopListsIgnores(data.entries, {"backend_name", "backend_version", "last_update_date"});
    assert inData == data.entries - {"backend_name", "backend_version", "last_update_date"};
    if lists.Failure? {
      return Failure(lists.error);
    }
    inData := inData - {"qubits", "gates", "general"};
    if !name.PStr? {
      return Failure(WrongType("backend_name"));
    }
    if !version.PStr? {
      return Failure(WrongType("backend_version"));
    }
    assert inData == data.entries - CoreKeys;
    return Success(Snapshot(name.s, version.s, date, lists.value.0, lists.value.1, lists.value.2, inData));
  }

  /** Popping other keys first does not change the last three pops. */
  lemma PopListsIgnores(d: map<string, Plain>, popped: set<string>)
    requires popped !! {"qubits", "gates", "general"}
    ensures PopLists(d - popped) == PopLists(d)
  {
    var e := d - popped;
    assert forall k :: k in {"qubits", "gates", "general"} ==> (k in e <==> k in d) && (k in e ==> e[k] == d[k]);
  }

  /** The last three pops of `from_dict`, with its loops. */
  method ReadLists(d: map<string, Plain>)
    returns (r: Result<(seq<seq<Nduvs.Nduv>>, seq<GateRecords.GateProperties>, seq<Nduvs.Nduv>)>)
    ensures r == PopLists(d)
  {
    if "qubits" !in d {
      return Failure(MissingKey("qubits"));
    }
    var qubits := ReadQubits(d["qubits"]);
    if qubits.Failure? {
      return Failure(qubits.error);
    }
    if "gates" !in d {
      return Failure(MissingKey("gates"));
    }
    var gates := ReadGates(d["gates"]);
    if gates.Failure? {
      return Failure(gates.error);
    }
    if "general" !in d {
      return Failure(MissingKey("general"));
    }
    var general := Nduvs.ListFromPlain("general", d["general"]);
    if general.Failure? {
      return Failure(general.error);
    }
    return Success((qubits.value, gates.value, general.value));
  }

  /** The nested loop of `to_dict` over the qubit lists. */
  method WriteQubits(qubits: seq<seq<Nduvs.Nduv>>) returns (out: seq<Plain>)
    ensures out == QubitsToPlain(qubits)
  {
    out := [];
    for i := 0 to |qubits|
      invariant |out| == i && forall j :: 0 <= j < i ==> out[j] == PList(Nduvs.ListToPlain(qubits[j]))
    {
      var props: seq<Plain> := [];
      for k := 0 to |qubits[i]|
        invariant |props| == k && forall j :: 0 <= j < k ==> props[j] == PDict(Nduvs.ToDict(qubits[i][j]))
      {
        props := props + [PDict(Nduvs.ToDict(qubits[i][k]))];
      }
      assert props == Nduvs.ListToPlain(qubits[i]);
      out := out + [PList(props)];
    }
    assert out == QubitsToPlain(qubits);
  }

  // ---------------------------------------------------------------------
  // The object

  class AerBackendProperties {
    const backendName: string
    const backendVersion: string
    const lastUpdateDate: Plain
    const qubits: seq<seq<Nduvs.Nduv>>
    const gates: seq<GateRecords.GateProperties>
    const general: seq<Nduvs.Nduv>
    /** `_data`. */
    const extras: map<string, Plain>
    /** The `apply_prefix` the indices were built with. */
    const units: Resolver
    /** `_qubits`. */
    const qubitIndex: QubitIndex
    /** `_gates`. */
    const gateIndex: GateIndex

    /** The public attributes, as one value. */
    function Data(): Snapshot {
      Snapshot(backendName, backendVersion, lastUpdateDate, qubits, gates, general, extras)
    }

    /** What every object built by `__init__` satisfies: the date is no
        longer a string, `_data` repeats no parameter, and both indices are
        the ones the constructor's loops compute. */
    ghost predicate Valid() {
      && !lastUpdateDate.PStr?
      && extras.Keys !! Parameters
      && QubitIndexOf(qubits, units) == Success(qubitIndex)
      && GateIndexOf(gates, units) == Success(gateIndex)
    }

    /** The attribute assignments that end `__init__`. */
    constructor (data: Snapshot, units: Resolver, qubitIndex: QubitIndex, gateIndex: GateIndex)
      requires !data.lastUpdateDate.PStr? && data.extras.Keys !! Parameters
      requires QubitIndexOf(data.qubits, units) == Success(qubitIndex)
      requires GateIndexOf(data.gates, units) == Success(gateIndex)
      ensures Data() == data
      ensures this.units == units && this.qubitIndex == qubitIndex && this.gateIndex == gateIndex
      ensures Valid()
    {
      backendName := data.backendName;
      backendVersion := data.backendVersion;
      lastUpdateDate := data.lastUpdateDate;
      qubits := data.qubits;
      gates := data.gates;
      general := data.general;
      extras := data.extras;
      this.units := units;
      this.qubitIndex := qubitIndex;
      this.gateIndex := gateIndex;
    }

    /** `__init__`: parse the date, then fill `_qubits` and `_gates`; any
        failure means no object. */
    static method Create(args: Snapshot, env: Externals) returns (r: Result<AerBackendProperties>)
      ensures r.Failure? <==> Initialize(args, env).Failure?
      ensures r.Failure? ==> r.error == Initialize(args, env).error
      ensures r.Success? ==> && fresh(r.value) && r.value.Valid()
                             && r.value.Data() == Initialize(args, env).value
                             && r.value.units == env.applyPrefix
    {
      if !(args.extras.Keys !! Parameters) {
        return Failure(MultipleValues(args.extras.Keys * Parameters));
      }
      var date := NormalizeDate(args.lastUpdateDate, env.isoParse);
      if date.Failure? {
        return Failure(date.error);
      }
      var qubitIndex := BuildQubitIndex(args.qubits, env.applyPrefix);
      if qubitIndex.Failure? {
        return Failure(qubitIndex.error);
      }
      var gateIndex := BuildGateIndex(args.gates, env.applyPrefix);
      if gateIndex.Failure? {
        return Failure(gateIndex.error);
      }
      var p := new AerBackendProperties(args.(lastUpdateDate := date.value), env.applyPrefix,
                                        qubitIndex.value, gateIndex.value);
      return Success(p);
    }

    /** `from_dict`: pop and convert the six keys, then call the
        constructor with the rest as keyword arguments. */
    static method FromDict(data: Plain, env: Externals) returns (r: Result<AerBackendProperties>)
      ensures r.Failure? <==> Load(data, env).Failure?
      ensures r.Failure? ==> r.error == Load(data, env).error
      ensures r.Success? ==> && fresh(r.value) && r.value.Valid()
                             && r.value.Data() == Load(data, env).value
                             && r.value.units == env.applyPrefix
    {
      var args := ReadArguments(data);
      if args.Failure? {
        return Failure(args.error);
      }
      r := Create(args.value, env);
    }

    /** `to_dict`. */
    method ToDict() returns (d: map<string, Plain>)
      ensures d == Encode(Data())
    {
      d := map["backend_name" := PStr(backendName),
               "backend_version" := PStr(backendVersion),
               "last_update_date" := lastUpdateDate];
      var qubitsOut := WriteQubits(qubits);
      d := d["qubits" := PList(qubitsOut)];
      d := d["gates" := PList(GatesToPlain(gates))];
      d := d["general" := PList(Nduvs.ListToPlain(general))];
      d := d + extras;
    }

    /** `__eq__`: equality of the dictionary forms. */
    predicate Equals(other: AerBackendProperties) {
      Encode(Data()) == Encode(other.Data())
    }

    /** `__getattr__`: an extra field, or AttributeError. */
    function Attribute(name: string): (r: Result<Plain>)
      ensures r.Success? <==> name in extras
      ensures r.Success? ==> r.value == extras[name]
      ensures r.Failure? ==> r.error == AttributeNotDefined(name)
    {
      if name in extras then Success(extras[name]) else Failure(AttributeNotDefined(name))
    }

    // -------------------------------------------------------------------
    // Lookups

    /** `gate_property`: the gate's table, a tuple's properties, or one
        property; a name without qubits, or any missing key, is an error. */
    function GateProperty(gate: string, qubits: QubitsArg, name: Option<string>): (r: Result<Lookup>)
      ensures r.Success? ==> gate in gateIndex
      ensures r.Failure? ==> r.error == (if gate in gateIndex && qubits.NoQubits? && Truthy(name)
                                         then QubitsRequired(gate, name.value)
                                         else GatePropertyNotFound(gate))
      ensures qubits.NoQubits? ==> (r.Success? <==> gate in gateIndex && !Truthy(name))
      ensures qubits.NoQubits? && r.Success? ==> r.value == Table(gateIndex[gate])
      ensures !qubits.NoQubits? ==>
                (r.Success? <==> gate in gateIndex && Key(qubits) in gateIndex[gate]
                                 && (Truthy(name) ==> name.value in gateIndex[gate][Key(qubits)]))
      ensures !qubits.NoQubits? && r.Success? ==>
                r.value == (if Truthy(name) then Prop(gateIndex[gate][Key(qubits)][name.value])
                            else Props(gateIndex[gate][Key(qubits)]))
    {
      if gate !in gateIndex then Failure(GatePropertyNotFound(gate))
      else if qubits.NoQubits? then
        if Truthy(name) then Failure(QubitsRequired(gate, name.value))
        else Success(Table(gateIndex[gate]))
      else
        var key := Key(qubits);
        if key !in gateIndex[gate] then Failure(GatePropertyNotFound(gate))
        else if !Truthy(name) then Success(Props(gateIndex[gate][key]))
        else if name.value !in gateIndex[gate][key] then Failure(GatePropertyNotFound(gate))
        else Success(Prop(gateIndex[gate][key][name.value]))
    }

    /** `qubit_property`: a qubit's properties, or one of them by name. */
    function QubitProperty(qubit: int, name: Option<string>): (r: Result<Lookup>)
      ensures r.Success? <==> qubit in qubitIndex && (name.Some? ==> name.value in qubitIndex[qubit])
      ensures r.Success? ==> r.value == (if name.Some? then Prop(qubitIndex[qubit][name.value])
                                         else Props(qubitIndex[qubit]))
      ensures r.Failure? ==> r.error == QubitPropertyNotFound(qubit, if Truthy(name) then name else None)
    {
      if qubit !in qubitIndex then Failure(QubitPropertyNotFound(qubit, if Truthy(name) then name else None))
      else if name.None? then Success(Props(qubitIndex[qubit]))
      else if name.value !in qubitIndex[qubit] then Failure(QubitPropertyNotFound(qubit, if Truthy(name) then name else None))
      else Success(Prop(qubitIndex[qubit][name.value]))
    }

    /** `qubit_property(qubit, name)[0]`: the value without its date. */
    function QubitValue(qubit: int, name: string): (r: Result<real>)
      ensures r.Success? <==> qubit in qubitIndex && name in qubitIndex[qubit]
      ensures r.Success? ==> r.value == qubitIndex[qubit][name].0
      ensures r.Failure? ==> r.error == QubitPropertyNotFound(qubit, if name != "" then Some(name) else None)
    {
      var found :- QubitProperty(qubit, Some(name));
      Success(found.property.0)
    }

    /** `t1`. */
    function T1(qubit: int): (r: Result<real>)
      ensures r.Success? <==> qubit in qubitIndex && "T1" in qubitIndex[qubit]
      ensures r.Success? ==> r.value == qubitIndex[qubit]["T1"].0
      ensures r.Failure? ==> r.error == QubitPropertyNotFound(qubit, Some("T1"))
    {
      QubitValue(qubit, "T1")
    }

    /** `t2`. */
    function T2(qubit: int): (r: Result<real>)
      ensures r.Success? <==> qubit in qubitIndex && "T2" in qubitIndex[qubit]
      ensures r.Success? ==> r.value == qubitIndex[qubit]["T2"].0
      ensures r.Failure? ==> r.error == QubitPropertyNotFound(qubit, Some("T2"))
    {
      QubitValue(qubit, "T2")
    }

    /** `frequency`. */
    function Frequency(qubit: int): (r: Result<real>)
      ensures r.Success? <==> qubit in qubitIndex && "frequency" in qubitIndex[qubit]
      ensures r.Success? ==> r.value == qubitIndex[qubit]["frequency"].0
      ensures r.Failure? ==> r.error == QubitPropertyNotFound(qubit, Some("frequency"))
    {
      QubitValue(qubit, "frequency")
    }

    /** `readout_error`. */
    function ReadoutError(qubit: int): (r: Result<real>)
      ensures r.Success? <==> qubit in qubitIndex && "readout_error" in qubitIndex[qubit]
      ensures r.Success? ==> r.value == qubitIndex[qubit]["readout_error"].0
      ensures r.Failure? ==> r.error == QubitPropertyNotFound(qubit, Some("readout_error"))
    {
      QubitValue(qubit, "readout_error")
    }

    /** `readout_length`. */
    function ReadoutLength(qubit: int): (r: Result<real>)
      ensures r.Success? <==> qubit in qubitIndex && "readout_length" in qubitIndex[qubit]
      ensures r.Success? ==> r.value == qubitIndex[qubit]["readout_length"].0
      ensures r.Failure? ==> r.error == QubitPropertyNotFound(qubit, Some("readout_length"))
    {
      QubitValue(qubit, "readout_length")
    }

    /** `gate_property(gate, qubits, name)[0]` for a non-empty name. */
    function GateValue(gate: string, qubits: QubitsArg, name: string): (r: Result<real>)
      requires name != ""
      ensures r.Success? <==> gate in gateIndex && !qubits.NoQubits? && Key(qubits) in gateIndex[gate]
                              && name in gateIndex[gate][Key(qubits)]
      ensures r.Success? ==> r.value == gateIndex[gate][Key(qubits)][name].0
      ensures r.Failure? ==> r.error == (if gate in gateIndex && qubits.NoQubits? then QubitsRequired(gate, name)
                                         else GatePropertyNotFound(gate))
    {
      var found :- GateProperty(gate, qubits, Some(name));
      Success(found.property.0)
    }

    /** `gate_error`. */
    function GateError(gate: string, qubits: QubitsArg): (r: Result<real>)
      ensures r.Success? <==> gate in gateIndex && !qubits.NoQubits? && Key(qubits) in gateIndex[gate]
                              && "gate_error" in gateIndex[gate][Key(qubits)]
      ensures r.Success? ==> r.value == gateIndex[gate][Key(qubits)]["gate_error"].0
      ensures r.Failure? ==> r.error == (if gate in gateIndex && qubits.NoQubits? then QubitsRequired(gate, "gate_error")
                                         else GatePropertyNotFound(gate))
    {
      GateValue(gate, qubits, "gate_error")
    }

    /** `gate_length`. */
    function GateLength(gate: string, qubits: QubitsArg): (r: Result<real>)
      ensures r.Success? <==> gate in gateIndex && !qubits.NoQubits? && Key(qubits) in gateIndex[gate]
                              && "gate_length" in gateIndex[gate][Key(qubits)]
      ensures r.Success? ==> r.value == gateIndex[gate][Key(qubits)]["gate_length"].0
      ensures r.Failure? ==> r.error == (if gate in gateIndex && qubits.NoQubits? then QubitsRequired(gate, "gate_length")
                                         else GatePropertyNotFound(gate))
    {
      GateValue(gate, qubits, "gate_length")
    }

    /** `is_gate_operational`: raises like `gate_property`; without qubits
        the result is the tuple-keyed table, which never has an
        "operational" key, so the answer is true. */
    function IsGateOperational(gate: string, qubits: QubitsArg): (r: Result<bool>)
      ensures r.Failure? <==> GateProperty(gate, qubits, None).Failure?
      ensures r.Failure? ==> r.error == GatePropertyNotFound(gate)
      ensures r.Success? && qubits.NoQubits? ==> r.value
      ensures r.Success? && !qubits.NoQubits? ==> (r.value <==> Operational(gateIndex[gate][Key(qubits)]))
    {
      var found :- GateProperty(gate, qubits, None);
      if found.Table? then Success(true)
      else Success("operational" !in found.props || Truth(found.props["operational"].0))
    }

    /** `is_qubit_operational`: raises for a qubit without properties. */
    function IsQubitOperational(qubit: int): (r: Result<bool>)
      ensures r.Success? <==> qubit in qubitIndex
      ensures r.Success? ==> (r.value <==> Operational(qubitIndex[qubit]))
      ensures r.Failure? ==> r.error == QubitPropertyNotFound(qubit, None)
    {
      var found :- QubitProperty(qubit, None);
      Success("operational" !in found.props || Truth(found.props["operational"].0))
    }

    /** `faulty_qubits`: the keys of `_qubits`, in insertion (ascending)
        order, whose operational check is false. */
    method FaultyQubits() returns (faulty: seq<int>)
      requires Valid()
      ensures forall q :: q in faulty <==> q in qubitIndex && IsQubitOperational(q) == Success(false)
      ensures forall q :: q in faulty <==> 0 <= q < |qubits| && qubits[q] != [] && !OperationalIn(units, qubits[q])
      ensures forall a, b :: 0 <= a < b < |faulty| ==> faulty[a] < faulty[b]
    {
      faulty := [];
      for q := 0 to |qubits|
        invariant forall x :: x in faulty <==> 0 <= x < q && x in qubitIndex && IsQubitOperational(x) == Success(false)
        invariant forall a, b :: 0 <= a < b < |faulty| ==> faulty[a] < faulty[b]
        invariant forall a :: 0 <= a < |faulty| ==> faulty[a] < q
      {
        if q in qubitIndex {
          var operational := IsQubitOperational(q);
          if operational == Success(false) {
            faulty := faulty + [q];
          }
        }
      }
      QubitVerdicts();
    }

    /** The qubits with an entry in `_qubits` are the ones with properties,
        and each one's check is false exactly when its own properties say
        so. */
    lemma QubitVerdicts()
      requires Valid()
      ensures forall q :: q in qubitIndex <==> 0 <= q < |qubits| && qubits[q] != []
      ensures forall q :: q in qubitIndex ==> (IsQubitOperational(q) == Success(false) <==> !OperationalIn(units, qubits[q]))
    {
      QubitIndexContents(qubits, units);
      forall q | q in qubitIndex
        ensures IsQubitOperational(q) == Success(false) <==> !OperationalIn(units, qubits[q])
      {
        FormatOperational(qubits[q], units);
      }
    }

    /** The records of `gs` whose operational check is false, in order. */
    function FaultyAmong(gs: seq<GateRecords.GateProperties>): (r: seq<GateRecords.GateProperties>)
      ensures forall g :: g in r <==> g in gs && IsGateOperational(g.gate, QubitTuple(g.qubits)) == Success(false)
    {
      if gs == [] then []
      else
        var n := |gs| - 1;
        assert gs == gs[..n] + [gs[n]];
        FaultyAmong(gs[..n])
        + (if IsGateOperational(gs[n].gate, QubitTuple(gs[n].qubits)) == Success(false) then [gs[n]] else [])
    }

    /** `faulty_gates`: the order-preserving selection of the records whose
        operational check is false. */
    method FaultyGates() returns (faulty: seq<GateRecords.GateProperties>)
      requires Valid()
      ensures faulty == FaultyAmong(gates)
    {
      faulty := [];
      for i := 0 to |gates|
        invariant faulty == FaultyAmong(gates[..i])
      {
        assert gates[..i + 1][..i] == gates[..i];
        var operational := IsGateOperational(gates[i].gate, QubitTuple(gates[i].qubits));
        if operational == Success(false) {
          faulty := faulty + [gates[i]];
        }
      }
      assert gates[..|gates|] == gates;
    }

    // -------------------------------------------------------------------
    // Lemmas relating the lookups to the constructor's arguments

    /** The named property of a qubit is the resolved value and date of the
        last parameter of that name in the qubit's list. */
    lemma QubitLookupFromRecords(q: int, k: int)
      requires Valid()
      requires 0 <= q < |qubits| && LastNamed(qubits[q], k)
      ensures Resolves(units, qubits[q][k])
      ensures QubitProperty(q, Some(qubits[q][k].name)) == Success(Prop(Resolved(units, qubits[q][k])))
      ensures QubitValue(q, qubits[q][k].name) == Success(Resolved(units, qubits[q][k]).0)
    {
      QubitIndexContents(qubits, units);
      assert q in Populated(qubits);
      FormatEntries(qubits[q], units);
    }

    /** A qubit without properties, or a name none of its parameters
        carries, is an error: nothing is defaulted. */
    lemma QubitLookupMissing(q: int, name: string)
      requires Valid()
      requires !(0 <= q < |qubits|) || name !in Names(qubits[q])
      ensures QubitProperty(q, Some(name)).Failure?
      ensures QubitValue(q, name).Failure?
    {
      QubitIndexContents(qubits, units);
      if q in qubitIndex {
        FormatKeys(qubits[q], units);
      }
    }

    /** A named property of a recorded gate tuple is the resolved value and
        date of the last parameter of that name in the last record for that
        gate and tuple. */
    lemma GateLookupFromRecords(i: int, k: int)
      requires Valid()
      requires LastRecord(gates, i) && LastNamed(gates[i].parameters, k)
      requires gates[i].parameters[k].name != ""
      ensures Resolves(units, gates[i].parameters[k])
      ensures GateProperty(gates[i].gate, QubitTuple(gates[i].qubits), Some(gates[i].parameters[k].name))
              == Success(Prop(Resolved(units, gates[i].parameters[k])))
    {
      GateIndexEntries(gates, units);
      FormatEntries(gates[i].parameters, units);
    }

    /** A gate name or qubit tuple no record carries is an error, whatever
        name is asked for; a name without qubits is an error too. */
    lemma GateLookupMissing(gate: string, qs: seq<int>, name: Option<string>)
      requires Valid()
      requires !Recorded(gates, gate, qs)
      ensures GateProperty(gate, QubitTuple(qs), name) == Failure(GatePropertyNotFound(gate))
      ensures Truthy(name) ==> GateProperty(gate, NoQubits, name).Failure?
    {
      GateIndexKeys(gates, units);
    }

    /** An `int` qubit argument means the 1-tuple. */
    lemma OneQubitIsTuple(gate: string, q: int, name: Option<string>)
      ensures GateProperty(gate, OneQubit(q), name) == GateProperty(gate, QubitTuple([q]), name)
      ensures IsGateOperational(gate, OneQubit(q)) == IsGateOperational(gate, QubitTuple([q]))
    {
    }

    /** The operational check of a recorded gate tuple reads the last record
        for it: true unless its last "operational" parameter resolves to
        zero. */
    lemma GateOperationalFromRecords(i: int)
      requires Valid() && LastRecord(gates, i)
      ensures IsGateOperational(gates[i].gate, QubitTuple(gates[i].qubits))
              == Success(OperationalIn(units, gates[i].parameters))
    {
      GateIndexEntries(gates, units);
      FormatOperational(gates[i].parameters, units);
    }

    /** The operational check of a qubit with properties reads its list:
        true unless its last "operational" parameter resolves to zero. */
    lemma QubitOperationalFromRecords(q: int)
      requires Valid() && 0 <= q < |qubits| && qubits[q] != []
      ensures IsQubitOperational(q) == Success(OperationalIn(units, qubits[q]))
    {
      QubitIndexContents(qubits, units);
      assert q in Populated(qubits);
      FormatOperational(qubits[q], units);
    }

    /** Every record of the object passes the operational check without an
        error, so `faulty_gates` never raises. */
    lemma FaultyGatesTotal(i: int)
      requires Valid() && 0 <= i < |gates|
      ensures IsGateOperational(gates[i].gate, QubitTuple(gates[i].qubits)).Success?
    {
      GateIndexKeys(gates, units);
      assert Recorded(gates, gates[i].gate, gates[i].qubits);
    }

    /** `__eq__` is equality of the attributes for objects Python can
        build. */
    lemma EqualsIsStructural(other: AerBackendProperties)
      requires WellFormed(Data()) && WellFormed(other.Data())
      ensures Equals(other) <==> Data() == other.Data()
    {
      if Equals(other) {
        DecodeEncode(Data());
        DecodeEncode(other.Data());
      }
    }

    /** `from_dict(x.to_dict())` rebuilds `x`: the same attributes, and so,
        under the same unit resolver, the same indices. */
    lemma LoadRoundTrip(env: Externals)
      requires Valid() && WellFormed(Data()) && env.applyPrefix == units
      ensures Load(PDict(Encode(Data())), env) == Success(Data())
    {
      DecodeEncode(Data());
      QubitIndexOutcome(qubits, units);
      GateIndexOutcome(gates, units);
    }
  }

  // ---------------------------------------------------------------------
  // Lemmas on the dictionary form

  /** `from_dict` inverts `to_dict` on the argument level. */
  lemma DecodeEncode(s: Snapshot)
    requires WellFormed(s)
    ensures Decode(PDict(Encode(s))) == Success(s)
  {
    var d := Encode(s);
    EncodeLookups(s);
    QubitsRoundTrip(s.qubits);
    GatesRoundTrip(s.gates);
    Nduvs.ListRoundTrip("general", s.general);
    assert PopHeader(d) == Success((PStr(s.backendName), PStr(s.backendVersion), s.lastUpdateDate));
    assert PopLists(d) == Success((s.qubits, s.gates, s.general));
  }

  /** What `to_dict` stores under each key. */
  lemma EncodeLookups(s: Snapshot)
    requires s.extras.Keys !! CoreKeys
    ensures var d := Encode(s);
            && "backend_name" in d && d["backend_name"] == PStr(s.backendName)
            && "backend_version" in d && d["backend_version"] == PStr(s.backendVersion)
            && "last_update_date" in d && d["last_update_date"] == s.lastUpdateDate
            && "qubits" in d && d["qubits"] == PList(QubitsToPlain(s.qubits))
            && "gates" in d && d["gates"] == PList(GatesToPlain(s.gates))
            && "general" in d && d["general"] == PList(Nduvs.ListToPlain(s.general))
            && d - CoreKeys == s.extras
  {
    var d := Encode(s);
    assert forall k :: k in CoreKeys ==> k !in s.extras;
    assert d - CoreKeys == s.extras;
  }

  lemma QubitsRoundTrip(qubits: seq<seq<Nduvs.Nduv>>)
    ensures Collect(QubitsToPlain(qubits), QubitFromPlain) == Success(qubits)
  {
    var items := QubitsToPlain(qubits);
    forall i | 0 <= i < |qubits|
      ensures QubitFromPlain(items[i]) == Success(qubits[i])
    {
      Nduvs.ListRoundTrip("qubits", qubits[i]);
    }
    assert Collect(items, QubitFromPlain).value == qubits;
  }

  lemma GatesRoundTrip(gates: seq<GateRecords.GateProperties>)
    requires forall i :: 0 <= i < |gates| ==> GateRecords.WellFormed(gates[i])
    ensures Collect(GatesToPlain(gates), GateRecords.Decode) == Success(gates)
  {
    var items := GatesToPlain(gates);
    forall i | 0 <= i < |gates|
      ensures GateRecords.Decode(items[i]) == Success(gates[i])
    {
      GateRecords.RoundTrip(gates[i]);
    }
    assert Collect(items, GateRecords.Decode).value == gates;
  }

  /** `from_dict` accepts exactly the image of `to_dict`: whatever it
      decodes is well formed and encodes back to the same dictionary. */
  lemma DecodeExact(data: Plain)
    requires Decode(data).Success?
    ensures WellFormed(Decode(data).value)
    ensures data == PDict(Encode(Decode(data).value))
  {
    var d := data.entries;
    var s := Decode(data).value;
    DecodeUnfold(data);
    QubitsExact(d["qubits"]);
    GatesExact(d["gates"]);
    Nduvs.ListFromPlainExact("general", d["general"]);
    EncodeMatches(d, s);
  }

  /** What a successful `Decode` read from each of the six keys. */
  lemma DecodeUnfold(data: Plain)
    requires Decode(data).Success?
    ensures data.PDict?
    ensures && "backend_name" in data.entries && "backend_version" in data.entries
            && "last_update_date" in data.entries
    ensures && data.entries["backend_name"] == PStr(Decode(data).value.backendName)
            && data.entries["backend_version"] == PStr(Decode(data).value.backendVersion)
            && data.entries["last_update_date"] == Decode(data).value.lastUpdateDate
    ensures && "qubits" in data.entries && "gates" in data.entries && "general" in data.entries
    ensures && QubitsFromPlain(data.entries["qubits"]) == Success(Decode(data).value.qubits)
            && GatesFromPlain(data.entries["gates"]) == Success(Decode(data).value.gates)
            && Nduvs.ListFromPlain("general", data.entries["general"]) == Success(Decode(data).value.general)
    ensures Decode(data).value.extras == data.entries - CoreKeys
  {
  }

  /** A dictionary holding the encoded core fields under the six keys and
      the extras elsewhere is the encoding. */
  lemma EncodeMatches(d: map<string, Plain>, s: Snapshot)
    requires s.extras == d - CoreKeys
    requires && "backend_name" in d && d["backend_name"] == PStr(s.backendName)
             && "backend_version" in d && d["backend_version"] == PStr(s.backendVersion)
             && "last_update_date" in d && d["last_update_date"] == s.lastUpdateDate
             && "qubits" in d && d["qubits"] == PList(QubitsToPlain(s.qubits))
             && "gates" in d && d["gates"] == PList(GatesToPlain(s.gates))
             && "general" in d && d["general"] == PList(Nduvs.ListToPlain(s.general))
    ensures d == Encode(s)
  {
    assert Declared(s).Keys == CoreKeys;
    MergeSplit(d, Declared(s));
  }

  /** A map is its restriction to some of its entries merged with the rest. */
  lemma MergeSplit(d: map<string, Plain>, core: map<string, Plain>)
    requires forall k :: k in core ==> k in d && d[k] == core[k]
    ensures d == core + (d - core.Keys)
  {
    var e := core + (d - core.Keys);
    forall k | k in d
      ensures k in e && e[k] == d[k]
    {
      if k !in core {
        assert k in d - core.Keys;
      }
    }
    assert d.Keys == e.Keys;
  }

  lemma QubitsExact(v: Plain)
    requires QubitsFromPlain(v).Success?
    ensures v == PList(QubitsToPlain(QubitsFromPlain(v).value))
  {
    var qubits := QubitsFromPlain(v).value;
    forall i | 0 <= i < |qubits|
      ensures v.items[i] == QubitsToPlain(qubits)[i]
    {
      Nduvs.ListFromPlainExact("qubits", v.items[i]);
    }
  }

  lemma GatesExact(v: Plain)
    requires GatesFromPlain(v).Success?
    ensures forall i :: 0 <= i < |GatesFromPlain(v).value| ==> GateRecords.WellFormed(GatesFromPlain(v).value[i])
    ensures v == PList(GatesToPlain(GatesFromPlain(v).value))
  {
    var gates := GatesFromPlain(v).value;
    forall i | 0 <= i < |gates|
      ensures GateRecords.WellFormed(gates[i]) && v.items[i] == GatesToPlain(gates)[i]
    {
      GateRecords.DecodeExact(v.items[i]);
    }
  }

  /** A "self" key left over after the pops reaches `cls(...)` as a keyword
      and is refused there. */
  lemma SelfKeyRefused(data: Plain, env: Externals)
    requires Decode(data).Success? && "self" in data.entries
    ensures Load(data, env) == Failure(MultipleValues({"self"}))
  {
    SelfKeyKept(data);
    SelfKeywordRefused(Decode(data).value, env);
  }

  /** The pops leave a "self" key among the extras, which hold no core key. */
  lemma SelfKeyKept(data: Plain)
    requires Decode(data).Success? && "self" in data.entries
    ensures "self" in Decode(data).value.extras
    ensures Decode(data).value.extras.Keys !! CoreKeys
  {
    DecodeUnfold(data);
  }

  /** `cls(...)` refuses a "self" keyword, and only it, when no core key is
      repeated. */
  lemma SelfKeywordRefused(args: Snapshot, env: Externals)
    requires "self" in args.extras && args.extras.Keys !! CoreKeys
    ensures Initialize(args, env) == Failure(MultipleValues({"self"}))
  {
    assert args.extras.Keys * Parameters == {"self"} by {
      forall k | k in args.extras.Keys * Parameters
        ensures k == "self"
      {
        assert k !in CoreKeys;
      }
    }
  }

  /** A missing key is never defaulted: `from_dict` fails on it. */
  lemma MissingKeyFails(data: Plain, k: string)
    requires data.PDict? && k in CoreKeys && k !in data.entries
    ensures Decode(data).Failure?
  {
    var d := data.entries;
    if PopHeader(d).Success? {
      assert k in {"qubits", "gates", "general"};
      assert PopLists(d).Failure?;
    }
  }

  // ---------------------------------------------------------------------
  // Helpers about formatted parameter lists

  /** A name carried by some parameter is carried by a last one. */
  lemma {:induction false} LastOfName(ps: seq<Nduvs.Nduv>, name: string) returns (k: int)
    requires name in Names(ps)
    ensures LastNamed(ps, k) && ps[k].name == name
    decreases |ps|
  {
    var n := |ps| - 1;
    if ps[n].name == name {
      k := n;
    } else {
      assert name in Names(ps[..n]) by {
        var i :| 0 <= i < |ps| && ps[i].name == name;
        assert i < n && ps[..n][i] == ps[i];
      }
      k := LastOfName(ps[..n], name);
      assert ps[..n][k] == ps[k];
      assert forall j :: k < j < n ==> ps[..n][j] == ps[j];
    }
  }

  /** The operational verdict of a formatted list is the one its
      parameters give. */
  lemma FormatOperational(ps: seq<Nduvs.Nduv>, units: Resolver)
    requires Format(ps, units).Success?
    ensures Operational(Format(ps, units).value) <==> OperationalIn(units, ps)
  {
    var props := Format(ps, units).value;
    FormatKeys(ps, units);
    FormatEntries(ps, units);
    if "operational" in props {
      var k := LastOfName(ps, "operational");
      assert forall k' :: LastNamed(ps, k') && ps[k'].name == "operational" ==> k' == k;
    } else {
      assert forall k :: 0 <= k < |ps| ==> ps[k].name in Names(ps);
    }
  }
}
