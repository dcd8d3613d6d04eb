# Backend calibration properties of qiskit-aer, in Dafny

This project models `qiskit_aer/backends/backendproperties.py`, the legacy
record of a quantum backend's calibration data. It has four parts:

- **`Nduv`** (`nduv.dfy`, module `Nduvs`) is one name-date-unit-value
  measurement. The module holds its dictionary form, `from_dict`
  (Python's `cls(**data)`: unexpected keywords first, then the missing
  parameters in declared order) and `__eq__`.
- **`GateProperties`** (`gate_properties.dfy`, module `GateRecords`) is one
  gate's measurements on one ordered qubit tuple. It also carries an open
  bag of extra fields, which `__getattr__` reads. `from_dict` makes one pass
  over the items, converting "parameters" and passing every other key
  through.
- **`AerBackendProperties`** is a `class` in module `BackendProps`
  (`backend_properties.dfy`). Its fields are the constructor's arguments
  plus the two indices `_qubits` and `_gates`. The index-building loops of
  `__init__` live in module `PropertyIndex` (`indexing.dfy`). They are
  methods proved equal to prefix-recursive functions, and lemmas state what
  the indices contain: keys, values, and which later record or parameter
  wins.
  - `from_dict` and `to_dict` are methods proved equal to the functions
    `Decode`/`Load` and `Encode`. The round trip is proved in both
    directions: decode∘encode is the identity, and decode accepts only
    encodings.
  - Every query is a function of the object. `gate_property`,
    `qubit_property`, the named accessors and the two operational checks
    are specified against the indices. Lemmas then tie each of them back to
    the records the object was built from.
  - `faulty_qubits` and `faulty_gates` are loops. Their results are
    characterised both by the operational check and by the input records.
- **`target_to_backend_properties`** (`converter.dfy`, module
  `TargetConversion`) turns a Target (operation name → qubit tuple →
  optional duration/error) into the dictionary that `from_dict` reads, and
  then into an object.
  - The gate loop, the "measure" loop (with its `break`) and the outer loop
    are methods proved against recursive functions.
  - Lemmas state the following:
    - the gate records are one per entry with data, in order;
    - the per-qubit readout lists come from the last entry starting at each
      qubit;
    - readout data is all-or-nothing;
    - the dictionary always decodes;
    - the result is `None` exactly when there are no gate data and no
      complete readout data.

Foreign collaborators are parameters, collected in `Base.Externals`:

- `apply_prefix` becomes `applyPrefix: (real, string) -> Option<real>`, where
  `None` means the unit is rejected.
- `dateutil.parser.isoparse` becomes `isoParse: string -> Option<Date>`.
- The clock (`datetime.now`) becomes the `now: Date` argument of the
  converter.

Python dictionaries, lists and scalars that cross `to_dict`/`from_dict` are
values of `Base.Plain`. Exceptions become `Failure` values of `Base.Error`,
one constructor per distinct Python error.

## Model

| member | source | states |
|---|---|---|
| Nduvs.ToDict | qiskit_aer/backends/backendproperties.py:65-77 | the reference dictionary form: the four fields under their parameter names |
| Nduvs.Equal | qiskit_aer/backends/backendproperties.py:79-83 | the reference `__eq__`: equality of the dictionary forms |
| Nduvs.FromDict | qiskit_aer/backends/backendproperties.py:37-63 | a dictionary that `Nduv.from_dict` accepts is exactly the `to_dict` image of the result. A non-mapping is refused. A "self" key fails with MultipleValues({"self"}). Otherwise any key besides date/name/unit/value fails with UnexpectedArguments of exactly those keys |
| Nduvs.RoundTrip | qiskit_aer/backends/backendproperties.py:52-77 | `from_dict(to_dict(n))` gives back `n` |
| Nduvs.MissingFieldFails | qiskit_aer/backends/backendproperties.py:37-63 | a dictionary lacking any of date/name/unit/value is refused (no defaults); with no unexpected key, all missing names are reported in declared order |
| Nduvs.EqualIsStructural | qiskit_aer/backends/backendproperties.py:79-83 | `__eq__` (comparison of `to_dict`) holds exactly for equal measurements |
| Nduvs.ListToPlain | qiskit_aer/backends/backendproperties.py:264-271 | `[x.to_dict() for x in ps]`: one dictionary per measurement, of the same length and in the same order |
| Nduvs.ListFromPlain | qiskit_aer/backends/backendproperties.py:247 | `[Nduv.from_dict(x) for x in v]` (also the "parameters" conversion at line 137). A non-list fails with WrongType of the field. It succeeds iff every element converts, and element i of the result is the conversion of element i |
| Nduvs.ListFromItems | qiskit_aer/backends/backendproperties.py:242-247 | the reference list conversion: `Nduv.from_dict` element by element through `Base.Collect`, whose contract gives success iff every element converts and the first failing element's error |
| Nduvs.ListRoundTrip | qiskit_aer/backends/backendproperties.py:137-147 | converting the dictionary list of a measurement list gives back the same list |
| Nduvs.ListFromPlainExact | qiskit_aer/backends/backendproperties.py:137-147 | a list that converts is the dictionary list of its result |
| GateRecords.Extra | qiskit_aer/backends/backendproperties.py:116-120 | `__getattr__` returns the value of the extra field of that name, and fails with AttributeError exactly when there is none |
| GateRecords.ToDict | qiskit_aer/backends/backendproperties.py:142-153 | the reference dictionary form: the three declared fields, then the extra fields merged over them |
| GateRecords.Equal | qiskit_aer/backends/backendproperties.py:155-159 | the reference `__eq__`: equality of the dictionary forms |
| GateRecords.Decode | qiskit_aer/backends/backendproperties.py:123-140 | the reference `from_dict`: "parameters" converted element by element, every other key passed to `cls(**in_data)` |
| GateRecords.Bind | qiskit_aer/backends/backendproperties.py:100-114 | a "self" keyword raises "got multiple values"; otherwise binding succeeds only with qubits, gate and parameters present, and every other keyword becomes an extra field |
| GateRecords.SelfKeyRefused | qiskit_aer/backends/backendproperties.py:100-140 | a dictionary with a "self" key is refused once its "parameters" list converts |
| GateRecords.FromDict | qiskit_aer/backends/backendproperties.py:123-140 | the one-pass loop over the items yields what the decoding function does, including the early failure of a bad "parameters" list |
| GateRecords.RoundTrip | qiskit_aer/backends/backendproperties.py:123-153 | `from_dict(to_dict(g))` gives back `g`, extra fields included, for every record Python can build |
| GateRecords.BindRoundTrip | qiskit_aer/backends/backendproperties.py:100-114 | binding the `to_dict` form without "parameters" plus the parameter list rebuilds the record |
| GateRecords.DecodeExact | qiskit_aer/backends/backendproperties.py:123-153 | whatever `from_dict` accepts is a buildable record whose `to_dict` is the input |
| GateRecords.DecodeKeepsExtras | qiskit_aer/backends/backendproperties.py:116-140 | every non-declared key reaches `__getattr__` verbatim; any other name raises AttributeError |
| GateRecords.EqualIsStructural | qiskit_aer/backends/backendproperties.py:155-159 | `__eq__` holds exactly for equal records |
| GateRecords.MissingDeclaredFails | qiskit_aer/backends/backendproperties.py:100-140 | a dictionary without qubits, gate or parameters is refused |
| PropertyIndex.ApplyPrefix | qiskit_aer/backends/backendproperties.py:486-504 | succeeds exactly when the unit is recognised; otherwise fails with "could not understand units" naming the unit |
| PropertyIndex.FormatOutcome | qiskit_aer/backends/backendproperties.py:202-205 | formatting a parameter list succeeds iff every unit resolves; otherwise fails with the error of the first rejected unit |
| PropertyIndex.FormatKeys | qiskit_aer/backends/backendproperties.py:202-205 | the formatted map's keys are exactly the parameter names |
| PropertyIndex.FormatEntries | qiskit_aer/backends/backendproperties.py:202-205 | each name maps to the resolved value and date of its last parameter |
| PropertyIndex.FormatFailureSticks | qiskit_aer/backends/backendproperties.py:202-205 | once a prefix of the list fails, the whole list fails with that error |
| PropertyIndex.QubitIndexOutcome | qiskit_aer/backends/backendproperties.py:200-206 | the qubit index is built iff every qubit parameter's unit resolves; a failure names a rejected unit |
| PropertyIndex.QubitIndexContents | qiskit_aer/backends/backendproperties.py:200-206 | the index keys are exactly the positions of qubits with at least one parameter, each mapped to its formatted parameters |
| PropertyIndex.QubitIndexFailureSticks | qiskit_aer/backends/backendproperties.py:200-206 | a failure on a prefix of the qubits is the failure of the whole loop |
| PropertyIndex.BuildQubitIndex | qiskit_aer/backends/backendproperties.py:200-206 | the nested loop of `__init__` builds exactly the specified qubit index, or fails as it does |
| PropertyIndex.GateIndexOutcome | qiskit_aer/backends/backendproperties.py:208-216 | the gate index is built iff every gate parameter's unit resolves; a failure names a rejected unit |
| PropertyIndex.GateIndexKeys | qiskit_aer/backends/backendproperties.py:208-216 | the first-level keys are exactly the gate names; the tuple keys of a name are exactly the recorded qubit tuples for it |
| PropertyIndex.GateIndexNames | qiskit_aer/backends/backendproperties.py:209-211 | first-level keys are exactly the gate names in the records |
| PropertyIndex.GateIndexTuples | qiskit_aer/backends/backendproperties.py:208-216 | under a gate name, a qubit tuple is a key iff some record has that name and tuple |
| PropertyIndex.GateIndexEntries | qiskit_aer/backends/backendproperties.py:208-216 | each (name, tuple) entry holds the formatted parameters of the last record with that name and tuple |
| PropertyIndex.GateIndexFailureSticks | qiskit_aer/backends/backendproperties.py:208-216 | a failure on a prefix of the records is the failure of the whole loop |
| PropertyIndex.BuildGateIndex | qiskit_aer/backends/backendproperties.py:208-216 | the loop of `__init__` builds exactly the specified gate index, or fails as it does |
| BackendProps.QubitsToPlain | qiskit_aer/backends/backendproperties.py:264-269 | the qubit lists' dictionary form, one list per qubit, element by element |
| BackendProps.GatesToPlain | qiskit_aer/backends/backendproperties.py:270 | the gate records' dictionary form, one per record, in order |
| BackendProps.Pop | qiskit_aer/backends/backendproperties.py:237-247 | `in_data.pop(key)` returns the value when the key is there and raises KeyError exactly when it is not |
| Base.Collect | qiskit_aer/backends/backendproperties.py:240-247 | a list conversion succeeds iff every element converts; it fails with the first failing element's error |
| Base.CollectFailsAt | qiskit_aer/backends/backendproperties.py:240-247 | if every element before `i` converts and element `i` fails, the conversion fails with element `i`'s error |
| BackendProps.PopHeader | qiskit_aer/backends/backendproperties.py:237-239 | the three header pops succeed iff the keys are present, and return their values |
| BackendProps.PopLists | qiskit_aer/backends/backendproperties.py:240-247 | the three list pops succeed iff each key is present and converts, and return the conversions |
| BackendProps.NormalizeDate | qiskit_aer/backends/backendproperties.py:193-195 | a string date is parsed as ISO 8601, and an unparsable one fails; any other value is kept as it is; the result is never a string |
| BackendProps.Initialize | qiskit_aer/backends/backendproperties.py:172-217 | `__init__` succeeds iff no keyword repeats a parameter (`self` included), the date parses and every unit resolves. It then stores the arguments with the normalised date. Failures come in source order: repeated keywords, then the date, then a rejected unit of some qubit parameter, and only when all qubit units resolve, a rejected unit of some gate parameter |
| BackendProps.ReadQubits | qiskit_aer/backends/backendproperties.py:240-245 | the nested loop over "qubits" yields the specified conversion or its first error |
| BackendProps.ReadNduvs | qiskit_aer/backends/backendproperties.py:242-244 | the inner loop converts one qubit's list as specified |
| BackendProps.ReadGates | qiskit_aer/backends/backendproperties.py:246 | the comprehension over "gates" yields the specified conversion or its first error |
| BackendProps.ReadArguments | qiskit_aer/backends/backendproperties.py:236-247 | popping the six keys from a copy yields the specified arguments, the rest becoming keyword arguments |
| BackendProps.PopListsIgnores | qiskit_aer/backends/backendproperties.py:236-247 | popping the header keys first does not change what the list pops read |
| BackendProps.ReadLists | qiskit_aer/backends/backendproperties.py:240-247 | the three list pops, run in order, yield the specified conversion |
| BackendProps.WriteQubits | qiskit_aer/backends/backendproperties.py:263-269 | the nested loop of `to_dict` builds the qubits' dictionary form |
| BackendProps.AerBackendProperties.constructor | qiskit_aer/backends/backendproperties.py:190-217 | given a normalised date, no repeated keyword and the indices the loops compute, the new object holds exactly those attributes, resolver and indices, and is valid |
| BackendProps.AerBackendProperties.Create | qiskit_aer/backends/backendproperties.py:172-217 | `__init__` fails exactly as specified; on success the object is new, stores the normalised arguments and holds the indices its loops compute |
| BackendProps.AerBackendProperties.FromDict | qiskit_aer/backends/backendproperties.py:225-251 | `from_dict` fails exactly when decoding or construction does; on success it is the object built from the decoded arguments |
| BackendProps.AerBackendProperties.ToDict | qiskit_aer/backends/backendproperties.py:253-273 | `to_dict` returns the six attributes in dictionary form, with the extra fields merged over them |
| BackendProps.AerBackendProperties.Attribute | qiskit_aer/backends/backendproperties.py:219-223 | `__getattr__` returns the extra keyword of that name and raises AttributeError exactly when there is none |
| BackendProps.AerBackendProperties.GateProperty | qiskit_aer/backends/backendproperties.py:281-318 | the gate's table, the tuple's properties or one property. The lookup fails with "could not find" when any key is absent, and with "provide qubits" when a non-empty name is given without qubits |
| BackendProps.AerBackendProperties.QubitProperty | qiskit_aer/backends/backendproperties.py:379-409 | the qubit's properties, or the named one; fails exactly when the qubit or name is absent, and the message names the property only for a non-empty name |
| BackendProps.AerBackendProperties.QubitValue | qiskit_aer/backends/backendproperties.py:411-469 | the value of a named qubit property, present iff indexed |
| BackendProps.AerBackendProperties.T1 | qiskit_aer/backends/backendproperties.py:411-421 | the indexed T1 value of the qubit, failing exactly when absent |
| BackendProps.AerBackendProperties.T2 | qiskit_aer/backends/backendproperties.py:423-433 | the indexed T2 value of the qubit, failing exactly when absent |
| BackendProps.AerBackendProperties.Frequency | qiskit_aer/backends/backendproperties.py:435-445 | the indexed frequency of the qubit, failing exactly when absent |
| BackendProps.AerBackendProperties.ReadoutError | qiskit_aer/backends/backendproperties.py:447-457 | the indexed readout_error of the qubit, failing exactly when absent |
| BackendProps.AerBackendProperties.ReadoutLength | qiskit_aer/backends/backendproperties.py:459-469 | the indexed readout_length of the qubit, failing exactly when absent |
| BackendProps.AerBackendProperties.GateValue | qiskit_aer/backends/backendproperties.py:353-377 | the value of a named gate property on a qubit tuple, present iff indexed; without qubits it fails with "provide qubits" |
| BackendProps.AerBackendProperties.GateError | qiskit_aer/backends/backendproperties.py:353-364 | the indexed gate_error of the gate on the tuple; the error cases of `gate_property` otherwise |
| BackendProps.AerBackendProperties.GateLength | qiskit_aer/backends/backendproperties.py:366-377 | the indexed gate_length of the gate on the tuple; the error cases of `gate_property` otherwise |
| BackendProps.AerBackendProperties.IsGateOperational | qiskit_aer/backends/backendproperties.py:336-351 | fails exactly when the lookup does. Otherwise it is true unless an "operational" property with value zero is recorded; without qubits it is always true |
| BackendProps.AerBackendProperties.IsQubitOperational | qiskit_aer/backends/backendproperties.py:471-484 | fails exactly for an unindexed qubit; otherwise true unless an "operational" property with value zero is recorded |
| BackendProps.AerBackendProperties.FaultyQubits | qiskit_aer/backends/backendproperties.py:320-326 | the result is exactly the indexed qubits whose check is false. Equivalently it is the qubits with parameters whose last "operational" parameter resolves to zero. It is in ascending order |
| BackendProps.AerBackendProperties.FaultyAmong | qiskit_aer/backends/backendproperties.py:328-334 | the records of a list whose operational check is false, and only those |
| BackendProps.AerBackendProperties.FaultyGates | qiskit_aer/backends/backendproperties.py:328-334 | on an object `__init__` built, the loop returns the records (in order) whose operational check is false |
| BackendProps.AerBackendProperties.QubitVerdicts | qiskit_aer/backends/backendproperties.py:320-326 | on an object `__init__` built, the qubits with a `_qubits` entry are the ones with properties, and a qubit's check is false exactly when its last "operational" parameter resolves to zero |
| BackendProps.AerBackendProperties.QubitLookupFromRecords | qiskit_aer/backends/backendproperties.py:200-206 | looking up a qubit's property returns the resolved value and date of that qubit's last parameter with the name |
| BackendProps.AerBackendProperties.QubitLookupMissing | qiskit_aer/backends/backendproperties.py:379-409 | a qubit outside the list or a name it does not carry is never defaulted: the lookup fails |
| BackendProps.AerBackendProperties.GateLookupFromRecords | qiskit_aer/backends/backendproperties.py:306-318 | looking up a gate property returns the resolved value and date of the last parameter with the name in the last record for that gate and tuple |
| BackendProps.AerBackendProperties.GateLookupMissing | qiskit_aer/backends/backendproperties.py:306-318 | a gate/tuple pair no record has fails with "could not find" |
| BackendProps.AerBackendProperties.OneQubitIsTuple | qiskit_aer/backends/backendproperties.py:309-310 | a single qubit argument is treated as the 1-tuple |
| BackendProps.AerBackendProperties.GateOperationalFromRecords | qiskit_aer/backends/backendproperties.py:336-351 | a recorded gate tuple's operational check reads the last record's parameters |
| BackendProps.AerBackendProperties.QubitOperationalFromRecords | qiskit_aer/backends/backendproperties.py:471-484 | a qubit with parameters is operational iff its last "operational" parameter, if any, is non-zero |
| BackendProps.AerBackendProperties.FaultyGatesTotal | qiskit_aer/backends/backendproperties.py:328-334 | the operational check of every stored record succeeds, so `faulty_gates` never raises |
| BackendProps.AerBackendProperties.EqualsIsStructural | qiskit_aer/backends/backendproperties.py:275-279 | `__eq__` (comparison of `to_dict`) holds exactly for objects with equal attributes |
| BackendProps.AerBackendProperties.LoadRoundTrip | qiskit_aer/backends/backendproperties.py:225-273 | `from_dict(x.to_dict())` rebuilds an object with the same attributes and so, under the same resolver, the same indices |
| BackendProps.DecodeEncode | qiskit_aer/backends/backendproperties.py:225-273 | decoding the `to_dict` form gives back the arguments |
| BackendProps.EncodeLookups | qiskit_aer/backends/backendproperties.py:260-272 | what `to_dict` stores under each of the six keys when no extra field shadows them |
| BackendProps.QubitsRoundTrip | qiskit_aer/backends/backendproperties.py:240-269 | converting the qubits' dictionary form gives back the qubit lists |
| BackendProps.GatesRoundTrip | qiskit_aer/backends/backendproperties.py:246-270 | converting the gates' dictionary form gives back the records |
| BackendProps.DecodeExact | qiskit_aer/backends/backendproperties.py:225-273 | whatever `from_dict` decodes is well formed, and its `to_dict` is the input |
| BackendProps.DecodeUnfold | qiskit_aer/backends/backendproperties.py:236-251 | what a successful decode read from each of the six keys |
| BackendProps.EncodeMatches | qiskit_aer/backends/backendproperties.py:260-272 | a dictionary with the encoded attributes under the six keys and the extra fields elsewhere is the `to_dict` form |
| BackendProps.QubitsExact | qiskit_aer/backends/backendproperties.py:240-269 | a "qubits" value that converts is the dictionary form of its result |
| BackendProps.GatesExact | qiskit_aer/backends/backendproperties.py:246-270 | a "gates" value that converts is the dictionary form of its result |
| BackendProps.MissingKeyFails | qiskit_aer/backends/backendproperties.py:236-247 | a dictionary lacking any of the six keys is refused |
| BackendProps.SelfKeyRefused | qiskit_aer/backends/backendproperties.py:225-251 | a "self" key left after the pops makes `cls(...)` raise "got multiple values" |
| BackendProps.SelfKeyKept | qiskit_aer/backends/backendproperties.py:238-249 | the pops leave a "self" key among the keyword arguments, which then hold none of the six popped keys |
| BackendProps.SelfKeywordRefused | qiskit_aer/backends/backendproperties.py:172-174 | with no popped key repeated, a "self" keyword makes `__init__` fail with MultipleValues({"self"}) |
| BackendProps.QubitFromPlain | qiskit_aer/backends/backendproperties.py:243-244 | one qubit's list: a non-list fails with WrongType("qubits"), and a list converts element by element as `Nduvs.ListFromItems` does (`BackendProps.QubitsExact` gives the round trip) |
| BackendProps.QubitsFromPlain | qiskit_aer/backends/backendproperties.py:241-245 | the nested loop over "qubits": a non-list fails with WrongType("qubits"). It succeeds iff every qubit's list converts, and entry i of the result is qubit i's conversion |
| BackendProps.GatesFromPlain | qiskit_aer/backends/backendproperties.py:246 | `[GateProperties.from_dict(x) for x in ...]`: a non-list fails with WrongType("gates"). It succeeds iff every record converts, and record i of the result is element i's conversion |
| BackendProps.Encode | qiskit_aer/backends/backendproperties.py:253-273 | the reference `to_dict`: the six attributes in dictionary form (`BackendProps.Declared`), the extra fields merged over them |
| BackendProps.Declared | qiskit_aer/backends/backendproperties.py:259-271 | the reference dictionary of the six declared attributes, before `_data` is merged in |
| BackendProps.Key | qiskit_aer/backends/backendproperties.py:309-311 | the reference `tuple(qubits)`: an int q becomes the 1-tuple (q,), a sequence is used as it is |
| BackendProps.Operational | qiskit_aer/backends/backendproperties.py:349-351 | the reference verdict on a property dictionary: it passes unless it holds an "operational" entry whose value is zero. `FormatOperational` ties it to `OperationalIn` |
| BackendProps.OperationalIn | qiskit_aer/backends/backendproperties.py:482-484 | the reference verdict on a raw parameter list: the last "operational" parameter, if any, resolves to a non-zero value |
| BackendProps.Decode | qiskit_aer/backends/backendproperties.py:225-248 | the reference `from_dict` up to the constructor call: the six pops and conversions in order, the rest as keyword arguments |
| BackendProps.Load | qiskit_aer/backends/backendproperties.py:225-251 | the reference `from_dict`: decode, then `__init__` |
| BackendProps.AerBackendProperties.Equals | qiskit_aer/backends/backendproperties.py:275-279 | the reference `__eq__`: equality of the `to_dict` forms |
| PropertyIndex.Format | qiskit_aer/backends/backendproperties.py:202-205 | the reference inner loop: each parameter resolved in order, a later name overwriting an earlier one |
| PropertyIndex.QubitIndexOf | qiskit_aer/backends/backendproperties.py:200-206 | the reference qubit index: a formatted entry for each qubit with parameters |
| PropertyIndex.GateIndexOf | qiskit_aer/backends/backendproperties.py:208-216 | the reference gate index: gate name, then qubit tuple, then the formatted parameters of the last such record |
| TargetConversion.GateName | qiskit_aer/backends/backendproperties.py:546 | the "name" extra field starts with the operation name, and is exactly that name when there are no qubits |
| TargetConversion.Duration | qiskit_aer/backends/backendproperties.py:522 | the reference `getattr(props, "duration", None)` |
| TargetConversion.ErrorOf | qiskit_aer/backends/backendproperties.py:531 | the reference `getattr(props, "error", None)` |
| TargetConversion.Complete | qiskit_aer/backends/backendproperties.py:580 | the reference test `qubit_props and all(x is not None ...)`: non-empty, and every entry present |
| TargetConversion.GateRecord | qiskit_aer/backends/backendproperties.py:541-548 | the reference gate dictionary: gate, qubits, parameters and the "name" extra field |
| TargetConversion.OperationGates | qiskit_aer/backends/backendproperties.py:520-548 | the reference per-operation loop: one record per entry with data, failing on an entry with data but no qubit tuple |
| TargetConversion.MeasureScan | qiskit_aer/backends/backendproperties.py:553-579 | the reference "measure" loop: skip entries without qubits, fail on an empty tuple, reset and stop on an entry without data |
| TargetConversion.Scan | qiskit_aer/backends/backendproperties.py:518-581 | the reference outer loop over the operations |
| TargetConversion.PropertiesDict | qiskit_aer/backends/backendproperties.py:510-590 | the reference dictionary handed to `from_dict`, or nothing when there are no gates and no qubits |
| BackendProps.FormatOperational | qiskit_aer/backends/backendproperties.py:202-205 | the formatted "operational" entry is truthy iff the last "operational" parameter resolves to a non-zero value |
| TargetConversion.GateNduvs | qiskit_aer/backends/backendproperties.py:521-540 | a gate entry yields no measurement exactly when it has neither duration nor error |
| TargetConversion.ReadoutNduvs | qiskit_aer/backends/backendproperties.py:558-575 | a measure entry yields no measurement exactly when it has neither error nor duration |
| TargetConversion.DataEntries | qiskit_aer/backends/backendproperties.py:520-548 | the entries with a duration or an error, and only those |
| TargetConversion.Unset | qiskit_aer/backends/backendproperties.py:550-552 | one unset slot for each declared qubit and no other |
| TargetConversion.QubitLists | qiskit_aer/backends/backendproperties.py:580-581 | one readout list per declared qubit |
| TargetConversion.CollectGates | qiskit_aer/backends/backendproperties.py:520-548 | the loop over one operation's entries yields the specified records or its error |
| TargetConversion.ScanMeasure | qiskit_aer/backends/backendproperties.py:550-579 | the "measure" loop, `continue` and `break` included, yields the specified per-qubit map |
| TargetConversion.BuildPropertiesDict | qiskit_aer/backends/backendproperties.py:510-586 | the whole scan yields the specified dictionary, or nothing when there are no gates and no qubits |
| TargetConversion.TargetToBackendProperties | qiskit_aer/backends/backendproperties.py:507-590 | returns `None` exactly when the scan yields nothing. Otherwise it returns the `from_dict` object of the dictionary. It fails exactly when the scan or `from_dict` does, with the scan's error if the scan fails and otherwise `from_dict`'s |
| TargetConversion.OperationGatesFailureSticks | qiskit_aer/backends/backendproperties.py:520-548 | an error on a prefix of the entries is the error of the whole loop |
| TargetConversion.ScanFailureSticks | qiskit_aer/backends/backendproperties.py:518-581 | an error on a prefix of the operations is the error of the whole scan |
| TargetConversion.MeasureScanKeys | qiskit_aer/backends/backendproperties.py:553-579 | a measure scan that does not reset keeps every slot it started with |
| TargetConversion.MeasureScanMeaning | qiskit_aer/backends/backendproperties.py:553-579 | if the scan does not reset, every entry with qubits has a non-empty tuple and data. Each qubit's slot holds the readout list of the last entry starting at that qubit |
| TargetConversion.LastStarting | qiskit_aer/backends/backendproperties.py:553-579 | the index of the last entry whose qubit tuple starts at `q`, or -1 when none does |
| TargetConversion.CompleteCoversAll | qiskit_aer/backends/backendproperties.py:580-581 | when every slot is filled, every declared qubit is the first qubit of some measure entry |
| TargetConversion.OperationGatesReference | qiskit_aer/backends/backendproperties.py:520-548 | the records of one operation are, in order, one per entry with data. The conversion fails exactly when such an entry has no qubit tuple |
| TargetConversion.GateRecordDecodes | qiskit_aer/backends/backendproperties.py:541-548 | each emitted gate dictionary is read back by `GateProperties.from_dict` as the record with the "name" extra field |
| TargetConversion.ReadoutListDecodes | qiskit_aer/backends/backendproperties.py:558-578 | each emitted readout list is read back as the same measurements |
| TargetConversion.ScanReadable | qiskit_aer/backends/backendproperties.py:518-581 | everything the scan collects is in a form `from_dict` reads |
| TargetConversion.ConvertedDictDecodes | qiskit_aer/backends/backendproperties.py:582-588 | the dictionary handed to `from_dict` always decodes, so only a rejected unit can make the conversion fail afterwards |
| TargetConversion.OperationGatesEmpty | qiskit_aer/backends/backendproperties.py:520-548 | an operation contributes no gate record exactly when none of its entries has data |
| TargetConversion.NoGatesExactly | qiskit_aer/backends/backendproperties.py:518-548 | there are no gate records exactly when no non-measure entry has a duration or an error |
| TargetConversion.QubitListsExactly | qiskit_aer/backends/backendproperties.py:549-581 | readout is all-or-nothing. There are no qubit lists exactly when there are no qubits or no "measure" operation fills every slot; otherwise there is one list per declared qubit |

## Left out

- `apply_prefix` (qiskit's SI-prefix helper) and `dateutil.parser.isoparse` are not part of this model. They are parameters (`Base.Externals`), and only their success or failure and their result are used.
- Floating point: values are `real`, so rounding in `apply_prefix` and the float truthiness of `bool(value)` (true iff non-zero) are modelled on exact reals.
- `datetime.datetime.now`: Python reads the clock once per measurement. The converter takes one `now` for all of them, so measurements made in one call carry equal dates.
- The Target is modelled only as the shape the converter reads: a sequence of operations with their (optional qubit tuple, optional properties) entries and a qubit count.
- `num_qubits` being `None` is not modelled: `Target.numQubits` is a `nat`. With `None`, Python starts from an empty slot map. It then fails in `range(None)` only if some measure entry filled a slot; otherwise the qubit lists stay empty.
- `TargetToBackendProperties`: operation names are not required to be unique, whereas a Target's are. A repeated "measure" operation replaces the qubit lists again.
- Warnings (the `DeprecationWarning` filter) and `__repr__` of `Nduv` are left out: they have no effect on the data.
- `__getattr__` of a Python object is modelled as a lookup in the extra-field map (`GateRecords.Extra`, `AerBackendProperties.Attribute`); declared attributes are plain fields.
- `Nduvs.FromDict`: it refuses fields whose shape differs from the model's types, where Python stores any object. That covers a non-string name or unit and any "value" that is not a float, an integer "value" such as a 0/1 "operational" flag included. A string "date" is refused too, with WrongType("date"): Python stores a measurement's date as given and parses only the backend's `last_update_date` (lines 193-195). This is stricter than the source.
- `GateRecords.Bind`: it likewise refuses non-integer qubits and a non-string gate name.
- `BackendProps.Decode`: it likewise refuses a non-string backend name or version.
- `BackendProps.Initialize`: a keyword that repeats a parameter is reported with the whole set of such keywords, where Python names one of them.
- `BackendProps.WellFormed`: it does not exclude a "self" extra field. The dictionary round trip holds without that exclusion; `__init__` itself refuses "self" (`BackendProps.Initialize`, `AerBackendProperties.Valid`).
- `Nduvs.FromDict`: unexpected keywords are reported as a set, where Python names the first. When a "self" key and an unexpected key are both present, Python reports whichever comes first in the dictionary; the model reports "self".
- `Nduvs.ListFromPlain`, `BackendProps.QubitsFromPlain`, `BackendProps.GatesFromPlain`: each list position must hold a list. Python iterates any iterable there, so an empty string or empty mapping in place of a list is read as an empty list, and a non-empty one fails in `from_dict` of its first element. The model refuses every non-list.
- Qubit arguments are integers. A `bool` passed as a qubit is not distinguished from an `int`, and an iterable other than a sequence of integers is not modelled.
- `BackendProps.AerBackendProperties.FaultyQubits`: Python lists the qubits in the index's insertion order. The loops insert in ascending position, so the model states ascending order.
- `BackendProps.AerBackendProperties.GateValue`: it requires a non-empty name. Its only callers pass "gate_error" or "gate_length"; an empty name goes through `GateProperty` instead.
- Python exception messages are modelled as `Base.Error` constructors carrying the same data (gate, qubit, property name, unit), not as formatted strings.
