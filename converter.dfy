/** `target_to_backend_properties`: a best-effort conversion of a
    transpiler target (per operation, per qubit tuple, an optional duration
    and error) into the dictionary form of `AerBackendProperties`. */
module TargetConversion {
  import opened Base
  import Nduvs
  import GateRecords
  import BackendProps

  /** `InstructionProperties`: the two attributes the converter reads. */
  datatype InstructionProperties = InstructionProperties(duration: Option<real>, error: Option<real>)

  /** One entry of an operation's qubit-argument map: the qubit tuple (None
      for an operation on any qubits) and its properties (possibly None). */
  datatype QargsEntry = QargsEntry(qargs: Option<seq<int>>, props: Option<InstructionProperties>)

  /** One operation of `target.items()`. */
  datatype Operation = Operation(name: string, entries: seq<QargsEntry>)

  /** The part of `Target` the converter reads. */
  datatype Target = Target(numQubits: nat, operations: seq<Operation>)

  /** `getattr(props, "duration", None)`. */
  function Duration(props: Option<InstructionProperties>): Option<real> {
    if props.Some? then props.value.duration else None
  }

  /** `getattr(props, "error", None)`. */
  function ErrorOf(props: Option<InstructionProperties>): Option<real> {
    if props.Some? then props.value.error else None
  }

  predicate HasData(props: Option<InstructionProperties>) {
    Duration(props).Some? || ErrorOf(props).Some?
  }

  /** The parameters of a gate record: `gate_length` in seconds, then
      `gate_error` without unit, each only when present. */
  function GateNduvs(props: Option<InstructionProperties>, now: Date): (r: seq<Nduvs.Nduv>)
    ensures r == [] <==> !HasData(props)
  {
    (if Duration(props).Some? then [Nduvs.Nduv(now, "gate_length", "s", Duration(props).value)] else [])
    + (if ErrorOf(props).Some? then [Nduvs.Nduv(now, "gate_error", "", ErrorOf(props).value)] else [])
  }

  /** The readout list of a qubit: `readout_error` without unit, then
      `readout_length` in seconds, each only when present. */
  function ReadoutNduvs(props: Option<InstructionProperties>, now: Date): (r: seq<Nduvs.Nduv>)
    ensures r == [] <==> !HasData(props)
  {
    (if ErrorOf(props).Some? then [Nduvs.Nduv(now, "readout_error", "", ErrorOf(props).value)] else [])
    + (if Duration(props).Some? then [Nduvs.Nduv(now, "readout_length", "s", Duration(props).value)] else [])
  }

  /** The "name" extra field of a gate record: the operation name followed by
      the qubits joined with "_". */
  function GateName(op: string, qargs: seq<int>): (r: string)
    ensures |op| <= |r| && r[..|op|] == op
    ensures qargs == [] ==> r == op
  {
    op + Join("_", IntStrings(qargs))
  }

  /** The dictionary of one gate record. */
  function GateRecord(op: string, qargs: seq<int>, props: Option<InstructionProperties>, now: Date): Plain {
    PDict(map["gate" := PStr(op),
              "qubits" := PList(IntsToPlain(qargs)),
              "parameters" := PList(Nduvs.ListToPlain(GateNduvs(props, now))),
              "name" := PStr(GateName(op, qargs))])
  }

  /** The inner loop for an operation other than "measure": one record per
      entry with data; `list(qargs)` of an entry with data but no qubit
      tuple raises. */
  function OperationGates(op: string, entries: seq<QargsEntry>, now: Date): Result<seq<Plain>>
    decreases |entries|
  {
    if entries == [] then Success([])
    else
      var n := |entries| - 1;
      var records :- OperationGates(op, entries[..n], now);
      var e := entries[n];
      if !HasData(e.props) then Success(records)
      else if e.qargs.None? then Failure(NoneQubitArguments(op))
      else Success(records + [GateRecord(op, e.qargs.value, e.props, now)])
  }

  /** Reference selection: the entries that carry data, in order. */
  function DataEntries(entries: seq<QargsEntry>): (r: seq<QargsEntry>)
    ensures forall e :: e in r <==> e in entries && HasData(e.props)
    decreases |entries|
  {
    if entries == [] then []
    else
      var n := |entries| - 1;
      assert entries == entries[..n] + [entries[n]];
      DataEntries(entries[..n]) + (if HasData(entries[n].props) then [entries[n]] else [])
  }

  /** `qubit_props`: qubit -> readout list, None while not yet seen. */
  type QubitProps = map<int, Option<seq<Nduvs.Nduv>>>

  /** `{x: None for x in range(n)}`. */
  function Unset(n: nat): (r: QubitProps)
    ensures forall q :: q in r <==> 0 <= q < n
    ensures forall q :: q in r ==> r[q].None?
  {
    if n == 0 then map[] else Unset(n - 1)[n - 1 := None]
  }

  /** The loop over the "measure" entries from the state `props`: entries
      without a qubit tuple are skipped, `qargs[0]` of an empty tuple
      raises, an entry without data clears everything and stops the loop. */
  function MeasureScan(entries: seq<QargsEntry>, props: QubitProps, now: Date): Result<QubitProps>
    decreases |entries|
  {
    if entries == [] then Success(props)
    else
      var e := entries[0];
      if e.qargs.None? then MeasureScan(entries[1..], props, now)
      else if e.qargs.value == [] then Failure(EmptyQubitArguments)
      else if !HasData(e.props) then Success(map[])
      else MeasureScan(entries[1..], props[e.qargs.value[0] := Some(ReadoutNduvs(e.props, now))], now)
  }

  /** `qubit_props and all(x is not None for x in qubit_props.values())`. */
  predicate Complete(props: QubitProps) {
    props != map[] && forall q :: q in props ==> props[q].Some?
  }

  /** `[qubit_props[i] for i in range(n)]`, in dictionary form. */
  function QubitLists(props: QubitProps, n: nat): (r: seq<Plain>)
    requires forall i :: 0 <= i < n ==> i in props && props[i].Some?
    ensures |r| == n
  {
    seq(n, i requires 0 <= i < n => PList(Nduvs.ListToPlain(props[i].value)))
  }

  /** The outer loop over the operations: the gate records and the qubit
      lists collected so far. A "measure" operation replaces the qubit lists
      only when its scan completes. */
  function Scan(ops: seq<Operation>, n: nat, now: Date): Result<(seq<Plain>, seq<Plain>)>
    decreases |ops|
  {
    if ops == [] then Success(([], []))
    else
      var k := |ops| - 1;
      var acc :- Scan(ops[..k], n, now);
      var op := ops[k];
      if op.name != "measure" then
        var records :- OperationGates(op.name, op.entries, now);
        Success((acc.0 + records, acc.1))
      else
        var props :- MeasureScan(op.entries, Unset(n), now);
        if Complete(props) then
          MeasureScanKeys(op.entries, Unset(n), now);
          Success((acc.0, QubitLists(props, n)))
        else Success(acc)
  }

  /** The dictionary handed to `from_dict`, or None when there are neither
      gate records nor qubit lists. */
  function PropertiesDict(target: Target, now: Date): Result<Option<Plain>> {
    var acc :- Scan(target.operations, target.numQubits, now);
    if acc.0 == [] && acc.1 == [] then Success(None)
    else Success(Some(PDict(map["backend_name" := PStr(""),
                                "backend_version" := PStr(""),
                                "last_update_date" := PNone,
                                "general" := PList([]),
                                "gates" := PList(acc.0),
                                "qubits" := PList(acc.1)])))
  }

  /** The inner loop for an operation other than "measure". */
  method CollectGates(op: string, entries: seq<QargsEntry>, now: Date) returns (r: Result<seq<Plain>>)
    ensures r == OperationGates(op, entries, now)
  {
    var records: seq<Plain> := [];
    for i := 0 to |entries|
      invariant OperationGates(op, entries[..i], now) == Success(records)
    {
      assert entries[..i + 1][..i] == entries[..i];
      var entry := entries[i];
      if HasData(entry.props) {
        if entry.qargs.None? {
          OperationGatesFailureSticks(op, entries, now, i + 1);
          return Failure(NoneQubitArguments(op));
        }
        records := records + [GateRecord(op, entry.qargs.value, entry.props, now)];
      }
    }
    assert entries[..|entries|] == entries;
    return Success(records);
  }

  /** The inner loop for "measure", with its early `break`. */
  method ScanMeasure(entries: seq<QargsEntry>, n: nat, now: Date) returns (r: Result<QubitProps>)
    ensures r == MeasureScan(entries, Unset(n), now)
  {
    var qubitProps := Unset(n);
    var i := 0;
    while i < |entries|
      invariant 0 <= i <= |entries|
      invariant MeasureScan(entries, Unset(n), now) == MeasureScan(entries[i..], qubitProps, now)
    {
      var entry := entries[i];
      assert entries[i..][1..] == entries[i + 1..];
      if entry.qargs.None? {
        i := i + 1;
        continue;
      }
      if entry.qargs.value == [] {
        return Failure(EmptyQubitArguments);
      }
      if !HasData(entry.props) {
        qubitProps := map[];
        assert MeasureScan(entries, Unset(n), now) == Success(qubitProps);
        break;
      }
      qubitProps := qubitProps[entry.qargs.value[0] := Some(ReadoutNduvs(entry.props, now))];
      i := i + 1;
    }
    return Success(qubitProps);
  }

  /** The loops of `target_to_backend_properties` that build the dictionary. */
  method BuildPropertiesDict(target: Target, now: Date) returns (r: Result<Option<Plain>>)
    ensures r == PropertiesDict(target, now)
  {
    var ops := target.operations;
    var n := target.numQubits;
    var gates: seq<Plain> := [];
    var qubits: seq<Plain> := [];
    for k := 0 to |ops|
      invariant Scan(ops[..k], n, now) == Success((gates, qubits))
    {
      assert ops[..k + 1][..k] == ops[..k];
      var op := ops[k];
      if op.name != "measure" {
        var records := CollectGates(op.name, op.entries, now);
        if records.Failure? {
          ScanFailureSticks(ops, n, now, k + 1);
          return Failure(records.error);
        }
        gates := gates + records.value;
      } else {
        var qubitProps := ScanMeasure(op.entries, n, now);
        if qubitProps.Failure? {
          ScanFailureSticks(ops, n, now, k + 1);
          return Failure(qubitProps.error);
        }
        if Complete(qubitProps.value) {
          MeasureScanKeys(op.entries, Unset(n), now);
          qubits := QubitLists(qubitProps.value, n);
        }
      }
    }
    assert ops[..|ops|] == ops;
    if gates == [] && qubits == [] {
      return Success(None);
    }
    var d := map["backend_name" := PStr(""),
                 "backend_version" := PStr(""),
                 "last_update_date" := PNone,
                 "general" := PList([])];
    d := d["gates" := PList(gates)];
    d := d["qubits" := PList(qubits)];
    return Success(Some(PDict(d)));
  }

  /** `target_to_backend_properties`: None when nothing converts, else
      `AerBackendProperties.from_dict` of the collected dictionary. */
  method TargetToBackendProperties(target: Target, now: Date, env: Externals)
    returns (r: Result<Option<BackendProps.AerBackendProperties>>)
    ensures r.Failure? <==> PropertiesDict(target, now).Failure?
                            || (PropertiesDict(target, now).value.Some?
                                && BackendProps.Load(PropertiesDict(target, now).value.value, env).Failure?)
    ensures r.Failure? ==> r.error == (if PropertiesDict(target, now).Failure? then PropertiesDict(target, now).error
                                       else BackendProps.Load(PropertiesDict(target, now).value.value, env).error)
    ensures r.Success? ==> (r.value.None? <==> PropertiesDict(target, now) == Success(None))
    ensures r.Success? && r.value.Some? ==>
              && fresh(r.value.value) && r.value.value.Valid()
              && r.value.value.Data() == BackendProps.Load(PropertiesDict(target, now).value.value, env).value
  {
    var d := BuildPropertiesDict(target, now);
    if d.Failure? {
      return Failure(d.error);
    }
    if d.value.None? {
      return Success(None);
    }
    var p := BackendProps.AerBackendProperties.FromDict(d.value.value, env);
    if p.Failure? {
      return Failure(p.error);
    }
    return Success(Some(p.value));
  }

  // ---------------------------------------------------------------------
  // Lemmas

  lemma {:induction false} OperationGatesFailureSticks(op: string, entries: seq<QargsEntry>, now: Date, i: int)
    requires 0 <= i <= |entries| && OperationGates(op, entries[..i], now).Failure?
    ensures OperationGates(op, entries, now) == OperationGates(op, entries[..i], now)
    decreases |entries| - i
  {
    if i < |entries| {
      assert entries[..i + 1][..i] == entries[..i];
      OperationGatesFailureSticks(op, entries, now, i + 1);
    } else {
      assert entries[..i] == entries;
    }
  }

  lemma {:induction false} ScanFailureSticks(ops: seq<Operation>, n: nat, now: Date, k: int)
    requires 0 <= k <= |ops| && Scan(ops[..k], n, now).Failure?
    ensures Scan(ops, n, now) == Scan(ops[..k], n, now)
    decreases |ops| - k
  {
    if k < |ops| {
      assert ops[..k + 1][..k] == ops[..k];
      ScanFailureSticks(ops, n, now, k + 1);
    } else {
      assert ops[..k] == ops;
    }
  }

  /** A scan that does not stop early keeps every key it started with and
      adds the first qubit of each entry. */
  lemma {:induction false} MeasureScanKeys(entries: seq<QargsEntry>, props: QubitProps, now: Date)
    requires MeasureScan(entries, props, now).Success?
    requires MeasureScan(entries, props, now).value != map[]
    ensures props.Keys <= MeasureScan(entries, props, now).value.Keys
    decreases |entries|
  {
    if entries != [] {
      var e := entries[0];
      if e.qargs.None? {
        MeasureScanKeys(entries[1..], props, now);
      } else if HasData(e.props) {
        MeasureScanKeys(entries[1..], props[e.qargs.value[0] := Some(ReadoutNduvs(e.props, now))], now);
      }
    }
  }

  /** The all-or-nothing rule for readout data. A scan that keeps any data
      met no entry with a qubit tuple but without data, and then a qubit has
      a readout list exactly when it had one before or some entry's tuple
      starts with it, the last such entry's list winning. */
  lemma {:induction false} MeasureScanMeaning(entries: seq<QargsEntry>, props: QubitProps, now: Date)
    requires MeasureScan(entries, props, now).Success?
    requires MeasureScan(entries, props, now).value != map[]
    ensures forall j :: 0 <= j < |entries| && entries[j].qargs.Some? ==>
              entries[j].qargs.value != [] && HasData(entries[j].props)
    ensures forall q :: q in MeasureScan(entries, props, now).value <==>
              q in props || LastStarting(entries, q) >= 0
    ensures forall q :: q in MeasureScan(entries, props, now).value ==>
              MeasureScan(entries, props, now).value[q] ==
                if LastStarting(entries, q) >= 0
                then Some(ReadoutNduvs(entries[LastStarting(entries, q)].props, now))
                else props[q]
    decreases |entries|
  {
    if entries != [] {
      var e := entries[0];
      var rest := entries[1..];
      assert forall j :: 1 <= j < |entries| ==> entries[j] == rest[j - 1];
      var next := if e.qargs.None? then props else props[e.qargs.value[0] := Some(ReadoutNduvs(e.props, now))];
      MeasureScanMeaning(rest, next, now);
    }
  }

  /** `e`'s qubit tuple exists and starts with `q`. */
  predicate Starts(e: QargsEntry, q: int) {
    e.qargs.Some? && e.qargs.value != [] && e.qargs.value[0] == q
  }

  /** The position of the last entry whose tuple starts with `q`, or -1. */
  function LastStarting(entries: seq<QargsEntry>, q: int): (r: int)
    ensures -1 <= r < |entries|
    ensures r >= 0 ==> Starts(entries[r], q) && forall j :: r < j < |entries| ==> !Starts(entries[j], q)
    ensures r == -1 <==> forall j :: 0 <= j < |entries| ==> !Starts(entries[j], q)
    decreases |entries|
  {
    if entries == [] then -1
    else
      var rest := entries[1..];
      assert forall j :: 1 <= j < |entries| ==> entries[j] == rest[j - 1];
      var r := LastStarting(rest, q);
      if r >= 0 then r + 1
      else if Starts(entries[0], q) then 0
      else -1
  }

  /** With the scan starting from `Unset(n)`, qubit lists are emitted only
      when every qubit `0..n-1` got readout data from an entry. */
  lemma CompleteCoversAll(entries: seq<QargsEntry>, n: nat, now: Date)
    requires MeasureScan(entries, Unset(n), now).Success?
    requires Complete(MeasureScan(entries, Unset(n), now).value)
    ensures forall q :: 0 <= q < n ==> LastStarting(entries, q) >= 0
  {
    MeasureScanMeaning(entries, Unset(n), now);
  }

  /** The gate records of one operation are, in order, one record per entry
      that carries data; the operation fails exactly when one of those has
      no qubit tuple. */
  lemma {:induction false} OperationGatesReference(op: string, entries: seq<QargsEntry>, now: Date)
    ensures OperationGates(op, entries, now).Success? <==>
              forall i :: 0 <= i < |DataEntries(entries)| ==> DataEntries(entries)[i].qargs.Some?
    ensures OperationGates(op, entries, now).Success? ==>
              var d := DataEntries(entries);
              |OperationGates(op, entries, now).value| == |d|
              && forall i :: 0 <= i < |d| ==>
                   OperationGates(op, entries, now).value[i] == GateRecord(op, d[i].qargs.value, d[i].props, now)
    decreases |entries|
  {
    if entries != [] {
      var n := |entries| - 1;
      var init := entries[..n];
      assert entries == init + [entries[n]];
      OperationGatesReference(op, init, now);
      var d := DataEntries(entries);
      var di := DataEntries(init);
      assert d == di + (if HasData(entries[n].props) then [entries[n]] else []);
      if !HasData(entries[n].props) {
        assert d == di;
      }
    }
  }

  /** Each gate record reads back as a `GateProperties` of that operation
      and tuple whose parameters are `gate_length` then `gate_error`, with
      the joined name as its one extra field. */
  lemma GateRecordDecodes(op: string, qargs: seq<int>, props: Option<InstructionProperties>, now: Date)
    ensures GateRecords.Decode(GateRecord(op, qargs, props, now))
            == Success(GateRecords.GateProperties(qargs, op, GateNduvs(props, now),
                                                  map["name" := PStr(GateName(op, qargs))]))
  {
    var g := GateRecords.GateProperties(qargs, op, GateNduvs(props, now), map["name" := PStr(GateName(op, qargs))]);
    assert GateRecord(op, qargs, props, now) == PDict(GateRecords.ToDict(g));
    GateRecords.RoundTrip(g);
  }

  /** A qubit list reads back as its readout parameters. */
  lemma ReadoutListDecodes(props: Option<InstructionProperties>, now: Date)
    ensures BackendProps.QubitFromPlain(PList(Nduvs.ListToPlain(ReadoutNduvs(props, now))))
            == Success(ReadoutNduvs(props, now))
  {
    Nduvs.ListRoundTrip("qubits", ReadoutNduvs(props, now));
  }

  /** Everything the scan collects is in a form `from_dict` reads. */
  lemma {:induction false} ScanReadable(ops: seq<Operation>, n: nat, now: Date)
    requires Scan(ops, n, now).Success?
    ensures forall i :: 0 <= i < |Scan(ops, n, now).value.0| ==>
              GateRecords.Decode(Scan(ops, n, now).value.0[i]).Success?
    ensures forall i :: 0 <= i < |Scan(ops, n, now).value.1| ==>
              BackendProps.QubitFromPlain(Scan(ops, n, now).value.1[i]).Success?
    decreases |ops|
  {
    if ops != [] {
      var k := |ops| - 1;
      ScanReadable(ops[..k], n, now);
      var op := ops[k];
      var acc := Scan(ops[..k], n, now).value;
      if op.name != "measure" {
        OperationGatesReference(op.name, op.entries, now);
        var d := DataEntries(op.entries);
        forall i | 0 <= i < |d|
          ensures GateRecords.Decode(GateRecord(op.name, d[i].qargs.value, d[i].props, now)).Success?
        {
          GateRecordDecodes(op.name, d[i].qargs.value, d[i].props, now);
        }
      } else {
        var props := MeasureScan(op.entries, Unset(n), now).value;
        if Complete(props) {
          MeasureScanKeys(op.entries, Unset(n), now);
          forall i | 0 <= i < n
            ensures BackendProps.QubitFromPlain(QubitLists(props, n)[i]).Success?
          {
            Nduvs.ListRoundTrip("qubits", props[i].value);
          }
        }
      }
    }
  }

  /** A dictionary the converter produces always decodes: the conversion
      can then only fail on a unit the resolver rejects. */
  lemma ConvertedDictDecodes(target: Target, now: Date)
    requires PropertiesDict(target, now).Success? && PropertiesDict(target, now).value.Some?
    ensures BackendProps.Decode(PropertiesDict(target, now).value.value).Success?
  {
    var acc := Scan(target.operations, target.numQubits, now).value;
    ScanReadable(target.operations, target.numQubits, now);
    var d := PropertiesDict(target, now).value.value.entries;
    assert BackendProps.PopHeader(d).Success?;
    assert Collect(acc.0, GateRecords.Decode).Success?;
    assert Collect(acc.1, BackendProps.QubitFromPlain).Success?;
    assert BackendProps.PopLists(d).Success?;
  }

  /** An operation contributes no gate record exactly when none of its
      entries carries data. */
  lemma OperationGatesEmpty(op: string, entries: seq<QargsEntry>, now: Date)
    requires OperationGates(op, entries, now).Success?
    ensures OperationGates(op, entries, now).value == [] <==>
              forall i :: 0 <= i < |entries| ==> !HasData(entries[i].props)
  {
    OperationGatesReference(op, entries, now);
    var d := DataEntries(entries);
    if exists i :: 0 <= i < |entries| && HasData(entries[i].props) {
      var i :| 0 <= i < |entries| && HasData(entries[i].props);
      assert entries[i] in d;
    }
    if d != [] {
      assert d[0] in entries;
    }
  }

  /** No gate records come out exactly when no operation other than
      "measure" has an entry with data. */
  lemma {:induction false} NoGatesExactly(ops: seq<Operation>, n: nat, now: Date)
    requires Scan(ops, n, now).Success?
    ensures Scan(ops, n, now).value.0 == [] <==>
              forall k, i :: 0 <= k < |ops| && ops[k].name != "measure" && 0 <= i < |ops[k].entries|
                             ==> !HasData(ops[k].entries[i].props)
    decreases |ops|
  {
    if ops != [] {
      var k := |ops| - 1;
      NoGatesExactly(ops[..k], n, now);
      assert forall j :: 0 <= j < k ==> ops[..k][j] == ops[j];
      if ops[k].name != "measure" {
        OperationGatesEmpty(ops[k].name, ops[k].entries, now);
      }
    }
  }

  /** A "measure" operation whose scan keeps data for every key. */
  predicate MeasureCompletes(op: Operation, n: nat, now: Date) {
    && op.name == "measure"
    && MeasureScan(op.entries, Unset(n), now).Success?
    && Complete(MeasureScan(op.entries, Unset(n), now).value)
  }

  /** Qubit lists come out exactly when some "measure" operation's scan
      completes and there is at least one qubit; then there is one list per
      qubit. */
  lemma {:induction false} QubitListsExactly(ops: seq<Operation>, n: nat, now: Date)
    requires Scan(ops, n, now).Success?
    ensures Scan(ops, n, now).value.1 == [] <==>
              n == 0 || forall k :: 0 <= k < |ops| ==> !MeasureCompletes(ops[k], n, now)
    ensures Scan(ops, n, now).value.1 != [] ==> |Scan(ops, n, now).value.1| == n
    decreases |ops|
  {
    if ops != [] {
      var k := |ops| - 1;
      QubitListsExactly(ops[..k], n, now);
      assert forall j :: 0 <= j < k ==> ops[..k][j] == ops[j];
    }
  }
}
