/** The two lookup indices `AerBackendProperties.__init__` builds eagerly:
    qubit -> {name -> (resolved value, date)} and
    gate -> qubit tuple -> {name -> (resolved value, date)}.
    Every value goes through the unit resolver; a rejected unit is fatal. */
module PropertyIndex {
  import opened Base
  import opened Nduvs
  import opened GateRecords

  /** `qiskit.utils.units.apply_prefix`: a value in the base unit, or None
      when the unit is not understood. */
  type Resolver = (real, string) -> Option<real>

  /** `PropertyT`: a resolved value and the date it was measured. */
  type Property = (real, Date)

  /** {property name -> property}: the `formatted_props` dictionaries. */
  type PropMap = map<string, Property>

  /** `_qubits`. */
  type QubitIndex = map<int, PropMap>

  /** `_gates`. */
  type GateIndex = map<string, map<seq<int>, PropMap>>

  /** `_apply_prefix`: the resolver's value, or ValueError naming the unit. */
  function ApplyPrefix(units: Resolver, value: real, unit: string): (r: Result<real>)
    ensures r.Success? <==> units(value, unit).Some?
    ensures r.Failure? ==> r.error == UnitNotUnderstood(unit)
  {
    match units(value, unit)
    case Some(v) => Success(v)
    case None => Failure(UnitNotUnderstood(unit))
  }

  predicate Resolves(units: Resolver, p: Nduv) {
    units(p.value, p.unit).Some?
  }

  /** `p` resolved, as the index stores it. */
  function Resolved(units: Resolver, p: Nduv): Property
    requires Resolves(units, p)
  {
    (units(p.value, p.unit).value, p.date)
  }

  /** The inner loop over a parameter list: resolve each in order, a later
      parameter overwriting an earlier one of the same name. */
  function Format(ps: seq<Nduv>, units: Resolver): Result<PropMap>
    decreases |ps|
  {
    if ps == [] then Success(map[])
    else
      var n := |ps| - 1;
      var formatted :- Format(ps[..n], units);
      var value :- ApplyPrefix(units, ps[n].value, ps[n].unit);
      Success(formatted[ps[n].name := (value, ps[n].date)])
  }

  /** `ps[k]` is the first parameter whose unit is rejected. */
  predicate FirstRejected(units: Resolver, ps: seq<Nduv>, k: int) {
    && 0 <= k < |ps|
    && !Resolves(units, ps[k])
    && forall j :: 0 <= j < k ==> Resolves(units, ps[j])
  }

  /** No later parameter of `ps` has the name of `ps[i]`. */
  predicate LastNamed(ps: seq<Nduv>, i: int) {
    0 <= i < |ps| && forall j :: i < j < |ps| ==> ps[j].name != ps[i].name
  }

  function Names(ps: seq<Nduv>): set<string> {
    set i | 0 <= i < |ps| :: ps[i].name
  }

  /** Formatting fails exactly when some unit is rejected, and then with the
      error of the first rejected unit. */
  lemma {:induction false} FormatOutcome(ps: seq<Nduv>, units: Resolver)
    ensures Format(ps, units).Success? <==> forall i :: 0 <= i < |ps| ==> Resolves(units, ps[i])
    ensures Format(ps, units).Failure? ==>
              exists k :: FirstRejected(units, ps, k) && Format(ps, units).error == UnitNotUnderstood(ps[k].unit)
    decreases |ps|
  {
    if ps != [] {
      var n := |ps| - 1;
      FormatOutcome(ps[..n], units);
      assert forall i :: 0 <= i < n ==> ps[..n][i] == ps[i];
      if Format(ps[..n], units).Failure? {
        var k :| FirstRejected(units, ps[..n], k) && Format(ps[..n], units).error == UnitNotUnderstood(ps[k].unit);
        assert FirstRejected(units, ps, k);
      } else if !Resolves(units, ps[n]) {
        assert FirstRejected(units, ps, n);
      }
    }
  }

  /** On success the names present are exactly those of the parameters. */
  lemma {:induction false} FormatKeys(ps: seq<Nduv>, units: Resolver)
    requires Format(ps, units).Success?
    ensures Format(ps, units).value.Keys == Names(ps)
    decreases |ps|
  {
    if ps != [] {
      var n := |ps| - 1;
      FormatKeys(ps[..n], units);
      assert Names(ps) == Names(ps[..n]) + {ps[n].name} by {
        assert forall i :: 0 <= i < n ==> ps[..n][i] == ps[i];
        forall x | x in Names(ps) ensures x in Names(ps[..n]) + {ps[n].name} {
          var i :| 0 <= i < |ps| && ps[i].name == x;
          if i < n { assert ps[..n][i] == ps[i]; }
        }
      }
    }
  }

  /** On success each name maps to the last parameter carrying it. */
  lemma {:induction false} FormatEntries(ps: seq<Nduv>, units: Resolver)
    requires Format(ps, units).Success?
    ensures forall i :: LastNamed(ps, i) ==>
              && Resolves(units, ps[i])
              && ps[i].name in Format(ps, units).value
              && Format(ps, units).value[ps[i].name] == Resolved(units, ps[i])
    decreases |ps|
  {
    if ps != [] {
      var n := |ps| - 1;
      var before := Format(ps[..n], units).value;
      FormatEntries(ps[..n], units);
      assert Resolves(units, ps[n]);
      assert Format(ps, units).value == before[ps[n].name := Resolved(units, ps[n])];
      forall i | LastNamed(ps, i)
        ensures && Resolves(units, ps[i])
                && ps[i].name in Format(ps, units).value
                && Format(ps, units).value[ps[i].name] == Resolved(units, ps[i])
      {
        if i < n {
          assert ps[..n][i] == ps[i];
          assert LastNamed(ps[..n], i);
        }
      }
    }
  }

  /** A failure in a prefix is the failure of the whole list. */
  lemma {:induction false} FormatFailureSticks(ps: seq<Nduv>, units: Resolver, k: int)
    requires 0 <= k <= |ps| && Format(ps[..k], units).Failure?
    ensures Format(ps, units) == Format(ps[..k], units)
    decreases |ps| - k
  {
    if k < |ps| {
      assert ps[..k + 1][..k] == ps[..k];
      FormatFailureSticks(ps, units, k + 1);
    } else {
      assert ps[..k] == ps;
    }
  }

  /** The qubit loop: position `i` gets an entry only when `qubits[i]` is
      non-empty, since the source stores it from inside the inner loop. */
  function QubitIndexOf(qubits: seq<seq<Nduv>>, units: Resolver): Result<QubitIndex>
    decreases |qubits|
  {
    if qubits == [] then Success(map[])
    else
      var n := |qubits| - 1;
      var index :- QubitIndexOf(qubits[..n], units);
      var formatted :- Format(qubits[n], units);
      Success(if qubits[n] == [] then index else index[n := formatted])
  }

  /** The positions that have at least one property. */
  function Populated(qubits: seq<seq<Nduv>>): set<int> {
    set i | 0 <= i < |qubits| && qubits[i] != []
  }

  /** Every parameter of every qubit resolves. */
  predicate QubitsResolve(qubits: seq<seq<Nduv>>, units: Resolver) {
    forall i, k :: 0 <= i < |qubits| && 0 <= k < |qubits[i]| ==> Resolves(units, qubits[i][k])
  }

  /** The qubit index exists exactly when every unit resolves; a failure names
      a rejected unit of some qubit parameter. */
  lemma {:induction false} QubitIndexOutcome(qubits: seq<seq<Nduv>>, units: Resolver)
    ensures QubitIndexOf(qubits, units).Success? <==> QubitsResolve(qubits, units)
    ensures QubitIndexOf(qubits, units).Failure? ==>
              exists i, k :: 0 <= i < |qubits| && 0 <= k < |qubits[i]| && !Resolves(units, qubits[i][k])
                             && QubitIndexOf(qubits, units).error == UnitNotUnderstood(qubits[i][k].unit)
    decreases |qubits|
  {
    if qubits != [] {
      var n := |qubits| - 1;
      QubitIndexOutcome(qubits[..n], units);
      FormatOutcome(qubits[n], units);
      assert forall i :: 0 <= i < n ==> qubits[..n][i] == qubits[i];
      if QubitIndexOf(qubits[..n], units).Failure? {
        var i, k :| 0 <= i < n && 0 <= k < |qubits[..n][i]| && !Resolves(units, qubits[..n][i][k])
                    && QubitIndexOf(qubits[..n], units).error == UnitNotUnderstood(qubits[..n][i][k].unit);
        assert qubits[..n][i] == qubits[i];
      } else if Format(qubits[n], units).Failure? {
        var k :| FirstRejected(units, qubits[n], k)
                 && Format(qubits[n], units).error == UnitNotUnderstood(qubits[n][k].unit);
      }
    }
  }

  /** After construction `_qubits` has a key for exactly the positions with
      properties, and each holds the formatted list of that position. */
  lemma {:induction false} QubitIndexContents(qubits: seq<seq<Nduv>>, units: Resolver)
    requires QubitIndexOf(qubits, units).Success?
    ensures QubitIndexOf(qubits, units).value.Keys == Populated(qubits)
    ensures forall i :: i in Populated(qubits) ==>
              Format(qubits[i], units) == Success(QubitIndexOf(qubits, units).value[i])
    decreases |qubits|
  {
    if qubits != [] {
      var n := |qubits| - 1;
      QubitIndexContents(qubits[..n], units);
      assert forall i :: 0 <= i < n ==> qubits[..n][i] == qubits[i];
      assert Populated(qubits) == Populated(qubits[..n]) + (if qubits[n] == [] then {} else {n});
    }
  }

  /** A failure while formatting `qubits[q]` is the failure of the whole
      construction. */
  lemma {:induction false} QubitIndexFailureSticks(qubits: seq<seq<Nduv>>, units: Resolver, q: int)
    requires 0 <= q <= |qubits| && QubitIndexOf(qubits[..q], units).Failure?
    ensures QubitIndexOf(qubits, units) == QubitIndexOf(qubits[..q], units)
    decreases |qubits| - q
  {
    if q < |qubits| {
      assert qubits[..q + 1][..q] == qubits[..q];
      QubitIndexFailureSticks(qubits, units, q + 1);
    } else {
      assert qubits[..q] == qubits;
    }
  }

  /** `_qubits` as the constructor's nested loops build it. */
  method BuildQubitIndex(qubits: seq<seq<Nduv>>, units: Resolver) returns (r: Result<QubitIndex>)
    ensures r == QubitIndexOf(qubits, units)
  {
    var index: QubitIndex := map[];
    for q := 0 to |qubits|
      invariant QubitIndexOf(qubits[..q], units) == Success(index)
    {
      var props := qubits[q];
      ghost var before := index;
      var formatted: PropMap := map[];
      for k := 0 to |props|
        invariant Format(props[..k], units) == Success(formatted)
        invariant index == if k == 0 then before else before[q := formatted]
      {
        var prop := props[k];
        var value := ApplyPrefix(units, prop.value, prop.unit);
        if value.Failure? {
          assert props[..k + 1][..k] == props[..k];
          FormatFailureSticks(props, units, k + 1);
          assert qubits[..q + 1][..q] == qubits[..q];
          QubitIndexFailureSticks(qubits, units, q + 1);
          return Failure(value.error);
        }
        assert props[..k + 1][..k] == props[..k];
        formatted := formatted[prop.name := (value.value, prop.date)];
        index := index[q := formatted];
      }
      assert props[..|props|] == props;
      QubitIndexStep(qubits, units, q, before, formatted);
    }
    assert qubits[..|qubits|] == qubits;
    return Success(index);
  }

  /** One more position of the qubit loop: its formatted properties are
      stored unless it has none. */
  lemma QubitIndexStep(qubits: seq<seq<Nduv>>, units: Resolver, q: int, before: QubitIndex, formatted: PropMap)
    requires 0 <= q < |qubits|
    requires QubitIndexOf(qubits[..q], units) == Success(before)
    requires Format(qubits[q], units) == Success(formatted)
    ensures QubitIndexOf(qubits[..q + 1], units)
            == Success(if qubits[q] == [] then before else before[q := formatted])
  {
    assert qubits[..q + 1][..q] == qubits[..q];
  }

  /** The gate loop: the first-level entry of a gate name is created even
      for a record without parameters, and the qubit tuple's entry is
      replaced by the record's formatted parameters. */
  function GateIndexOf(gates: seq<GateProperties>, units: Resolver): Result<GateIndex>
    decreases |gates|
  {
    if gates == [] then Success(map[])
    else
      var n := |gates| - 1;
      var g := gates[n];
      var index :- GateIndexOf(gates[..n], units);
      var formatted :- Format(g.parameters, units);
      var byQubits := if g.gate in index then index[g.gate] else map[];
      Success(index[g.gate := byQubits[g.qubits := formatted]])
  }

  /** Every parameter of every gate record resolves. */
  predicate GatesResolve(gates: seq<GateProperties>, units: Resolver) {
    forall i, k :: 0 <= i < |gates| && 0 <= k < |gates[i].parameters| ==> Resolves(units, gates[i].parameters[k])
  }

  /** `gates[i]` is the last record for its gate name and qubit tuple. */
  predicate LastRecord(gates: seq<GateProperties>, i: int) {
    && 0 <= i < |gates|
    && forall j :: i < j < |gates| ==> !(gates[j].gate == gates[i].gate && gates[j].qubits == gates[i].qubits)
  }

  /** Some record has this gate name and qubit tuple. */
  predicate Recorded(gates: seq<GateProperties>, gate: string, qubits: seq<int>) {
    exists i :: 0 <= i < |gates| && gates[i].gate == gate && gates[i].qubits == qubits
  }

  lemma {:induction false} GateIndexOutcome(gates: seq<GateProperties>, units: Resolver)
    ensures GateIndexOf(gates, units).Success? <==> GatesResolve(gates, units)
    ensures GateIndexOf(gates, units).Failure? ==>
              exists i, k :: 0 <= i < |gates| && 0 <= k < |gates[i].parameters|
                             && !Resolves(units, gates[i].parameters[k])
                             && GateIndexOf(gates, units).error == UnitNotUnderstood(gates[i].parameters[k].unit)
    decreases |gates|
  {
    if gates != [] {
      var n := |gates| - 1;
      GateIndexOutcome(gates[..n], units);
      FormatOutcome(gates[n].parameters, units);
      assert forall i :: 0 <= i < n ==> gates[..n][i] == gates[i];
      if GateIndexOf(gates[..n], units).Failure? {
        var i, k :| 0 <= i < n && 0 <= k < |gates[..n][i].parameters|
                    && !Resolves(units, gates[..n][i].parameters[k])
                    && GateIndexOf(gates[..n], units).error == UnitNotUnderstood(gates[..n][i].parameters[k].unit);
        assert gates[..n][i] == gates[i];
      } else if Format(gates[n].parameters, units).Failure? {
        var k :| FirstRejected(units, gates[n].parameters, k)
                 && Format(gates[n].parameters, units).error == UnitNotUnderstood(gates[n].parameters[k].unit);
      }
    }
  }

  /** After construction `_gates` has a first-level key for every gate name
      in `gates` (even one whose records have no parameters) and, under it,
      a key for exactly the recorded qubit tuples of that name: records
      sharing a name but not a tuple coexist. */
  lemma {:induction false} GateIndexKeys(gates: seq<GateProperties>, units: Resolver)
    requires GateIndexOf(gates, units).Success?
    ensures forall gate :: gate in GateIndexOf(gates, units).value <==>
              exists i :: 0 <= i < |gates| && gates[i].gate == gate
    ensures forall gate, qubits :: gate in GateIndexOf(gates, units).value ==>
              (qubits in GateIndexOf(gates, units).value[gate] <==> Recorded(gates, gate, qubits))
  {
    GateIndexNames(gates, units);
    GateIndexTuples(gates, units);
  }

  lemma {:induction false} GateIndexNames(gates: seq<GateProperties>, units: Resolver)
    requires GateIndexOf(gates, units).Success?
    ensures forall gate :: gate in GateIndexOf(gates, units).value <==>
              exists i :: 0 <= i < |gates| && gates[i].gate == gate
    decreases |gates|
  {
    if gates != [] {
      var n := |gates| - 1;
      var g := gates[n];
      GateIndexNames(gates[..n], units);
      var index := GateIndexOf(gates, units).value;
      assert forall i :: 0 <= i < n ==> gates[..n][i] == gates[i];
      forall gate | gate in index
        ensures exists i :: 0 <= i < |gates| && gates[i].gate == gate
      {
        if gate != g.gate {
          var i :| 0 <= i < n && gates[..n][i].gate == gate;
          assert gates[i].gate == gate;
        }
      }
    }
  }

  lemma {:induction false} GateIndexTuples(gates: seq<GateProperties>, units: Resolver)
    requires GateIndexOf(gates, units).Success?
    ensures forall gate, qubits :: gate in GateIndexOf(gates, units).value ==>
              (qubits in GateIndexOf(gates, units).value[gate] <==> Recorded(gates, gate, qubits))
    decreases |gates|
  {
    if gates != [] {
      var n := |gates| - 1;
      var g := gates[n];
      GateIndexTuples(gates[..n], units);
      GateIndexNames(gates[..n], units);
      assert forall i :: 0 <= i < n ==> gates[..n][i] == gates[i];
      var index := GateIndexOf(gates, units).value;
      forall gate, qubits | gate in index
        ensures qubits in index[gate] <==> Recorded(gates, gate, qubits)
      {
        RecordedLast(gates, gate, qubits);
        if qubits in index[gate] && !(gate == g.gate && qubits == g.qubits) {
          assert Recorded(gates[..n], gate, qubits);
        }
      }
    }
  }

  /** A (name, tuple) pair is recorded in a list iff it is recorded before
      the last record or is the last record's. */
  lemma RecordedLast(gates: seq<GateProperties>, gate: string, qubits: seq<int>)
    requires gates != []
    ensures Recorded(gates, gate, qubits) <==>
              Recorded(gates[..|gates| - 1], gate, qubits)
              || (gates[|gates| - 1].gate == gate && gates[|gates| - 1].qubits == qubits)
  {
    var n := |gates| - 1;
    if Recorded(gates, gate, qubits) && !(gates[n].gate == gate && gates[n].qubits == qubits) {
      var i :| 0 <= i < |gates| && gates[i].gate == gate && gates[i].qubits == qubits;
      assert gates[..n][i] == gates[i];
    }
    if Recorded(gates[..n], gate, qubits) {
      var i :| 0 <= i < n && gates[..n][i].gate == gate && gates[..n][i].qubits == qubits;
      assert gates[i] == gates[..n][i];
    }
  }

  /** ... and under each (name, tuple) the formatted parameters of the last
      record for that name and tuple. */
  lemma {:induction false} GateIndexEntries(gates: seq<GateProperties>, units: Resolver)
    requires GateIndexOf(gates, units).Success?
    ensures forall i :: LastRecord(gates, i) ==>
              && gates[i].gate in GateIndexOf(gates, units).value
              && gates[i].qubits in GateIndexOf(gates, units).value[gates[i].gate]
              && Format(gates[i].parameters, units)
                 == Success(GateIndexOf(gates, units).value[gates[i].gate][gates[i].qubits])
    decreases |gates|
  {
    if gates != [] {
      var n := |gates| - 1;
      GateIndexEntries(gates[..n], units);
      var index := GateIndexOf(gates, units).value;
      forall i | LastRecord(gates, i)
        ensures && gates[i].gate in index && gates[i].qubits in index[gates[i].gate]
                && Format(gates[i].parameters, units) == Success(index[gates[i].gate][gates[i].qubits])
      {
        if i < n {
          assert gates[..n][i] == gates[i];
          assert LastRecord(gates[..n], i);
        }
      }
    }
  }

  lemma {:induction false} GateIndexFailureSticks(gates: seq<GateProperties>, units: Resolver, i: int)
    requires 0 <= i <= |gates| && GateIndexOf(gates[..i], units).Failure?
    ensures GateIndexOf(gates, units) == GateIndexOf(gates[..i], units)
    decreases |gates| - i
  {
    if i < |gates| {
      assert gates[..i + 1][..i] == gates[..i];
      GateIndexFailureSticks(gates, units, i + 1);
    } else {
      assert gates[..i] == gates;
    }
  }

  /** `_gates` as the constructor's loop builds it. */
  method BuildGateIndex(gates: seq<GateProperties>, units: Resolver) returns (r: Result<GateIndex>)
    ensures r == GateIndexOf(gates, units)
  {
    var index: GateIndex := map[];
    for i := 0 to |gates|
      invariant GateIndexOf(gates[..i], units) == Success(index)
    {
      var gate := gates[i];
      ghost var before := index;
      ghost var byQubits := if gate.gate in before then before[gate.gate] else map[];
      if gate.gate !in index {
        index := index[gate.gate := map[]];
      }
      assert index == before[gate.gate := byQubits];
      var formatted: PropMap := map[];
      for k := 0 to |gate.parameters|
        invariant Format(gate.parameters[..k], units) == Success(formatted)
      {
        var param := gate.parameters[k];
        var value := ApplyPrefix(units, param.value, param.unit);
        if value.Failure? {
          assert gate.parameters[..k + 1][..k] == gate.parameters[..k];
          FormatFailureSticks(gate.parameters, units, k + 1);
          assert gates[..i + 1][..i] == gates[..i];
          GateIndexFailureSticks(gates, units, i + 1);
          return Failure(value.error);
        }
        assert gate.parameters[..k + 1][..k] == gate.parameters[..k];
        formatted := formatted[param.name := (value.value, param.date)];
      }
      assert gate.parameters[..|gate.parameters|] == gate.parameters;
      index := index[gate.gate := index[gate.gate][gate.qubits := formatted]];
      assert index == before[gate.gate := byQubits[gate.qubits := formatted]];
      GateIndexStep(gates, units, i, before, formatted);
    }
    assert gates[..|gates|] == gates;
    return Success(index);
  }

  /** One more record of the gate loop: its formatted parameters replace
      the entry of its qubit tuple under its gate name. */
  lemma GateIndexStep(gates: seq<GateProperties>, units: Resolver, i: int, before: GateIndex, formatted: PropMap)
    requires 0 <= i < |gates|
    requires GateIndexOf(gates[..i], units) == Success(before)
    requires Format(gates[i].parameters, units) == Success(formatted)
    ensures GateIndexOf(gates[..i + 1], units)
            == Success(before[gates[i].gate := (if gates[i].gate in before then before[gates[i].gate] else map[])
                                                 [gates[i].qubits := formatted]])
  {
    assert gates[..i + 1][..i] == gates[..i];
    assert gates[..i + 1][i] == gates[i];
  }
}
