/** `Nduv`: one name-date-unit-value calibration measurement and its
    dictionary form. */
module Nduvs {
  import opened Base

  datatype Nduv = Nduv(date: Date, name: string, unit: string, value: real)

  /** The parameters of `Nduv.__init__`, in declared order. */
  const Fields: seq<string> := ["date", "name", "unit", "value"]

  /** `Nduv.to_dict`: the four fields as a flat mapping. */
  function ToDict(n: Nduv): map<string, Plain> {
    map["date" := PDate(n.date), "name" := PStr(n.name),
        "unit" := PStr(n.unit), "value" := PReal(n.value)]
  }

  /** `Nduv.from_dict`, that is `cls(**data)`: a "self" key repeats the bound
      `self` argument, a key that is no parameter is refused next, then
      missing parameters are reported in declared order; fields of the wrong
      shape are refused as well. */
  function FromDict(data: Plain): (r: Result<Nduv>)
    ensures r.Success? ==> data == PDict(ToDict(r.value))
    ensures !data.PDict? ==> r == Failure(NotAMapping)
    ensures data.PDict? && "self" in data.entries ==> r == Failure(MultipleValues({"self"}))
    ensures data.PDict? && "self" !in data.entries && data.entries.Keys - {"date", "name", "unit", "value"} != {}
            ==> r == Failure(UnexpectedArguments(data.entries.Keys - {"date", "name", "unit", "value"}))
  {
    if !data.PDict? then Failure(NotAMapping)
    else
      var d := data.entries;
      var unexpected := d.Keys - {"date", "name", "unit", "value"};
      if "self" in d then Failure(MultipleValues({"self"}))
      else if unexpected != {} then Failure(UnexpectedArguments(unexpected))
      else if MissingNames(Fields, d.Keys) != [] then Failure(MissingArguments(MissingNames(Fields, d.Keys)))
      else if !d["date"].PDate? then Failure(WrongType("date"))
      else if !d["name"].PStr? then Failure(WrongType("name"))
      else if !d["unit"].PStr? then Failure(WrongType("unit"))
      else if !d["value"].PReal? then Failure(WrongType("value"))
      else
        var n := Nduv(d["date"].d, d["name"].s, d["unit"].s, d["value"].r);
        assert Fields[0] in d && Fields[1] in d && Fields[2] in d && Fields[3] in d;
        assert d.Keys <= ToDict(n).Keys by {
          forall k | k in d.Keys ensures k in ToDict(n).Keys {
            assert k !in unexpected;
          }
        }
        assert d == ToDict(n);
        Success(n)
  }

  /** `Nduv.__eq__`: equality of the dictionary forms. */
  predicate Equal(a: Nduv, b: Nduv) {
    ToDict(a) == ToDict(b)
  }

  /** `from_dict` inverts `to_dict`. */
  lemma RoundTrip(n: Nduv)
    ensures FromDict(PDict(ToDict(n))) == Success(n)
  {
    assert MissingNames(Fields, ToDict(n).Keys) == [];
  }

  /** Missing fields are never defaulted: each one makes `from_dict` fail,
      and a dictionary with only missing (no unexpected) keys reports all of
      them in declared order. */
  lemma MissingFieldFails(data: Plain, k: string)
    requires data.PDict? && k in Fields && k !in data.entries
    ensures FromDict(data).Failure?
    ensures data.entries.Keys <= {"date", "name", "unit", "value"}
            ==> FromDict(data).error == MissingArguments(MissingNames(Fields, data.entries.Keys))
  {
    var d := data.entries;
    if "self" !in d && d.Keys - {"date", "name", "unit", "value"} == {} {
      assert k in MissingNames(Fields, d.Keys);
    }
  }

  /** `__eq__` is structural equality. */
  lemma EqualIsStructural(a: Nduv, b: Nduv)
    ensures Equal(a, b) <==> a == b
  {
    if Equal(a, b) {
      RoundTrip(a);
      RoundTrip(b);
    }
  }

  /** `[x.to_dict() for x in ps]`. */
  function ListToPlain(ps: seq<Nduv>): (r: seq<Plain>)
    ensures |r| == |ps| && forall i :: 0 <= i < |ps| ==> r[i] == PDict(ToDict(ps[i]))
  {
    if ps == [] then [] else [PDict(ToDict(ps[0]))] + ListToPlain(ps[1..])
  }

  /** `[Nduv.from_dict(x) for x in v]` (equally `list(map(Nduv.from_dict, v))`):
      the first element that fails stops the whole list. */
  function ListFromPlain(field: string, v: Plain): (r: Result<seq<Nduv>>)
    ensures !v.PList? ==> r == Failure(WrongType(field))
    ensures r.Success? <==> v.PList? && forall i :: 0 <= i < |v.items| ==> FromDict(v.items[i]).Success?
    ensures r.Success? ==> |r.value| == |v.items|
                           && forall i :: 0 <= i < |v.items| ==> FromDict(v.items[i]) == Success(r.value[i])
  {
    if !v.PList? then Failure(WrongType(field))
    else ListFromItems(v.items)
  }

  function ListFromItems(items: seq<Plain>): Result<seq<Nduv>> {
    Collect(items, FromDict)
  }

  lemma {:induction false} ListRoundTrip(field: string, ps: seq<Nduv>)
    ensures ListFromPlain(field, PList(ListToPlain(ps))) == Success(ps)
  {
    var items := ListToPlain(ps);
    forall i | 0 <= i < |ps|
      ensures FromDict(items[i]) == Success(ps[i])
    {
      RoundTrip(ps[i]);
    }
    assert ListFromItems(items).value == ps;
  }

  lemma ListFromPlainExact(field: string, v: Plain)
    requires ListFromPlain(field, v).Success?
    ensures v == PList(ListToPlain(ListFromPlain(field, v).value))
  {
    var ps := ListFromPlain(field, v).value;
    forall i | 0 <= i < |ps|
      ensures v.items[i] == ListToPlain(ps)[i]
    {
    }
  }
}
