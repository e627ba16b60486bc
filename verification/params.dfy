/** The parameter tables of the device: one unit is a class whose attributes
    are parameter descriptors, next to the dunder attributes every Python class
    carries. The tables themselves live in the device module, which is not part
    of this model; everything here is stated for an arbitrary table. */
module Params {
  import opened Wrappers

  /** The exceptions the modelled code can raise. */
  datatype Error =
    | UnknownUnit                 // `Exception('Unit does not exists')`
    | UnknownAttribute(name: string)  // `AttributeError` from `getattr(unit, name)`
    | NotAParameter(name: string) // the attribute is not a 6-tuple descriptor
    | OutOfRange(value: int)      // `assert min_val <= value <= max_val`
    | NoValue                     // comparing `None` against the range: `TypeError`
    | InvalidInput(input: int)    // `assert 0 <= input <= 5`
    | NotAnInteger(token: string) // `ValueError` from `int(token)`

  /** The 6-tuple `(param_num, min, max, default, description, notes)`;
      `default` and `notes` may be `None`. */
  datatype Descriptor = Descriptor(
    paramNum: int,
    minVal: int,
    maxVal: int,
    defVal: Option<int>,
    description: string,
    notes: Option<string>)

  /** The value bound to one class attribute. */
  datatype AttrValue = Param(desc: Descriptor) | Other

  datatype Attribute = Attribute(name: string, value: AttrValue)

  /** A unit: its class attributes in definition order, as `vars(unit)` yields them. */
  datatype Unit = Unit(attrs: seq<Attribute>)

  /** The value range the store's `Set` asserts. */
  predicate InRange(d: Descriptor, v: int) {
    d.minVal <= v <= d.maxVal
  }

  /** The attribute names of a unit, in definition order. */
  function Names(u: Unit): (ns: seq<string>)
    ensures |ns| == |u.attrs|
    ensures forall i :: 0 <= i < |ns| ==> ns[i] == u.attrs[i].name
  {
    seq(|u.attrs|, i requires 0 <= i < |u.attrs| => u.attrs[i].name)
  }

  predicate Distinct<T(==)>(s: seq<T>) {
    forall i, j :: 0 <= i < j < |s| ==> s[i] != s[j]
  }

  /** A class namespace binds every name at most once. */
  predicate UniqueNames(u: Unit) {
    Distinct(Names(u))
  }

  /** `getattr(unit, name)` unpacked as a descriptor: the first attribute of
      that name decides; a missing name and a non-descriptor value both raise. */
  function LookupIn(attrs: seq<Attribute>, name: string): (r: Result<Descriptor, Error>)
    ensures r.Failure? ==> r.error == UnknownAttribute(name) || r.error == NotAParameter(name)
    ensures (r.Failure? && r.error == UnknownAttribute(name))
              <==> (forall i :: 0 <= i < |attrs| ==> attrs[i].name != name)
    ensures r.Failure? && r.error == NotAParameter(name) ==>
              exists i :: 0 <= i < |attrs| && attrs[i] == Attribute(name, Other)
                && forall j :: 0 <= j < i ==> attrs[j].name != name
    ensures r.Success? ==>
              exists i :: 0 <= i < |attrs| && attrs[i] == Attribute(name, Param(r.value))
                && forall j :: 0 <= j < i ==> attrs[j].name != name
  {
    if |attrs| == 0 then Failure(UnknownAttribute(name))
    else if attrs[0].name == name then
      match attrs[0].value
      case Param(d) => Success(d)
      case Other => Failure(NotAParameter(name))
    else
      var r := LookupIn(attrs[1..], name);
      assert forall i :: 1 <= i < |attrs| ==> attrs[i] == attrs[1..][i - 1];
      r
  }

  function Lookup(u: Unit, name: string): (r: Result<Descriptor, Error>)
    ensures (r.Failure? && r.error == UnknownAttribute(name)) <==> name !in Names(u)
    ensures r.Success? ==> Attribute(name, Param(r.value)) in u.attrs
  {
    LookupIn(u.attrs, name)
  }

  /** In a well-formed unit, lookup finds exactly the declared descriptor. */
  lemma LookupDeclared(u: Unit, i: nat)
    requires UniqueNames(u)
    requires i < |u.attrs| && u.attrs[i].value.Param?
    ensures Lookup(u, u.attrs[i].name) == Success(u.attrs[i].value.desc)
  {
    var name := u.attrs[i].name;
    assert name == Names(u)[i];
    NamedIndexUnique(u, i, name);
  }

  /** Helper: under unique names, no other index carries `u.attrs[i].name`. */
  lemma NamedIndexUnique(u: Unit, i: nat, name: string)
    requires UniqueNames(u)
    requires i < |u.attrs| && u.attrs[i].name == name
    ensures forall j :: 0 <= j < |u.attrs| && u.attrs[j].name == name ==> j == i
  {
  }
}
