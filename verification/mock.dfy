/** The in-memory parameter store `UR44C_mock` (test/ur44c_mock.py): a map from
    parameter number to value, threaded through `Get` and `Set`. The store is
    keyed by `param_num` alone; the input index is only bounds-checked. */
module Mock {
  import opened Wrappers
  import opened Params

  /** `self.data` and `self.num_inputs`. */
  datatype Store = Store(data: map<int, Option<int>>, numInputs: int)

  /** What `SetParameterByName` leaves behind: the new store and its return value. */
  datatype Written = Written(store: Store, ok: bool)

  /** What `GetParameterByName` leaves behind: the new store and the value read. */
  datatype Read = Read(store: Store, value: Option<int>)

  /** The input indices both operations accept; the bound is a literal in the
      mock and does not follow `numInputs`. */
  predicate ValidInput(input: int) {
    0 <= input <= 5
  }

  function Init(): (s: Store)
    ensures |s.data| == 0
    ensures s.numInputs == 6
  {
    Store(map[], 6)
  }

  /** `SetParameterByName(unit, name, value, input)`. */
  function Set(s: Store, u: Unit, name: string, value: Option<int>, input: int): (r: Result<Written, Error>)
    // it succeeds exactly when the name is a descriptor, the value is present and
    // in range, and the input index is valid
    ensures r.Success? <==>
              && Lookup(u, name).Success?
              && value.Some? && InRange(Lookup(u, name).value, value.value)
              && ValidInput(input)
    // the checks fail in the order the code makes them
    ensures Lookup(u, name).Failure? ==> r == Failure(Lookup(u, name).error)
    ensures Lookup(u, name).Success? && value.None? ==> r == Failure(NoValue)
    ensures (Lookup(u, name).Success? && value.Some? && !InRange(Lookup(u, name).value, value.value))
              ==> r == Failure(OutOfRange(value.value))
    ensures (Lookup(u, name).Success? && value.Some? && InRange(Lookup(u, name).value, value.value)
             && !ValidInput(input))
              ==> r == Failure(InvalidInput(input))
    // on success the value sits under the descriptor's number, it reports `True`,
    // and nothing else changes
    ensures r.Success? ==>
              var p := Lookup(u, name).value.paramNum;
              && r.value.ok
              && r.value.store.numInputs == s.numInputs
              && r.value.store.data.Keys == s.data.Keys + {p}
              && r.value.store.data[p] == value
              && forall k :: k in s.data && k != p ==> r.value.store.data[k] == s.data[k]
  {
    var d :- Lookup(u, name);
    if value.None? then Failure(NoValue)
    else if !InRange(d, value.value) then Failure(OutOfRange(value.value))
    else if !ValidInput(input) then Failure(InvalidInput(input))
    else Success(Written(s.(data := s.data[d.paramNum := value]), true))
  }

  /** `GetParameterByName(unit, name, input)`: seeds a never-read number with
      the descriptor's default, then returns the stored value. */
  function Get(s: Store, u: Unit, name: string, input: int): (r: Result<Read, Error>)
    // no range check: only the name and the input index can make it fail
    ensures r.Success? <==> Lookup(u, name).Success? && ValidInput(input)
    ensures Lookup(u, name).Failure? ==> r == Failure(Lookup(u, name).error)
    ensures Lookup(u, name).Success? && !ValidInput(input) ==> r == Failure(InvalidInput(input))
    // the value read is the one the new store holds for the number
    ensures r.Success? ==>
              var p := Lookup(u, name).value.paramNum;
              && p in r.value.store.data
              && r.value.value == r.value.store.data[p]
              && r.value.store.numInputs == s.numInputs
    // a known number is read without touching the store
    ensures r.Success? && Lookup(u, name).value.paramNum in s.data ==>
              r.value.store == s && r.value.value == s.data[Lookup(u, name).value.paramNum]
    // an unknown number is seeded with the default and nothing else is added
    ensures r.Success? && Lookup(u, name).value.paramNum !in s.data ==>
              var p := Lookup(u, name).value.paramNum;
              && r.value.value == Lookup(u, name).value.defVal
              && r.value.store.data.Keys == s.data.Keys + {p}
              && forall k :: k in s.data ==> r.value.store.data[k] == s.data[k]
  {
    var d :- Lookup(u, name);
    if !ValidInput(input) then Failure(InvalidInput(input))
    else
      var s' := if d.paramNum in s.data then s else s.(data := s.data[d.paramNum := d.defVal]);
      Success(Read(s', s'.data[d.paramNum]))
  }

  /** A value just set is what the next read returns, on every valid input,
      and reading it changes nothing. */
  lemma SetThenGet(s: Store, u: Unit, name: string, v: int, input: int, other: int)
    requires Set(s, u, name, Some(v), input).Success?
    requires ValidInput(other)
    ensures var w := Set(s, u, name, Some(v), input).value.store;
            Get(w, u, name, other) == Success(Read(w, Some(v)))
  {
  }

  /** A second read returns the first read's value and leaves the store as the
      first read left it. */
  lemma GetIdempotent(s: Store, u: Unit, name: string, input: int, other: int)
    requires Get(s, u, name, input).Success?
    requires ValidInput(other)
    ensures var first := Get(s, u, name, input).value;
            Get(first.store, u, name, other) == Success(first)
  {
  }

  /** On a fresh store, the first read of any parameter is its default, which
      may be absent. */
  lemma FreshGetReturnsDefault(u: Unit, name: string, input: int)
    requires Lookup(u, name).Success? && ValidInput(input)
    ensures Get(Init(), u, name, input).Success?
    ensures Get(Init(), u, name, input).value.value == Lookup(u, name).value.defVal
    ensures Get(Init(), u, name, input).value.store.data
              == map[Lookup(u, name).value.paramNum := Lookup(u, name).value.defVal]
  {
  }

  /** Two names sharing a parameter number alias each other: a write through
      one is what a read through the other returns. */
  lemma SharedNumberAliases(s: Store, u: Unit, a: string, b: string, v: int, input: int, other: int)
    requires Set(s, u, a, Some(v), input).Success?
    requires Lookup(u, b).Success? && ValidInput(other)
    requires Lookup(u, b).value.paramNum == Lookup(u, a).value.paramNum
    ensures var w := Set(s, u, a, Some(v), input).value.store;
            Get(w, u, b, other) == Success(Read(w, Some(v)))
  {
  }

  /** A write does not disturb what reads of parameters with another number return. */
  lemma SetPreservesOtherReads(s: Store, u: Unit, a: string, b: string, v: int, input: int, other: int)
    requires Set(s, u, a, Some(v), input).Success?
    requires Get(s, u, b, other).Success?
    requires Lookup(u, b).value.paramNum != Lookup(u, a).value.paramNum
    ensures Get(Set(s, u, a, Some(v), input).value.store, u, b, other).value.value
              == Get(s, u, b, other).value.value
  {
  }

  /** `Get` performs no range check: through an alias with a wider range a
      read can return a value outside the descriptor's own range. */
  lemma GetReturnsOutOfRange()
    ensures var u := Unit([
              Attribute("Narrow", Param(Descriptor(7, 0, 10, Some(5), "", None))),
              Attribute("Wide", Param(Descriptor(7, 0, 127, Some(5), "", None)))]);
            var w := Set(Init(), u, "Wide", Some(100), 0);
            && w.Success?
            && Get(w.value.store, u, "Narrow", 0).Success?
            && Get(w.value.store, u, "Narrow", 0).value.value == Some(100)
            && !InRange(Lookup(u, "Narrow").value, 100)
  {
    var u := Unit([
      Attribute("Narrow", Param(Descriptor(7, 0, 10, Some(5), "", None))),
      Attribute("Wide", Param(Descriptor(7, 0, 127, Some(5), "", None)))]);
    assert Lookup(u, "Wide") == Success(Descriptor(7, 0, 127, Some(5), "", None));
    assert Lookup(u, "Narrow") == Success(Descriptor(7, 0, 10, Some(5), "", None));
  }
}
