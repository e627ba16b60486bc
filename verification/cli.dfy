/** The decision rules of `main()` in urcontrol.py: the unit dispatch, the
    listings, the set-value token, the 1-based `--input` and the exit status.
    Port discovery and printing are not modelled; `get` and `set` act on the
    in-memory store of the `Mock` module. */
module Cli {
  import opened Wrappers
  import opened Params
  import Mock
  import Numerals

  /** The thirteen parameter tables a unit name can select. */
  datatype UnitId =
    | Mixer | ChStrip | Clean | Crunch | Lead | Drive | PitchFix
    | Hall | Room | Plate | Delay | Ducker | MBComp

  /** The tests of the `--unit` if/elif chain, in the order the chain makes them. */
  const Dispatch: seq<(string, UnitId)> := [
    ("mixer", Mixer), ("chstrip", ChStrip), ("clean", Clean), ("crunch", Crunch),
    ("lead", Lead), ("drive", Drive), ("pitchfix", PitchFix), ("hall", Hall),
    ("room", Room), ("plate", Plate), ("delay", Delay), ("ducker", Ducker),
    ("mbcomp", MBComp)]

  /** An if/elif chain over `table`: the first test that matches decides. */
  function ResolveIn(table: seq<(string, UnitId)>, name: string): (r: Result<UnitId, Error>)
    ensures r.Failure? ==> r.error == UnknownUnit
    ensures r.Failure? <==> forall i :: 0 <= i < |table| ==> table[i].0 != name
    ensures r.Success? ==>
              exists i :: 0 <= i < |table| && table[i] == (name, r.value)
                && forall j :: 0 <= j < i ==> table[j].0 != name
  {
    if |table| == 0 then Failure(UnknownUnit)
    else if table[0].0 == name then Success(table[0].1)
    else
      var r := ResolveIn(table[1..], name);
      assert forall i :: 1 <= i < |table| ==> table[i] == table[1..][i - 1];
      r
  }

  /** Selecting the table for `--unit`; any other name raises 'Unit does not exists'. */
  function ResolveUnit(name: string): (r: Result<UnitId, Error>)
    ensures r.Failure? ==> r.error == UnknownUnit
  {
    ResolveIn(Dispatch, name)
  }

  /** The lines `--list-units` prints. */
  function UnitListing(): (names: seq<string>)
    ensures |names| == 13
  {
    ["mixer", "chstrip", "clean", "crunch", "lead", "drive", "pitchfix",
     "hall", "room", "plate", "delay", "ducker", "mbcomp"]
  }

  /** The tables the chain can select, in its order. */
  function DispatchUnits(): (ids: seq<UnitId>)
    ensures |ids| == |Dispatch|
    ensures forall i :: 0 <= i < |ids| ==> ids[i] == Dispatch[i].1
  {
    seq(|Dispatch|, i requires 0 <= i < |Dispatch| => Dispatch[i].1)
  }

  /** `--list-units` prints exactly the names the dispatch tests, in the same order. */
  lemma ListingMatchesDispatch()
    ensures |UnitListing()| == |Dispatch|
    ensures forall i :: 0 <= i < |Dispatch| ==> UnitListing()[i] == Dispatch[i].0
  {
  }

  /** No unit name is listed twice. */
  lemma ListingDistinct()
    ensures Distinct(UnitListing())
  {
  }

  /** The position of a table's branch in the chain. */
  function Position(id: UnitId): nat {
    match id
    case Mixer => 0 case ChStrip => 1 case Clean => 2 case Crunch => 3
    case Lead => 4 case Drive => 5 case PitchFix => 6 case Hall => 7
    case Room => 8 case Plate => 9 case Delay => 10 case Ducker => 11
    case MBComp => 12
  }

  /** No two branches of the chain name the same table identifier. */
  lemma DispatchTablesDistinct()
    ensures Distinct(DispatchUnits())
  {
    var ids := DispatchUnits();
    assert forall i :: 0 <= i < |ids| ==> Position(ids[i]) == i;
  }

  /** Every table identifier is named by some branch of the chain. */
  lemma DispatchCoversTables()
    ensures forall id: UnitId :: id in DispatchUnits()
  {
    var ids := DispatchUnits();
    assert ids == [Mixer, ChStrip, Clean, Crunch, Lead, Drive, PitchFix,
                   Hall, Room, Plate, Delay, Ducker, MBComp];
    forall id: UnitId
      ensures id in ids
    {
      match id
      case Mixer => assert ids[0] == id;
      case ChStrip => assert ids[1] == id;
      case Clean => assert ids[2] == id;
      case Crunch => assert ids[3] == id;
      case Lead => assert ids[4] == id;
      case Drive => assert ids[5] == id;
      case PitchFix => assert ids[6] == id;
      case Hall => assert ids[7] == id;
      case Room => assert ids[8] == id;
      case Plate => assert ids[9] == id;
      case Delay => assert ids[10] == id;
      case Ducker => assert ids[11] == id;
      case MBComp => assert ids[12] == id;
    }
  }

  /** In an if/elif chain, a name selects the table of the first test it matches. */
  lemma ResolveInAt(table: seq<(string, UnitId)>, i: nat, name: string)
    requires i < |table| && table[i].0 == name
    requires forall j :: 0 <= j < i ==> table[j].0 != name
    ensures ResolveIn(table, name) == Success(table[i].1)
  {
  }

  /** The i-th name `--list-units` prints selects the i-th table of the chain. */
  lemma ResolveListed(i: nat)
    requires i < |UnitListing()|
    ensures ResolveUnit(UnitListing()[i]) == Success(Dispatch[i].1)
  {
    ListingMatchesDispatch();
    ListingDistinct();
    var name := UnitListing()[i];
    assert forall j :: 0 <= j < i ==> Dispatch[j].0 == UnitListing()[j] != name;
    ResolveInAt(Dispatch, i, name);
  }

  /** A name `--list-units` does not print raises 'Unit does not exists'. */
  lemma ResolveUnlisted(name: string)
    requires name !in UnitListing()
    ensures ResolveUnit(name) == Failure(UnknownUnit)
  {
    ListingMatchesDispatch();
    assert forall i :: 0 <= i < |Dispatch| ==> Dispatch[i].0 == UnitListing()[i];
  }

  /** Python's `str.startswith('__')`. */
  predicate IsDunder(name: string) {
    |name| >= 2 && name[0] == '_' && name[1] == '_'
  }

  /** The names `--list-parameters` keeps: those not starting with `__`, in order. */
  function VisibleNames(names: seq<string>): (r: seq<string>)
    ensures forall n :: n in r <==> n in names && !IsDunder(n)
    ensures |r| <= |names|
  {
    if |names| == 0 then []
    else
      var rest := VisibleNames(names[1..]);
      assert forall n :: n in names <==> n == names[0] || n in names[1..];
      if IsDunder(names[0]) then rest else [names[0]] + rest
  }

  /** The `--list-parameters` listing of a unit. */
  function ParameterNames(u: Unit): (r: seq<string>)
    ensures forall n :: n in r <==> n in Names(u) && !IsDunder(n)
  {
    VisibleNames(Names(u))
  }

  /** The filter keeps definition order: it distributes over concatenation. */
  lemma {:induction false} VisibleNamesAppend(a: seq<string>, b: seq<string>)
    ensures VisibleNames(a + b) == VisibleNames(a) + VisibleNames(b)
    decreases |a|
  {
    if |a| > 0 {
      var head := if IsDunder(a[0]) then [] else [a[0]];
      assert (a + b)[0] == a[0];
      assert (a + b)[1..] == a[1..] + b;
      assert VisibleNames(a + b) == head + VisibleNames(a[1..] + b);
      assert VisibleNames(a) == head + VisibleNames(a[1..]);
      VisibleNamesAppend(a[1..], b);
      assert head + (VisibleNames(a[1..]) + VisibleNames(b))
          == (head + VisibleNames(a[1..])) + VisibleNames(b);
    } else {
      assert a + b == b;
    }
  }

  /** The listing repeats no name when the unit binds each name once. */
  lemma {:induction false} VisibleNamesDistinct(names: seq<string>)
    requires Distinct(names)
    ensures Distinct(VisibleNames(names))
    decreases |names|
  {
    if |names| > 0 {
      assert Distinct(names[1..]) by {
        forall i, j | 0 <= i < j < |names[1..]|
          ensures names[1..][i] != names[1..][j]
        {
          assert names[1..][i] == names[i + 1] && names[1..][j] == names[j + 1];
        }
      }
      VisibleNamesDistinct(names[1..]);
      assert names[0] !in names[1..] by {
        forall k | 0 <= k < |names[1..]|
          ensures names[1..][k] != names[0]
        {
          assert names[1..][k] == names[k + 1];
        }
      }
    }
  }

  /** `--list-parameters` lists each parameter of a well-formed unit once. */
  lemma ParameterNamesDistinct(u: Unit)
    requires UniqueNames(u)
    ensures Distinct(ParameterNames(u))
  {
    VisibleNamesDistinct(Names(u));
  }

  /** The `VALUE` argument of `--set-parameter`: `min`, `max` and `def` pick
      fields 1, 2 and 3 of the descriptor; anything else goes through `int()`.
      `None` is an absent default. */
  function ResolveToken(u: Unit, name: string, token: string): (r: Result<Option<int>, Error>)
    ensures token == "min" || token == "max" || token == "def" ==>
              (r.Success? <==> Lookup(u, name).Success?)
              && (r.Failure? ==> r.error == Lookup(u, name).error)
    ensures r.Success? && token == "min" ==> r.value == Some(Lookup(u, name).value.minVal)
    ensures r.Success? && token == "max" ==> r.value == Some(Lookup(u, name).value.maxVal)
    ensures r.Success? && token == "def" ==> r.value == Lookup(u, name).value.defVal
    ensures token != "min" && token != "max" && token != "def" ==>
              (r.Success? <==> Numerals.IsNumeral(token))
              && (r.Failure? ==> r.error == NotAnInteger(token))
              && (r.Success? ==> r.value == Numerals.ParseInt(token))
  {
    if token == "min" then
      var d :- Lookup(u, name); Success(Some(d.minVal))
    else if token == "max" then
      var d :- Lookup(u, name); Success(Some(d.maxVal))
    else if token == "def" then
      var d :- Lookup(u, name); Success(d.defVal)
    else
      match Numerals.ParseInt(token)
      case None => Failure(NotAnInteger(token))
      case Some(n) => Success(Some(n))
  }

  /** An integer token reaches the store unchanged: no clamping. */
  lemma IntegerTokenUnchanged(u: Unit, name: string, n: int)
    ensures ResolveToken(u, name, Numerals.IntToString(n)) == Success(Some(n))
  {
    Numerals.ParseIntRoundTrip(n);
    Numerals.KeywordsAreNotNumerals();
  }

  /** `min` and `max` always resolve to values the store accepts when the
      descriptor's range is not empty. */
  lemma MinMaxTokensInRange(u: Unit, name: string, token: string)
    requires token == "min" || token == "max"
    requires Lookup(u, name).Success?
    requires Lookup(u, name).value.minVal <= Lookup(u, name).value.maxVal
    ensures ResolveToken(u, name, token).Success?
    ensures ResolveToken(u, name, token).value.Some?
    ensures InRange(Lookup(u, name).value, ResolveToken(u, name, token).value.value)
  {
  }

  /** `--input` when it is not given. */
  const DefaultInput: int := 1

  /** The store's channel for a 1-based `--input`. */
  function ChannelOf(input: int): int {
    input - 1
  }

  /** The default `--input 1` is channel 0, and the store accepts exactly the
      inputs 1 to 6. */
  lemma ChannelAccepted(input: int)
    ensures ChannelOf(DefaultInput) == 0
    ensures Mock.ValidInput(ChannelOf(input)) <==> 1 <= input <= 6
  {
  }

  datatype Command =
    | GetMidiPorts
    | ListUnits
    | ListParameters
    | GetParameter(param: string)
    | SetParameter(param: string, token: string)
    | Reset
    | Test

  /** The parsed command line: `--input`, `--unit` and the one command given. */
  datatype Args = Args(input: int, unit: string, command: Command)

  datatype Output =
    | Lines(lines: seq<string>)  // printed one per line
    | Value(value: Option<int>)  // `print(value)`
    | Silent

  datatype Outcome =
    | Raised(error: Error)                               // an uncaught exception: exit status 1
    | Exited(output: Output, status: int, store: Mock.Store)
    | PortIo                                             // continues into MIDI port I/O

  /** What follows `SetParameterByName`: `False` prints FAILED and exits with 1. */
  function SetReport(ok: bool, s: Mock.Store): (o: Outcome)
    ensures o.Exited? && o.store == s
    ensures o.status == 0 <==> ok
    ensures !ok ==> o.status == 1 && o.output == Lines(["FAILED"])
    ensures ok ==> o.output == Silent
  {
    if ok then Exited(Silent, 0, s) else Exited(Lines(["FAILED"]), 1, s)
  }

  /** The `--get-parameter` branch, once the unit is selected and the MIDI ports are open. */
  function RunGet(unit: Unit, name: string, input: int, s: Mock.Store): (o: Outcome)
    ensures o.Raised? || (o.Exited? && o.status == 0)
    ensures name != "" ==>
              (o.Exited? <==> Lookup(unit, name).Success? && 1 <= input <= 6)
    ensures o.Exited? && name != "" ==> o.output.Value?
  {
    // an empty parameter name is falsy: no branch of the chain runs
    if name == "" then Exited(Silent, 0, s)
    else
      match Mock.Get(s, unit, name, ChannelOf(input))
      case Failure(e) => Raised(e)
      case Success(rd) => Exited(Value(rd.value), 0, rd.store)
  }

  /** The `--set-parameter` branch, once the unit is selected and the MIDI ports are open. */
  function RunSet(unit: Unit, name: string, token: string, input: int, s: Mock.Store): (o: Outcome)
    // with the in-memory store every set that gets past its checks reports success
    ensures o.Raised? || (o.Exited? && o.status == 0 && o.output == Silent)
  {
    match ResolveToken(unit, name, token)
    case Failure(e) => Raised(e)
    case Success(v) =>
      match Mock.Set(s, unit, name, v, ChannelOf(input))
      case Failure(e) => Raised(e)
      case Success(w) => SetReport(w.ok, w.store)
  }

  /** The command branches of `main()`, once the unit's table is selected. */
  function RunCommand(unit: Unit, command: Command, input: int, s: Mock.Store): (o: Outcome)
    // once the MIDI ports are open, only a failed set calls `sys.exit` with a
    // non-zero status; other failures are `Raised`
    ensures o.Exited? && o.status != 0 ==> command.SetParameter? && o.output == Lines(["FAILED"])
    // listing commands leave the store alone
    ensures o.Exited? && (command.ListUnits? || command.ListParameters?) ==> o.store == s
  {
    match command
    case GetMidiPorts => PortIo
    case ListUnits => Exited(Lines(UnitListing()), 0, s)
    case ListParameters => Exited(Lines(ParameterNames(unit)), 0, s)
    case GetParameter(name) => RunGet(unit, name, input, s)
    case SetParameter(name, token) => RunSet(unit, name, token, input, s)
    case Reset => PortIo
    case Test => PortIo
  }

  /** `main()` after argument parsing, with the unit tables and the store given. */
  function Run(args: Args, tables: UnitId -> Unit, s: Mock.Store): (o: Outcome)
    // the unit name is resolved before any command runs
    ensures ResolveUnit(args.unit).Failure? ==> o == Raised(UnknownUnit)
  {
    match ResolveUnit(args.unit)
    case Failure(e) => Raised(e)
    case Success(id) => RunCommand(tables(id), args.command, args.input, s)
  }

  /** Every command runs against the table its listed unit name selects, and
      every command raises on an unlisted name. */
  lemma RunSelectsListedUnit(args: Args, tables: UnitId -> Unit, s: Mock.Store)
    ensures forall i :: 0 <= i < |UnitListing()| && args.unit == UnitListing()[i] ==>
              Run(args, tables, s) == RunCommand(tables(Dispatch[i].1), args.command, args.input, s)
    ensures args.unit !in UnitListing() ==> Run(args, tables, s) == Raised(UnknownUnit)
  {
    forall i | 0 <= i < |UnitListing()| && args.unit == UnitListing()[i]
      ensures Run(args, tables, s) == RunCommand(tables(Dispatch[i].1), args.command, args.input, s)
    {
      ResolveListed(i);
    }
    if args.unit !in UnitListing() {
      ResolveUnlisted(args.unit);
    }
  }

  /** `--get-parameter` on a selected table prints a value exactly when the
      parameter exists in it and `--input` is between 1 and 6. */
  lemma RunGetAccepts(u: Unit, name: string, input: int, s: Mock.Store)
    requires name != ""
    ensures var o := RunCommand(u, GetParameter(name), input, s);
            o.Exited? && o.output.Value? <==> Lookup(u, name).Success? && 1 <= input <= 6
  {
    assert RunCommand(u, GetParameter(name), input, s) == RunGet(u, name, input, s);
  }

  /** The set branch with an integer token: it stores the integer exactly
      when the store's checks pass, and raises the store's error otherwise. */
  lemma RunSetInteger(u: Unit, name: string, n: int, input: int, s: Mock.Store)
    ensures var written := Mock.Set(s, u, name, Some(n), ChannelOf(input));
            RunSet(u, name, Numerals.IntToString(n), input, s)
              == if written.Success? then Exited(Silent, 0, written.value.store)
                 else Raised(written.error)
  {
    IntegerTokenUnchanged(u, name, n);
  }

  /** `--set-parameter NAME N` followed by `--get-parameter NAME`, on any two
      accepted inputs, prints N: the set exits with status 0 and the store keeps N. */
  lemma RunSetThenGet(u: Unit, name: string, n: int, i1: int, i2: int, s: Mock.Store)
    requires name != ""
    requires Lookup(u, name).Success? && InRange(Lookup(u, name).value, n)
    requires 1 <= i1 <= 6 && 1 <= i2 <= 6
    ensures var o := RunCommand(u, SetParameter(name, Numerals.IntToString(n)), i1, s);
            && o.Exited? && o.status == 0
            && RunCommand(u, GetParameter(name), i2, o.store) == Exited(Value(Some(n)), 0, o.store)
  {
    assert Mock.ValidInput(ChannelOf(i1)) && Mock.ValidInput(ChannelOf(i2));
    var written := Mock.Set(s, u, name, Some(n), ChannelOf(i1));
    assert written.Success?;
    var w := written.value.store;
    RunSetInteger(u, name, n, i1, s);
    assert RunCommand(u, SetParameter(name, Numerals.IntToString(n)), i1, s) == Exited(Silent, 0, w);
    Mock.SetThenGet(s, u, name, n, ChannelOf(i1), ChannelOf(i2));
    assert Mock.Get(w, u, name, ChannelOf(i2)) == Success(Mock.Read(w, Some(n)));
    assert RunGet(u, name, i2, w) == Exited(Value(Some(n)), 0, w);
    assert RunCommand(u, GetParameter(name), i2, w) == RunGet(u, name, i2, w);
  }

  /** An integer outside the descriptor's range is not clamped: the store's
      assertion fails and nothing is stored. */
  lemma RunSetOutOfRange(u: Unit, name: string, n: int, input: int, s: Mock.Store)
    requires Lookup(u, name).Success? && !InRange(Lookup(u, name).value, n)
    ensures RunCommand(u, SetParameter(name, Numerals.IntToString(n)), input, s) == Raised(OutOfRange(n))
  {
    RunSetInteger(u, name, n, input, s);
  }

  /** `--set-parameter NAME min|max|def` on an accepted input: `min` and `max`
      always store (when the range is not empty); `def` stores a present
      default that lies in range and raises when the default is absent. */
  lemma RunSetKeyword(u: Unit, name: string, token: string, input: int, s: Mock.Store)
    requires token == "min" || token == "max" || token == "def"
    requires Lookup(u, name).Success? && 1 <= input <= 6
    ensures var d := Lookup(u, name).value;
            var o := RunCommand(u, SetParameter(name, token), input, s);
            && (token == "def" && d.defVal.None? ==> o == Raised(NoValue))
            && (token == "def" && d.defVal.Some? && InRange(d, d.defVal.value) ==>
                  o.Exited? && o.status == 0
                  && d.paramNum in o.store.data && o.store.data[d.paramNum] == d.defVal)
            && (token != "def" && d.minVal <= d.maxVal ==>
                  o.Exited? && o.status == 0 && d.paramNum in o.store.data
                  && o.store.data[d.paramNum] == Some(if token == "min" then d.minVal else d.maxVal))
  {
    var d := Lookup(u, name).value;
    assert RunCommand(u, SetParameter(name, token), input, s) == RunSet(u, name, token, input, s);
    if token != "def" && d.minVal <= d.maxVal {
      MinMaxTokensInRange(u, name, token);
    }
  }

  /** Once the MIDI ports are open, with the in-memory store a set that gets past its
      checks always exits 0. */
  lemma RunSetNeverReportsFailure(args: Args, tables: UnitId -> Unit, s: Mock.Store)
    requires args.command.SetParameter?
    ensures Run(args, tables, s).Exited? ==> Run(args, tables, s).status == 0
  {
    if ResolveUnit(args.unit).Success? {
      var u := tables(ResolveUnit(args.unit).value);
      assert Run(args, tables, s) == RunCommand(u, args.command, args.input, s);
    }
  }
}
