# urcontrol parameter core, modelled in Dafny

urcontrol drives a Steinberg UR-series USB audio interface over MIDI. Every
control is a named parameter of a *unit* (mixer, channel strip, guitar-amp
models, reverbs, delay, ducker, multiband compressor); a parameter descriptor is
the 6-tuple `(param_num, min, max, default, description, notes)`, where
`default` and `notes` may be `None`. This project models three sequential pieces
of that system:

* **the parameter store** of `UR44C_mock` (module `Mock`): a map from parameter
  number to value. `Set` checks the range and the input index and stores the
  value. `Get` checks the input index and seeds a never-read number with the
  descriptor's default. The store is keyed by `param_num` alone: the input
  index is only bounds-checked, so a write on one input is seen on every input,
  and two names that share a number alias each other;
* **the decision rules of the command-line tool** (module `Cli`): the `--unit`
  dispatch to one of thirteen tables, the `--list-units` listing, the
  `--list-parameters` filter that drops dunder names, the `min`/`max`/`def`/integer
  value token, the 1-based `--input`, and the FAILED exit rule. `Run` composes
  them into the behaviour of `main()` over the store. An empty
  `--get-parameter` name is falsy in Python, so no command branch runs and the
  tool exits 0 silently; the model keeps that;
* **`slider2dB`** (module `Slider`): the fader position to level map. Its level
  is an integer number of quarter-decibels, or `None` for the "-∞" label.

Supporting modules: `Wrappers` (`Option` for Python `None`, `Result` for a raised
exception), `Params` (descriptors, units as ordered attribute lists,
`getattr` lookup, the exception kinds) and `Numerals` (what `int()` accepts,
with a round trip against Python's spelling of integers).

The unit tables (`UR44C_Params_Mixer` and the rest) and the production `UR44C`
class are not part of this model. Every statement is made for an arbitrary unit
table. `Run` receives the thirteen tables as a function from `Cli.UnitId`. The
command-line tool's get and set are given the store's semantics.

Behaviours of the store worth knowing, all kept by the model:

* reads do no range check: an alias with a wider range, or an absent default,
  comes straight back (`Mock.GetReturnsOutOfRange`);
* the store keys by parameter number only, not by unit or input;
* the store never returns `False`: a failed check raises an exception (an
  `AssertionError` for the range and input asserts, `AttributeError`,
  `TypeError` or `ValueError` for a failed lookup or an absent value),
  so with the store the FAILED branch of the tool is never taken
  (`Cli.RunSetNeverReportsFailure`);
* the input bound is the literal range 0 to 5, not `num_inputs`;
* nothing checks `min <= default <= max`, and the model does not assume it.

An uncaught exception (`Cli.Outcome.Raised`) ends the Python process with exit
status 1; `Cli.Outcome.Exited` is an explicit or implicit exit with the status
it carries.

## Model

| member | source | states |
|---|---|---|
| Params.LookupIn | test/ur44c_mock.py:11 | `getattr` plus unpacking: a missing name raises `AttributeError` exactly when no attribute has that name; otherwise the first attribute of that name decides, giving its descriptor or failing when it is not one |
| Params.Lookup | test/ur44c_mock.py:11 | a unit's descriptor lookup fails as unknown exactly when the name is not among the unit's attributes, and a found descriptor is bound to that name in the unit |
| Params.LookupDeclared | test/ur44c_mock.py:11 | in a unit that binds each name once, looking up a declared parameter returns exactly its declared descriptor |
| Mock.Set | test/ur44c_mock.py:10-15 | succeeds iff the name is a descriptor, the value is present and in `[min, max]`, and `0 <= input <= 5`; failures come in the code's order (lookup, missing value, range, input) with no clamping; on success it returns `True`, stores the value under `param_num`, adds no other key and keeps every other entry |
| Mock.Init | test/ur44c_mock.py:5-7 | a new store holds no entry and has six inputs |
| Mock.Get | test/ur44c_mock.py:18-23 | succeeds iff the name is a descriptor and `0 <= input <= 5` (no range check); a known number is returned with the store untouched; an unknown number is seeded with the default, which is returned, and nothing else changes |
| Mock.FreshGetReturnsDefault | test/ur44c_mock.py:5-23 | a fresh store holds nothing, so the first read of any parameter returns its default, possibly absent, and leaves exactly that one entry |
| Mock.SetThenGet | test/ur44c_mock.py:14-23 | after a successful set, a read of the same name on any valid input returns the value just set and changes nothing |
| Mock.GetIdempotent | test/ur44c_mock.py:21-23 | a second read, on any valid input, returns the first read's value and leaves the store as the first read left it |
| Mock.SharedNumberAliases | test/ur44c_mock.py:14-23 | two names with the same parameter number alias each other: a write through one is what a read through the other returns |
| Mock.SetPreservesOtherReads | test/ur44c_mock.py:14-23 | a write does not change what a read of a parameter with a different number returns |
| Mock.GetReturnsOutOfRange | test/ur44c_mock.py:18-23 | a read can return a value outside its descriptor's range: through an alias with a wider range, 100 comes back for a `[0, 10]` parameter |
| Numerals.ParseInt | urcontrol.py:163 | `int(token)` succeeds exactly on an optional sign followed by at least one decimal digit, and the sign decides the sign of the result |
| Numerals.ParseIntRoundTrip | urcontrol.py:163 | every integer, spelled as Python prints it, parses back to itself |
| Numerals.LeadingZeroValue | urcontrol.py:163 | a leading zero does not change the value of a digit string, as `int()` ignores leading zeros of a decimal literal |
| Numerals.PlusSignValue | urcontrol.py:163 | `int("+" + t)` equals `int(t)` for a digit string `t`, and both are the string's decimal value |
| Numerals.MinusSignValue | urcontrol.py:163 | `int("-" + t)` is the negation of `int(t)` for a digit string `t` (so `-0` parses as 0) |
| Numerals.LeadingZeroParse | urcontrol.py:163 | `int("0" + t)` equals `int(t)` for a digit string `t` (so `007` parses as 7) |
| Numerals.KeywordsAreNotNumerals | urcontrol.py:156-163 | the tokens `min`, `max` and `def` are not integers, so they never reach `int()` ambiguously |
| Cli.ResolveIn | urcontrol.py:74-101 | an if/elif chain of name tests: it fails with 'Unit does not exists' exactly when no test matches, and otherwise selects the table of the first matching test |
| Cli.ResolveUnit | urcontrol.py:74-101 | any `--unit` name outside the chain raises 'Unit does not exists' |
| Cli.UnitListing | urcontrol.py:111-123 | `--list-units` prints thirteen names |
| Cli.ListingMatchesDispatch | urcontrol.py:74-123 | the i-th name `--list-units` prints is the name the i-th branch of the dispatch tests |
| Cli.ListingDistinct | urcontrol.py:111-123 | no unit name is printed twice |
| Cli.DispatchTablesDistinct | urcontrol.py:74-99 | the thirteen branches name thirteen different table identifiers (a fact about the identifiers, not about the tables' contents) |
| Cli.DispatchCoversTables | urcontrol.py:74-99 | every table identifier is named by some branch, so the identifier type has no table the chain cannot reach |
| Cli.ResolveInAt | urcontrol.py:74-99 | in an if/elif chain a name selects the table of the first test it matches |
| Cli.ResolveListed | urcontrol.py:74-123 | the i-th name `--list-units` prints selects the table of the i-th branch of the dispatch |
| Cli.ResolveUnlisted | urcontrol.py:74-123 | every name `--list-units` does not print raises 'Unit does not exists' |
| Cli.VisibleNames | urcontrol.py:127-133 | a name is listed iff it is an attribute name not starting with `__`; the listing is no longer than the attribute list |
| Cli.ParameterNames | urcontrol.py:127-133 | `--list-parameters` lists exactly the unit's attribute names that do not start with `__` |
| Cli.VisibleNamesAppend | urcontrol.py:127-133 | the filter distributes over concatenation, so it keeps definition order |
| Cli.VisibleNamesDistinct | urcontrol.py:127-133 | filtering a list without repeats yields a list without repeats |
| Cli.ParameterNamesDistinct | urcontrol.py:127-133 | a unit that binds each name once lists each parameter once |
| Cli.ResolveToken | urcontrol.py:156-163 | `min`, `max` and `def` pick descriptor fields 1, 2 and 3 (an absent default stays absent) and fail as the lookup fails; any other token succeeds iff it is an integer, with `int()`'s value, and raises `ValueError` otherwise |
| Cli.IntegerTokenUnchanged | urcontrol.py:162-164 | an integer token resolves to that integer unchanged, with no clamping and no lookup |
| Cli.MinMaxTokensInRange | urcontrol.py:156-159 | when `min <= max`, the `min` and `max` tokens resolve to values inside the range the store asserts |
| Cli.ChannelAccepted | urcontrol.py:164 | the default `--input 1` is channel 0, and the store accepts exactly the inputs 1 to 6 after the minus-one conversion |
| Cli.SetReport | urcontrol.py:164-167 | a `False` set result prints FAILED and exits with status 1; `True` prints nothing and exits 0; the store is as the set left it |
| Cli.RunGet | urcontrol.py:136-151 | once the MIDI ports are open, the get branch never calls `sys.exit` with a non-zero status (every failure is an uncaught exception, status 1); with a non-empty name it prints a value iff the parameter exists and `--input` is between 1 and 6 |
| Cli.RunSet | urcontrol.py:153-167 | once the MIDI ports are open, with the in-memory store the set branch either raises or exits 0 silently: the store never reports `False` |
| Cli.RunCommand | urcontrol.py:103-183 | once the MIDI ports are open, only a failed set calls `sys.exit` with a non-zero status, and then prints FAILED (every other failure is an uncaught exception, status 1); the listing commands leave the store unchanged |
| Cli.Run | urcontrol.py:74-101 | an unknown unit raises 'Unit does not exists' whatever the command, before the command runs |
| Cli.RunSetInteger | urcontrol.py:162-167 | an integer token stores that integer when the store's checks pass, and raises the store's own error otherwise |
| Cli.RunSelectsListedUnit | urcontrol.py:74-183 | a command given with the i-th listed unit name runs against the i-th table of the dispatch, and any unlisted name raises whatever the command |
| Cli.RunGetAccepts | urcontrol.py:136-151 | `--get-parameter` on a selected table prints a value iff the parameter exists in it and `--input` is between 1 and 6 |
| Cli.RunSetThenGet | urcontrol.py:136-167 | `--set-parameter NAME N` with N in range on an input from 1 to 6 exits 0, and a following `--get-parameter NAME` on any input from 1 to 6, against the store the set left behind (the device's state), prints N |
| Cli.RunSetOutOfRange | urcontrol.py:162-164 | an integer outside the descriptor's range is not clamped: the set raises the store's range assertion |
| Cli.RunSetKeyword | urcontrol.py:153-167 | on an input from 1 to 6, `min` and `max` store the range ends and exit 0 when the range is not empty; `def` stores a present in-range default and raises when the default is absent |
| Cli.RunSetNeverReportsFailure | urcontrol.py:164-167 | once the MIDI ports are open, with the in-memory store a set that gets past its checks always exits 0 |
| Slider.SliderDb | utils.py:4-24 | the level is absent (the "-∞" label) exactly at position 0 |
| Slider.SliderMatchesReference | utils.py:7-22 | from position 1 the band formulas equal a walk from -74 dB that adds 2, 1, 0.5 or 0.25 dB per step, as the band comments state; neighbouring bands meet without a jump or repeat |
| Slider.SliderIncreasing | utils.py:7-22 | over positions from 1 the level is strictly increasing, across the boundaries 13/14, 43/44 and 63/64 included |
| Slider.SliderEndPoints | utils.py:5-22 | position 0 is "-∞"; positions 1, 13, 43, 63 and 127 give -74, -50, -20, -10 and +6 dB |
| Slider.NegativeFallsThrough | utils.py:19-22 | a negative position falls through to the last branch, continuing the 0.25 dB band below position 63 |

## Left out

- MIDI port discovery and opening (`open_midi_ports`, `print_midi_ports`), the `--get-midi-ports`, `--reset` and `--test` commands: they are port I/O and timed loops. `Cli.RunCommand` stops at `PortIo` for those commands; `Cli.Run` still applies the unit check to them first.
- Port opening before `--get-parameter` and `--set-parameter`: it is port I/O. The model assumes the ports opened.
- The production `UR44C` class, its `ResetConfig` and its SysEx wire encoding: they are not part of this model. The get and set of the tool use the store's semantics.
- Cli.Run: the store argument stands for the device's state, which persists between invocations of the tool; the mock itself is re-created in each process (a fresh mock would make a following `--get-parameter` print the default), so `Cli.RunSetThenGet` describes the device, not two runs against the mock.
- The `UR44C_Params_*` tables: they are not part of this model. `Cli.Run` takes them as a parameter.
- `UR22C`: it only sets `num_inputs = 2`, which the store's literal input bound ignores.
- `main.py`: widget layout with no logic.
- The `--verbose` output of `--list-parameters` and `--get-parameter`: for `--get-parameter` it only formats a descriptor the get already found. The verbose listing is not only formatting: it also calls `getattr` and reads fields 1 to 5 of every name not starting with `__`, so an attribute that cannot be indexed up to position 5 (one with fewer than six items, or one that is not subscriptable, such as `None`, an integer or a function), which the plain listing prints, makes the verbose listing raise; a longer sequence is printed without error. `Cli.ParameterNames` models the plain listing only.
- Command-line parsing itself (`argparse`): a non-integer `--input`, a missing command or more than one command are rejected there, before the modelled code runs.
- Params.LookupIn: an attribute that is not a six-item value is one `NotAParameter` error, where Python raises various exception types. Python unpacks any six-item value, not only a descriptor tuple: a six-character string such as `"Mixers"` unpacks, so on a fresh store the get seeds and prints its fourth character (the default slot, `e`), and `--set-parameter NAME min` passes its second character (`i`) on to the store. The model treats every such attribute as `Other`. Attributes a class inherits (`__class__` and the like) are not modelled; only the unit's own attributes are.
- Numerals.ParseInt: accepts only an optional sign followed by ASCII digits. Python's `int()` also accepts surrounding whitespace, underscores between digits and non-ASCII digits. From Python 3.11 on, `int()` also raises `ValueError` on a string of more than 4300 digits; the model has no such limit.
- Numerals.ParseIntRoundTrip: holds for integers of any length; from Python 3.11 on, `str()` refuses an integer of more than 4300 digits, so the round trip exists in Python only below that length.
- Slider.SliderDb: gives the level in quarter-dB, not the label string. Python prints the first two bands as integers and the last two as floats (`-19.5`).
