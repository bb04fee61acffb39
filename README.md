# parameter-box in Dafny

A model of the core of `parameter_box`, a Rust registry of named, typed
configuration parameters. Each parameter holds an optional value. It may also
carry an optional lower and upper bound, each open or closed, and an optional
blacklist or whitelist. Every setter re-checks the value against these
constraints. The value is stored even when a check fails: the failure is
reported to the caller and counted in the registry's error counter, but it
never blocks the write. Values can also be filled in from a `<name> <value>`
parameter file.

Modules, leaf first:

- `Basics` (basics.dfy): `Option` and `Result`.
- `Values` (values.dfy): the values a parameter can hold and the type tags for
  the Rust types a parameter is declared with. `HasType` keeps integers inside
  their width. `Less` is the ordering Rust's `PartialOrd` gives these types;
  the lemmas prove it is a strict total order.
- `Parameters` (parameters.dfy): `ParameterCore` (`Core`), its three checks,
  the `Parameter` record with its labels, and `Parameter::new`. Each check
  follows the source comparisons literally (`value <= l` for an open lower
  bound). Its contract states what the check means instead (`AboveMin`: "the
  value lies strictly above the limit"). Connecting the two needs the
  totality lemmas.
- `Entries` (entries.dfy): the error kinds and messages. It also holds the
  effect of every setter on one record, as a pure function: the source clones
  the core, changes one slot, re-checks and swaps the result back in.
- `Ingest` (ingest.dfy): the line logic of `read_file`. `ScanLine` is one
  pass of the loop and `ScanLines` is the whole file. There are lemmas for
  each kind of line and for the duplicate bookkeeping. `DuplicateReports` is
  the loop over the duplicate checker.
- `Registry` (registry.dfy): `ParameterBox` as a class. It has a map from name
  to record, the `order` of registration and the `errors` counter. `Valid()`
  says that `order` lists every key once, with no duplicates. It also says
  that every record's labels match its core and that everything stored has
  the declared type. Every method states its whole new state. Client
  methods replay part of the integration test (a set value and an unset one
  read back), misuse of the registry, and a bound set after the value.

Two behaviours of the source are worth stating plainly:

- A value that does not parse, while reading a file, makes `read_file`
  reach `unreachable!()` (src/lib.rs:526) and panic. The model returns
  `Panicked(Abort(line, Unparsable))`.
- A failed `set_value` raises the counter once per failed check, so by up to
  three (src/lib.rs:193, 200, 206, 211).

## Model

| member | source | states |
|---|---|---|
| Values.Less | src/parameter.rs:73-102 | Rust's `<` on the declared type: numeric order on integers and floats, `false < true`, lexicographic order on strings |
| Values.LessEq | src/parameter.rs:73-102 | Rust's `<=`: `<` or equal |
| Values.LessIrreflexive | src/parameter.rs:73-102 | no value is below itself |
| Values.LessTransitive | src/parameter.rs:73-102 | `<` is transitive |
| Values.LessEqIffNotLess | src/parameter.rs:10 | for values of one type, `a <= b` holds exactly when `b < a` does not, so the ordering is total |
| Parameters.CheckMinLimit | src/parameter.rs:69-89 | passes iff there is no value, no lower bound, or the value is strictly above an open limit or at least a closed one; a failure is always `LessThanMinLimit` carrying `>` (open) or `≧` (closed) and the limit |
| Parameters.CheckMaxLimit | src/parameter.rs:91-111 | passes iff there is no value, no upper bound, or the value is strictly below an open limit or at most a closed one; a failure is always `LargerThanMaxLimit` carrying `<` (open) or `≦` (closed) and the limit |
| Parameters.Contains | src/parameter.rs:117 | the front-to-back scan finds `v` exactly when `v` is in the list |
| Parameters.CheckListCondition | src/parameter.rs:113-133 | passes iff there is no value, no list, or the value is absent from a blacklist or present in a whitelist; a blacklist failure is `BlacklistViolation` ("not in the list" with the items), a whitelist failure `WhitelistViolation` ("in the list" with the items) |
| Parameters.ValuelessCorePasses | src/parameter.rs:61-67 | a core without a value passes all three checks whatever its constraints; a fresh core has no value, no bounds and no list, and accepts any value |
| Parameters.NumericCases | src/parameter.rs:221-288 | the unit cases for the value 1, both as an integer and as a floating-point number: passes `(Open 0, Close 1)` and `(Close 1, Open 2)`, fails the min check under `Open 1` and the max check under `Open 1`, and meets the listed black/white lists |
| Parameters.BoolAndTextCases | src/parameter.rs:290-338 | the boolean and string unit cases with the source's own lists: `true` and `"hello"` pass all three checks with no bounds and no list; `true` passes `White([true])` and violates `White([false])`; `"hello"` passes `Black(["good mornig", "good afternoon", "good night"])` and `White(["hello", "world", "!"])`, violates `Black(["hello", "world", "!"])` and violates `White(["good mornig", "good afternoon", "good night"])` |
| Parameters.NewParameter | src/parameter.rs:151-166 | a fresh record has the given type tag, an empty core, no labels, no explanation and is visible; its labels are in step and its contents typed |
| Parameters.MinLimitLabel | src/lib.rs:824-832 | the lower-bound label is always present, shows the limit, and shows no other value |
| Parameters.MaxLimitLabel | src/lib.rs:834-842 | the upper-bound label is always present, shows the limit, and shows no other value |
| Parameters.Joined | src/lib.rs:849-856 | the joined item list shows every item and no value that is not an item |
| Parameters.ListLabel | src/lib.rs:844-872 | the list label is headed `Blacklist` or `Whitelist` by the kind of list, and shows exactly the listed items |
| Parameters.LabelsFollowSlots | src/lib.rs:824-872 | in a consistent record the value label is present iff the value is, each bound label iff that bound is, and the list label iff the list is |
| Entries.SetValueOn | src/lib.rs:177-223 | the value and its label are committed even when a check fails, and nothing else changes; no violation iff the new core satisfies all three constraints; the number of violations is the number of failed checks (at most 3); labels stay in step and contents stay typed |
| Entries.SetRangeOn | src/lib.rs:609-644 | both bounds and both labels are replaced, and the value and list are untouched; no violation iff both bounds hold; one violation per failed bound, none without a value |
| Entries.SetMinLimitOn | src/lib.rs:660-685 | only the lower bound and its label change; no violation iff the lower bound holds; at most one violation |
| Entries.SetMaxLimitOn | src/lib.rs:701-726 | only the upper bound and its label change; no violation iff the upper bound holds; at most one violation |
| Entries.SetListInfoOn | src/lib.rs:742-772 | the whole list condition and its label are replaced, and the value and range are untouched; no violation iff the list admits the value; at most one violation |
| Entries.RangeIsMinThenMax | src/lib.rs:609-644 | setting a range equals setting the lower bound and then the upper one: the same record, and the same violations in the same order |
| Entries.MinLimitAfterValue | src/lib.rs:660-685 | setting a lower bound after the value gives the same record as setting it before, and reports a violation iff the value is not above the bound |
| Entries.MaxLimitAfterValue | src/lib.rs:701-726 | the same for an upper bound |
| Entries.ListAfterValue | src/lib.rs:742-772 | the same for a black/white list |
| Entries.LastSetterWins | src/lib.rs:188 | a second `set_value`, bound or list replaces the first outright (a whitelist replaces a blacklist) |
| Entries.ConstraintSettersKeepValue | src/lib.rs:609-772 | no range, bound or list setter changes or clears the stored value |
| Entries.FreshParameterAcceptsValue | src/lib.rs:177-223 | a parameter that was just added accepts any value of its type with no violation, and then holds that value and nothing else |
| Ingest.SplitWhitespace | src/lib.rs:487 | every token is non-empty and contains no whitespace |
| Ingest.SplitWhitespaceWord | src/lib.rs:487 | a non-empty run without whitespace is exactly one token |
| Ingest.SplitWhitespaceAt | src/lib.rs:487 | every whitespace character separates tokens: the tokens of `a + [c] + b` are the tokens of `a` followed by those of `b` |
| Ingest.SplitWhitespaceFacts | src/lib.rs:487-488 | the tokens, concatenated, are the line without its whitespace; there are no tokens exactly when the line is all whitespace |
| Ingest.IsSkipped | src/lib.rs:481-486 | a line starting with `#` or an empty line is skipped |
| Ingest.Record | src/lib.rs:501-505 | the checker gains the name as a key and no other key |
| Ingest.RecordAppends | src/lib.rs:501-505 | the name's line list is extended by the line number (a new name starts with just that number), and every other name's list is unchanged |
| Ingest.ScanLine | src/lib.rs:481-548 | one line never adds or removes a name, never changes a type, never lowers the counter and never drops a message |
| Ingest.SkippedLine | src/lib.rs:481-486 | a line starting with `#`, or an empty line, changes nothing |
| Ingest.BlankLine | src/lib.rs:487-488 | a non-empty line of whitespace only panics at `name_value[0]` |
| Ingest.UnknownNameLine | src/lib.rs:489-500 | an unregistered first token adds one message and one error, and the loop goes on |
| Ingest.KnownNameLine | src/lib.rs:501-513 | a registered name is recorded with its line number before the token count is looked at; a count other than two adds one message and one error |
| Ingest.UnreadableTypeLine | src/lib.rs:515-548 | a well-formed line for a type outside the 14 readable ones adds a message without raising the counter |
| Ingest.UnparsableLine | src/lib.rs:515-530 | a well-formed line of a readable type whose value does not parse records the name in the checker and then panics (`unreachable!()`), with no message and no change to the counter |
| Ingest.ValueLine | src/lib.rs:516-537 | a well-formed, parsable line stores the value even when it violates a constraint, raises the counter by the number of failed checks, and adds a message iff some check failed; exactly, the name is recorded in the checker, the record becomes `SetValueOn` of the old one (bounds, list and other labels kept), the counter rises by its violations, and one `LineBadCondition` carrying them and the line number is added iff there are any |
| Ingest.ScanLines | src/lib.rs:474-549 | the loop over the file's lines, numbered from 1; a scan that has already panicked stays as it is, and a panic is always on one of the file's lines |
| Ingest.AbortIsFinal | src/lib.rs:526 | once the loop has panicked, later lines change nothing |
| Ingest.ScanLinesMonotone | src/lib.rs:474-549 | reading a file never removes a name or changes a type, never lowers the counter and never drops a message |
| Ingest.CheckerStep | src/lib.rs:501-505 | a line about a registered name appends its number to that name's entry in the duplicate checker; no other line touches the checker |
| Ingest.CheckerListsAllLines | src/lib.rs:469-505 | after the whole file, the checker holds exactly the registered names some line is about, each with all of its line numbers in file order |
| Ingest.DuplicatesAreRepeatedNames | src/lib.rs:550-565 | the names reported as duplicate are exactly the registered names that more than one line is about |
| Ingest.DuplicateReports | src/lib.rs:550-565 | one `Duplicate` report per name recorded on more than one line, carrying all its line numbers, each name once, in any order |
| Registry.ParameterBox.constructor | src/lib.rs:145-151 | an empty registry: no parameters, empty order, counter 0 |
| Registry.ParameterBox.Add | src/lib.rs:154-170 | a registered name gives `AlreadyAdded`, raises the counter by one and changes nothing else; a new name gets a fresh record and is appended to the order once |
| Registry.ParameterBox.SetValue | src/lib.rs:173-228 | applies `SetValueOn` to the record, raises the counter by its violations and returns `InvalidCondition` iff there are any; an unknown name gives `NotAdded`, adds one error and changes nothing else |
| Registry.ParameterBox.SetRange | src/lib.rs:601-649 | applies `SetRangeOn`, with the same counting and `NotAdded` rule |
| Registry.ParameterBox.SetMinLimit | src/lib.rs:652-690 | applies `SetMinLimitOn`, with the same counting and `NotAdded` rule |
| Registry.ParameterBox.SetMaxLimit | src/lib.rs:693-731 | applies `SetMaxLimitOn`, with the same counting and `NotAdded` rule |
| Registry.ParameterBox.SetListInfo | src/lib.rs:734-777 | applies `SetListInfoOn`, with the same counting and `NotAdded` rule |
| Registry.ParameterBox.SetRangeOpenOpen | src/lib.rs:231-243 | `set_range` with two open bounds |
| Registry.ParameterBox.SetRangeOpenClose | src/lib.rs:246-261 | `set_range` with an open lower and a closed upper bound |
| Registry.ParameterBox.SetRangeCloseOpen | src/lib.rs:264-279 | `set_range` with a closed lower and an open upper bound |
| Registry.ParameterBox.SetRangeCloseClose | src/lib.rs:282-297 | `set_range` with two closed bounds |
| Registry.ParameterBox.SetMinLimitOpen | src/lib.rs:300-309 | `set_min_limit` with an open bound |
| Registry.ParameterBox.SetMinLimitClose | src/lib.rs:312-321 | `set_min_limit` with a closed bound |
| Registry.ParameterBox.SetMaxLimitOpen | src/lib.rs:324-333 | `set_max_limit` with an open bound |
| Registry.ParameterBox.SetMaxLimitClose | src/lib.rs:336-345 | `set_max_limit` with a closed bound |
| Registry.ParameterBox.SetBlacklist | src/lib.rs:348-357 | `set_list_info` with a blacklist |
| Registry.ParameterBox.SetWhitelist | src/lib.rs:360-369 | `set_list_info` with a whitelist |
| Registry.ParameterBox.SetExplanation | src/lib.rs:372-384 | sets only the explanation; an unknown name gives `NotAdded` and one error |
| Registry.ParameterBox.SetUnvisible | src/lib.rs:387-395 | sets only the hidden flag; an unknown name gives `NotAdded` and one error |
| Registry.ParameterBox.RefValue | src/lib.rs:398-413 | returns the stored value, `None` if it was never set, of the caller's type; an unknown name gives `NotAdded` and one error; nothing else changes |
| Registry.ParameterBox.CloneValue | src/lib.rs:416-432 | the same answer as `RefValue` |
| Registry.ParameterBox.RefExplanation | src/lib.rs:449-456 | returns the explanation; an unknown name gives `NotAdded` and one error |
| Registry.ParameterBox.GetNumErrors | src/lib.rs:458-460 | returns the counter without changing anything |
| Registry.ParameterBox.ReadLine | src/lib.rs:481-548 | one pass of the loop does exactly what `ScanLine` says, to the registry and to the loop's checker and messages, and reports a panic |
| Registry.ParameterBox.ReadKnownLine | src/lib.rs:501-548 | the part of one pass that follows a registered name does exactly what `ScanLine` says |
| Registry.ParameterBox.StoreValue | src/lib.rs:516-525 | a parsed value goes through `SetValueOn`: the record is replaced, the counter rises by its violations, and a message carrying the line number is added iff there are violations |
| Registry.ParameterBox.ReadFile | src/lib.rs:463-571 | the registry ends as `ScanLines` says, whether the loop finishes or panics; the result is `Ok` iff no message was collected and no name is duplicated, and otherwise `InvalidInputFile` lists the loop's messages followed by the duplicate reports; `order` is unchanged |
| Registry.ReadBackScenario | tests/parameter_box_test.rs:8-149 | part of the integration test: `param_u8` set to 1 reads back `Some(1)`, and `param_None`, never set, reads back `None` |
| Registry.TextReadBackScenario | tests/parameter_box_test.rs:21-147 | part of the integration test: `param_String` set to `"Apple"` reads back `"Apple"` |
| Registry.MisuseScenario | src/lib.rs:154-432 | adding a name twice (`add`, src/lib.rs:154-170) and reading an unknown one (`clone_value`, src/lib.rs:428-431) are each one error, and the order keeps the first registration only |
| Registry.RetroactiveCheckScenario | src/lib.rs:652-690 | a closed lower bound of 10 set after the value 5 reports `InvalidCondition` and one error, and the value 5 stays stored |

## Left out

- File and stream I/O: `File::open`, `BufReader::lines` and the conversion of `io::Error` into `IoError` (src/lib.rs:463-480, 883-888). `ReadFile` takes the file's lines as a sequence of strings, so `IoError` is never produced.
- Rendering: `print`, `print_core`, `BufWriter` and the column padding (src/lib.rs:574-579, 779-822). The labels it prints are modelled as `Rendered` pieces, and each value's `Display` text is left abstract (`Shown(v)`).
- Process exit: the `unwrap_result!` macro and `clone_value_forcibly` (src/lib.rs:82-142, 434-446). They only call `std::process::exit`.
- Exact message text: the `err_msg_header!` prefix with `Location::caller`, and the file name inside `read_file` messages (src/lib.rs:36-80). Each message is a structured `Message` value.
- `sequence_err_or_not` (src/lib.rs:874-880) is not a member of its own. It puts a newline between messages, so the joined report is kept as the sequence of its messages, and "the report is empty" is "the sequence is empty". One message can span several text lines: a `LineBadCondition` nests the whole `set_value` report, which `read_file` appends as one entry with the line number (src/lib.rs:522-524).
- Type erasure: `Box<dyn Any>`, `TypeId` and `type_name` are replaced by a `TypeTag` per record and a tagged `Value`. A failed downcast panics through `expect` (src/lib.rs:185, 407), so a type mismatch is a `requires` on each typed method.
- Floating point: `f32`/`f64` values are exact reals. NaN, the infinities and rounding are not modelled.
- Caller-defined parameter types are not modelled. Only the 16 primitive types are. Such a type cannot be read from a file, which is covered through `usize` and `isize`. Its `PartialOrd` may also be partial, as for `f32`/`f64` with NaN, and the model's total `Less` cannot express that.
- `usize` and `isize` are taken to be 64 bits wide.
- `FromStr` parsing and `set_value_by_string` (src/lib.rs:582-598) are an abstract `Parser` argument. The parser must return values of the requested type. A parse failure panics in the source, so it is the `Panicked(Unparsable)` outcome, and `InvalidParse` is never produced.
- A non-empty line of whitespace only panics at `name_value[0]`. It is the `Panicked(NoTokens)` outcome.
- The order of duplicate reports comes from iterating a `HashMap`. The model fixes which reports appear, not their order.
- The counter and the line numbers are `u32` in the source. Here they are unbounded, so overflow after 2^32 errors or lines is not modelled.
- The unit test `set_range_works` (src/lib.rs:894-902) and the example programs contain no logic of their own.
