# pymmseqs command-line layer in Dafny

This project models the parameter and argument-vector layer of pymmseqs, a
Python wrapper around the MMseqs2 command-line tools:

- `MmseqsParameter`: the descriptor of one argument. The model covers its
  kind check, `validate_value` (coercion, choices, input-file existence,
  custom validator) and `format_for_command_line`.
- The four `create_*_parameter` factories and the flags they derive from a
  parameter name.
- `MmseqsCommandResult`: the `success` field.
- `BaseMmseqsCommandline`: the registry of descriptors and current values
  (`add_parameter`, `set_parameter`, `get_parameter`, `list_parameters`,
  `validate_parameters`), the base assembly of the argument vector, and the
  decision in `run` between returning a result and raising
  `CalledProcessError`.
- `CreateDBCommand`: its nine-descriptor table, the input normalisation and
  unknown-keyword check of its `__init__`, and its own `build_command_line`.
  That method puts the inputs and the output first and omits every option
  whose value equals its default.

The two assembly policies are kept apart, as the code has them.
`CreateDb.OptionSegmentsAgree` proves how they relate: the createdb option
segment is the base option segment once each value equal to its default is
treated as None.

A non-None value given to `validate_value` is passed through its
descriptor's `value_type`, unless it already has that type or is a list
given to a `multiple` parameter. None stores the default without any check.
The createdb assembly drops every option whose value equals its default.
The model keeps all of these behaviours.

Python behaviour the model writes out (module `PyValues`):

- `==` across ints and bools (`True == 1`), and lists compared element-wise.
- `isinstance(True, int)` holds.
- Truthiness.
- `str()` and `int()` on the value kinds a parameter can hold.

File existence is a parameter of every operation that consults it: the set
of paths that exist. The process that `run` starts is also a parameter: its
exit code and captured streams. The binary path is one more parameter.

Files:

- `values.dfy`: module `PyValues`.
- `parameters.dfy`: module `Parameters`.
- `commandline.dfy`: module `Commandline`. It holds the result record, the
  registry as values (`Registry`, `Add`, `Assign`, `ValidateAll`,
  `BaseArgv`) and the class `Command`, whose methods are proved against
  those functions.
- `createdb.dfy`: module `CreateDb`. It holds the table, `__init__` as
  values, the createdb assembly, the class `CreateDbCommand` (which holds a
  `Command`) and the lemmas relating them.

Two facts follow from the createdb code as written and are proved here:

- `--shuffle` and `--write-lookup` can never appear among the option tokens
  of a createdb command line. Both flags default to True. True equals the
  default and is skipped, and False renders nothing
  (`CreateDb.ConstructedCommandOmitsTrueFlags`). The positional part can
  still hold such text, for instance an output path spelled `--shuffle`.
- A command that `__init__` accepted always builds while the same set of
  paths exists. Its vector is "createdb", the input files, the output
  database, then the non-default options
  (`CreateDb.ConstructedCommandBuilds`). Once an input file is gone,
  validation fails again.

## Model

| member | source | states |
|---|---|---|
| PyValues.PyEqReflexive | pymmseqs/commands/createdb_v2.py:197 | every value equals itself under Python `==`, so a value that is the default is never "not equal to the default" |
| PyValues.IntToString | pymmseqs/application.py:139 | `str()` of an int is non-empty and is decimal digits with an optional leading '-' |
| PyValues.IntToStringRoundTrip | pymmseqs/application.py:77-84 | `int(str(i)) == i`: the text an int is rendered as coerces back to it |
| PyValues.IntToStringInjective | pymmseqs/application.py:137-139 | two ints rendered as the same text are equal |
| PyValues.Strs | pymmseqs/application.py:318-320 | `[str(v) for v in xs]`: same length, element k is `str(xs[k])` |
| PyValues.StrValues | pymmseqs/commands/createdb_v2.py:157-160 | a list of Python strings, element k holding `ss[k]` |
| PyValues.StrsOfStrValues | pymmseqs/commands/createdb_v2.py:184-186 | the strings of a list of strings are the strings themselves |
| PyValues.IsInstance | pymmseqs/application.py:77 | defined by its body: `isinstance(v, t)`, a bool counting as an int; `PyValues.Coerce` and `Parameters.Validate` state what depends on it |
| PyValues.Truthy | pymmseqs/application.py:93 | defined by its body: Python truthiness of None, text, numbers and lists; `Parameters.CheckInputFiles` and `Parameters.FormatForCommandLine` state what it decides |
| PyValues.PyEq | pymmseqs/commands/createdb_v2.py:197 | defined by its body: Python `==`, with ints and bools compared as numbers and lists element-wise; `PyValues.PyEqReflexive` and `CreateDb.InIntRange` state its properties |
| PyValues.ParseInt | pymmseqs/application.py:78-80 | defined by its body: `int()` on text; `PyValues.IntToStringRoundTrip` and `CreateDb.CoerceIntOption` state its properties |
| PyValues.Str | pymmseqs/application.py:139 | defined by its body: `str()` of each value kind; `PyValues.IntToString`, `PyValues.StrsOfStrValues` and `CreateDb.NumberTextIsNotLongFlag` state its properties |
| PyValues.Coerce | pymmseqs/application.py:76-84 | calling `value_type` on a value: the result has that type, and `str` and `bool` always succeed (when `int` succeeds is stated by `CreateDb.CoerceIntOption`) |
| Parameters.KindName | pymmseqs/application.py:52-56 | each kind's spelling parses back to that kind |
| Parameters.ParseKind | pymmseqs/application.py:54-55 | a `param_type` names a kind exactly when it is one of the four accepted spellings |
| Parameters.NewParameter | pymmseqs/application.py:52-56 | construction fails with the kind error exactly when `param_type` is not one of the four; otherwise every field is kept |
| Parameters.CoerceFor | pymmseqs/application.py:76-84 | defined by its body: a value of the type, or a list on a `multiple` parameter, is kept, and anything else goes through `value_type`; `Parameters.Validate` and `CreateDb.CoerceIntOption` state what it gives |
| Parameters.CheckPaths | pymmseqs/application.py:94-99 | the paths pass exactly when every path exists; a failure is the error for the first missing path, all earlier ones existing |
| Parameters.CheckInputFiles | pymmseqs/application.py:92-104 | only an input-file parameter with a truthy value is checked, a list element by element on a `multiple` parameter; a failure carries the error for the first path that fails (FileNotFoundError for a missing path, TypeError for a non-path) |
| Parameters.Validate | pymmseqs/application.py:58-113 | None gives the default or the "required" error; a value that cannot be coerced, or a coerced value outside the choices, fails with that error; a failing file check fails with that check's error; after the checks a raising `validation_func` gives "Validation failed" and a succeeding one gives its result; without one, a value that coerces and passes the choices and the file check is accepted as its coerced value; a value already of the type that passes is returned unchanged; the result is admissible |
| Parameters.ValidateIntText | pymmseqs/application.py:76-84 | an int parameter without choices, file check or validator accepts the text of a number as that number (`validate_value("42") == 42`) |
| Parameters.ValidatedPathList | pymmseqs/application.py:93-99 | a list accepted by a multiple input-file parameter is kept as is and holds only strings naming existing paths |
| Parameters.ValidateIdempotent | pymmseqs/application.py:58-113 | validating a validated value gives it back, so what `set_parameter` stored passes `validate_parameters` |
| Parameters.FlagPairs | pymmseqs/application.py:131-136 | a list renders as twice as many tokens: the flag, then `str` of the element, for each element in order |
| Parameters.FormatForCommandLine | pymmseqs/application.py:115-139 | None renders nothing; a flag renders itself when the value is truthy and nothing otherwise; a list on a `multiple` parameter renders flag/value pairs; any other value renders flag and `str(value)` |
| Parameters.Dashed | pymmseqs/application.py:469 | `name.replace('_', '-')`: same length, each '_' turned into '-' and every other character kept |
| Parameters.LongFlagShape | pymmseqs/application.py:468-469 | a derived long flag is "--" followed by the dashed name and contains no '_' |
| Parameters.CreateInputFileParameter | pymmseqs/application.py:460-479 | an input-file string parameter with no default, no choices and no validator; the given flag or "--" plus the dashed name |
| Parameters.CreateOutputFileParameter | pymmseqs/application.py:482-499 | an output-file string parameter, never multiple; flag as for input files |
| Parameters.CreateOptionParameter | pymmseqs/application.py:502-527 | an option with the given type, default and choices, never multiple; the given flag, or "-name" for a one-letter name and the long flag otherwise |
| Parameters.CreateFlagParameter | pymmseqs/application.py:530-551 | a bool flag with the given default, never required or multiple; flag derived as for options |
| Commandline.CommandResult.Succeeded | pymmseqs/application.py:162-164 | defined by its body: `success` is `returncode == 0`; `Commandline.Finish` states it of every result |
| Commandline.ValidateAll | pymmseqs/application.py:276-286 | defined by its body: each registered value validated in registration order; `Commandline.ValidateAllFirstFailure` and `Commandline.ValidateAllPasses` state its outcome |
| Commandline.BaseBuild | pymmseqs/application.py:288-328 | defined by its body: validation, then the base vector; `Commandline.Command.BuildCommandLine` is proved against it and `Commandline.BaseArgvSplit` states the vector |
| Commandline.Finish | pymmseqs/application.py:408-429 | a build failure propagates; otherwise it raises exactly when `check` is set and the exit code is non-zero, carrying the full command and both streams as the process gave them (None when not captured); a result holds binary plus argv, the exit code, the streams with None as "", and `success` iff the code is 0 |
| Commandline.ValidateAllFirstFailure | pymmseqs/application.py:276-286 | validation passes iff every registered value validates; a failure is the error of the first value in registration order that does not |
| Commandline.ValidateAllPasses | pymmseqs/application.py:276-286 | when every registered value validates, validation passes |
| Commandline.Assign | pymmseqs/application.py:232-248 | an unknown name fails with "Unknown parameter"; a value that does not validate fails with the validation error; otherwise only `name` changes, to the validated value |
| Commandline.AssignAll | pymmseqs/application.py:200-202 | keyword arguments set one after another: on success every key was registered, the keys are those before plus the keywords, and every other value is unchanged |
| Commandline.AssignAllSplit | pymmseqs/application.py:200-202 | setting two runs of keywords is setting the first, then, if it succeeded, the second on what it left |
| Commandline.AssignAllSnoc | pymmseqs/application.py:200-202 | the last keyword is one `set_parameter` on what the earlier ones left |
| Commandline.AssignAllFirstFailure | pymmseqs/application.py:200-202 | a failing run fails with the error of the first keyword whose `set_parameter` fails, all earlier ones having succeeded |
| Commandline.AssignAllStoresLast | pymmseqs/application.py:200-202 | after a successful run each keyword's name holds the validated value of its last occurrence |
| Commandline.Collect | pymmseqs/application.py:308-314 | the collected pairs hold no None value, each from the requested class (positional or not) |
| Commandline.CollectSingle | pymmseqs/application.py:308-314 | one name contributes its (descriptor, value) pair exactly when the value is not None and the kind is of the requested class |
| Commandline.CollectStep | pymmseqs/application.py:308-314 | one more name in registration order appends its pair under the same condition, and nothing else |
| Commandline.BaseArgv | pymmseqs/application.py:302 | the base vector starts with the command name |
| Commandline.CollectAppend | pymmseqs/application.py:308-314 | collecting over two runs of names is the concatenation of collecting over each |
| Commandline.BaseArgvSplit | pymmseqs/application.py:308-326 | registration order decides the vector: the positional tokens of the earlier names, then of the later ones, then the option tokens in the same order |
| Commandline.NoneContributesNothing | pymmseqs/application.py:309-310 | a parameter whose value is None leaves the vector as if it were not registered |
| Commandline.AppendPositional | pymmseqs/application.py:318-322 | the positional loop appends the tokens of each positional pair in order |
| Commandline.AppendOptions | pymmseqs/application.py:325-326 | the option loop appends `format_for_command_line` of each pair in order |
| Commandline.Add | pymmseqs/application.py:220-230 | defined by its body: `add_parameter` on the registry; `Commandline.AddSeedsOnlyMissing` and `Commandline.NineFreshAdds` state its properties |
| Commandline.AddSeedsOnlyMissing | pymmseqs/application.py:220-230 | the descriptor is stored or replaced under its name; a new name goes to the end of the order and a known one keeps its place; the default is seeded only for a name without a value |
| Commandline.NineFreshAdds | pymmseqs/application.py:227-230 | nine additions with distinct names register them in call order, each with its descriptor and its default |
| Commandline.Command.constructor | pymmseqs/application.py:194-195 | the registry starts empty |
| Commandline.Command.AddParameter | pymmseqs/application.py:220-230 | the new state is `add_parameter` on the old one, and the registry invariant is kept |
| Commandline.Command.SetParameter | pymmseqs/application.py:232-248 | succeeds exactly when the value-level `set_parameter` does; a failure leaves the values unchanged; a success stores its result |
| Commandline.Command.SetParameters | pymmseqs/application.py:200-202 | the keyword loop yields what the keyword arguments set in turn yield, or its first error |
| Commandline.Command.GetParameter | pymmseqs/application.py:250-265 | an unknown name fails; a registered name yields its stored value |
| Commandline.Command.ListParameters | pymmseqs/application.py:267-274 | the registration order, which `AddParameter` extends at the end for each new name: every registered name exactly once |
| Commandline.Command.Partition | pymmseqs/application.py:305-314 | the first loop of `build_command_line` yields the positional and the other non-None pairs in registration order |
| Commandline.Command.ValidateParameters | pymmseqs/application.py:276-286 | the loop's outcome is that of validating every value in registration order |
| Commandline.Command.BuildCommandLine | pymmseqs/application.py:288-328 | validation first, then the command name, the positional tokens and the option tokens in registration order |
| Commandline.Command.Run | pymmseqs/application.py:357-429 | the outcome of `run` is the check/raise decision applied to the base vector |
| CreateDb.NormaliseInputFiles | pymmseqs/commands/createdb_v2.py:157-160 | a single path becomes a one-element list; an iterable becomes the list of its elements' strings in order; anything else cannot be iterated |
| CreateDb.SetKeywords | pymmseqs/commands/createdb_v2.py:166-170 | defined by its body: the keyword loop with its unknown-keyword check; `CreateDb.SetKeywordsIsAssignAll` and `CreateDb.SetKeywordsRejectUnknown` state its outcome |
| CreateDb.InitValues | pymmseqs/commands/createdb_v2.py:141-170 | defined by its body: `__init__` on values; `CreateDb.InitValuesRevalidate`, `CreateDb.InitStoresKeyword`, `CreateDb.InitFailsAtFirstKeyword` and `CreateDb.UnknownKeywordRejected` state its outcome |
| CreateDb.SetKeywordsIsAssignAll | pymmseqs/commands/createdb_v2.py:166-170 | the explicit unknown-keyword check raises exactly what `set_parameter` alone would |
| CreateDb.SetKeywordsRejectUnknown | pymmseqs/commands/createdb_v2.py:166-170 | the keyword loop succeeds only if every key is registered, and an "Unknown parameter" error names a keyword that is not |
| CreateDb.SetKeywordsOnlyRegistered | pymmseqs/commands/createdb_v2.py:166-170 | the keyword loop succeeds only if every key is registered |
| CreateDb.SetKeywordsUnknownNamed | pymmseqs/commands/createdb_v2.py:167-170 | an "Unknown parameter" error from the keyword loop names a keyword that is not registered |
| CreateDb.InitStoresKeyword | pymmseqs/commands/createdb_v2.py:166-168 | after a successful `__init__` each keyword's name holds the value `set_parameter` validated for its last occurrence (`dbtype=1` leaves 1) |
| CreateDb.InitFailsAtFirstKeyword | pymmseqs/commands/createdb_v2.py:166-170 | an `__init__` given one path or a list of paths that fails after storing the inputs and output fails with the error of the first keyword whose `set_parameter` fails |
| CreateDb.UnknownKeywordRejected | pymmseqs/commands/createdb_v2.py:141-170 | `__init__` with an unregistered keyword raises, and an "Unknown parameter" error always names such a keyword |
| CreateDb.AssignKeepsAdmissible | pymmseqs/application.py:243-248 | setting a parameter of the table keeps every stored value admissible |
| CreateDb.SetKeywordsKeepAdmissible | pymmseqs/commands/createdb_v2.py:166-170 | the keyword loop keeps every stored value admissible |
| CreateDb.InitValuesAdmissible | pymmseqs/commands/createdb_v2.py:141-170 | every value a successful `__init__` leaves is admissible |
| CreateDb.DefaultsValidate | pymmseqs/commands/createdb_v2.py:78-139 | the default of each option and flag of the table validates to itself |
| CreateDb.AssignKeepsRevalidating | pymmseqs/application.py:243-248 | setting a parameter keeps every stored value one that validates again |
| CreateDb.SetKeywordsKeepRevalidating | pymmseqs/commands/createdb_v2.py:166-170 | the keyword loop keeps every stored value one that validates again |
| CreateDb.SeededRevalidates | pymmseqs/commands/createdb_v2.py:154-163 | the defaults, with validated inputs and output, all validate again |
| CreateDb.PositionalsStored | pymmseqs/commands/createdb_v2.py:162-163 | the two `set_parameter` calls store the normalised input list and the output's string, and every value then validates again |
| CreateDb.InitValuesRevalidate | pymmseqs/commands/createdb_v2.py:141-170 | after a successful `__init__`, every value validates again, `input_files` holds the normalised list and `output_db` holds `str(output_db)` |
| CreateDb.RevalidatingPasses | pymmseqs/commands/createdb_v2.py:179 | values that all validate again pass `validate_parameters` |
| CreateDb.ConstructedCommandBuilds | pymmseqs/commands/createdb_v2.py:172-200 | a command `__init__` accepted always builds, to "createdb", the input files in order, the output database, then the non-default options |
| CreateDb.ConstructedCommandOmitsTrueFlags | pymmseqs/commands/createdb_v2.py:193-198 | after any accepted `__init__`, `--shuffle` and `--write-lookup` are never emitted |
| CreateDb.CreateDbArgv | pymmseqs/commands/createdb_v2.py:181 | the createdb vector starts with "createdb" and holds at least the output token |
| CreateDb.OptionChunk | pymmseqs/commands/createdb_v2.py:195-198 | defined by its body: the tokens one name contributes to the option loop; `CreateDb.OptionSegmentsAgree`, `CreateDb.DefaultRenderingNeverEmitted` and `CreateDb.ChunkOmitsTrueFlags` state its properties |
| CreateDb.CreateDbBuild | pymmseqs/commands/createdb_v2.py:172-200 | defined by its body: validation, then the createdb vector; `CreateDb.CreateDbCommand.BuildCommandLine` is proved against it and `CreateDb.ConstructedCommandBuilds` states its result |
| CreateDb.OptionSegmentsAgree | pymmseqs/commands/createdb_v2.py:193-198 | the createdb option segment equals the base class's option segment over the values with every default replaced by None |
| CreateDb.TableOptionSegment | pymmseqs/commands/createdb_v2.py:193-198 | the same, for the createdb table |
| CreateDb.NumberTextIsNotLongFlag | pymmseqs/application.py:139 | the text of an int or a bool is never a long flag |
| CreateDb.DefaultRenderingNeverEmitted | pymmseqs/commands/createdb_v2.py:197 | for an admissible value, the option loop never emits what the default would render as, such as `-v 3` or `--dbtype 0` |
| CreateDb.ChunkOmitsFlag | pymmseqs/commands/createdb_v2.py:195-198 | a long flag is absent from the tokens of an admissible value when no option renders it and a flag rendering it defaults to True |
| CreateDb.ChunkOmitsTrueFlags | pymmseqs/commands/createdb_v2.py:195-198 | the tokens of any table parameter's admissible value never hold `--shuffle` or `--write-lookup` |
| CreateDb.TrueFlagsUnreachable | pymmseqs/commands/createdb_v2.py:193-198 | with admissible values, the option segment holds neither `--shuffle` nor `--write-lookup` |
| CreateDb.Texts | pymmseqs/commands/createdb_v2.py:185-186 | extending with a list of strings gives the strings of its elements |
| CreateDb.AppendNonDefault | pymmseqs/commands/createdb_v2.py:193-198 | the option loop appends exactly the non-default tokens in registration order |
| CreateDb.Assemble | pymmseqs/commands/createdb_v2.py:181-198 | the assembly gives the createdb vector |
| CreateDb.InitParameters | pymmseqs/commands/createdb_v2.py:58-139 | the nine `add_parameter` calls leave the nine names registered in table order, each with its descriptor and default |
| CreateDb.CreateDbCommand.constructor | pymmseqs/application.py:194-198 | `super().__init__()` leaves the table order and every default, with the invariant (admissible values) established |
| CreateDb.CreateDbCommand.SetParameter | pymmseqs/application.py:232-248 | as the base `set_parameter` on the table; the class invariant, which it keeps, holds every stored value admissible |
| CreateDb.CreateDbCommand.Init | pymmseqs/commands/createdb_v2.py:153-170 | the body of `__init__` yields what `InitValues` describes, or its error |
| CreateDb.CreateDbCommand.SetKeywordArgs | pymmseqs/commands/createdb_v2.py:166-170 | the keyword loop yields what `SetKeywords` describes, or its error |
| CreateDb.CreateDbCommand.BuildCommandLine | pymmseqs/commands/createdb_v2.py:172-200 | validation first, then the createdb vector |
| CreateDb.CreateDbCommand.Run | pymmseqs/application.py:357-429 | the inherited `run` applied to the createdb vector |
| CreateDb.Create | pymmseqs/commands/createdb_v2.py:141-170 | a fresh command in table order holding the values `__init__` leaves, or the exception it raises |
| CreateDb.DescriptorShape | pymmseqs/commands/createdb_v2.py:58-139 | each descriptor is stored under its own name with no validator, and only `input_files` and `output_db` are files |
| CreateDb.TableRegistration | pymmseqs/commands/createdb_v2.py:58-139 | the nine registrations, from the empty registry, give the table in order with its defaults |
| CreateDb.DefaultsAdmissible | pymmseqs/commands/createdb_v2.py:58-139 | every default is admissible, and `input_files` holds no non-string |
| CreateDb.ValidatedValueShape | pymmseqs/application.py:58-113 | a value validated for a table parameter is admissible, and a validated input list holds only strings |
| CreateDb.IntRange | pymmseqs/commands/createdb_v2.py:85 | the choices `[0, ..., hi]` |
| CreateDb.InIntRange | pymmseqs/application.py:87 | a value is among `[0, ..., hi]` iff it is a number from 0 to hi (True counts as 1) |
| CreateDb.CoerceIntOption | pymmseqs/application.py:77-84 | coercion for an int option succeeds iff the value has an integer reading, and keeps that number |
| CreateDb.IntChoiceValidation | pymmseqs/application.py:58-113 | for an int option with choices `[0, ..., hi]`: accepted iff None or an integer reading in 0..hi; no reading is a coercion error, out of range is a choices error, an accepted value keeps its number |
| CreateDb.ChoiceConstraints | pymmseqs/commands/createdb_v2.py:78-131 | `dbtype` accepts 0..2, `createdb_mode` 0..1 and `v` 0..3 (or None); `id_offset` accepts any integer reading; everything else is rejected |

## Left out

- Process execution: `subprocess.run`, the working directory, the environment, `capture_output`, timing and `TimeoutExpired`. The exit code and the captured streams are a parameter (`Completion`).
- `get_mmseqs_binary`: the binary path is a parameter of `Run`.
- `command_string`, `__str__` and `__repr__`: they produce shell-quoted display text only.
- `__call__`: it forwards to `run`.
- The `execution_time` field: it holds wall-clock time.
- The `description` field: it has no behaviour.
- Floats and other Python types: values are None, str, int, bool and lists of these.
- `int()` on text accepts an optional sign and ASCII digits only. Surrounding whitespace and underscores are not modelled.
- `repr()` of a string in a list is quoted without escaping.
- `Path` objects: paths are strings, and `str(Path(p))` is taken to be `p`.
- A `validation_func` is a function from a value to an optional value, where None stands for raising; the exception text is not kept.
- Exception messages: each error is a constructor naming its cause, not its text.
- Keyword arguments are a sequence of pairs. Python's refusal of duplicate keys and of keywords that name `__init__`'s own parameters happens before the call and is not modelled.
- CreateDb.InitValuesRevalidate: requires that no keyword names `input_files` or `output_db`. Python refuses such a call before `__init__` runs.
- CreateDb.ConstructedCommandBuilds: requires that no keyword names `input_files` or `output_db`, for the same reason.
- Commandline.BaseArgv: its own contract only fixes the first token. The full content is stated by `Commandline.BaseArgvSplit`, `Commandline.NoneContributesNothing` and the ensures of `Commandline.Command.BuildCommandLine`.
- CreateDb.CreateDbArgv: its own contract only fixes the head. The full content is stated by `CreateDb.ConstructedCommandBuilds` and `CreateDb.OptionSegmentsAgree`.
- The abstract `command_name` property and `_init_parameters` hook: `Command` takes the name as a constructor argument, and the createdb registrations are `CreateDb.InitParameters`.
- `add_parameter` after construction is not offered on `CreateDbCommand`: createdb never calls it, and the class's invariant fixes the table.
- The `createdb_v2` convenience function and the `__main__` example: they only construct a command and run it.
