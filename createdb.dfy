/** `CreateDBCommand` of pymmseqs/commands/createdb_v2.py: a command with a
    fixed table of nine descriptors, an `__init__` that normalises the input
    files and rejects unknown keywords, and its own assembly policy, which puts
    the inputs and the output first and omits every option whose value equals
    its default. */
module CreateDb {
  import opened PyValues
  import opened Parameters
  import opened Commandline

  const CommandName: string := "createdb"

  // ---------------------------------------------------------------------------
  // The table `_init_parameters` registers, in registration order

  const InputFiles: Parameter := CreateInputFileParameter("input_files", Some(""), true, true)
  const OutputDb: Parameter := CreateOutputFileParameter("output_db", Some(""), true)
  const DbType: Parameter :=
    CreateOptionParameter("dbtype", Some("--dbtype"), TInt, VInt(0), Some([VInt(0), VInt(1), VInt(2)]), false)
  const Shuffle: Parameter := CreateFlagParameter("shuffle", Some("--shuffle"), true)
  const CreatedbMode: Parameter :=
    CreateOptionParameter("createdb_mode", Some("--createdb-mode"), TInt, VInt(0), Some([VInt(0), VInt(1)]), false)
  const IdOffset: Parameter := CreateOptionParameter("id_offset", Some("--id-offset"), TInt, VInt(0), None, false)
  const Compressed: Parameter := CreateFlagParameter("compressed", Some("--compressed"), false)
  const Verbosity: Parameter :=
    CreateOptionParameter("v", Some("-v"), TInt, VInt(3), Some([VInt(0), VInt(1), VInt(2), VInt(3)]), false)
  const WriteLookup: Parameter := CreateFlagParameter("write_lookup", Some("--write-lookup"), true)

  const Names: seq<string> :=
    ["input_files", "output_db", "dbtype", "shuffle", "createdb_mode", "id_offset", "compressed", "v", "write_lookup"]

  /** `_parameters` once `_init_parameters` has run. */
  const Descriptors: map<string, Parameter> := map[
    "input_files" := InputFiles, "output_db" := OutputDb, "dbtype" := DbType, "shuffle" := Shuffle,
    "createdb_mode" := CreatedbMode, "id_offset" := IdOffset, "compressed" := Compressed,
    "v" := Verbosity, "write_lookup" := WriteLookup]

  /** `_parameter_values` once `_init_parameters` has run: every default. */
  const Defaults: map<string, Value> := map[
    "input_files" := VNone, "output_db" := VNone, "dbtype" := VInt(0), "shuffle" := VBool(true),
    "createdb_mode" := VInt(0), "id_offset" := VInt(0), "compressed" := VBool(false),
    "v" := VInt(3), "write_lookup" := VBool(true)]

  /** The two names the option loop of `build_command_line` skips. */
  predicate IsPositionalName(n: string) {
    n == "input_files" || n == "output_db"
  }

  /** Every stored value is one `validate_value` can produce for its descriptor. */
  predicate AllAdmissible(values: map<string, Value>) {
    forall n :: n in values && n in Descriptors ==> Admissible(Descriptors[n], values[n])
  }

  /** A list stored for `input_files` holds only strings. */
  predicate InputsAreStrings(values: map<string, Value>) {
    "input_files" in values && values["input_files"].VList? ==>
      forall k :: 0 <= k < |values["input_files"].items| ==> values["input_files"].items[k].VStr?
  }

  // ---------------------------------------------------------------------------
  // __init__ as values

  /** The normalisation of `input_files` in `__init__`: a single path becomes a
      one-element list of its string, any other iterable is turned into the list
      of its elements' strings in order, and anything else cannot be iterated. */
  function NormaliseInputFiles(inputFiles: Value): (r: Result<seq<string>>)
    ensures r.Ok? <==> inputFiles.VStr? || inputFiles.VList?
    ensures inputFiles.VStr? ==> r.value == [inputFiles.s]
    ensures inputFiles.VList? ==>
      |r.value| == |inputFiles.items| && forall k :: 0 <= k < |r.value| ==> r.value[k] == Str(inputFiles.items[k])
    ensures r.Err? ==> r.error == NotIterable(inputFiles)
  {
    match inputFiles
    case VStr(s) => Ok([s])
    case VList(xs) => Ok(Strs(xs))
    case _ => Err(NotIterable(inputFiles))
  }

  /** The keyword loop of `__init__`: a key that is not registered raises
      "Unknown parameter"; a registered one goes through `set_parameter`. */
  function SetKeywords(values: map<string, Value>, kwargs: seq<(string, Value)>, existing: set<string>)
    : Result<map<string, Value>>
    decreases |kwargs|
  {
    if kwargs == [] then Ok(values)
    else if kwargs[0].0 !in Descriptors then Err(UnknownParameter(kwargs[0].0))
    else
      match Assign(Descriptors, values, kwargs[0].0, kwargs[0].1, existing)
      case Err(e) => Err(e)
      case Ok(m) => SetKeywords(m, kwargs[1..], existing)
  }

  /** The explicit unknown-keyword check of `__init__` raises exactly what
      `set_parameter` would: the keyword loop is the base class's. */
  lemma {:induction false} SetKeywordsIsAssignAll(values: map<string, Value>, kwargs: seq<(string, Value)>,
                                                 existing: set<string>)
    ensures SetKeywords(values, kwargs, existing) == AssignAll(Descriptors, values, kwargs, existing)
    decreases |kwargs|
  {
    if kwargs != [] && kwargs[0].0 in Descriptors {
      match Assign(Descriptors, values, kwargs[0].0, kwargs[0].1, existing)
      case Err(_) =>
      case Ok(m) => SetKeywordsIsAssignAll(m, kwargs[1..], existing);
    }
  }

  /** What `CreateDBCommand(input_files, output_db, **kwargs)` leaves in
      `_parameter_values`, or the exception it raises. */
  function InitValues(inputFiles: Value, outputDb: Value, kwargs: seq<(string, Value)>, existing: set<string>)
    : Result<map<string, Value>>
  {
    match NormaliseInputFiles(inputFiles)
    case Err(e) => Err(e)
    case Ok(files) =>
      match Assign(Descriptors, Defaults, "input_files", VList(StrValues(files)), existing)
      case Err(e) => Err(e)
      case Ok(m1) =>
        match Assign(Descriptors, m1, "output_db", VStr(Str(outputDb)), existing)
        case Err(e) => Err(e)
        case Ok(m2) => SetKeywords(m2, kwargs, existing)
  }

  // ---------------------------------------------------------------------------
  // What __init__ leaves

  /** `set_parameter` keeps every stored value admissible. */
  lemma AssignKeepsAdmissible(values: map<string, Value>, name: string, v: Value, existing: set<string>)
    requires AllAdmissible(values)
    ensures Assign(Descriptors, values, name, v, existing).Ok? ==>
      AllAdmissible(Assign(Descriptors, values, name, v, existing).value)
  {
    if name in Descriptors {
      ValidatedValueShape(name, v, existing);
    }
  }

  lemma {:induction false} SetKeywordsKeepAdmissible(values: map<string, Value>, kwargs: seq<(string, Value)>,
                                                     existing: set<string>)
    requires AllAdmissible(values)
    ensures SetKeywords(values, kwargs, existing).Ok? ==> AllAdmissible(SetKeywords(values, kwargs, existing).value)
    decreases |kwargs|
  {
    if kwargs != [] && kwargs[0].0 in Descriptors {
      AssignKeepsAdmissible(values, kwargs[0].0, kwargs[0].1, existing);
      match Assign(Descriptors, values, kwargs[0].0, kwargs[0].1, existing)
      case Err(_) =>
      case Ok(m) => SetKeywordsKeepAdmissible(m, kwargs[1..], existing);
    }
  }

  /** Every value a successful `__init__` leaves is admissible. */
  lemma InitValuesAdmissible(inputFiles: Value, outputDb: Value, kwargs: seq<(string, Value)>, existing: set<string>)
    ensures InitValues(inputFiles, outputDb, kwargs, existing).Ok? ==>
      AllAdmissible(InitValues(inputFiles, outputDb, kwargs, existing).value)
  {
    DefaultsAdmissible();
    var files := NormaliseInputFiles(inputFiles);
    if files.Ok? {
      AssignKeepsAdmissible(Defaults, "input_files", VList(StrValues(files.value)), existing);
      var m1 := Assign(Descriptors, Defaults, "input_files", VList(StrValues(files.value)), existing);
      if m1.Ok? {
        AssignKeepsAdmissible(m1.value, "output_db", VStr(Str(outputDb)), existing);
        var m2 := Assign(Descriptors, m1.value, "output_db", VStr(Str(outputDb)), existing);
        if m2.Ok? {
          SetKeywordsKeepAdmissible(m2.value, kwargs, existing);
        }
      }
    }
  }

  /** Every registered name holds a value that validates again. */
  predicate Revalidates(values: map<string, Value>, existing: set<string>) {
    forall n :: n in Descriptors ==> n in values && Validate(Descriptors[n], values[n], existing).Ok?
  }

  /** The default of each optional parameter of the table validates. */
  lemma DefaultsValidate(n: string, existing: set<string>)
    requires n in Descriptors && !IsPositionalName(n)
    ensures n in Defaults && Defaults[n] == Descriptors[n].default
    ensures Validate(Descriptors[n], Defaults[n], existing) == Ok(Defaults[n])
  {
    var p := Descriptors[n];
    if n == "v" {
      assert PyEq(p.default, p.choices.value[3]);
    } else if p.choices.Some? {
      assert PyEq(p.default, p.choices.value[0]);
    }
  }

  /** `set_parameter` keeps every stored value revalidating. */
  lemma AssignKeepsRevalidating(values: map<string, Value>, name: string, v: Value, existing: set<string>)
    requires Revalidates(values, existing)
    ensures Assign(Descriptors, values, name, v, existing).Ok? ==>
      Revalidates(Assign(Descriptors, values, name, v, existing).value, existing)
  {
    if name in Descriptors && Validate(Descriptors[name], v, existing).Ok? {
      var p := Descriptors[name];
      var w := Validate(p, v, existing).value;
      DescriptorShape(name);
      if v.VNone? {
        DefaultsValidate(name, existing);
      } else {
        ValidateIdempotent(p, v, existing);
      }
      var m := values[name := w];
      forall n | n in Descriptors
        ensures n in m && Validate(Descriptors[n], m[n], existing).Ok?
      {
        if n != name {
          assert m[n] == values[n];
        }
      }
    }
  }


  lemma {:induction false} SetKeywordsKeepRevalidating(values: map<string, Value>, kwargs: seq<(string, Value)>,
                                                       existing: set<string>)
    requires Revalidates(values, existing)
    ensures SetKeywords(values, kwargs, existing).Ok? ==> Revalidates(SetKeywords(values, kwargs, existing).value, existing)
    decreases |kwargs|
  {
    if kwargs != [] && kwargs[0].0 in Descriptors {
      AssignKeepsRevalidating(values, kwargs[0].0, kwargs[0].1, existing);
      match Assign(Descriptors, values, kwargs[0].0, kwargs[0].1, existing)
      case Err(_) =>
      case Ok(m) => SetKeywordsKeepRevalidating(m, kwargs[1..], existing);
    }
  }

  // ---------------------------------------------------------------------------
  // build_command_line as values

  /** What `cmd_line` is extended with for the `input_files` value: the
      elements of a list, otherwise `str` of the value. */
  function InputTokens(v: Value): seq<string> {
    if v.VList? then Strs(v.items) else [Str(v)]
  }

  /** What the option loop extends `cmd_line` with for one registered name:
      nothing for the two positional names, nothing for None and nothing for a
      value equal to the default; otherwise `format_for_command_line`. */
  function OptionChunk(n: string, p: Parameter, v: Value): seq<string> {
    if IsPositionalName(n) || v.VNone? || PyEq(v, p.default) then [] else FormatForCommandLine(p, v)
  }

  /** The tokens `chunk` gives for each registered name and its value, read
      with `get_parameter`, concatenated in registration order. */
  function NamedTokens(names: seq<string>, params: map<string, Parameter>, values: map<string, Value>,
                       chunk: (string, Parameter, Value) -> seq<string>): seq<string>
    requires Registered(names, params)
    decreases |names|
  {
    if names == [] then []
    else
      var n := names[|names| - 1];
      NamedTokens(names[..|names| - 1], params, values, chunk) + chunk(n, params[n], GetOr(values, n, params[n].default))
  }

  /** The option loop of the overridden `build_command_line`. */
  function NonDefaultTokens(names: seq<string>, params: map<string, Parameter>, values: map<string, Value>)
    : seq<string>
    requires Registered(names, params)
  {
    NamedTokens(names, params, values, OptionChunk)
  }

  /** The vector the overridden `build_command_line` assembles from valid
      values: the command name, the input files, the output database, then the
      options that differ from their defaults. */
  function CreateDbArgv(names: seq<string>, params: map<string, Parameter>, values: map<string, Value>)
    : (r: seq<string>)
    requires Registered(names, params) && "input_files" in params && "output_db" in params
    ensures |r| >= 2 && r[0] == CommandName
  {
    var inputs := InputTokens(GetOr(values, "input_files", params["input_files"].default));
    [CommandName] + inputs + [Str(GetOr(values, "output_db", params["output_db"].default))]
      + NonDefaultTokens(names, params, values)
  }

  /** The overridden `build_command_line`: validation first, then assembly. */
  function CreateDbBuild(names: seq<string>, params: map<string, Parameter>, values: map<string, Value>,
                         existing: set<string>): Result<seq<string>>
    requires Registered(names, params) && "input_files" in params && "output_db" in params
  {
    match ValidateAll(names, params, values, existing)
    case Fail(e) => Err(e)
    case Pass => Ok(CreateDbArgv(names, params, values))
  }

  // ---------------------------------------------------------------------------
  // The two assembly policies

  /** The values with every non-positional value equal to its default
      replaced by None. */
  function DropDefaults(params: map<string, Parameter>, values: map<string, Value>): (r: map<string, Value>)
    ensures r.Keys == values.Keys
  {
    map n | n in values ::
      if n in params && !IsPositional(params[n].kind) && PyEq(values[n], params[n].default) then VNone else values[n]
  }

  /** The option loop of the overridden `build_command_line` emits exactly
      what the base class's option loop would emit once every value equal to
      its default is taken as None: the only difference between the two
      policies' option segments is the omission of defaults. */
  lemma {:induction false} OptionSegmentsAgree(names: seq<string>, params: map<string, Parameter>,
                                               values: map<string, Value>)
    requires Registered(names, params)
    requires forall k :: 0 <= k < |names| ==> (IsPositional(params[names[k]].kind) <==> IsPositionalName(names[k]))
    ensures NonDefaultTokens(names, params, values)
         == Tokens(Collect(names, params, DropDefaults(params, values), false), FormatForCommandLine)
    decreases |names|
  {
    if names != [] {
      var init, n := names[..|names| - 1], names[|names| - 1];
      assert forall k :: 0 <= k < |init| ==> init[k] == names[k];
      OptionSegmentsAgree(init, params, values);
      var p, dv := params[n], DropDefaults(params, values);
      var c := Collect(init, params, dv, false);
      PyEqReflexive(p.default);
      var v := Get(dv, n);
      if !v.VNone? && !IsPositional(p.kind) {
        assert (c + [(p, v)])[..|c|] == c;
      }
    }
  }

  /** For the createdb table: its option segment is the base class's option
      segment over the values with defaults dropped. */
  lemma TableOptionSegment(values: map<string, Value>)
    ensures NonDefaultTokens(Names, Descriptors, values)
         == Tokens(Collect(Names, Descriptors, DropDefaults(Descriptors, values), false), FormatForCommandLine)
  {
    forall k | 0 <= k < |Names|
      ensures IsPositional(Descriptors[Names[k]].kind) <==> IsPositionalName(Names[k])
    {
      DescriptorShape(Names[k]);
    }
    OptionSegmentsAgree(Names, Descriptors, values);
  }

  // ---------------------------------------------------------------------------
  // What the option segment can never hold

  /** The text of an int or a bool starts with a digit, '-', 'T' or 'F', so it
      is never a long flag. */
  lemma NumberTextIsNotLongFlag(v: Value, flag: string)
    requires IsNumber(v) && |flag| >= 2 && flag[..2] == "--"
    ensures Str(v) != flag
  {
    assert flag[0] == flag[..2][0] == '-' && flag[1] == flag[..2][1] == '-';
    if v.VInt? && Str(v) == flag {
      assert !IsDigit(Str(v)[1]);
    }
  }

  /** For an admissible value, the option loop never emits what the default
      would render as: `-v 3`, `--dbtype 0`, `--createdb-mode 0`,
      `--id-offset 0`, `--shuffle` and `--write-lookup` cannot appear for
      their parameters (`--compressed`, whose default renders nothing, is
      excluded by the second requirement). */
  lemma DefaultRenderingNeverEmitted(n: string, v: Value)
    requires n in Descriptors && !IsPositionalName(n) && Admissible(Descriptors[n], v)
    requires FormatForCommandLine(Descriptors[n], Descriptors[n].default) != []
    ensures OptionChunk(n, Descriptors[n], v) != FormatForCommandLine(Descriptors[n], Descriptors[n].default)
  {
    var p := Descriptors[n];
    PyEqReflexive(p.default);
    if p.kind != FlagParam && !v.VNone? && !PyEq(v, p.default) {
      assert p.valueType == TInt && p.default.VInt? && !p.multiple;
      if OptionChunk(n, p, v) == FormatForCommandLine(p, p.default) {
        assert Str(v) == IntToString(p.default.i);
        if v.VInt? {
          IntToStringInjective(v.i, p.default.i);
        }
      }
    }
  }

  /** A long flag `t` is absent from the chunk of an admissible value when
      no option renders `t` as its flag, and a flag rendered as `t` defaults
      to True: True then equals the default and is skipped, and False
      renders nothing. */
  lemma ChunkOmitsFlag(n: string, p: Parameter, v: Value, t: string)
    requires |t| >= 2 && t[..2] == "--" && Admissible(p, v)
    requires IsPositional(p.kind) ==> IsPositionalName(n)
    requires !IsPositional(p.kind) ==> !p.multiple
    requires p.kind == FlagParam ==> p.valueType == TBool && (p.flag == t ==> p.default == VBool(true))
    requires p.kind == OptionParam ==> p.valueType == TInt && p.flag != t
    ensures t !in OptionChunk(n, p, v)
  {
    PyEqReflexive(p.default);
    if IsPositionalName(n) || v.VNone? || PyEq(v, p.default) {
    } else if p.kind == FlagParam {
      assert v.VBool?;
    } else {
      assert p.kind == OptionParam && IsNumber(v);
      NumberTextIsNotLongFlag(v, t);
    }
  }

  /** An admissible value's chunk never holds `--shuffle` or `--write-lookup`. */
  lemma ChunkOmitsTrueFlags(n: string, v: Value)
    requires n in Descriptors && Admissible(Descriptors[n], v)
    ensures "--shuffle" !in OptionChunk(n, Descriptors[n], v)
    ensures "--write-lookup" !in OptionChunk(n, Descriptors[n], v)
  {
    DescriptorShape(n);
    assert "--shuffle"[..2] == "--write-lookup"[..2] == "--";
    ChunkOmitsFlag(n, Descriptors[n], v, "--shuffle");
    ChunkOmitsFlag(n, Descriptors[n], v, "--write-lookup");
  }

  /** A token no chunk holds is not in the concatenation of the chunks. */
  lemma {:induction false} TokenAbsent(names: seq<string>, params: map<string, Parameter>, values: map<string, Value>,
                                       chunk: (string, Parameter, Value) -> seq<string>, t: string)
    requires Registered(names, params)
    requires forall k :: 0 <= k < |names| ==>
      t !in chunk(names[k], params[names[k]], GetOr(values, names[k], params[names[k]].default))
    ensures t !in NamedTokens(names, params, values, chunk)
    decreases |names|
  {
    if names != [] {
      var init := names[..|names| - 1];
      assert forall k :: 0 <= k < |init| ==> init[k] == names[k];
      TokenAbsent(init, params, values, chunk, t);
    }
  }

  /** With admissible values, `--shuffle` and `--write-lookup` never appear in
      the option segment of the overridden `build_command_line`. */
  lemma TrueFlagsUnreachable(values: map<string, Value>)
    requires AllAdmissible(values)
    ensures "--shuffle" !in NonDefaultTokens(Names, Descriptors, values)
    ensures "--write-lookup" !in NonDefaultTokens(Names, Descriptors, values)
  {
    forall k | 0 <= k < |Names|
      ensures "--shuffle" !in OptionChunk(Names[k], Descriptors[Names[k]], GetOr(values, Names[k], Descriptors[Names[k]].default))
      ensures "--write-lookup" !in OptionChunk(Names[k], Descriptors[Names[k]], GetOr(values, Names[k], Descriptors[Names[k]].default))
    {
      ChunkOmitsTrueFlags(Names[k], GetOr(values, Names[k], Descriptors[Names[k]].default));
    }
    TokenAbsent(Names, Descriptors, values, OptionChunk, "--shuffle");
    TokenAbsent(Names, Descriptors, values, OptionChunk, "--write-lookup");
  }

  /** The defaults with validated values for the two positional parameters
      all validate again. */
  lemma SeededRevalidates(inputs: Value, output: Value, existing: set<string>)
    requires Validate(InputFiles, inputs, existing) == Ok(inputs)
    requires Validate(OutputDb, output, existing) == Ok(output)
    ensures Revalidates(Defaults["input_files" := inputs]["output_db" := output], existing)
  {
    var m := Defaults["input_files" := inputs]["output_db" := output];
    forall n | n in Descriptors
      ensures n in m && Validate(Descriptors[n], m[n], existing).Ok?
    {
      if !IsPositionalName(n) {
        DefaultsValidate(n, existing);
        assert m[n] == Defaults[n];
      }
    }
  }

  /** The state after the two `set_parameter` calls of `__init__` that store
      the inputs and the output. */
  lemma PositionalsStored(files: seq<string>, outputDb: Value, existing: set<string>)
    requires Assign(Descriptors, Defaults, "input_files", VList(StrValues(files)), existing).Ok?
    ensures var m1 := Assign(Descriptors, Defaults, "input_files", VList(StrValues(files)), existing).value;
      && m1 == Defaults["input_files" := VList(StrValues(files))]
      && Assign(Descriptors, m1, "output_db", VStr(Str(outputDb)), existing)
         == Ok(m1["output_db" := VStr(Str(outputDb))])
      && Revalidates(m1["output_db" := VStr(Str(outputDb))], existing)
  {
    ValidatedPathList(InputFiles, StrValues(files), existing);
    SeededRevalidates(VList(StrValues(files)), VStr(Str(outputDb)), existing);
  }

  /** What a successful `__init__` leaves when no keyword names a positional
      parameter (Python itself refuses such a call): the normalised inputs,
      the output path's string, and values that all validate again. */
  lemma InitValuesRevalidate(inputFiles: Value, outputDb: Value, kwargs: seq<(string, Value)>, existing: set<string>)
    requires InitValues(inputFiles, outputDb, kwargs, existing).Ok?
    requires forall k :: 0 <= k < |kwargs| ==> !IsPositionalName(kwargs[k].0)
    ensures Revalidates(InitValues(inputFiles, outputDb, kwargs, existing).value, existing)
    ensures "input_files" in InitValues(inputFiles, outputDb, kwargs, existing).value
    ensures InitValues(inputFiles, outputDb, kwargs, existing).value["input_files"]
         == VList(StrValues(NormaliseInputFiles(inputFiles).value))
    ensures "output_db" in InitValues(inputFiles, outputDb, kwargs, existing).value
    ensures InitValues(inputFiles, outputDb, kwargs, existing).value["output_db"] == VStr(Str(outputDb))
  {
    var files := NormaliseInputFiles(inputFiles).value;
    PositionalsStored(files, outputDb, existing);
    var m2 := Defaults["input_files" := VList(StrValues(files))]["output_db" := VStr(Str(outputDb))];
    assert InitValues(inputFiles, outputDb, kwargs, existing) == SetKeywords(m2, kwargs, existing);
    SetKeywordsKeepRevalidating(m2, kwargs, existing);
    SetKeywordsIsAssignAll(m2, kwargs, existing);
    assert "input_files" !in KeywordNames(kwargs);
    assert "output_db" !in KeywordNames(kwargs);
  }

  /** Values that all validate again pass `validate_parameters`. */
  lemma RevalidatingPasses(values: map<string, Value>, existing: set<string>)
    requires Revalidates(values, existing)
    ensures ValidateAll(Names, Descriptors, values, existing) == Pass
  {
    ValidateAllPasses(Names, Descriptors, values, existing);
  }

  /** A command `__init__` accepted always builds: validation passes again,
      and the vector is "createdb", the input files in order, the output
      database, then the options that differ from their defaults. */
  lemma ConstructedCommandBuilds(inputFiles: Value, outputDb: Value, kwargs: seq<(string, Value)>,
                                 existing: set<string>)
    requires InitValues(inputFiles, outputDb, kwargs, existing).Ok?
    requires forall k :: 0 <= k < |kwargs| ==> !IsPositionalName(kwargs[k].0)
    ensures CreateDbBuild(Names, Descriptors, InitValues(inputFiles, outputDb, kwargs, existing).value, existing)
         == Ok([CommandName] + NormaliseInputFiles(inputFiles).value + [Str(outputDb)]
               + NonDefaultTokens(Names, Descriptors, InitValues(inputFiles, outputDb, kwargs, existing).value))
  {
    var values := InitValues(inputFiles, outputDb, kwargs, existing).value;
    InitValuesRevalidate(inputFiles, outputDb, kwargs, existing);
    RevalidatingPasses(values, existing);
    StrsOfStrValues(NormaliseInputFiles(inputFiles).value);
  }

  /** Whatever keywords `__init__` accepted, `--shuffle` and `--write-lookup`
      never appear among the options the overridden `build_command_line`
      emits. */
  lemma ConstructedCommandOmitsTrueFlags(inputFiles: Value, outputDb: Value, kwargs: seq<(string, Value)>,
                                         existing: set<string>)
    requires InitValues(inputFiles, outputDb, kwargs, existing).Ok?
    ensures "--shuffle" !in NonDefaultTokens(Names, Descriptors, InitValues(inputFiles, outputDb, kwargs, existing).value)
    ensures "--write-lookup" !in NonDefaultTokens(Names, Descriptors, InitValues(inputFiles, outputDb, kwargs, existing).value)
  {
    InitValuesAdmissible(inputFiles, outputDb, kwargs, existing);
    TrueFlagsUnreachable(InitValues(inputFiles, outputDb, kwargs, existing).value);
  }

  /** After a successful `__init__`, each keyword's name holds the value
      `set_parameter` validated for its last occurrence: for instance
      `dbtype=1` leaves 1 stored. */
  lemma InitStoresKeyword(inputFiles: Value, outputDb: Value, kwargs: seq<(string, Value)>, existing: set<string>,
                          k: nat)
    requires InitValues(inputFiles, outputDb, kwargs, existing).Ok?
    requires k < |kwargs| && forall j :: k < j < |kwargs| ==> kwargs[j].0 != kwargs[k].0
    ensures kwargs[k].0 in Descriptors && Validate(Descriptors[kwargs[k].0], kwargs[k].1, existing).Ok?
    ensures kwargs[k].0 in InitValues(inputFiles, outputDb, kwargs, existing).value
    ensures InitValues(inputFiles, outputDb, kwargs, existing).value[kwargs[k].0]
         == Validate(Descriptors[kwargs[k].0], kwargs[k].1, existing).value
  {
    var files := NormaliseInputFiles(inputFiles).value;
    var m1 := Assign(Descriptors, Defaults, "input_files", VList(StrValues(files)), existing).value;
    var m2 := Assign(Descriptors, m1, "output_db", VStr(Str(outputDb)), existing).value;
    assert InitValues(inputFiles, outputDb, kwargs, existing) == SetKeywords(m2, kwargs, existing);
    SetKeywordsIsAssignAll(m2, kwargs, existing);
    AssignAllStoresLast(Descriptors, m2, kwargs, existing, k);
  }

  /** A failing `__init__` that got past the two positional parameters fails
      with the error of the first keyword whose `set_parameter` fails, all
      the earlier keywords having been set. The input files may be one path
      or a list of them. */
  lemma InitFailsAtFirstKeyword(inputFiles: Value, outputDb: Value, kwargs: seq<(string, Value)>,
                                existing: set<string>)
    requires NormaliseInputFiles(inputFiles).Ok?
    requires Assign(Descriptors, Defaults, "input_files", VList(StrValues(NormaliseInputFiles(inputFiles).value)),
                    existing).Ok?
    requires InitValues(inputFiles, outputDb, kwargs, existing).Err?
    ensures var m2 := Defaults["input_files" := VList(StrValues(NormaliseInputFiles(inputFiles).value))]
                              ["output_db" := VStr(Str(outputDb))];
      exists k :: 0 <= k < |kwargs|
                  && FailsAt(Descriptors, m2, kwargs, existing, k, InitValues(inputFiles, outputDb, kwargs, existing).error)
  {
    var files := NormaliseInputFiles(inputFiles).value;
    PositionalsStored(files, outputDb, existing);
    var m2 := Defaults["input_files" := VList(StrValues(files))]["output_db" := VStr(Str(outputDb))];
    assert InitValues(inputFiles, outputDb, kwargs, existing) == SetKeywords(m2, kwargs, existing);
    SetKeywordsIsAssignAll(m2, kwargs, existing);
    AssignAllFirstFailure(Descriptors, m2, kwargs, existing);
  }

  /** The keyword loop succeeds only when every key is registered, and an
      "Unknown parameter" failure names a keyword that is not. */
  lemma SetKeywordsRejectUnknown(values: map<string, Value>, kwargs: seq<(string, Value)>, existing: set<string>)
    ensures SetKeywords(values, kwargs, existing).Ok? ==> forall k :: 0 <= k < |kwargs| ==> kwargs[k].0 in Descriptors
    ensures SetKeywords(values, kwargs, existing).Err? && SetKeywords(values, kwargs, existing).error.UnknownParameter? ==>
      exists k :: 0 <= k < |kwargs| && kwargs[k].0 == SetKeywords(values, kwargs, existing).error.name
                  && kwargs[k].0 !in Descriptors
  {
    SetKeywordsOnlyRegistered(values, kwargs, existing);
    SetKeywordsUnknownNamed(values, kwargs, existing);
  }

  lemma {:induction false} SetKeywordsOnlyRegistered(values: map<string, Value>, kwargs: seq<(string, Value)>,
                                                     existing: set<string>)
    ensures SetKeywords(values, kwargs, existing).Ok? ==> forall k :: 0 <= k < |kwargs| ==> kwargs[k].0 in Descriptors
    decreases |kwargs|
  {
    if kwargs != [] && kwargs[0].0 in Descriptors {
      match Assign(Descriptors, values, kwargs[0].0, kwargs[0].1, existing)
      case Err(_) =>
      case Ok(m) =>
        var rest := kwargs[1..];
        SetKeywordsOnlyRegistered(m, rest, existing);
        if SetKeywords(m, rest, existing).Ok? {
          forall k | 1 <= k < |kwargs| ensures kwargs[k].0 in Descriptors {
            assert kwargs[k] == rest[k - 1];
          }
        }
    }
  }

  lemma {:induction false} SetKeywordsUnknownNamed(values: map<string, Value>, kwargs: seq<(string, Value)>,
                                                   existing: set<string>)
    ensures SetKeywords(values, kwargs, existing).Err? && SetKeywords(values, kwargs, existing).error.UnknownParameter? ==>
      exists k :: 0 <= k < |kwargs| && kwargs[k].0 == SetKeywords(values, kwargs, existing).error.name
                  && kwargs[k].0 !in Descriptors
    decreases |kwargs|
  {
    if kwargs != [] && kwargs[0].0 in Descriptors {
      match Assign(Descriptors, values, kwargs[0].0, kwargs[0].1, existing)
      case Err(_) =>
      case Ok(m) =>
        var rest, r := kwargs[1..], SetKeywords(m, kwargs[1..], existing);
        SetKeywordsUnknownNamed(m, rest, existing);
        if r.Err? && r.error.UnknownParameter? {
          var j :| 0 <= j < |rest| && rest[j].0 == r.error.name && rest[j].0 !in Descriptors;
          assert kwargs[j + 1] == rest[j];
        }
    }
  }

  /** `__init__` with a keyword that is not registered raises; an "Unknown
      parameter" error always names such a keyword. */
  lemma UnknownKeywordRejected(inputFiles: Value, outputDb: Value, kwargs: seq<(string, Value)>, existing: set<string>)
    ensures (exists k :: 0 <= k < |kwargs| && kwargs[k].0 !in Descriptors) ==>
      InitValues(inputFiles, outputDb, kwargs, existing).Err?
    ensures (InitValues(inputFiles, outputDb, kwargs, existing).Err?
             && InitValues(inputFiles, outputDb, kwargs, existing).error.UnknownParameter?) ==>
      exists k :: 0 <= k < |kwargs| && kwargs[k].0 == InitValues(inputFiles, outputDb, kwargs, existing).error.name
                  && kwargs[k].0 !in Descriptors
  {
    var files := NormaliseInputFiles(inputFiles);
    if files.Ok? {
      var m1 := Assign(Descriptors, Defaults, "input_files", VList(StrValues(files.value)), existing);
      if m1.Ok? {
        var m2 := Assign(Descriptors, m1.value, "output_db", VStr(Str(outputDb)), existing);
        if m2.Ok? {
          SetKeywordsRejectUnknown(m2.value, kwargs, existing);
        }
      }
    }
  }

  // ---------------------------------------------------------------------------
  // The loops of build_command_line

  /** `cmd_line.extend(input_files)` for a list of strings. */
  function Texts(xs: seq<Value>): (r: seq<string>)
    requires forall k :: 0 <= k < |xs| ==> xs[k].VStr?
    ensures r == Strs(xs)
  {
    seq(|xs|, k requires 0 <= k < |xs| => xs[k].s)
  }

  /** The option loop of the overridden `build_command_line`. */
  method AppendNonDefault(cmdLine: seq<string>, names: seq<string>, params: map<string, Parameter>,
                          values: map<string, Value>) returns (r: seq<string>)
    requires Registered(names, params)
    ensures r == cmdLine + NonDefaultTokens(names, params, values)
  {
    r := cmdLine;
    var i := 0;
    while i < |names|
      invariant 0 <= i <= |names|
      invariant r == cmdLine + NamedTokens(names[..i], params, values, OptionChunk)
    {
      var name := names[i];
      var param := params[name];
      ghost var before, chunk := r, OptionChunk(name, param, GetOr(values, name, param.default));
      assert names[..i + 1][..i] == names[..i];
      assert NamedTokens(names[..i + 1], params, values, OptionChunk)
          == NamedTokens(names[..i], params, values, OptionChunk) + chunk;
      if !IsPositionalName(name) {
        var value := GetOr(values, name, param.default);
        if !value.VNone? && !PyEq(value, param.default) {
          r := r + FormatForCommandLine(param, value);
        }
      }
      assert r == before + chunk;
      i := i + 1;
    }
    assert names[..|names|] == names;
  }

  /** The assembly part of the overridden `build_command_line`, once
      validation has passed; values are read as `get_parameter` reads them. */
  method Assemble(names: seq<string>, params: map<string, Parameter>, values: map<string, Value>)
    returns (cmdLine: seq<string>)
    requires Registered(names, params) && "input_files" in params && "output_db" in params
    requires "input_files" in values && InputsAreStrings(values)
    ensures cmdLine == CreateDbArgv(names, params, values)
  {
    cmdLine := [CommandName];
    var inputs := GetOr(values, "input_files", params["input_files"].default);
    if inputs.VList? {
      cmdLine := cmdLine + Texts(inputs.items);
    } else {
      cmdLine := cmdLine + [Str(inputs)];
    }
    cmdLine := cmdLine + [Str(GetOr(values, "output_db", params["output_db"].default))];
    cmdLine := AppendNonDefault(cmdLine, names, params, values);
  }

  // ---------------------------------------------------------------------------
  // CreateDBCommand

  /** `_init_parameters`: nine `add_parameter` calls on the empty registry,
      which leave the nine names registered in table order, each holding its
      default. */
  method InitParameters(registry: Command)
    requires registry.Valid() && registry.State() == Registry([], map[], map[])
    modifies registry
    ensures registry.Valid() && registry.State() == Registry(Names, Descriptors, Defaults)
  {
    ghost var s0 := registry.State();
    assert s0 == Registry([], map[], map[]);
    registry.AddParameter(InputFiles);
    ghost var s1 := registry.State();
    registry.AddParameter(OutputDb);
    ghost var s2 := registry.State();
    registry.AddParameter(DbType);
    ghost var s3 := registry.State();
    registry.AddParameter(Shuffle);
    ghost var s4 := registry.State();
    registry.AddParameter(CreatedbMode);
    ghost var s5 := registry.State();
    registry.AddParameter(IdOffset);
    ghost var s6 := registry.State();
    registry.AddParameter(Compressed);
    ghost var s7 := registry.State();
    registry.AddParameter(Verbosity);
    ghost var s8 := registry.State();
    registry.AddParameter(WriteLookup);
    ghost var s9 := registry.State();
    TableRegistration();
    assert s9 == Registry(Names, Descriptors, Defaults);
  }

  /** A createdb command: the base registry, holding exactly the nine
      descriptors, with admissible values as `validate_value` produces them
      (so `--shuffle` and `--write-lookup` stay out of its option segment,
      `TrueFlagsUnreachable`). The registration
      order is fixed by the constructor; no method changes it, since each
      may modify only `base.values`. */
  class CreateDbCommand {
    const base: Command

    ghost predicate Valid()
      reads this, base
    {
      && base.Valid()
      && base.commandName == CommandName
      && base.parameters == Descriptors
      && AllAdmissible(base.values)
      && InputsAreStrings(base.values)
    }

    /** `super().__init__()`, which runs `_init_parameters`: nine
        `add_parameter` calls, so the nine names are registered in table order
        and each holds its default. */
    constructor ()
      ensures Valid() && fresh(base)
      ensures base.order == Names && base.values == Defaults
    {
      var registry := new Command(CommandName);
      InitParameters(registry);
      base := registry;
      DefaultsAdmissible();
    }

    /** `set_parameter` on the registry; the stored values stay admissible. */
    method SetParameter(name: string, v: Value, existing: set<string>) returns (r: Status)
      requires Valid()
      modifies base`values
      ensures Valid()
      ensures r.Pass? <==> Assign(Descriptors, old(base.values), name, v, existing).Ok?
      ensures r.Fail? ==> r.error == Assign(Descriptors, old(base.values), name, v, existing).error
      ensures r.Fail? ==> base.values == old(base.values)
      ensures r.Pass? ==> base.values == Assign(Descriptors, old(base.values), name, v, existing).value
    {
      if name in Descriptors {
        DescriptorShape(name);
        ValidatedValueShape(name, v, existing);
      }
      AssignKeepsAdmissible(base.values, name, v, existing);
      r := base.SetParameter(name, v, existing);
    }

    /** The body of `__init__` after `super().__init__()`. */
    method Init(inputFiles: Value, outputDb: Value, kwargs: seq<(string, Value)>, existing: set<string>)
      returns (r: Status)
      requires Valid() && base.values == Defaults
      modifies base`values
      ensures Valid()
      ensures r.Pass? <==> InitValues(inputFiles, outputDb, kwargs, existing).Ok?
      ensures r.Fail? ==> r.error == InitValues(inputFiles, outputDb, kwargs, existing).error
      ensures r.Pass? ==> base.values == InitValues(inputFiles, outputDb, kwargs, existing).value
    {
      var files: seq<string>;
      if inputFiles.VStr? {
        files := [inputFiles.s];
      } else if inputFiles.VList? {
        files := Strs(inputFiles.items);
      } else {
        return Fail(NotIterable(inputFiles));
      }
      assert NormaliseInputFiles(inputFiles) == Ok(files);
      r := SetParameter("input_files", VList(StrValues(files)), existing);
      if r.Fail? {
        return;
      }
      ghost var withInputs := base.values;
      r := SetParameter("output_db", VStr(Str(outputDb)), existing);
      if r.Fail? {
        return;
      }
      assert Assign(Descriptors, Defaults, "input_files", VList(StrValues(files)), existing) == Ok(withInputs);
      assert Assign(Descriptors, withInputs, "output_db", VStr(Str(outputDb)), existing) == Ok(base.values);
      assert InitValues(inputFiles, outputDb, kwargs, existing) == SetKeywords(base.values, kwargs, existing);
      r := SetKeywordArgs(kwargs, existing);
    }

    /** The keyword loop of `__init__`: an unregistered key raises "Unknown
        parameter"; each registered one is set in turn. */
    method SetKeywordArgs(kwargs: seq<(string, Value)>, existing: set<string>) returns (r: Status)
      requires Valid()
      modifies base`values
      ensures Valid()
      ensures r.Pass? <==> SetKeywords(old(base.values), kwargs, existing).Ok?
      ensures r.Fail? ==> r.error == SetKeywords(old(base.values), kwargs, existing).error
      ensures r.Pass? ==> base.values == SetKeywords(old(base.values), kwargs, existing).value
    {
      ghost var target := SetKeywords(base.values, kwargs, existing);
      assert kwargs[0..] == kwargs;
      var i := 0;
      while i < |kwargs|
        invariant 0 <= i <= |kwargs|
        invariant Valid()
        invariant target == SetKeywords(base.values, kwargs[i..], existing)
      {
        assert kwargs[i..][1..] == kwargs[i + 1..];
        var (key, value) := kwargs[i];
        if key !in base.parameters {
          return Fail(UnknownParameter(key));
        }
        ghost var before := base.values;
        r := SetParameter(key, value, existing);
        if r.Fail? {
          return;
        }
        assert SetKeywords(before, kwargs[i..], existing) == SetKeywords(base.values, kwargs[i + 1..], existing);
        i := i + 1;
      }
      r := Pass;
    }

    /** The overridden `build_command_line`. */
    method BuildCommandLine(existing: set<string>) returns (r: Result<seq<string>>)
      requires Valid()
      ensures r == CreateDbBuild(base.order, base.parameters, base.values, existing)
    {
      var status := base.ValidateParameters(existing);
      if status.Fail? {
        return Err(status.error);
      }
      var cmdLine := Assemble(base.order, base.parameters, base.values);
      r := Ok(cmdLine);
    }

    /** The inherited `run`, which calls the overridden `build_command_line`. */
    method Run(binary: string, existing: set<string>, check: bool, done: Completion)
      returns (r: Result<CommandResult>)
      requires Valid()
      ensures r == Finish(binary, CreateDbBuild(base.order, base.parameters, base.values, existing), check, done)
    {
      var argv := BuildCommandLine(existing);
      if argv.Err? {
        return Err(argv.error);
      }
      var fullCommand := [binary] + argv.value;
      var result := CommandResult(done.returncode, OrEmpty(done.stdout), OrEmpty(done.stderr), fullCommand);
      if check && !result.Succeeded() {
        return Err(CalledProcessError(done.returncode, fullCommand, done.stdout, done.stderr));
      }
      r := Ok(result);
    }
  }

  /** `CreateDBCommand(input_files, output_db, **kwargs)`: a fresh command
      holding the values `__init__` leaves, or the exception it raises. */
  method Create(inputFiles: Value, outputDb: Value, kwargs: seq<(string, Value)>, existing: set<string>)
    returns (r: Result<CreateDbCommand>)
    ensures r.Ok? <==> InitValues(inputFiles, outputDb, kwargs, existing).Ok?
    ensures r.Err? ==> r.error == InitValues(inputFiles, outputDb, kwargs, existing).error
    ensures r.Ok? ==> fresh(r.value) && fresh(r.value.base) && r.value.Valid() && r.value.base.order == Names
    ensures r.Ok? ==> r.value.base.values == InitValues(inputFiles, outputDb, kwargs, existing).value
  {
    var cmd := new CreateDbCommand();
    var status := cmd.Init(inputFiles, outputDb, kwargs, existing);
    if status.Fail? {
      return Err(status.error);
    }
    r := Ok(cmd);
  }

  // ---------------------------------------------------------------------------
  // Facts about the table

  /** Each registered descriptor is stored under its own name, has no custom
      validator, and only `input_files` and `output_db` are files. */
  lemma DescriptorShape(n: string)
    requires n in Descriptors
    ensures Descriptors[n].name == n && Descriptors[n].validator.None?
    ensures IsPositional(Descriptors[n].kind) <==> IsPositionalName(n)
    ensures n == "input_files" ==> Descriptors[n] == InputFiles
  {
  }

  /** The nine `add_parameter` calls of `_init_parameters`, applied to the empty
      registry, register the nine names in table order with their defaults. */
  lemma TableRegistration()
    ensures Add(Add(Add(Add(Add(Add(Add(Add(Add(Registry([], map[], map[]), InputFiles), OutputDb), DbType),
              Shuffle), CreatedbMode), IdOffset), Compressed), Verbosity), WriteLookup)
         == Registry(Names, Descriptors, Defaults)
  {
    NineFreshAdds(InputFiles, OutputDb, DbType, Shuffle, CreatedbMode, IdOffset, Compressed, Verbosity, WriteLookup);
  }

  /** The defaults `_init_parameters` seeds are admissible values. */
  lemma DefaultsAdmissible()
    ensures AllAdmissible(Defaults) && InputsAreStrings(Defaults)
  {
    forall n | n in Defaults && n in Descriptors
      ensures Admissible(Descriptors[n], Defaults[n])
    {
      assert Defaults[n] == Descriptors[n].default;
    }
  }

  /** A value `set_parameter` stores for a registered name is admissible, and
      one stored for `input_files` that is a list holds only strings. */
  lemma ValidatedValueShape(n: string, v: Value, existing: set<string>)
    requires n in Descriptors
    ensures Validate(Descriptors[n], v, existing).Ok? ==> Admissible(Descriptors[n], Validate(Descriptors[n], v, existing).value)
    ensures n == "input_files" && Validate(InputFiles, v, existing).Ok? && Validate(InputFiles, v, existing).value.VList? ==>
      forall k :: 0 <= k < |Validate(InputFiles, v, existing).value.items| ==>
        Validate(InputFiles, v, existing).value.items[k].VStr?
  {
    DescriptorShape(n);
    if n == "input_files" && v.VList? && Validate(InputFiles, v, existing).Ok? {
      ValidatedPathList(InputFiles, v.items, existing);
    }
  }

  // ---------------------------------------------------------------------------
  // Choice constraints

  /** The integer an int option reads a value as: an int itself, a bool as 0
      or 1, a string through `int()`; None and lists have none. */
  function IntOf(v: Value): Option<int> {
    match v
    case VInt(i) => Some(i)
    case VBool(b) => Some(if b then 1 else 0)
    case VStr(s) => ParseInt(s)
    case _ => None
  }

  /** The choices list `[0, 1, ..., hi]`. */
  function IntRange(hi: nat): (r: seq<Value>)
    ensures |r| == hi + 1 && forall k :: 0 <= k <= hi ==> r[k] == VInt(k)
  {
    seq(hi + 1, k requires 0 <= k <= hi => VInt(k))
  }

  /** A value is among `[0, ..., hi]` exactly when it is a number from 0 to hi
      (True counts as 1 and False as 0). */
  lemma InIntRange(c: Value, hi: nat)
    ensures InChoices(c, IntRange(hi)) <==> IsNumber(c) && 0 <= NumberOf(c) <= hi
  {
    var choices := IntRange(hi);
    if IsNumber(c) && 0 <= NumberOf(c) <= hi {
      assert PyEq(c, choices[NumberOf(c)]);
    }
  }

  /** The coercion step of an int option succeeds exactly on values with an
      integer reading, and keeps that number. */
  lemma CoerceIntOption(p: Parameter, v: Value)
    requires p.valueType == TInt && !p.multiple && !v.VNone?
    ensures CoerceFor(p, v).Some? <==> IntOf(v).Some?
    ensures CoerceFor(p, v).Some? ==>
      IsNumber(CoerceFor(p, v).value) && NumberOf(CoerceFor(p, v).value) == IntOf(v).value
  {
  }

  /** `validate_value` on an int option with choices `[0, ..., hi]`: None gives
      the default; a value with no integer reading fails coercion; one outside
      0..hi is not a choice; the rest pass and keep their number. */
  lemma {:induction false} IntChoiceValidation(p: Parameter, v: Value, existing: set<string>, hi: nat)
    requires p.kind == OptionParam && p.valueType == TInt && !p.multiple && !p.required && p.validator.None?
    requires p.choices == Some(IntRange(hi))
    ensures Validate(p, v, existing).Ok? <==> v.VNone? || (IntOf(v).Some? && 0 <= IntOf(v).value <= hi)
    ensures !v.VNone? && IntOf(v).None? ==> Validate(p, v, existing) == Err(CoercionFailed(p.name, TInt))
    ensures !v.VNone? && IntOf(v).Some? && !(0 <= IntOf(v).value <= hi) ==>
      Validate(p, v, existing).Err? && Validate(p, v, existing).error.NotAChoice?
    ensures !v.VNone? && Validate(p, v, existing).Ok? ==>
      IsNumber(Validate(p, v, existing).value) && NumberOf(Validate(p, v, existing).value) == IntOf(v).value
  {
    if !v.VNone? {
      CoerceIntOption(p, v);
      if CoerceFor(p, v).Some? {
        InIntRange(CoerceFor(p, v).value, hi);
      }
    }
  }

  /** `set_parameter` on `dbtype`, `createdb_mode` and `v` accepts None or a
      value whose integer reading is in 0..2, 0..1 and 0..3 respectively, and
      rejects every other value; `id_offset` only needs an integer reading. */
  lemma ChoiceConstraints(values: map<string, Value>, v: Value, existing: set<string>)
    ensures Assign(Descriptors, values, "dbtype", v, existing).Ok?
        <==> v.VNone? || (IntOf(v).Some? && 0 <= IntOf(v).value <= 2)
    ensures Assign(Descriptors, values, "createdb_mode", v, existing).Ok?
        <==> v.VNone? || (IntOf(v).Some? && 0 <= IntOf(v).value <= 1)
    ensures Assign(Descriptors, values, "v", v, existing).Ok?
        <==> v.VNone? || (IntOf(v).Some? && 0 <= IntOf(v).value <= 3)
    ensures Assign(Descriptors, values, "id_offset", v, existing).Ok? <==> v.VNone? || IntOf(v).Some?
  {
    assert DbType.choices.value == IntRange(2);
    assert CreatedbMode.choices.value == IntRange(1);
    assert Verbosity.choices.value == IntRange(3);
    IntChoiceValidation(DbType, v, existing, 2);
    IntChoiceValidation(CreatedbMode, v, existing, 1);
    IntChoiceValidation(Verbosity, v, existing, 3);
    if !v.VNone? {
      CoerceIntOption(IdOffset, v);
    }
  }
}
