/** `MmseqsParameter` of pymmseqs/application.py: the descriptor of one MMseqs2
    command-line argument, the validation of a candidate value against it, its
    rendering as argument tokens, and the `create_*_parameter` factories that
    derive a default flag from the parameter name. */
module Parameters {
  import opened PyValues

  /** The exceptions the wrapper raises, one constructor per cause. */
  datatype Error =
    | BadParamType(paramType: string)                // ValueError from __post_init__
    | MissingRequired(name: string)                  // ValueError: "is required"
    | CoercionFailed(name: string, valueType: ValueType) // ValueError: "expected <type>"
    | NotAChoice(name: string, value: Value)         // ValueError: "must be one of"
    | InputFileNotFound(path: string)                // FileNotFoundError
    | PathTypeError(value: Value)                    // TypeError raised by Path(value)
    | ValidationFailed(name: string)                 // ValueError wrapping validation_func
    | UnknownParameter(name: string)                 // ValueError: "Unknown parameter"
    | NotIterable(value: Value)                      // TypeError iterating input_files
    | CalledProcessError(returncode: int, cmd: seq<string>, stdout: Option<string>, stderr: Option<string>)

  datatype Result<T> = Ok(value: T) | Err(error: Error)

  datatype Status = Pass | Fail(error: Error)

  /** `param_type`: exactly one of four kinds. */
  datatype ParamKind = FlagParam | OptionParam | InputFileParam | OutputFileParam

  /** The descriptor. `validator` is the optional `validation_func`; a `None`
      result stands for the callable raising. The `description` field has no
      behaviour and is not kept. */
  datatype Parameter = Parameter(
    name: string,
    flag: string,
    kind: ParamKind,
    valueType: ValueType,
    default: Value,
    choices: Option<seq<Value>>,
    required: bool,
    multiple: bool,
    validator: Option<Value -> Option<Value>>)

  /** The spelling of a kind as the source writes `param_type`. */
  function KindName(k: ParamKind): (s: string)
    ensures ParseKind(s) == Some(k)
  {
    match k
    case FlagParam => "flag"
    case OptionParam => "option"
    case InputFileParam => "input_file"
    case OutputFileParam => "output_file"
  }

  /** The kind a `param_type` string names, if it names one. */
  function ParseKind(s: string): (r: Option<ParamKind>)
    ensures r.Some? <==> s in ["flag", "option", "input_file", "output_file"]
  {
    if s == "flag" then Some(FlagParam)
    else if s == "option" then Some(OptionParam)
    else if s == "input_file" then Some(InputFileParam)
    else if s == "output_file" then Some(OutputFileParam)
    else None
  }

  /** The dataclass constructor followed by `__post_init__`, which refuses a
      `param_type` outside the four kinds. */
  function NewParameter(
    name: string, flag: string, paramType: string, valueType: ValueType, default: Value,
    choices: Option<seq<Value>>, required: bool, multiple: bool,
    validator: Option<Value -> Option<Value>>): (r: Result<Parameter>)
    ensures r.Err? <==> paramType !in ["flag", "option", "input_file", "output_file"]
    ensures r.Err? ==> r.error == BadParamType(paramType)
    ensures r.Ok? ==> KindName(r.value.kind) == paramType
    ensures r.Ok? ==>
      && r.value.name == name && r.value.flag == flag && r.value.valueType == valueType
      && r.value.default == default && r.value.choices == choices && r.value.required == required
      && r.value.multiple == multiple && r.value.validator == validator
  {
    match ParseKind(paramType)
    case None => Err(BadParamType(paramType))
    case Some(k) => Ok(Parameter(name, flag, k, valueType, default, choices, required, multiple, validator))
  }

  // ---------------------------------------------------------------------------
  // validate_value

  /** The coercion step: a value that already has the declared type, or a list
      given to a `multiple` parameter, is kept; anything else goes through
      `value_type(value)`. */
  function CoerceFor(p: Parameter, v: Value): Option<Value> {
    if IsInstance(v, p.valueType) || (p.multiple && v.VList?) then Some(v)
    else Coerce(p.valueType, v)
  }

  /** `Path(v).exists()` against the set of paths that exist; a non-string
      has no path. */
  predicate PathExists(v: Value, existing: set<string>) {
    v.VStr? && v.s in existing
  }

  /** What checking one path raises when it fails. */
  function PathError(v: Value): Error {
    if v.VStr? then InputFileNotFound(v.s) else PathTypeError(v)
  }

  /** Checks the paths in order and stops at the first one that fails. */
  function CheckPaths(xs: seq<Value>, existing: set<string>): (r: Status)
    ensures r.Pass? <==> forall k :: 0 <= k < |xs| ==> PathExists(xs[k], existing)
    ensures r.Fail? ==> exists k ::
      && 0 <= k < |xs| && !PathExists(xs[k], existing)
      && (forall j :: 0 <= j < k ==> PathExists(xs[j], existing))
      && r.error == PathError(xs[k])
    decreases |xs|
  {
    if xs == [] then Pass
    else if !PathExists(xs[0], existing) then Fail(PathError(xs[0]))
    else
      var r := CheckPaths(xs[1..], existing);
      assert forall k :: 1 <= k < |xs| ==> xs[k] == xs[1..][k - 1];
      r
  }

  /** The paths an input-file value names: each element of a list given to a
      `multiple` parameter, otherwise the value itself. */
  function PathItems(p: Parameter, c: Value): seq<Value> {
    if p.multiple && c.VList? then c.items else [c]
  }

  /** The file-existence step: only an `input_file` parameter with a truthy
      value is checked, so "" and [] skip it. */
  function CheckInputFiles(p: Parameter, c: Value, existing: set<string>): (r: Status)
    ensures r.Pass? <==> (p.kind != InputFileParam || !Truthy(c)
      || forall k :: 0 <= k < |PathItems(p, c)| ==> PathExists(PathItems(p, c)[k], existing))
    ensures r.Fail? ==> exists k ::
      && 0 <= k < |PathItems(p, c)| && !PathExists(PathItems(p, c)[k], existing)
      && (forall j :: 0 <= j < k ==> PathExists(PathItems(p, c)[j], existing))
      && r.error == PathError(PathItems(p, c)[k])
  {
    if p.kind == InputFileParam && Truthy(c) then CheckPaths(PathItems(p, c), existing)
    else Pass
  }

  /** What a stored value can be without a custom validator: the default, a
      value of the declared type, or a list on a `multiple` parameter. */
  predicate Admissible(p: Parameter, v: Value) {
    v == p.default || IsInstance(v, p.valueType) || (p.multiple && v.VList?)
  }

  /** `validate_value`: None gives the default (or fails when required);
      otherwise coercion, the choices check, the input-file check and the
      custom validator, in that order. */
  function Validate(p: Parameter, v: Value, existing: set<string>): (r: Result<Value>)
    ensures v.VNone? ==> r == (if p.required then Err(MissingRequired(p.name)) else Ok(p.default))
    ensures !v.VNone? && CoerceFor(p, v).None? ==> r == Err(CoercionFailed(p.name, p.valueType))
    ensures !v.VNone? && CoerceFor(p, v).Some? && p.choices.Some?
      && !InChoices(CoerceFor(p, v).value, p.choices.value)
      ==> r == Err(NotAChoice(p.name, CoerceFor(p, v).value))
    ensures !v.VNone? && CoerceFor(p, v).Some?
      && (p.choices.Some? ==> InChoices(CoerceFor(p, v).value, p.choices.value))
      && CheckInputFiles(p, CoerceFor(p, v).value, existing).Fail?
      ==> r == Err(CheckInputFiles(p, CoerceFor(p, v).value, existing).error)
    ensures !v.VNone? && CoerceFor(p, v).Some?
      && (p.choices.Some? ==> InChoices(CoerceFor(p, v).value, p.choices.value))
      && CheckInputFiles(p, CoerceFor(p, v).value, existing).Pass? && p.validator.Some?
      ==> r == (match p.validator.value(CoerceFor(p, v).value)
                case None => Err(ValidationFailed(p.name))
                case Some(w) => Ok(w))
    ensures !v.VNone? && r.Ok? ==>
      && CoerceFor(p, v).Some?
      && (p.choices.Some? ==> InChoices(CoerceFor(p, v).value, p.choices.value))
      && CheckInputFiles(p, CoerceFor(p, v).value, existing).Pass?
      && (p.validator.None? ==> r.value == CoerceFor(p, v).value)
    ensures !v.VNone? && CoerceFor(p, v).Some? && p.validator.None?
      && (p.choices.Some? ==> InChoices(CoerceFor(p, v).value, p.choices.value))
      && CheckInputFiles(p, CoerceFor(p, v).value, existing).Pass?
      ==> r == Ok(CoerceFor(p, v).value)
    ensures !v.VNone? && IsInstance(v, p.valueType) && p.validator.None?
      && (p.choices.Some? ==> InChoices(v, p.choices.value))
      && CheckInputFiles(p, v, existing).Pass?
      ==> r == Ok(v)
    ensures r.Ok? && p.validator.None? ==> Admissible(p, r.value)
  {
    if v.VNone? then
      if p.required then Err(MissingRequired(p.name)) else Ok(p.default)
    else
      match CoerceFor(p, v)
      case None => Err(CoercionFailed(p.name, p.valueType))
      case Some(c) =>
        if p.choices.Some? && !InChoices(c, p.choices.value) then Err(NotAChoice(p.name, c))
        else
          match CheckInputFiles(p, c, existing)
          case Fail(e) => Err(e)
          case Pass =>
            match p.validator
            case None => Ok(c)
            case Some(f) =>
              match f(c)
              case None => Err(ValidationFailed(p.name))
              case Some(w) => Ok(w)
  }

  /** A non-empty list validated for a multiple input-file parameter holds
      only strings, each naming an existing path. */
  lemma ValidatedPathList(p: Parameter, xs: seq<Value>, existing: set<string>)
    requires p.kind == InputFileParam && p.multiple && p.validator.None?
    requires Validate(p, VList(xs), existing).Ok?
    ensures Validate(p, VList(xs), existing) == Ok(VList(xs))
    ensures forall k :: 0 <= k < |xs| ==> xs[k].VStr? && xs[k].s in existing
  {
  }

  /** An int parameter given the text of a number accepts it as that number:
      `validate_value("42")` returns 42 when no choices, file check or
      validator intervene. */
  lemma ValidateIntText(p: Parameter, i: int, existing: set<string>)
    requires p.valueType == TInt && p.kind != InputFileParam
    requires p.choices.None? && p.validator.None?
    ensures Validate(p, VStr(IntToString(i)), existing) == Ok(VInt(i))
  {
    IntToStringRoundTrip(i);
  }

  /** Validating a value that `validate_value` returned (for a non-None
      input, without a custom validator) gives it back unchanged, so
      `validate_parameters` accepts what `set_parameter` stored. */
  lemma ValidateIdempotent(p: Parameter, v: Value, existing: set<string>)
    requires p.validator.None? && !v.VNone? && Validate(p, v, existing).Ok?
    ensures Validate(p, Validate(p, v, existing).value, existing) == Validate(p, v, existing)
  {
  }

  // ---------------------------------------------------------------------------
  // format_for_command_line

  /** `flag, str(x)` for each element, in order. */
  function FlagPairs(flag: string, xs: seq<Value>): (r: seq<string>)
    ensures |r| == 2 * |xs|
    ensures forall k :: 0 <= k < |xs| ==> r[2 * k] == flag && r[2 * k + 1] == Str(xs[k])
    decreases |xs|
  {
    if xs == [] then []
    else
      var rest := FlagPairs(flag, xs[1..]);
      var r := [flag, Str(xs[0])] + rest;
      assert forall k :: 1 <= k < |xs| ==> r[2 * k] == flag && r[2 * k + 1] == Str(xs[k]) by {
        forall k | 1 <= k < |xs|
          ensures r[2 * k] == flag && r[2 * k + 1] == Str(xs[k])
        {
          var j := k - 1;
          assert xs[1..][j] == xs[k];
          assert r[2 * k] == rest[2 * j] && r[2 * k + 1] == rest[2 * j + 1];
        }
      }
      r
  }

  /** `format_for_command_line`. */
  function FormatForCommandLine(p: Parameter, v: Value): (r: seq<string>)
    ensures v.VNone? ==> r == []
    ensures p.kind == FlagParam ==> r == (if Truthy(v) then [p.flag] else [])
    ensures p.kind != FlagParam && !v.VNone? && !(p.multiple && v.VList?) ==> r == [p.flag, Str(v)]
    ensures p.kind != FlagParam && p.multiple && v.VList? ==>
      |r| == 2 * |v.items|
      && forall k :: 0 <= k < |v.items| ==> r[2 * k] == p.flag && r[2 * k + 1] == Str(v.items[k])
  {
    if v.VNone? || (p.kind == FlagParam && !Truthy(v)) then []
    else if p.kind == FlagParam then [p.flag]
    else if p.multiple && v.VList? then FlagPairs(p.flag, v.items)
    else [p.flag, Str(v)]
  }

  // ---------------------------------------------------------------------------
  // The create_*_parameter factories

  /** `name.replace('_', '-')`. */
  function Dashed(name: string): (r: string)
    ensures |r| == |name|
    ensures forall k :: 0 <= k < |name| ==> r[k] == (if name[k] == '_' then '-' else name[k])
    decreases |name|
  {
    if name == [] then []
    else
      var rest := Dashed(name[1..]);
      assert forall k :: 1 <= k < |name| ==> name[1..][k - 1] == name[k];
      [if name[0] == '_' then '-' else name[0]] + rest
  }

  /** The flag derived when none is given to the file factories. */
  function LongFlag(name: string): string {
    "--" + Dashed(name)
  }

  /** The flag derived when none is given to the option and flag factories. */
  function ShortOrLongFlag(name: string): string {
    if |name| == 1 then "-" + name else LongFlag(name)
  }

  /** A derived long flag is "--" followed by the name with every '_' turned
      into '-', so it holds no '_'. */
  lemma LongFlagShape(name: string)
    ensures |LongFlag(name)| == |name| + 2 && LongFlag(name)[..2] == "--"
    ensures forall k :: 0 <= k < |name| ==>
      LongFlag(name)[k + 2] == (if name[k] == '_' then '-' else name[k])
    ensures '_' !in LongFlag(name)
  {
    var f := LongFlag(name);
    forall k | 0 <= k < |f|
      ensures f[k] != '_'
    {
      if k >= 2 {
        assert f[k] == Dashed(name)[k - 2];
      }
    }
  }

  function CreateInputFileParameter(name: string, flag: Option<string>, required: bool, multiple: bool): (p: Parameter)
    ensures p.name == name && p.kind == InputFileParam && p.valueType == TStr
    ensures p.flag == (if flag.Some? then flag.value else LongFlag(name))
    ensures p.default == VNone && p.choices.None? && p.validator.None?
    ensures p.required == required && p.multiple == multiple
  {
    Parameter(name, if flag.Some? then flag.value else LongFlag(name), InputFileParam, TStr,
      VNone, None, required, multiple, None)
  }

  function CreateOutputFileParameter(name: string, flag: Option<string>, required: bool): (p: Parameter)
    ensures p.name == name && p.kind == OutputFileParam && p.valueType == TStr
    ensures p.flag == (if flag.Some? then flag.value else LongFlag(name))
    ensures p.default == VNone && p.choices.None? && p.validator.None?
    ensures p.required == required && !p.multiple
  {
    Parameter(name, if flag.Some? then flag.value else LongFlag(name), OutputFileParam, TStr,
      VNone, None, required, false, None)
  }

  function CreateOptionParameter(
    name: string, flag: Option<string>, valueType: ValueType, default: Value,
    choices: Option<seq<Value>>, required: bool): (p: Parameter)
    ensures p.name == name && p.kind == OptionParam && p.valueType == valueType
    ensures p.flag == (if flag.Some? then flag.value else ShortOrLongFlag(name))
    ensures p.default == default && p.choices == choices && p.validator.None?
    ensures p.required == required && !p.multiple
  {
    Parameter(name, if flag.Some? then flag.value else ShortOrLongFlag(name), OptionParam,
      valueType, default, choices, required, false, None)
  }

  function CreateFlagParameter(name: string, flag: Option<string>, default: bool): (p: Parameter)
    ensures p.name == name && p.kind == FlagParam && p.valueType == TBool
    ensures p.flag == (if flag.Some? then flag.value else ShortOrLongFlag(name))
    ensures p.default == VBool(default) && p.choices.None? && p.validator.None?
    ensures !p.required && !p.multiple
  {
    Parameter(name, if flag.Some? then flag.value else ShortOrLongFlag(name), FlagParam,
      TBool, VBool(default), None, false, false, None)
  }
}
