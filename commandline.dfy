/** `MmseqsCommandResult` and `BaseMmseqsCommandline` of pymmseqs/application.py:
    the result record of one execution, and the registry of descriptors and
    current values that validates them and assembles the argument vector. */
module Commandline {
  import opened PyValues
  import opened Parameters

  // ---------------------------------------------------------------------------
  // MmseqsCommandResult and the check in `run`

  /** The result of one execution; `command_line` includes the binary path.
      The wall-clock `execution_time` is not kept. */
  datatype CommandResult = CommandResult(
    returncode: int, stdout: string, stderr: string, commandLine: seq<string>)
  {
    /** The `success` field that `__post_init__` sets. */
    predicate Succeeded() {
      returncode == 0
    }
  }

  /** What the process hands back: the exit code and the captured streams
      (None when output was not captured). */
  datatype Completion = Completion(returncode: int, stdout: Option<string>, stderr: Option<string>)

  /** `s or ""`. */
  function OrEmpty(s: Option<string>): string {
    if s.Some? then s.value else ""
  }

  /** What `run` returns or raises once the binary is known and the process
      has exited: a build failure propagates; with `check`, a non-zero exit
      raises CalledProcessError carrying the full command and the streams as
      the process gave them (None when not captured), while the result
      object holds `stdout or ""` and `stderr or ""`; otherwise the result is returned whatever the exit code. */
  function Finish(binary: string, argv: Result<seq<string>>, check: bool, done: Completion): (r: Result<CommandResult>)
    ensures argv.Err? ==> r == Err(argv.error)
    ensures argv.Ok? ==> (r.Err? <==> check && done.returncode != 0)
    ensures argv.Ok? && r.Err? ==>
      r.error == CalledProcessError(done.returncode, [binary] + argv.value, done.stdout, done.stderr)
    ensures r.Ok? ==>
      && r.value.commandLine == [binary] + argv.value
      && r.value.returncode == done.returncode
      && r.value.stdout == OrEmpty(done.stdout) && r.value.stderr == OrEmpty(done.stderr)
      && (r.value.Succeeded() <==> done.returncode == 0)
    ensures !check && argv.Ok? ==> r.Ok?
  {
    match argv
    case Err(e) => Err(e)
    case Ok(args) =>
      var result := CommandResult(done.returncode, OrEmpty(done.stdout), OrEmpty(done.stderr), [binary] + args);
      if check && !result.Succeeded() then
        Err(CalledProcessError(done.returncode, [binary] + args, done.stdout, done.stderr))
      else Ok(result)
  }

  // ---------------------------------------------------------------------------
  // The registry as values: what the class's methods are specified by

  /** `values.get(name)`. */
  function Get(values: map<string, Value>, name: string): Value {
    if name in values then values[name] else VNone
  }

  /** `values.get(name, default)`. */
  function GetOr(values: map<string, Value>, name: string, default: Value): Value {
    if name in values then values[name] else default
  }

  predicate Registered(names: seq<string>, params: map<string, Parameter>) {
    forall k :: 0 <= k < |names| ==> names[k] in params
  }

  /** `validate_parameters`: every current value is validated in registration
      order and the first failure is raised. */
  function ValidateAll(names: seq<string>, params: map<string, Parameter>, values: map<string, Value>,
                       existing: set<string>): Status
    requires Registered(names, params)
    decreases |names|
  {
    if names == [] then Pass
    else
      assert Registered(names[1..], params) by {
        assert forall k :: 1 <= k < |names| ==> names[1..][k - 1] == names[k];
      }
      match Validate(params[names[0]], Get(values, names[0]), existing)
      case Err(e) => Fail(e)
      case Ok(_) => ValidateAll(names[1..], params, values, existing)
  }

  /** Validation passes exactly when every value validates, and a failure is
      the error of the first value that does not. */
  lemma {:induction false} ValidateAllFirstFailure(names: seq<string>, params: map<string, Parameter>,
                                                   values: map<string, Value>, existing: set<string>)
    requires Registered(names, params)
    ensures ValidateAll(names, params, values, existing).Pass? <==>
      forall k :: 0 <= k < |names| ==> Validate(params[names[k]], Get(values, names[k]), existing).Ok?
    ensures ValidateAll(names, params, values, existing).Fail? ==> exists k ::
      && 0 <= k < |names|
      && (forall j :: 0 <= j < k ==> Validate(params[names[j]], Get(values, names[j]), existing).Ok?)
      && Validate(params[names[k]], Get(values, names[k]), existing)
         == Err(ValidateAll(names, params, values, existing).error)
    decreases |names|
  {
    if names != [] {
      var rest := names[1..];
      assert forall k :: 1 <= k < |names| ==> rest[k - 1] == names[k];
      assert Registered(rest, params);
      ValidateAllFirstFailure(rest, params, values, existing);
      if Validate(params[names[0]], Get(values, names[0]), existing).Ok? {
        var r := ValidateAll(names, params, values, existing);
        assert r == ValidateAll(rest, params, values, existing);
        if r.Fail? {
          var k :| && 0 <= k < |rest|
                   && (forall j :: 0 <= j < k ==> Validate(params[rest[j]], Get(values, rest[j]), existing).Ok?)
                   && Validate(params[rest[k]], Get(values, rest[k]), existing) == Err(r.error);
          assert forall j :: 0 <= j < k + 1 ==> Validate(params[names[j]], Get(values, names[j]), existing).Ok? by {
            forall j | 0 <= j < k + 1
              ensures Validate(params[names[j]], Get(values, names[j]), existing).Ok?
            {
              if j > 0 { assert names[j] == rest[j - 1]; }
            }
          }
          assert names[k + 1] == rest[k];
        }
      }
    }
  }

  /** When every registered value validates, validation passes. */
  lemma ValidateAllPasses(names: seq<string>, params: map<string, Parameter>, values: map<string, Value>,
                          existing: set<string>)
    requires Registered(names, params)
    requires forall n :: n in params ==> n in values && Validate(params[n], values[n], existing).Ok?
    ensures ValidateAll(names, params, values, existing) == Pass
  {
    ValidateAllFirstFailure(names, params, values, existing);
  }

  /** `set_parameter` on the value map: an unknown name fails; a value that
      does not validate fails; otherwise only `name` changes, to the validated
      value. */
  function Assign(params: map<string, Parameter>, values: map<string, Value>, name: string, v: Value,
                  existing: set<string>): (r: Result<map<string, Value>>)
    ensures name !in params ==> r == Err(UnknownParameter(name))
    ensures name in params ==> (r.Ok? <==> Validate(params[name], v, existing).Ok?)
    ensures name in params && r.Err? ==> r.error == Validate(params[name], v, existing).error
    ensures r.Ok? ==>
      && r.value.Keys == values.Keys + {name}
      && r.value[name] == Validate(params[name], v, existing).value
      && forall n :: n in values && n != name ==> r.value[n] == values[n]
  {
    if name !in params then Err(UnknownParameter(name))
    else
      match Validate(params[name], v, existing)
      case Err(e) => Err(e)
      case Ok(w) => Ok(values[name := w])
  }

  /** The names of a sequence of keyword arguments. */
  function KeywordNames(kwargs: seq<(string, Value)>): set<string> {
    set k | 0 <= k < |kwargs| :: kwargs[k].0
  }

  /** A sequence of keyword arguments applied with `set_parameter` one after
      the other, stopping at the first failure. */
  function AssignAll(params: map<string, Parameter>, values: map<string, Value>,
                     kwargs: seq<(string, Value)>, existing: set<string>): (r: Result<map<string, Value>>)
    ensures r.Ok? ==> forall k :: 0 <= k < |kwargs| ==> kwargs[k].0 in params
    ensures r.Ok? ==> r.value.Keys == values.Keys + KeywordNames(kwargs)
    ensures r.Ok? ==> forall n :: n in values && n !in KeywordNames(kwargs) ==> r.value[n] == values[n]
    decreases |kwargs|
  {
    if kwargs == [] then Ok(values)
    else
      match Assign(params, values, kwargs[0].0, kwargs[0].1, existing)
      case Err(e) => Err(e)
      case Ok(m) =>
        var r := AssignAll(params, m, kwargs[1..], existing);
        assert forall k :: 1 <= k < |kwargs| ==> kwargs[1..][k - 1] == kwargs[k];
        assert KeywordNames(kwargs) == {kwargs[0].0} + KeywordNames(kwargs[1..]);
        r
  }

  /** Applying a run of keyword arguments after another is applying both
      runs in turn: the first failure of the first run stops everything. */
  lemma {:induction false} AssignAllSplit(params: map<string, Parameter>, values: map<string, Value>,
                                          k1: seq<(string, Value)>, k2: seq<(string, Value)>, existing: set<string>)
    ensures AssignAll(params, values, k1 + k2, existing)
         == match AssignAll(params, values, k1, existing)
            case Err(e) => Err(e)
            case Ok(m) => AssignAll(params, m, k2, existing)
    decreases |k1|
  {
    if k1 == [] {
      assert k1 + k2 == k2;
    } else {
      assert (k1 + k2)[0] == k1[0] && (k1 + k2)[1..] == k1[1..] + k2;
      match Assign(params, values, k1[0].0, k1[0].1, existing)
      case Err(_) =>
      case Ok(m) => AssignAllSplit(params, m, k1[1..], k2, existing);
    }
  }

  /** One more keyword argument is one more `set_parameter` on what the
      earlier ones left. */
  lemma AssignAllSnoc(params: map<string, Parameter>, values: map<string, Value>,
                      kwargs: seq<(string, Value)>, existing: set<string>)
    requires kwargs != []
    ensures AssignAll(params, values, kwargs, existing)
         == match AssignAll(params, values, kwargs[..|kwargs| - 1], existing)
            case Err(e) => Err(e)
            case Ok(m) => Assign(params, m, kwargs[|kwargs| - 1].0, kwargs[|kwargs| - 1].1, existing)
  {
    var init, last := kwargs[..|kwargs| - 1], kwargs[|kwargs| - 1];
    assert kwargs == init + [last];
    AssignAllSplit(params, values, init, [last], existing);
    match AssignAll(params, values, init, existing)
    case Err(_) =>
    case Ok(m) => assert [last][1..] == [];
  }

  /** The first `k` keyword arguments succeed and the next one fails with `e`. */
  predicate FailsAt(params: map<string, Parameter>, values: map<string, Value>, kwargs: seq<(string, Value)>,
                    existing: set<string>, k: nat, e: Error)
    requires k < |kwargs|
  {
    && AssignAll(params, values, kwargs[..k], existing).Ok?
    && Assign(params, AssignAll(params, values, kwargs[..k], existing).value, kwargs[k].0, kwargs[k].1, existing)
       == Err(e)
  }

  /** A failing run of keyword arguments fails with the error of the first
      `set_parameter` that fails, all the earlier ones having succeeded. */
  lemma {:induction false} AssignAllFirstFailure(params: map<string, Parameter>, values: map<string, Value>,
                                                 kwargs: seq<(string, Value)>, existing: set<string>)
    requires AssignAll(params, values, kwargs, existing).Err?
    ensures exists k :: 0 <= k < |kwargs|
                        && FailsAt(params, values, kwargs, existing, k, AssignAll(params, values, kwargs, existing).error)
    decreases |kwargs|
  {
    var init := kwargs[..|kwargs| - 1];
    AssignAllSnoc(params, values, kwargs, existing);
    var e := AssignAll(params, values, kwargs, existing).error;
    if AssignAll(params, values, init, existing).Err? {
      AssignAllFirstFailure(params, values, init, existing);
      var k :| 0 <= k < |init| && FailsAt(params, values, init, existing, k, e);
      assert init[..k] == kwargs[..k] && init[k] == kwargs[k];
      assert FailsAt(params, values, kwargs, existing, k, e);
    } else {
      assert FailsAt(params, values, kwargs, existing, |init|, e);
    }
  }

  /** After a successful run, each keyword's name holds the validated value
      of its last occurrence. */
  lemma {:induction false} AssignAllStoresLast(params: map<string, Parameter>, values: map<string, Value>,
                                               kwargs: seq<(string, Value)>, existing: set<string>, k: nat)
    requires AssignAll(params, values, kwargs, existing).Ok?
    requires k < |kwargs| && forall j :: k < j < |kwargs| ==> kwargs[j].0 != kwargs[k].0
    ensures kwargs[k].0 in params && kwargs[k].0 in AssignAll(params, values, kwargs, existing).value
    ensures Validate(params[kwargs[k].0], kwargs[k].1, existing).Ok?
    ensures AssignAll(params, values, kwargs, existing).value[kwargs[k].0]
         == Validate(params[kwargs[k].0], kwargs[k].1, existing).value
    decreases |kwargs|
  {
    var init, last := kwargs[..|kwargs| - 1], kwargs[|kwargs| - 1];
    AssignAllSnoc(params, values, kwargs, existing);
    var m := AssignAll(params, values, init, existing).value;
    var r := Assign(params, m, last.0, last.1, existing);
    assert AssignAll(params, values, kwargs, existing) == r && r.Ok?;
    var name := kwargs[k].0;
    if k < |init| {
      assert forall j :: k < j < |init| ==> init[j] == kwargs[j];
      assert init[k] == kwargs[k];
      AssignAllStoresLast(params, values, init, existing, k);
      assert name != last.0 && name in m;
    } else {
      assert last == kwargs[k] && Validate(params[name], last.1, existing).Ok?;
    }
  }

  predicate IsPositional(k: ParamKind) {
    k == InputFileParam || k == OutputFileParam
  }

  /** The first loop of `build_command_line`: the (descriptor, value) pairs
      whose value is not None, either the positional (input/output file) ones
      or the others, in registration order. */
  function Collect(names: seq<string>, params: map<string, Parameter>, values: map<string, Value>,
                   positional: bool): (r: seq<(Parameter, Value)>)
    requires Registered(names, params)
    ensures forall k :: 0 <= k < |r| ==> !r[k].1.VNone? && IsPositional(r[k].0.kind) == positional
    decreases |names|
  {
    if names == [] then []
    else
      var init := Collect(names[..|names| - 1], params, values, positional);
      var n := names[|names| - 1];
      var v := Get(values, n);
      if !v.VNone? && IsPositional(params[n].kind) == positional then init + [(params[n], v)] else init
  }

  /** What a positional value contributes: the elements of a list on a
      `multiple` parameter, each as `str`, without flags; otherwise `str(value)`. */
  function PositionalChunk(p: Parameter, v: Value): seq<string> {
    if p.multiple && v.VList? then Strs(v.items) else [Str(v)]
  }

  /** The tokens of the pairs, each rendered by `chunk`, concatenated in order. */
  function Tokens(pairs: seq<(Parameter, Value)>, chunk: (Parameter, Value) -> seq<string>): seq<string>
    decreases |pairs|
  {
    if pairs == [] then []
    else
      var last := pairs[|pairs| - 1];
      Tokens(pairs[..|pairs| - 1], chunk) + chunk(last.0, last.1)
  }

  /** The argument vector the base class assembles from valid values: the
      command name, then the positional tokens, then the option and flag
      tokens. */
  function BaseArgv(cmd: string, names: seq<string>, params: map<string, Parameter>,
                    values: map<string, Value>): (r: seq<string>)
    requires Registered(names, params)
    ensures |r| >= 1 && r[0] == cmd
  {
    [cmd] + Tokens(Collect(names, params, values, true), PositionalChunk)
          + Tokens(Collect(names, params, values, false), FormatForCommandLine)
  }

  /** `build_command_line` of the base class: validation first, then assembly. */
  function BaseBuild(cmd: string, names: seq<string>, params: map<string, Parameter>,
                     values: map<string, Value>, existing: set<string>): Result<seq<string>>
    requires Registered(names, params)
  {
    match ValidateAll(names, params, values, existing)
    case Fail(e) => Err(e)
    case Pass => Ok(BaseArgv(cmd, names, params, values))
  }

  // ---------------------------------------------------------------------------
  // Lemmas about the base assembly

  lemma {:induction false} CollectAppend(a: seq<string>, b: seq<string>, params: map<string, Parameter>,
                                         values: map<string, Value>, positional: bool)
    requires Registered(a, params) && Registered(b, params)
    ensures Registered(a + b, params)
    ensures Collect(a + b, params, values, positional)
         == Collect(a, params, values, positional) + Collect(b, params, values, positional)
    decreases |b|
  {
    assert Registered(a + b, params) by {
      forall k | 0 <= k < |a + b| ensures (a + b)[k] in params {
        if k >= |a| { assert (a + b)[k] == b[k - |a|]; }
      }
    }
    if b != [] {
      var b' := b[..|b| - 1];
      assert Registered(b', params) by {
        forall k | 0 <= k < |b'| ensures b'[k] in params { assert b'[k] == b[k]; }
      }
      CollectAppend(a, b', params, values, positional);
      assert (a + b)[..|a + b| - 1] == a + b';
      assert (a + b)[|a + b| - 1] == b[|b| - 1];
    } else {
      assert a + b == a;
    }
  }

  lemma {:induction false} TokensAppend(x: seq<(Parameter, Value)>, y: seq<(Parameter, Value)>,
                                        chunk: (Parameter, Value) -> seq<string>)
    ensures Tokens(x + y, chunk) == Tokens(x, chunk) + Tokens(y, chunk)
    decreases |y|
  {
    if y == [] {
      assert x + y == x;
    } else {
      var y', last := y[..|y| - 1], y[|y| - 1];
      var xy := x + y;
      assert xy[..|xy| - 1] == x + y' && xy[|xy| - 1] == last;
      TokensAppend(x, y', chunk);
    }
  }

  /** Collecting over one name gives its pair exactly when its value is not
      None and its kind is of the requested class; with `CollectAppend` this
      fixes what the first loop of `build_command_line` collects, in
      registration order. */
  lemma CollectSingle(n: string, params: map<string, Parameter>, values: map<string, Value>, positional: bool)
    requires n in params
    ensures Registered([n], params)
    ensures Collect([n], params, values, positional)
         == if !Get(values, n).VNone? && IsPositional(params[n].kind) == positional
            then [(params[n], Get(values, n))] else []
  {
    assert [n][..0] == [];
  }

  /** One more step of the collecting loop: the pair of `names[i]` is added
      exactly when `CollectSingle` gives it. */
  lemma CollectStep(names: seq<string>, i: nat, params: map<string, Parameter>, values: map<string, Value>,
                    positional: bool)
    requires Registered(names, params) && i < |names|
    ensures Registered(names[..i], params) && Registered(names[..i + 1], params)
    ensures Collect(names[..i + 1], params, values, positional)
         == Collect(names[..i], params, values, positional)
            + if !Get(values, names[i]).VNone? && IsPositional(params[names[i]].kind) == positional
              then [(params[names[i]], Get(values, names[i]))] else []
  {
    assert names[..i + 1][..i] == names[..i];
  }

  /** Registration order decides the vector: for names registered as `a`
      then `b`, the positional tokens of `a` then of `b` come first, and the
      option tokens of `a` then of `b` follow them. */
  lemma BaseArgvSplit(cmd: string, a: seq<string>, b: seq<string>, params: map<string, Parameter>,
                      values: map<string, Value>)
    requires Registered(a, params) && Registered(b, params)
    ensures Registered(a + b, params)
    ensures BaseArgv(cmd, a + b, params, values)
         == [cmd] + Tokens(Collect(a, params, values, true), PositionalChunk)
                  + Tokens(Collect(b, params, values, true), PositionalChunk)
                  + Tokens(Collect(a, params, values, false), FormatForCommandLine)
                  + Tokens(Collect(b, params, values, false), FormatForCommandLine)
  {
    CollectAppend(a, b, params, values, true);
    CollectAppend(a, b, params, values, false);
    TokensSplit(cmd, Collect(a, params, values, true), Collect(b, params, values, true),
                Collect(a, params, values, false), Collect(b, params, values, false));
  }

  lemma TokensSplit(cmd: string, pa: seq<(Parameter, Value)>, pb: seq<(Parameter, Value)>,
                    oa: seq<(Parameter, Value)>, ob: seq<(Parameter, Value)>)
    ensures [cmd] + Tokens(pa + pb, PositionalChunk) + Tokens(oa + ob, FormatForCommandLine)
         == [cmd] + Tokens(pa, PositionalChunk) + Tokens(pb, PositionalChunk)
                  + Tokens(oa, FormatForCommandLine) + Tokens(ob, FormatForCommandLine)
  {
    TokensAppend(pa, pb, PositionalChunk);
    TokensAppend(oa, ob, FormatForCommandLine);
    Regroup([cmd], Tokens(pa, PositionalChunk), Tokens(pb, PositionalChunk),
            Tokens(oa, FormatForCommandLine), Tokens(ob, FormatForCommandLine));
  }

  /** Concatenation regrouped, kept apart from the token functions. */
  lemma Regroup(c: seq<string>, x: seq<string>, y: seq<string>, u: seq<string>, w: seq<string>)
    ensures c + (x + y) + (u + w) == c + x + y + u + w
  {
  }

  /** A parameter whose value is None contributes nothing: the vector is the
      same as if it had never been registered. */
  lemma NoneContributesNothing(cmd: string, a: seq<string>, n: string, b: seq<string>,
                               params: map<string, Parameter>, values: map<string, Value>)
    requires Registered(a, params) && n in params && Registered(b, params)
    requires Get(values, n).VNone?
    ensures Registered(a + [n] + b, params) && Registered(a + b, params)
    ensures BaseArgv(cmd, a + [n] + b, params, values) == BaseArgv(cmd, a + b, params, values)
  {
    assert Registered([n], params);
    CollectAppend(a, [n], params, values, true);
    CollectAppend(a, [n], params, values, false);
    assert [n][..0] == [];
    assert Collect([n], params, values, true) == [];
    assert Collect([n], params, values, false) == [];
    assert Collect(a + [n], params, values, true) == Collect(a, params, values, true);
    assert Collect(a + [n], params, values, false) == Collect(a, params, values, false);
    BaseArgvSplit(cmd, a + [n], b, params, values);
    BaseArgvSplit(cmd, a, b, params, values);
  }

  /** The second loop of `build_command_line`: each positional value is
      appended, a list on a `multiple` parameter element by element. */
  method AppendPositional(cmdLine: seq<string>, positional: seq<(Parameter, Value)>) returns (r: seq<string>)
    ensures r == cmdLine + Tokens(positional, PositionalChunk)
  {
    r := cmdLine;
    var j := 0;
    while j < |positional|
      invariant 0 <= j <= |positional|
      invariant r == cmdLine + Tokens(positional[..j], PositionalChunk)
    {
      var (param, value) := positional[j];
      assert positional[..j + 1][..j] == positional[..j];
      if param.multiple && value.VList? {
        r := r + Strs(value.items);
      } else {
        r := r + [Str(value)];
      }
      j := j + 1;
    }
    assert positional[..|positional|] == positional;
  }

  /** The third loop of `build_command_line`: each option or flag appends
      what `format_for_command_line` renders it as. */
  method AppendOptions(cmdLine: seq<string>, options: seq<(Parameter, Value)>) returns (r: seq<string>)
    ensures r == cmdLine + Tokens(options, FormatForCommandLine)
  {
    r := cmdLine;
    var j := 0;
    while j < |options|
      invariant 0 <= j <= |options|
      invariant r == cmdLine + Tokens(options[..j], FormatForCommandLine)
    {
      var (param, value) := options[j];
      assert options[..j + 1][..j] == options[..j];
      r := r + FormatForCommandLine(param, value);
      j := j + 1;
    }
    assert options[..|options|] == options;
  }

  // ---------------------------------------------------------------------------
  // BaseMmseqsCommandline

  /** The registry's state: the registration order and the two dictionaries. */
  datatype Registry = Registry(order: seq<string>, parameters: map<string, Parameter>, values: map<string, Value>)

  /** `add_parameter` on the state. */
  function Add(s: Registry, p: Parameter): Registry {
    Registry(if p.name in s.parameters then s.order else s.order + [p.name],
             s.parameters[p.name := p],
             if p.name in s.values then s.values else s.values[p.name := p.default])
  }

  /** What `add_parameter` promises: the descriptor is stored or replaced under
      its name, a new name goes to the end of the order while a known one keeps
      its place, and the default is seeded only for a name without a value, so
      a stored value is never overwritten. */
  lemma AddSeedsOnlyMissing(s: Registry, p: Parameter)
    ensures Add(s, p).parameters == s.parameters[p.name := p]
    ensures p.name in s.parameters ==> Add(s, p).order == s.order
    ensures p.name !in s.parameters ==> Add(s, p).order == s.order + [p.name]
    ensures Add(s, p).values.Keys == s.values.Keys + {p.name}
    ensures forall n :: n in s.values ==> Add(s, p).values[n] == s.values[n]
    ensures p.name !in s.values ==> Add(s, p).values[p.name] == p.default
  {
  }

  /** Nine `add_parameter` calls with pairwise distinct names, starting from
      the empty registry, register the names in call order, each with its
      descriptor and its default. */
  lemma NineFreshAdds(p1: Parameter, p2: Parameter, p3: Parameter, p4: Parameter, p5: Parameter, p6: Parameter,
                      p7: Parameter, p8: Parameter, p9: Parameter)
    requires p2.name !in {p1.name}
    requires p3.name !in {p1.name, p2.name}
    requires p4.name !in {p1.name, p2.name, p3.name}
    requires p5.name !in {p1.name, p2.name, p3.name, p4.name}
    requires p6.name !in {p1.name, p2.name, p3.name, p4.name, p5.name}
    requires p7.name !in {p1.name, p2.name, p3.name, p4.name, p5.name, p6.name}
    requires p8.name !in {p1.name, p2.name, p3.name, p4.name, p5.name, p6.name, p7.name}
    requires p9.name !in {p1.name, p2.name, p3.name, p4.name, p5.name, p6.name, p7.name, p8.name}
    ensures Add(Add(Add(Add(Add(Add(Add(Add(Add(Registry([], map[], map[]), p1), p2), p3), p4), p5), p6), p7), p8), p9)
         == Registry([p1.name, p2.name, p3.name, p4.name, p5.name, p6.name, p7.name, p8.name, p9.name],
                     map[p1.name := p1, p2.name := p2, p3.name := p3, p4.name := p4, p5.name := p5,
                         p6.name := p6, p7.name := p7, p8.name := p8, p9.name := p9],
                     map[p1.name := p1.default, p2.name := p2.default, p3.name := p3.default,
                         p4.name := p4.default, p5.name := p5.default, p6.name := p6.default,
                         p7.name := p7.default, p8.name := p8.default, p9.name := p9.default])
  {
    var r0 := Registry([], map[], map[]);
    ThreeFreshAdds(r0, p1, p2, p3);
    var r3 := Add(Add(Add(r0, p1), p2), p3);
    assert r3.order == [p1.name, p2.name, p3.name];
    ThreeFreshAdds(r3, p4, p5, p6);
    var r6 := Add(Add(Add(r3, p4), p5), p6);
    assert r6.order == [p1.name, p2.name, p3.name, p4.name, p5.name, p6.name];
    ThreeFreshAdds(r6, p7, p8, p9);
    assert r6.order + [p7.name, p8.name, p9.name]
        == [p1.name, p2.name, p3.name, p4.name, p5.name, p6.name, p7.name, p8.name, p9.name];
  }

  /** Three `add_parameter` calls with distinct names new to the registry
      append the names to its order and store each descriptor and default. */
  lemma ThreeFreshAdds(s: Registry, p1: Parameter, p2: Parameter, p3: Parameter)
    requires p1.name !in s.parameters && p2.name !in s.parameters && p3.name !in s.parameters
    requires p1.name !in s.values && p2.name !in s.values && p3.name !in s.values
    requires p1.name != p2.name && p3.name !in {p1.name, p2.name}
    ensures Add(Add(Add(s, p1), p2), p3)
         == Registry(s.order + [p1.name, p2.name, p3.name],
                     s.parameters[p1.name := p1][p2.name := p2][p3.name := p3],
                     s.values[p1.name := p1.default][p2.name := p2.default][p3.name := p3.default])
  {
    var r1 := Add(s, p1);
    var r2 := Add(r1, p2);
    assert s.order + [p1.name, p2.name, p3.name] == s.order + [p1.name] + [p2.name] + [p3.name];
  }

  /** The registry: descriptors keyed by name with their registration order,
      and the current value of each. `order` lists the keys of `_parameters`
      as a Python dict keeps them: in insertion order, and replacing a key
      keeps its place. */
  class Command {
    const commandName: string
    var order: seq<string>
    var parameters: map<string, Parameter>
    var values: map<string, Value>

    ghost function State(): Registry
      reads this
    {
      Registry(order, parameters, values)
    }

    ghost predicate Valid()
      reads this
    {
      && (forall i, j :: 0 <= i < j < |order| ==> order[i] != order[j])
      && (forall n :: n in parameters <==> n in order)
      && values.Keys == parameters.Keys
      && (forall n :: n in parameters ==> parameters[n].name == n)
    }

    /** The state before `_init_parameters` registers anything. */
    constructor (commandName: string)
      ensures Valid()
      ensures this.commandName == commandName && order == [] && parameters == map[] && values == map[]
    {
      this.commandName := commandName;
      order, parameters, values := [], map[], map[];
    }

    /** `add_parameter`: stores or replaces the descriptor under its name and
        seeds the default only when the name has no value yet. */
    method AddParameter(p: Parameter)
      requires Valid()
      modifies this
      ensures Valid()
      ensures State() == Add(old(State()), p)
    {
      if p.name !in parameters {
        order := order + [p.name];
      }
      parameters := parameters[p.name := p];
      if p.name !in values {
        values := values[p.name := p.default];
      }
    }

    /** `set_parameter`: unknown names and invalid values fail and leave the
        values as they were; otherwise only `name` changes, to the validated
        value. */
    method SetParameter(name: string, v: Value, existing: set<string>) returns (r: Status)
      requires Valid()
      modifies this`values
      ensures Valid()
      ensures r.Pass? <==> Assign(parameters, old(values), name, v, existing).Ok?
      ensures r.Fail? ==> r.error == Assign(parameters, old(values), name, v, existing).error
      ensures r.Fail? ==> values == old(values)
      ensures r.Pass? ==> values == Assign(parameters, old(values), name, v, existing).value
    {
      if name !in parameters {
        return Fail(UnknownParameter(name));
      }
      var param := parameters[name];
      var validated := Validate(param, v, existing);
      if validated.Err? {
        return Fail(validated.error);
      }
      values := values[name := validated.value];
      r := Pass;
    }

    /** The loop of `__init__` that sets each keyword argument in turn. */
    method SetParameters(kwargs: seq<(string, Value)>, existing: set<string>) returns (r: Status)
      requires Valid()
      modifies this`values
      ensures Valid()
      ensures r.Pass? <==> AssignAll(parameters, old(values), kwargs, existing).Ok?
      ensures r.Fail? ==> r.error == AssignAll(parameters, old(values), kwargs, existing).error
      ensures r.Pass? ==> values == AssignAll(parameters, old(values), kwargs, existing).value
    {
      var i := 0;
      while i < |kwargs|
        invariant 0 <= i <= |kwargs|
        invariant Valid()
        invariant AssignAll(parameters, old(values), kwargs, existing)
               == AssignAll(parameters, values, kwargs[i..], existing)
      {
        assert kwargs[i..][1..] == kwargs[i + 1..];
        var status := SetParameter(kwargs[i].0, kwargs[i].1, existing);
        if status.Fail? {
          return status;
        }
        i := i + 1;
      }
      r := Pass;
    }

    /** `get_parameter`: an unknown name fails; a registered one always has a
        stored value, so the fallback to the default is never taken. */
    function GetParameter(name: string): (r: Result<Value>)
      reads this
      requires Valid()
      ensures r.Ok? <==> name in order
      ensures r.Err? ==> r.error == UnknownParameter(name)
      ensures r.Ok? ==> r.value == values[name]
    {
      if name !in parameters then Err(UnknownParameter(name))
      else Ok(GetOr(values, name, parameters[name].default))
    }

    /** `list_parameters`: every registered name once, in registration order,
        which `AddParameter` extends at the end for each new name. */
    function ListParameters(): (r: seq<string>)
      reads this
      requires Valid()
      ensures r == order
      ensures forall n :: n in r <==> n in parameters
      ensures forall i, j :: 0 <= i < j < |r| ==> r[i] != r[j]
    {
      order
    }

    /** `validate_parameters`. */
    method ValidateParameters(existing: set<string>) returns (r: Status)
      requires Valid()
      ensures r == ValidateAll(order, parameters, values, existing)
    {
      var i := 0;
      while i < |order|
        invariant 0 <= i <= |order|
        invariant Registered(order[i..], parameters)
        invariant ValidateAll(order, parameters, values, existing) == ValidateAll(order[i..], parameters, values, existing)
      {
        assert order[i..][1..] == order[i + 1..];
        var name := order[i];
        var checked := Validate(parameters[name], Get(values, name), existing);
        if checked.Err? {
          return Fail(checked.error);
        }
        i := i + 1;
      }
      r := Pass;
    }

    /** The first loop of `build_command_line`: the non-None values, split
        into positional and other parameters, in registration order. */
    method Partition() returns (positional: seq<(Parameter, Value)>, options: seq<(Parameter, Value)>)
      requires Valid()
      ensures Registered(order, parameters)
      ensures positional == Collect(order, parameters, values, true)
      ensures options == Collect(order, parameters, values, false)
    {
      positional, options := [], [];
      var i := 0;
      while i < |order|
        invariant 0 <= i <= |order|
        invariant positional == Collect(order[..i], parameters, values, true)
        invariant options == Collect(order[..i], parameters, values, false)
      {
        var name := order[i];
        var param := parameters[name];
        var value := Get(values, name);
        CollectStep(order, i, parameters, values, true);
        CollectStep(order, i, parameters, values, false);
        if !value.VNone? {
          if IsPositional(param.kind) {
            positional := positional + [(param, value)];
          } else {
            options := options + [(param, value)];
          }
        }
        i := i + 1;
      }
      assert order[..|order|] == order;
    }

    /** `build_command_line` of the base class. It changes nothing, so calling
        it twice gives the same vector. */
    method BuildCommandLine(existing: set<string>) returns (r: Result<seq<string>>)
      requires Valid()
      ensures r == BaseBuild(commandName, order, parameters, values, existing)
    {
      var status := ValidateParameters(existing);
      if status.Fail? {
        return Err(status.error);
      }
      var positional, options := Partition();
      var cmdLine := AppendPositional([commandName], positional);
      cmdLine := AppendOptions(cmdLine, options);
      r := Ok(cmdLine);
    }

    /** `run`, with the binary path and what the process returned given as
        parameters: build the vector, then decide between returning the
        result and raising CalledProcessError. */
    method Run(binary: string, existing: set<string>, check: bool, done: Completion)
      returns (r: Result<CommandResult>)
      requires Valid()
      ensures r == Finish(binary, BaseBuild(commandName, order, parameters, values, existing), check, done)
    {
      var argv := BuildCommandLine(existing);
      if argv.Err? {
        return Err(argv.error);
      }
      var fullCommand := [binary] + argv.value;
      var result := CommandResult(done.returncode, OrEmpty(done.stdout), OrEmpty(done.stderr), fullCommand);
      if check && !result.Succeeded() {
        return Err(CalledProcessError(done.returncode, fullCommand, done.stdout, done.stderr));
      }
      r := Ok(result);
    }
  }
}
