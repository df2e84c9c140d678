/** The Python values that parameter descriptors hold, and the few built-ins the
    wrapper applies to them: truthiness, `==`, `isinstance`, `str()`, `int()` and
    `bool()`. Floats are not modelled. */
module PyValues {

  datatype Option<T> = None | Some(value: T)

  /** A Python value of one of the kinds a parameter can hold. */
  datatype Value =
    | VNone
    | VStr(s: string)
    | VInt(i: int)
    | VBool(b: bool)
    | VList(items: seq<Value>)

  /** The `value_type` of a descriptor: `str`, `int` or `bool`. */
  datatype ValueType = TStr | TInt | TBool

  /** `isinstance(v, t)`; in Python `bool` is a subclass of `int`. */
  predicate IsInstance(v: Value, t: ValueType) {
    match t
    case TStr => v.VStr?
    case TInt => v.VInt? || v.VBool?
    case TBool => v.VBool?
  }

  /** `bool(v)`: None, "", 0, False and [] are falsy. */
  predicate Truthy(v: Value) {
    match v
    case VNone => false
    case VStr(s) => s != ""
    case VInt(i) => i != 0
    case VBool(b) => b
    case VList(xs) => xs != []
  }

  predicate IsNumber(v: Value) {
    v.VInt? || v.VBool?
  }

  /** The number an int or a bool stands for: True is 1 and False is 0. */
  function NumberOf(v: Value): int
    requires IsNumber(v)
  {
    match v
    case VInt(i) => i
    case VBool(b) => if b then 1 else 0
  }

  /** Python `a == b`: numbers compare by value across int and bool, lists
      element-wise, and values of different kinds are unequal. */
  predicate PyEq(a: Value, b: Value)
    decreases a
  {
    if a.VList? && b.VList? then
      |a.items| == |b.items| &&
      forall i :: 0 <= i < |a.items| ==> PyEq(a.items[i], b.items[i])
    else if a.VStr? && b.VStr? then
      a.s == b.s
    else if IsNumber(a) && IsNumber(b) then
      NumberOf(a) == NumberOf(b)
    else
      a.VNone? && b.VNone?
  }

  /** `v in choices` for a Python list. */
  predicate InChoices(v: Value, choices: seq<Value>) {
    exists i :: 0 <= i < |choices| && PyEq(v, choices[i])
  }

  lemma {:induction false} PyEqReflexive(v: Value)
    ensures PyEq(v, v)
    decreases v
  {
    if v.VList? {
      forall i | 0 <= i < |v.items|
        ensures PyEq(v.items[i], v.items[i])
      {
        PyEqReflexive(v.items[i]);
      }
    }
  }

  // ---------------------------------------------------------------------------
  // Decimal digits: str(int) and int(str)

  predicate IsDigit(c: char) {
    '0' <= c <= '9'
  }

  function DigitChar(d: nat): (c: char)
    requires d < 10
    ensures IsDigit(c) && (c as int) - ('0' as int) == d
  {
    (('0' as int) + d) as char
  }

  /** The decimal digits of `n`, most significant first, without leading zeros. */
  function NatToString(n: nat): (s: string)
    ensures |s| > 0 && forall k :: 0 <= k < |s| ==> IsDigit(s[k])
    decreases n
  {
    if n < 10 then [DigitChar(n)] else NatToString(n / 10) + [DigitChar(n % 10)]
  }

  /** `str(i)` for an int. */
  function IntToString(i: int): (s: string)
    ensures |s| > 0
    ensures forall k :: 0 <= k < |s| ==> IsDigit(s[k]) || (k == 0 && s[k] == '-')
  {
    if i < 0 then "-" + NatToString(-i) else NatToString(i)
  }

  predicate IsDecimal(s: string) {
    |s| > 0 && forall k :: 0 <= k < |s| ==> IsDigit(s[k])
  }

  /** The number a non-empty run of decimal digits denotes. */
  function DigitsValue(s: string): nat
    requires forall k :: 0 <= k < |s| ==> IsDigit(s[k])
    decreases |s|
  {
    if s == [] then 0
    else
      assert IsDigit(s[|s| - 1]);
      DigitsValue(s[..|s| - 1]) * 10 + ((s[|s| - 1] as int) - ('0' as int))
  }

  /** `int(s)` for a string: an optional sign followed by decimal digits;
      anything else raises ValueError, modelled as None. */
  function ParseInt(s: string): Option<int> {
    if |s| > 0 && (s[0] == '-' || s[0] == '+') then
      if IsDecimal(s[1..]) then
        var n: int := DigitsValue(s[1..]);
        Some(if s[0] == '-' then -n else n)
      else None
    else if IsDecimal(s) then Some(DigitsValue(s))
    else None
  }

  lemma {:induction false} DigitsOfNatToString(n: nat)
    ensures DigitsValue(NatToString(n)) == n
    decreases n
  {
    var s := NatToString(n);
    if n < 10 {
      assert s[..|s| - 1] == [];
    } else {
      DigitsOfNatToString(n / 10);
      assert s[..|s| - 1] == NatToString(n / 10);
    }
  }

  /** `int(str(i)) == i`: the text an int is rendered as parses back to it. */
  lemma IntToStringRoundTrip(i: int)
    ensures ParseInt(IntToString(i)) == Some(i)
  {
    var s := IntToString(i);
    if i < 0 {
      assert s[1..] == NatToString(-i);
      DigitsOfNatToString(-i);
    } else {
      DigitsOfNatToString(i);
    }
  }

  /** `str(i)` is injective: two ints rendered alike are equal. */
  lemma IntToStringInjective(i: int, j: int)
    requires IntToString(i) == IntToString(j)
    ensures i == j
  {
    IntToStringRoundTrip(i);
    IntToStringRoundTrip(j);
  }

  // ---------------------------------------------------------------------------
  // str() and repr()

  /** `str(v)`. */
  function Str(v: Value): string
    decreases v, 1
  {
    match v
    case VNone => "None"
    case VStr(s) => s
    case VInt(i) => IntToString(i)
    case VBool(b) => if b then "True" else "False"
    case VList(xs) => "[" + ReprItems(v, 0) + "]"
  }

  /** `repr(v)`; a string is shown in single quotes. */
  function Repr(v: Value): string
    decreases v, 2
  {
    if v.VStr? then "'" + v.s + "'" else Str(v)
  }

  /** The items `list.items[k..]`, each as `repr`, separated by ", ". */
  function ReprItems(list: Value, k: nat): string
    requires list.VList?
    decreases list, 0, |list.items| - k
  {
    if k >= |list.items| then ""
    else if k == |list.items| - 1 then Repr(list.items[k])
    else Repr(list.items[k]) + ", " + ReprItems(list, k + 1)
  }

  /** `[str(x) for x in xs]`. */
  function Strs(xs: seq<Value>): (r: seq<string>)
    ensures |r| == |xs| && forall k :: 0 <= k < |xs| ==> r[k] == Str(xs[k])
  {
    seq(|xs|, k requires 0 <= k < |xs| => Str(xs[k]))
  }

  /** A list of Python strings. */
  function StrValues(ss: seq<string>): (r: seq<Value>)
    ensures |r| == |ss| && forall k :: 0 <= k < |ss| ==> r[k] == VStr(ss[k])
  {
    seq(|ss|, k requires 0 <= k < |ss| => VStr(ss[k]))
  }

  lemma StrsOfStrValues(ss: seq<string>)
    ensures Strs(StrValues(ss)) == ss
  {
  }

  // ---------------------------------------------------------------------------
  // Coercion

  /** `t(v)`, a call of the type object itself: `str` and `bool` always
      succeed; `int` parses a string, maps a bool to 0 or 1 and raises
      TypeError for None and lists (None). */
  function Coerce(t: ValueType, v: Value): (r: Option<Value>)
    ensures r.Some? ==> IsInstance(r.value, t)
    ensures t != TInt ==> r.Some?
  {
    match t
    case TStr => Some(VStr(Str(v)))
    case TBool => Some(VBool(Truthy(v)))
    case TInt =>
      match v
      case VStr(s) => (match ParseInt(s) case Some(n) => Some(VInt(n)) case None => None)
      case VInt(i) => Some(VInt(i))
      case VBool(b) => Some(VInt(if b then 1 else 0))
      case VNone => None
      case VList(_) => None
  }
}
