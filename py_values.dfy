/** Python values the core works with: decoded JSON, exceptions as values,
    and the few built-in conversions (str(), d[key], xs[0]) whose failure
    cases the core relies on. */
module PyValues {

  datatype Option<+T> = None | Some(value: T)

  /** A call that either returns a value or raises; `:-` propagates the raise. */
  datatype Result<+T, +E> = Ok(value: T) | Err(error: E) {
    predicate IsFailure() { Err? }
    function PropagateFailure<U>(): Result<U, E> requires Err? { Err(error) }
    function Extract(): T requires Ok? { value }
  }

  /** A call run only for its effect, which either completes or raises. */
  datatype Outcome<+E> = Pass | Fail(error: E)

  /** A value decoded from JSON. Numbers are integers; objects are dicts keyed by strings. */
  datatype Json =
    | JNull
    | JBool(b: bool)
    | JNum(n: int)
    | JStr(s: string)
    | JArr(items: seq<Json>)
    | JObj(fields: map<string, Json>)

  datatype ErrorKind = KeyError | IndexError | TypeError | ValueError | HttpError | JsonDecodeError | FfmpegError

  /** A raised exception: its class and `str(e)`. */
  datatype PyError = PyError(kind: ErrorKind, message: string)

  /** `str(KeyError(key))` is the key's repr, i.e. the key in single quotes. */
  function KeyErrorFor(key: string): (e: PyError)
    ensures e.kind == KeyError && |e.message| == |key| + 2
    ensures e.message[1..|e.message| - 1] == key
    ensures e.message[0] == '\'' && e.message[|e.message| - 1] == '\''
  {
    PyError(KeyError, "'" + key + "'")
  }

  /** Python's type name of a decoded JSON value. */
  function TypeName(j: Json): string {
    match j
    case JNull => "NoneType"
    case JBool(_) => "bool"
    case JNum(_) => "int"
    case JStr(_) => "str"
    case JArr(_) => "list"
    case JObj(_) => "dict"
  }

  /** `j[key]` with a string key. */
  function Subscript(j: Json, key: string): (r: Result<Json, PyError>)
    ensures r.Ok? <==> j.JObj? && key in j.fields
    ensures r.Ok? ==> r.value == j.fields[key]
    ensures j.JObj? && key !in j.fields ==> r == Err(KeyErrorFor(key))
    ensures !j.JObj? ==> r.Err? && r.error.kind == TypeError
  {
    match j
    case JObj(m) => if key in m then Ok(m[key]) else Err(KeyErrorFor(key))
    case JArr(_) => Err(PyError(TypeError, "list indices must be integers or slices, not str"))
    case JStr(_) => Err(PyError(TypeError, "string indices must be integers, not 'str'"))
    case _ => Err(PyError(TypeError, "'" + TypeName(j) + "' object is not subscriptable"))
  }

  /** `j[0]`. A dict has only string keys here, so the integer key 0 is never present. */
  function First(j: Json): (r: Result<Json, PyError>)
    ensures j.JArr? ==> (r.Ok? <==> |j.items| > 0)
    ensures j.JArr? && r.Ok? ==> r.value == j.items[0]
    ensures j.JArr? && j.items == [] ==> r == Err(PyError(IndexError, "list index out of range"))
    ensures j.JObj? ==> r == Err(PyError(KeyError, "0"))
    ensures j.JStr? ==> (r.Ok? <==> j.s != [])
    ensures j.JStr? && r.Ok? ==> r.value == JStr([j.s[0]])
    ensures j.JStr? && j.s == [] ==> r == Err(PyError(IndexError, "string index out of range"))
    ensures j.JNull? || j.JBool? || j.JNum? ==> r.Err? && r.error.kind == TypeError
  {
    match j
    case JArr(xs) => if xs == [] then Err(PyError(IndexError, "list index out of range")) else Ok(xs[0])
    case JStr(s) => if s == [] then Err(PyError(IndexError, "string index out of range")) else Ok(JStr([s[0]]))
    case JObj(_) => Err(PyError(KeyError, "0"))
    case _ => Err(PyError(TypeError, "'" + TypeName(j) + "' object is not subscriptable"))
  }

  predicate IsDigit(c: char) { '0' as int <= c as int <= '9' as int }

  /** Decimal digits of a natural number, most significant first. */
  function Digits(n: nat): (s: string)
    ensures |s| > 0 && forall i :: 0 <= i < |s| ==> IsDigit(s[i])
  {
    if n < 10 then [('0' as int + n) as char]
    else Digits(n / 10) + [('0' as int + n % 10) as char]
  }

  /** `str(n)` for a Python int. */
  function Decimal(n: int): (s: string)
    ensures |s| > 0
    ensures forall i :: 0 <= i < |s| ==> IsDigit(s[i]) || (i == 0 && s[i] == '-')
    ensures n >= 0 ==> s == Digits(n)
  {
    if n < 0 then "-" + Digits(-n) else Digits(n)
  }

  /** The number a string of decimal digits denotes, most significant first. */
  function DigitsValue(s: string): int
    requires forall i :: 0 <= i < |s| ==> IsDigit(s[i])
  {
    if s == [] then 0 else DigitsValue(s[..|s| - 1]) * 10 + (s[|s| - 1] as int - '0' as int)
  }

  /** Reading the digits back gives the number they were written from. */
  lemma {:induction false} DigitsRoundTrip(n: nat)
    ensures DigitsValue(Digits(n)) == n
  {
    if n >= 10 {
      DigitsRoundTrip(n / 10);
      var s := Digits(n);
      assert s[..|s| - 1] == Digits(n / 10);
    }
  }

  /** `str(n)` denotes n: its digits read back as |n|, after a '-' exactly when n < 0. */
  lemma DecimalRoundTrip(n: int)
    ensures var s := Decimal(n);
      && (s[0] == '-' <==> n < 0)
      && (n >= 0 ==> DigitsValue(s) == n)
      && (n < 0 ==> DigitsValue(s[1..]) == -n)
  {
    var s := Decimal(n);
    if n < 0 {
      DigitsRoundTrip(-n);
      assert s[1..] == Digits(-n);
    } else {
      DigitsRoundTrip(n);
      assert IsDigit(s[0]);
    }
  }

  /** `str(j)` (or `f"{j}"`) for scalars; containers are rendered as a placeholder. */
  function PyStr(j: Json): (s: string)
    ensures j.JStr? ==> s == j.s
    ensures j.JNum? ==> |s| > 0 && forall i :: 0 <= i < |s| ==> IsDigit(s[i]) || (i == 0 && s[i] == '-')
    ensures j.JNum? ==> s == Decimal(j.n)
    ensures j.JNull? ==> s == "None"
    ensures j.JBool? ==> s == if j.b then "True" else "False"
  {
    match j
    case JNull => "None"
    case JBool(b) => if b then "True" else "False"
    case JNum(n) => Decimal(n)
    case JStr(s) => s
    case JArr(_) => "[...]"
    case JObj(_) => "{...}"
  }

  /** Number of occurrences of `c` in `s`. */
  function Count(c: char, s: string): nat {
    if s == [] then 0 else Count(c, s[..|s| - 1]) + (if s[|s| - 1] == c then 1 else 0)
  }

  lemma {:induction false} CountConcat(c: char, a: string, b: string)
    ensures Count(c, a + b) == Count(c, a) + Count(c, b)
  {
    if b != [] {
      assert (a + b)[..|a + b| - 1] == a + b[..|b| - 1];
      CountConcat(c, a, b[..|b| - 1]);
    } else {
      assert a + b == a;
    }
  }

  lemma {:induction false} CountAbsent(c: char, s: string)
    requires forall i :: 0 <= i < |s| ==> s[i] != c
    ensures Count(c, s) == 0
  {
    if s != [] {
      CountAbsent(c, s[..|s| - 1]);
    }
  }

  /** Neither ':' nor '@' occurs in the decimal rendering of an integer. */
  lemma DecimalHasNoSeparators(n: int)
    ensures Count(':', Decimal(n)) == 0 && Count('@', Decimal(n)) == 0
  {
    CountAbsent(':', Decimal(n));
    CountAbsent('@', Decimal(n));
  }
}
