/** Python runtime values as the taste-record pipeline sees them: documents
    from MongoDB, fields of an index record's metadata and the pieces of
    request bodies are loosely typed, so the model carries them as `Value`
    and makes Python's truthiness, `dict.get`, `str()`, `float()` and
    `str.strip()` explicit. */
module PyValues {

  datatype Option<T> = None | Some(value: T)

  datatype Result<T> = Ok(value: T) | Err(error: PyError)

  /** The exceptions the core can raise. */
  datatype PyError =
    | RuntimeError(message: string)
    | AttributeError
    | IndexError
    | KeyError(key: string)
    | TypeError
    | ValueError

  /** How a Python call ended: it returned, or it raised. */
  datatype Completion = Returned | Raised(error: PyError)

  datatype Value =
    | PyNone
    | PyBool(b: bool)
    | PyInt(i: int)
    | PyFloat(r: real)
    | PyStr(s: string)
    | PyObjectId(hex: string)
    | PyList(items: seq<Value>)
    | PyDict(fields: map<string, Value>)

  /** What the model leaves to the interpreter: how a number or container is
      rendered inside an f-string or by `str()`, whether `float()` accepts a
      string, and the text of an exception. */
  datatype Runtime = Runtime(
    show: Value -> string,
    parseFloat: string -> Option<real>,
    describe: PyError -> string)

  /** `str(e)` for a raised exception: a RuntimeError shows its message, a
      KeyError the quoted key, the others as the runtime describes them. */
  function ErrorText(rt: Runtime, e: PyError): string {
    match e
    case RuntimeError(m) => m
    case KeyError(k) => "'" + k + "'"
    case _ => rt.describe(e)
  }

  /** Python's truth value (`if x:` / `not x`). A BSON ObjectId is an object
      without `__bool__`, hence always true. */
  predicate Truthy(v: Value) {
    match v
    case PyNone => false
    case PyBool(b) => b
    case PyInt(i) => i != 0
    case PyFloat(r) => r != 0.0
    case PyStr(s) => s != ""
    case PyObjectId(_) => true
    case PyList(items) => items != []
    case PyDict(fields) => fields != map[]
  }

  /** `d.get(key, default)`: the default only when the key is absent. */
  function Get(d: map<string, Value>, key: string, default: Value): Value {
    if key in d then d[key] else default
  }

  /** The decimal digits of `n`, most significant first, no leading zeros. */
  function DecimalDigits(n: nat): (r: string)
    ensures |r| >= 1
    ensures forall k :: 0 <= k < |r| ==> '0' <= r[k] <= '9'
    ensures n > 0 ==> r[0] != '0'
  {
    if n < 10 then [(48 + n) as char] else DecimalDigits(n / 10) + [(48 + n % 10) as char]
  }

  /** The number a string of decimal digits denotes. */
  function DigitsValue(s: string): nat
    requires forall k :: 0 <= k < |s| ==> '0' <= s[k] <= '9'
  {
    if s == [] then 0 else DigitsValue(s[..|s| - 1]) * 10 + (s[|s| - 1] as int - 48)
  }

  /** `str(n)` reads back as `n`. */
  lemma {:induction false} DecimalDigitsRoundTrip(n: nat)
    ensures DigitsValue(DecimalDigits(n)) == n
  {
    var r := DecimalDigits(n);
    if n >= 10 {
      DecimalDigitsRoundTrip(n / 10);
      assert r[..|r| - 1] == DecimalDigits(n / 10);
    }
  }

  /** `str(i)` for a Python int. */
  function IntStr(i: int): string {
    if i < 0 then "-" + DecimalDigits(-i) else DecimalDigits(i)
  }

  /** `str(v)`, which is also what an f-string placeholder produces: a string
      renders as itself, an ObjectId as its hex digits, None, a bool and an
      int as Python spells them, a float or a container as the runtime shows
      it. */
  function Str(rt: Runtime, v: Value): string {
    match v
    case PyNone => "None"
    case PyBool(b) => if b then "True" else "False"
    case PyInt(i) => IntStr(i)
    case PyStr(s) => s
    case PyObjectId(h) => h
    case _ => rt.show(v)
  }

  predicate IsNumber(v: Value) {
    v.PyBool? || v.PyInt? || v.PyFloat?
  }

  /** The numeric value of a bool, int or float. */
  function Num(v: Value): real
    requires IsNumber(v)
  {
    match v
    case PyBool(b) => if b then 1.0 else 0.0
    case PyInt(i) => i as real
    case PyFloat(r) => r
  }

  /** `float(v)`: None when Python raises ValueError or TypeError. */
  function ToFloat(rt: Runtime, v: Value): Option<real> {
    match v
    case PyStr(s) => rt.parseFloat(s)
    case _ => if IsNumber(v) then Some(Num(v)) else None
  }

  /** The characters for which Python's `str.isspace()` is true. */
  predicate IsSpace(c: char) {
    c == ' ' || c == '\t' || c == '\n' || c == '\r' || c == '\U{b}' || c == '\U{c}'
    || ('\U{1c}' <= c <= '\U{1f}') || c == '\U{85}' || c == '\U{a0}' || c == '\U{1680}'
    || ('\U{2000}' <= c <= '\U{200a}') || c == '\U{2028}' || c == '\U{2029}' || c == '\U{202f}'
    || c == '\U{205f}' || c == '\U{3000}'
  }

  function DropLeadingSpace(s: string): (r: string)
    ensures |r| <= |s| && r == s[|s| - |r|..]
    ensures r == [] || !IsSpace(r[0])
    ensures forall i :: 0 <= i < |s| - |r| ==> IsSpace(s[i])
  {
    if s != [] && IsSpace(s[0]) then DropLeadingSpace(s[1..]) else s
  }

  function DropTrailingSpace(s: string): (r: string)
    ensures |r| <= |s| && r == s[..|r|]
    ensures r == [] || !IsSpace(r[|r| - 1])
    ensures forall i :: |r| <= i < |s| ==> IsSpace(s[i])
  {
    if s != [] && IsSpace(s[|s| - 1]) then DropTrailingSpace(s[..|s| - 1]) else s
  }

  /** `s.strip()` with no argument. */
  function Strip(s: string): string {
    DropTrailingSpace(DropLeadingSpace(s))
  }

  /** Taking `k` characters after dropping `a` is the slice from `a`. */
  lemma {:induction false} SliceOfSlice(s: string, a: nat, k: nat)
    requires a + k <= |s|
    ensures s[a..][..k] == s[a..a + k]
  {
  }

  /** What `strip()` promises: the result is the piece of `s` starting at
      `lo`, and everything cut off on either side is whitespace. */
  lemma {:induction false} StripIsTrimmedSlice(s: string) returns (lo: nat)
    ensures lo + |Strip(s)| <= |s| && Strip(s) == s[lo..lo + |Strip(s)|]
    ensures forall i :: 0 <= i < lo ==> IsSpace(s[i])
    ensures forall i :: lo + |Strip(s)| <= i < |s| ==> IsSpace(s[i])
  {
    var l := DropLeadingSpace(s);
    var r := DropTrailingSpace(l);
    assert Strip(s) == r;
    lo := |s| - |l|;
    assert l == s[lo..];
    SliceOfSlice(s, lo, |r|);
    forall i | lo + |r| <= i < |s| ensures IsSpace(s[i]) {
      assert IsSpace(l[i - lo]);
      assert s[i] == l[i - lo];
    }
  }

  /** The result of `strip()` neither starts nor ends with whitespace. */
  lemma {:induction false} StripEnds(s: string)
    ensures Strip(s) == [] || (!IsSpace(Strip(s)[0]) && !IsSpace(Strip(s)[|Strip(s)| - 1]))
  {
    var l := DropLeadingSpace(s);
    var r := DropTrailingSpace(l);
    if r != [] {
      assert r[0] == l[0];
    }
  }

  /** A string strips to "" exactly when it consists of whitespace only; so
      `if s.strip()` rejects blank strings and nothing else. */
  lemma {:induction false} StripEmptyIffBlank(s: string)
    ensures Strip(s) == [] <==> forall i :: 0 <= i < |s| ==> IsSpace(s[i])
  {
    var l := DropLeadingSpace(s);
    if Strip(s) != [] {
      var r := Strip(s);
      var lo := |s| - |l|;
      assert r[0] == s[lo];
    }
  }

  /** Stripping twice changes nothing. */
  lemma {:induction false} StripIdempotent(s: string)
    ensures Strip(Strip(s)) == Strip(s)
  {
    var r := Strip(s);
    if r != [] {
      assert !IsSpace(r[0]) && !IsSpace(r[|r| - 1]);
      assert DropLeadingSpace(r) == r;
    }
  }
}
