/** The parts of Python 2 that the filter form leans on: the values a form cleans,
    truthiness, dict lookup, and the string methods `rstrip`, `endswith`,
    `partition`, `join` and `str()`. */
module Python {

  datatype Option<+T> = None | Some(value: T)

  /** The exceptions the filter form can raise. */
  datatype Error =
    | KeyError(key: string)
    | AssertionError
    | RuntimeError(message: string)
    | TypeError(message: string)

  datatype Result<+T> = Ok(value: T) | Err(error: Error)

  /** A cleaned form value: None, a bool, a (unicode) string, an integer, a list or a tuple. */
  datatype Value =
    | VNone
    | VBool(b: bool)
    | VStr(s: string)
    | VInt(i: int)
    | VList(items: seq<Value>)
    | VTuple(items: seq<Value>)

  /** Python truthiness: None, False, '', 0, [] and () are false, everything else is true. */
  predicate Truthy(v: Value)
  {
    match v
    case VNone => false
    case VBool(b) => b
    case VStr(s) => s != ""
    case VInt(i) => i != 0
    case VList(xs) => xs != []
    case VTuple(xs) => xs != []
  }

  /** A dict with string keys, given as its items in iteration order. */
  type Items = seq<(string, Value)>

  predicate DistinctKeys(d: Items)
  {
    forall i, j :: 0 <= i < j < |d| ==> d[i].0 != d[j].0
  }

  /** `d[k]`, or None where Python raises KeyError. */
  function Get(d: Items, k: string): (r: Option<Value>)
    ensures r.None? <==> forall i :: 0 <= i < |d| ==> d[i].0 != k
    ensures r.Some? ==> exists i :: 0 <= i < |d| && d[i] == (k, r.value)
  {
    if d == [] then None
    else if d[0].0 == k then Some(d[0].1)
    else
      var r := Get(d[1..], k);
      assert forall i :: 1 <= i < |d| ==> d[i] == d[1..][i - 1];
      r
  }

  lemma {:induction false} GetDistinct(d: Items, i: nat)
    requires DistinctKeys(d)
    requires i < |d|
    ensures Get(d, d[i].0) == Some(d[i].1)
  {
    if i > 0 {
      assert d[0].0 != d[i].0;
      assert d[1..][i - 1] == d[i];
      GetDistinct(d[1..], i - 1);
    }
  }

  /** `s.rstrip('_')`. */
  function RStripUnderscores(s: string): (r: string)
    ensures r <= s
    ensures r == [] || r[|r| - 1] != '_'
    ensures forall i :: |r| <= i < |s| ==> s[i] == '_'
    decreases |s|
  {
    if s != [] && s[|s| - 1] == '_' then RStripUnderscores(s[..|s| - 1]) else s
  }

  /** The three properties in the contract of RStripUnderscores pin its result down. */
  lemma {:induction false} RStripUnique(s: string, r: string)
    requires r <= s
    requires r == [] || r[|r| - 1] != '_'
    requires forall i :: |r| <= i < |s| ==> s[i] == '_'
    ensures r == RStripUnderscores(s)
    decreases |s|
  {
    if s != [] && s[|s| - 1] == '_' {
      assert |r| < |s|;
      assert r <= s[..|s| - 1];
      RStripUnique(s[..|s| - 1], r);
    }
  }

  lemma {:induction false} RStripAppendUnderscore(s: string)
    ensures RStripUnderscores(s + "_") == RStripUnderscores(s)
  {
    assert (s + "_")[..|s|] == s;
  }

  predicate EndsWith(s: string, suffix: string)
  {
    |suffix| <= |s| && s[|s| - |suffix|..] == suffix
  }

  /** `sep` occurs in `s` starting at index `i`. */
  predicate IsAt(s: string, sep: string, i: nat)
  {
    i + |sep| <= |s| && s[i..i + |sep|] == sep
  }

  /** The first occurrence of `sep` in `s` at or after `from`. */
  function FindFrom(s: string, sep: string, from: nat): (r: Option<nat>)
    requires from <= |s|
    ensures r.Some? ==> from <= r.value && IsAt(s, sep, r.value)
    ensures forall i :: from <= i && (r.None? || i < r.value) ==> !IsAt(s, sep, i)
    decreases |s| - from
  {
    if IsAt(s, sep, from) then Some(from)
    else if from == |s| then None
    else FindFrom(s, sep, from + 1)
  }

  /** `s.partition(sep)[0]`: what comes before the first occurrence of `sep`, or all of `s`. */
  function PartitionHead(s: string, sep: string): string
    requires sep != []
  {
    match FindFrom(s, sep, 0)
    case Some(i) => s[..i]
    case None => s
  }

  /** `sep.join(parts)`. */
  function Join(sep: string, parts: seq<string>): string
  {
    if parts == [] then ""
    else if |parts| == 1 then parts[0]
    else parts[0] + sep + Join(sep, parts[1..])
  }

  function DigitChar(d: nat): char
    requires d < 10
  {
    "0123456789"[d]
  }

  function NatToString(n: nat): string
    decreases n
  {
    if n < 10 then [DigitChar(n)] else NatToString(n / 10) + [DigitChar(n % 10)]
  }

  function IntToString(i: int): string
  {
    if i < 0 then "-" + NatToString(-i) else NatToString(i)
  }

  /** `repr(v)`, as it appears inside the `str()` of a list or tuple (string escapes are not modelled). */
  function Repr(v: Value): string
    decreases v
  {
    match v
    case VNone => "None"
    case VBool(b) => if b then "True" else "False"
    case VStr(s) => "u'" + s + "'"
    case VInt(i) => IntToString(i)
    case VList(xs) => "[" + Join(", ", seq(|xs|, k requires 0 <= k < |xs| => Repr(xs[k]))) + "]"
    case VTuple(xs) =>
      if |xs| == 1 then "(" + Repr(xs[0]) + ",)"
      else "(" + Join(", ", seq(|xs|, k requires 0 <= k < |xs| => Repr(xs[k]))) + ")"
  }

  /** `unicode(v)`, which is what `'{0}'.format(v)` writes. */
  function Str(v: Value): string
  {
    if v.VStr? then v.s else Repr(v)
  }
}
