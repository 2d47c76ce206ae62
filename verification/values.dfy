/**
  Python objects as the payload scripts and the prediction service see them:
  the result of `json.load`, or a list/dict built by a comprehension.
  A dict is its insertion-ordered list of entries; lookups use Python's key
  equality, under which `True == 1` and `False == 0`.
 */
module Values {
  import opened Wrappers

  /** A Python object. JSON numbers are modelled as integers. */
  datatype Value =
    | Null
    | Bool(b: bool)
    | Num(n: int)
    | Str(s: string)
    | List(items: seq<Value>)
    | Dict(entries: seq<(Value, Value)>)

  /** The exceptions the modelled code raises or lets through. */
  datatype Exc =
    | MissingFeatures(names: seq<string>)  // the ValueError raised for absent schema names
    | ValueError(message: string)
    | TypeError(message: string)
    | OtherError(message: string)

  /** `isinstance(e, ValueError)` */
  predicate IsValueError(e: Exc) {
    e.MissingFeatures? || e.ValueError?
  }

  /** `isinstance(v, collections.abc.Sequence)`: lists and also strings. */
  predicate IsSequence(v: Value) {
    v.List? || v.Str?
  }

  /** Lists and dicts cannot be dict keys. */
  predicate Hashable(v: Value) {
    !v.List? && !v.Dict?
  }

  /** The class name Python prints in its error messages. */
  function TypeName(v: Value): string {
    match v
    case Null => "NoneType"
    case Bool(_) => "bool"
    case Num(_) => "int"
    case Str(_) => "str"
    case List(_) => "list"
    case Dict(_) => "dict"
  }

  /** Booleans compare and hash as the integers 0 and 1. */
  function Canonical(v: Value): Value {
    if v.Bool? then Num(if v.b then 1 else 0) else v
  }

  /** Equality of two dict keys. */
  predicate KeyEq(a: Value, b: Value) {
    Canonical(a) == Canonical(b)
  }

  /** `list(v)` for a sequence: a list is copied, a string is split into characters. */
  function AsList(v: Value): seq<Value>
    requires IsSequence(v)
  {
    if v.List? then v.items else seq(|v.s|, i requires 0 <= i < |v.s| => Str([v.s[i]]))
  }

  /** `list(d.keys())` */
  function Keys(entries: seq<(Value, Value)>): (ks: seq<Value>)
    ensures |ks| == |entries|
    ensures forall i :: 0 <= i < |entries| ==> ks[i] == entries[i].0
  {
    seq(|entries|, i requires 0 <= i < |entries| => entries[i].0)
  }

  /** `k in d` */
  predicate HasKey(entries: seq<(Value, Value)>, k: Value) {
    exists i :: 0 <= i < |entries| && KeyEq(entries[i].0, k)
  }

  /** No two entries of a dict have equal keys. */
  predicate DistinctKeys(entries: seq<(Value, Value)>) {
    forall i, j :: 0 <= i < j < |entries| ==> !KeyEq(entries[i].0, entries[j].0)
  }

  /** The position of the entry whose key equals `k`. */
  function IndexOf(entries: seq<(Value, Value)>, k: Value): (r: Option<nat>)
    ensures r.None? <==> !HasKey(entries, k)
    ensures r.Some? ==> r.value < |entries| && KeyEq(entries[r.value].0, k)
    ensures r.Some? ==> forall j :: 0 <= j < r.value ==> !KeyEq(entries[j].0, k)
  {
    if |entries| == 0 then None
    else if KeyEq(entries[0].0, k) then Some(0)
    else
      match IndexOf(entries[1..], k)
      case Some(i) => Some(i + 1)
      case None =>
        assert forall j :: 1 <= j < |entries| ==> entries[j] == entries[1..][j - 1];
        None
  }

  /** `d.get(k)` */
  function Get(entries: seq<(Value, Value)>, k: Value): (r: Option<Value>)
    ensures r.Some? <==> HasKey(entries, k)
    ensures r.Some? ==> exists i :: 0 <= i < |entries| && KeyEq(entries[i].0, k) && entries[i].1 == r.value
  {
    match IndexOf(entries, k)
    case Some(i) => Some(entries[i].1)
    case None => None
  }

  /** The entry found for `k` is the first one whose key equals `k`. */
  lemma GetFirstMatch(entries: seq<(Value, Value)>, k: Value, i: nat)
    requires i < |entries| && KeyEq(entries[i].0, k)
    requires forall j :: 0 <= j < i ==> !KeyEq(entries[j].0, k)
    ensures Get(entries, k) == Some(entries[i].1)
  {
    var r := IndexOf(entries, k);
    assert r.Some?;
  }

  /** `s` contains `k` as a contiguous substring (Python's `k in s` on strings). */
  predicate IsSubstring(k: string, s: string)
    decreases |s|
  {
    (|k| <= |s| && s[..|k|] == k) || (|s| > 0 && IsSubstring(k, s[1..]))
  }

  function NatToString(n: nat): string
    decreases n
  {
    if n < 10 then ["0123456789"[n]] else NatToString(n / 10) + ["0123456789"[n % 10]]
  }

  function IntToString(i: int): string {
    if i < 0 then "-" + NatToString(-i) else NatToString(i)
  }

  function Join(parts: seq<string>, sep: string): string
    decreases |parts|
  {
    if |parts| == 0 then ""
    else if |parts| == 1 then parts[0]
    else parts[0] + sep + Join(parts[1..], sep)
  }

  /** `repr(v)`, with strings quoted but not escaped. */
  function Repr(v: Value): string
    decreases v
  {
    match v
    case Null => "None"
    case Bool(b) => if b then "True" else "False"
    case Num(n) => IntToString(n)
    case Str(s) => "'" + s + "'"
    case List(items) =>
      "[" + Join(seq(|items|, i requires 0 <= i < |items| => Repr(items[i])), ", ") + "]"
    case Dict(es) =>
      "{" + Join(seq(|es|, i requires 0 <= i < |es| => Repr(es[i].0) + ": " + Repr(es[i].1)), ", ") + "}"
  }

  /** `str(v)`: a string is itself, anything else is its repr. */
  function PyStr(v: Value): string {
    if v.Str? then v.s else Repr(v)
  }
}
